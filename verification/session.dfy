/**
 * The `auth_session` cookie as the API routes read it (`getSessionUser`):
 * the parsed JSON object, or nothing when the cookie is missing or does not
 * parse.  Only the two fields the routes look at are kept.
 */
module Session {
  import opened Js

  datatype SessionUser = SessionUser(id: Option<string>, role: Option<string>)

  /** `session?.id` when it is truthy: the caller's id, or nothing for an anonymous request. */
  function SessionId(session: Option<SessionUser>): (r: Option<string>)
    ensures r.Some? <==> session.Some? && Truthy(session.value.id)
    ensures r.Some? ==> r.value != "" && r == session.value.id
  {
    if session.Some? && Truthy(session.value.id) then session.value.id else None
  }
}
