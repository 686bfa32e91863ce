/**
 * The client-side authentication state of hooks/useAuth.tsx: the current
 * user, whether the session is authenticated, and whether the first check is
 * still running, together with the four operations that change them.  Each
 * network exchange is a parameter: `None` when `fetch` or `response.json()`
 * throws, otherwise the parsed reply.  Writing the credentials to
 * `localStorage` is not modelled.
 */
module AuthContext {
  import opened Js

  /** The signed-in user as the server describes it. */
  datatype AuthUser = AuthUser(id: string, name: string, email: string, role: Option<string>)

  /** The `data` member of a reply: absent, or an object whose `user` may be absent. */
  datatype ReplyData = NoData | WithData(user: Option<AuthUser>)

  /** A reply that arrived and parsed: `response.ok` and the body's `success`, `message` and `data`. */
  datatype Reply = Reply(ok: bool, success: bool, message: Option<string>, data: ReplyData)

  /** What `login`, `register` and `logout` resolve to. */
  datatype Outcome = Outcome(success: bool, message: Option<string>)

  /** The argument of `register`. */
  datatype Registration = Registration(
    name: string, email: string, password: string, role: string, location: string,
    specialization: Option<string>, experience: Option<JsNumber>,
    achievements: Option<seq<string>>, profilePicture: Option<string>)

  const CredentialsRequired := "Email and password are required"
  const IdentityRequired := "Name, email and password are required"
  const RoleRequired := "Role is required"
  const LocationRequired := "Location is required"
  const SpecializationRequired := "Specialization is required for doctors"
  const ExperienceInvalid := "Experience must be a non-negative number"

  /** `isNaN(exp) || exp < 0` with `exp = experience ?? 0`. */
  predicate ExperienceRejected(experience: Option<JsNumber>) {
    experience.Some? && (experience.value.IsNaN() || experience.value.Negative())
  }

  /** A finite, non-negative experience passes the check. */
  lemma FiniteNonNegativeAccepted(n: JsNumber)
    requires n.Finite? && n.v >= 0.0
    ensures !ExperienceRejected(Some(n))
  {
  }

  /** Name, e-mail and password are all given. */
  predicate IdentityGiven(d: Registration) {
    d.name != "" && d.email != "" && d.password != ""
  }

  /** Every check of `register` passes. */
  predicate RegistrationAcceptable(d: Registration) {
    d.name != "" && d.email != "" && d.password != "" && d.role != "" && d.location != ""
    && (d.role == "doctor" ==> Truthy(d.specialization) && !ExperienceRejected(d.experience))
  }

  /** The message of the first check of `register` that fails, in the order the checks are made. */
  function RegistrationError(d: Registration): (r: Option<string>)
    ensures r.None? <==> RegistrationAcceptable(d)
    ensures r == Some(IdentityRequired) <==> !IdentityGiven(d)
    ensures r == Some(RoleRequired) <==> IdentityGiven(d) && d.role == ""
    ensures r == Some(LocationRequired) <==> IdentityGiven(d) && d.role != "" && d.location == ""
    ensures r == Some(SpecializationRequired) <==>
      IdentityGiven(d) && d.location != "" && d.role == "doctor" && !Truthy(d.specialization)
    ensures r == Some(ExperienceInvalid) <==>
      IdentityGiven(d) && d.location != "" && d.role == "doctor" && Truthy(d.specialization)
      && ExperienceRejected(d.experience)
  {
    if d.name == "" || d.email == "" || d.password == "" then Some(IdentityRequired)
    else if d.role == "" then Some(RoleRequired)
    else if d.location == "" then Some(LocationRequired)
    else if d.role == "doctor" && !Truthy(d.specialization) then Some(SpecializationRequired)
    else if d.role == "doctor" && ExperienceRejected(d.experience) then Some(ExperienceInvalid)
    else None
  }

  /** `response.ok && data.success`, and `data.data.user` can be read. */
  predicate Accepted(reply: Option<Reply>) {
    reply.Some? && reply.value.ok && reply.value.success && reply.value.data.WithData?
  }

  /**
   * How a login or registration request ends once it has been sent: accepted
   * with the server's message; refused with the server's message or
   * `refused`; or, when the exchange throws (including reading `user` from an
   * absent `data`), with `failed`.
   */
  function Settle(reply: Option<Reply>, refused: string, failed: string): (r: Outcome)
    ensures r.success <==> Accepted(reply)
    ensures r.success ==> r.message == reply.value.message
    ensures !r.success ==> r.message.Some?
    ensures reply.None? || (reply.value.ok && reply.value.success && reply.value.data.NoData?)
      ==> r == Outcome(false, Some(failed))
    ensures reply.Some? && !(reply.value.ok && reply.value.success)
      ==> r == Outcome(false, Some(OrElse(reply.value.message, refused)))
  {
    match reply
    case None => Outcome(false, Some(failed))
    case Some(rp) =>
      if rp.ok && rp.success then
        if rp.data.WithData? then Outcome(true, rp.message) else Outcome(false, Some(failed))
      else Outcome(false, Some(OrElse(rp.message, refused)))
  }

  /** What `login` resolves to. */
  function LoginOutcome(email: string, password: string, reply: Option<Reply>): (r: Outcome)
    ensures r.success <==> email != "" && password != "" && Accepted(reply)
    ensures !r.success ==> r.message.Some?
    ensures email == "" || password == "" ==> r == Outcome(false, Some(CredentialsRequired))
  {
    if email == "" || password == "" then Outcome(false, Some(CredentialsRequired))
    else Settle(reply, "Login failed", "Login failed. Please try again.")
  }

  /** What `register` resolves to: a failed check answers without a request. */
  function RegisterOutcome(d: Registration, reply: Option<Reply>): (r: Outcome)
    ensures r.success <==> RegistrationError(d).None? && Accepted(reply)
    ensures !r.success ==> r.message.Some?
    ensures RegistrationError(d).Some? ==> r == Outcome(false, RegistrationError(d))
  {
    match RegistrationError(d)
    case Some(m) => Outcome(false, Some(m))
    case None => Settle(reply, "Registration failed", "Registration failed. Please try again.")
  }

  /** What `logout` resolves to; it never reads `data.data`. */
  function LogoutOutcome(reply: Option<Reply>): (r: Outcome)
    ensures r.success <==> reply.Some? && reply.value.ok && reply.value.success
    ensures r.success ==> r.message == reply.value.message
    ensures reply.None? ==> r == Outcome(false, Some("Logout failed. Please try again."))
    ensures reply.Some? && !r.success ==> r == Outcome(false, Some(OrElse(reply.value.message, "Logout failed")))
  {
    match reply
    case None => Outcome(false, Some("Logout failed. Please try again."))
    case Some(rp) =>
      if rp.ok && rp.success then Outcome(true, rp.message)
      else Outcome(false, Some(OrElse(rp.message, "Logout failed")))
  }

  /** The user `checkAuth` keeps: the one a successful verification reply names, if any. */
  function VerifiedUser(reply: Option<Reply>): (r: Option<AuthUser>)
    ensures r.Some? <==>
      reply.Some? && reply.value.ok && reply.value.success
      && reply.value.data.WithData? && reply.value.data.user.Some?
    ensures r.Some? ==> r == reply.value.data.user
  {
    if reply.Some? && reply.value.ok && reply.value.success && reply.value.data.WithData? then
      reply.value.data.user
    else None
  }

  /** The state the `AuthProvider` holds. */
  class AuthState {
    var user: Option<AuthUser>
    var isAuthenticated: bool
    var isLoading: bool

    /** The session is authenticated exactly when a user is known. */
    predicate Consistent()
      reads this
    {
      isAuthenticated <==> user.Some?
    }

    /** The initial state, before the first `checkAuth` has finished. */
    constructor ()
      ensures user == None && !isAuthenticated && isLoading
      ensures Consistent()
    {
      user := None;
      isAuthenticated := false;
      isLoading := true;
    }

    /** `checkAuth`: whatever the verification request returns, loading ends and the state is consistent. */
    method CheckAuth(reply: Option<Reply>)
      modifies this
      ensures user == VerifiedUser(reply)
      ensures !isLoading && Consistent()
    {
      isLoading := true;
      if reply.Some? && reply.value.ok {
        var rp := reply.value;
        if rp.success && rp.data.WithData? && rp.data.user.Some? {
          user := rp.data.user;
          isAuthenticated := true;
        } else {
          user := None;
          isAuthenticated := false;
        }
      } else {
        user := None;
        isAuthenticated := false;
      }
      isLoading := false;
    }

    /**
     * `login`: an accepted sign-in stores the reply's user and marks the
     * session authenticated; every other outcome leaves the state untouched.
     */
    method Login(email: string, password: string, reply: Option<Reply>) returns (out: Outcome)
      modifies this
      ensures out == LoginOutcome(email, password, reply)
      ensures out.success ==> user == reply.value.data.user && isAuthenticated && isLoading == old(isLoading)
      ensures out.success && reply.value.data.user.Some? ==> Consistent()
      ensures !out.success ==> unchanged(this)
    {
      if email == "" || password == "" {
        return Outcome(false, Some(CredentialsRequired));
      }
      out := Settle(reply, "Login failed", "Login failed. Please try again.");
      if out.success {
        user := reply.value.data.user;
        isAuthenticated := true;
      }
    }

    /** `register`: the checks come first; after them it behaves as `login` does. */
    method Register(d: Registration, reply: Option<Reply>) returns (out: Outcome)
      modifies this
      ensures out == RegisterOutcome(d, reply)
      ensures out.success ==> user == reply.value.data.user && isAuthenticated && isLoading == old(isLoading)
      ensures out.success && reply.value.data.user.Some? ==> Consistent()
      ensures !out.success ==> unchanged(this)
    {
      var problem := RegistrationError(d);
      if problem.Some? {
        return Outcome(false, problem);
      }
      out := Settle(reply, "Registration failed", "Registration failed. Please try again.");
      if out.success {
        user := reply.value.data.user;
        isAuthenticated := true;
      }
    }

    /** `logout`: the local session is cleared whatever the server answers. */
    method Logout(reply: Option<Reply>) returns (out: Outcome)
      modifies this
      ensures out == LogoutOutcome(reply)
      ensures user == None && !isAuthenticated && isLoading == old(isLoading)
      ensures Consistent()
    {
      user := None;
      isAuthenticated := false;
      out := LogoutOutcome(reply);
    }
  }

  /** A sign-in attempt with an empty field never reaches the server's answer. */
  lemma EmptyCredentialsIgnoreReply(email: string, password: string, r1: Option<Reply>, r2: Option<Reply>)
    requires email == "" || password == ""
    ensures LoginOutcome(email, password, r1) == LoginOutcome(email, password, r2)
  {
  }

  /** A registration refused by a check never reaches the server's answer. */
  lemma RejectedRegistrationIgnoresReply(d: Registration, r1: Option<Reply>, r2: Option<Reply>)
    requires RegistrationError(d).Some?
    ensures RegisterOutcome(d, r1) == RegisterOutcome(d, r2)
  {
  }

  /**
   * The experience check rejects NaN and negative numbers only: an infinite
   * experience passes it.
   */
  lemma InfiniteExperiencePasses(d: Registration)
    requires d.name != "" && d.email != "" && d.password != "" && d.location != ""
    requires d.role == "doctor" && Truthy(d.specialization) && d.experience == Some(PosInfinity)
    ensures RegistrationError(d) == None
  {
  }
}
