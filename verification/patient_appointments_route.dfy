/**
 * `GET` and `POST /api/appointments` (app/api/appointments/route.ts): the
 * patient side.  A session without a role passes the role check; a request
 * needs a doctor and a deadline; the new appointment belongs to the caller.
 * An identifier the `ObjectId` constructor refuses, or a body that is not
 * JSON, throws outside any `try`, which the framework answers with 500.
 */
module PatientAppointmentsRoute {
  import opened Js
  import opened Session
  import opened Appointments
  import opened ObjectIds

  /** Who may use the route: 401 without a session id, 403 for a role other than 'patient'. */
  datatype Access = Denied(code: nat) | Granted(patientId: string)

  function CheckAccess(session: Option<SessionUser>): (r: Access)
    ensures r == Denied(401) <==> SessionId(session).None?
    ensures r == Denied(403) <==>
      (SessionId(session).Some? && Truthy(session.value.role) && session.value.role != Some("patient"))
    ensures r.Granted? <==>
      (SessionId(session).Some? && (!Truthy(session.value.role) || session.value.role == Some("patient")))
    ensures r.Granted? ==> Some(r.patientId) == session.value.id
  {
    match SessionId(session)
    case None => Denied(401)
    case Some(id) =>
      if Truthy(session.value.role) && session.value.role != Some("patient") then Denied(403)
      else Granted(id)
  }

  /**
   * `GET`: the access check, then the listing, whose query converts the
   * caller's id with `new ObjectId` (500 when it is refused); the listing
   * itself is a database query.
   */
  function GetStatus(session: Option<SessionUser>): (code: nat)
    ensures code == 200 <==> CheckAccess(session).Granted? && WellFormedId(CheckAccess(session).patientId)
    ensures code == 500 <==> CheckAccess(session).Granted? && !WellFormedId(CheckAccess(session).patientId)
    ensures CheckAccess(session).Denied? ==> code == CheckAccess(session).code
  {
    match CheckAccess(session)
    case Denied(c) => c
    case Granted(id) => if WellFormedId(id) then 200 else 500
  }

  /** The JSON body of a `POST`; a `null` body reads as `{}`. */
  datatype PostBody = PostBody(doctorId: Option<string>, deadline: Option<string>, notes: Option<string>)

  function BodyOrEmpty(body: Option<PostBody>): PostBody {
    if body.Some? then body.value else PostBody(None, None, None)
  }

  /** Both fields `POST` insists on are given. */
  predicate Complete(b: PostBody) {
    Truthy(b.doctorId) && Truthy(b.deadline)
  }

  /**
   * `POST`: access; 500 when the body is not JSON; 422 unless both
   * `doctorId` and `deadline` are truthy; 500 when `createAppointment`
   * cannot convert the caller's id or the doctor's id to an `ObjectId`;
   * otherwise a pending appointment for the caller is stored under the fresh
   * id `newId` and returned with 201.
   */
  method Post(session: Option<SessionUser>, body: JsonBody<Option<PostBody>>, store: AppointmentStore,
              newId: string, now: int)
    returns (code: nat, created: Option<Appointment>)
    requires newId !in store.records
    modifies store
    ensures code == 201 <==>
      && CheckAccess(session).Granted? && body.Parsed? && Complete(BodyOrEmpty(body.value))
      && WellFormedId(CheckAccess(session).patientId) && WellFormedId(BodyOrEmpty(body.value).doctorId.value)
    ensures CheckAccess(session).Denied? ==> code == CheckAccess(session).code
    ensures code == 422 <==> CheckAccess(session).Granted? && body.Parsed? && !Complete(BodyOrEmpty(body.value))
    ensures code == 500 <==>
      && CheckAccess(session).Granted?
      && (|| body.Malformed?
          || (&& Complete(BodyOrEmpty(body.value))
              && !(WellFormedId(CheckAccess(session).patientId) && WellFormedId(BodyOrEmpty(body.value).doctorId.value))))
    ensures code != 201 ==> created == None && store.records == old(store.records)
    ensures code == 201 ==>
      var b := BodyOrEmpty(body.value);
      && created == Some(NewAppointment(CheckAccess(session).patientId, b.doctorId.value, b.deadline.value, b.notes, now))
      && store.records == old(store.records)[newId := created.value]
  {
    var access := CheckAccess(session);
    if access.Denied? {
      return access.code, None;
    }
    if body.Malformed? {
      return 500, None;
    }
    var b := BodyOrEmpty(body.value);
    if !Truthy(b.doctorId) || !Truthy(b.deadline) {
      return 422, None;
    }
    if !WellFormedId(access.patientId) || !WellFormedId(b.doctorId.value) {
      return 500, None;
    }
    var a := store.Create(newId, access.patientId, b.doctorId.value, b.deadline.value, b.notes, now);
    return 201, Some(a);
  }

  /** Whatever the body says, the created appointment is the caller's own, and it starts out pending. */
  lemma CreatedForCaller(session: Option<SessionUser>, b: PostBody, now: int)
    requires CheckAccess(session).Granted? && Truthy(b.doctorId) && Truthy(b.deadline)
    ensures var a := NewAppointment(CheckAccess(session).patientId, b.doctorId.value, b.deadline.value, b.notes, now);
      Some(a.patientId) == session.value.id && a.status == Pending
  {
  }
}
