/**
 * `GET` and `PATCH /api/doctor/appointments` (app/api/doctor/appointments/route.ts):
 * a chain of early-returning checks, then one status update in the store.
 * The user record looked up for the session id and the store are parameters.
 * An identifier the `ObjectId` constructor refuses, or a body that is not
 * JSON, throws outside any `try`, which the framework answers with 500.
 */
module DoctorAppointmentsRoute {
  import opened Js
  import opened Session
  import opened Appointments
  import opened ObjectIds

  /** The `users` document found for the session id, as far as the checks read it. */
  datatype Caller = Caller(id: string, role: Option<string>)

  /** `me && me.role === 'doctor'` */
  predicate IsDoctor(me: Option<Caller>) {
    me.Some? && me.value.role == Some("doctor")
  }

  /**
   * The JSON body of a `PATCH` request.  A `null` body cannot be
   * destructured and throws like one that is not JSON: both are `Malformed`.
   */
  datatype PatchBody = PatchBody(appointmentId: Option<string>, action: Option<string>, scheduledAt: Option<string>)

  /** `appointmentId && action && ['approve', 'reject'].includes(action)` */
  predicate WellFormed(body: PatchBody) {
    Truthy(body.appointmentId) && Truthy(body.action) && body.action.value in ["approve", "reject"]
  }

  /** The appointment exists and belongs to the calling doctor. */
  predicate Owns(me: Caller, records: map<string, Appointment>, appointmentId: string) {
    appointmentId in records && records[appointmentId].doctorId == me.id
  }

  /** The checks on the body pass: a valid action, and a time for an approval. */
  predicate Complete(body: PatchBody) {
    WellFormed(body) && !(body.action == Some("approve") && !Truthy(body.scheduledAt))
  }

  /** The session names a caller whose id `new ObjectId` accepts. */
  predicate SessionIdOk(session: Option<SessionUser>) {
    SessionId(session).Some? && WellFormedId(SessionId(session).value)
  }

  /** The outcome of the checks: an error status, or the update to perform. */
  datatype Decision = Refuse(code: nat) | Apply(appointmentId: string, status: Status, scheduledAt: Option<string>)

  /**
   * `GET`: 401 without a session id, 500 when `new ObjectId` refuses it,
   * 403 unless the caller is a doctor, else 200 with the list.
   */
  function GetStatus(session: Option<SessionUser>, me: Option<Caller>): (code: nat)
    ensures code == 401 <==> SessionId(session).None?
    ensures code == 500 <==> SessionId(session).Some? && !SessionIdOk(session)
    ensures code == 403 <==> SessionIdOk(session) && !IsDoctor(me)
    ensures code == 200 <==> SessionIdOk(session) && IsDoctor(me)
  {
    if SessionId(session).None? then 401
    else if !WellFormedId(SessionId(session).value) then 500
    else if !IsDoctor(me) then 403
    else 200
  }

  /**
   * The checks of `PATCH`, in order: session (401), the session id as an
   * `ObjectId` (500), doctor (403), a body that parses (500), the body's
   * fields (422), scheduled time for an approval (422), the appointment id
   * as an `ObjectId` (500), ownership (404).  The first failing check
   * decides; when all pass, approve becomes `approved` and reject becomes
   * `rejected`, with `scheduledAt` passed on as given.
   */
  function PatchDecision(session: Option<SessionUser>, me: Option<Caller>, body: JsonBody<PatchBody>,
                         records: map<string, Appointment>): (d: Decision)
    ensures d == Refuse(401) <==> SessionId(session).None?
    ensures d == Refuse(500) <==>
      && SessionId(session).Some?
      && (|| !SessionIdOk(session)
          || (&& IsDoctor(me)
              && (|| body.Malformed?
                  || (Complete(body.value) && !WellFormedId(body.value.appointmentId.value)))))
    ensures d == Refuse(403) <==> SessionIdOk(session) && !IsDoctor(me)
    ensures d == Refuse(422) <==> SessionIdOk(session) && IsDoctor(me) && body.Parsed? && !Complete(body.value)
    ensures d == Refuse(404) <==>
      && SessionIdOk(session) && IsDoctor(me) && body.Parsed? && Complete(body.value)
      && WellFormedId(body.value.appointmentId.value)
      && !Owns(me.value, records, body.value.appointmentId.value)
    ensures d.Apply? <==>
      && SessionIdOk(session) && IsDoctor(me) && body.Parsed? && Complete(body.value)
      && WellFormedId(body.value.appointmentId.value)
      && Owns(me.value, records, body.value.appointmentId.value)
    ensures d.Refuse? ==> d.code in {401, 403, 404, 422, 500}
    ensures d.Apply? ==>
      && d.appointmentId == body.value.appointmentId.value
      && (d.status == Approved <==> body.value.action == Some("approve"))
      && (d.status == Rejected <==> body.value.action == Some("reject"))
      && (d.status == Approved ==> Truthy(d.scheduledAt))
      && d.scheduledAt == body.value.scheduledAt
  {
    if SessionId(session).None? then Refuse(401)
    else if !WellFormedId(SessionId(session).value) then Refuse(500)
    else if !IsDoctor(me) then Refuse(403)
    else match body
      case Malformed => Refuse(500)
      case Parsed(b) =>
        if !WellFormed(b) then Refuse(422)
        else if b.action == Some("approve") && !Truthy(b.scheduledAt) then Refuse(422)
        else if !WellFormedId(b.appointmentId.value) then Refuse(500)
        else if !Owns(me.value, records, b.appointmentId.value) then Refuse(404)
        else Apply(b.appointmentId.value, if b.action == Some("approve") then Approved else Rejected, b.scheduledAt)
  }

  /** A doctor can never change an appointment that belongs to someone else. */
  lemma OnlyOwnAppointments(session: Option<SessionUser>, me: Option<Caller>, body: JsonBody<PatchBody>,
                            records: map<string, Appointment>)
    requires PatchDecision(session, me, body, records).Apply?
    ensures var id := PatchDecision(session, me, body, records).appointmentId;
      me.Some? && id in records && records[id].doctorId == me.value.id
  {
  }

  /** `PATCH`: the checks, then the status update in the store on success (200). */
  method Patch(session: Option<SessionUser>, me: Option<Caller>, body: JsonBody<PatchBody>,
               store: AppointmentStore, now: int) returns (code: nat)
    modifies store
    ensures var d := PatchDecision(session, me, body, old(store.records));
      && (d.Refuse? ==> code == d.code && store.records == old(store.records))
      && (d.Apply? ==>
            (code == 200
             && store.records == old(store.records)[d.appointmentId :=
                  StatusUpdate(old(store.records)[d.appointmentId], d.status, d.scheduledAt, now)]))
  {
    var d := PatchDecision(session, me, body, store.records);
    if d.Refuse? {
      return d.code;
    }
    store.UpdateStatus(d.appointmentId, d.status, d.scheduledAt, now);
    return 200;
  }

  /** After a successful approval the record is approved and carries the requested time. */
  lemma ApprovalSchedules(a: Appointment, scheduledAt: Option<string>, now: int)
    requires Truthy(scheduledAt)
    ensures StatusUpdate(a, Approved, scheduledAt, now).status == Approved
    ensures StatusUpdate(a, Approved, scheduledAt, now).scheduledAt == scheduledAt
  {
  }
}
