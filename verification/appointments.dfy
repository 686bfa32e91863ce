/**
 * The appointment store of lib/appointments.ts: new requests start out
 * pending, a doctor's decision rewrites the status, the update time and the
 * scheduled time of one stored record, and doctor profiles are published
 * without their password.  The database collection is a map from appointment
 * id to record; clock readings are parameters, and date strings are kept as
 * they are given.
 */
module Appointments {
  import opened Js

  datatype Status = Pending | Approved | Rejected

  datatype Appointment = Appointment(
    patientId: string, doctorId: string, requestedAt: int, deadline: string,
    status: Status, scheduledAt: Option<string>, notes: Option<string>,
    createdAt: int, updatedAt: int)

  /** The document `createAppointment` inserts, created at time `now`. */
  function NewAppointment(patientId: string, doctorId: string, deadline: string, notes: Option<string>, now: int): (a: Appointment)
    ensures a.status == Pending && a.scheduledAt == None
    ensures a.requestedAt == now && a.createdAt == now && a.updatedAt == now
    ensures a.patientId == patientId && a.doctorId == doctorId
    ensures a.deadline == deadline && a.notes == notes
  {
    Appointment(patientId, doctorId, now, deadline, Pending, None, notes, now, now)
  }

  /**
   * The record after `updateAppointmentStatus` has applied its `$set` at time
   * `now`: the status is replaced whatever it was, an approval with a truthy
   * `scheduledAt` stores it, an approval without one keeps the old value, and
   * every other status clears it.
   */
  function StatusUpdate(a: Appointment, status: Status, scheduledAt: Option<string>, now: int): (r: Appointment)
    ensures r.status == status && r.updatedAt == now
    ensures status != Approved ==> r.scheduledAt == None
    ensures status == Approved && Truthy(scheduledAt) ==> r.scheduledAt == scheduledAt
    ensures status == Approved && !Truthy(scheduledAt) ==> r.scheduledAt == a.scheduledAt
    ensures r.(status := a.status, updatedAt := a.updatedAt, scheduledAt := a.scheduledAt) == a
  {
    var scheduled :=
      if status == Approved && Truthy(scheduledAt) then scheduledAt
      else if status != Approved then None
      else a.scheduledAt;
    a.(status := status, updatedAt := now, scheduledAt := scheduled)
  }

  /** A decision applied twice at the same time is the decision applied once. */
  lemma StatusUpdateIdempotent(a: Appointment, status: Status, scheduledAt: Option<string>, now: int)
    ensures StatusUpdate(StatusUpdate(a, status, scheduledAt, now), status, scheduledAt, now)
         == StatusUpdate(a, status, scheduledAt, now)
  {
  }

  /** The status a record ends with depends only on the last decision: earlier ones are overwritten. */
  lemma LastDecisionWins(a: Appointment, s1: Status, t1: Option<string>, n1: int, s2: Status, t2: Option<string>, n2: int)
    requires s2 != Approved || Truthy(t2)
    ensures StatusUpdate(StatusUpdate(a, s1, t1, n1), s2, t2, n2) == StatusUpdate(a, s2, t2, n2)
  {
  }

  /** The appointments collection. */
  class AppointmentStore {
    var records: map<string, Appointment>

    constructor ()
      ensures records == map[]
    {
      records := map[];
    }

    /**
     * `createAppointment`: the new pending record is stored under `id`, the
     * identifier the database assigns (one not in use).
     */
    method Create(id: string, patientId: string, doctorId: string, deadline: string, notes: Option<string>, now: int)
      returns (a: Appointment)
      requires id !in records
      modifies this
      ensures a == NewAppointment(patientId, doctorId, deadline, notes, now)
      ensures records == old(records)[id := a]
    {
      a := Appointment(patientId, doctorId, now, deadline, Pending, None, notes, now, now);
      records := records[id := a];
    }

    /**
     * `updateAppointmentStatus`: the `updates` object is built field by field
     * and set on the record with that id; an unknown id matches nothing.
     */
    method UpdateStatus(id: string, status: Status, scheduledAt: Option<string>, now: int)
      modifies this
      ensures id in old(records) ==> records == old(records)[id := StatusUpdate(old(records)[id], status, scheduledAt, now)]
      ensures id !in old(records) ==> records == old(records)
    {
      // `setScheduled` is the `scheduledAt` entry of `updates`, when there is one.
      var setScheduled: Option<Option<string>> := None;
      if status == Approved && Truthy(scheduledAt) {
        setScheduled := Some(scheduledAt);
      }
      if status != Approved {
        setScheduled := Some(None);
      }
      if id in records {
        var a := records[id];
        var updated := a.(status := status, updatedAt := now);
        if setScheduled.Some? {
          updated := updated.(scheduledAt := setScheduled.value);
        }
        records := records[id := updated];
      }
    }
  }

  /** A user document of the `users` collection, as `listDoctors` reads it. */
  datatype DoctorDoc = DoctorDoc(
    id: string, name: string, email: string, password: string, location: Option<string>,
    specialization: string, experience: Option<int>, achievements: Option<seq<string>>,
    profilePicture: Option<string>)

  /** `PublicDoctorProfile`: it has no password field. */
  datatype DoctorProfile = DoctorProfile(
    id: string, name: string, email: string, location: Option<string>, specialization: string,
    experience: Option<int>, achievements: Option<seq<string>>, profilePicture: Option<string>,
    status: string)

  /** The profile `listDoctors` publishes for one doctor. */
  function Profile(d: DoctorDoc): (p: DoctorProfile)
    ensures p.status == "active"
    ensures p.profilePicture == d.profilePicture
    ensures p.id == d.id && p.name == d.name && p.email == d.email && p.location == d.location
    ensures p.specialization == d.specialization && p.experience == d.experience && p.achievements == d.achievements
  {
    DoctorProfile(d.id, d.name, d.email, d.location, d.specialization, d.experience, d.achievements,
                  d.profilePicture, "active")
  }

  /** `docs.map(...)` in `listDoctors`, over the documents the query returned. */
  function ListDoctors(docs: seq<DoctorDoc>): (r: seq<DoctorProfile>)
    ensures |r| == |docs|
    ensures forall i :: 0 <= i < |docs| ==> r[i] == Profile(docs[i])
  {
    seq(|docs|, i requires 0 <= i < |docs| => Profile(docs[i]))
  }
}
