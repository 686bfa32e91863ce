/**
 * The patient's booking page of app/appointments/book/page.tsx: the search
 * filter over the loaded doctors, the sorted list of specializations offered
 * for filtering, the query string of the doctor list, and the form state
 * around a booking request.  Network replies are parameters;
 * `encodeURIComponent` is a parameter as well, and the deadline is kept as
 * the text handed to `new Date(...)`.
 */
module BookingPage {
  import opened Js
  import opened Text
  import opened Seqs

  /** A doctor as the doctor list returns it. */
  datatype DoctorItem = DoctorItem(id: string, name: string, email: string, location: Option<string>, specialization: string)

  // ---------------------------------------------------------------------------
  // Search filter

  /** The doctor's name, specialization or location (`''` when absent) contains the term, or the term is empty. */
  predicate Matches(d: DoctorItem, term: string) {
    term == "" || Contains(ToLower(d.name), term) || Contains(ToLower(d.specialization), term)
    || Contains(ToLower(OrElse(d.location, "")), term)
  }

  /** `doctors.filter(...)` with the prepared term. */
  function FilterDoctors(doctors: seq<DoctorItem>, term: string): (r: seq<DoctorItem>)
    ensures IsSubseq(r, doctors)
    ensures forall i :: 0 <= i < |r| ==> Matches(r[i], term)
    ensures forall i :: 0 <= i < |doctors| && Matches(doctors[i], term) ==> doctors[i] in r
    ensures forall x :: multiset(r)[x] == (if Matches(x, term) then multiset(doctors)[x] else 0)
  {
    if doctors == [] then []
    else
      var t := FilterDoctors(doctors[1..], term);
      assert forall i :: 1 <= i < |doctors| ==> doctors[i] == doctors[1..][i - 1];
      assert doctors == [doctors[0]] + doctors[1..];
      assert multiset(doctors) == multiset{doctors[0]} + multiset(doctors[1..]);
      if Matches(doctors[0], term) then
        assert ([doctors[0]] + t)[1..] == t;
        [doctors[0]] + t
      else
        SkipHead(t, doctors);
        t
  }

  /** `filtered`: the doctors matching the trimmed, lower-cased search text, in their original order. */
  function Filtered(doctors: seq<DoctorItem>, search: string): (r: seq<DoctorItem>)
    ensures IsSubseq(r, doctors)
    ensures forall i :: 0 <= i < |r| ==> Matches(r[i], ToLower(Trim(search)))
    ensures forall i :: 0 <= i < |doctors| && Matches(doctors[i], ToLower(Trim(search))) ==> doctors[i] in r
    ensures forall x :: multiset(r)[x] == (if Matches(x, ToLower(Trim(search))) then multiset(doctors)[x] else 0)
    ensures r == FilterDoctors(doctors, ToLower(Trim(search)))
  {
    FilterDoctors(doctors, ToLower(Trim(search)))
  }

  lemma {:induction false} FilterAllMatch(doctors: seq<DoctorItem>, term: string)
    requires forall i :: 0 <= i < |doctors| ==> Matches(doctors[i], term)
    ensures FilterDoctors(doctors, term) == doctors
  {
    if doctors != [] {
      FilterAllMatch(doctors[1..], term);
      assert doctors == [doctors[0]] + doctors[1..];
    }
  }

  /** An empty or blank search keeps every doctor. */
  lemma BlankSearchKeepsAll(doctors: seq<DoctorItem>, search: string)
    requires forall i :: 0 <= i < |search| ==> IsSpace(search[i])
    ensures Filtered(doctors, search) == doctors
  {
    TrimEmptyIffAllSpace(search);
    FilterAllMatch(doctors, ToLower(Trim(search)));
  }

  // ---------------------------------------------------------------------------
  // Specializations

  /** The order of the default `sort()`: character by character, a proper prefix first. */
  predicate Before(a: string, b: string)
    decreases |a|
  {
    if a == [] then b != []
    else if b == [] then false
    else if a[0] != b[0] then a[0] < b[0]
    else Before(a[1..], b[1..])
  }

  lemma {:induction false} BeforeIrreflexive(a: string)
    ensures !Before(a, a)
    decreases |a|
  {
    if a != [] { BeforeIrreflexive(a[1..]); }
  }

  lemma {:induction false} BeforeTotal(a: string, b: string)
    requires a != b
    ensures Before(a, b) || Before(b, a)
    decreases |a|
  {
    if a != [] && b != [] && a[0] == b[0] {
      assert a == [a[0]] + a[1..] && b == [b[0]] + b[1..];
      BeforeTotal(a[1..], b[1..]);
    }
  }

  lemma {:induction false} BeforeTransitive(a: string, b: string, c: string)
    requires Before(a, b) && Before(b, c)
    ensures Before(a, c)
    decreases |a|
  {
    if a != [] && a[0] == b[0] && b[0] == c[0] {
      BeforeTransitive(a[1..], b[1..], c[1..]);
    }
  }

  predicate StrictlySorted(s: seq<string>) {
    forall i, j :: 0 <= i < j < |s| ==> Before(s[i], s[j])
  }

  /** Places `x` among the strictly ordered `s`, where it does not occur yet. */
  function InsertOrdered(x: string, s: seq<string>): (r: seq<string>)
    requires StrictlySorted(s) && x !in s
    ensures StrictlySorted(r)
    ensures forall y :: y in r <==> y == x || y in s
    ensures |r| == |s| + 1
  {
    if s == [] then [x]
    else if Before(x, s[0]) then
      forall j | 0 < j < |s| ensures Before(x, s[j]) { BeforeTransitive(x, s[0], s[j]); }
      [x] + s
    else
      BeforeTotal(x, s[0]);
      var t := InsertOrdered(x, s[1..]);
      var r := [s[0]] + t;
      assert s == [s[0]] + s[1..];
      forall i, j | 0 <= i < j < |r| ensures Before(r[i], r[j]) {
        assert r[j] == t[j - 1] && t[j - 1] in t;
        if i > 0 {
          assert r[i] == t[i - 1];
        } else if t[j - 1] != x {
          var k :| 0 <= k < |s[1..]| && s[1..][k] == t[j - 1];
          assert s[k + 1] == t[j - 1];
        }
      }
      r
  }

  /** `.sort()` of a duplicate-free list of strings. */
  function SortDistinct(xs: seq<string>): (r: seq<string>)
    requires Distinct(xs)
    ensures StrictlySorted(r)
    ensures forall y :: y in r <==> y in xs
    ensures |r| == |xs|
  {
    if xs == [] then []
    else
      var init := xs[..|xs| - 1];
      assert xs == init + [xs[|xs| - 1]];
      InsertOrdered(xs[|xs| - 1], SortDistinct(init))
  }

  /** Some loaded doctor has the specialization `s`. */
  predicate Offers(doctors: seq<DoctorItem>, s: string) {
    exists i :: 0 <= i < |doctors| && doctors[i].specialization == s
  }

  /** `doctors.map(d => d.specialization).filter(Boolean)` */
  function NonEmptySpecializations(doctors: seq<DoctorItem>): (r: seq<string>)
    ensures forall y :: y in r <==> y != "" && Offers(doctors, y)
  {
    if doctors == [] then []
    else
      var t := NonEmptySpecializations(doctors[1..]);
      assert forall i :: 1 <= i < |doctors| ==> doctors[i] == doctors[1..][i - 1];
      if doctors[0].specialization != "" then [doctors[0].specialization] + t else t
  }

  /** `specializations`: every non-empty specialization of the loaded doctors, once each, in sorted order. */
  function Specializations(doctors: seq<DoctorItem>): (r: seq<string>)
    ensures StrictlySorted(r)
    ensures forall y :: y in r <==> y != "" && Offers(doctors, y)
  {
    var listed := NonEmptySpecializations(doctors);
    var names := Dedup(listed);
    assert forall y :: y in names <==> y in listed by {
      forall y ensures y in names <==> y in listed {
        if y in names { var i :| 0 <= i < |names| && names[i] == y; }
        if y in listed { var i :| 0 <= i < |listed| && listed[i] == y; }
      }
    }
    SortDistinct(names)
  }

  /** A strictly ordered list lists no value twice. */
  lemma SortedIsDistinct(s: seq<string>)
    requires StrictlySorted(s)
    ensures Distinct(s)
  {
    forall i, j | 0 <= i < j < |s| ensures s[i] != s[j] {
      if s[i] == s[j] { BeforeIrreflexive(s[i]); }
    }
  }

  lemma {:induction false} BeforeAsymmetric(a: string, b: string)
    ensures !(Before(a, b) && Before(b, a))
    decreases |a|
  {
    if a != [] && b != [] && a[0] == b[0] {
      BeforeAsymmetric(a[1..], b[1..]);
    }
  }

  /** The head of a strictly ordered list comes before every other member. */
  lemma HeadFirst(s: seq<string>, y: string)
    requires StrictlySorted(s) && y in s
    ensures y == s[0] || Before(s[0], y)
  {
    var k :| 0 <= k < |s| && s[k] == y;
  }

  /** Lists with the same members are both empty or both not. */
  lemma SameMembersBothEmpty(a: seq<string>, b: seq<string>)
    requires forall y :: y in a <==> y in b
    ensures a == [] <==> b == []
  {
    if a != [] { assert a[0] in a; }
    if b != [] { assert b[0] in b; }
  }

  /** A strictly ordered list is fixed by its elements. */
  lemma {:induction false} StrictlySortedUnique(a: seq<string>, b: seq<string>)
    requires StrictlySorted(a) && StrictlySorted(b)
    requires forall y :: y in a <==> y in b
    ensures a == b
    decreases |a|
  {
    SameMembersBothEmpty(a, b);
    if a != [] {
      assert a[0] in a;
      assert b[0] in b;
      HeadFirst(a, b[0]);
      HeadFirst(b, a[0]);
      BeforeAsymmetric(a[0], b[0]);
      SortedIsDistinct(a);
      SortedIsDistinct(b);
      forall y ensures y in a[1..] <==> y in b[1..] {
        if y in a[1..] {
          var i :| 0 <= i < |a[1..]| && a[1..][i] == y;
          assert a[i + 1] == y && y in b;
          var j :| 0 <= j < |b| && b[j] == y;
          assert b[1..][j - 1] == y;
        }
        if y in b[1..] {
          var i :| 0 <= i < |b[1..]| && b[1..][i] == y;
          assert b[i + 1] == y && y in a;
          var j :| 0 <= j < |a| && a[j] == y;
          assert a[1..][j - 1] == y;
        }
      }
      StrictlySortedUnique(a[1..], b[1..]);
      assert a == [a[0]] + a[1..] && b == [b[0]] + b[1..];
    }
  }

  /** The specialization list depends only on which specializations occur, not on the order or number of doctors. */
  lemma SpecializationsIgnoreOrder(d1: seq<DoctorItem>, d2: seq<DoctorItem>)
    requires forall s :: s != "" ==> (Offers(d1, s) <==> Offers(d2, s))
    ensures Specializations(d1) == Specializations(d2)
  {
    StrictlySortedUnique(Specializations(d1), Specializations(d2));
  }

  // ---------------------------------------------------------------------------
  // Doctor-list query

  /** The query string of the doctor list: a filter only for a specialization other than `'all'`. */
  function Query(specialization: string, encode: string -> string): (r: string)
    ensures specialization == "" || specialization == "all" ==> r == ""
    ensures specialization != "" && specialization != "all" ==>
      r == "?specialization=" + encode(specialization)
  {
    if specialization != "" && specialization != "all" then "?specialization=" + encode(specialization) else ""
  }

  // ---------------------------------------------------------------------------
  // Booking form

  /** The body of the booking request. */
  datatype BookingRequest = BookingRequest(doctorId: string, deadline: string, notes: string)

  /** The answer to a booking request: `res.ok` and the body's `success` and `message`. */
  datatype BookingReply = BookingReply(ok: bool, success: bool, message: Option<string>)

  const SelectDoctor := "Select a doctor"
  const SelectDeadline := "Select deadline date and time"
  const Requested := "Appointment requested. It will appear as pending until approved by the doctor."

  /** The page state. */
  class BookingView {
    var doctors: seq<DoctorItem>
    var specialization: string
    var search: string
    var selectedDoctor: string
    var deadlineDate: string
    var deadlineTime: string
    var notes: string
    var loading: bool
    var message: Option<string>

    constructor ()
      ensures doctors == [] && specialization == "all" && search == ""
      ensures selectedDoctor == "" && deadlineDate == "" && deadlineTime == "" && notes == ""
      ensures !loading && message == None
    {
      doctors := [];
      specialization := "all";
      search := "";
      selectedDoctor := "";
      deadlineDate := "";
      deadlineTime := "";
      notes := "";
      loading := false;
      message := None;
    }

    /** The first effect: a non-blank `specialization` or `doctorId` query parameter preselects it. */
    method ApplyQuery(sp: Option<string>, did: Option<string>)
      modifies this
      ensures specialization == (if sp.Some? && Trim(sp.value) != "" then sp.value else old(specialization))
      ensures selectedDoctor == (if did.Some? && Trim(did.value) != "" then did.value else old(selectedDoctor))
      ensures doctors == old(doctors) && search == old(search) && deadlineDate == old(deadlineDate)
      ensures deadlineTime == old(deadlineTime) && notes == old(notes) && loading == old(loading) && message == old(message)
    {
      if sp.Some? && Trim(sp.value) != "" {
        specialization := sp.value;
      }
      if did.Some? && Trim(did.value) != "" {
        selectedDoctor := did.value;
      }
    }

    /** The doctor-list effect: a successful answer replaces the list. */
    method ReceiveDoctors(success: bool, list: seq<DoctorItem>)
      modifies this
      ensures doctors == (if success then list else old(doctors))
      ensures specialization == old(specialization) && search == old(search) && selectedDoctor == old(selectedDoctor)
      ensures deadlineDate == old(deadlineDate) && deadlineTime == old(deadlineTime) && notes == old(notes)
      ensures loading == old(loading) && message == old(message)
    {
      if success {
        doctors := list;
      }
    }

    /**
     * `submit`: without a doctor, or without both a date and a time, only a
     * message is set and nothing is sent; otherwise the request is sent, and
     * a success clears the doctor, date, time and notes.
     */
    method Submit(reply: BookingReply) returns (sent: Option<BookingRequest>)
      modifies this
      ensures sent.Some? <==> (old(selectedDoctor) != "" && old(deadlineDate) != "" && old(deadlineTime) != "")
      ensures old(selectedDoctor) == "" ==>
        message == Some(SelectDoctor) && selectedDoctor == old(selectedDoctor) && deadlineDate == old(deadlineDate)
        && deadlineTime == old(deadlineTime) && notes == old(notes) && loading == old(loading)
      ensures old(selectedDoctor) != "" && (old(deadlineDate) == "" || old(deadlineTime) == "") ==>
        message == Some(SelectDeadline) && selectedDoctor == old(selectedDoctor) && deadlineDate == old(deadlineDate)
        && deadlineTime == old(deadlineTime) && notes == old(notes) && loading == old(loading)
      ensures old(selectedDoctor) != "" && old(deadlineDate) != "" && old(deadlineTime) != "" ==>
        sent == Some(BookingRequest(old(selectedDoctor), old(deadlineDate) + "T" + old(deadlineTime) + ":00", old(notes)))
        && !loading
      ensures sent.Some? && reply.ok && reply.success ==>
        message == Some(Requested) && selectedDoctor == "" && deadlineDate == "" && deadlineTime == "" && notes == ""
      ensures sent.Some? && !(reply.ok && reply.success) ==>
        message == Some(OrElse(reply.message, "Failed to book appointment")) && selectedDoctor == old(selectedDoctor)
        && deadlineDate == old(deadlineDate) && deadlineTime == old(deadlineTime) && notes == old(notes)
      ensures doctors == old(doctors) && specialization == old(specialization) && search == old(search)
    {
      if selectedDoctor == "" {
        message := Some(SelectDoctor);
        return None;
      }
      if deadlineDate == "" || deadlineTime == "" {
        message := Some(SelectDeadline);
        return None;
      }
      loading := true;
      message := None;
      sent := Some(BookingRequest(selectedDoctor, deadlineDate + "T" + deadlineTime + ":00", notes));
      if reply.ok && reply.success {
        message := Some(Requested);
        selectedDoctor := "";
        deadlineDate := "";
        deadlineTime := "";
        notes := "";
      } else {
        message := Some(OrElse(reply.message, "Failed to book appointment"));
      }
      loading := false;
    }
  }
}
