/**
 * The account-creation endpoint of app/api/auth/signup/route.ts: the input
 * checks, the normalised e-mail address, the sign-in shortcut for an existing
 * account whose password matches, and the document stored for a new one.
 * The users collection is a map from e-mail address to stored document;
 * hashing, comparing passwords, the new database id and the clock are
 * parameters, and the session cookie is not modelled.
 */
module SignupRoute {
  import opened Js
  import opened Text
  import Achievements
  import UserModel

  /** The `achievements` member of the request body. */
  datatype AchievementsField = AchievementList(items: seq<string>) | AchievementText(text: string) | NoAchievements

  /**
   * The request body.  `experience` is `Number(experience)` of the value sent,
   * `None` when it was absent or `null`; `profilePicture` is `None` unless a
   * string was sent.
   */
  datatype SignupBody = SignupBody(
    name: Option<string>, email: Option<string>, password: Option<string>, role: Option<string>,
    location: Option<string>, specialization: Option<string>, experience: Option<JsNumber>,
    achievements: AchievementsField, profilePicture: Option<string>)

  /** A document of the users collection. */
  datatype StoredUser = StoredUser(
    id: string, name: string, email: string, passwordHash: string, role: string, location: string,
    specialization: Option<string>, experience: JsNumber, achievements: seq<string>,
    profilePicture: Option<string>, defaults: UserModel.DefaultUserData)

  /** The user object returned in the reply and kept in the session. */
  datatype SessionUser = SessionUser(id: string, name: string, email: string, role: Option<string>)

  datatype Response =
    | Rejected(status: nat, message: string)
    | SignedIn(user: SessionUser)
    | Created(record: StoredUser, user: SessionUser)

  const InvalidInput := "Invalid input. Password must be at least 4 characters."
  const InvalidRole := "Role must be 'doctor' or 'patient'"
  const LocationRequired := "Location is required"
  const SpecializationRequired := "Specialization is required for doctors"
  const ExperienceInvalid := "Experience must be a non-negative number"
  const AlreadyExists := "User with this email already exists."

  /** `Number(experience ?? 0)` */
  function ExperienceNumber(experience: Option<JsNumber>): JsNumber {
    if experience.Some? then experience.value else Finite(0.0)
  }

  /** `Number.isFinite(n) && n >= 0` */
  predicate NonNegativeFinite(n: JsNumber) {
    n.Finite? && n.v >= 0.0
  }

  /** A present string that is not blank. */
  predicate Filled(s: Option<string>) {
    s.Some? && Trim(s.value) != ""
  }

  predicate IdentityOk(b: SignupBody) {
    Truthy(b.name) && Truthy(b.email) && Truthy(b.password) && |b.password.value| >= 4
  }

  predicate RoleOk(b: SignupBody) {
    b.role == Some("doctor") || b.role == Some("patient")
  }

  predicate DoctorFieldsOk(b: SignupBody) {
    Filled(b.specialization) && NonNegativeFinite(ExperienceNumber(b.experience))
  }

  /** The 422 message of the first input check that fails, in the order the route makes them. */
  function InputError(b: SignupBody): (r: Option<string>)
    ensures r.None? <==> IdentityOk(b) && RoleOk(b) && Filled(b.location) && (b.role == Some("doctor") ==> DoctorFieldsOk(b))
    ensures r == Some(InvalidInput) <==> !IdentityOk(b)
    ensures r == Some(InvalidRole) <==> IdentityOk(b) && !RoleOk(b)
    ensures r == Some(LocationRequired) <==> IdentityOk(b) && RoleOk(b) && !Filled(b.location)
    ensures r == Some(SpecializationRequired) <==>
      IdentityOk(b) && Filled(b.location) && b.role == Some("doctor") && !Filled(b.specialization)
    ensures r == Some(ExperienceInvalid) <==>
      IdentityOk(b) && Filled(b.location) && b.role == Some("doctor") && Filled(b.specialization)
      && !NonNegativeFinite(ExperienceNumber(b.experience))
  {
    if !IdentityOk(b) then Some(InvalidInput)
    else if !RoleOk(b) then Some(InvalidRole)
    else if !Filled(b.location) then Some(LocationRequired)
    else if b.role == Some("doctor") && !Filled(b.specialization) then Some(SpecializationRequired)
    else if b.role == Some("doctor") && !NonNegativeFinite(ExperienceNumber(b.experience)) then Some(ExperienceInvalid)
    else None
  }

  /** `String(email).toLowerCase().trim()` */
  function NormalizeEmail(email: string): (r: string)
    ensures Trimmed(r)
    ensures AllLower(r)
  {
    ToLowerIsLower(email);
    TrimKeepsLower(ToLower(email));
    Trim(ToLower(email))
  }

  predicate AllLower(s: string) {
    forall i :: 0 <= i < |s| ==> LowerChar(s[i]) == s[i]
  }

  lemma ToLowerIsLower(s: string)
    ensures AllLower(ToLower(s))
  {
    forall i | 0 <= i < |s| ensures LowerChar(ToLower(s)[i]) == ToLower(s)[i] {
      LowerCharIdempotent(s[i]);
    }
  }

  lemma TrimKeepsLower(s: string)
    requires AllLower(s)
    ensures AllLower(Trim(s))
  {
    var k := TrimIsSlice(s);
    forall i | 0 <= i < |Trim(s)| ensures LowerChar(Trim(s)[i]) == Trim(s)[i] {
      assert Trim(s)[i] == s[k + i];
    }
  }

  lemma ToLowerOfLower(s: string)
    requires AllLower(s)
    ensures ToLower(s) == s
  {
  }

  /** Normalising an address twice is normalising it once. */
  lemma NormalizeEmailIdempotent(email: string)
    ensures NormalizeEmail(NormalizeEmail(email)) == NormalizeEmail(email)
  {
    var n := NormalizeEmail(email);
    ToLowerOfLower(n);
    TrimOfTrimmed(n);
  }

  /** Addresses that differ only in letter case or surrounding blanks reach the same account. */
  lemma NormalizeIgnoresCase(email: string)
    ensures NormalizeEmail(ToLower(email)) == NormalizeEmail(email)
  {
    ToLowerIdempotent(email);
  }

  /** The achievements a doctor's document stores: a list as sent, a text split into entries, otherwise none. */
  function DoctorAchievements(f: AchievementsField): (r: seq<string>)
    ensures f.AchievementList? ==> r == f.items
    ensures f.AchievementText? ==> r == Achievements.Split(f.text)
    ensures f.NoAchievements? ==> r == []
  {
    match f
    case AchievementList(items) => items
    case AchievementText(text) => Achievements.Split(text)
    case NoAchievements => []
  }

  /** The document inserted for a new account whose body passed the checks. */
  function NewRecord(b: SignupBody, id: string, hash: string, now: int): (r: StoredUser)
    requires InputError(b).None?
    ensures r.email == NormalizeEmail(b.email.value) && r.name == Trim(b.name.value)
    ensures r.location == Trim(b.location.value) && r.passwordHash == hash && r.role == b.role.value
    ensures b.role == Some("patient") ==>
      r.specialization == None && r.experience == Finite(0.0) && r.achievements == []
    ensures b.role == Some("doctor") ==>
      r.specialization == Some(Trim(b.specialization.value)) && r.specialization != Some("")
      && NonNegativeFinite(r.experience) && r.achievements == DoctorAchievements(b.achievements)
    ensures r.profilePicture == b.profilePicture
    ensures r.defaults == UserModel.CreateDefaultUserData(now)
  {
    var doctor := b.role == Some("doctor");
    StoredUser(
      id, Trim(b.name.value), NormalizeEmail(b.email.value), hash, b.role.value, Trim(b.location.value),
      if doctor then Some(Trim(b.specialization.value)) else None,
      if doctor then ExperienceNumber(b.experience) else Finite(0.0),
      if doctor then DoctorAchievements(b.achievements) else [],
      b.profilePicture,
      UserModel.CreateDefaultUserData(now))
  }

  /**
   * `POST`: the checks answer 422; an address already registered signs in
   * when `matches(password, storedHash)` holds and answers 409 otherwise; a
   * new address stores `NewRecord` under the id `newId` and answers 201.
   */
  function Post(b: SignupBody, users: map<string, StoredUser>, matches: (string, string) -> bool,
                hash: string -> string, newId: string, now: int): (r: Response)
    ensures InputError(b).Some? <==> r.Rejected? && r.status == 422
    ensures InputError(b).Some? ==> r.message == InputError(b).value
    ensures r.SignedIn? <==> (InputError(b).None? && NormalizeEmail(b.email.value) in users
      && matches(b.password.value, users[NormalizeEmail(b.email.value)].passwordHash))
    ensures (r.Rejected? && r.status == 409) <==> (InputError(b).None? && NormalizeEmail(b.email.value) in users
      && !matches(b.password.value, users[NormalizeEmail(b.email.value)].passwordHash))
    ensures r.Created? <==> InputError(b).None? && NormalizeEmail(b.email.value) !in users
    ensures r.Created? ==> (r.record == NewRecord(b, newId, hash(b.password.value), now)
      && r.user == SessionUser(newId, r.record.name, r.record.email, Some(r.record.role)))
    ensures r.SignedIn? ==> r.user.email == users[NormalizeEmail(b.email.value)].email
  {
    match InputError(b)
    case Some(m) => Rejected(422, m)
    case None =>
      var email := NormalizeEmail(b.email.value);
      if email in users then
        var existing := users[email];
        if matches(b.password.value, existing.passwordHash) then
          SignedIn(SessionUser(existing.id, existing.name, existing.email, None))
        else Rejected(409, AlreadyExists)
      else
        var record := NewRecord(b, newId, hash(b.password.value), now);
        Created(record, SessionUser(newId, record.name, record.email, Some(record.role)))
  }

  /** The users collection after a request: a new account is added under its address and nothing else changes. */
  function Stored(users: map<string, StoredUser>, r: Response): map<string, StoredUser> {
    if r.Created? then users[r.record.email := r.record] else users
  }

  /** An account is never created over an existing one, and every stored address is normalised. */
  lemma StoreKeysNormalised(b: SignupBody, users: map<string, StoredUser>, matches: (string, string) -> bool,
                            hash: string -> string, newId: string, now: int)
    requires forall e :: e in users ==> NormalizeEmail(e) == e
    ensures var r := Post(b, users, matches, hash, newId, now);
      var after := Stored(users, r);
      && (forall e :: e in users ==> e in after && after[e] == users[e])
      && (forall e :: e in after ==> NormalizeEmail(e) == e)
      && |after.Keys| <= |users.Keys| + 1
  {
    var r := Post(b, users, matches, hash, newId, now);
    if r.Created? {
      NormalizeEmailIdempotent(b.email.value);
      assert r.record.email == NormalizeEmail(b.email.value);
    }
    StoredKeepsAndNormalises(users, r, NormalizeEmail);
  }

  /** Storing a new address that `norm` leaves alone keeps every other account and adds one key. */
  lemma StoredKeepsAndNormalises(users: map<string, StoredUser>, r: Response, norm: string -> string)
    requires forall e :: e in users ==> norm(e) == e
    requires r.Created? ==> r.record.email !in users && norm(r.record.email) == r.record.email
    ensures var after := Stored(users, r);
      && (forall e :: e in users ==> e in after && after[e] == users[e])
      && (forall e :: e in after ==> norm(e) == e)
      && |after.Keys| <= |users.Keys| + 1
  {
    if r.Created? {
      InsertAddsOneKey(users, r.record.email, r.record);
    }
  }

  lemma InsertAddsOneKey(m: map<string, StoredUser>, k: string, v: StoredUser)
    ensures |m[k := v].Keys| <= |m.Keys| + 1
  {
    assert m[k := v].Keys == m.Keys + {k};
  }

  /** A second signup with the same address and password signs in instead of creating a second account. */
  lemma RepeatedSignupSignsIn(b: SignupBody, users: map<string, StoredUser>, matches: (string, string) -> bool,
                              hash: string -> string, newId: string, id2: string, now: int, later: int)
    requires forall p :: matches(p, hash(p))
    requires Post(b, users, matches, hash, newId, now).Created?
    ensures var after := Stored(users, Post(b, users, matches, hash, newId, now));
      Post(b, after, matches, hash, id2, later).SignedIn?
  {
  }

  /** A patient's document never carries doctor details, whatever the body sent. */
  lemma PatientIgnoresDoctorFields(b: SignupBody, id: string, hash: string, now: int)
    requires InputError(b).None? && b.role == Some("patient")
    ensures NewRecord(b, id, hash, now) == NewRecord(b.(specialization := None, experience := None, achievements := NoAchievements), id, hash, now)
  {
  }
}
