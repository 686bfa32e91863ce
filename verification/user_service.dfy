/**
 * The account service of lib/user-service.ts: the registration checks that
 * report every problem at once, account creation keyed by the lower-cased
 * address, and sign-in that does not reveal whether an address is
 * registered.  The users collection is a map from stored address to
 * document; hashing, password comparison, new ids and the clock are
 * parameters, and database failures are not modelled.
 */
module UserService {
  import opened Js
  import opened Text
  import opened Seqs
  import AuthUtils

  /** The argument of `createUser`. */
  datatype Registration = Registration(name: string, email: string, password: string)

  /** A stored account. */
  datatype UserRecord = UserRecord(id: string, name: string, email: string, passwordHash: string, createdAt: int, updatedAt: int)

  /** An account as it is returned: everything but the password. */
  datatype PublicUser = PublicUser(id: string, name: string, email: string, createdAt: int, updatedAt: int)

  /** The service's answer. */
  datatype ApiResponse = ApiResponse(success: bool, message: string, data: Option<PublicUser>, error: Option<string>)

  const NameError := "Name must be at least 2 characters long"
  const EmailError := "Valid email address is required"

  /** The three possible messages, in the order the checks run. */
  const AllErrors: seq<string> := [NameError, EmailError, AuthUtils.PasswordTooShort]

  predicate NameBad(d: Registration) {
    |Trim(d.name)| < 2
  }

  predicate EmailBad(d: Registration) {
    d.email == "" || !AuthUtils.ValidateEmail(d.email)
  }

  predicate PasswordBad(d: Registration) {
    |d.password| < 6
  }

  /** The errors `validateUserData` reports: one per failing check, in check order. */
  function UserDataErrors(d: Registration): (r: seq<string>)
    ensures NameError in r <==> NameBad(d)
    ensures EmailError in r <==> EmailBad(d)
    ensures AuthUtils.PasswordTooShort in r <==> PasswordBad(d)
    ensures IsSubseq(r, AllErrors)
    ensures r == [] <==> !NameBad(d) && !EmailBad(d) && !PasswordBad(d)
  {
    var name := if NameBad(d) then [NameError] else [];
    var email := if EmailBad(d) then [EmailError] else [];
    var password := if PasswordBad(d) then [AuthUtils.PasswordTooShort] else [];
    SubseqOfParts(name, email, password);
    name + email + password
  }

  /** Each part a sub-list of its own message keeps the whole a sub-list of the three in order. */
  lemma SubseqOfParts(a: seq<string>, b: seq<string>, c: seq<string>)
    requires a == [] || a == [NameError]
    requires b == [] || b == [EmailError]
    requires c == [] || c == [AuthUtils.PasswordTooShort]
    ensures IsSubseq(a + b + c, AllErrors)
  {
    OptionalSubseq(a, NameError);
    OptionalSubseq(b, EmailError);
    OptionalSubseq(c, AuthUtils.PasswordTooShort);
    SubseqConcat(a, [NameError], b, [EmailError]);
    SubseqConcat(a + b, [NameError] + [EmailError], c, [AuthUtils.PasswordTooShort]);
    assert AllErrors == [NameError] + [EmailError] + [AuthUtils.PasswordTooShort];
  }

  lemma OptionalSubseq(a: seq<string>, x: string)
    requires a == [] || a == [x]
    ensures IsSubseq(a, [x])
  {
    if a == [x] {
      assert a[1..] == [];
    }
  }

  /** `validateUserData`: every failing check adds its message, and the data is valid when none does. */
  method ValidateUserData(d: Registration) returns (isValid: bool, errors: seq<string>)
    ensures errors == UserDataErrors(d)
    ensures isValid <==> errors == []
  {
    errors := [];
    if d.name == "" || |Trim(d.name)| < 2 {
      errors := errors + [NameError];
    }
    if d.email == "" || !AuthUtils.ValidateEmail(d.email) {
      errors := errors + [EmailError];
    }
    var passwordCheck := AuthUtils.ValidatePassword(d.password);
    if !passwordCheck.isValid {
      errors := errors + passwordCheck.messages;
    }
    isValid := |errors| == 0;
  }

  /** The stored account as returned: the password is dropped. */
  function Public(u: UserRecord): (p: PublicUser)
    ensures p.id == u.id && p.name == u.name && p.email == u.email
    ensures p.createdAt == u.createdAt && p.updatedAt == u.updatedAt
  {
    PublicUser(u.id, u.name, u.email, u.createdAt, u.updatedAt)
  }

  /** The document `createUser` inserts for checked data at time `now`. */
  function NewUser(d: Registration, id: string, hash: string, now: int): (u: UserRecord)
    ensures u.name == Trim(d.name) && u.email == ToLower(d.email) && u.passwordHash == hash
    ensures u.id == id && u.createdAt == now && u.updatedAt == now
  {
    UserRecord(id, Trim(d.name), ToLower(d.email), hash, now, now)
  }

  /** What `createUser` answers, given the collection before the call. */
  function CreateOutcome(users: map<string, UserRecord>, d: Registration, hash: string -> string, newId: string, now: int)
    : (r: ApiResponse)
    ensures UserDataErrors(d) != [] ==>
      r == ApiResponse(false, "Validation failed", None, Some(Join(UserDataErrors(d), ", ")))
    ensures UserDataErrors(d) == [] && ToLower(d.email) in users ==>
      r == ApiResponse(false, "User already exists", None, Some("An account with this email address already exists"))
    ensures r.success <==> UserDataErrors(d) == [] && ToLower(d.email) !in users
    ensures r.success ==> r.data == Some(Public(NewUser(d, newId, hash(d.password), now)))
  {
    var errors := UserDataErrors(d);
    if errors != [] then ApiResponse(false, "Validation failed", None, Some(Join(errors, ", ")))
    else if ToLower(d.email) in users then
      ApiResponse(false, "User already exists", None, Some("An account with this email address already exists"))
    else ApiResponse(true, "User created successfully", Some(Public(NewUser(d, newId, hash(d.password), now))), None)
  }

  const InvalidCredentials := ApiResponse(false, "Invalid credentials", None, Some("Email or password is incorrect"))

  /** What `authenticateUser` answers, given the collection before the call. */
  function AuthenticateOutcome(users: map<string, UserRecord>, email: string, password: string,
                               matches: (string, string) -> bool): (r: ApiResponse)
    ensures !AuthUtils.ValidateEmail(email) ==>
      r == ApiResponse(false, "Invalid email format", None, Some("Please provide a valid email address"))
    ensures r.success <==> (AuthUtils.ValidateEmail(email) && ToLower(email) in users
      && matches(password, users[ToLower(email)].passwordHash))
    ensures r.success ==> r.data == Some(Public(users[ToLower(email)]))
    ensures AuthUtils.ValidateEmail(email) && !r.success ==> r == InvalidCredentials
  {
    if !AuthUtils.ValidateEmail(email) then
      ApiResponse(false, "Invalid email format", None, Some("Please provide a valid email address"))
    else if ToLower(email) !in users then InvalidCredentials
    else
      var u := users[ToLower(email)];
      if !matches(password, u.passwordHash) then InvalidCredentials
      else ApiResponse(true, "Authentication successful", Some(Public(u)), None)
  }

  /**
   * An unknown address and a wrong password for a known one get the same
   * answer, so the answer does not tell whether an address is registered.
   */
  lemma UnknownAndWrongPasswordAlike(users: map<string, UserRecord>, unknown: string, known: string, p1: string, p2: string,
                                     matches: (string, string) -> bool)
    requires AuthUtils.ValidateEmail(unknown) && ToLower(unknown) !in users
    requires AuthUtils.ValidateEmail(known) && ToLower(known) in users
    requires !matches(p2, users[ToLower(known)].passwordHash)
    ensures AuthenticateOutcome(users, unknown, p1, matches) == AuthenticateOutcome(users, known, p2, matches)
  {
  }

  /** A malformed address is answered before the collection is consulted. */
  lemma MalformedEmailIgnoresStore(u1: map<string, UserRecord>, u2: map<string, UserRecord>, email: string, password: string,
                                   matches: (string, string) -> bool)
    requires !AuthUtils.ValidateEmail(email)
    ensures AuthenticateOutcome(u1, email, password, matches) == AuthenticateOutcome(u2, email, password, matches)
  {
  }

  /** The users collection. */
  class UserStore {
    var users: map<string, UserRecord>

    /** Every document is stored under its own address, which is in lower case. */
    predicate Valid()
      reads this
    {
      forall k :: k in users ==> users[k].email == k && ToLower(k) == k
    }

    constructor ()
      ensures users == map[] && Valid()
    {
      users := map[];
    }

    /** `createUser`: on success the new document is stored under the lower-cased address; otherwise nothing changes. */
    method CreateUser(d: Registration, hash: string -> string, newId: string, now: int) returns (r: ApiResponse)
      requires Valid()
      modifies this
      ensures Valid()
      ensures r == CreateOutcome(old(users), d, hash, newId, now)
      ensures r.success ==> users == old(users)[ToLower(d.email) := NewUser(d, newId, hash(d.password), now)]
      ensures !r.success ==> unchanged(this)
    {
      var isValid, errors := ValidateUserData(d);
      if !isValid {
        return ApiResponse(false, "Validation failed", None, Some(Join(errors, ", ")));
      }
      var key := ToLower(d.email);
      if key in users {
        return ApiResponse(false, "User already exists", None, Some("An account with this email address already exists"));
      }
      var u := NewUser(d, newId, hash(d.password), now);
      ToLowerIdempotent(d.email);
      users := users[key := u];
      r := ApiResponse(true, "User created successfully", Some(Public(u)), None);
    }

    /**
     * `authenticateUser`: a successful sign-in refreshes `updatedAt` of that
     * account alone and returns the account as it was read, before the
     * refresh; every failure leaves the collection as it was.
     */
    method AuthenticateUser(email: string, password: string, matches: (string, string) -> bool, now: int)
      returns (r: ApiResponse)
      requires Valid()
      modifies this
      ensures Valid()
      ensures r == AuthenticateOutcome(old(users), email, password, matches)
      ensures r.success ==> users == old(users)[ToLower(email) := old(users)[ToLower(email)].(updatedAt := now)]
      ensures !r.success ==> unchanged(this)
    {
      if !AuthUtils.ValidateEmail(email) {
        return ApiResponse(false, "Invalid email format", None, Some("Please provide a valid email address"));
      }
      var key := ToLower(email);
      if key !in users {
        return InvalidCredentials;
      }
      var u := users[key];
      if !matches(password, u.passwordHash) {
        return InvalidCredentials;
      }
      users := users[key := u.(updatedAt := now)];
      r := ApiResponse(true, "Authentication successful", Some(Public(u)), None);
    }
  }
}
