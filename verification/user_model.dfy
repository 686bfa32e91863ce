/**
 * The user-record helpers of lib/models/user.ts: removing the password before
 * a record leaves the server, and the counters every new account starts
 * with.  Hashing and comparing passwords is not part of this model.
 */
module UserModel {

  /**
   * A field value of a stored user document, as far as `sanitizeUser` looks
   * at it: a string, a database object id, `null`, an explicit `undefined`,
   * or any other value together with the text its `toString()` gives.
   */
  datatype Value = Str(s: string) | ObjectId(hex: string) | Null | Undefined | Other(text: string)

  /** `v?.toString()`, with `undefined` for a missing, `null` or `undefined` value. */
  function ToStringOpt(v: Value): (r: Value)
    ensures r.Undefined? <==> v.Null? || v.Undefined?
    ensures r.Str? <==> !(v.Null? || v.Undefined?)
  {
    match v
    case Str(s) => Str(s)
    case ObjectId(hex) => Str(hex)
    case Other(text) => Str(text)
    case Null => Undefined
    case Undefined => Undefined
  }

  /** `user._id?.toString() || user.id`. */
  function PublicId(user: map<string, Value>): (r: Value)
    ensures "_id" in user && ToStringOpt(user["_id"]).Str? && ToStringOpt(user["_id"]).s != ""
      ==> r == ToStringOpt(user["_id"])
    ensures !("_id" in user && ToStringOpt(user["_id"]).Str? && ToStringOpt(user["_id"]).s != "")
      ==> r == (if "id" in user then user["id"] else Undefined)
  {
    var fromId := if "_id" in user then ToStringOpt(user["_id"]) else Undefined;
    if fromId.Str? && fromId.s != "" then fromId
    else if "id" in user then user["id"]
    else Undefined
  }

  /**
   * `sanitizeUser`: every field but `password` is kept, and `id` is set from
   * the database id, or kept when there is none.
   */
  function SanitizeUser(user: map<string, Value>): (r: map<string, Value>)
    ensures "password" !in r
    ensures r.Keys == user.Keys - {"password"} + {"id"}
    ensures forall k :: k in user && k != "password" && k != "id" ==> r[k] == user[k]
    ensures r["id"] == PublicId(user)
  {
    (map k | k in user && k != "password" :: user[k])["id" := PublicId(user)]
  }

  /** A record that already carries a string `id` and no `_id` keeps that id. */
  lemma SanitizeKeepsId(user: map<string, Value>)
    requires "_id" !in user && "id" in user
    ensures SanitizeUser(user)["id"] == user["id"]
  {
  }

  /** Sanitising an already sanitised record changes nothing. */
  lemma SanitizeIdempotent(user: map<string, Value>)
    ensures SanitizeUser(SanitizeUser(user)) == SanitizeUser(user)
  {
    var once := SanitizeUser(user);
    var twice := SanitizeUser(once);
    assert twice["id"] == once["id"] by {
      if "_id" in user && ToStringOpt(user["_id"]).Str? && ToStringOpt(user["_id"]).s != "" {
        assert once["_id"] == user["_id"];
      }
    }
    assert twice.Keys == once.Keys;
  }

  datatype Progress = Progress(aiChat: nat, visionAnalysis: nat, imageDetection: nat)
  datatype Stats = Stats(totalChatsStarted: nat, totalImagesAnalyzed: nat, totalTimeSpent: nat, featuresUsed: nat)

  /** The fields `createDefaultUserData` adds to a new account; times are clock readings. */
  datatype DefaultUserData = DefaultUserData(createdAt: int, lastLogin: int, progress: Progress, stats: Stats)

  /** No activity has been recorded yet. */
  predicate Untouched(d: DefaultUserData) {
    d.progress.aiChat + d.progress.visionAnalysis + d.progress.imageDetection == 0
    && d.stats.totalChatsStarted + d.stats.totalImagesAnalyzed + d.stats.totalTimeSpent + d.stats.featuresUsed == 0
  }

  /** `createDefaultUserData()` at clock reading `now`. */
  function CreateDefaultUserData(now: int): (d: DefaultUserData)
    ensures Untouched(d)
    ensures d.createdAt == now && d.lastLogin == now
  {
    DefaultUserData(now, now, Progress(0, 0, 0), Stats(0, 0, 0, 0))
  }

  /** Accounts created at the same moment get the same defaults: the counters do not depend on anything. */
  lemma DefaultsDependOnlyOnTime(d: DefaultUserData)
    requires Untouched(d)
    ensures d == CreateDefaultUserData(d.createdAt).(lastLogin := d.lastLogin)
  {
  }
}
