/**
 * The scoring of `GET /api/mental-health` (app/api/mental-health/route.ts):
 * five scores start from fixed baselines, move with every recent chat session
 * by its severity and by whether it concerns mental health, and are clamped
 * to [0, 100]; a trend label is read off the overall score.
 */
module MentalHealth {
  import opened Js
  import opened Text
  import opened Session
  import opened ObjectIds

  /** A stored chat session, as far as the scoring reads it. */
  datatype ChatSession = ChatSession(severity: Option<string>, category: Option<string>, symptoms: Option<seq<string>>)

  /** The symptom names that mark a session as concerning mental health. */
  const MentalSymptoms: seq<string> := ["anxiety", "stress", "depression", "insomnia"]

  /** `recentChats.filter(chat => chat.severity === level).length` */
  function CountSeverity(chats: seq<ChatSession>, level: string): (n: nat)
    ensures n <= |chats|
  {
    if chats == [] then 0
    else CountSeverity(chats[..|chats| - 1], level) + (if chats[|chats| - 1].severity == Some(level) then 1 else 0)
  }

  /**
   * `chat.category === 'Mental Health' || chat.symptoms?.some(s => [...].includes(s.toLowerCase()))`
   */
  predicate MentalHealthRelated(c: ChatSession) {
    c.category == Some("Mental Health")
    || (c.symptoms.Some? && exists i | 0 <= i < |c.symptoms.value| :: ToLower(c.symptoms.value[i]) in MentalSymptoms)
  }

  /** The number of sessions concerning mental health. */
  function CountMentalHealth(chats: seq<ChatSession>): (n: nat)
    ensures n <= |chats|
  {
    if chats == [] then 0
    else CountMentalHealth(chats[..|chats| - 1]) + (if MentalHealthRelated(chats[|chats| - 1]) then 1 else 0)
  }

  /** The five scores before clamping. */
  datatype RawScores = RawScores(overall: int, stress: int, anxiety: int, mood: int, sleep: int)

  /** The scores as the adjustments leave them, before the clamping step. */
  function Raw(chats: seq<ChatSession>): RawScores {
    var severe := CountSeverity(chats, "Severe");
    var moderate := CountSeverity(chats, "Moderate");
    var mental := CountMentalHealth(chats);
    RawScores(
      80 - (severe * 15 + moderate * 8),
      30 + (severe * 20 + moderate * 10),
      25 + (severe * 15 + moderate * 8),
      85 - mental * 10,
      75 - mental * 8)
  }

  /** The trend label read off the clamped overall score. */
  function Trend(overall: int): (r: string)
    ensures r == "+5% this week" <==> overall > 75
    ensures r == "Stable" <==> 50 < overall <= 75
    ensures r == "-3% this week" <==> overall <= 50
  {
    if overall > 75 then "+5% this week" else if overall > 50 then "Stable" else "-3% this week"
  }

  /** The `data` object of a successful response. */
  datatype Metrics = Metrics(
    overallScore: int, stress: int, anxiety: int, mood: int, sleep: int,
    trend: string, recentSessionsCount: nat)

  /** What the scoring reports for a list of recent sessions. */
  function Assess(chats: seq<ChatSession>): (m: Metrics)
    ensures 0 <= m.overallScore <= 100 && 0 <= m.stress <= 100 && 0 <= m.anxiety <= 100
    ensures 0 <= m.mood <= 100 && 0 <= m.sleep <= 100
    ensures m.trend == Trend(m.overallScore) && m.recentSessionsCount == |chats|
  {
    var r := Raw(chats);
    var overall := Clamp(r.overall, 0, 100);
    Metrics(overall, Clamp(r.stress, 0, 100), Clamp(r.anxiety, 0, 100),
            Clamp(r.mood, 0, 100), Clamp(r.sleep, 0, 100), Trend(overall), |chats|)
  }

  /**
   * The body of the handler after the session check: the score variables are
   * adjusted in sequence and then clamped.
   */
  method ScoreSessions(chats: seq<ChatSession>) returns (m: Metrics)
    ensures m == Assess(chats)
  {
    var overallScore := 80;
    var stressLevel := 30;
    var anxietyLevel := 25;
    var moodScore := 85;
    var sleepScore := 75;
    if |chats| > 0 {
      var severeCounts := CountSeverity(chats, "Severe");
      var moderateCounts := CountSeverity(chats, "Moderate");
      overallScore := overallScore - (severeCounts * 15 + moderateCounts * 8);
      stressLevel := stressLevel + (severeCounts * 20 + moderateCounts * 10);
      anxietyLevel := anxietyLevel + (severeCounts * 15 + moderateCounts * 8);
      var mentalHealthSymptoms := CountMentalHealth(chats);
      if mentalHealthSymptoms > 0 {
        moodScore := moodScore - mentalHealthSymptoms * 10;
        sleepScore := sleepScore - mentalHealthSymptoms * 8;
      }
    }
    overallScore := Clamp(overallScore, 0, 100);
    stressLevel := Clamp(stressLevel, 0, 100);
    anxietyLevel := Clamp(anxietyLevel, 0, 100);
    moodScore := Clamp(moodScore, 0, 100);
    sleepScore := Clamp(sleepScore, 0, 100);
    var trend := if overallScore > 75 then "+5% this week" else if overallScore > 50 then "Stable" else "-3% this week";
    m := Metrics(overallScore, stressLevel, anxietyLevel, moodScore, sleepScore, trend, |chats|);
  }

  /** 401, a 500 from an exception outside any `try`, or 200 with the metrics. */
  datatype Response = Unauthorized | ServerError | Ok(data: Metrics)

  /**
   * `GET`: 401 without a session id; 500 when the query's `new ObjectId`
   * refuses it; otherwise the metrics of the sessions the store returned for
   * the caller (the query itself is not modelled).
   */
  method Get(session: Option<SessionUser>, recentChats: seq<ChatSession>) returns (r: Response)
    ensures r.Unauthorized? <==> SessionId(session).None?
    ensures r.ServerError? <==> SessionId(session).Some? && !WellFormedId(SessionId(session).value)
    ensures r.Ok? <==> SessionId(session).Some? && WellFormedId(SessionId(session).value)
    ensures r.Ok? ==> r.data == Assess(recentChats)
  {
    if SessionId(session).None? {
      return Unauthorized;
    }
    if !WellFormedId(SessionId(session).value) {
      return ServerError;
    }
    var m := ScoreSessions(recentChats);
    return Ok(m);
  }

  /** Without recent sessions every score sits at its baseline. */
  lemma NoSessionsBaseline()
    ensures Assess([]) == Metrics(80, 30, 25, 85, 75, "+5% this week", 0)
  {
  }

  /**
   * One more session moves the unclamped scores by its weight: Severe
   * -15/+20/+15, Moderate -8/+10/+8 on overall/stress/anxiety, and a session
   * concerning mental health -10 on mood and -8 on sleep.
   */
  lemma {:induction false} RawSnoc(chats: seq<ChatSession>, c: ChatSession)
    ensures var before := Raw(chats); var after := Raw(chats + [c]);
      var sev := if c.severity == Some("Severe") then 1 else 0;
      var mod := if c.severity == Some("Moderate") then 1 else 0;
      var men := if MentalHealthRelated(c) then 1 else 0;
      && after.overall == before.overall - 15 * sev - 8 * mod
      && after.stress == before.stress + 20 * sev + 10 * mod
      && after.anxiety == before.anxiety + 15 * sev + 8 * mod
      && after.mood == before.mood - 10 * men
      && after.sleep == before.sleep - 8 * men
  {
    assert (chats + [c])[..|chats|] == chats;
  }

  /** More sessions never raise the unclamped overall, mood or sleep score, nor lower stress or anxiety. */
  lemma {:induction false} MoreSessionsRaw(chats: seq<ChatSession>, more: seq<ChatSession>)
    ensures var a := Raw(chats); var b := Raw(chats + more);
      && b.overall <= a.overall && b.mood <= a.mood && b.sleep <= a.sleep
      && b.stress >= a.stress && b.anxiety >= a.anxiety
    decreases |more|
  {
    if more == [] {
      assert chats + more == chats;
    } else {
      var init := more[..|more| - 1];
      MoreSessionsRaw(chats, init);
      RawSnoc(chats + init, more[|more| - 1]);
      assert chats + more == (chats + init) + [more[|more| - 1]];
    }
  }

  lemma ClampMonotone(x: int, y: int)
    requires x <= y
    ensures Clamp(x, 0, 100) <= Clamp(y, 0, 100)
  {
  }

  /**
   * More sessions never raise the overall, mood or sleep score and never
   * lower the stress or anxiety level.
   */
  lemma MoreSessionsNeverImprove(chats: seq<ChatSession>, more: seq<ChatSession>)
    ensures var a := Assess(chats); var b := Assess(chats + more);
      && b.overallScore <= a.overallScore && b.mood <= a.mood && b.sleep <= a.sleep
      && b.stress >= a.stress && b.anxiety >= a.anxiety
  {
    var a := Raw(chats);
    var b := Raw(chats + more);
    MoreSessionsRaw(chats, more);
    ClampMonotone(b.overall, a.overall);
    ClampMonotone(b.mood, a.mood);
    ClampMonotone(b.sleep, a.sleep);
    ClampMonotone(a.stress, b.stress);
    ClampMonotone(a.anxiety, b.anxiety);
  }

  /** A Severe session lowers the overall score by 15 unless the clamp at 0 is reached. */
  lemma SevereSessionCosts15(chats: seq<ChatSession>, c: ChatSession)
    requires c.severity == Some("Severe")
    ensures Assess(chats + [c]).overallScore == Clamp(Raw(chats).overall - 15, 0, 100)
  {
    RawSnoc(chats, c);
  }
}
