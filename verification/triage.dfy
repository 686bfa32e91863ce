/**
 * The symptom and severity heuristics shared by the AI chat
 * (components/synaptix-ai/chat-interface.tsx) and the voice chat
 * (components/synaptix-haven/haven-chat.tsx).  Both files carry identical
 * copies; they are modelled once here.
 */
module Triage {
  import opened Text
  import opened Seqs

  /** The symptom dictionary, in declaration order. */
  const SymptomDict: seq<string> := [
    "anxiety", "stress", "depression", "insomnia", "panic", "sad", "hopeless", "worthless",
    "headache", "nausea", "fever", "cough", "fatigue", "dizzy", "pain", "chest pain",
    "shortness of breath"
  ]

  lemma SymptomDictDistinct()
    ensures Distinct(SymptomDict)
  {
  }

  /** The elements of a list, as a set. */
  function Elems(xs: seq<string>): set<string> {
    set x | x in xs
  }

  lemma ElemsSnoc(xs: seq<string>, x: string)
    ensures Elems(xs + [x]) == Elems(xs) + {x}
  {
  }

  /** `keys.filter(k => corpus.includes(k))` */
  function FilterPresent(keys: seq<string>, corpus: string): seq<string> {
    if keys == [] then []
    else if Contains(corpus, keys[0]) then [keys[0]] + FilterPresent(keys[1..], corpus)
    else FilterPresent(keys[1..], corpus)
  }

  /** The filter keeps, in order, exactly the keys that occur in the corpus. */
  lemma {:induction false} FilterPresentSpec(keys: seq<string>, corpus: string)
    ensures var r := FilterPresent(keys, corpus);
      && IsSubseq(r, keys)
      && (forall i :: 0 <= i < |r| ==> Contains(corpus, r[i]))
      && (forall i :: 0 <= i < |keys| && Contains(corpus, keys[i]) ==> keys[i] in r)
    decreases |keys|
  {
    if keys != [] {
      var t := FilterPresent(keys[1..], corpus);
      FilterPresentSpec(keys[1..], corpus);
      if Contains(corpus, keys[0]) {
        assert ([keys[0]] + t)[1..] == t;
      } else {
        SkipHead(t, keys);
      }
      forall i | 0 <= i < |keys| && Contains(corpus, keys[i])
        ensures keys[i] in FilterPresent(keys, corpus)
      {
        if i > 0 { assert keys[i] == keys[1..][i - 1]; }
      }
    }
  }

  /** Filtering a list extended by one key extends the result by that key exactly when it occurs. */
  lemma {:induction false} FilterPresentAppend(keys: seq<string>, k: string, corpus: string)
    ensures FilterPresent(keys + [k], corpus)
         == FilterPresent(keys, corpus) + (if Contains(corpus, k) then [k] else [])
    decreases |keys|
  {
    if keys == [] {
      assert ([k])[1..] == [];
    } else {
      assert (keys + [k])[1..] == keys[1..] + [k];
      FilterPresentAppend(keys[1..], k, corpus);
    }
  }

  /**
   * `extractSymptoms` of the AI chat: the dictionary entries that occur in the
   * lower-cased text, each once, in dictionary order.
   */
  function ExtractSymptoms(text: string): seq<string> {
    Dedup(FilterPresent(SymptomDict, ToLower(text)))
  }

  /** Every symptom found is a dictionary entry that occurs in the lower-cased text. */
  lemma ExtractedOccur(text: string)
    ensures var r := ExtractSymptoms(text);
      forall i :: 0 <= i < |r| ==> r[i] in SymptomDict && Contains(ToLower(text), r[i])
  {
    var found := FilterPresent(SymptomDict, ToLower(text));
    FilterPresentSpec(SymptomDict, ToLower(text));
    SubseqElements(found, SymptomDict);
  }

  lemma ExtractedInDict(text: string)
    ensures Elems(ExtractSymptoms(text)) <= Elems(SymptomDict)
  {
    ExtractedOccur(text);
  }

  /** Every dictionary entry that occurs in the lower-cased text is found. */
  lemma ExtractedComplete(text: string)
    ensures var r := ExtractSymptoms(text);
      forall k :: k in SymptomDict && Contains(ToLower(text), k) ==> k in r
  {
    FilterPresentSpec(SymptomDict, ToLower(text));
  }

  /** The symptoms found are listed once each, in dictionary order. */
  lemma ExtractedDistinctInOrder(text: string)
    ensures Distinct(ExtractSymptoms(text)) && IsSubseq(ExtractSymptoms(text), SymptomDict)
  {
    var found := FilterPresent(SymptomDict, ToLower(text));
    FilterPresentSpec(SymptomDict, ToLower(text));
    SymptomDictDistinct();
    SubseqOfDistinct(found, SymptomDict);
    DedupOfDistinct(found);
  }

  /**
   * `extractSymptoms` of the voice chat, which pushes matching keys in a loop
   * before removing duplicates; it returns the same list as the AI chat's.
   */
  method CollectSymptoms(text: string) returns (symptoms: seq<string>)
    ensures symptoms == ExtractSymptoms(text)
  {
    var corpus := ToLower(text);
    var found: seq<string> := [];
    for n := 0 to |SymptomDict|
      invariant found == FilterPresent(SymptomDict[..n], corpus)
    {
      var key := SymptomDict[n];
      FilterPresentAppend(SymptomDict[..n], key, corpus);
      assert SymptomDict[..n + 1] == SymptomDict[..n] + [key];
      if Contains(corpus, key) {
        found := found + [key];
      }
    }
    assert SymptomDict[..|SymptomDict|] == SymptomDict;
    symptoms := Dedup(found);
  }

  /** Words that add 3 to the severity score. */
  const SevereTerms: seq<string> := ["severe", "cannot", "suicid", "self-harm", "chest pain", "faint", "blackout"]
  /** Words that add 2. */
  const WorseTerms: seq<string> := ["worse", "pain", "panic", "insomnia", "anxiety", "depress", "breath"]
  /** Words that subtract 1. */
  const EasingTerms: seq<string> := ["mild", "slight", "okay", "better"]

  /** The change one user message makes to the accumulated severity score. */
  function SeverityDelta(text: string): (r: int)
    ensures -1 <= r <= 5
  {
    var t := ToLower(text);
    var severe := if ContainsAny(t, SevereTerms) then 3 else 0;
    var worse := if ContainsAny(t, WorseTerms) then 2 else 0;
    var easing := if ContainsAny(t, EasingTerms) then 1 else 0;
    severe + worse - easing
  }

  /**
   * The change is 3 when some severe term occurs, plus 2 when some worsening
   * term occurs, minus 1 when some easing term occurs.  So the score is
   * unchanged exactly when no term matches, falls exactly when only easing
   * terms match, and rises by 3 or more only with a severe term.
   */
  lemma SeverityDeltaSpec(text: string)
    ensures var t := ToLower(text);
      SeverityDelta(text)
        == (if ContainsAny(t, SevereTerms) then 3 else 0) + (if ContainsAny(t, WorseTerms) then 2 else 0)
         - (if ContainsAny(t, EasingTerms) then 1 else 0)
    ensures var t := ToLower(text); var r := SeverityDelta(text);
      && (r == 0 <==> !ContainsAny(t, SevereTerms) && !ContainsAny(t, WorseTerms) && !ContainsAny(t, EasingTerms))
      && (r < 0 <==> !ContainsAny(t, SevereTerms) && !ContainsAny(t, WorseTerms) && ContainsAny(t, EasingTerms))
      && (r >= 3 ==> ContainsAny(t, SevereTerms))
  {
  }

  /**
   * Each group counts once: two messages that match the same groups change
   * the score by the same amount, however many terms of a group they contain.
   */
  lemma SameGroupsSameDelta(a: string, b: string)
    requires ContainsAny(ToLower(a), SevereTerms) == ContainsAny(ToLower(b), SevereTerms)
    requires ContainsAny(ToLower(a), WorseTerms) == ContainsAny(ToLower(b), WorseTerms)
    requires ContainsAny(ToLower(a), EasingTerms) == ContainsAny(ToLower(b), EasingTerms)
    ensures SeverityDelta(a) == SeverityDelta(b)
  {
    SeverityDeltaSpec(a);
    SeverityDeltaSpec(b);
  }

  /** "chest pain" is both a severe and a worsening phrase, so such a message adds at least 4. */
  lemma ChestPainAddsAtLeastFour(text: string)
    requires Contains(ToLower(text), "chest pain")
    ensures SeverityDelta(text) >= 4
  {
    var t := ToLower(text);
    assert OccursAt("chest pain", "pain", 6);
    ContainsTrans(t, "chest pain", "pain");
    ContainsAnyOf(t, SevereTerms, 4);
    ContainsAnyOf(t, WorseTerms, 1);
  }

  datatype Severity = Mild | Moderate | Severe {
    function Rank(): nat {
      match this
      case Mild => 0
      case Moderate => 1
      case Severe => 2
    }
  }

  /** `severityLabel`: thresholds at 6 and 2. */
  function SeverityLabel(score: int): (r: Severity)
    ensures r == Severe <==> score >= 6
    ensures r == Moderate <==> 2 <= score < 6
    ensures r == Mild <==> score < 2
  {
    if score >= 6 then Severe
    else if score >= 2 then Moderate
    else Mild
  }

  /** A higher score never gets a milder label. */
  lemma SeverityLabelMonotone(a: int, b: int)
    requires a <= b
    ensures SeverityLabel(a).Rank() <= SeverityLabel(b).Rank()
  {
  }

  /**
   * The per-visit analytics refs of both chats: the message count, the set of
   * symptoms collected so far and the accumulated severity score.
   */
  class SessionAnalytics {
    var msgCount: nat
    var symptoms: set<string>
    var severityScore: int

    /** Every collected symptom is a dictionary entry. */
    ghost predicate Valid()
      reads this
    {
      symptoms <= Elems(SymptomDict)
    }

    constructor ()
      ensures Valid()
      ensures msgCount == 0 && symptoms == {} && severityScore == 0
    {
      msgCount := 0;
      symptoms := {};
      severityScore := 0;
    }

    /** `updateAnalyticsFromUser` */
    method UpdateFromUser(text: string)
      requires Valid()
      modifies this
      ensures Valid()
      ensures msgCount == old(msgCount) + 1
      ensures symptoms == old(symptoms) + Elems(ExtractSymptoms(text))
      ensures severityScore == old(severityScore) + SeverityDelta(text)
    {
      msgCount := msgCount + 1;
      var found := ExtractSymptoms(text);
      for i := 0 to |found|
        invariant msgCount == old(msgCount) + 1 && severityScore == old(severityScore)
        invariant symptoms == old(symptoms) + Elems(found[..i])
      {
        ElemsSnoc(found[..i], found[i]);
        assert found[..i + 1] == found[..i] + [found[i]];
        symptoms := symptoms + {found[i]};
      }
      assert found[..|found|] == found;
      ExtractedInDict(text);
      severityScore := severityScore + SeverityDelta(text);
    }

    /** `severityLabel()` on the accumulated score. */
    function Label(): Severity
      reads this
    {
      SeverityLabel(severityScore)
    }
  }
}
