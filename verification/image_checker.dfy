/**
 * The image checker component (components/synaptix-vision/image-checker.tsx):
 * the confidence bands each result is drawn in, the record persisted for the
 * dashboard after an analysis, the formatting of the recommendations text,
 * and the component state around choosing, analysing and removing an image.
 * Scores are the reals the analysis answer carries (0 to 1); reading the
 * file, the analysis request, the interval and the timeout are events the
 * caller drives by calling the matching method.
 */
module ImageChecker {
  import opened Js
  import opened Text
  import ImageValidation

  /** One entry of `results`: its `label` and its score. */
  datatype AnalysisResult = AnalysisResult(labelText: string, score: real)

  /** The fields of an analysis answer the component reads. */
  datatype AnalysisResponse = AnalysisResponse(
    success: bool, results: Option<seq<AnalysisResult>>, error: Option<string>, modelUsed: Option<string>,
    suggestions: Option<string>, explanation: Option<string>, detectedType: Option<string>)

  // ---------------------------------------------------------------------------
  // Confidence bands

  datatype Icon = AlertTriangle | Eye | CheckCircle

  /** `getResultIcon` */
  function ResultIcon(r: AnalysisResult): (i: Icon)
    ensures i == AlertTriangle <==> r.score * 100.0 >= 80.0
    ensures i == Eye <==> 60.0 <= r.score * 100.0 < 80.0
    ensures i == CheckCircle <==> r.score * 100.0 < 60.0
  {
    var confidence := r.score * 100.0;
    if confidence >= 80.0 then AlertTriangle
    else if confidence >= 60.0 then Eye
    else CheckCircle
  }

  /** `getResultColor` */
  function ResultColor(r: AnalysisResult): (c: string)
    ensures c == "text-red-400" <==> r.score * 100.0 >= 80.0
    ensures c == "text-yellow-400" <==> 60.0 <= r.score * 100.0 < 80.0
    ensures c == "text-green-400" <==> r.score * 100.0 < 60.0
  {
    var confidence := r.score * 100.0;
    if confidence >= 80.0 then "text-red-400"
    else if confidence >= 60.0 then "text-yellow-400"
    else "text-green-400"
  }

  /** `getResultSeverity` */
  function ResultSeverity(r: AnalysisResult): (s: string)
    ensures s == "High Confidence" <==> r.score * 100.0 >= 80.0
    ensures s == "Moderate Confidence" <==> 60.0 <= r.score * 100.0 < 80.0
    ensures s == "Low Confidence" <==> r.score * 100.0 < 60.0
  {
    var confidence := r.score * 100.0;
    if confidence >= 80.0 then "High Confidence"
    else if confidence >= 60.0 then "Moderate Confidence"
    else "Low Confidence"
  }

  /** 2 for high, 1 for moderate, 0 for low confidence. */
  function SeverityRank(s: string): int {
    if s == "High Confidence" then 2 else if s == "Moderate Confidence" then 1 else 0
  }

  /** Icon, colour and label always name the same band. */
  lemma BandsAgree(r: AnalysisResult)
    ensures ResultIcon(r) == AlertTriangle <==> ResultColor(r) == "text-red-400"
    ensures ResultColor(r) == "text-red-400" <==> ResultSeverity(r) == "High Confidence"
    ensures ResultIcon(r) == Eye <==> ResultColor(r) == "text-yellow-400"
    ensures ResultColor(r) == "text-yellow-400" <==> ResultSeverity(r) == "Moderate Confidence"
    ensures ResultIcon(r) == CheckCircle <==> ResultColor(r) == "text-green-400"
    ensures ResultColor(r) == "text-green-400" <==> ResultSeverity(r) == "Low Confidence"
  {
  }

  /** A higher score is never drawn in a lower band. */
  lemma HigherScoreNeverLowerBand(a: AnalysisResult, b: AnalysisResult)
    requires a.score <= b.score
    ensures SeverityRank(ResultSeverity(a)) <= SeverityRank(ResultSeverity(b))
  {
  }

  // ---------------------------------------------------------------------------
  // The persisted record

  /** Position of the first highest-scoring entry: the head of the stable sort by descending score. */
  function TopIndex(results: seq<AnalysisResult>): (k: nat)
    requires |results| > 0
    ensures k < |results|
    ensures forall i :: 0 <= i < |results| ==> results[i].score <= results[k].score
    ensures forall i :: 0 <= i < k ==> results[i].score < results[k].score
  {
    if |results| == 1 then 0
    else
      var k := TopIndex(results[1..]);
      assert forall i :: 1 <= i < |results| ==> results[i] == results[1..][i - 1];
      if results[0].score >= results[k + 1].score then 0 else k + 1
  }

  /** `Math.round(x)`: the nearest integer, halves rounded up. */
  function Round(x: real): (n: int)
    ensures n as real <= x + 0.5 < n as real + 1.0
  {
    (x + 0.5).Floor
  }

  lemma RoundMonotone(x: real, y: real)
    requires x <= y
    ensures Round(x) <= Round(y)
  {
  }

  /** A score between 0 and 1 gives a confidence between 0 and 100. */
  lemma ConfidenceInRange(score: real)
    requires 0.0 <= score <= 1.0
    ensures 0 <= Round(score * 100.0) <= 100
  {
  }

  const DefaultRecommendation := "Consider consulting a medical professional for confirmation."
  const FailedRecommendation := "Try another image or check your connection."

  /** `result.suggestions || result.explanation || '...'` */
  function Recommendation(result: AnalysisResponse): (r: string)
    ensures Truthy(result.suggestions) ==> r == result.suggestions.value
    ensures !Truthy(result.suggestions) && Truthy(result.explanation) ==> r == result.explanation.value
    ensures !Truthy(result.suggestions) && !Truthy(result.explanation) ==> r == DefaultRecommendation
    ensures r != ""
  {
    OrElse(OrOpt(result.suggestions, result.explanation), DefaultRecommendation)
  }

  /** `result.detectedType || result.modelUsed || 'General'` */
  function Category(result: AnalysisResponse): (r: string)
    ensures Truthy(result.detectedType) ==> r == result.detectedType.value
    ensures !Truthy(result.detectedType) && Truthy(result.modelUsed) ==> r == result.modelUsed.value
    ensures !Truthy(result.detectedType) && !Truthy(result.modelUsed) ==> r == "General"
    ensures r != ""
  {
    OrElse(OrOpt(result.detectedType, result.modelUsed), "General")
  }

  /** What `saveVisionAnalysis` is given. */
  datatype VisionRecord = VisionRecord(imageUrl: Option<string>, analysis: string, confidence: int,
                                       recommendation: string, category: string)

  /** `uploadedImage || undefined` */
  function ImageUrl(image: Option<string>): Option<string> {
    if Truthy(image) then image else None
  }

  /** `result?.success && result?.results && result.results.length > 0` */
  predicate HasResults(result: AnalysisResponse) {
    result.success && result.results.Some? && |result.results.value| > 0
  }

  /**
   * The record saved once an answer is shown: for a successful answer with
   * results, the highest-scoring result with its rounded percentage; for an
   * unsuccessful one, a failure record with confidence 0 in category
   * 'Error'; for a successful answer without results, nothing.
   */
  function PersistedRecord(result: AnalysisResponse, image: Option<string>): (r: Option<VisionRecord>)
    ensures r.None? <==> result.success && !HasResults(result)
    ensures r.Some? ==> r.value.imageUrl == ImageUrl(image)
    ensures HasResults(result) ==>
      var top := result.results.value[TopIndex(result.results.value)];
      && r.value.confidence == Round(top.score * 100.0)
      && r.value.analysis == top.labelText + " (" + IntText(r.value.confidence) + "%)"
      && r.value.recommendation == Recommendation(result) && r.value.category == Category(result)
    ensures HasResults(result) ==>
      forall i :: 0 <= i < |result.results.value| ==> Round(result.results.value[i].score * 100.0) <= r.value.confidence
    ensures !result.success ==>
      r.value.analysis == "Analysis failed" && r.value.confidence == 0 && r.value.category == "Error"
      && r.value.recommendation == OrElse(result.error, FailedRecommendation)
  {
    if HasResults(result) then
      var results := result.results.value;
      var top := results[TopIndex(results)];
      var confidence := Round(top.score * 100.0);
      TopConfidenceHighest(results);
      Some(VisionRecord(ImageUrl(image), top.labelText + " (" + IntText(confidence) + "%)", confidence,
                        Recommendation(result), Category(result)))
    else if !result.success then
      Some(VisionRecord(ImageUrl(image), "Analysis failed", 0, OrElse(result.error, FailedRecommendation), "Error"))
    else None
  }

  /** No result rounds to a higher percentage than the top one. */
  lemma TopConfidenceHighest(results: seq<AnalysisResult>)
    requires |results| > 0
    ensures forall i :: 0 <= i < |results| ==>
      Round(results[i].score * 100.0) <= Round(results[TopIndex(results)].score * 100.0)
  {
    var top := results[TopIndex(results)];
    forall i | 0 <= i < |results|
      ensures Round(results[i].score * 100.0) <= Round(top.score * 100.0)
    {
      RoundMonotone(results[i].score * 100.0, top.score * 100.0);
    }
  }

  /** With scores between 0 and 1 the saved confidence is a percentage. */
  lemma RecordConfidenceInRange(result: AnalysisResponse, image: Option<string>)
    requires result.results.Some?
    requires forall i :: 0 <= i < |result.results.value| ==> 0.0 <= result.results.value[i].score <= 1.0
    ensures PersistedRecord(result, image).Some? ==> 0 <= PersistedRecord(result, image).value.confidence <= 100
  {
    if HasResults(result) {
      var results := result.results.value;
      ConfidenceInRange(results[TopIndex(results)].score);
    }
  }

  // ---------------------------------------------------------------------------
  // The recommendations text

  /** The first replacement of the suggestions text: every `**`, from left to right, removed. */
  function RemovePairs(s: string): (r: string)
    ensures |r| <= |s|
  {
    if |s| >= 2 && s[0] == '*' && s[1] == '*' then RemovePairs(s[2..])
    else if s == [] then []
    else [s[0]] + RemovePairs(s[1..])
  }

  /** The second replacement: every remaining `*` removed. */
  function RemoveStars(s: string): (r: string)
    ensures '*' !in r
    ensures |r| <= |s|
  {
    if s == [] then []
    else (if s[0] == '*' then [] else [s[0]]) + RemoveStars(s[1..])
  }

  lemma RemoveStarsCons(c: char, s: string)
    ensures RemoveStars([c] + s) == (if c == '*' then [] else [c]) + RemoveStars(s)
  {
    assert ([c] + s)[1..] == s;
  }

  /** The first replacement changes nothing the second would not: together they remove every asterisk. */
  lemma {:induction false} RemoveStarsAfterPairs(s: string)
    ensures RemoveStars(RemovePairs(s)) == RemoveStars(s)
    decreases |s|
  {
    if |s| >= 2 && s[0] == '*' && s[1] == '*' {
      RemoveStarsAfterPairs(s[2..]);
      assert s[1..][1..] == s[2..];
    } else if s != [] {
      RemoveStarsAfterPairs(s[1..]);
      RemoveStarsCons(s[0], RemovePairs(s[1..]));
    }
  }

  lemma {:induction false} RemovePairsOfClean(s: string)
    requires '*' !in s
    ensures RemovePairs(s) == s
  {
    if s != [] {
      assert s[0] in s;
      RemovePairsOfClean(s[1..]);
      assert s == [s[0]] + s[1..];
    }
  }

  lemma {:induction false} RemoveStarsOfClean(s: string)
    requires '*' !in s
    ensures RemoveStars(s) == s
  {
    if s != [] {
      assert s[0] in s;
      RemoveStarsOfClean(s[1..]);
      assert s == [s[0]] + s[1..];
    }
  }

  /** Trimming keeps a text free of asterisks. */
  lemma TrimKeepsNoStar(s: string)
    requires '*' !in s
    ensures '*' !in Trim(s)
  {
    var i := TrimIsSlice(s);
    forall j | 0 <= j < |Trim(s)| ensures Trim(s)[j] != '*' {
      assert Trim(s)[j] == s[i + j];
    }
  }

  /** `cleanText`: the suggestions without asterisks, trimmed. */
  function Clean(text: string): (r: string)
    ensures '*' !in r && Trimmed(r)
  {
    TrimKeepsNoStar(RemoveStars(RemovePairs(text)));
    Trim(RemoveStars(RemovePairs(text)))
  }

  /** `[.!?]` */
  predicate IsStop(c: char) {
    c == '.' || c == '!' || c == '?'
  }

  predicate NoStop(s: string) {
    forall i :: 0 <= i < |s| ==> !IsStop(s[i])
  }

  /** Neither a stop nor an asterisk anywhere. */
  predicate Unmarked(s: string) {
    NoStop(s) && '*' !in s
  }

  /** Index of the first `.`, `!` or `?`. */
  function FirstStop(s: string): (r: Option<nat>)
    ensures r.None? <==> NoStop(s)
    ensures r.Some? ==> r.value < |s| && IsStop(s[r.value])
    ensures r.Some? ==> forall j :: 0 <= j < r.value ==> !IsStop(s[j])
  {
    if s == [] then None
    else if IsStop(s[0]) then Some(0)
    else
      match FirstStop(s[1..])
      case None => None
      case Some(k) => Some(k + 1)
  }

  /** The end of the run of stops that starts at `k`. */
  function RunEnd(s: string, k: nat): (e: nat)
    requires k < |s|
    ensures k < e <= |s|
    ensures e == |s| || !IsStop(s[e])
    decreases |s| - k
  {
    if k + 1 < |s| && IsStop(s[k + 1]) then RunEnd(s, k + 1) else k + 1
  }

  /** `s.split(/[.!?]+/)`: the pieces between maximal runs of stops. */
  function SplitStops(s: string): (r: seq<string>)
    ensures |r| >= 1
    ensures forall i :: 0 <= i < |r| ==> NoStop(r[i])
    ensures '*' !in s ==> forall i :: 0 <= i < |r| ==> Unmarked(r[i])
    decreases |s|
  {
    match FirstStop(s)
    case None => [s]
    case Some(k) =>
      var head := s[..k];
      assert NoStop(head) by {
        forall i | 0 <= i < k ensures !IsStop(head[i]) {
          assert head[i] == s[i];
        }
      }
      var rest := s[RunEnd(s, k)..];
      assert '*' !in s ==> '*' !in head && '*' !in rest;
      [head] + SplitStops(rest)
  }

  /** `.filter(s => s.trim().length > 0)` */
  function NonBlank(pieces: seq<string>): (r: seq<string>)
    ensures |r| <= |pieces|
    ensures forall i :: 0 <= i < |r| ==> Trim(r[i]) != ""
  {
    if pieces == [] then []
    else
      var t := NonBlank(pieces[1..]);
      if Trim(pieces[0]) != "" then [pieces[0]] + t else t
  }

  /** The blank filter keeps only pieces it was given, so unmarked pieces stay unmarked. */
  lemma {:induction false} NonBlankUnmarked(pieces: seq<string>)
    requires forall i :: 0 <= i < |pieces| ==> Unmarked(pieces[i])
    ensures forall i :: 0 <= i < |NonBlank(pieces)| ==> Unmarked(NonBlank(pieces)[i])
  {
    if pieces != [] {
      var rest := pieces[1..];
      forall i | 0 <= i < |rest| ensures Unmarked(rest[i]) {
        assert rest[i] == pieces[i + 1];
      }
      NonBlankUnmarked(rest);
      var t := NonBlank(rest);
      var r := NonBlank(pieces);
      if Trim(pieces[0]) != "" {
        assert r[0] == pieces[0] && r[1..] == t;
        forall i | 0 <= i < |r| ensures Unmarked(r[i]) {
          if i > 0 {
            assert r[i] == t[i - 1];
          }
        }
      } else {
        assert r == t;
      }
    }
  }

  /** A list item: the trimmed sentence, with a `.` added unless it ends in `.`, `!` or `?`. */
  function Item(sentence: string): string {
    var t := Trim(sentence);
    if t != "" && IsStop(t[|t| - 1]) then t else t + "."
  }

  /** A sentence as it is written back: non-empty, trimmed, without stops or asterisks. */
  predicate PlainSentence(s: string) {
    s != [] && Trimmed(s) && Unmarked(s)
  }

  /** A finished list item: a plain sentence followed by a single `.`. */
  predicate ItemShape(x: string) {
    |x| >= 1 && x[|x| - 1] == '.' && PlainSentence(x[..|x| - 1]) && '*' !in x
  }

  /** Trimming only removes characters, so it keeps a piece unmarked. */
  lemma TrimKeepsUnmarked(p: string)
    requires Unmarked(p)
    ensures Unmarked(Trim(p))
  {
    var i := TrimIsSlice(p);
    var t := Trim(p);
    forall j | 0 <= j < |t| ensures !IsStop(t[j]) && t[j] != '*' {
      assert t[j] == p[i + j];
    }
  }

  /** A piece whose trimmed text is a plain sentence becomes that sentence and a `.`. */
  lemma ItemOfPlain(p: string)
    requires PlainSentence(Trim(p))
    ensures Item(p) == Trim(p) + "."
    ensures ItemShape(Item(p))
  {
    var t := Trim(p);
    assert !IsStop(t[|t| - 1]);
    assert (t + ".")[..|t|] == t;
  }

  /** The recommendations as shown: a paragraph, or a bulleted list when there is more than one sentence. */
  datatype Rendered = Paragraph(text: string) | Bullets(items: seq<string>)

  function Items(sentences: seq<string>): (r: seq<string>)
    ensures |r| == |sentences|
    ensures forall i :: 0 <= i < |r| ==> r[i] == Item(sentences[i])
  {
    seq(|sentences|, i requires 0 <= i < |sentences| => Item(sentences[i]))
  }

  /** Every sentence the formatter lists comes out as a plain sentence and a `.`. */
  lemma ItemsShaped(text: string)
    ensures forall i :: 0 <= i < |NonBlank(SplitStops(Clean(text)))| ==>
      ItemShape(Item(NonBlank(SplitStops(Clean(text)))[i]))
  {
    var sentences := NonBlank(SplitStops(Clean(text)));
    NonBlankUnmarked(SplitStops(Clean(text)));
    forall i | 0 <= i < |sentences| ensures ItemShape(Item(sentences[i])) {
      TrimKeepsUnmarked(sentences[i]);
      ItemOfPlain(sentences[i]);
    }
  }

  /**
   * The recommendations block: the cleaned text is split into sentences; with
   * more than one, each is a list item ending in a single `.`; otherwise the
   * cleaned text is shown as it is.
   */
  function FormatSuggestions(text: string): (r: Rendered)
    ensures r.Paragraph? ==> r.text == Clean(text) && '*' !in r.text
    ensures r.Bullets? ==> |r.items| > 1 && forall i :: 0 <= i < |r.items| ==> ItemShape(r.items[i])
    ensures r.Bullets? <==> |NonBlank(SplitStops(Clean(text)))| > 1
  {
    var sentences := NonBlank(SplitStops(Clean(text)));
    ItemsShaped(text);
    if |sentences| > 1 then Bullets(Items(sentences)) else Paragraph(Clean(text))
  }

  /** Every sentence with a `.` after it. */
  function Dotted(sentences: seq<string>): (r: seq<string>)
    ensures |r| == |sentences|
    ensures forall i :: 0 <= i < |r| ==> r[i] == sentences[i] + "."
  {
    seq(|sentences|, i requires 0 <= i < |sentences| => sentences[i] + ".")
  }

  /** The pieces of `lead + Join(sentences, ". ")`: the first sentence after `lead`, every later one after a space. */
  function Pieces(lead: string, sentences: seq<string>): (r: seq<string>)
    requires |sentences| >= 1
    ensures |r| == |sentences|
    decreases |sentences|
  {
    [lead + sentences[0]] + (if |sentences| == 1 then [] else Pieces(" ", sentences[1..]))
  }

  /** The first stop in `p + ". " + rest` is the one after `p`, and its run is one character long. */
  lemma SplitAfterSentence(p: string, rest: string)
    requires NoStop(p)
    ensures SplitStops(p + ". " + rest) == [p] + SplitStops(" " + rest)
  {
    var s := p + ". " + rest;
    assert forall j :: 0 <= j < |p| ==> s[j] == p[j];
    assert s[|p|] == '.' && s[|p| + 1] == ' ';
    assert FirstStop(s) == Some(|p|);
    assert RunEnd(s, |p|) == |p| + 1;
    assert s[..|p|] == p;
    assert s[|p| + 1..] == " " + rest;
  }

  lemma NoStopAfterLead(lead: string, s: string)
    requires lead == "" || lead == " "
    requires NoStop(s)
    ensures NoStop(lead + s)
  {
    if lead == " " {
      assert forall j :: 1 <= j < |lead + s| ==> (lead + s)[j] == s[j - 1];
    } else {
      assert lead + s == s;
    }
  }

  /** Splitting the written-back text at its stops gives the pieces back. */
  lemma {:induction false} SplitOfJoined(lead: string, sentences: seq<string>)
    requires lead == "" || lead == " "
    requires |sentences| >= 1
    requires forall i :: 0 <= i < |sentences| ==> PlainSentence(sentences[i])
    ensures SplitStops(lead + Join(sentences, ". ")) == Pieces(lead, sentences)
    decreases |sentences|
  {
    var first := lead + sentences[0];
    NoStopAfterLead(lead, sentences[0]);
    if |sentences| == 1 {
      assert lead + Join(sentences, ". ") == first;
      assert FirstStop(first).None?;
    } else {
      var rest := Join(sentences[1..], ". ");
      assert lead + Join(sentences, ". ") == first + ". " + rest;
      SplitAfterSentence(first, rest);
      assert forall i :: 1 <= i < |sentences| ==> sentences[i] == sentences[1..][i - 1];
      SplitOfJoined(" ", sentences[1..]);
    }
  }

  /** Each piece trims to its sentence. */
  lemma {:induction false} PiecesTrim(lead: string, sentences: seq<string>)
    requires lead == "" || lead == " "
    requires |sentences| >= 1
    requires forall i :: 0 <= i < |sentences| ==> PlainSentence(sentences[i])
    ensures forall i :: 0 <= i < |sentences| ==> Trim(Pieces(lead, sentences)[i]) == sentences[i]
    decreases |sentences|
  {
    var r := Pieces(lead, sentences);
    assert r[0] == lead + sentences[0];
    LeadTrimmed(lead, sentences[0]);
    if |sentences| > 1 {
      var rest := sentences[1..];
      forall i | 0 <= i < |rest| ensures PlainSentence(rest[i]) {
        assert rest[i] == sentences[i + 1];
      }
      PiecesTrim(" ", rest);
      var p := Pieces(" ", rest);
      assert r[1..] == p;
      forall i | 1 <= i < |sentences| ensures Trim(r[i]) == sentences[i] {
        assert r[i] == p[i - 1];
        assert rest[i - 1] == sentences[i];
      }
    }
  }

  /** The lead before a sentence is trimmed away. */
  lemma LeadTrimmed(lead: string, s: string)
    requires lead == "" || lead == " "
    requires PlainSentence(s)
    ensures Trim(lead + s) == s
  {
    if lead == " " {
      TrimSpaced(s);
    } else {
      assert lead + s == s;
      TrimOfTrimmed(s);
    }
  }

  /** A space before a trimmed text is trimmed away. */
  lemma TrimSpaced(s: string)
    requires s != [] && Trimmed(s)
    ensures Trim(" " + s) == s
  {
    assert (" " + s)[1..] == s;
    TrimOfTrimmed(s);
  }

  /** Pieces that are not blank are all kept by the blank filter. */
  lemma {:induction false} NonBlankOfPieces(pieces: seq<string>)
    requires forall i :: 0 <= i < |pieces| ==> Trim(pieces[i]) != ""
    ensures NonBlank(pieces) == pieces
  {
    if pieces != [] {
      var rest := pieces[1..];
      forall i | 0 <= i < |rest| ensures Trim(rest[i]) != "" {
        assert rest[i] == pieces[i + 1];
      }
      NonBlankOfPieces(rest);
      assert Trim(pieces[0]) != "";
      assert NonBlank(pieces) == [pieces[0]] + NonBlank(rest);
      assert pieces == [pieces[0]] + rest;
    }
  }

  /** Plain sentences joined by `". "` give a trimmed text without asterisks. */
  lemma {:induction false} JoinClean(sentences: seq<string>)
    requires |sentences| >= 1
    requires forall i :: 0 <= i < |sentences| ==> PlainSentence(sentences[i])
    ensures '*' !in Join(sentences, ". ") && Trimmed(Join(sentences, ". "))
    ensures Join(sentences, ". ") != []
    decreases |sentences|
  {
    if |sentences| > 1 {
      assert forall i :: 1 <= i < |sentences| ==> sentences[i] == sentences[1..][i - 1];
      JoinClean(sentences[1..]);
      var rest := Join(sentences[1..], ". ");
      var s := sentences[0] + ". " + rest;
      assert Join(sentences, ". ") == s;
      assert s[0] == sentences[0][0];
      assert s[|s| - 1] == rest[|rest| - 1];
    }
  }

  /** Written-back text is its own clean text. */
  lemma CleanOfJoin(sentences: seq<string>)
    requires |sentences| >= 1
    requires forall i :: 0 <= i < |sentences| ==> PlainSentence(sentences[i])
    ensures Clean(Join(sentences, ". ")) == Join(sentences, ". ")
  {
    var text := Join(sentences, ". ");
    JoinClean(sentences);
    RemovePairsOfClean(text);
    RemoveStarsOfClean(text);
    TrimOfTrimmed(text);
  }

  /** Written-back text splits into its pieces. */
  lemma SplitOfCleanJoin(sentences: seq<string>)
    requires |sentences| >= 1
    requires forall i :: 0 <= i < |sentences| ==> PlainSentence(sentences[i])
    ensures SplitStops(Clean(Join(sentences, ". "))) == Pieces("", sentences)
  {
    var text := Join(sentences, ". ");
    var pieces := Pieces("", sentences);
    assert Clean(text) == text by {
      CleanOfJoin(sentences);
    }
    assert SplitStops(text) == pieces by {
      SplitOfJoined("", sentences);
      assert "" + text == text;
    }
  }

  /** No piece of written-back text is blank. */
  lemma PiecesNotBlank(sentences: seq<string>)
    requires |sentences| >= 1
    requires forall i :: 0 <= i < |sentences| ==> PlainSentence(sentences[i])
    ensures NonBlank(Pieces("", sentences)) == Pieces("", sentences)
  {
    PiecesTrim("", sentences);
    NonBlankOfPieces(Pieces("", sentences));
  }

  /** The items of the pieces are the sentences, each with a `.`. */
  lemma ItemsOfPieces(sentences: seq<string>)
    requires |sentences| >= 1
    requires forall i :: 0 <= i < |sentences| ==> PlainSentence(sentences[i])
    ensures Items(Pieces("", sentences)) == Dotted(sentences)
  {
    var pieces := Pieces("", sentences);
    PiecesTrim("", sentences);
    forall i | 0 <= i < |pieces| ensures Item(pieces[i]) == sentences[i] + "." {
      ItemOfPlain(pieces[i]);
    }
  }

  /**
   * Round trip: two or more plain sentences written out as `a. b. c` come
   * back as a list of exactly those sentences, each ending in `.`.
   */
  lemma FormatOfJoin(sentences: seq<string>)
    requires |sentences| > 1
    requires forall i :: 0 <= i < |sentences| ==> PlainSentence(sentences[i])
    ensures FormatSuggestions(Join(sentences, ". ")) == Bullets(Dotted(sentences))
  {
    SplitOfCleanJoin(sentences);
    PiecesNotBlank(sentences);
    ItemsOfPieces(sentences);
  }

  // ---------------------------------------------------------------------------
  // Component state

  /** One step of the simulated progress. */
  datatype Stage = Stage(message: string, progress: int)

  const ProgressStages: seq<Stage> := [
    Stage("Preparing image...", 20),
    Stage("Connecting to AI model...", 40),
    Stage("Analyzing medical image...", 70),
    Stage("Processing results...", 90)
  ]

  const ReadFailed := "Failed to read the image file"
  const UnexpectedError := "An unexpected error occurred"

  /** What an `analyzeImage` call threw: an `Error` (an `ApiError` included) with its message, or another value. */
  datatype Thrown = ThrownError(message: string) | ThrownValue

  /** The component's state, with the progress interval's `currentStage` and whether it still runs. */
  class VisionView {
    var uploadedImage: Option<string>
    var uploadedFile: Option<ImageValidation.ImageFile>
    var analysisResult: Option<AnalysisResponse>
    var isAnalyzing: bool
    var scanProgress: int
    var analysisStage: string
    var uploadError: Option<string>
    /** `currentStage` of the running analysis. */
    var currentStage: nat
    /** The progress interval has not been cleared. */
    var ticking: bool
    /** The image the running analysis saves with its record. */
    var analysisImage: Option<string>

    /** The progress shown matches the number of stages passed so far. */
    predicate ProgressShown()
      reads this
    {
      currentStage <= |ProgressStages|
      && scanProgress == (if currentStage == 0 then 0 else ProgressStages[currentStage - 1].progress)
      && analysisStage == (if currentStage == 0 then "" else ProgressStages[currentStage - 1].message)
    }

    constructor ()
      ensures uploadedImage == None && uploadedFile == None && analysisResult == None && uploadError == None
      ensures !isAnalyzing && scanProgress == 0 && analysisStage == "" && !ticking
    {
      uploadedImage := None;
      uploadedFile := None;
      analysisResult := None;
      isAnalyzing := false;
      scanProgress := 0;
      analysisStage := "";
      uploadError := None;
      currentStage := 0;
      ticking := false;
      analysisImage := None;
    }

    /**
     * `processImageFile`: a file the checks refuse only sets `uploadError`
     * and is not read.  Otherwise the file is read; `read` is the data URL,
     * or `None` when reading fails.  `onloadend` runs in both cases (after
     * `onerror` on failure, when the reader's result is `null`), so a failed
     * read still selects the file, with no image and the read error shown.
     */
    method ProcessImageFile(file: ImageValidation.ImageFile, read: Option<string>)
      modifies this
      ensures ImageValidation.ValidateImageFile(file).Some? ==>
        uploadError == ImageValidation.ValidateImageFile(file)
        && uploadedImage == old(uploadedImage) && uploadedFile == old(uploadedFile)
        && analysisResult == old(analysisResult) && scanProgress == old(scanProgress)
      ensures ImageValidation.ValidateImageFile(file).None? ==>
        uploadedImage == read && uploadedFile == Some(file) && analysisResult == None && scanProgress == 0
        && uploadError == (if read.None? then Some(ReadFailed) else None)
      ensures isAnalyzing == old(isAnalyzing) && analysisStage == old(analysisStage)
      ensures currentStage == old(currentStage) && ticking == old(ticking) && analysisImage == old(analysisImage)
    {
      uploadError := None;
      var validationError := ImageValidation.ValidateImageFile(file);
      if validationError.Some? {
        uploadError := validationError;
        return;
      }
      if read.None? {
        uploadError := Some(ReadFailed);
      }
      uploadedImage := read;
      uploadedFile := Some(file);
      analysisResult := None;
      scanProgress := 0;
    }

    /** `handleRemoveImage`: image, file and result cleared, progress 0, no error. */
    method RemoveImage()
      modifies this
      ensures uploadedImage == None && uploadedFile == None && analysisResult == None
      ensures scanProgress == 0 && uploadError == None
      ensures isAnalyzing == old(isAnalyzing) && analysisStage == old(analysisStage)
      ensures currentStage == old(currentStage) && ticking == old(ticking) && analysisImage == old(analysisImage)
    {
      uploadedImage := None;
      uploadedFile := None;
      analysisResult := None;
      scanProgress := 0;
      uploadError := None;
    }

    /** The start of `handleAnalyze`: nothing happens without a file; otherwise progress restarts from 0. */
    method StartAnalysis() returns (started: bool)
      modifies this
      ensures started <==> old(uploadedFile).Some?
      ensures !started ==> unchanged(this)
      ensures started ==>
        isAnalyzing && analysisResult == None && scanProgress == 0 && analysisStage == ""
        && currentStage == 0 && ticking && analysisImage == uploadedImage && ProgressShown()
      ensures uploadedImage == old(uploadedImage) && uploadedFile == old(uploadedFile) && uploadError == old(uploadError)
    {
      if uploadedFile.None? {
        return false;
      }
      isAnalyzing := true;
      analysisResult := None;
      scanProgress := 0;
      analysisStage := "";
      currentStage := 0;
      ticking := true;
      analysisImage := uploadedImage;
      started := true;
    }

    /**
     * One tick of the progress interval: the next stage is shown while one
     * is left; the tick after the last stage clears the interval.  Shown
     * progress never goes down.
     */
    method Tick()
      modifies this
      ensures old(ticking) && old(currentStage) < |ProgressStages| ==>
        ticking && currentStage == old(currentStage) + 1
        && scanProgress == ProgressStages[old(currentStage)].progress
        && analysisStage == ProgressStages[old(currentStage)].message
      ensures !(old(ticking) && old(currentStage) < |ProgressStages|) ==>
        !ticking && currentStage == old(currentStage) && scanProgress == old(scanProgress)
        && analysisStage == old(analysisStage)
      ensures old(ProgressShown()) ==> ProgressShown() && scanProgress >= old(scanProgress)
      ensures uploadedImage == old(uploadedImage) && uploadedFile == old(uploadedFile)
      ensures analysisResult == old(analysisResult) && isAnalyzing == old(isAnalyzing)
      ensures uploadError == old(uploadError) && analysisImage == old(analysisImage)
    {
      if ticking && currentStage < |ProgressStages| {
        var stage := ProgressStages[currentStage];
        scanProgress := stage.progress;
        analysisStage := stage.message;
        currentStage := currentStage + 1;
      } else {
        ticking := false;
      }
    }

    /** The answer arrived: the interval stops and progress jumps to 100, above every stage. */
    method Complete()
      modifies this
      ensures !ticking && scanProgress == 100 && analysisStage == "Complete!"
      ensures forall i :: 0 <= i < |ProgressStages| ==> ProgressStages[i].progress < scanProgress
      ensures uploadedImage == old(uploadedImage) && uploadedFile == old(uploadedFile)
      ensures analysisResult == old(analysisResult) && isAnalyzing == old(isAnalyzing)
      ensures uploadError == old(uploadError) && analysisImage == old(analysisImage) && currentStage == old(currentStage)
    {
      ticking := false;
      scanProgress := 100;
      analysisStage := "Complete!";
    }

    /** The delayed step after completion: the answer is shown, progress reset, and the record to save returned. */
    method ShowResult(result: AnalysisResponse) returns (record: Option<VisionRecord>)
      modifies this
      ensures analysisResult == Some(result) && !isAnalyzing && scanProgress == 0 && analysisStage == ""
      ensures record == PersistedRecord(result, old(analysisImage))
      ensures uploadedImage == old(uploadedImage) && uploadedFile == old(uploadedFile)
      ensures uploadError == old(uploadError) && ticking == old(ticking) && currentStage == old(currentStage)
    {
      analysisResult := Some(result);
      isAnalyzing := false;
      scanProgress := 0;
      analysisStage := "";
      record := PersistedRecord(result, analysisImage);
    }

    /** `analyzeImage` threw: the error is shown as an unsuccessful answer and nothing is saved. */
    method Fail(thrown: Thrown)
      modifies this
      ensures !ticking && !isAnalyzing && scanProgress == 0 && analysisStage == ""
      ensures analysisResult == Some(AnalysisResponse(false, None,
        Some(if thrown.ThrownError? then thrown.message else UnexpectedError), None, None, None, None))
      ensures uploadedImage == old(uploadedImage) && uploadedFile == old(uploadedFile)
      ensures uploadError == old(uploadError) && currentStage == old(currentStage)
    {
      ticking := false;
      var errorMessage := UnexpectedError;
      if thrown.ThrownError? {
        errorMessage := thrown.message;
      }
      analysisResult := Some(AnalysisResponse(false, None, Some(errorMessage), None, None, None, None));
      isAnalyzing := false;
      scanProgress := 0;
      analysisStage := "";
    }
  }
}
