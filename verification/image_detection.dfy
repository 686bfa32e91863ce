/**
 * Choosing a model key from a vision model's answer
 * (lib/utils/image-detection.ts).  The answer text is an input; `None`
 * stands for a call that threw.
 */
module ImageDetection {
  import opened Js
  import opened Text
  import opened Scan
  import opened MedicalModels

  /** No key before position `n` occurs in `r`. */
  predicate NoKeyBefore(r: string, n: nat)
    requires n <= |ModelKeys|
  {
    forall j :: 0 <= j < n ==> !Contains(r, ModelKeys[j])
  }

  /** `key` is the first model key, in declaration order, that `r` contains, or "xray" when it contains none. */
  predicate FirstContainedKey(r: string, key: string) {
    || (exists i :: 0 <= i < |ModelKeys| && key == ModelKeys[i] && Contains(r, ModelKeys[i]) && NoKeyBefore(r, i))
    || (key == "xray" && NoKeyBefore(r, |ModelKeys|))
  }

  /**
   * `detectImageType`: the trimmed, lower-cased answer when it is a model key;
   * otherwise the first key, in declaration order, that the answer contains;
   * otherwise, or when the call failed, "xray".
   */
  method DetectImageType(answer: Option<string>) returns (key: string)
    ensures key in ModelKeys
    ensures answer.None? ==> key == "xray"
    ensures answer.Some? && ToLower(Trim(answer.value)) in ModelKeys ==> key == ToLower(Trim(answer.value))
    ensures answer.Some? && ToLower(Trim(answer.value)) !in ModelKeys ==>
      FirstContainedKey(ToLower(Trim(answer.value)), key)
  {
    if answer.None? {
      return "xray";
    }
    var response := ToLower(Trim(answer.value));
    key := MatchKey(response);
  }

  /**
   * The choice `detectImageType` makes on the normalised answer `r`: `r`
   * itself when it is a key, else the first key that `r` contains, else "xray".
   */
  method MatchKey(r: string) returns (key: string)
    ensures key in ModelKeys
    ensures r in ModelKeys ==> key == r
    ensures r !in ModelKeys ==> FirstContainedKey(r, key)
  {
    if r in ModelKeys {
      return r;
    }
    for i := 0 to |ModelKeys|
      invariant NoKeyBefore(r, i)
    {
      if Contains(r, ModelKeys[i]) {
        return ModelKeys[i];
      }
    }
    return "xray";
  }

  /**
   * `detectImageType` as written: the test `MEDICAL_MODELS[response]` also
   * accepts the names every object inherits, and such a name is returned
   * although it names no model.
   */
  method DetectImageTypeAsWritten(answer: Option<string>) returns (key: string)
    ensures key in ModelKeys || key in ObjectPrototypeNames
    ensures answer.None? ==> key == "xray"
    ensures answer.Some? && PropertyOf(ToLower(Trim(answer.value))).Truthy() ==> key == ToLower(Trim(answer.value))
    ensures answer.Some? && ToLower(Trim(answer.value)) in ObjectPrototypeNames ==> key !in ModelKeys
    ensures answer.Some? && !PropertyOf(ToLower(Trim(answer.value))).Truthy() ==>
      key in ModelKeys && FirstContainedKey(ToLower(Trim(answer.value)), key)
  {
    if answer.None? {
      return "xray";
    }
    var response := ToLower(Trim(answer.value));
    if PropertyOf(response).Truthy() {
      if response in ObjectPrototypeNames {
        PrototypeNameIsNoKey(response);
      }
      return response;
    }
    key := MatchKey(response);
  }

  /** What `analyzeWithAutoDetection` returns. */
  datatype Detection = Detection(detectedType: string, confidence: int, reasoning: string)

  const DefaultReasoning := "Auto-detected based on image analysis"
  const FailureReasoning := "Auto-detection failed, using default classification"

  lemma FixedReasoningsTrimmed()
    ensures Trimmed(DefaultReasoning) && Trimmed(FailureReasoning)
  {
    assert |FailureReasoning| == 51 && FailureReasoning[50] == 'n';
  }

  /** `typeMatch?.[1]?.toLowerCase() || "xray"`: the word after the first usable `TYPE:`, lower-cased. */
  function DetectedType(answer: string): (t: string)
    ensures t != ""
    ensures KeyedRun(answer, "TYPE:", IsWord, 0).None? ==> t == "xray"
  {
    match KeyedRun(answer, "TYPE:", IsWord, 0)
    case Some(w) => ToLower(w)
    case None => "xray"
  }

  /** The detected type, kept only when it is one of the table's own keys. */
  function ValidType(t: string): (r: string)
    ensures r in ModelKeys
    ensures t in ModelKeys ==> r == t
  {
    if t in ModelKeys then t else "xray"
  }

  /**
   * `MEDICAL_MODELS[detectedType] ? detectedType : "xray"` as written: the
   * property read also finds the members every object inherits.
   */
  function ValidTypeAsWritten(t: string): (r: string)
    ensures r == t || r == "xray"
    ensures r in ModelKeys <==> t in ModelKeys || t !in ObjectPrototypeNames
  {
    if PropertyOf(t).Truthy() then t else "xray"
  }

  /** `parseInt(confidenceMatch?.[1] || "50")`, clamped to [0, 100]. */
  function DetectedConfidence(answer: string): (c: int)
    ensures 0 <= c <= 100
    ensures KeyedRun(answer, "CONFIDENCE:", IsDigitChar, 0).None? ==> c == 50
  {
    var n := match KeyedRun(answer, "CONFIDENCE:", IsDigitChar, 0)
      case Some(ds) => DigitsValue(ds)
      case None => 50;
    Clamp(n, 0, 100)
  }

  /** `reasoningMatch?.[1]?.trim() || DefaultReasoning` */
  function DetectedReasoning(answer: string): (r: string)
    ensures r != [] && Trimmed(r)
    ensures forall m :: 0 <= m < |r| ==> !IsLineTerminator(r[m])
  {
    match KeyedLine(answer, "REASONING:", 0)
    case Some(line) =>
      var t := Trim(line);
      if t != "" then
        TrimKeepsLine(line);
        t
      else DefaultReasoning
    case None => DefaultReasoning
  }

  /** Trimming a piece of one line leaves a piece of one line. */
  lemma TrimKeepsLine(line: string)
    requires forall m :: 0 <= m < |line| ==> !IsLineTerminator(line[m])
    ensures forall m :: 0 <= m < |Trim(line)| ==> !IsLineTerminator(Trim(line)[m])
  {
    var i := TrimIsSlice(line);
    assert forall m :: 0 <= m < |Trim(line)| ==> Trim(line)[m] == line[i + m];
  }

  /** A reasoning line that starts with a visible character is kept, trimmed. */
  lemma ReasoningKept(answer: string)
    requires KeyedLine(answer, "REASONING:", 0).Some?
    requires !IsSpace(KeyedLine(answer, "REASONING:", 0).value[0])
    ensures DetectedReasoning(answer) == Trim(KeyedLine(answer, "REASONING:", 0).value)
  {
    var line := KeyedLine(answer, "REASONING:", 0).value;
    TrimEmptyIffAllSpace(line);
  }

  /**
   * `analyzeWithAutoDetection`: the type, confidence and reasoning read from
   * the answer, or "xray" / 50 / a fixed reasoning when the call failed.
   */
  function AnalyzeWithAutoDetection(answer: Option<string>): (d: Detection)
    ensures d.detectedType in ModelKeys
    ensures 0 <= d.confidence <= 100
    ensures d.reasoning != [] && Trimmed(d.reasoning)
    ensures answer.None? ==> d == Detection("xray", 50, FailureReasoning)
    ensures answer.Some? && DetectedType(answer.value) in ModelKeys ==> d.detectedType == DetectedType(answer.value)
  {
    match answer
    case None =>
      FixedReasoningsTrimmed();
      Detection("xray", 50, FailureReasoning)
    case Some(text) =>
      Detection(ValidType(DetectedType(text)), DetectedConfidence(text), DetectedReasoning(text))
  }

  /**
   * `analyzeWithAutoDetection` as written: an inherited name read after
   * `TYPE:` survives the validity test; confidence and reasoning are as in
   * the corrected function, and so is the whole result whenever the type
   * is a model key.
   */
  function AnalyzeWithAutoDetectionAsWritten(answer: Option<string>): (d: Detection)
    ensures d.detectedType in ModelKeys || d.detectedType in ObjectPrototypeNames
    ensures d.detectedType in ModelKeys ==> d == AnalyzeWithAutoDetection(answer)
    ensures d.confidence == AnalyzeWithAutoDetection(answer).confidence
    ensures d.reasoning == AnalyzeWithAutoDetection(answer).reasoning
  {
    match answer
    case None => Detection("xray", 50, FailureReasoning)
    case Some(text) => Detection(ValidTypeAsWritten(DetectedType(text)), DetectedConfidence(text), DetectedReasoning(text))
  }

  /** Lower-case letters and underscores only. */
  predicate LowerWord(w: string) {
    forall m :: 0 <= m < |w| ==> ('a' <= w[m] <= 'z' || w[m] == '_')
  }

  lemma LowerWordUnchanged(w: string)
    requires LowerWord(w)
    ensures ToLower(w) == w
  {
  }

  lemma ModelKeysAreLowerWords(k: string)
    requires k in ModelKeys
    ensures LowerWord(k) && |k| >= 1
  {
    assert k == ModelKeys[0] || k == ModelKeys[1] || k == ModelKeys[2] || k == ModelKeys[3]
        || k == ModelKeys[4] || k == ModelKeys[5] || k == ModelKeys[6];
  }

  /** An answer in the requested format, `TYPE: <key>` followed by a line break, selects that key. */
  lemma WellFormedAnswerSelectsKey(k: string, rest: string)
    requires k in ModelKeys
    requires rest == [] || !IsWordChar(rest[0])
    ensures AnalyzeWithAutoDetection(Some("TYPE:" + " " + k + rest)).detectedType == k
  {
    ModelKeysAreLowerWords(k);
    KeyedRunAtStart("TYPE:", " ", k, rest, IsWord);
    LowerWordUnchanged(k);
  }

  /**
   * As written, an answer `TYPE: constructor` passes the validity test and
   * "constructor", which names no model, becomes the detected type.
   */
  lemma ConstructorPassesAsWritten()
    ensures ValidTypeAsWritten(DetectedType("TYPE:" + " " + "constructor" + "")) == "constructor"
    ensures "constructor" !in ModelKeys
    ensures ValidType(DetectedType("TYPE:" + " " + "constructor" + "")) == "xray"
    ensures AnalyzeWithAutoDetectionAsWritten(Some("TYPE:" + " " + "constructor" + "")).detectedType == "constructor"
    ensures AnalyzeWithAutoDetection(Some("TYPE:" + " " + "constructor" + "")).detectedType == "xray"
  {
    assert LowerWord("constructor");
    KeyedRunAtStart("TYPE:", " ", "constructor", "", IsWord);
    LowerWordUnchanged("constructor");
    InheritedNamesPassLookup();
  }
}
