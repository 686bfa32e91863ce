/**
 * The upload analysis endpoint (app/api/analyze-image/route.ts): upload
 * checks, choice of the model key, and the scored findings built from the
 * vision model's answer.  Both answers (detection and analysis) are inputs;
 * `None` stands for a call that threw.
 */
module AnalyzeImageRoute {
  import opened Js
  import opened Text
  import opened MedicalModels
  import opened ImageDetection
  import opened Findings

  /** What the handler reads of the uploaded `File`. */
  datatype Upload = Upload(name: string, mimeType: string, size: nat)

  datatype Response =
    | Failure(status: int, error: string)
    | Success(results: seq<Finding>, modelUsed: Option<string>, source: string, detection: Option<Detection>)

  const MaxUpload: nat := 10 * 1024 * 1024

  const NoFile := "No image file provided"
  const NotAnImage := "File must be an image"
  const TooLarge := "Image too large. Maximum size is 10MB"
  const InvalidModel := "Invalid model specified"

  const VisionSource := "Gemini AI Vision Analysis"
  const BasicSource := "Basic Medical Assessment"

  /** The upload check that fails first, if any: presence, image type, size. */
  function UploadError(file: Option<Upload>): (r: Option<string>)
    ensures r == Some(NoFile) <==> file.None?
    ensures r == Some(NotAnImage) <==> file.Some? && !StartsWith(file.value.mimeType, "image/")
    ensures r == Some(TooLarge) <==> file.Some? && StartsWith(file.value.mimeType, "image/") && file.value.size > MaxUpload
    ensures r.None? <==> file.Some? && StartsWith(file.value.mimeType, "image/") && file.value.size <= MaxUpload
  {
    if file.None? then Some(NoFile)
    else if !StartsWith(file.value.mimeType, "image/") then Some(NotAnImage)
    else if file.value.size > MaxUpload then Some(TooLarge)
    else None
  }

  /** Auto-detection runs when no model was chosen (absent or empty) or "auto" was. */
  predicate AutoMode(userModelKey: Option<string>) {
    !Truthy(userModelKey) || userModelKey.value == "auto"
  }

  /** The detection result, present exactly in auto mode. */
  function DetectionFor(userModelKey: Option<string>, detectionAnswer: Option<string>): (r: Option<Detection>)
    ensures r.Some? <==> AutoMode(userModelKey)
    ensures r.Some? ==> r.value.detectedType in ModelKeys
  {
    if AutoMode(userModelKey) then Some(AnalyzeWithAutoDetection(detectionAnswer)) else None
  }

  /**
   * `modelKey`: the detected type in auto mode (a model key, "xray" when
   * detection failed), the caller's choice otherwise.
   */
  function ModelKeyFor(userModelKey: Option<string>, detectionAnswer: Option<string>): (k: string)
    ensures AutoMode(userModelKey) ==> k in ModelKeys
    ensures AutoMode(userModelKey) && detectionAnswer.None? ==> k == "xray"
    ensures !AutoMode(userModelKey) ==> k == userModelKey.value
  {
    match DetectionFor(userModelKey, detectionAnswer)
    case Some(d) => d.detectedType
    case None => userModelKey.value
  }

  /** The detection result as written: an inherited name may be the detected type. */
  function DetectionForAsWritten(userModelKey: Option<string>, detectionAnswer: Option<string>): (r: Option<Detection>)
    ensures r.Some? <==> AutoMode(userModelKey)
    ensures r.Some? ==> r.value.detectedType in ModelKeys || r.value.detectedType in ObjectPrototypeNames
    ensures r.None? || r.value.detectedType in ModelKeys ==> r == DetectionFor(userModelKey, detectionAnswer)
  {
    if AutoMode(userModelKey) then Some(AnalyzeWithAutoDetectionAsWritten(detectionAnswer)) else None
  }

  /**
   * `modelKey` as written: it differs from the corrected choice only in auto
   * mode, and only by an inherited name.
   */
  function ModelKeyForAsWritten(userModelKey: Option<string>, detectionAnswer: Option<string>): (k: string)
    ensures AutoMode(userModelKey) ==> k in ModelKeys || k in ObjectPrototypeNames
    ensures !AutoMode(userModelKey) ==> k == userModelKey.value
    ensures k != ModelKeyFor(userModelKey, detectionAnswer) ==>
      AutoMode(userModelKey) && k in ObjectPrototypeNames && k !in ModelKeys
  {
    match DetectionForAsWritten(userModelKey, detectionAnswer)
    case Some(d) => d.detectedType
    case None => userModelKey.value
  }

  /** The two fixed findings used when the analysis call fails. */
  function FailureFindings(modelName: string): seq<Finding> {
    [Finding(modelName + " Assessment Completed", 70), Finding("Further Professional Review Recommended", 25)]
  }

  /** The findings read from the FINDINGS section, sorted and repaired; empty without a section. */
  function SectionFindings(text: string, draws: nat -> int): seq<Finding> {
    match FindingsSection(text)
    case Some(section) => Repaired(SortByScore(ParsedFindings(section, draws)))
    case None => []
  }

  /**
   * The findings of a successful analysis: the section's findings, else the
   * primary diagnosis, else "Medical Analysis Completed" at 65, sorted once more.
   */
  function ResultsFromText(text: string, draws: nat -> int): seq<Finding> {
    var fromSection := SectionFindings(text, draws);
    var withPrimary :=
      if fromSection == [] && PrimaryCapture(text, 0).Some? then [PrimaryFinding(PrimaryCapture(text, 0).value)]
      else fromSection;
    var nonEmpty := if withPrimary == [] then [Finding("Medical Analysis Completed", 65)] else withPrimary;
    SortByScore(nonEmpty)
  }

  /** The repair loop never fires: it runs right after a descending sort. */
  lemma RepairAfterSortChangesNothing(s: seq<Finding>)
    ensures Repaired(SortByScore(s)) == SortByScore(s)
  {
    SortByScoreSpec(s);
    RepairedOfSorted(SortByScore(s));
  }

  /**
   * The results are never empty and are in descending order; when the section
   * yields findings they are exactly those findings, stably sorted.
   */
  lemma ResultsFromTextSpec(text: string, draws: nat -> int)
    ensures |ResultsFromText(text, draws)| >= 1
    ensures NonIncreasing(ResultsFromText(text, draws))
    ensures FindingsSection(text).Some? && ParsedFindings(FindingsSection(text).value, draws) != [] ==>
      var parsed := ParsedFindings(FindingsSection(text).value, draws);
      && ResultsFromText(text, draws) == SortByScore(parsed)
      && multiset(ResultsFromText(text, draws)) == multiset(parsed)
  {
    var fromSection := SectionFindings(text, draws);
    if FindingsSection(text).Some? {
      var parsed := ParsedFindings(FindingsSection(text).value, draws);
      RepairAfterSortChangesNothing(parsed);
      SortByScoreSpec(parsed);
      SortOfSorted(SortByScore(parsed));
    }
    var withPrimary :=
      if fromSection == [] && PrimaryCapture(text, 0).Some? then [PrimaryFinding(PrimaryCapture(text, 0).value)]
      else fromSection;
    var nonEmpty := if withPrimary == [] then [Finding("Medical Analysis Completed", 65)] else withPrimary;
    SortByScoreSpec(nonEmpty);
  }

  /** Without findings lines the primary diagnosis decides, scored 75 when it gives no percentage. */
  lemma PrimaryFallback(text: string, draws: nat -> int)
    requires SectionFindings(text, draws) == [] && PrimaryCapture(text, 0).Some?
    ensures ResultsFromText(text, draws) == [PrimaryFinding(PrimaryCapture(text, 0).value)]
  {
  }

  /** With neither findings nor a primary diagnosis the single default finding is returned. */
  lemma DefaultFinding(text: string, draws: nat -> int)
    requires SectionFindings(text, draws) == [] && PrimaryCapture(text, 0).None?
    ensures ResultsFromText(text, draws) == [Finding("Medical Analysis Completed", 65)]
  {
  }

  /** The section's findings, sorted and then passed through the repair loop in an array. */
  method SectionResults(text: string, draws: nat -> int) returns (results: seq<Finding>)
    ensures results == SectionFindings(text, draws)
  {
    results := [];
    var section := FindingsSection(text);
    if section.Some? {
      results := RepairInArray(SortByScore(ParsedFindings(section.value, draws)));
    }
  }

  /** Copies `sorted` into a fresh array and runs the repair loop over it. */
  method RepairInArray(sorted: seq<Finding>) returns (results: seq<Finding>)
    ensures results == Repaired(sorted)
  {
    var a := new Finding[|sorted|](i requires 0 <= i < |sorted| => sorted[i]);
    assert a[..] == sorted;
    RepairOrder(a);
    results := a[..];
  }

  /**
   * The analysis step: the answer's findings, reordered in an array by the
   * repair loop, or the two fixed findings when the call failed.
   */
  method AnalysisResults(answer: Option<string>, modelName: string, draws: nat -> int)
    returns (results: seq<Finding>, source: string)
    ensures answer.None? ==> results == FailureFindings(modelName) && source == BasicSource
    ensures answer.Some? ==> results == ResultsFromText(answer.value, draws) && source == VisionSource
  {
    if answer.None? {
      return FailureFindings(modelName), BasicSource;
    }
    var text := answer.value;
    source := VisionSource;
    results := SectionResults(text, draws);
    var primary := PrimaryCapture(text, 0);
    if |results| == 0 && primary.Some? {
      results := [PrimaryFinding(primary.value)];
    }
    if |results| == 0 {
      results := [Finding("Medical Analysis Completed", 65)];
    }
    results := SortByScore(results);
  }

  /**
   * `POST`: the upload checks in order, then the model key and its table
   * entry, then the analysis.  Only the table's own keys name a model.
   */
  method Post(file: Option<Upload>, userModelKey: Option<string>, detectionAnswer: Option<string>,
              analysisAnswer: Option<string>, draws: nat -> int)
    returns (resp: Response)
    ensures UploadError(file).Some? ==> resp == Failure(400, UploadError(file).value)
    ensures UploadError(file).None? && ModelKeyFor(userModelKey, detectionAnswer) !in ModelKeys ==>
      resp == Failure(400, InvalidModel)
    ensures resp.Success? <==> UploadError(file).None? && ModelKeyFor(userModelKey, detectionAnswer) in ModelKeys
    ensures resp.Success? ==>
      var model := GetModelById(ModelKeyFor(userModelKey, detectionAnswer)).value;
      && resp.modelUsed == Some(model.name)
      && resp.detection == DetectionFor(userModelKey, detectionAnswer)
      && (analysisAnswer.None? ==> resp.results == FailureFindings(model.name) && resp.source == BasicSource)
      && (analysisAnswer.Some? ==> resp.results == ResultsFromText(analysisAnswer.value, draws) && resp.source == VisionSource)
  {
    var err := UploadError(file);
    if err.Some? {
      return Failure(400, err.value);
    }
    var detection := DetectionFor(userModelKey, detectionAnswer);
    var modelKey := ModelKeyFor(userModelKey, detectionAnswer);
    var model := GetModelById(modelKey);
    if model.None? {
      return Failure(400, InvalidModel);
    }
    var results, source := AnalysisResults(analysisAnswer, model.value.name, draws);
    resp := Success(results, Some(model.value.name), source, detection);
  }

  /**
   * `POST` as written: `MEDICAL_MODELS[modelKey]` also yields the members
   * every object inherits.  Such a member has no `description`, so building
   * the analysis prompt throws inside the analysis `try`, and the reply is
   * the fixed fallback named after the member's `name`.  For a model key the
   * reply is the corrected `Post`'s.
   */
  method PostAsWritten(file: Option<Upload>, userModelKey: Option<string>, detectionAnswer: Option<string>,
                       analysisAnswer: Option<string>, draws: nat -> int)
    returns (resp: Response)
    ensures UploadError(file).Some? ==> resp == Failure(400, UploadError(file).value)
    ensures UploadError(file).None? && !PropertyOf(ModelKeyForAsWritten(userModelKey, detectionAnswer)).Truthy() ==>
      resp == Failure(400, InvalidModel)
    ensures UploadError(file).None? && PropertyOf(ModelKeyForAsWritten(userModelKey, detectionAnswer)).InheritedMember? ==>
      var name := InheritedName(ModelKeyForAsWritten(userModelKey, detectionAnswer));
      resp == Success(FailureFindings(Interpolated(name)), name, BasicSource, DetectionForAsWritten(userModelKey, detectionAnswer))
    ensures UploadError(file).None? && ModelKeyForAsWritten(userModelKey, detectionAnswer) in ModelKeys ==>
      var model := GetModelById(ModelKeyFor(userModelKey, detectionAnswer)).value;
      && resp.Success?
      && resp.modelUsed == Some(model.name)
      && resp.detection == DetectionFor(userModelKey, detectionAnswer)
      && (analysisAnswer.None? ==> resp.results == FailureFindings(model.name) && resp.source == BasicSource)
      && (analysisAnswer.Some? ==> resp.results == ResultsFromText(analysisAnswer.value, draws) && resp.source == VisionSource)
  {
    var err := UploadError(file);
    if err.Some? {
      return Failure(400, err.value);
    }
    var detection := DetectionForAsWritten(userModelKey, detectionAnswer);
    var modelKey := ModelKeyForAsWritten(userModelKey, detectionAnswer);
    match PropertyOf(modelKey)
    case Undefined =>
      resp := Failure(400, InvalidModel);
    case InheritedMember(key) =>
      var name := InheritedName(key);
      resp := Success(FailureFindings(Interpolated(name)), name, BasicSource, detection);
    case OwnEntry(model) =>
      var results, source := AnalysisResults(analysisAnswer, model.name, draws);
      resp := Success(results, Some(model.name), source, detection);
  }

  /**
   * As written, the model field "constructor" and, in auto mode, a detection
   * answer `TYPE: constructor` both select the inherited `Object` function,
   * where the corrected choice is no model (a 400) or the X-ray model.
   */
  lemma ConstructorSelectedAsWritten(detectionAnswer: Option<string>)
    ensures ModelKeyForAsWritten(Some("constructor"), detectionAnswer) == "constructor"
    ensures PropertyOf("constructor").InheritedMember? && InheritedName("constructor") == Some("Object")
    ensures GetModelById(ModelKeyFor(Some("constructor"), detectionAnswer)).None?
    ensures ModelKeyForAsWritten(None, Some("TYPE:" + " " + "constructor" + "")) == "constructor"
    ensures ModelKeyFor(None, Some("TYPE:" + " " + "constructor" + "")) == "xray"
  {
    ConstructorPassesAsWritten();
    InheritedNamesPassLookup();
  }

  /** In auto mode the model lookup cannot fail. */
  lemma AutoModeFindsModel(userModelKey: Option<string>, detectionAnswer: Option<string>)
    requires AutoMode(userModelKey)
    ensures GetModelById(ModelKeyFor(userModelKey, detectionAnswer)).Some?
  {
  }
}
