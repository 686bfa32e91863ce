/**
 * The Hugging Face analysis endpoint (app/api/analize-image/route.ts): the
 * model key default, the guards, and the normalisation of the inference
 * service's JSON answer.  The answer is an input; scores are integer
 * percentages.
 */
module AnalizeImageRoute {
  import opened Js
  import opened Text
  import opened MedicalModels

  /** One element of the service's answer: its `label`, `class`, `score` and `confidence` fields. */
  datatype Item = Item(labelField: Option<string>, classField: Option<string>, score: Option<int>, confidence: Option<int>)

  /**
   * The parsed JSON body of an answer.  In an array, `None` is a `null`
   * element; an element that is not an object reads like an `Item` without
   * fields.
   */
  datatype Body = JsonArray(items: seq<Option<Item>>) | JsonObject(item: Item) | JsonNull | JsonPrimitive

  /** The service's reply: an error status, or a body. */
  datatype Upstream = NotOk(status: int, statusText: string) | Ok(body: Body)

  datatype Prediction = Prediction(name: string, score: int)

  datatype Response = Failure(status: int, error: string) | Success(results: seq<Prediction>, modelUsed: Option<string>)

  /** A number is truthy unless it is 0. */
  predicate TruthyNumber(n: Option<int>) {
    n.Some? && n.value != 0
  }

  /** `a || b || fallback` over numbers. */
  function NumberOr(a: Option<int>, b: Option<int>, fallback: int): (r: int)
    ensures TruthyNumber(a) ==> r == a.value
    ensures !TruthyNumber(a) && TruthyNumber(b) ==> r == b.value
    ensures !TruthyNumber(a) && !TruthyNumber(b) ==> r == fallback
  {
    if TruthyNumber(a) then a.value else if TruthyNumber(b) then b.value else fallback
  }

  /** `{ label: r.label || r.class || "Unknown", score: r.score || r.confidence || 0 }` */
  function Normalise(item: Item): (r: Prediction)
    ensures r.name != ""
    ensures Truthy(item.labelField) ==> r.name == item.labelField.value
    ensures !Truthy(item.labelField) && Truthy(item.classField) ==> r.name == item.classField.value
    ensures !Truthy(item.labelField) && !Truthy(item.classField) ==> r.name == "Unknown"
    ensures r.score == NumberOr(item.score, item.confidence, 0)
  {
    Prediction(OrElse(OrOpt(item.labelField, item.classField), "Unknown"), NumberOr(item.score, item.confidence, 0))
  }

  /** A score of 0 is falsy, so the confidence field is used instead. */
  lemma ZeroScoreFallsThrough(item: Item)
    requires item.score == Some(0) && TruthyNumber(item.confidence)
    ensures Normalise(item).score == item.confidence.value
  {
  }

  /** Some element of the array is `null`. */
  predicate HasNull(items: seq<Option<Item>>) {
    exists i :: 0 <= i < |items| && items[i].None?
  }

  /**
   * `results.map(...)`: every element normalised, in order; nothing when an
   * element is `null`, since reading its `label` throws.
   */
  function NormaliseAll(items: seq<Option<Item>>): (r: Option<seq<Prediction>>)
    ensures r.None? <==> HasNull(items)
    ensures r.Some? ==> |r.value| == |items| && forall i :: 0 <= i < |items| ==> r.value[i] == Normalise(items[i].value)
  {
    if HasNull(items) then None
    else Some(seq(|items|, i requires 0 <= i < |items| => Normalise(items[i].value)))
  }

  const UnexpectedFormat := "Unexpected response format from AI model"
  /** What the JavaScript engine reports when `.label` is read on `null`. */
  const NullRead := "Cannot read properties of null (reading 'label')"

  /** `${status}` for a status code. */
  function StatusText(status: int): string {
    IntText(status)
  }

  /** `(formData.get("model") as string) || "xray"` */
  function ModelKey(modelParam: Option<string>): (k: string)
    ensures Truthy(modelParam) ==> k == modelParam.value
    ensures !Truthy(modelParam) ==> k == "xray"
  {
    OrElse(modelParam, "xray")
  }

  /**
   * The answer body turned into the response: an array element by element;
   * an object with a label or class as one result; `null`, as the body or
   * as an array element, throws on the property read; anything else is an
   * unexpected format.
   */
  function FromBody(body: Body, modelName: Option<string>): (r: Response)
    ensures r.Success? ==> r.modelUsed == modelName && |r.results| >= (if body.JsonArray? then 0 else 1)
    ensures r.Failure? ==> r.status == 500
    ensures r == Failure(500, NullRead) <==> body.JsonNull? || (body.JsonArray? && HasNull(body.items))
  {
    match body
    case JsonArray(items) =>
      (match NormaliseAll(items)
       case Some(results) => Success(results, modelName)
       case None => Failure(500, NullRead))
    case JsonObject(item) =>
      if Truthy(item.labelField) || Truthy(item.classField) then
        Success([Prediction(OrElse(OrOpt(item.labelField, item.classField), ""), NumberOr(item.score, item.confidence, 0))], modelName)
      else Failure(500, UnexpectedFormat)
    case JsonNull => Failure(500, NullRead)
    case JsonPrimitive => Failure(500, UnexpectedFormat)
  }

  /** The reply once a model was found: a failed call passes its status on, a body is normalised. */
  function Reply(upstream: Upstream, modelName: Option<string>): (r: Response)
    ensures upstream.NotOk? ==> r == Failure(upstream.status, "Analysis failed: " + StatusText(upstream.status) + " " + upstream.statusText)
    ensures upstream.Ok? ==> r == FromBody(upstream.body, modelName)
  {
    match upstream
    case NotOk(status, statusText) => Failure(status, "Analysis failed: " + StatusText(status) + " " + statusText)
    case Ok(body) => FromBody(body, modelName)
  }

  /**
   * `POST`: a missing file, then an unknown model key (the key defaulting to
   * "xray"), give 400; a failed upstream call passes its status on; then the
   * body is normalised.  Only the table's own keys name a model.
   */
  function Post(hasFile: bool, modelParam: Option<string>, upstream: Upstream): (r: Response)
    ensures !hasFile ==> r == Failure(400, "No image file provided")
    ensures hasFile && ModelKey(modelParam) !in ModelKeys ==> r == Failure(400, "Invalid model specified")
    ensures hasFile && ModelKey(modelParam) in ModelKeys && upstream.NotOk? ==>
      r == Failure(upstream.status, "Analysis failed: " + StatusText(upstream.status) + " " + upstream.statusText)
    ensures hasFile && ModelKey(modelParam) in ModelKeys && upstream.Ok? ==>
      r == FromBody(upstream.body, Some(GetModelById(ModelKey(modelParam)).value.name))
    ensures r.Success? ==>
      && hasFile && upstream.Ok?
      && r.modelUsed == Some(GetModelById(ModelKey(modelParam)).value.name)
  {
    if !hasFile then Failure(400, "No image file provided")
    else match GetModelById(ModelKey(modelParam))
      case None => Failure(400, "Invalid model specified")
      case Some(model) => Reply(upstream, Some(model.name))
  }

  /**
   * `POST` as written: the check `MEDICAL_MODELS[modelKey]` also accepts the
   * members every object inherits; the service is then called for the model
   * id `undefined` and the reply carries the member's `name`.  For every
   * other key the reply is the corrected `Post`'s.
   */
  function PostAsWritten(hasFile: bool, modelParam: Option<string>, upstream: Upstream): (r: Response)
    ensures !hasFile || !PropertyOf(ModelKey(modelParam)).InheritedMember? ==> r == Post(hasFile, modelParam, upstream)
    ensures hasFile && PropertyOf(ModelKey(modelParam)).InheritedMember? ==>
      r == Reply(upstream, InheritedName(ModelKey(modelParam)))
  {
    if !hasFile then Failure(400, "No image file provided")
    else match PropertyOf(ModelKey(modelParam))
      case Undefined => Failure(400, "Invalid model specified")
      case OwnEntry(model) => Reply(upstream, Some(model.name))
      case InheritedMember(key) => Reply(upstream, InheritedName(key))
  }

  /**
   * As written, the model field "constructor" is accepted and an answer is
   * reported as coming from the model "Object"; the corrected check refuses it.
   */
  lemma ConstructorAcceptedAsWritten(upstream: Upstream)
    ensures Post(true, Some("constructor"), upstream) == Failure(400, "Invalid model specified")
    ensures PostAsWritten(true, Some("constructor"), Ok(JsonArray([]))) == Success([], Some("Object"))
  {
    InheritedNamesPassLookup();
  }

  /** Without a model field the X-ray model is used. */
  lemma DefaultModelIsXray(upstream: Upstream)
    ensures Post(true, None, upstream).Success? ==> Post(true, None, upstream).modelUsed == Some("X-Ray Analysis")
    ensures Post(true, Some(""), upstream) == Post(true, None, upstream)
  {
  }

  /** An array answer without `null` keeps its length and order, each element normalised. */
  lemma ArrayAnswerNormalised(modelParam: Option<string>, items: seq<Option<Item>>)
    requires ModelKey(modelParam) in ModelKeys
    requires !HasNull(items)
    ensures var r := Post(true, modelParam, Ok(JsonArray(items)));
      && r.Success? && |r.results| == |items|
      && forall i :: 0 <= i < |items| ==> r.results[i] == Normalise(items[i].value)
  {
  }

  /** A `null` anywhere in an array answer is a server error with the engine's message. */
  lemma NullElementFails(modelParam: Option<string>, items: seq<Option<Item>>)
    requires ModelKey(modelParam) in ModelKeys
    requires HasNull(items)
    ensures Post(true, modelParam, Ok(JsonArray(items))) == Failure(500, NullRead)
  {
  }

  /** A single object with a label or class becomes a one-element list, normalised like an array element. */
  lemma SingleObjectAnswer(modelParam: Option<string>, item: Item)
    requires ModelKey(modelParam) in ModelKeys
    requires Truthy(item.labelField) || Truthy(item.classField)
    ensures Post(true, modelParam, Ok(JsonObject(item))).Success?
    ensures Post(true, modelParam, Ok(JsonObject(item))).results == [Normalise(item)]
  {
  }

  /** Any other answer shape is a server error. */
  lemma OtherShapesFail(modelParam: Option<string>, body: Body)
    requires ModelKey(modelParam) in ModelKeys
    requires body.JsonPrimitive? || (body.JsonObject? && !Truthy(body.item.labelField) && !Truthy(body.item.classField))
    ensures Post(true, modelParam, Ok(body)) == Failure(500, UnexpectedFormat)
  {
  }
}
