/**
 * The table of image-analysis models (lib/utils/medical-models.ts), the
 * filename heuristic that picks one, and the lookup by key.
 */
module MedicalModels {
  import opened Js
  import opened Text

  datatype ModelConfig = ModelConfig(id: string, name: string, description: string, acceptedTypes: seq<string>)

  /** The keys of `MEDICAL_MODELS`, in declaration order. */
  const ModelKeys: seq<string> := [
    "xray", "dermatology", "diabetic_retinopathy", "glaucoma", "alzheimer", "musculoskeletal", "wound"
  ]

  const XrayTypes: seq<string> := ["chest", "xray", "x-ray", "lung", "pneumonia", "respiratory"]
  const DermatologyTypes: seq<string> := ["skin", "dermatology", "mole", "lesion", "rash", "acne", "eczema", "psoriasis"]
  const RetinopathyTypes: seq<string> := ["retina", "retinal", "diabetic", "retinopathy", "eye", "fundus", "ophthalmology"]
  const GlaucomaTypes: seq<string> := ["glaucoma", "optic", "nerve", "eye", "retina", "retinal", "ophthalmology"]
  const AlzheimerTypes: seq<string> := ["alzheimer", "brain", "mri", "neurological", "dementia", "cognitive", "neurology"]
  const MusculoskeletalTypes: seq<string> := ["bone", "fracture", "joint", "muscle", "skeletal", "orthopedic", "musculoskeletal"]
  const WoundTypes: seq<string> := ["wound", "injury", "cut", "burn", "healing", "ulcer", "sore"]

  /** The entry for the `i`-th key. */
  function ConfigAt(i: nat): (c: ModelConfig)
    requires i < |ModelKeys|
  {
    match i
    case 0 => ModelConfig("SicariusSicariiStuff/X-Ray_Alpha", "X-Ray Analysis",
                          "Analyzes chest X-rays and respiratory conditions", TypesAt(0))
    case 1 => ModelConfig("dima806/skin_cancer_image_detection", "Dermatology Analysis",
                          "Analyzes skin conditions and dermatological findings", TypesAt(1))
    case 2 => ModelConfig("HuggingFaceM4/diabetic-retinopathy-classification", "Diabetic Retinopathy Detection",
                          "Detects diabetic retinopathy in retinal images", TypesAt(2))
    case 3 => ModelConfig("keremberke/yolov8n-glaucoma-detection", "Glaucoma Detection",
                          "Classifies glaucoma in retinal images", TypesAt(3))
    case 4 => ModelConfig("Falconsai/nsfw_image_detection", "Alzheimer's MRI Analysis",
                          "Analyzes brain MRI scans for neurological conditions", TypesAt(4))
    case 5 => ModelConfig("microsoft/resnet-50", "Musculoskeletal Analysis",
                          "Detects abnormalities in bone and joint images", TypesAt(5))
    case _ => ModelConfig("microsoft/resnet-50", "Wound Assessment",
                          "Classifies wound types and healing stages", TypesAt(6))
  }

  /** The position of `key` among the model keys, if it is one. */
  function KeyIndex(key: string): (r: Option<nat>)
    ensures r.Some? <==> key in ModelKeys
    ensures r.Some? ==> r.value < |ModelKeys| && ModelKeys[r.value] == key
  {
    if key == "xray" then Some(0)
    else if key == "dermatology" then Some(1)
    else if key == "diabetic_retinopathy" then Some(2)
    else if key == "glaucoma" then Some(3)
    else if key == "alzheimer" then Some(4)
    else if key == "musculoskeletal" then Some(5)
    else if key == "wound" then Some(6)
    else None
  }

  /**
   * `getModelById` restricted to the table's own keys: the entry for a model
   * key, nothing for any other string.
   */
  function GetModelById(key: string): (r: Option<ModelConfig>)
    ensures r.Some? <==> key in ModelKeys
    ensures r.Some? ==> r.value == ConfigAt(KeyIndex(key).value)
  {
    match KeyIndex(key)
    case None => None
    case Some(i) => Some(ConfigAt(i))
  }

  // ---------------------------------------------------------------------------
  // `MEDICAL_MODELS[key]` as JavaScript evaluates it

  /**
   * The properties every object literal inherits from `Object.prototype`;
   * reading any of them yields a function or an object, which is truthy.
   */
  const ObjectPrototypeNames: seq<string> := [
    "constructor", "__proto__", "toString", "toLocaleString", "valueOf", "hasOwnProperty",
    "isPrototypeOf", "propertyIsEnumerable", "__defineGetter__", "__defineSetter__",
    "__lookupGetter__", "__lookupSetter__"
  ]

  /** What `MEDICAL_MODELS[key]` reads: a table entry, an inherited member, or `undefined`. */
  datatype Property = OwnEntry(config: ModelConfig) | InheritedMember(name: string) | Undefined {
    /** Whether the value read is truthy. */
    predicate Truthy() { !Undefined? }
  }

  /** `MEDICAL_MODELS[key]` as written: the prototype chain is consulted too. */
  function PropertyOf(key: string): (r: Property)
    ensures r.OwnEntry? <==> key in ModelKeys
    ensures r.InheritedMember? <==> key !in ModelKeys && key in ObjectPrototypeNames
    ensures r.Truthy() <==> key in ModelKeys || key in ObjectPrototypeNames
  {
    match GetModelById(key)
    case Some(c) => OwnEntry(c)
    case None => if key in ObjectPrototypeNames then InheritedMember(key) else Undefined
  }

  /** No inherited name is a key of the table. */
  lemma PrototypeNameIsNoKey(key: string)
    requires key in ObjectPrototypeNames
    ensures key !in ModelKeys
  {
  }

  /**
   * The `name` of what an inherited property holds: "Object" for the
   * constructor, nothing for `__proto__` (the prototype object has no name),
   * the method's own name for every other member.
   */
  function InheritedName(key: string): (r: Option<string>)
    requires key in ObjectPrototypeNames
    ensures r.None? <==> key == "__proto__"
    ensures r.Some? && key != "constructor" ==> r.value == key
  {
    if key == "constructor" then Some("Object")
    else if key == "__proto__" then None
    else Some(key)
  }

  /**
   * As written, the truthiness test accepts names that are not model keys:
   * `MEDICAL_MODELS["constructor"]` and `MEDICAL_MODELS["toString"]` are
   * inherited functions.
   */
  lemma InheritedNamesPassLookup()
    ensures PropertyOf("constructor").Truthy() && "constructor" !in ModelKeys
    ensures PropertyOf("toString").Truthy() && "toString" !in ModelKeys
  {
    assert ObjectPrototypeNames[0] == "constructor";
    assert ObjectPrototypeNames[2] == "toString";
  }

  // ---------------------------------------------------------------------------
  // Filename heuristic

  /** The accepted types of the `i`-th key. */
  function TypesAt(i: nat): seq<string>
    requires i < |ModelKeys|
  {
    match i
    case 0 => XrayTypes
    case 1 => DermatologyTypes
    case 2 => RetinopathyTypes
    case 3 => GlaucomaTypes
    case 4 => AlzheimerTypes
    case 5 => MusculoskeletalTypes
    case _ => WoundTypes
  }

  /** Some accepted type of the `i`-th key occurs in the lower-cased filename. */
  predicate Accepts(lower: string, i: nat)
    requires i < |ModelKeys|
  {
    ContainsAny(lower, TypesAt(i))
  }

  /** No key before `n` accepts the filename. */
  predicate NoneBefore(lower: string, n: nat)
    requires n <= |ModelKeys|
  {
    forall j :: 0 <= j < n ==> !Accepts(lower, j)
  }

  /** The least index from `k` on whose accepted types occur in `lower`. */
  function FirstAccepting(lower: string, k: nat): (r: Option<nat>)
    requires k <= |ModelKeys| && NoneBefore(lower, k)
    ensures r.Some? ==> r.value < |ModelKeys| && Accepts(lower, r.value) && NoneBefore(lower, r.value)
    ensures r.None? ==> NoneBefore(lower, |ModelKeys|)
    decreases |ModelKeys| - k
  {
    if k == |ModelKeys| then None
    else if Accepts(lower, k) then Some(k)
    else FirstAccepting(lower, k + 1)
  }

  /**
   * The position of the key `detectModelFromFilename` picks: the first key, in
   * declaration order, one of whose accepted types occurs in the lower-cased
   * filename; the X-ray key (position 0) when there is none.
   */
  function DetectedIndex(filename: string): (i: nat)
    ensures i < |ModelKeys|
    ensures var lower := ToLower(filename);
      || (Accepts(lower, i) && NoneBefore(lower, i))
      || (i == 0 && NoneBefore(lower, |ModelKeys|))
  {
    match FirstAccepting(ToLower(filename), 0)
    case Some(i) => i
    case None => 0
  }

  /** `detectModelFromFilename`: always one of the model keys. */
  function DetectModelFromFilename(filename: string): (r: string)
    ensures r in ModelKeys
  {
    ModelKeys[DetectedIndex(filename)]
  }

  /** The filename's case does not matter. */
  lemma DetectModelIgnoresCase(filename: string)
    ensures DetectModelFromFilename(ToLower(filename)) == DetectModelFromFilename(filename)
  {
    ToLowerIdempotent(filename);
  }

  /**
   * A filename mentioning "eye" but none of the X-ray or dermatology words goes
   * to the diabetic retinopathy model, even when it also says "glaucoma".
   */
  lemma EyeGoesToRetinopathy(filename: string)
    requires Contains(ToLower(filename), "eye")
    requires !ContainsAny(ToLower(filename), XrayTypes) && !ContainsAny(ToLower(filename), DermatologyTypes)
    ensures DetectModelFromFilename(filename) == "diabetic_retinopathy"
  {
    var lower := ToLower(filename);
    assert TypesAt(2)[4] == "eye";
    ContainsAnyOf(lower, TypesAt(2), 4);
    assert !Accepts(lower, 0) && !Accepts(lower, 1) && Accepts(lower, 2);
    assert DetectedIndex(filename) == 2;
  }
}
