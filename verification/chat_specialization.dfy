/**
 * The AI chat's specialization inference and doctor recommendation
 * (components/synaptix-ai/chat-interface.tsx): keyword buckets with weights,
 * a dampening rule, a first-maximum pick, the alias table used to query the
 * doctor directory, and the de-duplicating lookup loop.
 */
module ChatSpecialization {
  import opened Js
  import opened Text
  import opened Seqs

  /** The buckets in declaration order; a tie goes to the earlier one. */
  const SpecNames: seq<string> := [
    "Orthopedist", "Cardiologist", "Dermatologist", "Psychiatrist", "Endocrinologist",
    "Gastroenterologist", "Ophthalmologist", "ENT Specialist", "General Physician"
  ]

  const OrthoTerms: seq<string> := [
    "bone", "fracture", "broken", "break", "sprain", "dislocation", "joint", "knee", "shoulder",
    "elbow", "wrist", "ankle", "back pain", "orthopedic"
  ]
  const CastTerms: seq<string> := ["cast", "plaster", "immobilize"]

  const CardioTerms: seq<string> := [
    "chest pain", "shortness of breath", "heart", "palpitation", "hypertension", "bp", "blood pressure", "angina"
  ]
  const SkinTerms: seq<string> := ["skin", "rash", "acne", "dermatitis", "eczema", "psoriasis", "mole", "itch", "hives"]
  const MentalTerms: seq<string> := ["anxiety", "depress", "panic", "insomnia", "mental", "mood", "stress"]
  const EndocrineTerms: seq<string> := ["diabetes", "thyroid", "hormone", "pcos", "metabolism"]
  const GastricTerms: seq<string> := ["stomach", "abdomen", "gastric", "ulcer", "acid", "ibs", "constipation", "diarrhea"]
  const EyeTerms: seq<string> := ["eye", "vision", "blurry", "red eye", "conjunctivitis", "ophthalm"]
  const EntTerms: seq<string> := ["ear", "throat", "sinus", "tonsil", "nose", "ent"]
  const GeneralTerms: seq<string> := ["fever", "cough", "cold", "flu", "fatigue", "general"]

  /** Which of the ten keyword alternations of `inferSpecialization` match. */
  datatype Matches = Matches(
    orthopedic: bool, cast: bool, cardiac: bool, skin: bool, mental: bool,
    endocrine: bool, gastric: bool, eye: bool, ent: bool, general: bool)

  /** The alternations matched against the lower-cased text `t`. */
  function MatchesOf(t: string): Matches {
    Matches(
      ContainsAny(t, OrthoTerms), ContainsAny(t, CastTerms), ContainsAny(t, CardioTerms),
      ContainsAny(t, SkinTerms), ContainsAny(t, MentalTerms), ContainsAny(t, EndocrineTerms),
      ContainsAny(t, GastricTerms), ContainsAny(t, EyeTerms), ContainsAny(t, EntTerms),
      ContainsAny(t, GeneralTerms))
  }

  /** The `buckets` record of `inferSpecialization`, one field per specialization. */
  datatype Buckets = Buckets(
    orthopedist: int, cardiologist: int, dermatologist: int, psychiatrist: int, endocrinologist: int,
    gastroenterologist: int, ophthalmologist: int, ent: int, generalPhysician: int)
  {
    /** `Object.entries(buckets)` values, in declaration order. */
    function Entries(): (r: seq<int>)
      ensures |r| == 9
    {
      [orthopedist, cardiologist, dermatologist, psychiatrist, endocrinologist,
       gastroenterologist, ophthalmologist, ent, generalPhysician]
    }
  }

  /** What `add(spec, weight)` contributes when guarded by an alternation that did or did not match. */
  function WeightIf(matched: bool, weight: int): int {
    if matched then weight else 0
  }

  /** The bucket values after the weighted `add` calls: each alternation that matches adds its weight. */
  function RawBuckets(f: Matches): Buckets {
    Buckets(
      WeightIf(f.orthopedic, 3) + WeightIf(f.cast, 2), WeightIf(f.cardiac, 3), WeightIf(f.skin, 2),
      WeightIf(f.mental, 2), WeightIf(f.endocrine, 2), WeightIf(f.gastric, 2),
      WeightIf(f.eye, 2), WeightIf(f.ent, 2), WeightIf(f.general, 1))
  }

  /** The conflict rule: Dermatologist loses 2, down to 0, when Orthopedist has reached 3. */
  function Dampen(b: Buckets): Buckets {
    if b.orthopedist >= 3 then b.(dermatologist := if b.dermatologist - 2 > 0 then b.dermatologist - 2 else 0)
    else b
  }

  /** The bucket values `inferSpecialization` ranks. */
  function Scores(f: Matches): Buckets {
    Dampen(RawBuckets(f))
  }

  /**
   * Each bucket scores above zero exactly when one of its alternations
   * matched; Dermatologist additionally needs the orthopedic alternation not
   * to have matched.
   */
  lemma ScorePositiveIff(f: Matches)
    ensures var b := Scores(f);
      && (b.orthopedist > 0 <==> f.orthopedic || f.cast)
      && (b.orthopedist >= 3 <==> f.orthopedic)
      && (b.cardiologist > 0 <==> f.cardiac)
      && (b.dermatologist > 0 <==> f.skin && !f.orthopedic)
      && (b.psychiatrist > 0 <==> f.mental)
      && (b.endocrinologist > 0 <==> f.endocrine)
      && (b.gastroenterologist > 0 <==> f.gastric)
      && (b.ophthalmologist > 0 <==> f.eye)
      && (b.ent > 0 <==> f.ent)
      && (b.generalPhysician > 0 <==> f.general)
  {
  }

  /** A cast or plaster mention alone (2 points) does not trigger the dampening; an orthopedic word cancels dermatology. */
  lemma DampeningRule(f: Matches)
    ensures !f.orthopedic ==> Scores(f).dermatologist == WeightIf(f.skin, 2)
    ensures f.orthopedic ==> Scores(f).dermatologist == 0
  {
  }

  /**
   * The bucket updates of `inferSpecialization`: the weighted `add` calls in
   * declaration order, then the dampening rule.
   */
  method ScoreBuckets(f: Matches) returns (buckets: Buckets)
    ensures buckets == Scores(f)
  {
    buckets := Buckets(0, 0, 0, 0, 0, 0, 0, 0, 0);
    buckets := buckets.(orthopedist := buckets.orthopedist + WeightIf(f.orthopedic, 3));
    buckets := buckets.(orthopedist := buckets.orthopedist + WeightIf(f.cast, 2));
    buckets := buckets.(cardiologist := buckets.cardiologist + WeightIf(f.cardiac, 3));
    buckets := buckets.(dermatologist := buckets.dermatologist + WeightIf(f.skin, 2));
    buckets := buckets.(psychiatrist := buckets.psychiatrist + WeightIf(f.mental, 2));
    buckets := buckets.(endocrinologist := buckets.endocrinologist + WeightIf(f.endocrine, 2));
    buckets := buckets.(gastroenterologist := buckets.gastroenterologist + WeightIf(f.gastric, 2));
    buckets := buckets.(ophthalmologist := buckets.ophthalmologist + WeightIf(f.eye, 2));
    buckets := buckets.(ent := buckets.ent + WeightIf(f.ent, 2));
    buckets := buckets.(generalPhysician := buckets.generalPhysician + WeightIf(f.general, 1));
    assert buckets == RawBuckets(f);
    if buckets.orthopedist >= 3 {
      buckets := buckets.(dermatologist := if buckets.dermatologist - 2 > 0 then buckets.dermatologist - 2 else 0);
    }
  }

  /**
   * The entry a stable descending sort puts first: a maximal entry that is
   * strictly greater than every entry before it.
   */
  function FirstMax(b: seq<int>): (i: nat)
    requires |b| > 0
    ensures i < |b|
    ensures forall k :: 0 <= k < |b| ==> b[k] <= b[i]
    ensures forall k :: 0 <= k < i ==> b[k] < b[i]
  {
    if |b| == 1 then 0
    else
      var j := FirstMax(b[..|b| - 1]);
      if b[|b| - 1] > b[j] then |b| - 1 else j
  }

  /**
   * `inferSpecialization`: no specialization when every bucket is at most 0,
   * otherwise the name of a maximal bucket, the earliest declared on a tie.
   */
  method InferSpecialization(text: string) returns (r: Option<string>)
    ensures var s := Scores(MatchesOf(ToLower(text))).Entries();
      r.None? <==> forall k :: 0 <= k < 9 ==> s[k] <= 0
    ensures r.Some? ==> r.value in SpecNames
    ensures var s := Scores(MatchesOf(ToLower(text))).Entries();
      forall b | 0 <= b < 9 && r == Some(SpecNames[b]) ::
        (forall k :: 0 <= k < 9 ==> s[k] <= s[b]) && (forall k :: 0 <= k < b ==> s[k] < s[b])
  {
    var t := ToLower(text);
    var record := ScoreBuckets(MatchesOf(t));
    var buckets := record.Entries();
    var best := FirstMax(buckets);
    if buckets[best] <= 0 {
      return None;
    }
    SpecNamesDistinct();
    return Some(SpecNames[best]);
  }

  lemma SpecNamesDistinct()
    ensures Distinct(SpecNames)
  {
  }

  /** `getSpecAliases`: the directory names tried for a specialization, first matching branch wins. */
  function GetSpecAliases(spec: string): (r: seq<string>)
    ensures |r| >= 1
  {
    AliasBranches(ToLower(spec), spec)
  }

  /** The branches of `getSpecAliases`, checked against the lower-cased name `s`. */
  function AliasBranches(s: string, spec: string): (r: seq<string>)
    ensures |r| >= 1
  {
    if Contains(s, "orthop") then ["Orthopedist", "Orthopedic", "Orthopaedic", "Orthopedic Surgeon", "Orthopedics"]
    else if Contains(s, "card") then ["Cardiologist", "Cardiology", "Heart Specialist"]
    else if Contains(s, "derma") || Contains(s, "skin") then ["Dermatologist", "Dermatology", "Skin Specialist"]
    else if Contains(s, "psychi") || Contains(s, "mental") then ["Psychiatrist", "Psychology", "Mental Health"]
    else if Contains(s, "endo") || Contains(s, "thyroid") || Contains(s, "diabet") then
      ["Endocrinologist", "Endocrinology", "Diabetologist"]
    else if Contains(s, "gastro") || Contains(s, "stomach") then ["Gastroenterologist", "Gastroenterology"]
    else if Contains(s, "ophthal") || Contains(s, "eye") then ["Ophthalmologist", "Ophthalmology", "Eye Specialist"]
    else if Contains(s, "ent") || Contains(s, "ear") || Contains(s, "throat") || Contains(s, "nose") then
      ["ENT Specialist", "Otolaryngologist"]
    else if Contains(s, "general") || Contains(s, "fever") || Contains(s, "cold") || Contains(s, "flu") then
      ["General Physician", "Internal Medicine"]
    else [spec]
  }

  /** Every word the alias branches test for. */
  const AliasKeys: seq<string> := [
    "orthop", "card", "derma", "skin", "psychi", "mental", "endo", "thyroid", "diabet", "gastro",
    "stomach", "ophthal", "eye", "ent", "ear", "throat", "nose", "general", "fever", "cold", "flu"
  ]

  /** The branch for each inferred specialization returns a list headed by that very name. */
  lemma AliasesOfInferred(b: nat)
    requires b < 9
    ensures GetSpecAliases(SpecNames[b])[0] == SpecNames[b]
  {
    if b == 0 {
      AliasesOfOrthopedist();
    } else if b == 1 {
      AliasesOfCardiologist();
    } else if b == 2 {
      AliasesOfDermatologist();
    } else if b == 3 {
      AliasesOfPsychiatrist();
    } else if b == 4 {
      AliasesOfEndocrinologist();
    } else if b == 5 {
      AliasesOfGastroenterologist();
    } else if b == 6 {
      AliasesOfOphthalmologist();
    } else if b == 7 {
      AliasesOfEntSpecialist();
    } else {
      AliasesOfGeneralPhysician();
    }
  }

  lemma AliasesOfOrthopedist()
    ensures GetSpecAliases("Orthopedist")[0] == "Orthopedist"
  {
    assert ToLower("Orthopedist") == "orthopedist";
    assert GetSpecAliases("Orthopedist") == AliasBranches("orthopedist", "Orthopedist");
    assert OccursAt("orthopedist", "orthop", 0);
  }

  lemma AliasesOfCardiologist()
    ensures GetSpecAliases("Cardiologist")[0] == "Cardiologist"
  {
    assert ToLower("Cardiologist") == "cardiologist";
    assert GetSpecAliases("Cardiologist") == AliasBranches("cardiologist", "Cardiologist");
    CardiologistMisses();
    assert OccursAt("cardiologist", "card", 0);
  }

  lemma AliasesOfDermatologist()
    ensures GetSpecAliases("Dermatologist")[0] == "Dermatologist"
  {
    assert ToLower("Dermatologist") == "dermatologist";
    assert GetSpecAliases("Dermatologist") == AliasBranches("dermatologist", "Dermatologist");
    DermatologistMisses();
    assert OccursAt("dermatologist", "derma", 0);
  }

  lemma AliasesOfPsychiatrist()
    ensures GetSpecAliases("Psychiatrist")[0] == "Psychiatrist"
  {
    assert ToLower("Psychiatrist") == "psychiatrist";
    assert GetSpecAliases("Psychiatrist") == AliasBranches("psychiatrist", "Psychiatrist");
    PsychiatristMisses();
    assert OccursAt("psychiatrist", "psychi", 0);
  }

  lemma AliasesOfEndocrinologist()
    ensures GetSpecAliases("Endocrinologist")[0] == "Endocrinologist"
  {
    assert ToLower("Endocrinologist") == "endocrinologist";
    assert GetSpecAliases("Endocrinologist") == AliasBranches("endocrinologist", "Endocrinologist");
    EndocrinologistMisses1();
    EndocrinologistMisses2();
    assert OccursAt("endocrinologist", "endo", 0);
  }

  lemma AliasesOfGastroenterologist()
    ensures GetSpecAliases("Gastroenterologist")[0] == "Gastroenterologist"
  {
    assert ToLower("Gastroenterologist") == "gastroenterologist";
    assert GetSpecAliases("Gastroenterologist") == AliasBranches("gastroenterologist", "Gastroenterologist");
    GastroenterologistMisses1();
    GastroenterologistMisses2();
    GastroenterologistMisses3();
    assert OccursAt("gastroenterologist", "gastro", 0);
  }

  lemma AliasesOfOphthalmologist()
    ensures GetSpecAliases("Ophthalmologist")[0] == "Ophthalmologist"
  {
    assert ToLower("Ophthalmologist") == "ophthalmologist";
    assert GetSpecAliases("Ophthalmologist") == AliasBranches("ophthalmologist", "Ophthalmologist");
    OphthalmologistMisses1();
    OphthalmologistMisses2();
    OphthalmologistMisses3();
    assert OccursAt("ophthalmologist", "ophthal", 0);
  }

  lemma AliasesOfEntSpecialist()
    ensures GetSpecAliases("ENT Specialist")[0] == "ENT Specialist"
  {
    assert ToLower("ENT Specialist") == "ent specialist";
    assert GetSpecAliases("ENT Specialist") == AliasBranches("ent specialist", "ENT Specialist");
    EntSpecialistMisses1();
    EntSpecialistMisses2();
    EntSpecialistMisses3();
    EntSpecialistMisses4();
    assert OccursAt("ent specialist", "ent", 0);
  }

  lemma AliasesOfGeneralPhysician()
    ensures GetSpecAliases("General Physician")[0] == "General Physician"
  {
    assert ToLower("General Physician") == "general physician";
    assert GetSpecAliases("General Physician") == AliasBranches("general physician", "General Physician");
    GeneralPhysicianMisses1();
    GeneralPhysicianMisses2();
    GeneralPhysicianMisses3();
    assert OccursAt("general physician", "general", 0);
  }

  // The branch words checked before each specialization's own branch do not occur in its name.

  lemma CardiologistMisses()
    ensures !Contains("cardiologist", "orthop")
  {
    assert !Contains("cardiologist", "orthop") by { CharRefutes("cardiologist", "orthop", 3); }
  }

  lemma DermatologistMisses()
    ensures !Contains("dermatologist", "orthop")
    ensures !Contains("dermatologist", "card")
  {
    assert !Contains("dermatologist", "orthop") by { CharRefutes("dermatologist", "orthop", 3); }
    assert !Contains("dermatologist", "card") by { CharRefutes("dermatologist", "card", 0); }
  }

  lemma PsychiatristMisses()
    ensures !Contains("psychiatrist", "orthop")
    ensures !Contains("psychiatrist", "card")
    ensures !Contains("psychiatrist", "derma")
    ensures !Contains("psychiatrist", "skin")
  {
    assert !Contains("psychiatrist", "orthop") by { CharRefutes("psychiatrist", "orthop", 0); }
    assert !Contains("psychiatrist", "card") by { CharRefutes("psychiatrist", "card", 3); }
    assert !Contains("psychiatrist", "derma") by { CharRefutes("psychiatrist", "derma", 0); }
    assert !Contains("psychiatrist", "skin") by { CharRefutes("psychiatrist", "skin", 1); }
  }

  lemma EndocrinologistMisses1()
    ensures !Contains("endocrinologist", "orthop")
    ensures !Contains("endocrinologist", "card")
    ensures !Contains("endocrinologist", "derma")
    ensures !Contains("endocrinologist", "skin")
  {
    assert !Contains("endocrinologist", "orthop") by { CharRefutes("endocrinologist", "orthop", 3); }
    assert !Contains("endocrinologist", "card") by { CharRefutes("endocrinologist", "card", 1); }
    assert !Contains("endocrinologist", "derma") by { CharRefutes("endocrinologist", "derma", 3); }
    assert !Contains("endocrinologist", "skin") by { CharRefutes("endocrinologist", "skin", 1); }
  }

  lemma EndocrinologistMisses2()
    ensures !Contains("endocrinologist", "psychi")
    ensures !Contains("endocrinologist", "mental")
  {
    assert !Contains("endocrinologist", "psychi") by { CharRefutes("endocrinologist", "psychi", 0); }
    assert !Contains("endocrinologist", "mental") by { CharRefutes("endocrinologist", "mental", 0); }
  }

  lemma GastroenterologistMisses1()
    ensures !Contains("gastroenterologist", "orthop")
    ensures !Contains("gastroenterologist", "card")
    ensures !Contains("gastroenterologist", "derma")
    ensures !Contains("gastroenterologist", "skin")
  {
    assert !Contains("gastroenterologist", "orthop") by { CharRefutes("gastroenterologist", "orthop", 3); }
    assert !Contains("gastroenterologist", "card") by { CharRefutes("gastroenterologist", "card", 0); }
    assert !Contains("gastroenterologist", "derma") by { CharRefutes("gastroenterologist", "derma", 0); }
    assert !Contains("gastroenterologist", "skin") by { CharRefutes("gastroenterologist", "skin", 1); }
  }

  lemma GastroenterologistMisses2()
    ensures !Contains("gastroenterologist", "psychi")
    ensures !Contains("gastroenterologist", "mental")
    ensures !Contains("gastroenterologist", "endo")
    ensures !Contains("gastroenterologist", "thyroid")
  {
    assert !Contains("gastroenterologist", "psychi") by { CharRefutes("gastroenterologist", "psychi", 0); }
    assert !Contains("gastroenterologist", "mental") by { CharRefutes("gastroenterologist", "mental", 0); }
    assert !Contains("gastroenterologist", "endo") by { CharRefutes("gastroenterologist", "endo", 2); }
    assert !Contains("gastroenterologist", "thyroid") by { CharRefutes("gastroenterologist", "thyroid", 1); }
  }

  lemma GastroenterologistMisses3()
    ensures !Contains("gastroenterologist", "diabet")
  {
    assert !Contains("gastroenterologist", "diabet") by { CharRefutes("gastroenterologist", "diabet", 0); }
  }

  lemma OphthalmologistMisses1()
    ensures !Contains("ophthalmologist", "orthop")
    ensures !Contains("ophthalmologist", "card")
    ensures !Contains("ophthalmologist", "derma")
    ensures !Contains("ophthalmologist", "skin")
  {
    assert !Contains("ophthalmologist", "orthop") by { CharRefutes("ophthalmologist", "orthop", 1); }
    assert !Contains("ophthalmologist", "card") by { CharRefutes("ophthalmologist", "card", 0); }
    assert !Contains("ophthalmologist", "derma") by { CharRefutes("ophthalmologist", "derma", 0); }
    assert !Contains("ophthalmologist", "skin") by { CharRefutes("ophthalmologist", "skin", 1); }
  }

  lemma OphthalmologistMisses2()
    ensures !Contains("ophthalmologist", "psychi")
    ensures !Contains("ophthalmologist", "mental")
    ensures !Contains("ophthalmologist", "endo")
    ensures !Contains("ophthalmologist", "thyroid")
  {
    assert !Contains("ophthalmologist", "psychi") by { CharRefutes("ophthalmologist", "psychi", 2); }
    assert !Contains("ophthalmologist", "mental") by { CharRefutes("ophthalmologist", "mental", 1); }
    assert !Contains("ophthalmologist", "endo") by { CharRefutes("ophthalmologist", "endo", 0); }
    assert !Contains("ophthalmologist", "thyroid") by { CharRefutes("ophthalmologist", "thyroid", 2); }
  }

  lemma OphthalmologistMisses3()
    ensures !Contains("ophthalmologist", "diabet")
    ensures !Contains("ophthalmologist", "gastro")
    ensures !Contains("ophthalmologist", "stomach")
  {
    assert !Contains("ophthalmologist", "diabet") by { CharRefutes("ophthalmologist", "diabet", 0); }
    assert !Contains("ophthalmologist", "gastro") by { CharRefutes("ophthalmologist", "gastro", 4); }
    assert !Contains("ophthalmologist", "stomach") by { CharRefutes("ophthalmologist", "stomach", 5); }
  }

  lemma EntSpecialistMisses1()
    ensures !Contains("ent specialist", "orthop")
    ensures !Contains("ent specialist", "card")
    ensures !Contains("ent specialist", "derma")
    ensures !Contains("ent specialist", "skin")
  {
    assert !Contains("ent specialist", "orthop") by { CharRefutes("ent specialist", "orthop", 0); }
    assert !Contains("ent specialist", "card") by { CharRefutes("ent specialist", "card", 2); }
    assert !Contains("ent specialist", "derma") by { CharRefutes("ent specialist", "derma", 0); }
    assert !Contains("ent specialist", "skin") by { CharRefutes("ent specialist", "skin", 1); }
  }

  lemma EntSpecialistMisses2()
    ensures !Contains("ent specialist", "psychi")
    ensures !Contains("ent specialist", "mental")
    ensures !Contains("ent specialist", "endo")
    ensures !Contains("ent specialist", "thyroid")
  {
    assert !Contains("ent specialist", "psychi") by { CharRefutes("ent specialist", "psychi", 2); }
    assert !Contains("ent specialist", "mental") by { CharRefutes("ent specialist", "mental", 0); }
    assert !Contains("ent specialist", "endo") by { CharRefutes("ent specialist", "endo", 2); }
    assert !Contains("ent specialist", "thyroid") by { CharRefutes("ent specialist", "thyroid", 1); }
  }

  lemma EntSpecialistMisses3()
    ensures !Contains("ent specialist", "diabet")
    ensures !Contains("ent specialist", "gastro")
    ensures !Contains("ent specialist", "stomach")
    ensures !Contains("ent specialist", "ophthal")
  {
    assert !Contains("ent specialist", "diabet") by { CharRefutes("ent specialist", "diabet", 0); }
    assert !Contains("ent specialist", "gastro") by { CharRefutes("ent specialist", "gastro", 0); }
    assert !Contains("ent specialist", "stomach") by { CharRefutes("ent specialist", "stomach", 2); }
    assert !Contains("ent specialist", "ophthal") by { CharRefutes("ent specialist", "ophthal", 0); }
  }

  lemma EntSpecialistMisses4()
    ensures !Contains("ent specialist", "eye")
  {
    assert !Contains("ent specialist", "eye") by { CharRefutes("ent specialist", "eye", 1); }
  }

  lemma GeneralPhysicianMisses1()
    ensures !Contains("general physician", "orthop")
    ensures !Contains("general physician", "card")
    ensures !Contains("general physician", "derma")
    ensures !Contains("general physician", "skin")
    ensures !Contains("general physician", "psychi")
    ensures !Contains("general physician", "mental")
    ensures !Contains("general physician", "endo")
    ensures !Contains("general physician", "thyroid")
  {
    assert !Contains("general physician", "orthop") by { CharRefutes("general physician", "orthop", 0); }
    assert !Contains("general physician", "card") by { CharRefutes("general physician", "card", 3); }
    assert !Contains("general physician", "derma") by { CharRefutes("general physician", "derma", 0); }
    assert !Contains("general physician", "skin") by { CharRefutes("general physician", "skin", 1); }
    assert !Contains("general physician", "psychi") by { PairRefutes("general physician", "psychi"); }
    assert !Contains("general physician", "mental") by { CharRefutes("general physician", "mental", 0); }
    assert !Contains("general physician", "endo") by { CharRefutes("general physician", "endo", 2); }
    assert !Contains("general physician", "thyroid") by { CharRefutes("general physician", "thyroid", 0); }
  }

  lemma GeneralPhysicianMisses2()
    ensures !Contains("general physician", "diabet")
    ensures !Contains("general physician", "gastro")
    ensures !Contains("general physician", "stomach")
    ensures !Contains("general physician", "ophthal")
  {
    assert !Contains("general physician", "diabet") by { CharRefutes("general physician", "diabet", 0); }
    assert !Contains("general physician", "gastro") by { CharRefutes("general physician", "gastro", 3); }
    assert !Contains("general physician", "stomach") by { CharRefutes("general physician", "stomach", 1); }
    assert !Contains("general physician", "ophthal") by { CharRefutes("general physician", "ophthal", 0); }
  }

  lemma GeneralPhysicianMisses3()
    ensures !Contains("general physician", "eye")
    ensures !Contains("general physician", "ent")
    ensures !Contains("general physician", "ear")
    ensures !Contains("general physician", "throat")
    ensures !Contains("general physician", "nose")
  {
    assert !Contains("general physician", "eye") by { PairRefutes("general physician", "eye"); }
    assert !Contains("general physician", "ent") by { CharRefutes("general physician", "ent", 2); }
    assert !Contains("general physician", "ear") by { PairRefutes("general physician", "ear"); }
    assert !Contains("general physician", "throat") by { CharRefutes("general physician", "throat", 0); }
    assert !Contains("general physician", "nose") by { CharRefutes("general physician", "nose", 1); }
  }

  /** A specialization that mentions none of the branch words is looked up under its own name only. */
  lemma UnrecognisedSpecIsItsOwnAlias(spec: string)
    requires forall k :: 0 <= k < |AliasKeys| ==> !Contains(ToLower(spec), AliasKeys[k])
    ensures GetSpecAliases(spec) == [spec]
  {
    var s := ToLower(spec);
    assert !Contains(s, AliasKeys[0]) && !Contains(s, AliasKeys[1]) && !Contains(s, AliasKeys[2]);
    assert !Contains(s, AliasKeys[3]) && !Contains(s, AliasKeys[4]) && !Contains(s, AliasKeys[5]);
    assert !Contains(s, AliasKeys[6]) && !Contains(s, AliasKeys[7]) && !Contains(s, AliasKeys[8]);
    assert !Contains(s, AliasKeys[9]) && !Contains(s, AliasKeys[10]) && !Contains(s, AliasKeys[11]);
    assert !Contains(s, AliasKeys[12]) && !Contains(s, AliasKeys[13]) && !Contains(s, AliasKeys[14]);
    assert !Contains(s, AliasKeys[15]) && !Contains(s, AliasKeys[16]) && !Contains(s, AliasKeys[17]);
    assert !Contains(s, AliasKeys[18]) && !Contains(s, AliasKeys[19]) && !Contains(s, AliasKeys[20]);
  }
  // ---------------------------------------------------------------------------
  // Doctor recommendations

  /** A doctor as the directory returns it (only `id` matters to the lookup loop). */
  datatype Doctor = Doctor(id: string, name: string, specialization: string)

  /** The ids of a list of doctors. */
  function Ids(ds: seq<Doctor>): set<string> {
    set i | 0 <= i < |ds| :: ds[i].id
  }

  lemma IdsSnoc(ds: seq<Doctor>, d: Doctor)
    ensures Ids(ds + [d]) == Ids(ds) + {d.id}
  {
    forall x | x in Ids(ds + [d]) ensures x in Ids(ds) + {d.id} {
      var i :| 0 <= i < |ds + [d]| && (ds + [d])[i].id == x;
      if i < |ds| { assert ds[i].id == x; }
    }
    forall x | x in Ids(ds) ensures x in Ids(ds + [d]) {
      var i :| 0 <= i < |ds| && ds[i].id == x;
      assert (ds + [d])[i].id == x;
    }
    assert (ds + [d])[|ds|].id == d.id;
  }

  predicate DistinctIds(ds: seq<Doctor>) {
    forall i, j :: 0 <= i < j < |ds| ==> ds[i].id != ds[j].id
  }

  /**
   * `results` after the push loop has gone over `ds`: every doctor whose id
   * has not been seen yet is appended, in order.
   */
  function PushUnseen(results: seq<Doctor>, ds: seq<Doctor>): (r: seq<Doctor>)
    ensures |results| <= |r| && r[..|results|] == results
    ensures DistinctIds(results) ==> DistinctIds(r)
    ensures Ids(r) == Ids(results) + Ids(ds)
    ensures forall i :: |results| <= i < |r| ==> r[i] in ds
    decreases |ds|
  {
    if ds == [] then results
    else
      var p := PushUnseen(results, ds[..|ds| - 1]);
      var d := ds[|ds| - 1];
      assert Ids(ds) == Ids(ds[..|ds| - 1]) + {d.id};
      assert forall i :: |results| <= i < |p| ==> p[i] in ds[..|ds| - 1];
      if d.id in Ids(p) then p
      else
        IdsSnoc(p, d);
        p + [d]
  }

  /** Starting from nothing, the push loop keeps something exactly when the directory returned something. */
  lemma PushUnseenEmpty(ds: seq<Doctor>)
    ensures PushUnseen([], ds) == [] <==> ds == []
  {
    if ds != [] {
      assert ds[0].id in Ids(ds);
    }
  }

  /**
   * The push loop over one directory answer, written once for both places
   * that run it.
   */
  method AddUnseen(ds: seq<Doctor>, results0: seq<Doctor>, seen0: set<string>)
    returns (results: seq<Doctor>, seen: set<string>)
    requires seen0 == Ids(results0)
    ensures results == PushUnseen(results0, ds)
    ensures seen == Ids(results)
  {
    results, seen := results0, seen0;
    for i := 0 to |ds|
      invariant results == PushUnseen(results0, ds[..i])
      invariant seen == Ids(results)
    {
      var d := ds[i];
      assert ds[..i + 1][..i] == ds[..i];
      if d.id !in seen {
        seen := seen + {d.id};
        results := results + [d];
        IdsSnoc(results[..|results| - 1], d);
        assert results[..|results| - 1] + [d] == results;
      }
    }
    assert ds[..|ds|] == ds;
  }

  /** The doctors found under the first alias, in order, for which the directory returned anything. */
  function FirstHit(aliases: seq<string>, lookup: string -> seq<Doctor>): Option<seq<Doctor>> {
    if aliases == [] then None
    else
      var hits := PushUnseen([], lookup(aliases[0]));
      if hits != [] then Some(hits) else FirstHit(aliases[1..], lookup)
  }

  /** The prefix query: the first six characters of the specialization, or all of it when shorter. */
  function PrefixQuery(spec: string): (q: string)
    ensures |q| == if |spec| < 6 then |spec| else 6
    ensures StartsWith(spec, q)
  {
    spec[..if |spec| < 6 then |spec| else 6]
  }

  /** What `fetchDoctorsForSpec` ends up recommending. */
  function Recommended(spec: string, lookup: string -> seq<Doctor>): seq<Doctor> {
    match FirstHit(GetSpecAliases(spec), lookup)
    case Some(hits) => hits
    case None => PushUnseen([], lookup(PrefixQuery(spec)))
  }

  /**
   * Aliases are tried in order: the first one the directory answers with a
   * non-empty list decides the recommendation, and the ones after it are not
   * consulted.
   */
  lemma {:induction false} FirstHitIsFirst(aliases: seq<string>, lookup: string -> seq<Doctor>, i: nat)
    requires i < |aliases| && lookup(aliases[i]) != []
    requires forall j :: 0 <= j < i ==> lookup(aliases[j]) == []
    ensures FirstHit(aliases, lookup) == Some(PushUnseen([], lookup(aliases[i])))
    decreases i
  {
    PushUnseenEmpty(lookup(aliases[0]));
    if i > 0 {
      FirstHitIsFirst(aliases[1..], lookup, i - 1);
    }
  }

  /** No alias yields a doctor exactly when the prefix query is the one that decides. */
  lemma {:induction false} FirstHitNone(aliases: seq<string>, lookup: string -> seq<Doctor>)
    ensures FirstHit(aliases, lookup).None? <==> forall j :: 0 <= j < |aliases| ==> lookup(aliases[j]) == []
    decreases |aliases|
  {
    if aliases != [] {
      PushUnseenEmpty(lookup(aliases[0]));
      FirstHitNone(aliases[1..], lookup);
      assert forall j :: 1 <= j < |aliases| ==> aliases[j] == aliases[1..][j - 1];
    }
  }

  /** The recommendation never lists a doctor twice, and it is drawn from the directory's answers. */
  lemma RecommendedDistinct(spec: string, lookup: string -> seq<Doctor>)
    ensures DistinctIds(Recommended(spec, lookup))
  {
    FirstHitDistinct(GetSpecAliases(spec), lookup);
  }

  lemma {:induction false} FirstHitDistinct(aliases: seq<string>, lookup: string -> seq<Doctor>)
    ensures FirstHit(aliases, lookup).Some? ==> DistinctIds(FirstHit(aliases, lookup).value)
    decreases |aliases|
  {
    if aliases != [] {
      FirstHitDistinct(aliases[1..], lookup);
    }
  }

  /**
   * `fetchDoctorsForSpec`: the directory lookup is the parameter `lookup`,
   * which maps a query to the doctors it returns (an empty list for a failed
   * or unsuccessful request).
   */
  method FetchDoctorsForSpec(spec: string, lookup: string -> seq<Doctor>) returns (results: seq<Doctor>)
    ensures results == Recommended(spec, lookup)
    ensures DistinctIds(results)
  {
    var aliases := GetSpecAliases(spec);
    var seen: set<string> := {};
    results := [];
    for i := 0 to |aliases|
      invariant results == [] && seen == {}
      invariant FirstHit(aliases, lookup) == FirstHit(aliases[i..], lookup)
    {
      results, seen := AddUnseen(lookup(aliases[i]), results, seen);
      assert aliases[i..][1..] == aliases[i + 1..];
      if |results| > 0 {
        break;
      }
    }
    if |results| == 0 {
      results, seen := AddUnseen(lookup(PrefixQuery(spec)), results, seen);
    }
    RecommendedDistinct(spec, lookup);
  }
}
