/** The constant reference tables: breed records keyed by lower-case class
    name, disease records keyed by the exact disease label, and the ordered
    disease class list. */
module StaticData {
  import opened Text

  /** A breed record: every value in the breed tables is a string. */
  type BreedRecord = map<string, string>

  /** A value in a disease or cross-info record. */
  datatype Value = Null | Str(s: string) | Strs(items: seq<string>)

  type Record = map<string, Value>

  const AyrshireRecord: BreedRecord := map[
    "breed" := "Ayrshire",
    "origin" := "Scotland",
    "milk_type" := "Moderate fat, high quality",
    "average_milk_yield" := "5,000–7,000 liters/year",
    "primary_color" := "Red and white",
    "size" := "Medium",
    "temperament" := "Hardy, active grazer",
    "use_case" := "Pasture-based dairy",
    "fun_fact" := "Known for strong feet—excellent for grazing pastures.",
    "history" := "Developed in Ayr, Scotland in the 18th century.",
    "cross_breeding" := "Improves grazing efficiency & udder quality.",
    "future_potential" := "Perfect for sustainable & low-input dairy farming."]

  const BrownSwissRecord: BreedRecord := map[
    "breed" := "Brown Swiss",
    "origin" := "Switzerland",
    "milk_type" := "Ideal for cheese, high protein",
    "average_milk_yield" := "6,000–9,000 liters/year",
    "primary_color" := "Brown with light muzzle",
    "size" := "Large",
    "temperament" := "Calm",
    "use_case" := "Cheese and dairy farms",
    "fun_fact" := "One of the world's oldest dairy breeds.",
    "history" := "Originated in the Swiss Alps.",
    "cross_breeding" := "Improves robustness and cheese yield quality.",
    "future_potential" := "High tolerance to heat and stress."]

  const HolsteinRecord: BreedRecord := map[
    "breed" := "Holstein Friesian",
    "origin" := "Netherlands",
    "milk_type" := "Very high yield, lower fat",
    "average_milk_yield" := "8,000–12,000+ liters/year",
    "primary_color" := "Black & white pattern",
    "size" := "Large",
    "temperament" := "Calm",
    "use_case" := "High-production dairy farms",
    "fun_fact" := "World's highest milk-producing breed.",
    "history" := "Selective breeding for milk yield for 100+ years.",
    "cross_breeding" := "Boosts yield efficiency in mixed herds.",
    "future_potential" := "Essential for precision dairy automation."]

  const JerseyRecord: BreedRecord := map[
    "breed" := "Jersey",
    "origin" := "Jersey Island",
    "milk_type" := "High fat & protein",
    "average_milk_yield" := "4,000–6,000 liters/year",
    "primary_color" := "Fawn/light brown",
    "size" := "Small",
    "temperament" := "Alert & friendly",
    "use_case" := "Ghee, butter, premium dairy",
    "fun_fact" := "Milk appears golden due to beta-carotene.",
    "history" := "Closed herd book since 1800s.",
    "cross_breeding" := "Improves fat %, fertility, calving ease.",
    "future_potential" := "Great for premium dairy startups."]

  const RedDaneRecord: BreedRecord := map[
    "breed" := "Red Dane",
    "origin" := "Denmark",
    "milk_type" := "Balanced composition",
    "average_milk_yield" := "6,000–8,000 liters/year",
    "primary_color" := "Red",
    "size" := "Medium-Large",
    "temperament" := "Robust & adaptable",
    "use_case" := "Health-focused dairy systems",
    "fun_fact" := "Built for longevity and fertility.",
    "history" := "Improved using European dairy lines.",
    "cross_breeding" := "Boosts fertility and long life.",
    "future_potential" := "Ideal for low-antibiotic dairy systems."]

  /** `BREED_STATIC_DATA`: every key is the lower-case form of a class name. */
  const BreedStaticData: map<string, BreedRecord> := map[
    "ayshire" := AyrshireRecord,
    "brown_swiss" := BrownSwissRecord,
    "holstein" := HolsteinRecord,
    "jersey" := JerseyRecord,
    "reddane" := RedDaneRecord]

  const FmdRecord: Record := map[
    "name" := Str("Foot-and-Mouth Disease"),
    "severity" := Str("High"),
    "pathogen" := Str("Aphthovirus"),
    "symptoms" := Strs(["Blisters on mouth & feet", "Lameness", "High fever", "Severe drooling"]),
    "transmission" := Str("Airborne, direct contact, equipment"),
    "treatment" := Str("Supportive only – no direct cure"),
    "prevention" := Str("Vaccination, isolation, biosecurity"),
    "danger_level" := Str("Extremely contagious")]

  const IbkRecord: Record := map[
    "name" := Str("Pinkeye (IBK)"),
    "severity" := Str("Medium"),
    "pathogen" := Str("Moraxella bovis"),
    "symptoms" := Strs(["Red swollen eyes", "Light sensitivity", "Corneal ulcer", "Watery discharge"]),
    "transmission" := Str("Flies, dust, environment"),
    "treatment" := Str("Antibiotics + eye protection"),
    "prevention" := Str("Fly control, sanitation"),
    "danger_level" := Str("Can cause permanent blindness")]

  const LsdRecord: Record := map[
    "name" := Str("Lumpy Skin Disease"),
    "severity" := Str("High"),
    "pathogen" := Str("Capripoxvirus"),
    "symptoms" := Strs(["Hard skin nodules", "Fever", "Swollen lymph nodes", "Drop in milk production"]),
    "transmission" := Str("Mosquitoes & biting flies"),
    "treatment" := Str("Supportive only"),
    "prevention" := Str("Vaccination & insect control"),
    "danger_level" := Str("Rapid farm-wide spread")]

  /** `DISEASE_STATIC_DATA`, keyed by the exact disease label. */
  const DiseaseStaticData: map<string, Record> := map[
    "FMD" := FmdRecord,
    "IBK" := IbkRecord,
    "LSD" := LsdRecord]

  /** `DISEASE_CLASS_NAMES`, in the order of the disease model's outputs. */
  const DiseaseClassNames: seq<string> := ["IBK", "FMD", "LSD"]

  /** The five attributes the crossbreed summary combines. */
  const BreedTraits: seq<string> :=
    ["milk_type", "average_milk_yield", "primary_color", "size", "temperament"]

  /** `table.get(name.lower(), {})`: a case-folded lookup that yields the
      empty record on a miss. */
  function BreedLookupIn(table: map<string, BreedRecord>, name: string): (r: BreedRecord)
    ensures Lower(name) in table ==> r == table[Lower(name)]
    ensures Lower(name) !in table ==> r == map[]
  {
    if Lower(name) in table then table[Lower(name)] else map[]
  }

  /** The backend's breed lookup: a hit is a non-empty record, a miss the
      empty one. */
  function BreedLookup(name: string): (r: BreedRecord)
    ensures Lower(name) in BreedStaticData ==> r == BreedStaticData[Lower(name)] && r != map[]
    ensures Lower(name) !in BreedStaticData ==> r == map[]
  {
    assert Lower(name) in BreedStaticData ==> "breed" in BreedStaticData[Lower(name)];
    BreedLookupIn(BreedStaticData, name)
  }

  /** `DISEASE_STATIC_DATA.get(name, {})`: an exact-case lookup. */
  function DiseaseLookup(name: string): (r: Record)
    ensures name in DiseaseStaticData <==> r != map[]
    ensures name in DiseaseStaticData ==> r == DiseaseStaticData[name]
  {
    if name in DiseaseStaticData then
      assert "name" in DiseaseStaticData[name];
      DiseaseStaticData[name]
    else map[]
  }

  /** Every key of the breed table is already lower-case, so the case-folded
      lookup of a key finds it, and so does any spelling of it in other case. */
  lemma BreedKeysLowercase()
    ensures forall k :: k in BreedStaticData ==> Lower(k) == k
  {
    forall k | k in BreedStaticData ensures Lower(k) == k {
      LowerFixedIff(k);
    }
  }

  /** No breed key is a string of digits. */
  lemma BreedKeysNotDigits(name: string)
    requires |name| > 0 && AllDigits(name)
    ensures name !in BreedStaticData
  {
    assert IsDigit(name[0]);
  }

  lemma BreedLookupFindsKeys(name: string)
    requires Lower(name) in BreedStaticData
    ensures BreedLookup(name) == BreedStaticData[Lower(name)] != map[]
  {
    assert "breed" in BreedStaticData[Lower(name)];
  }

  /** Every breed record gives a non-empty value for each combined trait. */
  lemma BreedRecordsDefineTraits()
    ensures forall k, t :: k in BreedStaticData && t in BreedTraits ==>
      t in BreedStaticData[k] && BreedStaticData[k][t] != ""
  {
  }

  /** The disease table is keyed by exactly the disease class names. */
  lemma DiseaseKeysAreClassNames()
    ensures DiseaseStaticData.Keys == set n | n in DiseaseClassNames
  {
  }

  /** The disease class names are distinct, so each name has one index. */
  lemma DiseaseClassNamesDistinct()
    ensures forall i, j :: 0 <= i < j < |DiseaseClassNames| ==> DiseaseClassNames[i] != DiseaseClassNames[j]
  {
  }

  /** Every disease record lists at least one symptom. */
  lemma DiseaseSymptomsNonEmpty()
    ensures forall k :: k in DiseaseStaticData ==>
      "symptoms" in DiseaseStaticData[k] && DiseaseStaticData[k]["symptoms"].Strs?
      && |DiseaseStaticData[k]["symptoms"].items| > 0
  {
  }
}
