/** The backend's crossbreed endpoint: two breed predictions, their records,
    and the heuristic hybrid summary built from them. */
module CrossbreedApi {
  import opened Wrappers
  import opened Text
  import opened Imaging
  import opened Http
  import opened StaticData
  import opened CattleModel
  import opened ModelLoader

  /** `record.get(field)`. */
  function Get(record: BreedRecord, field: string): Option<string> {
    if field in record then Some(record[field]) else None
  }

  /** Python truthiness of `record.get(field)`: present and non-empty. */
  predicate Truthy(v: Option<string>) {
    v.Some? && v.value != ""
  }

  /** `combine_field`: both values joined with A first when both are truthy,
      otherwise the first truthy one, otherwise `N/A`. */
  function CombineField(aStatic: BreedRecord, bStatic: BreedRecord, field: string): (r: string)
    ensures r != ""
    ensures Truthy(Get(aStatic, field)) ==> StartsWith(r, aStatic[field])
    ensures !Truthy(Get(aStatic, field)) && Truthy(Get(bStatic, field)) ==> r == bStatic[field]
  {
    var a := Get(aStatic, field);
    var b := Get(bStatic, field);
    if Truthy(a) && Truthy(b) then a.value + " / " + b.value
    else if Truthy(a) then a.value
    else if Truthy(b) then b.value
    else "N/A"
  }

  lemma CombineBoth(aStatic: BreedRecord, bStatic: BreedRecord, field: string)
    requires Truthy(Get(aStatic, field)) && Truthy(Get(bStatic, field))
    ensures CombineField(aStatic, bStatic, field) == aStatic[field] + " / " + bStatic[field]
  {
  }

  lemma CombineOnlyOne(aStatic: BreedRecord, bStatic: BreedRecord, field: string)
    requires Truthy(Get(aStatic, field)) != Truthy(Get(bStatic, field))
    ensures CombineField(aStatic, bStatic, field)
      == if Truthy(Get(aStatic, field)) then aStatic[field] else bStatic[field]
  {
  }

  lemma CombineNeither(aStatic: BreedRecord, bStatic: BreedRecord, field: string)
    requires !Truthy(Get(aStatic, field)) && !Truthy(Get(bStatic, field))
    ensures CombineField(aStatic, bStatic, field) == "N/A"
  {
  }

  /** A missing field and a field holding the empty string combine alike. */
  lemma CombineMissingIsEmpty(aStatic: BreedRecord, bStatic: BreedRecord, field: string)
    ensures CombineField(aStatic - {field}, bStatic, field) == CombineField(aStatic[field := ""], bStatic, field)
    ensures CombineField(aStatic, bStatic - {field}, field) == CombineField(aStatic, bStatic[field := ""], field)
  {
  }

  /** `f"{a_label} x {b_label}"`. */
  function CrossName(aName: string, bName: string): (r: string)
    ensures |r| == |aName| + 3 + |bName|
    ensures r[..|aName|] == aName && r[|aName|..|aName| + 3] == " x " && r[|aName| + 3..] == bName
  {
    aName + " x " + bName
  }

  /** The notes line; `format2` is the two-decimal formatting of a float,
      kept abstract. */
  function Notes(aName: string, aConf: real, bName: string, bConf: real, format2: real -> string): (r: string)
    ensures StartsWith(r, "Parent A: " + aName + " (")
    ensures
      var head := "Parent A: " + aName + " (" + format2(aConf) + "), Parent B: ";
      && |head| + |bName| <= |r|
      && r[..|head|] == head
      && r[|head|..|head| + |bName|] == bName
      && r[|head| + |bName|..] == " (" + format2(bConf) + ")."
  {
    "Parent A: " + aName + " (" + format2(aConf) + "), Parent B: " + bName + " (" + format2(bConf) + ")."
  }

  /** `hybrid_info`. */
  function HybridInfo(
    aName: string, aConf: real, bName: string, bConf: real,
    aStatic: BreedRecord, bStatic: BreedRecord, format2: real -> string): (h: map<string, string>)
    ensures "cross_name" in h && h["cross_name"] == CrossName(aName, bName)
    ensures "notes" in h && h["notes"] == Notes(aName, aConf, bName, bConf, format2)
    ensures forall k :: k in h ==> h[k] != ""
  {
    map[
      "cross_name" := CrossName(aName, bName),
      "expected_milk_type" := CombineField(aStatic, bStatic, "milk_type"),
      "expected_average_milk_yield" := CombineField(aStatic, bStatic, "average_milk_yield"),
      "expected_primary_color" := CombineField(aStatic, bStatic, "primary_color"),
      "expected_size" := CombineField(aStatic, bStatic, "size"),
      "expected_temperament" := CombineField(aStatic, bStatic, "temperament"),
      "notes" := Notes(aName, aConf, bName, bConf, format2)]
  }

  /** The summary has exactly the cross name, the notes and one `expected_`
      entry per combined trait. */
  lemma HybridInfoKeys(
    aName: string, aConf: real, bName: string, bConf: real,
    aStatic: BreedRecord, bStatic: BreedRecord, format2: real -> string)
    ensures HybridInfo(aName, aConf, bName, bConf, aStatic, bStatic, format2).Keys
      == {"cross_name", "notes", "expected_milk_type", "expected_average_milk_yield",
          "expected_primary_color", "expected_size", "expected_temperament"}
  {
  }

  /** Each entry of the summary: the cross name, the notes, and for each trait
      the combination of that trait from the two records. */
  lemma HybridInfoEntries(
    aName: string, aConf: real, bName: string, bConf: real,
    aStatic: BreedRecord, bStatic: BreedRecord, format2: real -> string, i: nat)
    requires i < |BreedTraits|
    ensures
      var h := HybridInfo(aName, aConf, bName, bConf, aStatic, bStatic, format2);
      && h["cross_name"] == CrossName(aName, bName)
      && h["notes"] == Notes(aName, aConf, bName, bConf, format2)
      && "expected_" + BreedTraits[i] in h
      && h["expected_" + BreedTraits[i]] == CombineField(aStatic, bStatic, BreedTraits[i])
  {
    assert "expected_" + BreedTraits[0] == "expected_milk_type";
    assert "expected_" + BreedTraits[1] == "expected_average_milk_yield";
    assert "expected_" + BreedTraits[2] == "expected_primary_color";
    assert "expected_" + BreedTraits[3] == "expected_size";
    assert "expected_" + BreedTraits[4] == "expected_temperament";
  }

  /** Two records from the breed table combine every trait from both sides,
      so no trait of the summary is `N/A`. */
  lemma KnownBreedsCombineFully(aKey: string, bKey: string, t: string)
    requires aKey in BreedStaticData && bKey in BreedStaticData && t in BreedTraits
    ensures CombineField(BreedStaticData[aKey], BreedStaticData[bKey], t)
      == BreedStaticData[aKey][t] + " / " + BreedStaticData[bKey][t]
    ensures CombineField(BreedStaticData[aKey], BreedStaticData[bKey], t) != "N/A"
  {
    BreedRecordsDefineTraits();
    var r := CombineField(BreedStaticData[aKey], BreedStaticData[bKey], t);
    assert |r| >= 5;
  }

  datatype CrossbreedBody = CrossbreedBody(
    parentA: Prediction<BreedRecord>,
    parentB: Prediction<BreedRecord>,
    crossbreed: map<string, string>)

  type CrossbreedResponse = Response<CrossbreedBody>

  const CrossbreedFailurePrefix: string := "Crossbreed prediction failed: "

  /** One parent's entry: its file name, the predicted label and confidence,
      and the case-folded record of the label. */
  function ParentRecord(file: Upload, p: BreedPrediction): (r: Prediction<BreedRecord>)
    ensures r.filename == file.filename && r.predictedClass == p.className && r.confidence == p.confidence
    ensures Lower(p.className) in BreedStaticData ==> r.staticData == BreedStaticData[Lower(p.className)]
    ensures Lower(p.className) !in BreedStaticData ==> r.staticData == map[]
  {
    Prediction(file.filename, p.className, p.confidence, BreedLookup(p.className))
  }

  /** The guarded block: the model from the registry, then parent A, then
      parent B; the first exception ends it. */
  function PredictParents(loaded: Result<BreedHandle>, pil: Pil, forward: Forward, a: Upload, b: Upload)
    : (r: Result<(BreedPrediction, BreedPrediction)>)
    ensures loaded.Failure? ==> r == Failure(loaded.error)
    ensures loaded.Success? ==>
      var (net, device, transform) := loaded.value;
      var pa := PredictBytes(pil, forward, net, device, transform, a.content);
      var pb := PredictBytes(pil, forward, net, device, transform, b.content);
      && (pa.Failure? ==> r == Failure(pa.error))
      && (pa.Success? && pb.Failure? ==> r == Failure(pb.error))
      && (pa.Success? && pb.Success? ==> r == Success((pa.value, pb.value)))
  {
    match loaded
    case Failure(e) => Failure(e)
    case Success((net, device, transform)) =>
      match PredictBytes(pil, forward, net, device, transform, a.content)
      case Failure(e) => Failure(e)
      case Success(pa) =>
        match PredictBytes(pil, forward, net, device, transform, b.content)
        case Failure(e) => Failure(e)
        case Success(pb) => Success((pa, pb))
  }

  /** The handler once `models.load_breed()` has answered with `loaded`:
      parent A is predicted first, and a failure of either prediction fails
      the whole request with no summary. */
  function Respond(
    a: Upload, b: Upload, loaded: Result<BreedHandle>,
    pil: Pil, forward: Forward, format2: real -> string): (r: CrossbreedResponse)
    ensures !r.Unhandled?
    ensures r.HttpError? && r.status == 400 <==> !IsImage(a.contentType) || !IsImage(b.contentType)
    ensures r.HttpError? && r.status == 400 ==> r.detail == "Both files must be images."
    ensures r.HttpError? ==> r.status == 400 || StartsWith(r.detail, CrossbreedFailurePrefix)
    ensures r.HttpError? && r.status != 400 ==>
      && r.status == 500 && PredictParents(loaded, pil, forward, a, b).Failure?
      && r.detail == CrossbreedFailurePrefix + PredictParents(loaded, pil, forward, a, b).error
    ensures r.Ok? <==>
      && IsImage(a.contentType) && IsImage(b.contentType) && loaded.Success?
      && PredictBytes(pil, forward, loaded.value.0, loaded.value.1, loaded.value.2, a.content).Success?
      && PredictBytes(pil, forward, loaded.value.0, loaded.value.1, loaded.value.2, b.content).Success?
    ensures r.Ok? ==>
      var pa := PredictBytes(pil, forward, loaded.value.0, loaded.value.1, loaded.value.2, a.content).value;
      var pb := PredictBytes(pil, forward, loaded.value.0, loaded.value.1, loaded.value.2, b.content).value;
      && r.body.parentA == Prediction(a.filename, pa.className, pa.confidence, BreedLookup(pa.className))
      && r.body.parentB == Prediction(b.filename, pb.className, pb.confidence, BreedLookup(pb.className))
      && r.body.crossbreed == HybridInfo(pa.className, pa.confidence, pb.className, pb.confidence,
                                          BreedLookup(pa.className), BreedLookup(pb.className), format2)
  {
    if !IsImage(a.contentType) || !IsImage(b.contentType) then HttpError(400, "Both files must be images.")
    else
      match PredictParents(loaded, pil, forward, a, b)
      case Failure(e) => HttpError(500, CrossbreedFailurePrefix + e)
      case Success((pa, pb)) =>
        var aStatic := BreedLookup(pa.className);
        var bStatic := BreedLookup(pb.className);
        Ok(CrossbreedBody(
          ParentRecord(a, pa),
          ParentRecord(b, pb),
          HybridInfo(pa.className, pa.confidence, pb.className, pb.confidence, aStatic, bStatic, format2)))
  }

  /** `predict_crossbreed` with the registry: a request that fails the gate
      leaves the registry untouched; otherwise one registry call serves both
      parents, and the disease fields are never touched. */
  method Serve(
    models: Models, a: Upload, b: Upload, attempt: Result<BreedHandle>,
    pil: Pil, forward: Forward, format2: real -> string)
    returns (r: CrossbreedResponse)
    requires models.Valid()
    modifies models`breed, models`breedDevice, models`breedTransform, models`breedLoads
    ensures models.Valid()
    ensures !IsImage(a.contentType) || !IsImage(b.contentType) ==> unchanged(models)
    ensures r == Respond(a, b, old(models.BreedLoadOutcome(attempt)), pil, forward, format2)
    ensures IsImage(a.contentType) && IsImage(b.contentType) ==>
      models.breedLoads == old(models.breedLoads) + (if old(models.breed).None? then 1 else 0)
    ensures IsImage(a.contentType) && IsImage(b.contentType) && old(models.BreedLoadOutcome(attempt)).Success? ==>
      var (net, device, transform) := old(models.BreedLoadOutcome(attempt)).value;
      models.breed == Some(net) && models.breedDevice == Some(device) && models.breedTransform == Some(transform)
    ensures old(models.breed).None? && attempt.Failure? ==> models.breed.None?
    ensures models.disease == old(models.disease) && models.diseaseInputShape == old(models.diseaseInputShape)
    ensures models.diseaseLoads == old(models.diseaseLoads)
  {
    if !IsImage(a.contentType) || !IsImage(b.contentType) {
      return HttpError(400, "Both files must be images.");
    }
    var loaded := models.LoadBreed(attempt);
    r := Respond(a, b, loaded, pil, forward, format2);
  }
}
