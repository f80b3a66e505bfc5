/** The backend's breed endpoint: the content-type gate, breed prediction
    through the registry, error mapping, case-folded enrichment and the
    response record. */
module BreedApi {
  import opened Wrappers
  import opened Text
  import opened Imaging
  import opened Http
  import opened StaticData
  import opened CattleModel
  import opened ModelLoader

  type BreedResponse = Response<Prediction<BreedRecord>>

  const BreedFailurePrefix: string := "Breed prediction failed: "

  /** The guarded block: the model from the registry, then `predict_bytes`;
      the first exception ends it. */
  function Infer(loaded: Result<BreedHandle>, pil: Pil, forward: Forward, imageBytes: seq<byte>)
    : (r: Result<BreedPrediction>)
    ensures loaded.Failure? ==> r == Failure(loaded.error)
    ensures loaded.Success? ==>
      r == PredictBytes(pil, forward, loaded.value.0, loaded.value.1, loaded.value.2, imageBytes)
  {
    match loaded
    case Failure(e) => Failure(e)
    case Success((net, device, transform)) => PredictBytes(pil, forward, net, device, transform, imageBytes)
  }

  /** The handler once `models.load_breed()` has answered with `loaded`. */
  function Respond(file: Upload, loaded: Result<BreedHandle>, pil: Pil, forward: Forward): (r: BreedResponse)
    ensures !r.Unhandled?
    ensures r.HttpError? && r.status == 400 <==> !IsImage(file.contentType)
    ensures r.HttpError? ==> r.status == 400 || StartsWith(r.detail, BreedFailurePrefix)
    ensures r.HttpError? && r.status == 400 ==> r.detail == "File must be an image."
    ensures r.HttpError? && r.status != 400 ==>
      && r.status == 500 && Infer(loaded, pil, forward, file.content).Failure?
      && r.detail == BreedFailurePrefix + Infer(loaded, pil, forward, file.content).error
    ensures r.Ok? <==>
      && IsImage(file.contentType) && loaded.Success?
      && PredictBytes(pil, forward, loaded.value.0, loaded.value.1, loaded.value.2, file.content).Success?
    ensures r.Ok? ==>
      var p := PredictBytes(pil, forward, loaded.value.0, loaded.value.1, loaded.value.2, file.content).value;
      && r.body.filename == file.filename
      && r.body.predictedClass == p.className
      && r.body.confidence == p.confidence
      && r.body.staticData == BreedLookup(p.className)
  {
    if !IsImage(file.contentType) then HttpError(400, "File must be an image.")
    else
      match Infer(loaded, pil, forward, file.content)
      case Failure(e) => HttpError(500, BreedFailurePrefix + e)
      case Success(p) =>
        Ok(Prediction(file.filename, p.className, p.confidence, BreedLookup(p.className)))
  }

  /** `predict_breed` with the registry: a request that fails the gate leaves
      the registry untouched; otherwise the registry is asked for the model
      (loading it only if none is stored, and keeping it once loaded) and the
      answer is `Respond`'s. The disease fields are never touched. */
  method Serve(models: Models, file: Upload, attempt: Result<BreedHandle>, pil: Pil, forward: Forward)
    returns (r: BreedResponse)
    requires models.Valid()
    modifies models`breed, models`breedDevice, models`breedTransform, models`breedLoads
    ensures models.Valid()
    ensures !IsImage(file.contentType) ==> unchanged(models)
    ensures r == Respond(file, old(models.BreedLoadOutcome(attempt)), pil, forward)
    ensures IsImage(file.contentType) ==>
      models.breedLoads == old(models.breedLoads) + (if old(models.breed).None? then 1 else 0)
    ensures IsImage(file.contentType) && old(models.BreedLoadOutcome(attempt)).Success? ==>
      var (net, device, transform) := old(models.BreedLoadOutcome(attempt)).value;
      models.breed == Some(net) && models.breedDevice == Some(device) && models.breedTransform == Some(transform)
    ensures old(models.breed).None? && attempt.Failure? ==> models.breed.None?
    ensures models.disease == old(models.disease) && models.diseaseInputShape == old(models.diseaseInputShape)
    ensures models.diseaseLoads == old(models.diseaseLoads)
  {
    if !IsImage(file.contentType) {
      return HttpError(400, "File must be an image.");
    }
    var loaded := models.LoadBreed(attempt);
    r := Respond(file, loaded, pil, forward);
  }

  /** Two image requests in a row on a registry with no breed model: once the
      first load succeeds, the second request is answered with that model
      whatever its own loader would give; after a failed load it loads again. */
  method ServeTwice(
    models: Models, f1: Upload, f2: Upload, first: Result<BreedHandle>, second: Result<BreedHandle>,
    pil: Pil, forward: Forward)
    returns (r1: BreedResponse, r2: BreedResponse)
    requires models.Valid() && models.breed.None?
    requires IsImage(f1.contentType) && IsImage(f2.contentType)
    modifies models`breed, models`breedDevice, models`breedTransform, models`breedLoads
    ensures models.Valid()
    ensures r1 == Respond(f1, first, pil, forward)
    ensures first.Success? ==>
      r2 == Respond(f2, first, pil, forward) && models.breedLoads == old(models.breedLoads) + 1
    ensures first.Failure? ==>
      r2 == Respond(f2, second, pil, forward) && models.breedLoads == old(models.breedLoads) + 2
  {
    r1 := Serve(models, f1, first, pil, forward);
    r2 := Serve(models, f2, second, pil, forward);
  }

  /** Every class name, lowered, is a key of the breed table. */
  lemma ClassNamesCovered()
    ensures forall i :: 0 <= i < |ClassNames| ==> Lower(ClassNames[i]) in BreedStaticData
  {
    assert Lower(ClassNames[0]) == "ayshire";
    assert Lower(ClassNames[1]) == "brown_swiss";
    assert Lower(ClassNames[2]) == "holstein";
    assert Lower(ClassNames[3]) == "jersey";
    assert Lower(ClassNames[4]) == "reddane";
  }

  /** A fallback label (an index past the class list) finds no record. */
  lemma FallbackLabelMisses(idx: nat)
    requires idx >= |ClassNames|
    ensures BreedLookup(LabelOf(idx)) == map[]
  {
    var name := LabelOf(idx);
    LowerOfDigits(name);
    BreedKeysNotDigits(name);
  }

  /** With a model whose output has one entry per class name (the head's last
      layer has `len(CLASS_NAMES)` outputs), a successful request reports a
      class name and a non-empty record that defines every combined trait. */
  lemma KnownBreedEnriched(file: Upload, handle: BreedHandle, pil: Pil, forward: Forward)
    requires IsImage(file.contentType)
    requires PredictBytes(pil, forward, handle.0, handle.1, handle.2, file.content).Success?
    requires |PredictBytes(pil, forward, handle.0, handle.1, handle.2, file.content).value.distribution| == |ClassNames|
    ensures
      var r := Respond(file, Success(handle), pil, forward);
      && r.Ok? && r.body.predictedClass in ClassNames
      && r.body.staticData != map[]
      && forall t :: t in BreedTraits ==> t in r.body.staticData && r.body.staticData[t] != ""
  {
    var p := PredictBytes(pil, forward, handle.0, handle.1, handle.2, file.content).value;
    var i :| 0 <= i < |ClassNames| && ClassNames[i] == p.className;
    ClassNamesCovered();
    BreedLookupFindsKeys(p.className);
    BreedRecordsDefineTraits();
  }
}
