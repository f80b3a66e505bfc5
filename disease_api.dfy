/** The backend's disease endpoint: gate, registry, preprocessing and
    prediction inside the error mapping, then argmax, label, confidence and
    exact-case enrichment outside it. */
module DiseaseApi {
  import opened Wrappers
  import opened Imaging
  import opened Http
  import opened StaticData
  import opened Maxima
  import opened Keras
  import opened ModelLoader
  import Utils

  type DiseaseResponse = Response<Prediction<Record>>

  const DiseaseFailurePrefix: string := "Disease prediction failed: "

  /** The guarded block: preprocess with the registry's shape, predict, and
      take the first row. Any exception in it is the failure. */
  function Infer(loaded: Result<(KerasModel, Option<Shape3>)>, pil: Pil, predict: Predict, imgBytes: seq<byte>)
    : (r: Result<seq<real>>)
    ensures r.Success? <==>
      && loaded.Success?
      && Utils.PreprocessDisease(pil, imgBytes, loaded.value.1).Success?
      && predict(loaded.value.0, Utils.PreprocessDisease(pil, imgBytes, loaded.value.1).value).Success?
      && |predict(loaded.value.0, Utils.PreprocessDisease(pil, imgBytes, loaded.value.1).value).value| > 0
    ensures r.Success? ==>
      r.value == predict(loaded.value.0, Utils.PreprocessDisease(pil, imgBytes, loaded.value.1).value).value[0]
  {
    match loaded
    case Failure(e) => Failure(e)
    case Success((model, shape)) =>
      match Utils.PreprocessDisease(pil, imgBytes, shape)
      case Failure(e) => Failure(e)
      case Success(arr) =>
        match predict(model, arr)
        case Failure(e) => Failure(e)
        case Success(rows) =>
          if |rows| == 0 then Failure("index 0 is out of bounds for axis 0 with size 0")
          else Success(rows[0])
  }

  /** The handler once `models.load_disease()` has answered with `loaded`.
      An empty prediction row, or a maximum past the third class, raises
      outside the guarded block. */
  function Respond(file: Upload, loaded: Result<(KerasModel, Option<Shape3>)>, pil: Pil, predict: Predict)
    : (r: DiseaseResponse)
    ensures r.HttpError? && r.status == 400 <==> !IsImage(file.contentType)
    ensures r.HttpError? && r.status == 400 ==> r.detail == "File must be an image."
    ensures r.HttpError? && r.status != 400 ==>
      r.status == 500 && Infer(loaded, pil, predict, file.content).Failure?
      && r.detail == DiseaseFailurePrefix + Infer(loaded, pil, predict, file.content).error
    ensures r.Unhandled? <==>
      && IsImage(file.contentType) && Infer(loaded, pil, predict, file.content).Success?
      && var pred := Infer(loaded, pil, predict, file.content).value;
         |pred| == 0 || ArgMax(pred) >= |DiseaseClassNames|
    ensures r.Ok? ==> IsImage(file.contentType) && Infer(loaded, pil, predict, file.content).Success?
    ensures r.Ok? ==>
      var pred := Infer(loaded, pil, predict, file.content).value;
      && |pred| > 0
      && IsFirstMax(pred, ArgMax(pred))
      && r.body.filename == file.filename
      && r.body.predictedClass == DiseaseClassNames[ArgMax(pred)]
      && r.body.confidence == pred[ArgMax(pred)]
      && (forall j :: 0 <= j < |pred| ==> pred[j] <= r.body.confidence)
      && r.body.staticData == DiseaseLookup(r.body.predictedClass) != map[]
  {
    if !IsImage(file.contentType) then HttpError(400, "File must be an image.")
    else
      match Infer(loaded, pil, predict, file.content)
      case Failure(e) => HttpError(500, DiseaseFailurePrefix + e)
      case Success(pred) =>
        if |pred| == 0 then Unhandled("attempt to get argmax of an empty sequence")
        else
          var classId := ArgMax(pred);
          if classId >= |DiseaseClassNames| then Unhandled("list index out of range")
          else
            var name := DiseaseClassNames[classId];
            MaxAtArgMax(pred);
            DiseaseKeysAreClassNames();
            Ok(Prediction(file.filename, name, Max(pred), DiseaseLookup(name)))
  }

  /** `predict_disease` with the registry: a request that fails the gate leaves
      the registry untouched; otherwise it answers with the registry's model,
      loading and storing it only if none is stored. The breed fields are
      never touched. */
  method Serve(models: Models, file: Upload, attempt: Result<KerasModel>, pil: Pil, predict: Predict)
    returns (r: DiseaseResponse)
    requires models.Valid()
    modifies models`disease, models`diseaseInputShape, models`diseaseLoads
    ensures models.Valid()
    ensures !IsImage(file.contentType) ==> unchanged(models)
    ensures r == Respond(file, old(models.DiseaseLoadOutcome(attempt)), pil, predict)
    ensures IsImage(file.contentType) ==>
      models.diseaseLoads == old(models.diseaseLoads) + (if old(models.disease).None? then 1 else 0)
    ensures IsImage(file.contentType) && old(models.disease).None? ==>
      models.disease == (if attempt.Success? then Some(attempt.value) else None)
    ensures IsImage(file.contentType) && old(models.DiseaseLoadOutcome(attempt)).Success? ==>
      && models.disease == Some(old(models.DiseaseLoadOutcome(attempt)).value.0)
      && models.diseaseInputShape == old(models.DiseaseLoadOutcome(attempt)).value.1
    ensures old(models.disease).Some? ==> models.disease == old(models.disease)
    ensures models.breed == old(models.breed) && models.breedDevice == old(models.breedDevice)
    ensures models.breedTransform == old(models.breedTransform) && models.breedLoads == old(models.breedLoads)
  {
    if !IsImage(file.contentType) {
      return HttpError(400, "File must be an image.");
    }
    var loaded := models.LoadDisease(attempt);
    r := Respond(file, loaded, pil, predict);
  }

  /** A model whose row has one probability per disease class never raises
      outside the guarded block. */
  lemma ThreeClassRowAnswers(file: Upload, loaded: Result<(KerasModel, Option<Shape3>)>, pil: Pil, predict: Predict)
    requires IsImage(file.contentType)
    requires Infer(loaded, pil, predict, file.content).Success?
    requires |Infer(loaded, pil, predict, file.content).value| == |DiseaseClassNames|
    ensures Respond(file, loaded, pil, predict).Ok?
  {
  }
}
