/** The single-file server: models loaded once at import into globals, its
    own copy of the breed table, its own disease preprocessing, and the two
    endpoints. */
module StandaloneApp {
  import opened Wrappers
  import opened Text
  import opened Imaging
  import opened Http
  import opened StaticData
  import opened Maxima
  import opened Keras
  import opened CattleModel
  import BreedApi
  import DiseaseApi
  import Utils

  /** This file's `BREED_STATIC_DATA`: the same records as the backend's, but
      with the Red Dane record under the key `RedDane`, which a lower-cased
      lookup can never produce. */
  const AppBreedStaticData: map<string, BreedRecord> := map[
    "ayshire" := AyrshireRecord,
    "brown_swiss" := BrownSwissRecord,
    "holstein" := HolsteinRecord,
    "jersey" := JerseyRecord,
    "RedDane" := RedDaneRecord]

  /** `BREED_STATIC_DATA.get(label.lower(), {})` on this file's table. */
  function AppBreedLookup(name: string): (r: BreedRecord)
    ensures Lower(name) in AppBreedStaticData ==> r == AppBreedStaticData[Lower(name)] && r != map[]
    ensures Lower(name) !in AppBreedStaticData ==> r == map[]
  {
    assert Lower(name) in AppBreedStaticData ==> "breed" in AppBreedStaticData[Lower(name)];
    BreedLookupIn(AppBreedStaticData, name)
  }

  /** The import-time globals: the breed triple, the disease model and its
      `H, W, C`. */
  datatype Globals = Globals(breed: BreedHandle, disease: KerasModel, h: Dim, w: Dim, c: Dim)

  /** Module initialisation: a loader failure aborts the import with a
      `RuntimeError`, the breed model first. */
  function Startup(breedLoaded: Result<BreedHandle>, diseaseLoaded: Result<KerasModel>): (r: Result<Globals>)
    ensures r.Success? <==>
      breedLoaded.Success? && diseaseLoaded.Success? && |diseaseLoaded.value.inputShape| == 4
    ensures breedLoaded.Failure? ==> r == Failure("Failed to load breed model: " + breedLoaded.error)
    ensures breedLoaded.Success? && !r.Success? ==>
      r.error == "Failed to load disease model: " +
        (if diseaseLoaded.Failure? then diseaseLoaded.error
         else UnpackInputShape(diseaseLoaded.value.inputShape).error)
    ensures r.Success? ==>
      && r.value.breed == breedLoaded.value && r.value.disease == diseaseLoaded.value
      && [diseaseLoaded.value.inputShape[0], r.value.h, r.value.w, r.value.c] == diseaseLoaded.value.inputShape
  {
    match breedLoaded
    case Failure(e) => Failure("Failed to load breed model: " + e)
    case Success(handle) =>
      match diseaseLoaded
      case Failure(e) => Failure("Failed to load disease model: " + e)
      case Success(model) =>
        match UnpackInputShape(model.inputShape)
        case Failure(e) => Failure("Failed to load disease model: " + e)
        case Success((h, w, c)) => Success(Globals(handle, model, h, w, c))
  }

  /** This file's `preprocess_disease`: it passes `(H, W)` to PIL's `resize`,
      which reads it as (width, height), so the array has `W` rows of `H`
      columns. */
  function PreprocessDisease(g: Globals, pil: Pil, imgBytes: seq<byte>): (r: Result<Array4>)
    ensures r.Success? <==> g.h.Some? && g.w.Some? && pil.decode(imgBytes).Success?
    ensures r.Success? ==>
      var h := g.h.value;
      var w := g.w.value;
      var resized := Resize(pil, pil.decode(imgBytes).value, (h, w));
      && HasShape4(r.value, 1, w, h, 3)
      && (forall y, x, k :: 0 <= y < w && 0 <= x < h && 0 <= k < 3 ==>
            r.value[0][y][x][k] == Channels(resized.rows[y][x])[k] / 255.0)
      && (forall y, x, k :: 0 <= y < w && 0 <= x < h && 0 <= k < 3 ==>
            0.0 <= r.value[0][y][x][k] <= 1.0)
  {
    match pil.decode(imgBytes)
    case Failure(e) => Failure(e)
    case Success(img) =>
      if g.h.None? || g.w.None? then Failure("resize: width and height must be integers")
      else
        var resized := Resize(pil, img, (g.h.value, g.w.value));
        ScaledPicture(resized, g.w.value, g.h.value);
        Success(Batch(Scale3(PixelArray(resized))))
  }

  /** The two disease preprocessors give the same array exactly when the model
      declares a square input. */
  lemma PreprocessAgreesIffSquare(g: Globals, pil: Pil, imgBytes: seq<byte>, h: nat, w: nat)
    requires g.h == Some(h) && g.w == Some(w)
    requires pil.decode(imgBytes).Success?
    ensures PreprocessDisease(g, pil, imgBytes) == Utils.PreprocessDisease(pil, imgBytes, Some((g.h, g.w, g.c)))
            <==> h == w
  {
    var mine := PreprocessDisease(g, pil, imgBytes).value;
    var theirs := Utils.PreprocessDisease(pil, imgBytes, Some((g.h, g.w, g.c))).value;
    if h != w {
      assert |mine[0]| == w && |theirs[0]| == h;
    }
  }

  /** This file's `predict_breed`, using the import-time model. */
  function PredictBreed(g: Globals, file: Upload, pil: Pil, forward: Forward): (r: BreedApi.BreedResponse)
    ensures !r.Unhandled?
    ensures r.HttpError? && r.status == 400 <==> !IsImage(file.contentType)
    ensures r.HttpError? && r.status == 400 ==> r.detail == "File must be an image."
    ensures r.HttpError? && r.status != 400 ==>
      && r.status == 500 && PredictBytes(pil, forward, g.breed.0, g.breed.1, g.breed.2, file.content).Failure?
      && r.detail == BreedApi.BreedFailurePrefix
                     + PredictBytes(pil, forward, g.breed.0, g.breed.1, g.breed.2, file.content).error
    ensures r.Ok? <==>
      IsImage(file.contentType) && PredictBytes(pil, forward, g.breed.0, g.breed.1, g.breed.2, file.content).Success?
    ensures r.Ok? ==>
      var p := PredictBytes(pil, forward, g.breed.0, g.breed.1, g.breed.2, file.content).value;
      && r.body.filename == file.filename
      && r.body.predictedClass == p.className
      && r.body.confidence == p.confidence
      && r.body.staticData == AppBreedLookup(p.className)
  {
    if !IsImage(file.contentType) then HttpError(400, "File must be an image.")
    else
      match PredictBytes(pil, forward, g.breed.0, g.breed.1, g.breed.2, file.content)
      case Failure(e) => HttpError(500, BreedApi.BreedFailurePrefix + e)
      case Success(p) =>
        Ok(Prediction(file.filename, p.className, p.confidence, AppBreedLookup(p.className)))
  }

  /** Every name but one lowering to the Red Dane key finds the same record in
      both tables. `RedDane` itself can never be a lowered name. */
  lemma AppLookupMatchesUnlessRedDane(name: string)
    requires Lower(name) != "reddane"
    ensures AppBreedLookup(name) == BreedLookup(name)
  {
    if Lower(name) in BreedStaticData {
      TablesAgreeOnLowerKeys(Lower(name));
    } else {
      assert IsUpper("RedDane"[0]);
    }
  }

  /** The import-time model answers exactly as the backend endpoint does with
      a loaded registry, except for the static record of a Red Dane
      prediction: the backend finds it, this file gives the empty record. */
  lemma PredictBreedAgainstBackend(g: Globals, file: Upload, pil: Pil, forward: Forward)
    ensures
      var mine := PredictBreed(g, file, pil, forward);
      var theirs := BreedApi.Respond(file, Success(g.breed), pil, forward);
      && mine.Ok? == theirs.Ok?
      && (!mine.Ok? ==> mine == theirs)
      && (mine.Ok? && Lower(mine.body.predictedClass) != "reddane" ==> mine == theirs)
      && (mine.Ok? && mine.body.predictedClass == "RedDane" ==>
            mine.body.staticData == map[] && theirs.body.staticData == RedDaneRecord)
  {
    var mine := PredictBreed(g, file, pil, forward);
    var theirs := BreedApi.Respond(file, Success(g.breed), pil, forward);
    var p := PredictBytes(pil, forward, g.breed.0, g.breed.1, g.breed.2, file.content);
    if IsImage(file.contentType) && p.Success? {
      var name := p.value.className;
      if Lower(name) != "reddane" {
        AppLookupMatchesUnlessRedDane(name);
      }
      if name == "RedDane" {
        assert Lower("RedDane") == "reddane";
        assert "reddane" !in AppBreedStaticData;
      }
    }
  }

  /** The two tables agree on every key but the Red Dane one. */
  lemma TablesAgreeOnLowerKeys(k: string)
    requires k in BreedStaticData && k != "reddane"
    ensures k in AppBreedStaticData && AppBreedStaticData[k] == BreedStaticData[k]
  {
  }

  /** A name that lowers to a key other than the Red Dane one finds the same
      non-empty record in both tables. */
  lemma AppLookupAgrees(name: string)
    requires Lower(name) in BreedStaticData && Lower(name) != "reddane"
    ensures AppBreedLookup(name) == BreedLookup(name) != map[]
  {
    TablesAgreeOnLowerKeys(Lower(name));
    BreedLookupFindsKeys(name);
  }

  /** Of the five class names only `RedDane` misses this file's table. */
  lemma RedDaneMisses()
    ensures AppBreedLookup("RedDane") == map[]
    ensures forall i :: 0 <= i < 4 ==> AppBreedLookup(ClassNames[i]) == BreedLookup(ClassNames[i]) != map[]
  {
    assert Lower("RedDane") == "reddane";
    assert "reddane" !in AppBreedStaticData;
    forall i | 0 <= i < 4
      ensures AppBreedLookup(ClassNames[i]) == BreedLookup(ClassNames[i]) != map[]
    {
      ClassNamesLowerKey(i);
      AppLookupAgrees(ClassNames[i]);
    }
  }

  /** The first four class names are already table keys. */
  lemma ClassNamesLowerKey(i: nat)
    requires i < 4
    ensures Lower(ClassNames[i]) in BreedStaticData && Lower(ClassNames[i]) != "reddane"
  {
    assert ClassNames[i] in ["ayshire", "brown_swiss", "holstein", "jersey"];
    LowerFixedIff(ClassNames[i]);
  }

  /** The guarded block of this file's `predict_disease`. */
  function Infer(g: Globals, pil: Pil, predict: Predict, imgBytes: seq<byte>): (r: Result<seq<real>>)
    ensures r.Success? <==>
      && PreprocessDisease(g, pil, imgBytes).Success?
      && predict(g.disease, PreprocessDisease(g, pil, imgBytes).value).Success?
      && |predict(g.disease, PreprocessDisease(g, pil, imgBytes).value).value| > 0
    ensures r.Success? ==> r.value == predict(g.disease, PreprocessDisease(g, pil, imgBytes).value).value[0]
  {
    match PreprocessDisease(g, pil, imgBytes)
    case Failure(e) => Failure(e)
    case Success(arr) =>
      match predict(g.disease, arr)
      case Failure(e) => Failure(e)
      case Success(rows) =>
        if |rows| == 0 then Failure("index 0 is out of bounds for axis 0 with size 0")
        else Success(rows[0])
  }

  /** This file's `predict_disease`: argmax, label and confidence outside the
      guarded block, exact-case lookup. An empty prediction row, or a maximum
      past the third class, raises outside the guarded block. */
  function PredictDisease(g: Globals, file: Upload, pil: Pil, predict: Predict): (r: DiseaseApi.DiseaseResponse)
    ensures r.HttpError? && r.status == 400 <==> !IsImage(file.contentType)
    ensures r.HttpError? && r.status == 400 ==> r.detail == "File must be an image."
    ensures r.HttpError? && r.status != 400 ==>
      r.status == 500 && Infer(g, pil, predict, file.content).Failure?
      && r.detail == DiseaseApi.DiseaseFailurePrefix + Infer(g, pil, predict, file.content).error
    ensures r.Unhandled? <==>
      && IsImage(file.contentType) && Infer(g, pil, predict, file.content).Success?
      && var pred := Infer(g, pil, predict, file.content).value;
         |pred| == 0 || ArgMax(pred) >= |DiseaseClassNames|
    ensures r.Ok? ==> IsImage(file.contentType) && Infer(g, pil, predict, file.content).Success?
    ensures r.Ok? ==>
      var pred := Infer(g, pil, predict, file.content).value;
      && |pred| > 0
      && IsFirstMax(pred, ArgMax(pred))
      && r.body.filename == file.filename
      && r.body.predictedClass == DiseaseClassNames[ArgMax(pred)]
      && r.body.confidence == pred[ArgMax(pred)]
      && (forall j :: 0 <= j < |pred| ==> pred[j] <= r.body.confidence)
      && r.body.staticData == DiseaseLookup(r.body.predictedClass) != map[]
  {
    if !IsImage(file.contentType) then HttpError(400, "File must be an image.")
    else
      match Infer(g, pil, predict, file.content)
      case Failure(e) => HttpError(500, DiseaseApi.DiseaseFailurePrefix + e)
      case Success(pred) =>
        if |pred| == 0 then Unhandled("attempt to get argmax of an empty sequence")
        else
          var classId := ArgMax(pred);
          if classId >= |DiseaseClassNames| then Unhandled("list index out of range")
          else
            var name := DiseaseClassNames[classId];
            MaxAtArgMax(pred);
            DiseaseKeysAreClassNames();
            Ok(Prediction(file.filename, name, Max(pred), DiseaseLookup(name)))
  }

  /** For a model with a square input the two disease endpoints answer alike. */
  lemma PredictDiseaseAgainstBackend(g: Globals, file: Upload, pil: Pil, predict: Predict)
    requires g.h.Some? && g.w.Some? && g.h == g.w
    ensures PredictDisease(g, file, pil, predict)
         == DiseaseApi.Respond(file, Success((g.disease, Some((g.h, g.w, g.c)))), pil, predict)
  {
    var loaded := Success((g.disease, Some((g.h, g.w, g.c))));
    if pil.decode(file.content).Success? {
      PreprocessAgreesIffSquare(g, pil, file.content, g.h.value, g.w.value);
    }
    assert Infer(g, pil, predict, file.content) == DiseaseApi.Infer(loaded, pil, predict, file.content);
  }
}
