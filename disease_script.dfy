/** The standalone disease module: loading with shape extraction, the two
    preprocessors, and prediction over the model's whole output. */
module DiseaseScript {
  import opened Wrappers
  import opened Imaging
  import opened Maxima
  import opened Keras
  import StaticData
  import ModelLoader

  /** `CLASS_NAMES`: the same ordered list as the backend's disease class
      names. */
  const ClassNames: seq<string> := StaticData.DiseaseClassNames

  /** `load_disease_model`: the model and its declared height, width and
      channels (the input shape without its batch entry). */
  function LoadDiseaseModel(loaded: Result<KerasModel>): (r: Result<(KerasModel, Dim, Dim, Dim)>)
    ensures r.Success? <==> loaded.Success? && |loaded.value.inputShape| == 4
    ensures r.Success? ==>
      var (model, h, w, c) := r.value;
      model == loaded.value && [model.inputShape[0], h, w, c] == model.inputShape
  {
    match loaded
    case Failure(e) => Failure(e)
    case Success(model) =>
      match UnpackInputShape(model.inputShape)
      case Failure(e) => Failure(e)
      case Success((h, w, c)) => Success((model, h, w, c))
  }

  /** The script and the backend registry read the same dimensions from a
      model. */
  lemma LoadAgreesWithRegistry(loaded: Result<KerasModel>)
    requires LoadDiseaseModel(loaded).Success?
    ensures
      var (model, h, w, c) := LoadDiseaseModel(loaded).value;
      ModelLoader.FreshDiseaseLoad(loaded) == Success((model, Some((h, w, c))))
  {
  }

  /** `preprocess_image_from_path` on the file's bytes: Keras' `load_img` with
      `target_size=(h, w)` decodes and resizes to `w` columns by `h` rows (with
      its own resampling, hence its own `Pil`), then the batch dimension is
      added and every value divided by 255. */
  function PreprocessImageFromPath(keras: Pil, fileBytes: seq<byte>, targetSize: (Dim, Dim)): (r: Result<Array4>)
    ensures r.Success? <==> targetSize.0.Some? && targetSize.1.Some? && keras.decode(fileBytes).Success?
    ensures r.Success? ==>
      var h := targetSize.0.value;
      var w := targetSize.1.value;
      var resized := Resize(keras, keras.decode(fileBytes).value, (w, h));
      && HasShape4(r.value, 1, h, w, 3)
      && r.value == Batch(Scale3(PixelArray(resized)))
      && (forall y, x, k :: 0 <= y < h && 0 <= x < w && 0 <= k < 3 ==>
            0.0 <= r.value[0][y][x][k] <= 1.0)
  {
    match keras.decode(fileBytes)
    case Failure(e) => Failure(e)
    case Success(img) =>
      if targetSize.0.None? || targetSize.1.None? then Failure("resize: width and height must be integers")
      else
        var (h, w) := (targetSize.0.value, targetSize.1.value);
        var resized := Resize(keras, img, (w, h));
        ScaleCommutesWithBatch(PixelArray(resized));
        ScaledPicture(resized, h, w);
        Success(Scale4(Batch(PixelArray(resized))))
  }

  /** `preprocess_image_from_bytes`: `target_size` is documented as
      (height, width) but handed straight to PIL's `resize`, which reads it as
      (width, height); the array therefore has `w` rows of `h` columns. */
  function PreprocessImageFromBytes(pil: Pil, imgBytes: seq<byte>, targetSize: (Dim, Dim)): (r: Result<Array4>)
    ensures r.Success? <==> targetSize.0.Some? && targetSize.1.Some? && pil.decode(imgBytes).Success?
    ensures r.Success? ==>
      var h := targetSize.0.value;
      var w := targetSize.1.value;
      && HasShape4(r.value, 1, w, h, 3)
      && r.value == Batch(Scale3(PixelArray(Resize(pil, pil.decode(imgBytes).value, (h, w)))))
  {
    match pil.decode(imgBytes)
    case Failure(e) => Failure(e)
    case Success(img) =>
      if targetSize.0.None? || targetSize.1.None? then Failure("resize: width and height must be integers")
      else
        var resized := Resize(pil, img, (targetSize.0.value, targetSize.1.value));
        ScaledPicture(resized, targetSize.1.value, targetSize.0.value);
        Success(Batch(Scale3(PixelArray(resized))))
  }

  /** A disease prediction: class name, confidence and the first output row. */
  datatype DiseasePrediction = DiseasePrediction(className: string, confidence: real, probabilities: seq<real>)

  /** `predict_disease`: `argmax` and `max` run over the whole output, flattened;
      the class index is then looked up in `classNames` with no fallback. */
  function PredictDisease(predict: Predict, model: KerasModel, imgArray: Array4, classNames: seq<string>)
    : (r: Result<DiseasePrediction>)
    ensures r.Success? <==>
      && predict(model, imgArray).Success?
      && |Flatten(predict(model, imgArray).value)| > 0
      && ArgMax(Flatten(predict(model, imgArray).value)) < |classNames|
    ensures r.Success? ==>
      var rows := predict(model, imgArray).value;
      var flat := Flatten(rows);
      && |rows| > 0
      && r.value.className == classNames[ArgMax(flat)]
      && r.value.confidence == flat[ArgMax(flat)]
      && (forall j :: 0 <= j < |flat| ==> flat[j] <= r.value.confidence)
      && r.value.probabilities == rows[0]
  {
    match predict(model, imgArray)
    case Failure(e) => Failure(e)
    case Success(rows) =>
      var flat := Flatten(rows);
      if |flat| == 0 then Failure("attempt to get argmax of an empty sequence")
      else
        var classId := ArgMax(flat);
        MaxAtArgMax(flat);
        if classId >= |classNames| then Failure("list index out of range")
        else Success(DiseasePrediction(classNames[classId], Max(flat), rows[0]))
  }

  /** For a batch of one the flattened output is the single row, so the script
      picks the same class and confidence as the backend endpoint. */
  lemma SingleRowPrediction(predict: Predict, model: KerasModel, imgArray: Array4, classNames: seq<string>)
    requires predict(model, imgArray).Success? && |predict(model, imgArray).value| == 1
    requires |predict(model, imgArray).value[0]| == |classNames|
    requires |classNames| > 0
    ensures
      var row := predict(model, imgArray).value[0];
      var r := PredictDisease(predict, model, imgArray, classNames);
      && r.Success?
      && r.value.className == classNames[ArgMax(row)]
      && r.value.confidence == Max(row)
      && r.value.probabilities == row
  {
    var row := predict(model, imgArray).value[0];
    assert predict(model, imgArray).value == [row];
    FlattenSingle(row);
    MaxAtArgMax(row);
  }
}
