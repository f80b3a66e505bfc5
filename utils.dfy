/** `preprocess_disease` of the backend: unpack `(H, W, C)`, decode to RGB,
    resize to W columns by H rows, scale by 255, add the batch dimension. */
module Utils {
  import opened Wrappers
  import opened Imaging
  import opened Keras

  /** The channel count `C` is unpacked but never used: the picture always has
      the three RGB channels. A missing shape or a free height or width makes
      the call raise. */
  function PreprocessDisease(pil: Pil, imgBytes: seq<byte>, inputShape: Option<Shape3>): (r: Result<Array4>)
    ensures r.Success? <==>
      && inputShape.Some? && inputShape.value.0.Some? && inputShape.value.1.Some?
      && pil.decode(imgBytes).Success?
    ensures r.Success? ==>
      var h := inputShape.value.0.value;
      var w := inputShape.value.1.value;
      var resized := Resize(pil, pil.decode(imgBytes).value, (w, h));
      && HasShape4(r.value, 1, h, w, 3)
      && (forall y, x, k :: 0 <= y < h && 0 <= x < w && 0 <= k < 3 ==>
            r.value[0][y][x][k] == Channels(resized.rows[y][x])[k] / 255.0)
      && (forall y, x, k :: 0 <= y < h && 0 <= x < w && 0 <= k < 3 ==>
            0.0 <= r.value[0][y][x][k] <= 1.0)
  {
    match inputShape
    case None => Failure("cannot unpack non-iterable NoneType object")
    case Some((hDim, wDim, _)) =>
      match pil.decode(imgBytes)
      case Failure(e) => Failure(e)
      case Success(img) =>
        if hDim.None? || wDim.None? then Failure("resize: width and height must be integers")
        else
          var resized := Resize(pil, img, (wDim.value, hDim.value));
          ScaledPicture(resized, hDim.value, wDim.value);
          Success(Batch(Scale3(PixelArray(resized))))
  }
}
