/** The disease model as the serving code sees it: an opaque Keras model with a
    declared input shape, and an opaque `predict`. */
module Keras {
  import opened Wrappers
  import opened Imaging

  /** One entry of a declared shape; Keras writes `None` for a free dimension. */
  type Dim = Option<nat>

  /** `(H, W, C)`: height, width and channels the model declares. */
  type Shape3 = (Dim, Dim, Dim)

  /** A loaded Keras model; only its declared `input_shape` (batch entry first)
      is visible to the serving code. */
  datatype KerasModel = KerasModel(inputShape: seq<Dim>)

  /** `model.predict(arr)`: one row of class probabilities per batch entry, or
      the exception the model raised. */
  type Predict = (KerasModel, Array4) -> Result<seq<seq<real>>>

  /** `_, H, W, C = input_shape`: succeeds only on a four-entry shape, and then
      gives the shape without its leading batch entry. */
  function UnpackInputShape(shape: seq<Dim>): (r: Result<Shape3>)
    ensures r.Success? <==> |shape| == 4
    ensures r.Success? ==> [shape[0], r.value.0, r.value.1, r.value.2] == shape
  {
    if |shape| == 4 then Success((shape[1], shape[2], shape[3]))
    else Failure("input_shape does not unpack into four values")
  }
}
