/** The breed classifier's deterministic shell: the ordered class list,
    checkpoint unwrapping and device choice when loading, and the mapping from
    the output distribution to a label and a confidence. The network itself,
    the transform and softmax are opaque: they are the `forward` parameter. */
module CattleModel {
  import opened Wrappers
  import opened Text
  import opened Imaging
  import opened Maxima

  /** `CLASS_NAMES`, in the order of the classifier's outputs. */
  const ClassNames: seq<string> := ["ayshire", "brown_swiss", "holstein", "jersey", "RedDane"]

  datatype Device = Cuda | Cpu

  /** `torch.device("cuda" if torch.cuda.is_available() else "cpu")`. */
  function SelectDevice(cudaAvailable: bool): (d: Device)
    ensures d == Cuda <==> cudaAvailable
  {
    if cudaAvailable then Cuda else Cpu
  }

  /** An object read by `torch.load`: a dictionary of further objects (a
      plain state dict is one too), or any other object. */
  datatype Checkpoint = Dict(entries: map<string, Checkpoint>) | Other(kind: string)

  predicate IsWrapped(ckpt: Checkpoint) {
    ckpt.Dict? && "model_state_dict" in ckpt.entries
  }

  /** The state handed to `load_state_dict`: the `model_state_dict` entry of a
      dictionary that has one, otherwise the whole checkpoint. */
  function StateDictOf(ckpt: Checkpoint): (sd: Checkpoint)
    ensures !IsWrapped(ckpt) ==> sd == ckpt
    ensures IsWrapped(ckpt) ==> sd < ckpt
  {
    if IsWrapped(ckpt) then ckpt.entries["model_state_dict"] else ckpt
  }

  /** A training checkpoint saved as a dictionary with a `model_state_dict`
      entry (and any other entries, such as optimizer state) unwraps to exactly
      the state that was saved. */
  lemma UnwrapSavedCheckpoint(state: Checkpoint, extras: map<string, Checkpoint>)
    ensures StateDictOf(Dict(extras["model_state_dict" := state])) == state
  {
  }

  /** The breed transform: resize the shorter side, then center-crop a square
      (`Resize(300)`, `CenterCrop(300)`; tensor conversion and normalisation
      are part of the opaque forward pass). */
  datatype Transform = Transform(resize: nat, crop: nat)

  const BreedTransform: Transform := Transform(300, 300)

  /** `EnhancedCattleClassifier` once its weights are loaded: its number of
      outputs, the state it was loaded from, its device and its mode. */
  datatype Classifier = Classifier(numClasses: nat, weights: Checkpoint, device: Device, training: bool)

  type BreedHandle = (Classifier, Device, Transform)

  /** `load_model`. `loaded` is what `torch.load` returned (or the exception it
      raised); `loadStateDict(n, sd)` is whether a classifier with `n` outputs
      accepts the state `sd`. */
  function LoadModel(
    cudaAvailable: bool,
    loaded: Result<Checkpoint>,
    loadStateDict: (nat, Checkpoint) -> Outcome): (r: Result<BreedHandle>)
    ensures r.Success? <==>
      loaded.Success? && loadStateDict(|ClassNames|, StateDictOf(loaded.value)).Pass?
    ensures r.Success? ==>
      var (net, device, transform) := r.value;
      && net == Classifier(|ClassNames|, StateDictOf(loaded.value), device, false)
      && device == SelectDevice(cudaAvailable)
      && transform == BreedTransform
  {
    match loaded
    case Failure(e) => Failure(e)
    case Success(ckpt) =>
      var device := SelectDevice(cudaAvailable);
      var state := StateDictOf(ckpt);
      match loadStateDict(|ClassNames|, state)
      case Fail(e) => Failure(e)
      case Pass =>
        Success((Classifier(|ClassNames|, state, device, false), device, BreedTransform))
  }

  /** The class name of an output index, or its decimal form when the index is
      past the end of the class list. */
  function LabelOf(idx: nat): (name: string)
    ensures idx < |ClassNames| ==> name == ClassNames[idx]
    ensures idx >= |ClassNames| ==> name == NatToString(idx) && AllDigits(name) && DigitsValue(name) == idx
  {
    if idx < |ClassNames| then ClassNames[idx]
    else
      NatToStringRoundTrip(idx);
      NatToString(idx)
  }

  /** No class name is a string of digits. */
  lemma ClassNamesNotDigits(i: nat)
    requires i < |ClassNames|
    ensures !AllDigits(ClassNames[i])
  {
    assert !IsDigit(ClassNames[i][0]);
  }

  /** Distinct indices always get distinct labels, class names and fallback
      labels included. */
  lemma LabelOfInjective(i: nat, j: nat)
    requires LabelOf(i) == LabelOf(j)
    ensures i == j
  {
    if i < |ClassNames| && j >= |ClassNames| {
      ClassNamesNotDigits(i);
    } else if j < |ClassNames| && i >= |ClassNames| {
      ClassNamesNotDigits(j);
    }
  }

  /** A breed prediction: label, confidence and the full distribution. */
  datatype BreedPrediction = BreedPrediction(className: string, confidence: real, distribution: seq<real>)

  /** The opaque forward pass: transform, batch, network and softmax, giving
      the probability of each output for a decoded picture, or raising. */
  type Forward = (Classifier, Device, Transform, Picture) -> Result<seq<real>>

  /** `predict_bytes`: decode, run the network, then take the maximum of the
      distribution and the index where it first occurs. */
  function PredictBytes(
    pil: Pil, forward: Forward,
    net: Classifier, device: Device, transform: Transform,
    imageBytes: seq<byte>): (r: Result<BreedPrediction>)
    ensures r.Success? <==>
      && pil.decode(imageBytes).Success?
      && forward(net, device, transform, pil.decode(imageBytes).value).Success?
      && |forward(net, device, transform, pil.decode(imageBytes).value).value| > 0
    ensures r.Success? ==>
      var p := r.value.distribution;
      && p == forward(net, device, transform, pil.decode(imageBytes).value).value
      && |p| > 0
      && r.value.className == LabelOf(ArgMax(p))
      && r.value.confidence == p[ArgMax(p)]
      && (forall j :: 0 <= j < |p| ==> p[j] <= r.value.confidence)
    ensures r.Success? && |r.value.distribution| <= |ClassNames| ==> r.value.className in ClassNames
  {
    match pil.decode(imageBytes)
    case Failure(e) => Failure(e)
    case Success(picture) =>
      match forward(net, device, transform, picture)
      case Failure(e) => Failure(e)
      case Success(probs) =>
        if |probs| == 0 then Failure("max(): expected a non-empty tensor")
        else
          var idx := ArgMax(probs);
          MaxAtArgMax(probs);
          Success(BreedPrediction(LabelOf(idx), Max(probs), probs))
  }
}
