/** The lazily filled model registry: five nullable fields, each pair of
    loaders guarded by `is None`, no lock. */
module ModelLoader {
  import opened Wrappers
  import opened Keras
  import opened CattleModel

  /** What a first `load_disease` returns, given what the Keras loader gives
      (the model or the exception it raised). */
  function FreshDiseaseLoad(attempt: Result<KerasModel>): (r: Result<(KerasModel, Option<Shape3>)>)
    ensures r.Success? <==> attempt.Success? && |attempt.value.inputShape| == 4
    ensures r.Success? ==>
      r.value.0 == attempt.value && r.value.1.Some?
      && [attempt.value.inputShape[0], r.value.1.value.0, r.value.1.value.1, r.value.1.value.2]
         == attempt.value.inputShape
  {
    match attempt
    case Failure(e) => Failure(e)
    case Success(model) =>
      match UnpackInputShape(model.inputShape)
      case Failure(e) => Failure(e)
      case Success(shape) => Success((model, Some(shape)))
  }

  /** `Models`. The loaders' outcomes are parameters: `attempt` is what the
      underlying loader would return if it were called now. The ghost
      counters record how many times each loader has been called. */
  class Models {
    var breed: Option<Classifier>
    var breedDevice: Option<Device>
    var breedTransform: Option<Transform>
    var disease: Option<KerasModel>
    var diseaseInputShape: Option<Shape3>
    ghost var breedLoads: nat
    ghost var diseaseLoads: nat

    /** The three breed fields are filled together; a stored input shape is
        always the shape of the stored disease model without its batch entry.
        (A disease model whose shape does not unpack stays stored with no
        shape.) */
    ghost predicate Valid()
      reads this
    {
      && breed.Some? == breedDevice.Some? == breedTransform.Some?
      && (diseaseInputShape.Some? ==>
            disease.Some? && UnpackInputShape(disease.value.inputShape) == Success(diseaseInputShape.value))
      && (breedLoads == 0 ==> breed.None?)
      && (diseaseLoads == 0 ==> disease.None?)
    }

    constructor ()
      ensures Valid()
      ensures breed.None? && breedDevice.None? && breedTransform.None?
      ensures disease.None? && diseaseInputShape.None?
      ensures breedLoads == 0 && diseaseLoads == 0
    {
      breed, breedDevice, breedTransform := None, None, None;
      disease, diseaseInputShape := None, None;
      breedLoads, diseaseLoads := 0, 0;
    }

    /** What `load_breed` returns from the current state: the stored triple,
        or, while none is stored, whatever the loader gives. */
    function BreedLoadOutcome(attempt: Result<BreedHandle>): (r: Result<BreedHandle>)
      reads this
      requires Valid()
      ensures breed.None? ==> r == attempt
      ensures breed.Some? ==> r.Success? && r.value == (breed.value, breedDevice.value, breedTransform.value)
    {
      if breed.Some? then Success((breed.value, breedDevice.value, breedTransform.value)) else attempt
    }

    /** What `load_disease` returns from the current state: the stored model
        and stored shape (possibly `None`), or, while no model is stored, the
        result of a fresh load. */
    function DiseaseLoadOutcome(attempt: Result<KerasModel>): (r: Result<(KerasModel, Option<Shape3>)>)
      reads this
      requires Valid()
      ensures disease.None? ==> r == FreshDiseaseLoad(attempt)
      ensures disease.Some? ==> r == Success((disease.value, diseaseInputShape))
    {
      if disease.Some? then Success((disease.value, diseaseInputShape)) else FreshDiseaseLoad(attempt)
    }

    /** `load_breed`: calls the loader only while no breed model is stored; a
        loader exception stores nothing. The disease fields are outside its
        frame. */
    method LoadBreed(attempt: Result<BreedHandle>) returns (r: Result<BreedHandle>)
      requires Valid()
      modifies this`breed, this`breedDevice, this`breedTransform, this`breedLoads
      ensures Valid()
      ensures breedLoads == old(breedLoads) + (if old(breed).None? then 1 else 0)
      ensures old(breed).Some? ==>
        && breed == old(breed) && breedDevice == old(breedDevice) && breedTransform == old(breedTransform)
        && r == Success((old(breed).value, old(breedDevice).value, old(breedTransform).value))
      ensures r == old(BreedLoadOutcome(attempt))
      ensures old(breed).None? && attempt.Failure? ==> breed.None?
      ensures r.Success? ==>
        breed == Some(r.value.0) && breedDevice == Some(r.value.1) && breedTransform == Some(r.value.2)
    {
      if breed.None? {
        breedLoads := breedLoads + 1;
        match attempt
        case Failure(e) =>
          return Failure(e);
        case Success(handle) =>
          breed, breedDevice, breedTransform := Some(handle.0), Some(handle.1), Some(handle.2);
      }
      r := Success((breed.value, breedDevice.value, breedTransform.value));
    }

    /** `load_disease`: calls the loader only while no disease model is
        stored. The model is stored before its shape is unpacked, so a shape
        that does not unpack leaves the model stored with no shape, and later
        calls return that model with `None` instead of a shape. The breed
        fields are outside its frame. */
    method LoadDisease(attempt: Result<KerasModel>) returns (r: Result<(KerasModel, Option<Shape3>)>)
      requires Valid()
      modifies this`disease, this`diseaseInputShape, this`diseaseLoads
      ensures Valid()
      ensures diseaseLoads == old(diseaseLoads) + (if old(disease).None? then 1 else 0)
      ensures old(disease).Some? ==>
        && disease == old(disease) && diseaseInputShape == old(diseaseInputShape)
        && r == Success((old(disease).value, old(diseaseInputShape)))
      ensures r == old(DiseaseLoadOutcome(attempt))
      ensures old(disease).None? ==>
        disease == (if attempt.Success? then Some(attempt.value) else None)
      ensures r.Success? ==> disease == Some(r.value.0) && diseaseInputShape == r.value.1
    {
      if disease.None? {
        diseaseLoads := diseaseLoads + 1;
        match attempt
        case Failure(e) =>
          return Failure(e);
        case Success(model) =>
          disease := Some(model);
          match UnpackInputShape(model.inputShape)
          case Failure(e) =>
            return Failure(e);
          case Success(shape) =>
            diseaseInputShape := Some(shape);
      }
      r := Success((disease.value, diseaseInputShape));
    }
  }

  /** Two requests in a row: once the first load succeeds, the second call
      neither loads again nor sees anything but the cached triple, whatever
      its own loader would have produced. */
  method LoadBreedTwice(models: Models, first: Result<BreedHandle>, second: Result<BreedHandle>)
    returns (r1: Result<BreedHandle>, r2: Result<BreedHandle>)
    requires models.Valid() && models.breed.None?
    modifies models`breed, models`breedDevice, models`breedTransform, models`breedLoads
    ensures models.Valid()
    ensures r1 == first
    ensures first.Success? ==> r2 == first && models.breedLoads == old(models.breedLoads) + 1
    ensures first.Failure? ==> r2 == second && models.breedLoads == old(models.breedLoads) + 2
    ensures models.disease == old(models.disease) && models.diseaseLoads == old(models.diseaseLoads)
    ensures models.diseaseInputShape == old(models.diseaseInputShape)
  {
    r1 := models.LoadBreed(first);
    r2 := models.LoadBreed(second);
  }
}
