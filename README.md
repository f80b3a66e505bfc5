# Cattle Vision serving core, modelled in Dafny

This project models the deterministic layer that sits around the two
image classifiers of the Cattle Vision service. The breed classifier is a
PyTorch network with five cattle breeds. The disease classifier is a Keras
model with three diseases. This project covers:

- the **crossbreed combiner**: the per-attribute merge rule, the `"A x B"`
  name and the fixed shape of the hybrid summary;
- the **static reference tables**, and their lookups: case-folded for
  breeds, exact-case for diseases, with the empty record on a miss;
- the **argmax-to-label step** of both classifiers: first maximum wins, the
  confidence is the maximum, and the label comes from the ordered class list.
  The breed side falls back to the decimal index;
- the **model registry** `Models`: five nullable fields filled lazily behind
  `is None` guards, with ghost load counters;
- the **request gate** (the media type must start with `image/`), the error
  mapping of each handler (400, 500, or an exception the handler does not
  catch) and the response records;
- the **cross-info lookup** of the command-line script: the pair in the given
  order, then reversed, then a default record;
- the **disease preprocessing**: which argument order reaches the resize
  call, the three RGB channels, division by 255 and the batch dimension.

Some parts of the service are opaque library or model code. These are
passed in as parameters:

- the network's forward pass and softmax (`CattleModel.Forward`);
- Keras `predict` (`Keras.Predict`);
- PIL decoding and resampling (`Imaging.Pil`);
- `torch.load` and `load_state_dict` (arguments of `CattleModel.LoadModel`);
- the Keras loader, whose outcome is the `attempt` argument of the registry
  methods;
- the two-decimal float formatting (`format2`);
- the cross-info table read from JSON.

Exceptions become `Wrappers.Result` values. A handler's outcome is an
`Http.Response`: a body, an `HttpError(status, detail)` the handler raises on
purpose, or `Unhandled`, an exception that escapes the handler. The framework
answers `Unhandled` with a generic server error.

Module layout follows the source: `CrossbreedApi`, `BreedApi` and `DiseaseApi`
(backend/app/api), `ModelLoader` (backend/app/core/model_loader.py),
`CattleModel` (backend/app/cattle_model.py), `StaticData`
(backend/app/static_data.py), `Utils` (backend/app/utils.py), `DiseaseScript`
(disease.py), `StandaloneApp` (app.py) and `PredictCross` (predict_cross.py).
The remaining modules are shared helpers:

- `Wrappers`: Option and Result values;
- `Text`: ASCII lower-casing, `startswith`, `str(n)`;
- `Maxima`: numpy/torch argmax and max, and flattening;
- `Imaging`: pictures and arrays;
- `Keras`: the disease model's declared input shape;
- `Http`: uploads, responses and the image gate.

Behaviour of the code worth knowing:

- No handler checks image size or dimensions. The only gate is the media-type
  prefix.
- The registry has no lock.
- A failed load is not fatal in the backend. When the loader raises, nothing
  is stored and the next request calls the loader again. A disease model that
  loads but whose `input_shape` does not unpack is different: the model is
  stored before the unpack, so every later call returns it with no shape
  without loading again, and every disease request then fails in
  preprocessing (`ModelLoader.Models.LoadDisease`,
  `Utils.PreprocessDisease`).
- Disease lookups use the exact label, not its lower-case form.
- app.py keeps its own `DISEASE_STATIC_DATA` (app.py:142-190), which is
  literally the same table as the backend's, so both endpoints use
  `StaticData.DiseaseLookup`.
- In app.py, the Red Dane record is stored under `RedDane`. A lower-cased
  lookup can never find that key, so a Red Dane prediction there gets the
  empty record (`StandaloneApp.RedDaneMisses`).
- app.py's `preprocess_disease` passes `(H, W)` to PIL, which reads it as
  (width, height). It agrees with the backend preprocessor only for square
  inputs (`StandaloneApp.PreprocessAgreesIffSquare`). disease.py's
  `preprocess_image_from_bytes` has the same transposition.

## Model

| member | source | states |
|---|---|---|
| Text.Lower | backend/app/api/breed.py:36 | `label.lower()` on ASCII: same length, each upper-case letter becomes its lower-case letter (code + 32), every other character is kept, and no upper-case letter is left |
| Text.LowerIdempotent | backend/app/api/breed.py:36 | lowering twice is lowering once, so a lowered label is its own lookup key |
| Text.LowerFixedIff | backend/app/static_data.py:3-74 | a string is its own lower-case form exactly when it has no upper-case letter (both directions) |
| Text.LowerIgnoresCase | backend/app/api/breed.py:36 | names that agree up to case lower to the same key, so the breed lookup is case-insensitive |
| Text.NatToString | backend/app/cattle_model.py:69 | `str(idx)` is a non-empty string of decimal digits that starts with 0 only for 0 |
| Text.NatToStringRoundTrip | backend/app/cattle_model.py:69 | the decimal form reads back as the index (`int(str(n)) == n`) |
| Text.NatToStringInjective | backend/app/cattle_model.py:69 | distinct indices give distinct decimal labels |
| Text.LowerOfDigits | backend/app/cattle_model.py:69 | a decimal fallback label is unchanged by lowering |
| Maxima.ArgMax | backend/app/api/disease.py:25 | `np.argmax` of a non-empty vector is an index holding the maximum, and no earlier index holds it (first maximum wins) |
| Maxima.Max | backend/app/api/disease.py:27 | `np.max` is an element of the vector and bounds every element |
| Maxima.FirstMaxUnique | disease.py:81 | any first maximal index is the one argmax returns |
| Maxima.MaxAtArgMax | backend/app/api/disease.py:25-27 | the maximum value equals the value at the argmax index |
| Maxima.Flatten | disease.py:81-82 | row-major flattening: the length is the sum of the row lengths, the first row comes first and the remaining rows follow, flattened in order |
| Maxima.FlattenAt | disease.py:81-82 | entry `j` of row `i` lands at flat index (lengths of the rows before `i`) + `j` |
| Maxima.FlattenSingle | disease.py:80-85 | a one-row output flattens to that row |
| Imaging.Resize | backend/app/utils.py:14 | `resize((a, b))` gives `b` rows of `a` columns: PIL reads the pair as (width, height) |
| Imaging.PixelArray | backend/app/utils.py:15 | `np.array(img)` of an h by w picture has shape h x w x 3 |
| Imaging.Batch | backend/app/utils.py:17 | `expand_dims(a, 0)` gives a batch of exactly one, `a` |
| Imaging.Scale3 | backend/app/utils.py:15 | division by 255 keeps every dimension and divides each entry by 255 |
| Imaging.Scale4 | disease.py:47 | division of the batched array by 255 keeps the batch length and divides each image, entry by entry, by 255 |
| Imaging.ScaleCommutesWithBatch | disease.py:46-47 | adding the batch dimension, then dividing by 255, equals dividing, then adding it |
| Imaging.ScaledPicture | backend/app/utils.py:15 | the scaled array keeps the picture's shape, each entry is channel/255, and every entry lies in [0, 1] |
| StaticData.BreedLookupIn | backend/app/api/breed.py:36 | the lower-cased name decides the lookup: a key gives its record, a miss gives the empty record, never an error |
| StaticData.BreedLookup | backend/app/api/breed.py:36 | the backend lookup: a lowered name that is a key gives its non-empty record, any other name the empty record |
| StaticData.DiseaseLookup | backend/app/api/disease.py:28 | the exact label decides: a hit gives a non-empty record, and the result is non-empty exactly when the label is a key |
| StaticData.BreedKeysLowercase | backend/app/static_data.py:3-74 | every breed key is lower-case, so the lowered lookup finds each key under any casing |
| StaticData.BreedKeysNotDigits | backend/app/static_data.py:3-74 | no breed key is a string of digits |
| StaticData.BreedLookupFindsKeys | backend/app/api/breed.py:36 | a name whose lower-case form is a key gets that key's record, which is non-empty |
| StaticData.BreedRecordsDefineTraits | backend/app/static_data.py:4-73 | every breed record has a non-empty milk type, yield, colour, size and temperament |
| StaticData.DiseaseKeysAreClassNames | backend/app/static_data.py:76-125 | the disease table's keys are exactly the disease class names |
| StaticData.DiseaseClassNamesDistinct | backend/app/static_data.py:125 | the class names IBK, FMD, LSD are pairwise distinct, so each label has one index |
| StaticData.DiseaseSymptomsNonEmpty | backend/app/static_data.py:81-116 | every disease record has a non-empty `symptoms` list |
| CattleModel.SelectDevice | backend/app/cattle_model.py:48 | the device is CUDA exactly when CUDA is available |
| CattleModel.StateDictOf | backend/app/cattle_model.py:50-53 | a checkpoint without a `model_state_dict` entry is used whole; one with it yields a proper part of itself |
| CattleModel.UnwrapSavedCheckpoint | backend/app/cattle_model.py:50-53 | a dictionary saved with a `model_state_dict` entry, whatever else it holds, unwraps to exactly that state |
| CattleModel.LoadModel | backend/app/cattle_model.py:47-59 | loading succeeds exactly when the checkpoint loads and its state is accepted; the net then has `len(CLASS_NAMES)` outputs, the unwrapped weights, the chosen device and inference mode, and comes with the 300/300 transform |
| CattleModel.LabelOf | backend/app/cattle_model.py:69 | an index in range names `CLASS_NAMES[idx]`; any other index gives exactly `str(idx)`, a string of digits whose value is the index |
| CattleModel.ClassNamesNotDigits | backend/app/cattle_model.py:7 | no class name is a string of digits |
| CattleModel.LabelOfInjective | backend/app/cattle_model.py:7-69 | distinct indices always get distinct labels, fallback labels included |
| CattleModel.PredictBytes | backend/app/cattle_model.py:61-70 | succeeds exactly when decoding and the forward pass succeed with a non-empty distribution; the distribution is returned unchanged, the label is that of its first maximum, the confidence is the value there and bounds every entry; with at most five outputs the label is one of `CLASS_NAMES` |
| Keras.UnpackInputShape | backend/app/core/model_loader.py:42 | `_, H, W, C = input_shape` succeeds exactly on a four-entry shape and gives the shape without its batch entry |
| ModelLoader.FreshDiseaseLoad | backend/app/core/model_loader.py:40-43 | a first disease load succeeds exactly when the model loads with a four-entry shape, and then returns the model with `(H, W, C)` |
| ModelLoader.Models.constructor | backend/app/core/model_loader.py:25-30 | all five fields start as None and no loader has run |
| ModelLoader.Models.BreedLoadOutcome | backend/app/core/model_loader.py:32-37 | with a stored model, the stored triple; otherwise whatever the loader gives |
| ModelLoader.Models.DiseaseLoadOutcome | backend/app/core/model_loader.py:39-44 | with a stored model, that model and the stored shape, possibly None; otherwise a fresh load |
| ModelLoader.Models.LoadBreed | backend/app/core/model_loader.py:32-37 | calls the loader only while `_breed` is None (counter +1), stores nothing on an exception; the result is the stored triple; disease fields outside the frame |
| ModelLoader.Models.LoadDisease | backend/app/core/model_loader.py:39-44 | calls the loader only while `_disease` is None; the model is stored before the shape is unpacked, so a bad shape leaves the model without a shape; breed fields outside the frame |
| ModelLoader.LoadBreedTwice | backend/app/core/model_loader.py:32-37 | after a successful first load, a second call returns the cached triple without loading; after a failed one it loads again; only the breed fields may change, and the disease model, shape and counter stay as they were |
| Utils.PreprocessDisease | backend/app/utils.py:7-17 | succeeds exactly when the shape is present, H and W are known and the bytes decode; the result has shape [1, H, W, 3] (C unused), each entry is the channel of the resized pixel over 255, and lies in [0, 1] |
| Http.IsImage | backend/app/api/breed.py:15 | the gate passes exactly when the media type's first six characters are `image/` |
| Http.GateExamples | backend/app/api/breed.py:15-16 | `image/jpeg` and `image/` pass; `Image/jpeg`, `image` and `text/plain` are refused: the gate is case-sensitive and needs the slash |
| BreedApi.Infer | backend/app/api/breed.py:19-34 | the guarded block fails with the loader's error when the load fails, and is otherwise `predict_bytes` on the loaded model |
| BreedApi.Respond | backend/app/api/breed.py:14-43 | 400 "File must be an image." exactly when the media type is not `image/...`; every other error is 500 with detail "Breed prediction failed: " + the guarded block's error; never an escaping exception; success exactly when load and prediction succeed, with filename, label, confidence and the case-folded record |
| BreedApi.Serve | backend/app/api/breed.py:14-21 | a request that fails the gate leaves the registry untouched; otherwise the answer comes from the cached or freshly loaded model, the load counter grows only when none was stored, a loaded model stays stored, a loader failure stores nothing, and every disease field is unchanged |
| BreedApi.ServeTwice | backend/app/api/breed.py:14-21 | two image requests on an empty registry: after a successful first load the second is answered with that model and the loader ran once; after a failed one the loader runs again |
| BreedApi.ClassNamesCovered | backend/app/static_data.py:3-74 | every breed class name of the classifier, lowered, is a key of the breed table |
| BreedApi.FallbackLabelMisses | backend/app/api/breed.py:36 | a fallback label (`str(idx)` past the class list) gets the empty record |
| BreedApi.KnownBreedEnriched | backend/app/api/breed.py:36 | with one output per class, a request that passes the gate and predicts succeeds, with a class name and a non-empty record defining every combined trait |
| DiseaseApi.Infer | backend/app/api/disease.py:18-23 | the guarded block succeeds exactly when loading, preprocessing and prediction succeed with at least one row, and yields the first row |
| DiseaseApi.Respond | backend/app/api/disease.py:12-35 | 400 exactly on a non-image media type; 500 with the "Disease prediction failed: " prefix exactly when the guarded block fails; an escaping exception exactly for an empty row or a maximum past the third class; otherwise the label at the first maximum, the maximum as confidence, and the exact-case, non-empty record |
| DiseaseApi.Serve | backend/app/api/disease.py:13-19 | a request that fails the gate leaves the registry untouched; otherwise the answer comes from the registry's model, the load counter grows only when none was stored, a stored model stays, the model is stored as soon as it loads, and every breed field is unchanged |
| DiseaseApi.ThreeClassRowAnswers | backend/app/api/disease.py:25-26 | a row with one probability per disease class always gives a response |
| CrossbreedApi.CombineBoth | backend/app/api/crossbreed.py:52-54 | both values truthy: exactly `"<A> / <B>"`, A first |
| CrossbreedApi.CombineOnlyOne | backend/app/api/crossbreed.py:55 | exactly one value truthy: that value verbatim |
| CrossbreedApi.CombineNeither | backend/app/api/crossbreed.py:55 | neither value truthy: the literal `N/A` |
| CrossbreedApi.CombineMissingIsEmpty | backend/app/api/crossbreed.py:50-55 | a missing field and an empty-string field combine identically, on either side |
| CrossbreedApi.CombineField | backend/app/api/crossbreed.py:49-55 | the combination is never empty; it starts with A's value when A's value is truthy, and is B's value when only B's is |
| CrossbreedApi.CrossName | backend/app/api/crossbreed.py:46 | the name is A's label, then `" x "`, then B's label, nothing else |
| CrossbreedApi.Notes | backend/app/api/crossbreed.py:64 | the notes are `"Parent A: "`, A's label, A's formatted confidence, `"), Parent B: "`, B's label and B's formatted confidence, in that order |
| CrossbreedApi.HybridInfo | backend/app/api/crossbreed.py:57-65 | the summary holds the cross name and the notes, and none of its entries is empty |
| CrossbreedApi.ParentRecord | backend/app/api/crossbreed.py:68-69 | a parent entry carries the file name, label and confidence, and the case-folded record or the empty one |
| CrossbreedApi.PredictParents | backend/app/api/crossbreed.py:23-38 | the guarded block: the load error if the load fails, else parent A's error, else parent B's, else both predictions |
| CrossbreedApi.HybridInfoKeys | backend/app/api/crossbreed.py:57-65 | the summary has exactly `cross_name`, `notes` and the five `expected_` keys |
| CrossbreedApi.HybridInfoEntries | backend/app/api/crossbreed.py:57-65 | `cross_name` is the cross name, `notes` the notes, and `expected_<t>` is the combination of trait t, for each of the five traits |
| CrossbreedApi.KnownBreedsCombineFully | backend/app/api/crossbreed.py:49-55 | two records of the breed table combine every trait as `"<A> / <B>"`, never `N/A` |
| CrossbreedApi.Respond | backend/app/api/crossbreed.py:11-71 | 400 "Both files must be images." exactly when either media type is not an image; any other error is 500 with detail "Crossbreed prediction failed: " + the guarded block's first error, and no summary; on success both parent records and the hybrid summary from their case-folded records |
| CrossbreedApi.Serve | backend/app/api/crossbreed.py:17-25 | a request that fails the gate leaves the registry untouched; otherwise one registry call serves both parents, with the same registry state changes as the breed endpoint, and every disease field is unchanged |
| PredictCross.DefaultInfo | predict_cross.py:33-42 | the default record has exactly the seven keys: the parents in the order given, a null yield, `Unknown` resistance, calf size and temperament, `General dairy` use and the fixed notes text |
| PredictCross.CrossInfo | predict_cross.py:27-42 | keyed by the backend's `"<a> x <b>"` cross name: the given order's entry if stored, else the reversed order's, else the default record |
| PredictCross.CrossInfoSymmetric | predict_cross.py:27-32 | with exactly one orientation stored, both parent orders find the same entry |
| PredictCross.CrossInfoPrefersGivenOrder | predict_cross.py:29-30 | with both orientations stored, each order gets its own entry |
| PredictCross.DefaultInfoSwap | predict_cross.py:33-42 | swapping unmapped parents swaps them in the default record and changes nothing else |
| DiseaseScript.LoadDiseaseModel | disease.py:17-30 | succeeds exactly on a four-entry declared shape and returns the model with h, w, c, the shape without its batch entry |
| DiseaseScript.LoadAgreesWithRegistry | disease.py:27-28 | the script reads the same dimensions from a model as the backend registry |
| DiseaseScript.PreprocessImageFromPath | disease.py:33-48 | `load_img(target_size=(h, w))` then batch then /255: shape [1, h, w, 3], values in [0, 1] |
| DiseaseScript.PreprocessImageFromBytes | disease.py:51-65 | `target_size` goes straight to PIL, so the result has shape [1, w, h, 3] |
| DiseaseScript.PredictDisease | disease.py:68-85 | argmax and max over the flattened output; succeeds exactly when the index is inside the class list (no fallback); the label is at the first maximum, the confidence is the maximum, and the probabilities are the first row unchanged |
| DiseaseScript.SingleRowPrediction | disease.py:80-85 | for a one-row output with one value per class, the label is at the row's argmax and the confidence is the row's max |
| StandaloneApp.Startup | app.py:34-53 | import succeeds exactly when both loads succeed and the disease shape unpacks; a breed failure is reported first with "Failed to load breed model: "; otherwise a failure is "Failed to load disease model: " followed by the loader's error or the shape-unpacking error |
| StandaloneApp.PreprocessDisease | app.py:208-212 | with `(H, W)` given to PIL, the array has shape [1, W, H, 3]; each entry is the channel of the `(H, W)`-resized pixel over 255 and lies in [0, 1] |
| StandaloneApp.PreprocessAgreesIffSquare | app.py:210 | this preprocessor equals the backend's exactly when H == W |
| StandaloneApp.PredictBreed | app.py:219-240 | 400 exactly on a non-image; otherwise 500 with detail "Breed prediction failed: " + the prediction error; Ok exactly when the prediction succeeds, with filename, label, confidence, and the record looked up lower-cased in this file's table |
| StandaloneApp.PredictBreedAgainstBackend | app.py:226-240 | answers as the backend endpoint does, except that a `RedDane` prediction gets the empty record here and the Red Dane record there |
| StandaloneApp.AppLookupMatchesUnlessRedDane | app.py:233 | any name that does not lower to `reddane` gets the same record from this file's table as from the backend's |
| StandaloneApp.TablesAgreeOnLowerKeys | app.py:60-135 | this file's breed table and the backend's agree on every key except the Red Dane one |
| StandaloneApp.AppBreedLookup | app.py:233 | this file's lookup: a lowered name that is a key gives its non-empty record, any other name the empty record |
| StandaloneApp.AppLookupAgrees | app.py:60-135 | a name lowering to a backend key other than `reddane` gets the same non-empty record from both tables |
| StandaloneApp.ClassNamesLowerKey | backend/app/cattle_model.py:7 | the first four class names lower to backend keys other than `reddane` |
| StandaloneApp.RedDaneMisses | app.py:121 | `RedDane` finds no record here; the other four class names find the same non-empty records as in the backend |
| StandaloneApp.Infer | app.py:254-258 | the guarded block succeeds exactly when preprocessing and prediction succeed with at least one row, and yields the first row |
| StandaloneApp.PredictDisease | app.py:247-271 | 400 exactly on a non-image; 500 with "Disease prediction failed: " + the error exactly when the guarded block fails; an escaping exception exactly for an empty row or a maximum past the third class; otherwise the filename, the label at the first maximum, the maximum as confidence, and the non-empty exact-case record |
| StandaloneApp.PredictDiseaseAgainstBackend | app.py:247-271 | for a square declared input, this endpoint answers exactly as the backend's |

## Left out

- HTTP framework: routing, prefixes, CORS, `uvicorn.run`, the async file reads and `HTTPException` mechanics. Only the status and detail of the outcome are modelled.
- Concurrency: the thread-pool dispatch and concurrent first loads. The registry has no lock, so it is modelled for sequential calls only, and no thread-safety is claimed.
- Network internals: the networks, the transform's tensor conversion and normalisation constants, and softmax. They are the abstract `forward` and `predict` functions.
- Imaging libraries: PIL and Keras decoding and resampling are the abstract `decode` and `resample` of `Imaging.Pil`. Zero-size resizes are not modelled.
- Floating point: values are exact reals. float32 rounding and NaN entries are not modelled. The notes' two-decimal formatting is the abstract `format2`.
- Exception texts: the messages of library exceptions pass through as strings. The texts the model writes for Python's own errors (failed unpacking, empty argmax, list index) stand in for the interpreter's wording.
- File and disk I/O: model paths, reading the uploaded images, the JSON cross-info file (a table argument), and all printing. The command-line parts of predict_cross.py and the `main` of disease.py are not modelled beyond the cross-info selection.
- Frontend: the code under frontend/ is not part of this model.
- Dead code: the unused `_predict` helper of backend/app/api/breed.py.
- Text.Lower: lowers ASCII letters only, not the full Unicode `str.lower()`. Every label the classifiers produce is ASCII.
- Http.Upload: the media type is a string. An upload with no declared type, where `startswith` would raise, is not modelled.
- Keras.KerasModel: only the declared input shape is visible. Everything else about the loaded model is reached through `predict`.
- CattleModel.PredictBytes: takes `torch.max(probs, dim=0)` to return the first maximal index on ties, as PyTorch documents and as numpy's `argmax` does.
- BreedApi.KnownBreedEnriched: takes as a hypothesis that the forward pass gives one probability per class, because the network's output width is opaque here. `CattleModel.LoadModel` does prove that the head is built with `len(CLASS_NAMES)` outputs.
- ModelLoader.Models.LoadBreed: the loaders never return None in this model, so at-most-once holds after the first successful load. A loader that returned None would be retried on the next call, because the guard is `is None`.
