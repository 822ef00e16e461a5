# Dog-nose embedding service: a Dafny model of its request pipeline

The service receives a photo of a dog's nose over gRPC. It crops, greys and resizes the
photo into a `[1, 96, 96, 1]` tensor. An ONNX model turns that tensor into a feature
vector. The service then either returns the vector or compares it with a vector stored
for a pet (by cosine similarity and Euclidean distance).

This project models the logic between the transport layer and the black-box network:

- the similarity arithmetic;
- the preprocessor's crop-box arithmetic and its step and shape logic;
- the `NoseImage` and `Embedding` value objects;
- the domain exceptions and their codes;
- the ONNX adapter's load / extract / health state machine;
- the three use cases;
- the servicer's mapping from "result or exception" to a response record;
- the JSON vector store.

It proves what these promise: guards, error kinds and their order, shapes and ranges,
round trips, and "nothing else changes".

Modules, one per source file, plus helper modules:

- `Exceptions` is base.py. `Error` is one datatype holding the four domain kinds and the
  builtin exceptions that reach the service boundary. A call that returns or raises gives
  a `Result`.
- `SimilarityCalculator` is the calculator. It works over `real`. `sqrt` is a parameter
  constrained by `IsSqrt` (non-negative, and it squares back).
- `NoseImages` and `Embeddings` are the two value objects.
- `ImagePreprocessing` is the preprocessor. The PIL and numpy calls are the fields of
  `Pil`. `Lawful(pil)` states the size, mode and range facts the shape guarantee rests on.
- `ModelRepository` is the abstract port. It becomes a datatype of its three operations'
  outcomes, because the model has no traits.
- `OnnxModel` is the ONNX adapter: the class `OnnxModelRepository` and the pure functions
  `Load`, `Extract` and `Info` that specify it. `PosixPath` holds `basename` and `join`.
- `ExtractEmbeddingUseCase`, `CompareWithStoredImageUseCase` and `HealthCheckUseCase`
  are the use cases. `Dto` holds their result record.
- `Servicer` is the request handlers.
- `VectorStorage` is the vector store: pure rules plus the class `VectorStorageService`
  over a map of objects.
- Helper modules modelling no source file of their own: `Wrappers` (the `Option` and
  `Result` types), `Text` (the decimal rendering `str(n)` of a natural number), `Bytes`
  (the byte type) and `PosixPath` (`os.path.basename` and `os.path.join`).
- `EndToEnd` is a helper module too: it traces whole requests through these layers.

Where the use-case and adapter docstrings and the code differ, the model follows the code:

- **Undecodable image bytes.** With the model loaded they are reported as
  `INFERENCE_ERROR`, not `INVALID_IMAGE`. The adapter re-wraps the preprocessor's
  `InvalidImageError` (src/infrastructure/ml/onnx_model.py:153-177).
- **Missing stored vector or length mismatch.** In the comparison use case these are
  plain `Exception`s, so the servicer reports them as the internal error `ML_5004` with
  `retryable` set (src/application/use_cases/compare_with_stored_image.py:113-133).
- **Calculator errors.** The calculator raises `ValueError`, not a domain error.
- **A failed load mid-way.** Nothing ever sets `_model_loaded` back to False: it is
  assigned only at src/infrastructure/ml/onnx_model.py:61 and :130. So in every reachable
  state `is_healthy` is the loaded flag. Any reload that fails after a successful load keeps
  the adapter healthy. A reload that fails after creating its session
  (onnx_model.py:116-117) is left on the new session with the previous load's output
  name, and, when the new session has no inputs, the previous input name too. One that
  fails earlier (a missing file, or an error creating the session) keeps the old session. Only a
  failed first load (onnx_model.py:116-119) leaves a session without the loaded flag. Then
  the adapter is unhealthy and `get_model_info` raises IndexError.

## Model

| member | source | states |
|---|---|---|
| `SimilarityCalculator.CosineSimilarity` | src/domain/services/similarity_calculator.py:14-48 | fails exactly when the lengths differ or the vectors are empty, with the length message or the empty message |
| `SimilarityCalculator.CosineZeroMagnitude` | src/domain/services/similarity_calculator.py:40-45 | if either vector has zero magnitude, the cosine is exactly 0.0 |
| `SimilarityCalculator.CosineFormula` | src/domain/services/similarity_calculator.py:37-48 | with both magnitudes non-zero, the cosine is dot / (norm(a) * norm(b)) |
| `SimilarityCalculator.CosineSelf` | src/domain/services/similarity_calculator.py:37-48 | the cosine of a non-zero vector with itself is 1 |
| `SimilarityCalculator.CosineBounded` | src/domain/services/similarity_calculator.py:37-48 | every cosine lies in [-1, 1] (by Cauchy–Schwarz) |
| `SimilarityCalculator.CauchySchwarz` | src/domain/services/similarity_calculator.py:37-41 | dot(a, b)^2 <= sqnorm(a) * sqnorm(b) |
| `SimilarityCalculator.SquaredNormNonNegative` | src/domain/services/similarity_calculator.py:40-41 | the sum of squares of a vector is >= 0 |
| `SimilarityCalculator.SquaredNormZero` | src/domain/services/similarity_calculator.py:40-41 | the sum of squares is >= 0, and it is 0 exactly when every entry is 0 |
| `SimilarityCalculator.EuclideanDistance` | src/domain/services/similarity_calculator.py:65-72 | fails exactly when the lengths differ; it has no empty-vector guard |
| `SimilarityCalculator.EuclideanMetric` | src/domain/services/similarity_calculator.py:71-72 | the distance is non-negative and symmetric, and 0 from a vector to itself |
| `SimilarityCalculator.EuclideanOfEmpty` | src/domain/services/similarity_calculator.py:65-72 | two empty vectors are at distance 0 |
| `SimilarityCalculator.SquaredDistanceNonNegative` | src/domain/services/similarity_calculator.py:71 | the summed squared differences are >= 0 |
| `SimilarityCalculator.SquaredDistanceSymmetric` | src/domain/services/similarity_calculator.py:71 | the summed squared differences do not depend on argument order |
| `SimilarityCalculator.SquaredDistanceSelf` | src/domain/services/similarity_calculator.py:71 | the summed squared differences of a vector with itself are 0 |
| `SimilarityCalculator.DotSymmetric` | src/domain/services/similarity_calculator.py:37 | the dot product is symmetric |
| `SimilarityCalculator.SimilarityFromCosine` | src/domain/services/similarity_calculator.py:107-112 | a cosine >= 0 passes through unchanged; a negative cosine gives a score in [0, 0.5), equal to (c+1)/2 on [-1, 0) |
| `SimilarityCalculator.SimilarityExamples` | src/domain/services/similarity_calculator.py:107-112 | 0.5 gives 0.5, -0.5 gives 0.25, -1 gives 0 |
| `SimilarityCalculator.NegativeCosineCanOutscorePositive` | src/domain/services/similarity_calculator.py:107-112 | the score is not monotone: a small negative cosine scores above a small positive one |
| `SimilarityCalculator.NormalizedSimilarity` | src/domain/services/similarity_calculator.py:96-114 | fails exactly when the cosine fails, with the same error; otherwise it returns the standalone cosine and distance and the score of that cosine |
| `SimilarityCalculator.NormalizedRanges` | src/domain/services/similarity_calculator.py:86-90 | the score is in [0, 1], the cosine in [-1, 1], and the distance >= 0 |
| `SimilarityCalculator.NormalizedSelf` | src/domain/services/similarity_calculator.py:96-114 | a non-zero vector against itself gives (1, 1, 0) |
| `SimilarityCalculator.NormalizedSwap` | src/domain/services/similarity_calculator.py:96-114 | swapping the arguments changes neither success nor the three values |
| `NoseImages.NewNoseImage` | src/domain/entities/nose_image.py:15-24 | succeeds exactly on non-empty bytes, keeps bytes and format, and rejects empty bytes with ValueError |
| `NoseImages.SizeBytes` | src/domain/entities/nose_image.py:27-29 | the byte count, at least 1 for a valid image |
| `NoseImages.ConstructedSize` | src/domain/entities/nose_image.py:18-29 | a constructed image reports the length of the bytes it was built from, which is >= 1 |
| `Embeddings.NewEmbedding` | src/domain/entities/embedding.py:16-24 | succeeds exactly on a non-empty vector, which it keeps; it rejects the empty vector with ValueError |
| `Embeddings.Dimension` | src/domain/entities/embedding.py:26-29 | the vector length, at least 1 for a valid embedding |
| `Embeddings.Similarity` | src/domain/entities/embedding.py:36-54 | fails exactly on a dimension mismatch (the message names both dimensions); needs non-zero norms, since it has no zero guard |
| `Embeddings.SimilarityAgreesWithCalculator` | src/domain/entities/embedding.py:46-54 | on valid embeddings with non-zero norms, it succeeds together with the calculator's cosine and has the same value |
| `Exceptions.Error.Code` | src/domain/exceptions/base.py:4-32 | MODEL_NOT_LOADED, INFERENCE_ERROR and INVALID_IMAGE are fixed by the subclasses; the base class keeps its code |
| `Exceptions.NewDomainException` | src/domain/exceptions/base.py:7-10 | keeps the message; the code is the one given, "DOMAIN_ERROR" by default |
| `Exceptions.NewModelNotLoadedError` | src/domain/exceptions/base.py:16-17 | code MODEL_NOT_LOADED and the default message when none is given |
| `Exceptions.SubclassCodeDeterminesKind` | src/domain/exceptions/base.py:13-32 | the three subclass codes are distinct, so the code identifies the subclass |
| `ImagePreprocessing.TruncateToInt` | src/infrastructure/ml/image_preprocessor.py:53-54 | `int()` truncates toward zero: the floor for x >= 0, the ceiling (x <= n < x + 1, n <= 0) for x < 0 |
| `ImagePreprocessing.CropBox` | src/infrastructure/ml/image_preprocessor.py:50-60 | right-left and bottom-top are the truncated products size * ratio |
| `ImagePreprocessing.CropSidesAreFloors` | src/infrastructure/ml/image_preprocessor.py:53-54 | for a ratio >= 0 the crop sides are floor(W*ratio) and floor(H*ratio) |
| `ImagePreprocessing.CropBoxInside` | src/infrastructure/ml/image_preprocessor.py:53-60 | for 0 <= ratio <= 1: 0 <= left <= right <= W and 0 <= top <= bottom <= H |
| `ImagePreprocessing.CropBoxCentred` | src/infrastructure/ml/image_preprocessor.py:57-60 | left <= W-right <= left+1, and the same vertically |
| `ImagePreprocessing.CropBoxExample` | src/infrastructure/ml/image_preprocessor.py:50-60 | 200x200 at 0.6 is cut to (40, 40, 160, 160) |
| `ImagePreprocessing.CenterCrop` | src/infrastructure/ml/image_preprocessor.py:40-68 | a lawful crop yields the truncated sizes and keeps the mode |
| `ImagePreprocessing.CropStep` | src/infrastructure/ml/image_preprocessor.py:90-91 | the crop runs only when enabled; otherwise the image is unchanged |
| `ImagePreprocessing.ConvertStep` | src/infrastructure/ml/image_preprocessor.py:97-103 | one channel yields mode L and three channels yield RGB; an image already in that mode is returned unchanged; the size is kept |
| `ImagePreprocessing.ResizeStep` | src/infrastructure/ml/image_preprocessor.py:105-111 | an image already target x target is unchanged; after a lawful resize the size is target x target and the mode is kept |
| `ImagePreprocessing.Normalize` | src/infrastructure/ml/image_preprocessor.py:116-117 | every element is divided by 255 and the shape is kept; samples in 0..255 map into [0, 1] |
| `ImagePreprocessing.AddAxes` | src/infrastructure/ml/image_preprocessor.py:119-124 | a rank-2 single-channel array gains a trailing axis, then every array gains a leading batch axis; the data are kept |
| `ImagePreprocessing.Preprocess` | src/infrastructure/ml/image_preprocessor.py:83-132 | fails exactly when a step fails, and then with InvalidImageError("image preprocessing failed: " + the cause) |
| `ImagePreprocessing.Pipeline` | src/infrastructure/ml/image_preprocessor.py:83-128 | the body of the `try`: an Image.open failure and a crop failure propagate unchanged; a result has the batch axis first |
| `ImagePreprocessing.PreprocessShape` | src/infrastructure/ml/image_preprocessor.py:97-128 | with C = 1 or 3 and lawful library calls, the tensor has shape [1, ts, ts, C] and every value is in [0, 1] |
| `ImagePreprocessing.PreprocessFailsAsInvalidImage` | src/infrastructure/ml/image_preprocessor.py:130-132 | every failure has kind INVALID_IMAGE and a message that starts with the preprocessing prefix |
| `ImagePreprocessing.UndecodableImage` | src/infrastructure/ml/image_preprocessor.py:83-85 | bytes PIL cannot open fail as InvalidImageError naming PIL's complaint |
| `PosixPath.Basename` | src/infrastructure/ml/onnx_model.py:81 | the result is the suffix after the last '/', contains no '/', and is the whole path when the path has no '/' |
| `PosixPath.Join` | src/infrastructure/ml/onnx_model.py:82 | the result ends with the second part: it extends the first part, or is the second part when that is absolute |
| `PosixPath.JoinBasename` | src/infrastructure/ml/onnx_model.py:81-82 | a directory without a trailing '/' and a base name are joined by exactly one '/' |
| `PosixPath.BasenameAfterSeparator` | src/infrastructure/ml/onnx_model.py:81-82 | appended to a directory that is empty or ends in '/', a name without '/' is the path's base name |
| `PosixPath.BasenameOfJoined` | src/infrastructure/ml/onnx_model.py:81-82 | the base name of dir + "/" + name is name, when name has no '/' |
| `PosixPath.CachePathExample` | src/infrastructure/ml/onnx_model.py:80-82 | key "models/nose_v2.onnx" is cached as "/tmp/models/nose_v2.onnx" |
| `OnnxModel.DefaultSettings` | src/infrastructure/ml/onnx_model.py:26-34 | the constructor's defaults: size 96, 1 channel, cache "/tmp/models", no downloader, no key |
| `OnnxModel.PreprocessorConfig` | src/infrastructure/ml/onnx_model.py:54-57 | the adapter's preprocessor takes the size and channels and keeps the 0.6 crop, enabled |
| `OnnxModel.CachePath` | src/infrastructure/ml/onnx_model.py:80-82 | the model is cached inside the cache directory (the directory is a prefix of the path) under the key's file name (the path's base name is the key's) |
| `OnnxModel.ResolveModelPath` | src/infrastructure/ml/onnx_model.py:75-100 | with a downloader and a key: the downloader's path, or ModelNotLoadedError carrying its failure; otherwise model_path |
| `OnnxModel.Load` | src/infrastructure/ml/onnx_model.py:64-134 | every failure is ModelNotLoadedError; loaded afterwards iff loaded before or this load succeeded; it keeps the invariant; a success holds the session, its first input and output names, and an existing path |
| `OnnxModel.LoadPathChoice` | src/infrastructure/ml/onnx_model.py:75-100 | the actual path is model_path or the downloaded path; a failed download changes no field |
| `OnnxModel.LoadMissingFile` | src/infrastructure/ml/onnx_model.py:102-106 | a resolved path naming no file records the path, fails with "model file not found", and changes nothing else (loaded included) |
| `OnnxModel.LoadFromFresh` | src/infrastructure/ml/onnx_model.py:53-134 | from the fresh state, loaded iff the load succeeded, and the invariant holds |
| `OnnxModel.FailedReloadKeepsStaleNames` | src/infrastructure/ml/onnx_model.py:110-134 | a reload that fails after creating its session leaves the adapter healthy, on the new session, with the old output name (and the old input name when the session has no inputs) |
| `OnnxModel.FailedFirstLoadLeavesSession` | src/infrastructure/ml/onnx_model.py:110-134 | a first load that fails after creating its session leaves an unloaded, unhealthy adapter whose model info raises IndexError |
| `OnnxModel.HealthyIffLoaded` | src/infrastructure/ml/onnx_model.py:179-186 | in a reachable state, healthy iff loaded; the fresh state is not healthy |
| `OnnxModel.Extract` | src/infrastructure/ml/onnx_model.py:136-177 | before a load: ModelNotLoadedError with nothing run; afterwards every failure is InferenceError wrapping the cause; success is the first output, flattened, a valid embedding |
| `OnnxModel.Infer` | src/infrastructure/ml/onnx_model.py:153-170 | a preprocessing or `session.run` failure propagates; no outputs is IndexError; otherwise the first output's flattened data becomes the embedding, or the Embedding ValueError when it is empty |
| `OnnxModel.ExtractErrorKinds` | src/infrastructure/ml/onnx_model.py:150-177 | every extraction failure is ModelNotLoadedError, or InferenceError that carries its original error |
| `OnnxModel.RejectedImageIsInferenceError` | src/infrastructure/ml/onnx_model.py:153-177 | an image PIL cannot open surfaces as InferenceError whose original error is the InvalidImageError |
| `OnnxModel.EmptyOutputIsInferenceError` | src/infrastructure/ml/onnx_model.py:166-177 | an empty model output surfaces as InferenceError wrapping the Embedding's ValueError |
| `OnnxModel.Info` | src/infrastructure/ml/onnx_model.py:188-215 | without a session, three keys with loaded False; with one, the nine keys from the state, the two shapes read from the session's first input and output (IndexError if the session has no input or output) |
| `OnnxModel.InfoReportsHealth` | src/infrastructure/ml/onnx_model.py:186-206 | in a reachable state, the reported "loaded" equals is_healthy |
| `OnnxModel.AsPort` | src/domain/repositories/model_repository.py:9-52 | the adapter in a state, seen through the port, answers with Extract, is_healthy and Info |
| `OnnxModel.OnnxModelRepository.constructor` | src/infrastructure/ml/onnx_model.py:26-62 | not loaded, no session, no names, no actual path; the invariant holds |
| `OnnxModel.OnnxModelRepository.LoadModel` | src/infrastructure/ml/onnx_model.py:64-134 | updates the fields one by one, exactly as `Load` prescribes, and keeps the invariant |
| `OnnxModel.OnnxModelRepository.ExtractEmbedding` | src/infrastructure/ml/onnx_model.py:136-177 | returns `Extract` of the current state and changes no field |
| `OnnxModel.OnnxModelRepository.IsHealthy` | src/infrastructure/ml/onnx_model.py:179-186 | true exactly when the model is loaded |
| `OnnxModel.OnnxModelRepository.GetModelInfo` | src/infrastructure/ml/onnx_model.py:188-215 | returns `Info` of the current state, whose "loaded" is the health flag |
| `ExtractEmbeddingUseCase.Execute` | src/application/use_cases/extract_embedding.py:30-65 | empty bytes give InvalidImageError; otherwise the repository gets a NoseImage of exactly those bytes and format, and its answer is returned unchanged |
| `ExtractEmbeddingUseCase.EmptyPayloadSkipsRepository` | src/application/use_cases/extract_embedding.py:52-58 | with empty bytes the outcome does not depend on the repository |
| `CompareWithStoredImageUseCase.Execute` | src/application/use_cases/compare_with_stored_image.py:59-155 | a fetch error propagates; a missing image is a plain Exception; empty bytes give InvalidImageError; a success is the DTO of normalized_similarity(new, stored) |
| `CompareWithStoredImageUseCase.NoImageSkipsRest` | src/application/use_cases/compare_with_stored_image.py:85-103 | without a usable image the outcome depends on neither the repository nor the vector store |
| `CompareWithStoredImageUseCase.ExtractionErrorPropagates` | src/application/use_cases/compare_with_stored_image.py:105-113 | an extraction error is returned as is, and the vector store is not consulted |
| `CompareWithStoredImageUseCase.StoredVectorChecks` | src/application/use_cases/compare_with_stored_image.py:113-133 | a missing stored vector, then a length mismatch, are plain Exceptions, before any similarity is computed |
| `CompareWithStoredImageUseCase.DimensionMismatchMessageNamesSizes` | src/application/use_cases/compare_with_stored_image.py:126-131 | both lengths can be read back from the mismatch message |
| `CompareWithStoredImageUseCase.ComparisonSucceeds` | src/application/use_cases/compare_with_stored_image.py:136-155 | same lengths and a non-empty new vector always succeed, with the scores in (new, stored) order, vector_size = len(new), success, no error message |
| `CompareWithStoredImageUseCase.ComparisonRanges` | src/application/use_cases/compare_with_stored_image.py:136-155 | a successful DTO has its score in [0, 1], cosine in [-1, 1], distance >= 0, size >= 1 |
| `HealthCheckUseCase.Execute` | src/application/use_cases/health_check.py:27-48 | errors from is_healthy, then from get_model_info, propagate; status is SERVING iff healthy (NOT_SERVING otherwise); model_loaded is the health flag; info and timestamp are passed through |
| `Servicer.Failure` | src/presentation/grpc/servicer.py:91-113 | a domain error keeps its message, with the mapped code and its retryable flag; any other error gives "internal error: ", mapped ML_5004, retryable |
| `Servicer.FormatArgument` | src/presentation/grpc/servicer.py:77 | an empty format string becomes None; any other is passed on |
| `Servicer.ExtractResponse` | src/presentation/grpc/servicer.py:73-113 | success iff the use case succeeded; the vector and its dimension, with an empty message; otherwise the failure fields |
| `Servicer.ExtractNoseVector` | src/presentation/grpc/servicer.py:60-113 | the response the use case's outcome maps to: an empty payload gets the INVALID_IMAGE failure; otherwise success iff the repository's extraction succeeds, with its vector and size, or the failure fields of its error |
| `Servicer.EmptyPayloadResponse` | src/presentation/grpc/servicer.py:73-101 | empty bytes are answered with the INVALID_IMAGE mapping and the NoseImage message |
| `Servicer.EmptyFormatIsNone` | src/presentation/grpc/servicer.py:75-78 | an empty format reaches the repository as None |
| `Servicer.HealthResponse` | src/presentation/grpc/servicer.py:128-161 | SERVING iff model_loaded, "model: " + path, the loaded text and the timestamp; on error NOT_SERVING, "error: ..." and an empty timestamp |
| `Servicer.HealthCheck` | src/presentation/grpc/servicer.py:115-161 | the response the use case's outcome maps to: NOT_SERVING with "error: " and the message when is_healthy or get_model_info raises; otherwise SERVING iff healthy, with the model path, the loaded text and the given timestamp |
| `Servicer.ServingIffHealthy` | src/presentation/grpc/servicer.py:128-149 | the health response is SERVING exactly when the repository reports healthy and gives its info |
| `Servicer.CompareResponse` | src/presentation/grpc/servicer.py:180-221 | success copies the four DTO fields with an empty message; failures use the same branches as extraction |
| `Servicer.CompareWithStoredImage` | src/presentation/grpc/servicer.py:163-221 | the response the use case's outcome maps to: success iff the comparison succeeds, carrying its four values, otherwise zero scores and the failure fields of its error |
| `Servicer.MissingVectorIsInternal` | src/presentation/grpc/servicer.py:211-221 | a missing stored vector is answered as the retryable internal error |
| `Servicer.CompareResponseRanges` | src/presentation/grpc/servicer.py:190-197 | a successful response has its scores in range and a size >= 1 |
| `VectorStorage.ObjectKeyInjective` | src/infrastructure/storage/vector_storage.py:71 | under one prefix, distinct pets have distinct object keys |
| `VectorStorage.ObjectKey` | src/infrastructure/storage/vector_storage.py:71 | the key is the prefix, '/', the PetDID and ".json", and the PetDID can be cut back out of it |
| `VectorStorage.ObjectKeyExample` | src/infrastructure/storage/vector_storage.py:26-71 | under the default prefix "pet-vectors" a pet's key is "pet-vectors/<PetDID>.json" |
| `VectorStorage.NewRecord` | src/infrastructure/storage/vector_storage.py:168-174 | petDID, featureVector, vectorSize = len(vector), the timestamp, and version "1.0" |
| `VectorStorage.Decode` | src/infrastructure/storage/vector_storage.py:89-91 | a saved record reads back with its five keys and its vector; a non-JSON body is the "JSON format error" Exception |
| `VectorStorage.ReadVector` | src/infrastructure/storage/vector_storage.py:56-143 | None iff the key is absent; a body that is not JSON is an error; a missing or empty featureVector is an error listing the keys; otherwise the stored non-empty vector |
| `VectorStorage.ReadIgnoresVectorSize` | src/infrastructure/storage/vector_storage.py:108-115 | the result does not depend on the stored vectorSize |
| `VectorStorage.SaveThenRead` | src/infrastructure/storage/vector_storage.py:159-185 | saving and reading back gives the vector, or for [] the empty-vector error |
| `VectorStorage.SaveKeepsOthers` | src/infrastructure/storage/vector_storage.py:159-182 | saving one pet's vector changes what is read for no other pet |
| `VectorStorage.VectorStorageService.GetVectorByPetDid` | src/infrastructure/storage/vector_storage.py:56-143 | returns `ReadVector` of the bucket; None exactly when the object is absent |
| `VectorStorage.VectorStorageService.SaveVector` | src/infrastructure/storage/vector_storage.py:145-185 | puts the record under the pet's key, changes no other object, returns True, and the vector reads back |
| `VectorStorage.VectorStorageService.CheckVectorExists` | src/infrastructure/storage/vector_storage.py:202-223 | True exactly when the object is present (absent is the 404 case) |
| `EndToEnd.HealthBeforeLoad` | src/infrastructure/ml/onnx_model.py:53-62 | before load, the health RPC answers NOT_SERVING and names the configured path |
| `EndToEnd.HealthAfterLoad` | src/infrastructure/ml/onnx_model.py:108-130 | after a successful first load, the health RPC answers SERVING |
| `EndToEnd.ExtractBeforeLoad` | src/infrastructure/ml/onnx_model.py:150-151 | before load, every non-empty request is answered with the MODEL_NOT_LOADED mapping |
| `EndToEnd.UndecodableImageResponse` | src/infrastructure/ml/onnx_model.py:172-177 | once loaded, undecodable bytes are answered with the INFERENCE_ERROR mapping |
| `EndToEnd.CompareWithoutStoredVector` | src/application/use_cases/compare_with_stored_image.py:113-118 | a pet absent from the store is answered with the retryable internal error |
| `EndToEnd.CompareWithOwnSavedVector` | src/infrastructure/storage/vector_storage.py:168-182 | saving the vector of an image and comparing that image against it gives (1, 1, 0) |
| `Text.NatToStringRoundTrip` | src/application/use_cases/compare_with_stored_image.py:127-131 | the decimal rendering of a length reads back as that length |

## Left out

- **Async and logging.** `async`/`await` become ordinary sequential calls, and logging is dropped.
- **sqrt and floats.** Arithmetic is over `real`, and `sqrt` is a parameter constrained by `IsSqrt`.
  The float32 conversions (embedding.py:34, the numpy arrays), float rounding and the
  `math.sqrt` error on negative input are not modelled. The crop ratio is an exact rational.
- **PIL, numpy and ONNX Runtime.**
  - The decode, crop, convert and resize calls and the pixel maths are the fields of
    `ImagePreprocessing.Pil`.
  - The session creation and the forward pass are the fields of `OnnxModel.Runtime`.
  - Only the facts in `Lawful` are assumed, and only where a lemma asks for them.
- **The filesystem and the downloader.** `os.path.exists` is a parameter. The downloader
  is an optional function from (key, local path) to the path it wrote. Its cache rule is
  file I/O.
- **S3 and JSON text.**
  - The bucket is an in-memory map, with absence standing for NoSuchKey and 404.
  - `ClientError` with other codes, `BotoCoreError`, UTF-8 decoding and the other
    re-raised errors in vector_storage.py:117-143, 187-200 and 220-223 are not modelled,
    so `SaveVector` always succeeds.
  - A foreign JSON object is reduced to its keys and a featureVector taken to be an array
    of numbers. A truthy non-array featureVector (which the code would return as is) is
    not modelled. Nor is a stored body that is valid JSON but not an object (such as
    `[1, 2]` or `3`): there `vector_data.get` raises AttributeError, which the bare
    re-raise passes on.
- **Timestamps.** `createdAt` and the health timestamp are caller-supplied strings.
- **str() renderings.** `str(e)` is the error's message. `list(keys)` is rendered as
  Python's repr of plain strings. Shapes are the text the runtime reports.
- **Message texts.** They are English renderings of the Korean ones, keeping the same
  prefixes and the same embedded values.
- **The servicer's undefined names.** It imports `get_proto_error_code` and eight
  exception classes from a package whose `__init__.py` does not define them, and reads
  `e.retryable`, which `DomainException` does not set.
  - The code mapping and the retryable flag are given by `Servicer.ErrorMapping`, as
    functions of the code string.
  - The import failure and the AttributeError are not modelled. The protobuf module is
    taken as importable.
  - Only the response fields the handlers set are modelled.
- **The trait.** The `ModelRepository` port is a datatype of outcomes, not a trait, because
  traits are not used here. Aliasing between the adapter object and its port view is not
  modelled: `AsPort` takes a state snapshot.
- **Bootstrap and infrastructure.** Process bootstrap, the gRPC server, proto generation,
  dependency wiring, settings loading, image_storage.py (taken as a map lookup in
  `EndToEnd.ImageFetch`) and model_downloader.py are not part of this model.
- **`Embeddings.Similarity`** requires non-zero norms. The code would divide by zero and
  return NaN or raise; that failure is not modelled.
