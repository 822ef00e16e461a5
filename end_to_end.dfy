/**
 * Requests traced from the gRPC handlers through the use cases to the ONNX adapter and
 * the vector store, with the image bucket as a map (src/infrastructure/storage/image_storage.py
 * answers NoSuchKey with None).
 */
module EndToEnd {
  import opened Wrappers
  import opened Exceptions
  import opened Bytes
  import opened ImagePreprocessing
  import opened ModelRepository
  import opened OnnxModel
  import opened Servicer
  import opened VectorStorage
  import SimilarityCalculator
  import CompareWithStoredImageUseCase
  import NoseImages

  /** `get_image_by_key` over a bucket of images. */
  function ImageFetch(images: map<string, seq<byte>>): string -> Result<Option<seq<byte>>>
  {
    key => if key in images then Ok(Some(images[key])) else Ok(None)
  }

  /** `get_vector_by_pet_did` of a vector store holding `objects` under `vectorPrefix`. */
  function VectorFetch(objects: map<string, StoredObject>, vectorPrefix: string): string -> Result<Option<seq<real>>>
  {
    petDid => ReadVector(objects, vectorPrefix, petDid)
  }

  /** Before `load_model`, the health check answers NOT_SERVING and names the configured model path. */
  lemma HealthBeforeLoad(settings: Settings, runtime: Runtime, pil: Pil, now: string)
    ensures HealthCheck(AsPort(settings, runtime, pil, Unloaded), now) ==
      HealthCheckResponse(NotServing, ModelMessagePrefix + settings.modelPath, NotLoadedText, now)
  {
  }

  /** After a successful first load, the health check answers SERVING. */
  lemma HealthAfterLoad(settings: Settings, runtime: Runtime, fileExists: string -> bool, pil: Pil, now: string)
    requires Load(settings, runtime, fileExists, Unloaded).result.Ok?
    ensures var s := Load(settings, runtime, fileExists, Unloaded).state;
      HealthCheck(AsPort(settings, runtime, pil, s), now) ==
        HealthCheckResponse(Serving, ModelMessagePrefix + settings.modelPath, LoadedText, now)
  {
  }

  /** Before `load_model`, every non-empty extraction request is answered with MODEL_NOT_LOADED. */
  lemma ExtractBeforeLoad(mapping: ErrorMapping, settings: Settings, runtime: Runtime, pil: Pil, request: NoseImageRequest)
    requires |request.imageData| > 0
    ensures ExtractNoseVector(mapping, AsPort(settings, runtime, pil, Unloaded), request) ==
      NoseVectorResponse([], 0, false, NotLoadedMessage,
                         mapping.protoCode(ModelNotLoadedCode), mapping.retryable(ModelNotLoadedCode))
  {
  }

  /**
   * With the model loaded, bytes PIL cannot open are answered with INFERENCE_ERROR, not
   * INVALID_IMAGE: the adapter re-wraps the preprocessor's InvalidImageError.
   */
  lemma UndecodableImageResponse(mapping: ErrorMapping, settings: Settings, runtime: Runtime, pil: Pil,
                                 s: ModelState, request: NoseImageRequest)
    requires Healthy(s) && |request.imageData| > 0
    requires pil.open(request.imageData).Err?
    ensures var resp := ExtractNoseVector(mapping, AsPort(settings, runtime, pil, s), request);
      !resp.success && resp.errorCode == mapping.protoCode(InferenceErrorCode) &&
      resp.retryable == mapping.retryable(InferenceErrorCode)
  {
    var image := NoseImages.NoseImage(request.imageData, FormatArgument(request.imageFormat));
    RejectedImageIsInferenceError(settings, runtime, pil, s, image);
  }

  /** A pet with no stored vector is answered with an internal error, once the extraction has succeeded. */
  lemma CompareWithoutStoredVector(mapping: ErrorMapping, repository: ModelPort, images: map<string, seq<byte>>,
                                   objects: map<string, StoredObject>, vectorPrefix: string,
                                   sqrt: real -> real, request: CompareRequest, newVector: seq<real>)
    requires request.imageKey in images && |images[request.imageKey]| > 0
    requires repository.extractEmbedding(NoseImages.NoseImage(images[request.imageKey], None)) ==
      Ok(Embeddings.Embedding(newVector))
    requires ObjectKey(vectorPrefix, request.petDid) !in objects
    ensures var resp := CompareWithStoredImage(mapping, repository, ImageFetch(images),
                                               VectorFetch(objects, vectorPrefix), sqrt, request);
      !resp.success && resp.retryable && resp.errorCode == mapping.protoCode(InternalServerErrorCode)
  {
    MissingVectorIsInternal(mapping, repository, ImageFetch(images), VectorFetch(objects, vectorPrefix),
                            sqrt, request, newVector);
  }

  /**
   * Saving the vector an image yields and then comparing the same image against it
   * answers similarity 1, cosine 1, distance 0, for any vector that is not all zeros.
   */
  lemma CompareWithOwnSavedVector(mapping: ErrorMapping, repository: ModelPort, images: map<string, seq<byte>>,
                                  objects: map<string, StoredObject>, vectorPrefix: string, createdAt: string,
                                  sqrt: real -> real, request: CompareRequest, vector: seq<real>)
    requires SimilarityCalculator.IsSqrt(sqrt)
    requires request.imageKey in images && |images[request.imageKey]| > 0
    requires repository.extractEmbedding(NoseImages.NoseImage(images[request.imageKey], None)) ==
      Ok(Embeddings.Embedding(vector))
    requires exists i :: 0 <= i < |vector| && vector[i] != 0.0
    ensures var saved := objects[ObjectKey(vectorPrefix, request.petDid) := Saved(NewRecord(request.petDid, vector, createdAt))];
      CompareWithStoredImage(mapping, repository, ImageFetch(images), VectorFetch(saved, vectorPrefix), sqrt, request) ==
        CompareVectorsResponse(1.0, 1.0, 0.0, |vector|, true, "", 0, false)
  {
    var saved := objects[ObjectKey(vectorPrefix, request.petDid) := Saved(NewRecord(request.petDid, vector, createdAt))];
    SaveThenRead(objects, vectorPrefix, request.petDid, vector, createdAt);
    SimilarityCalculator.NormalizedSelf(vector, sqrt);
    CompareWithStoredImageUseCase.ComparisonSucceeds(repository, ImageFetch(images), VectorFetch(saved, vectorPrefix),
                                                     sqrt, request.imageKey, request.petDid, vector, vector);
  }
}
