/**
 * NoseEmbedderServicer (src/presentation/grpc/servicer.py).
 *
 * Each handler runs its use case and turns the embedding, report or DTO, or the raised
 * error, into a response record; no path returns without a response. Fields a branch
 * does not set keep the protobuf defaults (empty, 0, false). `get_proto_error_code` and
 * the exceptions' `retryable` flag are functions of the error code string, given as an
 * `ErrorMapping`.
 */
module Servicer {
  import opened Wrappers
  import opened Exceptions
  import opened Bytes
  import opened Embeddings
  import opened ModelRepository
  import opened Dto
  import ExtractEmbeddingUseCase
  import HealthCheckUseCase
  import CompareWithStoredImageUseCase

  datatype ErrorMapping = ErrorMapping(protoCode: string -> int, retryable: string -> bool)

  /** The code every non-domain error is reported under (INTERNAL_SERVER_ERROR). */
  const InternalServerErrorCode := "ML_5004"
  const InternalErrorPrefix := "internal error: "

  datatype NoseImageRequest = NoseImageRequest(imageData: seq<byte>, imageFormat: string)

  datatype NoseVectorResponse = NoseVectorResponse(
    vector: seq<real>, vectorSize: int, success: bool, errorMessage: string, errorCode: int, retryable: bool)

  datatype ServingStatus = Serving | NotServing

  datatype HealthCheckResponse = HealthCheckResponse(
    status: ServingStatus, message: string, modelLoaded: string, timestamp: string)

  datatype CompareRequest = CompareRequest(imageKey: string, petDid: string)

  datatype CompareVectorsResponse = CompareVectorsResponse(
    similarity: real, cosineSimilarity: real, euclideanDistance: real, vectorSize: int,
    success: bool, errorMessage: string, errorCode: int, retryable: bool)

  /** The failure fields of a response: (error_message, error_code, retryable). */
  datatype FailureFields = FailureFields(message: string, code: int, retryable: bool)

  /** The two `except` clauses, shared by the extract and compare handlers. */
  function Failure(mapping: ErrorMapping, e: Error): (f: FailureFields)
    ensures e.IsDomain() ==>
      f == FailureFields(e.message, mapping.protoCode(e.Code()), mapping.retryable(e.Code()))
    ensures !e.IsDomain() ==>
      f == FailureFields(InternalErrorPrefix + e.message, mapping.protoCode(InternalServerErrorCode), true)
  {
    if e.IsDomain() then FailureFields(e.message, mapping.protoCode(e.Code()), mapping.retryable(e.Code()))
    else FailureFields(InternalErrorPrefix + e.message, mapping.protoCode(InternalServerErrorCode), true)
  }

  /** `request.image_format if request.image_format else None`. */
  function FormatArgument(imageFormat: string): (f: Option<string>)
    ensures f.None? <==> imageFormat == ""
    ensures f.Some? ==> f.value == imageFormat
  {
    if imageFormat == "" then None else Some(imageFormat)
  }

  /** The response `ExtractNoseVector` builds from the use case's outcome. */
  function ExtractResponse(mapping: ErrorMapping, outcome: Result<Embedding>): (resp: NoseVectorResponse)
    ensures resp.success <==> outcome.Ok?
    ensures outcome.Ok? ==>
      resp == NoseVectorResponse(outcome.value.vector, Dimension(outcome.value), true, "", 0, false)
    ensures outcome.Err? ==>
      var f := Failure(mapping, outcome.error);
      resp == NoseVectorResponse([], 0, false, f.message, f.code, f.retryable)
  {
    match outcome
    case Ok(embedding) => NoseVectorResponse(embedding.vector, Dimension(embedding), true, "", 0, false)
    case Err(e) =>
      var f := Failure(mapping, e);
      NoseVectorResponse([], 0, false, f.message, f.code, f.retryable)
  }

  /** `ExtractNoseVector`. */
  function ExtractNoseVector(mapping: ErrorMapping, repository: ModelPort, request: NoseImageRequest): (resp: NoseVectorResponse)
    ensures |request.imageData| == 0 ==>
      !resp.success && resp.vector == [] &&
      resp.errorMessage == NoseImages.EmptyImageMessage && resp.errorCode == mapping.protoCode(InvalidImageCode)
    ensures |request.imageData| > 0 ==>
      var outcome := repository.extractEmbedding(NoseImages.NoseImage(request.imageData, FormatArgument(request.imageFormat)));
      (resp.success <==> outcome.Ok?) &&
      (outcome.Ok? ==> resp.vector == outcome.value.vector && resp.vectorSize == |resp.vector| && resp.errorMessage == "") &&
      (outcome.Err? ==> resp.vector == [] && resp.vectorSize == 0 && resp.errorMessage == Failure(mapping, outcome.error).message &&
                        resp.errorCode == Failure(mapping, outcome.error).code &&
                        resp.retryable == Failure(mapping, outcome.error).retryable)
  {
    ExtractResponse(mapping, ExtractEmbeddingUseCase.Execute(repository, request.imageData, FormatArgument(request.imageFormat)))
  }

  /** An empty payload is answered with the INVALID_IMAGE code and the NoseImage's complaint. */
  lemma EmptyPayloadResponse(mapping: ErrorMapping, repository: ModelPort, imageFormat: string)
    ensures ExtractNoseVector(mapping, repository, NoseImageRequest([], imageFormat)) ==
      NoseVectorResponse([], 0, false, NoseImages.EmptyImageMessage,
                         mapping.protoCode(InvalidImageCode), mapping.retryable(InvalidImageCode))
  {
  }

  /** An empty format string reaches the repository as "no format". */
  lemma EmptyFormatIsNone(mapping: ErrorMapping, repository: ModelPort, imageData: seq<byte>)
    requires |imageData| > 0
    ensures ExtractNoseVector(mapping, repository, NoseImageRequest(imageData, "")) ==
      ExtractResponse(mapping, repository.extractEmbedding(NoseImages.NoseImage(imageData, None)))
  {
  }

  const ModelMessagePrefix := "model: "
  const LoadedText := "loaded (ONNX)"
  const NotLoadedText := "not loaded"
  const ErrorText := "error"
  const ErrorMessagePrefix := "error: "

  /** The response `HealthCheck` builds from the use case's outcome. */
  function HealthResponse(outcome: Result<HealthCheckUseCase.HealthReport>): (resp: HealthCheckResponse)
    ensures outcome.Ok? ==>
      (resp.status == Serving <==> outcome.value.modelLoaded) &&
      resp.message == ModelMessagePrefix + outcome.value.modelInfo.modelPath &&
      resp.modelLoaded == (if outcome.value.modelLoaded then LoadedText else NotLoadedText) &&
      resp.timestamp == outcome.value.timestamp
    ensures outcome.Err? ==>
      resp == HealthCheckResponse(NotServing, ErrorMessagePrefix + outcome.error.message, ErrorText, "")
  {
    match outcome
    case Ok(report) =>
      HealthCheckResponse(if report.modelLoaded then Serving else NotServing,
                          ModelMessagePrefix + report.modelInfo.modelPath,
                          if report.modelLoaded then LoadedText else NotLoadedText,
                          report.timestamp)
    case Err(e) => HealthCheckResponse(NotServing, ErrorMessagePrefix + e.message, ErrorText, "")
  }

  /** `HealthCheck`; the clock reading is a parameter. */
  function HealthCheck(repository: ModelPort, now: string): (resp: HealthCheckResponse)
    ensures repository.isHealthy.Err? ==>
      resp == HealthCheckResponse(NotServing, ErrorMessagePrefix + repository.isHealthy.error.message, ErrorText, "")
    ensures repository.isHealthy.Ok? && repository.modelInfo.Err? ==>
      resp == HealthCheckResponse(NotServing, ErrorMessagePrefix + repository.modelInfo.error.message, ErrorText, "")
    ensures repository.isHealthy.Ok? && repository.modelInfo.Ok? ==>
      (resp.status == Serving <==> repository.isHealthy.value) &&
      resp.message == ModelMessagePrefix + repository.modelInfo.value.modelPath &&
      resp.modelLoaded == (if repository.isHealthy.value then LoadedText else NotLoadedText) &&
      resp.timestamp == now
  {
    HealthResponse(HealthCheckUseCase.Execute(repository, now))
  }

  /** The health response is SERVING exactly when the repository answers that it is healthy. */
  lemma ServingIffHealthy(repository: ModelPort, now: string)
    ensures HealthCheck(repository, now).status == Serving <==>
      repository.isHealthy == Ok(true) && repository.modelInfo.Ok?
    ensures HealthCheck(repository, now).status == Serving ==> HealthCheck(repository, now).timestamp == now
  {
  }

  /** The response `CompareWithStoredImage` builds from the use case's outcome. */
  function CompareResponse(mapping: ErrorMapping, outcome: Result<SimilarityDto>): (resp: CompareVectorsResponse)
    ensures resp.success <==> outcome.Ok?
    ensures outcome.Ok? ==>
      var d := outcome.value;
      resp == CompareVectorsResponse(d.similarity, d.cosineSimilarity, d.euclideanDistance, d.vectorSize, true, "", 0, false)
    ensures outcome.Err? ==>
      var f := Failure(mapping, outcome.error);
      resp == CompareVectorsResponse(0.0, 0.0, 0.0, 0, false, f.message, f.code, f.retryable)
  {
    match outcome
    case Ok(d) => CompareVectorsResponse(d.similarity, d.cosineSimilarity, d.euclideanDistance, d.vectorSize, true, "", 0, false)
    case Err(e) =>
      var f := Failure(mapping, e);
      CompareVectorsResponse(0.0, 0.0, 0.0, 0, false, f.message, f.code, f.retryable)
  }

  /** `CompareWithStoredImage`. */
  function CompareWithStoredImage(mapping: ErrorMapping, repository: ModelPort,
                                  fetchImage: string -> Result<Option<seq<byte>>>,
                                  fetchVector: string -> Result<Option<seq<real>>>,
                                  sqrt: real -> real, request: CompareRequest): (resp: CompareVectorsResponse)
    ensures var outcome := CompareWithStoredImageUseCase.Execute(repository, fetchImage, fetchVector, sqrt,
                                                                request.imageKey, request.petDid);
      (resp.success <==> outcome.Ok?) &&
      (outcome.Ok? ==>
        resp.similarity == outcome.value.similarity && resp.cosineSimilarity == outcome.value.cosineSimilarity &&
        resp.euclideanDistance == outcome.value.euclideanDistance && resp.vectorSize == outcome.value.vectorSize &&
        resp.errorMessage == "" && resp.errorCode == 0 && !resp.retryable) &&
      (outcome.Err? ==>
        resp.similarity == 0.0 && resp.cosineSimilarity == 0.0 && resp.euclideanDistance == 0.0 &&
        resp.errorMessage == Failure(mapping, outcome.error).message &&
        resp.errorCode == Failure(mapping, outcome.error).code &&
        resp.retryable == Failure(mapping, outcome.error).retryable)
  {
    CompareResponse(mapping,
      CompareWithStoredImageUseCase.Execute(repository, fetchImage, fetchVector, sqrt, request.imageKey, request.petDid))
  }

  /** A missing stored vector is not a domain error: it is reported as an internal error, retryable. */
  lemma MissingVectorIsInternal(mapping: ErrorMapping, repository: ModelPort,
                                fetchImage: string -> Result<Option<seq<byte>>>,
                                fetchVector: string -> Result<Option<seq<real>>>,
                                sqrt: real -> real, request: CompareRequest, newVector: seq<real>)
    requires CompareWithStoredImageUseCase.Extracted(repository, fetchImage, request.imageKey, newVector)
    requires fetchVector(request.petDid) == Ok(None)
    ensures var resp := CompareWithStoredImage(mapping, repository, fetchImage, fetchVector, sqrt, request);
      !resp.success && resp.retryable && resp.errorCode == mapping.protoCode(InternalServerErrorCode) &&
      resp.errorMessage == InternalErrorPrefix + CompareWithStoredImageUseCase.VectorNotFoundMessage(request.petDid)
  {
    CompareWithStoredImageUseCase.StoredVectorChecks(repository, fetchImage, fetchVector, sqrt,
                                                    request.imageKey, request.petDid, newVector);
  }

  /** A successful comparison response carries scores in range. */
  lemma CompareResponseRanges(mapping: ErrorMapping, repository: ModelPort,
                              fetchImage: string -> Result<Option<seq<byte>>>,
                              fetchVector: string -> Result<Option<seq<real>>>,
                              sqrt: real -> real, request: CompareRequest)
    requires SimilarityCalculator.IsSqrt(sqrt)
    requires CompareWithStoredImage(mapping, repository, fetchImage, fetchVector, sqrt, request).success
    ensures var resp := CompareWithStoredImage(mapping, repository, fetchImage, fetchVector, sqrt, request);
      0.0 <= resp.similarity <= 1.0 && -1.0 <= resp.cosineSimilarity <= 1.0 && resp.euclideanDistance >= 0.0 &&
      resp.vectorSize >= 1 && resp.errorMessage == ""
  {
    CompareWithStoredImageUseCase.ComparisonRanges(repository, fetchImage, fetchVector, sqrt, request.imageKey, request.petDid);
  }
}
