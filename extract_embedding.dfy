/** ExtractEmbeddingUseCase (src/application/use_cases/extract_embedding.py). */
module ExtractEmbeddingUseCase {
  import opened Wrappers
  import opened Exceptions
  import opened Bytes
  import opened NoseImages
  import opened Embeddings
  import opened ModelRepository

  /**
   * `execute`: an empty payload is an InvalidImageError carrying the NoseImage's complaint;
   * anything else goes to the repository as a NoseImage with exactly those bytes and that
   * format, and the repository's embedding or error comes back unchanged.
   */
  function Execute(repository: ModelPort, imageData: seq<byte>, imageFormat: Option<string>): (r: Result<Embedding>)
    ensures |imageData| == 0 ==> r == Err(InvalidImageError(EmptyImageMessage))
    ensures |imageData| > 0 ==> r == repository.extractEmbedding(NoseImage(imageData, imageFormat))
  {
    match NewNoseImage(imageData, imageFormat)
    case Err(e) => Err(InvalidImageError(e.message))
    case Ok(image) => repository.extractEmbedding(image)
  }

  /** An empty payload never reaches the repository: the outcome is the same whatever the repository does. */
  lemma EmptyPayloadSkipsRepository(one: ModelPort, other: ModelPort, imageFormat: Option<string>)
    ensures Execute(one, [], imageFormat) == Execute(other, [], imageFormat)
    ensures Execute(one, [], imageFormat).Err? && Execute(one, [], imageFormat).error.Code() == InvalidImageCode
  {
  }
}
