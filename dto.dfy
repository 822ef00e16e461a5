/** The result record of the comparison use case (src/application/dto/embedding_dto.py). */
module Dto {
  import opened Wrappers

  /** SimilarityDTO; `success` defaults to True and `error_message` to None. */
  datatype SimilarityDto = SimilarityDto(
    similarity: real,
    cosineSimilarity: real,
    euclideanDistance: real,
    vectorSize: int,
    success: bool,
    errorMessage: Option<string>)
}
