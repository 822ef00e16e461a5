/** Bytes as the image payload carries them. */
module Bytes {
  type byte = b: int | 0 <= b < 256
}

/** The NoseImage value object (src/domain/entities/nose_image.py). */
module NoseImages {
  import opened Wrappers
  import opened Exceptions
  import opened Bytes

  /** Frozen and compared by value: a datatype. */
  datatype NoseImage = NoseImage(imageData: seq<byte>, imageFormat: Option<string>)

  /** The invariant `__post_init__` enforces. */
  predicate Valid(image: NoseImage)
  {
    |image.imageData| > 0
  }

  const EmptyImageMessage := "image data cannot be empty"

  /** `NoseImage(image_data, image_format)`: rejects empty data with ValueError, keeps everything else. */
  function NewNoseImage(imageData: seq<byte>, imageFormat: Option<string>): (r: Result<NoseImage>)
    ensures r.Ok? <==> |imageData| > 0
    ensures r.Ok? ==> r.value.imageData == imageData && r.value.imageFormat == imageFormat && Valid(r.value)
    ensures r.Err? ==> r.error == ValueError(EmptyImageMessage)
  {
    // the second guard of the constructor (`len(image_data) == 0`) can never fire after the first
    if |imageData| == 0 then Err(ValueError(EmptyImageMessage)) else Ok(NoseImage(imageData, imageFormat))
  }

  /** The `size_bytes` property. */
  function SizeBytes(image: NoseImage): (n: nat)
    ensures Valid(image) ==> n >= 1
  {
    |image.imageData|
  }

  /** Whatever a constructed image was built from, its size is the byte count of that input. */
  lemma ConstructedSize(imageData: seq<byte>, imageFormat: Option<string>)
    requires NewNoseImage(imageData, imageFormat).Ok?
    ensures SizeBytes(NewNoseImage(imageData, imageFormat).value) == |imageData| >= 1
  {
  }
}

/** The Embedding value object (src/domain/entities/embedding.py). */
module Embeddings {
  import opened Exceptions
  import Text
  import SimilarityCalculator

  /** The element type `real` stands for the numbers `isinstance(v, (int, float))` accepts. */
  datatype Embedding = Embedding(vector: seq<real>)

  predicate Valid(e: Embedding)
  {
    |e.vector| > 0
  }

  const EmptyEmbeddingMessage := "embedding vector cannot be empty"

  /** `Embedding(vector)`: an empty vector raises ValueError; the numeric check is the element type. */
  function NewEmbedding(vector: seq<real>): (r: Result<Embedding>)
    ensures r.Ok? <==> |vector| > 0
    ensures r.Ok? ==> r.value.vector == vector && Valid(r.value) && Dimension(r.value) >= 1
    ensures r.Err? ==> r.error == ValueError(EmptyEmbeddingMessage)
  {
    if |vector| == 0 then Err(ValueError(EmptyEmbeddingMessage)) else Ok(Embedding(vector))
  }

  /** The `dimension` property. */
  function Dimension(e: Embedding): (n: nat)
    ensures Valid(e) ==> n >= 1
  {
    |e.vector|
  }

  function MismatchMessage(n: nat, m: nat): string
  {
    "dimension mismatch: " + Text.NatToString(n) + " vs " + Text.NatToString(m)
  }

  /** The two vectors' norms the division in `similarity` needs, when their dimensions agree. */
  predicate NormsNonZero(e: Embedding, other: Embedding)
  {
    |e.vector| == |other.vector| ==>
      SimilarityCalculator.SquaredNorm(e.vector) != 0.0 && SimilarityCalculator.SquaredNorm(other.vector) != 0.0
  }

  /**
   * `Embedding.similarity`: dot / (|a| |b|) straight from numpy, with no zero-norm guard
   * (a zero vector makes numpy divide by zero), so the caller must pass non-zero vectors.
   */
  function Similarity(e: Embedding, other: Embedding, sqrt: real -> real): (r: Result<real>)
    requires SimilarityCalculator.IsSqrt(sqrt)
    requires NormsNonZero(e, other)
    ensures r.Err? <==> Dimension(e) != Dimension(other)
    ensures r.Err? ==> r.error == ValueError(MismatchMessage(Dimension(e), Dimension(other)))
  {
    if Dimension(e) != Dimension(other) then Err(ValueError(MismatchMessage(Dimension(e), Dimension(other))))
    else
      var a, b := e.vector, other.vector;
      SquaredNormsGiveNonZeroNorms(a, b, sqrt);
      Ok(SimilarityCalculator.Dot(a, b)
         / (sqrt(SimilarityCalculator.SquaredNorm(a)) * sqrt(SimilarityCalculator.SquaredNorm(b))))
  }

  lemma SquaredNormsGiveNonZeroNorms(a: seq<real>, b: seq<real>, sqrt: real -> real)
    requires SimilarityCalculator.IsSqrt(sqrt)
    requires SimilarityCalculator.SquaredNorm(a) != 0.0 && SimilarityCalculator.SquaredNorm(b) != 0.0
    ensures sqrt(SimilarityCalculator.SquaredNorm(a)) * sqrt(SimilarityCalculator.SquaredNorm(b)) != 0.0
  {
    SimilarityCalculator.SquaredNormZero(a);
    SimilarityCalculator.SquaredNormZero(b);
    SimilarityCalculator.SqrtPositive(sqrt, SimilarityCalculator.SquaredNorm(a));
    SimilarityCalculator.SqrtPositive(sqrt, SimilarityCalculator.SquaredNorm(b));
    SimilarityCalculator.ProductPositive(sqrt(SimilarityCalculator.SquaredNorm(a)), sqrt(SimilarityCalculator.SquaredNorm(b)));
  }

  /**
   * Where both are defined, the entity's similarity and the calculator's cosine agree:
   * they differ only in the calculator's zero-magnitude guard and in the error message.
   */
  lemma SimilarityAgreesWithCalculator(e: Embedding, other: Embedding, sqrt: real -> real)
    requires SimilarityCalculator.IsSqrt(sqrt)
    requires Valid(e) && Valid(other) && NormsNonZero(e, other)
    ensures Similarity(e, other, sqrt).Ok? <==> SimilarityCalculator.CosineSimilarity(e.vector, other.vector, sqrt).Ok?
    ensures Similarity(e, other, sqrt).Ok? ==>
      Similarity(e, other, sqrt).value == SimilarityCalculator.CosineSimilarity(e.vector, other.vector, sqrt).value
  {
    if Dimension(e) == Dimension(other) {
      SquaredNormsGiveNonZeroNorms(e.vector, other.vector, sqrt);
      var a, b := e.vector, other.vector;
      var m1, m2 := sqrt(SimilarityCalculator.SquaredNorm(a)), sqrt(SimilarityCalculator.SquaredNorm(b));
      assert m1 != 0.0 && m2 != 0.0;
      SimilarityCalculator.CosineFormula(a, b, sqrt);
    }
  }
}
