/**
 * CompareWithStoredImageUseCase (src/application/use_cases/compare_with_stored_image.py).
 *
 * The image fetch and the vector fetch are functions from a key to "found", "not found"
 * (`None`) or a raised error; the vector store's own rules are in `VectorStorage`.
 */
module CompareWithStoredImageUseCase {
  import opened Wrappers
  import opened Exceptions
  import opened Bytes
  import opened NoseImages
  import opened Embeddings
  import opened ModelRepository
  import opened SimilarityCalculator
  import opened Dto
  import Text

  const ImageNotFoundPrefix := "image not found: "

  function VectorNotFoundMessage(petDid: string): string
  {
    "no vector found for PetDID '" + petDid + "'"
  }

  const MismatchPrefix := "vector dimensions do not match: new image="
  const MismatchSeparator := ", stored vector="

  /** The mismatch message, naming the new vector's length and then the stored one's. */
  function DimensionMismatchMessage(newSize: nat, storedSize: nat): string
  {
    MismatchPrefix + Text.NatToString(newSize) + MismatchSeparator + Text.NatToString(storedSize)
  }

  /** The two lengths can be read back from the mismatch message. */
  lemma DimensionMismatchMessageNamesSizes(n1: nat, m1: nat, n2: nat, m2: nat)
    requires DimensionMismatchMessage(n1, m1) == DimensionMismatchMessage(n2, m2)
    ensures n1 == n2 && m1 == m2
  {
    assert MismatchSeparator[0] == ',';
    TwoNumbersRecoverable(MismatchPrefix, MismatchSeparator, n1, m1, n2, m2);
  }

  /** In `prefix + n + separator + m`, with a separator that starts with a non-digit, n and m are determined. */
  lemma TwoNumbersRecoverable(prefix: string, separator: string, n1: nat, m1: nat, n2: nat, m2: nat)
    requires |separator| > 0 && !('0' <= separator[0] <= '9')
    requires prefix + Text.NatToString(n1) + separator + Text.NatToString(m1) ==
             prefix + Text.NatToString(n2) + separator + Text.NatToString(m2)
    ensures n1 == n2 && m1 == m2
  {
    SeparatedDigits(prefix, separator, Text.NatToString(n1), Text.NatToString(m1),
                    Text.NatToString(n2), Text.NatToString(m2));
    Text.NatToStringInjective(n1, n2);
    Text.NatToStringInjective(m1, m2);
  }

  /** `prefix + a + separator + b` determines the digit string `a`, and then `b`. */
  lemma SeparatedDigits(prefix: string, separator: string, a: string, b: string, c: string, d: string)
    requires forall i :: 0 <= i < |a| ==> '0' <= a[i] <= '9'
    requires forall i :: 0 <= i < |c| ==> '0' <= c[i] <= '9'
    requires |separator| > 0 && !('0' <= separator[0] <= '9')
    requires prefix + a + separator + b == prefix + c + separator + d
    ensures a == c && b == d
  {
    var s := prefix + a + separator + b;
    assert prefix + a + (separator + b) == s;
    assert prefix + c + (separator + d) == s;
    assert (separator + b)[0] == separator[0];
    assert (separator + d)[0] == separator[0];
    DigitsThenSeparator(prefix, a, separator + b, c, separator + d);
    var k := |prefix + a + separator|;
    assert b == s[k..];
    assert d == (prefix + c + separator + d)[k..];
  }

  /** Of two digit strings each followed by a non-digit, after the same prefix, the two digit strings agree. */
  lemma DigitsThenSeparator(prefix: string, a: string, restA: string, c: string, restC: string)
    requires forall i :: 0 <= i < |a| ==> '0' <= a[i] <= '9'
    requires forall i :: 0 <= i < |c| ==> '0' <= c[i] <= '9'
    requires |restA| > 0 && |restC| > 0 && !('0' <= restA[0] <= '9') && !('0' <= restC[0] <= '9')
    requires prefix + a + restA == prefix + c + restC
    ensures a == c
  {
    var s := prefix + a + restA;
    assert a + restA == s[|prefix|..];
    assert c + restC == s[|prefix|..];
    var k := 0;
    while k < |a| && k < |c|
      invariant 0 <= k <= |a| && 0 <= k <= |c|
      invariant a[..k] == c[..k]
    {
      assert a[k] == (a + restA)[k] == (c + restC)[k] == c[k];
      k := k + 1;
    }
    assert (a + restA)[k] == (c + restC)[k];
    assert |a| == |c|;
    assert a == a[..k] && c == c[..k];
  }

  /** `execute(image_key, pet_did)`. */
  function Execute(repository: ModelPort,
                   fetchImage: string -> Result<Option<seq<byte>>>,
                   fetchVector: string -> Result<Option<seq<real>>>,
                   sqrt: real -> real, imageKey: string, petDid: string): (r: Result<SimilarityDto>)
    ensures fetchImage(imageKey).Err? ==> r == Err(fetchImage(imageKey).error)
    ensures fetchImage(imageKey) == Ok(None) ==> r == Err(PlainException(ImageNotFoundPrefix + imageKey))
    ensures fetchImage(imageKey) == Ok(Some([])) ==> r == Err(InvalidImageError(EmptyImageMessage))
    ensures r.Ok? ==>
      && fetchImage(imageKey).Ok? && fetchImage(imageKey).value.Some?
      && repository.extractEmbedding(NoseImage(fetchImage(imageKey).value.value, None)).Ok?
      && fetchVector(petDid).Ok? && fetchVector(petDid).value.Some?
      && var scores := NormalizedSimilarity(
           repository.extractEmbedding(NoseImage(fetchImage(imageKey).value.value, None)).value.vector,
           fetchVector(petDid).value.value, sqrt);
      scores.Ok? &&
      r.value == SimilarityDto(scores.value.similarity, scores.value.cosine, scores.value.euclidean,
                               |fetchVector(petDid).value.value|, true, None)
  {
    var imageData :- fetchImage(imageKey);
    if imageData.None? then Err(PlainException(ImageNotFoundPrefix + imageKey))
    else
      match NewNoseImage(imageData.value, None)
      case Err(e) => Err(InvalidImageError(e.message))
      case Ok(noseImage) =>
        var newEmbedding :- repository.extractEmbedding(noseImage);
        var newVector := newEmbedding.vector;
        var storedVector :- fetchVector(petDid);
        if storedVector.None? then Err(PlainException(VectorNotFoundMessage(petDid)))
        else if |newVector| != |storedVector.value| then
          Err(PlainException(DimensionMismatchMessage(|newVector|, |storedVector.value|)))
        else
          match NormalizedSimilarity(newVector, storedVector.value, sqrt)
          case Err(e) => Err(e)
          case Ok(scores) =>
            Ok(SimilarityDto(scores.similarity, scores.cosine, scores.euclidean, |newVector|, true, None))
  }

  /** The embedding the repository gives for the fetched image, when there is one. */
  predicate Extracted(repository: ModelPort, fetchImage: string -> Result<Option<seq<byte>>>, imageKey: string,
                      newVector: seq<real>)
  {
    && fetchImage(imageKey).Ok? && fetchImage(imageKey).value.Some? && |fetchImage(imageKey).value.value| > 0
    && repository.extractEmbedding(NoseImage(fetchImage(imageKey).value.value, None)) == Ok(Embedding(newVector))
  }

  /** Without an image (missing or empty) neither the repository nor the vector store is consulted. */
  lemma NoImageSkipsRest(repository: ModelPort, otherRepository: ModelPort,
                         fetchImage: string -> Result<Option<seq<byte>>>,
                         fetchVector: string -> Result<Option<seq<real>>>, otherFetchVector: string -> Result<Option<seq<real>>>,
                         sqrt: real -> real, imageKey: string, petDid: string)
    requires fetchImage(imageKey).Err? || fetchImage(imageKey) == Ok(None) || fetchImage(imageKey) == Ok(Some([]))
    ensures Execute(repository, fetchImage, fetchVector, sqrt, imageKey, petDid) ==
            Execute(otherRepository, fetchImage, otherFetchVector, sqrt, imageKey, petDid)
  {
  }

  /** A failed extraction is returned as it is, and the vector store is then not consulted. */
  lemma ExtractionErrorPropagates(repository: ModelPort,
                                  fetchImage: string -> Result<Option<seq<byte>>>,
                                  fetchVector: string -> Result<Option<seq<real>>>, otherFetchVector: string -> Result<Option<seq<real>>>,
                                  sqrt: real -> real, imageKey: string, petDid: string)
    requires fetchImage(imageKey).Ok? && fetchImage(imageKey).value.Some? && |fetchImage(imageKey).value.value| > 0
    requires repository.extractEmbedding(NoseImage(fetchImage(imageKey).value.value, None)).Err?
    ensures Execute(repository, fetchImage, fetchVector, sqrt, imageKey, petDid) ==
            Err(repository.extractEmbedding(NoseImage(fetchImage(imageKey).value.value, None)).error)
    ensures Execute(repository, fetchImage, fetchVector, sqrt, imageKey, petDid) ==
            Execute(repository, fetchImage, otherFetchVector, sqrt, imageKey, petDid)
  {
  }

  /** After an extraction: a missing stored vector, then a length mismatch, are plain Exceptions, in that order. */
  lemma StoredVectorChecks(repository: ModelPort,
                           fetchImage: string -> Result<Option<seq<byte>>>,
                           fetchVector: string -> Result<Option<seq<real>>>,
                           sqrt: real -> real, imageKey: string, petDid: string, newVector: seq<real>)
    requires Extracted(repository, fetchImage, imageKey, newVector)
    ensures fetchVector(petDid).Err? ==>
      Execute(repository, fetchImage, fetchVector, sqrt, imageKey, petDid) == Err(fetchVector(petDid).error)
    ensures fetchVector(petDid) == Ok(None) ==>
      Execute(repository, fetchImage, fetchVector, sqrt, imageKey, petDid) == Err(PlainException(VectorNotFoundMessage(petDid)))
    ensures fetchVector(petDid).Ok? && fetchVector(petDid).value.Some? && |fetchVector(petDid).value.value| != |newVector| ==>
      Execute(repository, fetchImage, fetchVector, sqrt, imageKey, petDid) ==
        Err(PlainException(DimensionMismatchMessage(|newVector|, |fetchVector(petDid).value.value|)))
  {
  }

  /**
   * With a non-empty new vector (every Embedding has one) and a stored vector of the same
   * length, the comparison succeeds with `normalized_similarity(new, stored)`, in that order.
   */
  lemma ComparisonSucceeds(repository: ModelPort,
                           fetchImage: string -> Result<Option<seq<byte>>>,
                           fetchVector: string -> Result<Option<seq<real>>>,
                           sqrt: real -> real, imageKey: string, petDid: string,
                           newVector: seq<real>, storedVector: seq<real>)
    requires Extracted(repository, fetchImage, imageKey, newVector) && |newVector| > 0
    requires fetchVector(petDid) == Ok(Some(storedVector)) && |storedVector| == |newVector|
    ensures var r := Execute(repository, fetchImage, fetchVector, sqrt, imageKey, petDid);
      var scores := NormalizedSimilarity(newVector, storedVector, sqrt);
      r.Ok? && scores.Ok? &&
      r.value == SimilarityDto(scores.value.similarity, scores.value.cosine, scores.value.euclidean, |newVector|, true, None)
  {
  }

  /** A successful comparison reports a similarity in [0, 1], a cosine in [-1, 1] and a distance of at least 0. */
  lemma ComparisonRanges(repository: ModelPort,
                         fetchImage: string -> Result<Option<seq<byte>>>,
                         fetchVector: string -> Result<Option<seq<real>>>,
                         sqrt: real -> real, imageKey: string, petDid: string)
    requires IsSqrt(sqrt)
    requires Execute(repository, fetchImage, fetchVector, sqrt, imageKey, petDid).Ok?
    ensures var d := Execute(repository, fetchImage, fetchVector, sqrt, imageKey, petDid).value;
      0.0 <= d.similarity <= 1.0 && -1.0 <= d.cosineSimilarity <= 1.0 && d.euclideanDistance >= 0.0 &&
      d.success && d.errorMessage.None? && d.vectorSize >= 1
  {
    var newVector := repository.extractEmbedding(NoseImage(fetchImage(imageKey).value.value, None)).value.vector;
    NormalizedRanges(newVector, fetchVector(petDid).value.value, sqrt);
  }
}
