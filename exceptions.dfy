/**
 * The exceptions the pipeline raises, as one value type.
 *
 * The four domain kinds of src/domain/exceptions/base.py keep the message and the
 * code they were built with, and InferenceError keeps the error it wraps. The
 * builtin exceptions that reach the service boundary (ValueError from a value
 * object or the similarity calculator, IndexError from an empty list, and bare
 * `Exception`s the use cases raise) are kept apart: they are not domain kinds.
 * A call that "returns or raises" returns a `Result`.
 */
module Exceptions {
  import opened Wrappers

  const DefaultDomainCode := "DOMAIN_ERROR"
  const ModelNotLoadedCode := "MODEL_NOT_LOADED"
  const InferenceErrorCode := "INFERENCE_ERROR"
  const InvalidImageCode := "INVALID_IMAGE"
  const DefaultModelNotLoadedMessage := "model is not loaded"

  datatype Error =
    | ValueError(message: string)
    | IndexError(message: string)
    | PlainException(message: string)
    | DomainException(message: string, code: string)
    | ModelNotLoadedError(message: string)
    | InferenceError(message: string, originalError: Option<Error>)
    | InvalidImageError(message: string)
  {
    /** `isinstance(e, DomainException)`: the base class and its three subclasses. */
    predicate IsDomain()
    {
      DomainException? || ModelNotLoadedError? || InferenceError? || InvalidImageError?
    }

    /** The `code` attribute, fixed by each subclass's constructor. */
    function Code(): (c: string)
      requires IsDomain()
      ensures ModelNotLoadedError? ==> c == ModelNotLoadedCode
      ensures InferenceError? ==> c == InferenceErrorCode
      ensures InvalidImageError? ==> c == InvalidImageCode
      ensures DomainException? ==> c == code
    {
      match this
      case DomainException(_, code) => code
      case ModelNotLoadedError(_) => ModelNotLoadedCode
      case InferenceError(_, _) => InferenceErrorCode
      case InvalidImageError(_) => InvalidImageCode
    }
  }

  /** `DomainException(message, code="DOMAIN_ERROR")`. */
  function NewDomainException(message: string, code: Option<string>): (e: Error)
    ensures e.IsDomain() && e.message == message
    ensures e.Code() == if code.Some? then code.value else DefaultDomainCode
  {
    DomainException(message, code.GetOr(DefaultDomainCode))
  }

  /** `ModelNotLoadedError(message="...")`. */
  function NewModelNotLoadedError(message: Option<string>): (e: Error)
    ensures e.IsDomain() && e.Code() == ModelNotLoadedCode
    ensures e.message == if message.Some? then message.value else DefaultModelNotLoadedMessage
  {
    ModelNotLoadedError(message.GetOr(DefaultModelNotLoadedMessage))
  }

  /** An error built with one of the three subclass constructors. */
  predicate IsSubclassKind(e: Error)
  {
    e.ModelNotLoadedError? || e.InferenceError? || e.InvalidImageError?
  }

  /** The three subclass codes are pairwise different, so the code names the subclass. */
  lemma SubclassCodeDeterminesKind(e1: Error, e2: Error)
    requires IsSubclassKind(e1) && IsSubclassKind(e2)
    requires e1.Code() == e2.Code()
    ensures e1.ModelNotLoadedError? <==> e2.ModelNotLoadedError?
    ensures e1.InferenceError? <==> e2.InferenceError?
    ensures e1.InvalidImageError? <==> e2.InvalidImageError?
  {
  }

  /** What a Python call produces: a value, or the exception it raises. */
  datatype Result<+T> = Ok(value: T) | Err(error: Error) {

    predicate IsFailure()
    {
      Err?
    }

    function PropagateFailure<U>(): Result<U>
      requires Err?
    {
      Err(error)
    }

    function Extract(): T
      requires Ok?
    {
      value
    }
  }
}
