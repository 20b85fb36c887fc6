/**
 Classification of a failed attempt. The retry loop only asks whether the
 failure exposes a status code and, if so, whether that code is one of the
 configured retryable codes.
 */
module Classifier {
  import opened Options

  /** A failure raised by an attempt; `code` is `None` for failures that expose
      no status code at all. Status codes are any type with equality. */
  datatype Failure<C> = Failure(code: Option<C>, message: string)

  /** The three ways the retry loop treats a failure. */
  datatype Class<C> = Foreign | NonRetryable(code: C) | Retryable(code: C)

  /** Classifies `f` against the set of retryable codes. */
  function Classify<C(==)>(f: Failure<C>, retryCodes: set<C>): (k: Class<C>)
    ensures k.Foreign? <==> f.code.None?
    ensures k.Retryable? <==> f.code.Some? && f.code.value in retryCodes
    ensures !k.Foreign? ==> f.code == Some(k.code)
  {
    match f.code
    case None => Foreign
    case Some(c) => if c in retryCodes then Retryable(c) else NonRetryable(c)
  }

  /** `f` is a failure the loop retries. */
  predicate IsRetryable<C(==)>(f: Failure<C>, retryCodes: set<C>)
  {
    f.code.Some? && f.code.value in retryCodes
  }
}
