/** The success-or-failure value of the Blazor SSR client (`Result<T>`),
    with the error type its API calls report (`ApiError`). */
module Results {
  import opened Strings

  /** `ApiError`: an RFC 9457 problem-details summary. */
  datatype ApiError = ApiError(status: int, title: string, detail: Option<string>, errorCode: Option<string>)

  /** `Result<T>`. `value` and `error` are nullable: a success may hold a
      null value, and a failure holds the default value. */
  datatype Result<T> = Result(isFailure: bool, value: Option<T>, error: Option<ApiError>)

  /** `IsSuccess => !IsFailure`: exactly one of the two holds. */
  predicate IsSuccess<T>(r: Result<T>): (b: bool)
    ensures b != r.isFailure
  {
    !r.isFailure
  }

  /** `Success(value)`; `value` may itself be null. */
  function Success<T>(value: Option<T>): (r: Result<T>)
    ensures IsSuccess(r) && r.value == value && r.error == None
  {
    Result(false, value, None)
  }

  /** `Failure(error)`. */
  function Failure<T>(error: ApiError): (r: Result<T>)
    ensures !IsSuccess(r) && r.value == None && r.error == Some(error)
  {
    Result(true, None, Some(error))
  }

  /** `Fold`: `onSuccess` of the value for a success holding a non-null
      value; `onFailure` of the (possibly null) error otherwise. */
  function Fold<T, R>(r: Result<T>, onSuccess: T -> R, onFailure: Option<ApiError> -> R): (x: R)
    ensures IsSuccess(r) && r.value.Some? ==> x == onSuccess(r.value.value)
    ensures !(IsSuccess(r) && r.value.Some?) ==> x == onFailure(r.error)
  {
    if IsSuccess(r) && r.value.Some? then onSuccess(r.value.value) else onFailure(r.error)
  }

  /** Folding a success applies `onSuccess`, folding a failure applies
      `onFailure` to its error. */
  lemma FoldOfConstructors<T, R>(v: T, e: ApiError, onSuccess: T -> R, onFailure: Option<ApiError> -> R)
    ensures Fold(Success(Some(v)), onSuccess, onFailure) == onSuccess(v)
    ensures Fold(Failure<T>(e), onSuccess, onFailure) == onFailure(Some(e))
  {
  }

  /** A success holding null falls to `onFailure`, with a null error. */
  lemma FoldOfNullSuccess<T, R>(onSuccess: T -> R, onFailure: Option<ApiError> -> R)
    ensures Fold(Success<T>(None), onSuccess, onFailure) == onFailure(None)
  {
  }
}
