/** The error taxonomy of the pylon-api gem (`Pylon::Error` and its four
    subclasses), the Ruby built-in exceptions the client can raise besides them,
    and the outcome of a Ruby call: a value, a raised exception, or a result the
    model cannot determine because it depends on a Hash's entry order. */
module Errors {
  import opened JsonValue
  import opened Http

  /** A raised exception. Messages are Ruby objects, so they are kept as JSON values.
      `ArgumentError`, `NoMethodError` and `TypeError` are Ruby's own classes. */
  datatype Exception =
    | Error(message: Json)
    | AuthenticationError(message: Json)
    | ResourceNotFoundError(message: Json)
    | ValidationError(message: Json)
    | ApiError(message: Json, response: Option<Response>)
    | ArgumentError(message: Json)
    | NoMethodError(methodName: string)
    | TypeError(message: Json)

  /** `e.is_a?(Pylon::Error)`: the base class and its four subclasses. */
  predicate IsPylonError(e: Exception) {
    e.Error? || e.AuthenticationError? || e.ResourceNotFoundError? || e.ValidationError? || e.ApiError?
  }

  /** The response an exception exposes: only `ApiError` has the `response` reader. */
  function ResponseOf(e: Exception): Option<Response> {
    if e.ApiError? then e.response else None
  }

  /** `ApiError.new(message = nil, response = nil)`. */
  function NewApiError(message: Json := JNull, response: Option<Response> := None): (e: Exception)
    ensures IsPylonError(e) && e.ApiError?
    ensures e.message == message && ResponseOf(e) == response
  {
    ApiError(message, response)
  }

  /** The outcome of a Ruby call. `Unordered(entries)` stands for a result Ruby builds
      from a Hash's entries in insertion order, which unordered maps do not record. */
  datatype Outcome<+T> = Ok(value: T) | Raise(error: Exception) | Unordered(entries: map<string, Json>)

  /** The four subclasses are kinds of `Pylon::Error`; Ruby's own exceptions are not. */
  lemma TaxonomyKinds(m: Json, r: Option<Response>)
    ensures IsPylonError(AuthenticationError(m)) && IsPylonError(ResourceNotFoundError(m))
    ensures IsPylonError(ValidationError(m)) && IsPylonError(ApiError(m, r))
    ensures !IsPylonError(ArgumentError(m)) && !IsPylonError(TypeError(m))
  {
  }

  /** Only an `ApiError` can expose a response, and an `ApiError` built without one
      exposes nil. */
  lemma OnlyApiErrorCarriesResponse(e: Exception, m: Json)
    ensures ResponseOf(e).Some? ==> e.ApiError?
    ensures ResponseOf(NewApiError(m)) == None
  {
  }
}
