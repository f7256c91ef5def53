/** `BaseService._make_request`, reduced to what its callers see: the
    validated answer, or the subclass's fallback data. */
module Services {
  import opened Wrappers

  /** The ways the request can fail; each has its own handler in the source. */
  datatype FetchFailure =
    | HttpStatus(status: int)   // `ClientResponseError`, including 429
    | ClientFailure             // any other `aiohttp.ClientError`
    | ValidationFailure         // pydantic `ValidationError`
    | UnexpectedFailure         // any other exception

  /** The outcome of the HTTP request and of validating its answer. */
  datatype Fetch<+T> = Fetched(data: T) | FetchFailed(failure: FetchFailure)

  /** HTTP status that the source logs as rate limiting. */
  const RateLimited: int := 429

  /** `_make_request`: the validated data, or, on every failure, whatever
      building the fallback data yields (which may itself raise). */
  function MakeRequest<T>(fetch: Fetch<T>, fallback: Outcome<T>): (r: Outcome<T>)
    ensures fetch.Fetched? ==> r == Ok(fetch.data)
    ensures fetch.FetchFailed? ==> r == fallback
  {
    match fetch
    case Fetched(data) => Ok(data)
    case FetchFailed(_) => fallback
  }

  /** The kind of failure, a rate limit included, never changes the result. */
  lemma FailureKindIrrelevant<T>(f: FetchFailure, g: FetchFailure, fallback: Outcome<T>)
    ensures MakeRequest(FetchFailed(f), fallback) == MakeRequest(FetchFailed(g), fallback)
    ensures MakeRequest(FetchFailed(HttpStatus(RateLimited)), fallback) == fallback
  {
  }
}
