/** Optional values and the outcome of a call into the cluster's API or caches. */
module Results {
  datatype Option<+T> = None | Some(value: T)

  /** `Fetched` when the call succeeded, `FetchFailed` when it returned an error other than NotFound. */
  datatype Fetch<+T> = Fetched(value: T) | FetchFailed

  /** Errors a create call can return. */
  datatype ApiError = AlreadyExists | Transient
}
