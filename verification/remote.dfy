/**
 The parameter store as the cache sees it. The store itself is not modelled:
 every lookup that misses the cache is handed the answer the store would give
 to that one request, so a store that answers differently from one request to
 the next is covered as well.
 */
module Remote {

  /** Whatever the store client reports instead of a value: a missing
      parameter, a denied request, a transport failure. */
  datatype FetchError = FetchError(reason: string)

  /** One stored parameter as returned by a path query: its full name and its
      decrypted value. */
  datatype Param = Param(name: string, value: string)

  /** The answer to one remote request. */
  datatype Response<+T> = Found(value: T) | Failed(error: FetchError)
}
