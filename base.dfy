/** Small wrapper types shared by every module of the storefront model. */
module Base {

  /** An optional value: a JavaScript value that may be null. */
  datatype Option<+T> = None | Some(value: T)

  /** How an awaited network call ends: the promise resolves with the
      response data, or it rejects (transport failure, a non-2xx status). */
  datatype Outcome<+T> = Resolved(value: T) | Rejected
}
