/** Values shared by the three components: Python's optional arguments, the exceptions
    the library raises, and the result type its operations return. */
module Common {

  /** A Python argument that may be `None`. */
  datatype Option<+T> = None | Some(value: T)

  /** One variant per exception. `DnsFailure` stands for whatever the resolver raises
      (forward or reverse lookup); `RouteUnset` for the AttributeError that
      `HTTP.request` raises when `route` was never assigned. */
  datatype Error =
    | NoHostFound
    | NotInitialized
    | RequiredMissing
    | UnsupportedFormat
    | DnsFailure
    | RouteUnset

  /** Either the value an operation returns or the exception it raises. */
  datatype Result<+T> = Success(value: T) | Failure(error: Error)
}
