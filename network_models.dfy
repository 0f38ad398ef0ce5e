/**
 * `TxResponseError` and its three enumerations: the error vocabulary shared by the
 * networking layer, the API client and the alerts.
 */
module NetworkModels {
  import opened Wrappers
  import opened Foundation
  import Moya

  /** `NetworkErrorType`. */
  datatype NetworkErrorType = NoNetworkConnection | RequestTimeout | Unknown

  /** `ErrorType`. */
  datatype ErrorType = Network(sub: NetworkErrorType) | Server | Decoding | Unknown

  /** `AlertActionNetworkError`: what the user chose in an error alert. */
  datatype AlertActionNetworkError = Retry | Cancel

  /**
   * `TxResponseError`. The constructor's defaults are those of the Swift initialiser: every
   * field but `errorType` is nil unless given. `otherError` holds the `MoyaError` that caused
   * the error, the only kind of error the networking layer stores there.
   */
  datatype ResponseError = ResponseError(
    errorType: ErrorType,
    message: Option<string> := None,
    key: Option<string> := None,
    responseCode: Option<int> := None,
    errorCode: Option<int> := None,
    responseData: Option<Data> := None,
    otherError: Option<Moya.MoyaError> := None,
    debugDescription: Option<string> := None)

  /**
   * An error thrown by an `async throws` call that the networking code inspects: either a
   * `TxResponseError` or some other error, of type `E`.
   */
  datatype Thrown<E> = ResponseFailure(error: ResponseError) | OtherFailure(other: E)

  /** Only the error type is required: the initialiser stores it and leaves the rest nil. */
  lemma InitDefaults(t: ErrorType)
    ensures ResponseError(t) == ResponseError(t, None, None, None, None, None, None, None)
    ensures ResponseError(t).errorType == t
  {
  }

  /** The enumerations have exactly the cases listed, each distinct from the others. */
  lemma EnumerationsExact(t: ErrorType, n: NetworkErrorType, a: AlertActionNetworkError)
    ensures t.Network? || t == Server || t == Decoding || t == ErrorType.Unknown
    ensures n == NoNetworkConnection || n == RequestTimeout || n == NetworkErrorType.Unknown
    ensures a == Retry || a == Cancel
    ensures |{Server, Decoding, ErrorType.Unknown, Network(n)}| == 4
  {
  }
}
