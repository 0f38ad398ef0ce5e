/**
 * `MoyaProvider.performRequest(target:)`: turns the transport's outcome into the response's
 * data or a `TxResponseError`, and `makeResponseError`, which reads the `key` and `message`
 * fields of an error response's JSON body.
 */
module MoyaProviderExt {
  import opened Wrappers
  import opened Foundation
  import opened Moya
  import opened NetworkModels

  /** `makeResponseError(response:)`: always a server error carrying the status code. */
  function MakeResponseError(response: Response): (e: ResponseError)
    ensures e.errorType == Server
    ensures e.responseCode == Some(response.statusCode) && e.responseData == Some(response.data)
    ensures e.errorCode == None && e.otherError == None && e.debugDescription == None
    ensures e.key == StringField(response.json, "key")
    ensures e.message == StringField(response.json, "message")
  {
    var code := Some(response.statusCode);
    var data := Some(response.data);
    if response.json.JsonInvalid? then
      // `mapJSON` threw: the catch block
      ResponseError(Server, responseCode := code, responseData := data)
    else
      var json := response.json;
      if StringField(json, "key").Some? then
        ResponseError(Server, message := StringField(json, "message"),
                      key := Some(StringField(json, "key").value), responseCode := code, responseData := data)
      else if StringField(json, "message").Some? then
        ResponseError(Server, message := Some(StringField(json, "message").value),
                      key := None, responseCode := code, responseData := data)
      else
        ResponseError(Server, responseCode := code, responseData := data)
  }

  /** The `NSError` whose domain and code are tested: a `sessionTaskFailed` is unwrapped first. */
  function InspectedError(u: UnderlyingError): (n: NSError)
    ensures u.asAFError.Some? && u.asAFError.value.SessionTaskFailed? ==> n == u.asAFError.value.error
    ensures !(u.asAFError.Some? && u.asAFError.value.SessionTaskFailed?) ==> n == u.bridged
  {
    match u.asAFError
    case Some(SessionTaskFailed(inner)) => inner
    case _ => u.bridged
  }

  /** The network error kind of an underlying error, by its domain and then its code. */
  function NetworkKind(n: NSError): (t: NetworkErrorType)
    ensures t == NoNetworkConnection <==> n.domain == NSURLErrorDomain && n.code == NSURLErrorNotConnectedToInternet
    ensures t == RequestTimeout <==> n.domain == NSURLErrorDomain && n.code == NSURLErrorTimedOut
    ensures n.domain != NSURLErrorDomain ==> t == NetworkErrorType.Unknown
  {
    if n.domain != NSURLErrorDomain then NetworkErrorType.Unknown
    else if n.code == NSURLErrorNotConnectedToInternet then NoNetworkConnection
    else if n.code == NSURLErrorTimedOut then RequestTimeout
    else NetworkErrorType.Unknown
  }

  /** The status code of an optional response, `response?.statusCode`. */
  function StatusCodeOf(response: Option<Response>): Option<int> {
    match response
    case None => None
    case Some(r) => Some(r.statusCode)
  }

  /** The error thrown for a `MoyaError`. */
  function ClassifyFailure(err: MoyaError): (e: ResponseError)
    ensures err.StatusCode? ==> e == MakeResponseError(err.response)
    ensures err.Underlying? ==>
      e.errorType == Network(NetworkKind(InspectedError(err.error)))
      && e.message == Some("") && e.key == Some("")
      && e.responseCode == StatusCodeOf(err.underlyingResponse)
      && e.otherError == Some(err) && e.responseData == None
      && e.errorCode == None && e.debugDescription == None
    ensures err.OtherMoyaError? ==>
      e.errorType == Server && e.responseCode == None
      && e.message == Some("") && e.key == Some("") && e.otherError == Some(err)
      && e.responseData == None && e.errorCode == None && e.debugDescription == None
  {
    match err
    case StatusCode(response) => MakeResponseError(response)
    case Underlying(u, response) =>
      ResponseError(Network(NetworkKind(InspectedError(u))), message := Some(""), key := Some(""),
                    responseCode := StatusCodeOf(response), otherError := Some(err))
    case OtherMoyaError(_) =>
      ResponseError(Server, message := Some(""), key := Some(""), responseCode := None, otherError := Some(err))
  }

  /** `performRequest(target:)`, given the transport's outcome. */
  function PerformRequest(result: Result<Response, MoyaError>): (r: Result<Data, ResponseError>)
    ensures r.Success? <==> result.Success? && 200 <= result.value.statusCode <= 299
    ensures r.Success? ==> r.value == result.value.data
    ensures result.Success? && r.Failure? ==> r.error == MakeResponseError(result.value)
    ensures result.Failure? ==> r == Failure(ClassifyFailure(result.error))
  {
    match result
    case Success(response) =>
      if 200 <= response.statusCode <= 299 then Success(response.data)
      else Failure(MakeResponseError(response))
    case Failure(err) => Failure(ClassifyFailure(err))
  }

  /**
   * The typed `performRequest(target:decoder:)`: `decode` is the `JSONDecoder`; its error is
   * thrown as it is.
   */
  function PerformDecodedRequest<T, E>(result: Result<Response, MoyaError>, decode: Data -> Result<T, E>)
    : (r: Result<T, Thrown<E>>)
    ensures PerformRequest(result).Failure? ==> r == Failure(ResponseFailure(PerformRequest(result).error))
    ensures PerformRequest(result).Success? ==>
      var decoded := decode(PerformRequest(result).value);
      r == match decoded
           case Success(v) => Success(v)
           case Failure(d) => Failure(OtherFailure(d))
  {
    match PerformRequest(result)
    case Failure(e) => Failure(ResponseFailure(e))
    case Success(data) =>
      match decode(data)
      case Success(v) => Success(v)
      case Failure(d) => Failure(OtherFailure(d))
  }

  /**
   * The key and message cases of `makeResponseError`: a string `key` brings the (possibly
   * nil) `message`; a `message` alone leaves the key nil; otherwise, or when the body is not
   * JSON, both are nil.
   */
  lemma MakeResponseErrorCases(response: Response, k: string, m: string)
    ensures StringField(response.json, "key") == Some(k) ==>
      MakeResponseError(response).key == Some(k)
      && MakeResponseError(response).message == StringField(response.json, "message")
    ensures StringField(response.json, "key").None? && StringField(response.json, "message") == Some(m) ==>
      MakeResponseError(response).key == None && MakeResponseError(response).message == Some(m)
    ensures response.json.JsonInvalid? ==>
      MakeResponseError(response).key == None && MakeResponseError(response).message == None
  {
  }

  /**
   * A `statusCode` failure and a delivered non-2xx response with the same response are
   * reported the same way.
   */
  lemma StatusCodeFailureAgrees(response: Response)
    requires !(200 <= response.statusCode <= 299)
    ensures PerformRequest(Failure(StatusCode(response))) == PerformRequest(Success(response))
  {
  }

  /** The classification never produces `.decoding` or `.unknown`. */
  lemma NeverDecodingOrUnknown(result: Result<Response, MoyaError>)
    ensures PerformRequest(result).Failure? ==>
      PerformRequest(result).error.errorType != Decoding
      && PerformRequest(result).error.errorType != ErrorType.Unknown
  {
  }

  /** A failed session task is classified by the error it wraps, not by the Alamofire error. */
  lemma SessionTaskFailedUnwrapped(bridged: NSError, inner: NSError, response: Option<Response>)
    ensures var err := Underlying(UnderlyingError(bridged, Some(SessionTaskFailed(inner))), response);
            ClassifyFailure(err).errorType == Network(NetworkKind(inner))
  {
  }

  /** Examples: the two recognised codes, an unrecognised one and a foreign domain. */
  lemma UnderlyingExamples(response: Option<Response>)
    ensures ClassifyFailure(Underlying(UnderlyingError(NSError(NSURLErrorDomain, -1009), None), response)).errorType
      == Network(NoNetworkConnection)
    ensures ClassifyFailure(Underlying(UnderlyingError(NSError(NSURLErrorDomain, -1001), None), response)).errorType
      == Network(RequestTimeout)
    ensures ClassifyFailure(Underlying(UnderlyingError(NSError(NSURLErrorDomain, -1005), None), response)).errorType
      == Network(NetworkErrorType.Unknown)
    ensures ClassifyFailure(Underlying(UnderlyingError(NSError("Other", -1009), None), response)).errorType
      == Network(NetworkErrorType.Unknown)
  {
  }

  /** A decoder failure reaches the caller as a non-`TxResponseError`, not as `.decoding`. */
  lemma DecodeFailureNotWrapped<T, E>(result: Result<Response, MoyaError>, decode: Data -> Result<T, E>)
    requires PerformRequest(result).Success? && decode(PerformRequest(result).value).Failure?
    ensures PerformDecodedRequest(result, decode) == Failure(OtherFailure(decode(PerformRequest(result).value).error))
  {
  }
}
