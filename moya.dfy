/**
 * The values of the Moya and Alamofire networking libraries that the classification code
 * inspects. The libraries themselves (request encoding, sessions, JSON serialisation) are
 * not modelled; a response carries the outcome of parsing its body as JSON.
 */
module Moya {
  import opened Wrappers
  import opened Foundation

  /** A JSON value as SwiftyJSON sees it; only strings are told apart by the modelled code. */
  datatype JsonValue = JsonString(text: string) | JsonNonString

  /**
   * The outcome of `Response.mapJSON(failsOnEmptyData: false)`: a top-level JSON object,
   * any other JSON value (including the null an empty body gives), or a parse failure.
   */
  datatype ParsedJson = JsonObject(fields: map<string, JsonValue>) | JsonOther | JsonInvalid

  /** `Moya.Response`. */
  datatype Response = Response(statusCode: int, data: Data, json: ParsedJson)

  /** `AFError`: only `sessionTaskFailed`, which wraps the session's own error, is told apart. */
  datatype AFError = SessionTaskFailed(error: NSError) | OtherAFError

  /**
   * The error inside `MoyaError.underlying`: its `NSError` bridging, and `asAFError`, which
   * is present when the error is an Alamofire error.
   */
  datatype UnderlyingError = UnderlyingError(bridged: NSError, asAFError: Option<AFError>)

  /**
   * `MoyaError`: `statusCode` and `underlying` are told apart; every other case
   * (the mapping and encoding failures) is `OtherMoyaError`.
   */
  datatype MoyaError =
    | StatusCode(response: Response)
    | Underlying(error: UnderlyingError, underlyingResponse: Option<Response>)
    | OtherMoyaError(description: string)

  /** SwiftyJSON's `json[field].string`: the field's value when it is a string, else nil. */
  function StringField(json: ParsedJson, field: string): (r: Option<string>)
    ensures r.Some? <==> json.JsonObject? && field in json.fields && json.fields[field].JsonString?
    ensures r.Some? ==> json.fields[field] == JsonString(r.value)
  {
    if json.JsonObject? && field in json.fields && json.fields[field].JsonString? then
      Some(json.fields[field].text)
    else None
  }
}
