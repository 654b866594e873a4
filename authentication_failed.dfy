/** `Api\Exception\AuthenticationFailedException`: an OAuth endpoint refused the credentials. */
module AuthenticationFailedException {
  import opened Wrappers
  import opened Entities

  const CodeInvalidResponseBody: int := 10

  /** The outbound PSR request and response, reduced to what identifies them. */
  datatype HttpRequest = HttpRequest(requestMethod: string, uri: string, body: string)
  datatype HttpResponse = HttpResponse(statusCode: int, body: string)

  /** A decoded JSON response body; `None` is a JSON null. */
  type ResponseBody = map<string, Option<string>>

  datatype AuthenticationFailed = AuthenticationFailed(
    message: string, code: int, previous: Option<Throwable>,
    httpRequest: HttpRequest, httpResponse: HttpResponse,
    errorCode: Option<string>, errorDescription: Option<string>)
  {
    /** `getErrorCode()`. */
    function GetErrorCode(): Option<string> {
      errorCode
    }

    /** `getErrorDescription()`. */
    function GetErrorDescription(): Option<string> {
      errorDescription
    }
  }

  /** PHP's `isset($body[$key])`: present and not null. */
  predicate IsSet(body: ResponseBody, key: string) {
    key in body && body[key].Some?
  }

  /** `forInvalidResponseBody`: fixed code and message, the request and response kept as
      given, and the provider's error code and description copied when the body sets them. */
  function ForInvalidResponseBody(body: ResponseBody, httpRequest: HttpRequest, httpResponse: HttpResponse,
                                  previous: Option<Throwable>): (e: AuthenticationFailed)
    ensures e.code == CodeInvalidResponseBody && e.message == "Authentication failed"
    ensures e.httpRequest == httpRequest && e.httpResponse == httpResponse && e.previous == previous
    ensures e.GetErrorCode().Some? <==> IsSet(body, "error")
    ensures IsSet(body, "error") ==> e.GetErrorCode() == body["error"]
    ensures e.GetErrorDescription().Some? <==> IsSet(body, "error_description")
    ensures IsSet(body, "error_description") ==> e.GetErrorDescription() == body["error_description"]
  {
    var errorCode := if IsSet(body, "error") then body["error"] else None;
    var errorDescription := if IsSet(body, "error_description") then body["error_description"] else None;
    AuthenticationFailed("Authentication failed", CodeInvalidResponseBody, previous,
                         httpRequest, httpResponse, errorCode, errorDescription)
  }

  /** A body of the form `{"error": c, "error_description": d, ...}` (either key may be
      missing or null) gives back exactly `c` and `d`, whatever other keys it has. */
  lemma ErrorFieldsRoundTrip(c: Option<string>, d: Option<string>, others: ResponseBody,
                             httpRequest: HttpRequest, httpResponse: HttpResponse, previous: Option<Throwable>)
    ensures var body := (others - {"error", "error_description"})["error" := c]["error_description" := d];
            var e := ForInvalidResponseBody(body, httpRequest, httpResponse, previous);
            e.GetErrorCode() == c && e.GetErrorDescription() == d
  {
  }
}
