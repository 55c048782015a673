/**
 * The parts of the SDK's HTTP client (`sdk/client.py`) that are pure: how a request URL is built
 * from the base URL and an endpoint, and how an error response becomes a typed SDK error.
 */
module SdkClient {
  import opened Common
  import Text
  import Numerals

  /** The SDK error classes: `SDKError` itself and the subclasses the client raises. */
  datatype ErrorKind = General | Authentication | Validation | RateLimit | Server

  /**
   * An SDK exception: its class, its message, and the extra attributes some classes carry
   * (`details` on validation errors, `retry_after` on rate-limit errors, `original_error`).
   */
  datatype SdkError = SdkError(
    kind: ErrorKind, message: string, details: Option<string>, retryAfter: Option<string>,
    originalError: Option<string>)

  function ValidationError(message: string): SdkError {
    SdkError(Validation, message, None, None, None)
  }

  /** The client, reduced to what the modelled code reads from its configuration. */
  datatype AgentClient = AgentClient(baseUrl: string)

  /**
   * The URL of a request: the base URL, one "/", then the endpoint without its leading slashes.
   * Nothing of the endpoint but those slashes is lost.
   */
  function RequestUrl(baseUrl: string, endpoint: string): (url: string)
    ensures |url| > |baseUrl| && url[..|baseUrl|] == baseUrl && url[|baseUrl|] == '/'
    ensures var rest := url[|baseUrl| + 1..];
      && (rest == [] || rest[0] != '/')
      && |rest| <= |endpoint| && rest == endpoint[|endpoint| - |rest|..]
      && forall i :: 0 <= i < |endpoint| - |rest| ==> endpoint[i] == '/'
  {
    var rest := Text.LStripChar(endpoint, '/');
    Text.LStripCharDropsOnly(endpoint, '/');
    var url := baseUrl + "/" + rest;
    assert url[|baseUrl| + 1..] == rest;
    url
  }

  /** A leading slash more or less on the endpoint gives the same URL; so does any number of them. */
  lemma LeadingSlashIgnored(baseUrl: string, endpoint: string)
    ensures RequestUrl(baseUrl, "/" + endpoint) == RequestUrl(baseUrl, endpoint)
  {
    assert ("/" + endpoint)[1..] == endpoint;
  }

  /** An error response's body as `response.json()` reads it. */
  datatype ErrorBody =
    | NotJson                                                   // `json()` raises `ValueError`
    | JsonObject(message: Option<string>, details: Option<string>)
    | JsonOther                                                 // valid JSON that is not an object

  /** `raise` of an SDK error, or the `AttributeError` of calling `.get` on a non-object body. */
  datatype Raised = RaisedSdk(error: SdkError) | RaisedAttributeError

  /** The message: the body's "message" when it has one, otherwise the raw response text. */
  function ErrorMessage(body: ErrorBody, text: string): string
    requires !body.JsonOther?
  {
    if body.JsonObject? && body.message.Some? then body.message.value else text
  }

  /**
   * `_handle_error_response`: the class of the raised error is decided by the status alone,
   * 401/403 authentication, 400/422 validation, 429 rate limit, 5xx server, anything else the base
   * class; its message ends with the body's message; only validation errors carry the body's
   * details and only rate-limit errors the Retry-After header.
   */
  function HandleErrorResponse(status: int, body: ErrorBody, text: string, retryAfter: Option<string>): (r: Raised)
    ensures r.RaisedAttributeError? <==> body.JsonOther?
    ensures r.RaisedSdk? ==>
      var e := r.error;
      && (e.kind == Authentication <==> status == 401 || status == 403)
      && (e.kind == Validation <==> status == 400 || status == 422)
      && (e.kind == RateLimit <==> status == 429)
      && (e.kind == Server <==> 500 <= status < 600)
      && |e.message| >= |ErrorMessage(body, text)|
      && e.message[|e.message| - |ErrorMessage(body, text)|..] == ErrorMessage(body, text)
      && e.details == (if e.kind == Validation && body.JsonObject? then body.details else None)
      && e.retryAfter == (if e.kind == RateLimit then retryAfter else None)
      && e.originalError == None
  {
    if body.JsonOther? then RaisedAttributeError
    else
      var message := ErrorMessage(body, text);
      var details := if body.JsonObject? then body.details else None;
      if status == 401 then RaisedSdk(SdkError(Authentication, "Authentication failed: " + message, None, None, None))
      else if status == 403 then RaisedSdk(SdkError(Authentication, "Permission denied: " + message, None, None, None))
      else if status == 400 then RaisedSdk(SdkError(Validation, "Bad Request: " + message, details, None, None))
      else if status == 422 then RaisedSdk(SdkError(Validation, "Validation Error: " + message, details, None, None))
      else if status == 429 then RaisedSdk(SdkError(RateLimit, "Rate limit exceeded: " + message, None, retryAfter, None))
      else if 500 <= status < 600 then
        RaisedSdk(SdkError(Server, "Server Error " + Numerals.IntToString(status) + ": " + message, None, None, None))
      else RaisedSdk(SdkError(General, "HTTP " + Numerals.IntToString(status) + ": " + message, None, None, None))
  }

  /**
   * How the routers' refusals reach an SDK caller: 403 as an authentication error, 400 and 422 as
   * validation errors, 404 and 409 as the base class.
   */
  lemma RouterErrorsAsSdkErrors(e: HttpError, body: ErrorBody, text: string, retryAfter: Option<string>)
    requires !body.JsonOther?
    ensures var r := HandleErrorResponse(StatusCode(e), body, text, retryAfter);
      && r.RaisedSdk?
      && (e.Forbidden? ==> r.error.kind == Authentication)
      && (e.BadRequest? || e.Unprocessable? ==> r.error.kind == Validation)
      && (e.NotFound? || e.Conflict? ==> r.error.kind == General)
  {
  }
}
