/** The JSON error responses of the API: which requests get one, with which status,
    label and message. */
module ApiErrors {
  import opened Wrappers

  /** What was thrown: an HTTP exception carries its own status code. */
  datatype Throwable = HttpException(statusCode: int, message: string) | OtherThrowable(message: string)

  /** The JSON body {error, message} with its status code. */
  datatype JsonResponse = JsonResponse(status: int, error: string, message: string)

  const InternalServerError := 500
  const GenericMessage := "Internal Server Error"

  /** The error label of a status code: nine named statuses, otherwise a class label. */
  function ErrorTypeFromStatusCode(status: int): (kind: string)
    ensures status >= 500 ==> kind == "Server Error"
    ensures status in NamedStatuses ==> kind != "Server Error" && kind != "Client Error"
  {
    match status
    case 400 => "Bad Request"
    case 401 => "Unauthorized"
    case 403 => "Forbidden"
    case 404 => "Not Found"
    case 405 => "Method Not Allowed"
    case 408 => "Request Timeout"
    case 409 => "Conflict"
    case 422 => "Unprocessable Entity"
    case 429 => "Too Many Requests"
    case _ => if status >= 500 then "Server Error" else "Client Error"
  }

  /** The statuses with a label of their own. */
  const NamedStatuses: set<int> := {400, 401, 403, 404, 405, 408, 409, 422, 429}

  /** The label is one of eleven, and the two class labels split the other statuses
      at 500: "Server Error" exactly for 500 and above, "Client Error" exactly for the
      unnamed statuses below 500. */
  lemma ErrorTypeIsTotal(status: int)
    ensures ErrorTypeFromStatusCode(status) in
      {"Bad Request", "Unauthorized", "Forbidden", "Not Found", "Method Not Allowed", "Request Timeout",
       "Conflict", "Unprocessable Entity", "Too Many Requests", "Server Error", "Client Error"}
    ensures ErrorTypeFromStatusCode(status) == "Server Error" <==> status >= 500
    ensures ErrorTypeFromStatusCode(status) == "Client Error" <==> status < 500 && status !in NamedStatuses
  {
  }

  lemma ErrorTypeExamples()
    ensures ErrorTypeFromStatusCode(404) == "Not Found" && ErrorTypeFromStatusCode(429) == "Too Many Requests"
    ensures ErrorTypeFromStatusCode(503) == "Server Error" && ErrorTypeFromStatusCode(418) == "Client Error"
  {
  }

  /** The response for a throwable; `appEnv` is the application environment name. */
  function CreateJsonResponse(e: Throwable, appEnv: string): (response: JsonResponse)
    ensures response.status == 500 || (e.HttpException? && response.status == e.statusCode)
    ensures response.error == ErrorTypeFromStatusCode(response.status)
    ensures !e.HttpException? ==> response.message == "Internal Server Error"
  {
    var status := if e.HttpException? then e.statusCode else InternalServerError;
    var message := if e.HttpException? then e.message else GenericMessage;
    JsonResponse(status, ErrorTypeFromStatusCode(status),
                 if status == InternalServerError && appEnv == "prod" then GenericMessage else message)
  }

  /** Anything that is not an HTTP exception becomes a 500 "Server Error" with the
      generic message; an HTTP exception keeps its own status, and the label is
      "Server Error" exactly for the statuses from 500 up. */
  lemma ResponseStatusAndLabel(e: Throwable, appEnv: string)
    ensures !e.HttpException? ==> CreateJsonResponse(e, appEnv) == JsonResponse(500, "Server Error", "Internal Server Error")
    ensures e.HttpException? ==> CreateJsonResponse(e, appEnv).status == e.statusCode
    ensures CreateJsonResponse(e, appEnv).error == "Server Error" <==> CreateJsonResponse(e, appEnv).status >= 500
    ensures CreateJsonResponse(e, appEnv).error == ErrorTypeFromStatusCode(CreateJsonResponse(e, appEnv).status)
  {
  }

  /** A 500 in production never shows the exception's own message; in every other case
      an HTTP exception's message is shown as it is. */
  lemma ResponseMessage(e: Throwable, appEnv: string)
    ensures CreateJsonResponse(e, appEnv).status == 500 && appEnv == "prod" ==>
              CreateJsonResponse(e, appEnv).message == "Internal Server Error"
    ensures e.HttpException? && !(e.statusCode == 500 && appEnv == "prod") ==>
              CreateJsonResponse(e, appEnv).message == e.message
  {
  }

  /** The request path decides whether the listener answers. */
  predicate IsApiPath(path: string)
    ensures IsApiPath(path) <==> |path| >= 4 && path[..4] == "/api"
  {
    "/api" <= path
  }

  /** The kernel's exception event: the request path, the throwable, and the response
      the listeners set. */
  class ExceptionEvent {
    const pathInfo: string
    const throwable: Throwable
    var response: Option<JsonResponse>

    constructor (pathInfo: string, throwable: Throwable)
      ensures this.pathInfo == pathInfo && this.throwable == throwable && response == None
    {
      this.pathInfo := pathInfo;
      this.throwable := throwable;
      response := None;
    }
  }

  /** The statuses a response accepts; building a response with any other status
      raises an invalid-argument error. */
  predicate IsValidStatus(status: int)
  {
    100 <= status < 600
  }

  /** Answers exceptions of API requests with a JSON response and leaves every other
      event alone. `raised` tells that building the response failed on a status no
      response accepts; the event then keeps the response it had. */
  method OnKernelException(event: ExceptionEvent, appEnv: string) returns (raised: bool)
    modifies event`response
    ensures raised <==> IsApiPath(event.pathInfo) && !IsValidStatus(CreateJsonResponse(event.throwable, appEnv).status)
    ensures !raised && IsApiPath(event.pathInfo) ==> event.response == Some(CreateJsonResponse(event.throwable, appEnv))
    ensures !IsApiPath(event.pathInfo) || raised ==> event.response == old(event.response)
  {
    raised := false;
    if IsApiPath(event.pathInfo) {
      var response := CreateJsonResponse(event.throwable, appEnv);
      if !IsValidStatus(response.status) {
        return true;
      }
      event.response := Some(response);
    }
  }
}
