/** `Exception\Billing\UnableDispatchException`: why a webhook could not be dispatched. */
module UnableDispatchException {
  import opened Wrappers
  import opened Entities

  const CodeInvalidRequestMethod: int := 10
  const CodeInvalidPayloadHash: int := 11
  const CodeNotExistApplication: int := 12
  const CodeUnfulfilledRequirements: int := 13
  const CodeNotSupportedAction: int := 14

  /** One variant per named constructor. Every variant records the server request and the
      optional previous exception; only the hash variant records the application. */
  datatype UnableDispatch =
    | InvalidRequestMethod(serverRequest: ServerRequest, previous: Option<Throwable>)
    | InvalidPayloadHash(serverRequest: ServerRequest, application: Application, previous: Option<Throwable>)
    | NotExistApplication(serverRequest: ServerRequest, previous: Option<Throwable>)
    | NotSupportedAction(serverRequest: ServerRequest, previous: Option<Throwable>)
    | UnfulfilledRequirements(serverRequest: ServerRequest, previous: Option<Throwable>)
  {
    /** `getCode()`. */
    function Code(): (c: int)
      ensures CodeInvalidRequestMethod <= c <= CodeNotSupportedAction
    {
      match this
      case InvalidRequestMethod(_, _) => CodeInvalidRequestMethod
      case InvalidPayloadHash(_, _, _) => CodeInvalidPayloadHash
      case NotExistApplication(_, _) => CodeNotExistApplication
      case NotSupportedAction(_, _) => CodeNotSupportedAction
      case UnfulfilledRequirements(_, _) => CodeUnfulfilledRequirements
    }

    /** `getMessage()`. */
    function Message(): string {
      match this
      case InvalidRequestMethod(_, _) => "Invalid request method"
      case InvalidPayloadHash(_, _, _) => "Invalid payload hash"
      case NotExistApplication(_, _) => "Application does not exist"
      case NotSupportedAction(_, _) => "Action is not supported"
      case UnfulfilledRequirements(_, _) => "Requirements have not been met"
    }

    /** `getServerRequest()`. */
    function GetServerRequest(): ServerRequest {
      serverRequest
    }

    /** `getApplication()`: null unless the hash was invalid. */
    function GetApplication(): (a: Option<Application>)
      ensures a.Some? <==> InvalidPayloadHash?
      ensures InvalidPayloadHash? ==> a == Some(application)
    {
      if InvalidPayloadHash? then Some(application) else None
    }

    /** `getPrevious()`. */
    function GetPrevious(): Option<Throwable> {
      previous
    }
  }

  function ForInvalidRequestMethod(serverRequest: ServerRequest, exception: Option<Throwable>): (e: UnableDispatch)
    ensures e.Code() == CodeInvalidRequestMethod && e.Message() == "Invalid request method"
    ensures e.GetServerRequest() == serverRequest && e.GetApplication() == None && e.GetPrevious() == exception
  {
    InvalidRequestMethod(serverRequest, exception)
  }

  function ForInvalidPayloadHash(serverRequest: ServerRequest, application: Application,
                                 exception: Option<Throwable>): (e: UnableDispatch)
    ensures e.Code() == CodeInvalidPayloadHash && e.Message() == "Invalid payload hash"
    ensures e.GetServerRequest() == serverRequest && e.GetApplication() == Some(application)
    ensures e.GetPrevious() == exception
  {
    InvalidPayloadHash(serverRequest, application, exception)
  }

  function ForNotExistApplication(serverRequest: ServerRequest, exception: Option<Throwable>): (e: UnableDispatch)
    ensures e.Code() == CodeNotExistApplication && e.Message() == "Application does not exist"
    ensures e.GetServerRequest() == serverRequest && e.GetApplication() == None && e.GetPrevious() == exception
  {
    NotExistApplication(serverRequest, exception)
  }

  function ForNotSupportedAction(serverRequest: ServerRequest, exception: Option<Throwable>): (e: UnableDispatch)
    ensures e.Code() == CodeNotSupportedAction && e.Message() == "Action is not supported"
    ensures e.GetServerRequest() == serverRequest && e.GetApplication() == None && e.GetPrevious() == exception
  {
    NotSupportedAction(serverRequest, exception)
  }

  function ForUnfulfilledRequirements(serverRequest: ServerRequest, exception: Option<Throwable>): (e: UnableDispatch)
    ensures e.Code() == CodeUnfulfilledRequirements && e.Message() == "Requirements have not been met"
    ensures e.GetServerRequest() == serverRequest && e.GetApplication() == None && e.GetPrevious() == exception
  {
    UnfulfilledRequirements(serverRequest, exception)
  }

  /** Which named constructor built an exception. */
  function Kind(e: UnableDispatch): nat {
    match e
    case InvalidRequestMethod(_, _) => 0
    case InvalidPayloadHash(_, _, _) => 1
    case NotExistApplication(_, _) => 2
    case NotSupportedAction(_, _) => 3
    case UnfulfilledRequirements(_, _) => 4
  }

  /** The code lies in 10..14 and tells the kinds apart; so does the message. */
  lemma CodesIdentifyKind(a: UnableDispatch, b: UnableDispatch)
    ensures CodeInvalidRequestMethod <= a.Code() <= CodeNotSupportedAction
    ensures a.Code() == b.Code() <==> Kind(a) == Kind(b)
    ensures a.Message() == b.Message() <==> Kind(a) == Kind(b)
  {
  }
}
