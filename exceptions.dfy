/** The SDK's exception hierarchy: a base error carrying a message and an optional
    status code, and four kinds that fix the status code and default the message. */
module Exceptions {
  import opened Wrappers
  import Json

  const AUTHENTICATION_DEFAULT := "Invalid or missing API key"
  const NOT_FOUND_DEFAULT := "Resource not found"
  const VALIDATION_DEFAULT := "Validation failed"
  const SERVER_DEFAULT := "Server error"

  /** Which class of the hierarchy an error was raised as. */
  datatype ErrorKind = Base | Authentication | NotFound | Validation | Server

  /** An error's message: a string, or `Rendering(v)`, the text Python's `str(v)`
      gives for a decoded value `v` (left uninterpreted). `str(error)` is the message. */
  datatype Message = Text(text: string) | Rendering(value: Json.Value)

  datatype BatchRouterError = BatchRouterError(kind: ErrorKind, message: Message, statusCode: Option<int>)

  /** `isinstance(e, k)`: every error is a base error; a specialised error is also of its own kind. */
  predicate IsA(e: BatchRouterError, k: ErrorKind) {
    k == Base || e.kind == k
  }

  /** `BatchRouterError(message, status_code=None)`. */
  function BaseError(message: Message, statusCode: Option<int> := None): (e: BatchRouterError)
    ensures e.message == message && e.statusCode == statusCode
    ensures IsA(e, Base) && forall k :: IsA(e, k) ==> k == Base
  {
    BatchRouterError(Base, message, statusCode)
  }

  /** `AuthenticationError(message="Invalid or missing API key")`. */
  function AuthenticationError(message: Message := Text(AUTHENTICATION_DEFAULT)): (e: BatchRouterError)
    ensures e.message == message && e.statusCode == Some(401)
    ensures IsA(e, Authentication) && IsA(e, Base)
  {
    BatchRouterError(Authentication, message, Some(401))
  }

  /** `NotFoundError(message="Resource not found")`. */
  function NotFoundError(message: Message := Text(NOT_FOUND_DEFAULT)): (e: BatchRouterError)
    ensures e.message == message && e.statusCode == Some(404)
    ensures IsA(e, NotFound) && IsA(e, Base)
  {
    BatchRouterError(NotFound, message, Some(404))
  }

  /** `ValidationError(message="Validation failed")`. */
  function ValidationError(message: Message := Text(VALIDATION_DEFAULT)): (e: BatchRouterError)
    ensures e.message == message && e.statusCode == Some(422)
    ensures IsA(e, Validation) && IsA(e, Base)
  {
    BatchRouterError(Validation, message, Some(422))
  }

  /** `ServerError(message="Server error")`: the status code is 500 whatever is passed. */
  function ServerError(message: Message := Text(SERVER_DEFAULT)): (e: BatchRouterError)
    ensures e.message == message && e.statusCode == Some(500)
    ensures IsA(e, Server) && IsA(e, Base)
  {
    BatchRouterError(Server, message, Some(500))
  }

  /** Called with no argument, each specialised kind carries its fixed default message. */
  lemma DefaultMessages()
    ensures AuthenticationError() == BatchRouterError(Authentication, Text("Invalid or missing API key"), Some(401))
    ensures NotFoundError() == BatchRouterError(NotFound, Text("Resource not found"), Some(404))
    ensures ValidationError() == BatchRouterError(Validation, Text("Validation failed"), Some(422))
    ensures ServerError() == BatchRouterError(Server, Text("Server error"), Some(500))
  {
  }

  /** Everything an SDK call can fail with. Only `Raised` is of the SDK's own hierarchy;
      the others are the Python exceptions the SDK lets escape. */
  datatype SdkError =
      /** An error of the hierarchy above. */
    | Raised(error: BatchRouterError)
      /** `ValueError(message)`, raised before any request is issued. */
    | InvalidArgument(message: string)
      /** pydantic's validation error: the named field of a record is missing or mistyped
          (the first such field in declaration order). */
    | InvalidRecord(field: string)
      /** `TypeError`/`AttributeError`: a response body is not of the shape the SDK indexes. */
    | UnexpectedShape
      /** The JSON decoder's error: a success body is not JSON. */
    | UndecodableBody
}
