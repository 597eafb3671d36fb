/** Model listing and lookup. */
module Models {
  import opened Wrappers
  import opened Json
  import opened Exceptions
  import opened Types
  import opened Client

  const MODELS_PATH := "/v1/routing/models"

  /** The result of `list`: the response is a bare array, one Model per element. */
  function ModelList(response: Result<Value, SdkError>): (r: Result<seq<Model>, SdkError>)
    ensures response.Err? ==> r == Err(response.error)
    ensures response.Ok? ==> r == ParseIterable(response.value, ParseModel)
    ensures response == Ok(Array([])) ==> r == Ok([])
  {
    match response
    case Err(e) => Err(e)
    case Ok(v) => ParseIterable(v, ParseModel)
  }

  /** The result of `get`: a falsy body (None, an empty object, ...) is no model;
      anything else is constructed as one. */
  function ModelOrNone(response: Result<Value, SdkError>): (r: Result<Option<Model>, SdkError>)
    ensures response.Err? ==> r == Err(response.error)
    ensures response.Ok? && !Truthy(response.value) ==> r == Ok(None)
    ensures response.Ok? && Truthy(response.value) ==>
              match Construct(response.value, ParseModel)
              case Ok(model) => r == Ok(Some(model))
              case Err(e) => r == Err(e)
  {
    match response
    case Err(e) => Err(e)
    case Ok(v) =>
      if !Truthy(v) then Ok(None)
      else match Construct(v, ParseModel)
        case Ok(model) => Ok(Some(model))
        case Err(e) => Err(e)
  }

  /** A model the server does not know (404) is an error, while a 204 or a null or
      empty-object body is an absent model. */
  lemma AbsenceIsNotAnError(response: Response)
    ensures response.status == 404 ==>
              ModelOrNone(HandleResponse(response)) == Err(Raised(NotFoundError(ErrorMessage(response))))
    ensures response.status == 204 ==> ModelOrNone(HandleResponse(response)) == Ok(None)
    ensures IsSuccess(response.status) && response.json in {Some(Null), Some(Object(map[]))} ==>
              ModelOrNone(HandleResponse(response)) == Ok(None)
  {
  }

  /** `list`: `GET /v1/routing/models`. */
  method List(client: BatchRouter) returns (r: Result<seq<Model>, SdkError>)
    modifies client.transport
    ensures var request := client.Outgoing("GET", MODELS_PATH, None, None, None, None);
            && client.transport.sent == old(client.transport.sent) + [request]
            && r == ModelList(HandleResponse(client.transport.server(request)))
  {
    var response := client.Request("GET", MODELS_PATH);
    r := ModelList(response);
  }

  /** `get`: `GET /v1/routing/models/{name}`. */
  method Get(client: BatchRouter, name: string) returns (r: Result<Option<Model>, SdkError>)
    modifies client.transport
    ensures var request := client.Outgoing("GET", MODELS_PATH + "/" + name, None, None, None, None);
            && client.transport.sent == old(client.transport.sent) + [request]
            && r == ModelOrNone(HandleResponse(client.transport.server(request)))
  {
    var response := client.Request("GET", MODELS_PATH + "/" + name);
    r := ModelOrNone(response);
  }
}
