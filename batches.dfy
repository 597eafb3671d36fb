/** Batch job operations: each shapes a payload, picks a path, and parses the result. */
module Batches {
  import opened Wrappers
  import opened Json
  import opened Exceptions
  import opened Types
  import opened Client

  const BATCHES_PATH := "/v1/batches"

  /** The JSON body `create` sends: `dataset_name` and `model` always, `provider` and
      `description` exactly when they are truthy, and no other key. */
  predicate IsCreatePayload(payload: map<string, string>, datasetName: string, model: string,
                            provider: Option<string>, description: Option<string>)
  {
    && payload.Keys == {"dataset_name", "model"}
                       + (if TruthyText(provider) then {"provider"} else {})
                       + (if TruthyText(description) then {"description"} else {})
    && payload["dataset_name"] == datasetName
    && payload["model"] == model
    && (TruthyText(provider) ==> payload["provider"] == provider.value)
    && (TruthyText(description) ==> payload["description"] == description.value)
  }

  /** The construction of `payload` in `create`. */
  method CreatePayload(datasetName: string, model: string, provider: Option<string>, description: Option<string>)
    returns (payload: map<string, string>)
    ensures IsCreatePayload(payload, datasetName, model, provider, description)
  {
    payload := map["dataset_name" := datasetName, "model" := model];
    if TruthyText(provider) {
      payload := payload["provider" := provider.value];
    }
    if TruthyText(description) {
      payload := payload["description" := description.value];
    }
  }

  /** With only a dataset name, the body is exactly `{"dataset_name": name, "model": "auto"}`;
      an empty description is not sent. */
  lemma MinimalPayload(payload: map<string, string>, datasetName: string, description: Option<string>)
    requires description == None || description == Some("")
    requires IsCreatePayload(payload, datasetName, "auto", None, description)
    ensures payload == map["dataset_name" := datasetName, "model" := "auto"]
  {
    assert payload.Keys == {"dataset_name", "model"};
  }

  /** `create`: `POST /v1/batches` with the payload as its JSON body. */
  method Create(client: BatchRouter, datasetName: string, model: string := "auto",
                provider: Option<string> := None, description: Option<string> := None)
    returns (r: Result<BatchCreateResponse, SdkError>)
    modifies client.transport
    ensures |client.transport.sent| == |old(client.transport.sent)| + 1
    ensures client.transport.sent[..|old(client.transport.sent)|] == old(client.transport.sent)
    ensures var request := client.transport.sent[|old(client.transport.sent)|];
            && request.json.Some?
            && IsCreatePayload(request.json.value, datasetName, model, provider, description)
            && request == client.Outgoing("POST", BATCHES_PATH, None, request.json, None, None)
            && r == Record(HandleResponse(client.transport.server(request)), ParseBatchCreateResponse)
  {
    var payload := CreatePayload(datasetName, model, provider, description);
    var response := client.Request("POST", BATCHES_PATH, json := Some(payload));
    r := Record(response, ParseBatchCreateResponse);
  }

  /** `list`: `GET /v1/batches?page=..&page_size=..`, one BatchJob per element of `data`. */
  method List(client: BatchRouter, page: int := 1, pageSize: int := 20) returns (r: Result<seq<BatchJob>, SdkError>)
    modifies client.transport
    ensures var request := client.Outgoing("GET", BATCHES_PATH, PageParams(page, pageSize), None, None, None);
            && client.transport.sent == old(client.transport.sent) + [request]
            && r == PageItems(HandleResponse(client.transport.server(request)), ParseBatchJob)
  {
    var response := client.Request("GET", BATCHES_PATH, params := PageParams(page, pageSize));
    r := PageItems(response, ParseBatchJob);
  }

  /** `get`: `GET /v1/batches/{id}`. */
  method Get(client: BatchRouter, batchId: string) returns (r: Result<BatchJob, SdkError>)
    modifies client.transport
    ensures var request := client.Outgoing("GET", BATCHES_PATH + "/" + batchId, None, None, None, None);
            && client.transport.sent == old(client.transport.sent) + [request]
            && r == Record(HandleResponse(client.transport.server(request)), ParseBatchJob)
  {
    var response := client.Request("GET", BATCHES_PATH + "/" + batchId);
    r := Record(response, ParseBatchJob);
  }

  /** `cancel`: `POST /v1/batches/{id}/cancel`, returning the updated job. */
  method Cancel(client: BatchRouter, batchId: string) returns (r: Result<BatchJob, SdkError>)
    modifies client.transport
    ensures var request := client.Outgoing("POST", BATCHES_PATH + "/" + batchId + "/cancel", None, None, None, None);
            && client.transport.sent == old(client.transport.sent) + [request]
            && r == Record(HandleResponse(client.transport.server(request)), ParseBatchJob)
  {
    var response := client.Request("POST", BATCHES_PATH + "/" + batchId + "/cancel");
    r := Record(response, ParseBatchJob);
  }

  /** `download_results`: the raw bytes of `GET /v1/batches/{id}/results`. */
  method DownloadResults(client: BatchRouter, batchId: string) returns (r: Result<seq<byte>, SdkError>)
    modifies client.transport
    ensures var request := client.Outgoing("GET", BATCHES_PATH + "/" + batchId + "/results", None, None, None, None);
            && client.transport.sent == old(client.transport.sent) + [request]
            && r == HandleRawResponse(client.transport.server(request))
  {
    r := client.RequestRaw("GET", BATCHES_PATH + "/" + batchId + "/results");
  }

  /** `download_errors`: the raw bytes of `GET /v1/batches/{id}/errors`, unchanged and
      possibly empty. */
  method DownloadErrors(client: BatchRouter, batchId: string) returns (r: Result<seq<byte>, SdkError>)
    modifies client.transport
    ensures var request := client.Outgoing("GET", BATCHES_PATH + "/" + batchId + "/errors", None, None, None, None);
            && client.transport.sent == old(client.transport.sent) + [request]
            && r == HandleRawResponse(client.transport.server(request))
  {
    r := client.RequestRaw("GET", BATCHES_PATH + "/" + batchId + "/errors");
  }
}
