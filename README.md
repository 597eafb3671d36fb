# BatchRouter Python SDK: request mediation, in Dafny

This project models the decision logic of the BatchRouter SDK. The SDK is a client
library for a remote batch LLM-inference service: it uploads datasets, creates and
cancels batch jobs, lists models, and downloads results.

The model covers five parts:

- **Construction.** The API key is resolved from the explicit argument, or else from
  the environment (injected here as an optional string). It must start with `br_`.
  Trailing `/` characters are stripped from the base URL.
- **Request building.** Every request goes to `base_url + "/api" + path`. It carries
  a bearer `Authorization` header, a fixed `User-Agent` and a JSON `Content-Type`.
  `Content-Type` is dropped when the request has file parts.
- **Response routing.** A status outside 200–299 is translated into an error of the
  SDK's hierarchy. A 204 yields Python's `None`; any other success yields the decoded
  JSON. The raw variant returns the body bytes.
- **Error translation.** The message is `detail`, else the rendered JSON object, else
  the response text, else `"HTTP <code>"`. The error kind comes from a status table.
  Every status of 500 or more raises `ServerError`, whose status code is always 500.
- **Resource facades** (datasets, batches, models). Each one shapes a payload or form,
  picks a path, and parses the response into the record types.

The HTTP transport is abstract. A `Client.Transport` object holds the remote end as a
function from request to response, and records every request sent through it. The
facades' contracts can therefore say which request each call issues, and when a call
issues none.

Files:

- `wrappers.dfy`: `Option` and `Result`.
- `json.dfy`: decoded JSON values and Python truthiness.
- `exceptions.dfy`: the error hierarchy, plus `SdkError` for the Python exceptions the SDK lets escape.
- `types.dfy`: record types and their construction from keyword maps.
- `client.dfy`: the mediator.
- `batches.dfy`, `datasets.dfy`, `models.dfy`: the facades.

## Model

| member | source | states |
|---|---|---|
| `Exceptions.BaseError` | batchrouter/exceptions.py:7-10 | the base error stores the message and status code exactly as given (status defaults to None); it is of the base kind only |
| `Exceptions.AuthenticationError` | batchrouter/exceptions.py:13-17 | defaults to "Invalid or missing API key"; status code is always 401; is also a base error |
| `Exceptions.NotFoundError` | batchrouter/exceptions.py:20-24 | defaults to "Resource not found"; status code is always 404; is also a base error |
| `Exceptions.ValidationError` | batchrouter/exceptions.py:27-31 | defaults to "Validation failed"; status code is always 422; is also a base error |
| `Exceptions.ServerError` | batchrouter/exceptions.py:34-38 | defaults to "Server error"; status code is 500 whatever message is passed; is also a base error |
| `Exceptions.DefaultMessages` | batchrouter/exceptions.py:16-38 | each specialised kind, called without a message, carries its fixed default message and status |
| `Types.ParseDataset` | batchrouter/types.py:9-20 | succeeds exactly when `id`, `name`, `status` and `created_at` are strings and the optional fields are absent, null or well typed; copies the required fields; an absent optional field is None |
| `Types.ParseDatasetUploadResponse` | batchrouter/types.py:23-28 | succeeds exactly when `id`, `name` and `status` are strings, and copies them |
| `Types.ParseModelProvider` | batchrouter/types.py:31-38 | requires `id` and `name`; prices are optional numbers; `is_batch_supported` defaults to true |
| `Types.ParseModel` | batchrouter/types.py:41-52 | requires only `name`; `capabilities` and `providers` default to empty and keep the input's order element by element; `is_deprecated` defaults to false |
| `Types.ModelDefaults` | batchrouter/types.py:44-52 | a model given only its name takes every default |
| `Types.ParseBatchJob` | batchrouter/types.py:55-78 | requires `id`, `dataset_id`, `model`, `status` and `created_at`; counts, tokens and costs default to absent; `has_results` and `has_errors` default to false |
| `Types.ParseBatchCreateRequest` | batchrouter/types.py:81-87 | requires `dataset_name`; `model` defaults to "auto"; provider and description are optional |
| `Types.ParseBatchCreateResponse` | batchrouter/types.py:90-98 | requires `id`, `status` and `model`; provider fields and estimated cost default to absent |
| `Types.ParsePaginatedResponse` | batchrouter/types.py:101-108 | succeeds exactly when all of `data`, `total`, `page`, `page_size` and `has_more` are present and well typed |
| `Types.StrListOr` | batchrouter/types.py:49 | a `list[str] = []` field: absent gives [], otherwise every element must be a string and order is kept |
| `Types.ProvidersOr` | batchrouter/types.py:52 | a `list[ModelProvider] = []` field: absent gives []; each element is parsed in order; a bad element fails the field |
| `Types.Construct` | batchrouter/batches.py:47 | `T(**x)`: only an object can be spread into keyword fields, anything else is a TypeError |
| `Types.ParseEach` | batchrouter/datasets.py:82 | a comprehension builds one record per element, in order, exactly when every element builds; otherwise the first failing element's error is raised |
| `Types.ParseIterable` | batchrouter/models.py:26 | iterating a non-list: an empty string or dict yields [], any other value is a TypeError |
| `Types.Record` | batchrouter/batches.py:74-76 | a request's error propagates; a decoded body is constructed into the record |
| `Types.PageItems` | batchrouter/batches.py:64 | `response.get("data", [])`: a missing `data` key gives an empty list; a body that is not an object is an AttributeError |
| `Client.ChosenKey` | batchrouter/client.py:64 | `api_key or env`: the explicit key when it is truthy, else the environment's; truthy exactly when one of them is |
| `Client.ResolveApiKey` | batchrouter/client.py:64-71 | no truthy key gives AuthenticationError with the "API key is required" message; a key without the `br_` prefix gives the format error; success holds the chosen key, which starts with `br_` |
| `Client.KeyMessages` | batchrouter/client.py:66-71 | the missing-key message starts with "API key is required"; the format message contains "should start with 'br_'" |
| `Client.RStripSlashes` | batchrouter/client.py:73 | the result is a prefix of the input, does not end in '/', and only '/' characters were removed |
| `Client.RStripSlashesUnique` | batchrouter/client.py:73 | those three properties determine the stripped URL uniquely |
| `Client.RStripSlashesIdempotent` | batchrouter/client.py:73 | stripping an already stripped URL changes nothing |
| `Client.DefaultHeaders` | batchrouter/client.py:82-88 | exactly Authorization = "Bearer " + key, Content-Type = application/json, and User-Agent = batchrouter-python/0.1.0 |
| `Client.SentHeaders` | batchrouter/client.py:120-124 | Content-Type is present if and only if there are no file parts; every other header is unchanged |
| `Client.ErrorMessage` | batchrouter/client.py:90-96 | a `detail` value if the body is an object that has one; otherwise the rendered object; if the body is not JSON or not an object, the text; and for empty text, "HTTP <code>" |
| `Client.NatDecimalValue` | batchrouter/client.py:96 | the decimal digits of the "HTTP <code>" message denote the status code |
| `Client.EmptyServerErrorMessage` | batchrouter/client.py:96-105 | a 500 with no JSON and empty text raises ServerError("HTTP 500") |
| `Client.ErrorFor` | batchrouter/client.py:98-107 | 401, 404 and 422 map to their kinds (both directions); status 500 and above maps to ServerError with status 500; other statuses give the base error with the literal status; the status is kept exactly when it is at most 500 |
| `Client.BadGatewayReadsAs500` | batchrouter/client.py:104-105 | a 502 surfaces as a ServerError whose status code is 500 |
| `Client.HandleResponse` | batchrouter/client.py:136-142 | a status outside 200–299 never returns normally and raises the translated error; 204 returns None; any other 2xx returns the decoded body, or fails when the body is not JSON |
| `Client.HandleRawResponse` | batchrouter/client.py:151-154 | returns the raw content on every 2xx, 204 included; otherwise raises the translated error |
| `Client.ErrorOnlyOutsideSuccess` | batchrouter/client.py:136-137 | an SDK error is raised if and only if the status is outside 200–299 |
| `Client.Transport.Send` | batchrouter/client.py:126-134 | the request is recorded as sent, and the response is the remote end's answer to it |
| `Client.BatchRouter.constructor` | batchrouter/client.py:73-75 | stores the checked key and the stripped base URL, and creates a fresh transport with nothing sent |
| `Client.BatchRouter.Request` | batchrouter/client.py:109-142 | sends exactly one request, to base URL + "/api" + path, with the sent headers and the given parameters and body; returns the routed response |
| `Client.BatchRouter.RequestRaw` | batchrouter/client.py:144-154 | sends exactly one request to base URL + "/api" + path, with the default headers and no parameters or body; returns the raw routed response |
| `Client.Connect` | batchrouter/client.py:58-80 | fails with the key-resolution error, creating nothing, exactly when the key cannot be resolved; otherwise gives a fresh valid client whose key starts with `br_` and whose base URL is stripped |
| `Batches.CreatePayload` | batchrouter/batches.py:37-44 | the body always holds `dataset_name` and `model`; `provider` and `description` are present if and only if they are truthy; there are no other keys |
| `Batches.MinimalPayload` | batchrouter/batches.py:37-44 | with only a dataset name (and no description, or an empty one) the body is exactly {dataset_name, model: "auto"} |
| `Batches.Create` | batchrouter/batches.py:19-47 | issues exactly `POST /v1/batches` with that body as JSON and builds a BatchCreateResponse |
| `Batches.List` | batchrouter/batches.py:49-64 | issues `GET /v1/batches` with `{page, page_size}` (defaults 1 and 20) and parses `data` in order |
| `Batches.Get` | batchrouter/batches.py:66-76 | issues `GET /v1/batches/{id}` and parses a BatchJob |
| `Batches.Cancel` | batchrouter/batches.py:78-88 | issues `POST /v1/batches/{id}/cancel` and parses the updated BatchJob |
| `Batches.DownloadResults` | batchrouter/batches.py:90-99 | issues `GET /v1/batches/{id}/results` and returns the raw bytes |
| `Batches.DownloadErrors` | batchrouter/batches.py:101-110 | issues `GET /v1/batches/{id}/errors` and returns the raw bytes unchanged, possibly empty |
| `Datasets.LastSegment` | batchrouter/datasets.py:37-39 | the result is the suffix after the last '/', and contains no '/' |
| `Datasets.LastSegmentOf` | batchrouter/datasets.py:37-39 | a slash-free segment after a '/' is the last segment |
| `Datasets.PathName` | batchrouter/datasets.py:37-39 | a path's name contains no '/' and is never "." |
| `Datasets.PathNameOfJoin` | batchrouter/datasets.py:37-39 | the name of `dir/file`, and of a bare `file`, is `file` |
| `Datasets.ResolveName` | batchrouter/datasets.py:36-45 | an explicit name, even "", is kept; a path with no name uses its final segment; a stream with no name is a ValueError "name is required ..." |
| `Datasets.FormFields` | batchrouter/datasets.py:55-57 | the form holds `name`, plus `description` if and only if it is truthy, and nothing else |
| `Datasets.UploadSendsNoContentType` | batchrouter/datasets.py:54-64 | an upload's headers never include Content-Type |
| `Datasets.UploadFile` | batchrouter/datasets.py:47-65 | issues exactly `POST /v1/datasets` with that form and one `file` part typed application/jsonl, without Content-Type, and parses a DatasetUploadResponse |
| `Datasets.Upload` | batchrouter/datasets.py:20-45 | when the name cannot be resolved, fails and issues no request; otherwise uploads the opened stream under the resolved name |
| `Datasets.List` | batchrouter/datasets.py:67-82 | issues `GET /v1/datasets` with `{page, page_size}` (defaults 1 and 20) and parses `data` in order; a missing `data` gives [] |
| `Datasets.Get` | batchrouter/datasets.py:84-94 | issues `GET /v1/datasets/{id}` and parses a Dataset |
| `Datasets.FindByName` | batchrouter/datasets.py:106-109 | returns the first dataset whose name equals the argument, or None when none does |
| `Datasets.FirstNamedUnique` | batchrouter/datasets.py:106-109 | the first-match answer is unique |
| `Datasets.GetByName` | batchrouter/datasets.py:96-109 | issues one `GET /v1/datasets` with page 1 and page_size 100 and nothing more; returns the first match or None; a listing error propagates |
| `Datasets.Delete` | batchrouter/datasets.py:111-117 | issues `DELETE /v1/datasets/{id}`; returns nothing, but fails exactly when the request does |
| `Models.ModelList` | batchrouter/models.py:19-26 | the bare array gives one Model per element, in order; an empty array gives [] |
| `Models.ModelOrNone` | batchrouter/models.py:38-40 | a falsy body gives None; a truthy one is constructed into a Model |
| `Models.AbsenceIsNotAnError` | batchrouter/models.py:28-40 | a 404 is a NotFoundError, while a 204, null or empty-object body gives None |
| `Models.List` | batchrouter/models.py:19-26 | issues `GET /v1/routing/models` and parses the bare array |
| `Models.Get` | batchrouter/models.py:28-40 | issues `GET /v1/routing/models/{name}` and gives a Model or None |

## Left out

- The httpx transport itself is replaced by `Client.Transport`: sockets, TLS, timeouts, connection pooling, `close` and the context-manager methods are not modelled. The remote end is a fixed function of the request, so server-side state is not modelled.
- The `timeout` argument is a float that is only passed to the transport, so it is not modelled.
- Reading `BATCHROUTER_API_KEY` from the process environment is replaced by the injected `envKey` argument.
- `open()` in `Datasets.upload` is modelled by the stream value `OpenedFile(path)`. A file that cannot be opened is not modelled.
- Path names follow POSIX `pathlib` rules. Windows separators are not modelled.
- JSON decoding is abstract: a response carries its decoded value, or None when decoding fails. Floats are held as exact reals, so rounding is not modelled.
- Python's `str(value)` rendering is left uninterpreted as `Message.Rendering(value)`.
- `Client.ErrorMessage`: a `detail` value that is not a string is carried as `Rendering(detail)`. `str(error)` agrees with this, but in the source the error's `message` attribute holds the raw object.
- Record parsing is strict. pydantic's lax coercions are not modelled: numeric strings as integers, integral floats as integers, strings through datetime parsing, and similar.
- Timestamps are carried as the server's text, unparsed.
- A failed record reports only the first bad field, in declaration order. pydantic's error lists every bad field.
- Paths are built by plain concatenation, as in the source. An id containing '/' or '?' is not escaped.
- The facade objects (`Datasets`, `Batches`, `Models`) hold nothing but the client reference. They are modelled as modules whose methods take the client, so the `self.datasets`/`self.batches`/`self.models` attributes of `__init__` are not modelled.
- `batchrouter/__init__.py` only re-exports names, so it is not part of this model.
