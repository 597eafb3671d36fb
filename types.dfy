/** The SDK's record types, each parsed from the key/value map of a decoded JSON object
    the way pydantic validates keyword arguments: a required field must be present with
    the right type, an optional field may be absent or null and then takes its default,
    and keys the record does not declare are ignored. */
module Types {
  import opened Wrappers
  import opened Json
  import opened Exceptions

  /** Timestamps are carried as the server's text, unparsed. */
  type Timestamp = string

  type Fields = map<string, Value>

  // ---------------------------------------------------------------------------
  // What a field of each declared type accepts

  /** `k` is present and holds a string (a required `str` or timestamp field). */
  predicate IsStr(m: Fields, k: string) {
    k in m && m[k].Str?
  }

  predicate IsInt(m: Fields, k: string) {
    k in m && m[k].Int?
  }

  predicate IsBool(m: Fields, k: string) {
    k in m && m[k].Bool?
  }

  /** `k` is absent or null, so an optional field takes its default of None. */
  predicate Absent(m: Fields, k: string) {
    k !in m || m[k].Null?
  }

  /** An optional `str` field: absent, null or a string. */
  predicate MaybeStr(m: Fields, k: string) {
    Absent(m, k) || m[k].Str?
  }

  predicate MaybeInt(m: Fields, k: string) {
    Absent(m, k) || m[k].Int?
  }

  /** An optional `float` field accepts floats and integers. */
  predicate MaybeNumber(m: Fields, k: string) {
    Absent(m, k) || m[k].Int? || m[k].Float?
  }

  /** A non-optional field with a default (`bool = False`, `str = "auto"`, `list = []`)
      may be absent but not null. */
  predicate MaybeBool(m: Fields, k: string) {
    k !in m || m[k].Bool?
  }

  predicate MaybeText(m: Fields, k: string) {
    k !in m || m[k].Str?
  }

  predicate MaybeStrList(m: Fields, k: string) {
    k !in m || (m[k].Array? && forall i :: 0 <= i < |m[k].items| ==> m[k].items[i].Str?)
  }

  /** `o` is what an optional `str` field reads from `m`. */
  predicate StrFrom(m: Fields, k: string, o: Option<string>) {
    (o.None? <==> Absent(m, k)) && (o.Some? ==> m[k] == Str(o.value))
  }

  predicate IntFrom(m: Fields, k: string, o: Option<int>) {
    (o.None? <==> Absent(m, k)) && (o.Some? ==> m[k] == Int(o.value))
  }

  predicate NumberFrom(m: Fields, k: string, o: Option<real>) {
    (o.None? <==> Absent(m, k))
    && (o.Some? ==> m[k] == Float(o.value) || (m[k].Int? && o.value == m[k].i as real))
  }

  /** `b` is what a `bool` field with default `d` reads from `m`. */
  predicate BoolFrom(m: Fields, k: string, d: bool, b: bool) {
    (k !in m ==> b == d) && (k in m ==> m[k] == Bool(b))
  }

  predicate TextFrom(m: Fields, k: string, d: string, s: string) {
    (k !in m ==> s == d) && (k in m ==> m[k] == Str(s))
  }

  // ---------------------------------------------------------------------------
  // Field readers; each fails with the field's name

  function RequiredStr(m: Fields, k: string): (r: Result<string, SdkError>)
    ensures r.Ok? <==> IsStr(m, k)
    ensures r.Ok? ==> m[k] == Str(r.value)
    ensures r.Err? ==> r.error == InvalidRecord(k)
  {
    if k in m && m[k].Str? then Ok(m[k].s) else Err(InvalidRecord(k))
  }

  function RequiredInt(m: Fields, k: string): (r: Result<int, SdkError>)
    ensures r.Ok? <==> IsInt(m, k)
    ensures r.Ok? ==> m[k] == Int(r.value)
    ensures r.Err? ==> r.error == InvalidRecord(k)
  {
    if k in m && m[k].Int? then Ok(m[k].i) else Err(InvalidRecord(k))
  }

  function RequiredBool(m: Fields, k: string): (r: Result<bool, SdkError>)
    ensures r.Ok? <==> IsBool(m, k)
    ensures r.Ok? ==> m[k] == Bool(r.value)
    ensures r.Err? ==> r.error == InvalidRecord(k)
  {
    if k in m && m[k].Bool? then Ok(m[k].b) else Err(InvalidRecord(k))
  }

  /** A `list[Any]` field: any array. */
  function RequiredArray(m: Fields, k: string): (r: Result<seq<Value>, SdkError>)
    ensures r.Ok? <==> k in m && m[k].Array?
    ensures r.Ok? ==> m[k] == Array(r.value)
    ensures r.Err? ==> r.error == InvalidRecord(k)
  {
    if k in m && m[k].Array? then Ok(m[k].items) else Err(InvalidRecord(k))
  }

  function OptionalStr(m: Fields, k: string): (r: Result<Option<string>, SdkError>)
    ensures r.Ok? <==> MaybeStr(m, k)
    ensures r.Ok? ==> StrFrom(m, k, r.value)
    ensures r.Err? ==> r.error == InvalidRecord(k)
  {
    if Absent(m, k) then Ok(None)
    else if m[k].Str? then Ok(Some(m[k].s))
    else Err(InvalidRecord(k))
  }

  function OptionalInt(m: Fields, k: string): (r: Result<Option<int>, SdkError>)
    ensures r.Ok? <==> MaybeInt(m, k)
    ensures r.Ok? ==> IntFrom(m, k, r.value)
    ensures r.Err? ==> r.error == InvalidRecord(k)
  {
    if Absent(m, k) then Ok(None)
    else if m[k].Int? then Ok(Some(m[k].i))
    else Err(InvalidRecord(k))
  }

  function OptionalNumber(m: Fields, k: string): (r: Result<Option<real>, SdkError>)
    ensures r.Ok? <==> MaybeNumber(m, k)
    ensures r.Ok? ==> NumberFrom(m, k, r.value)
    ensures r.Err? ==> r.error == InvalidRecord(k)
  {
    if Absent(m, k) then Ok(None)
    else if m[k].Float? then Ok(Some(m[k].f))
    else if m[k].Int? then Ok(Some(m[k].i as real))
    else Err(InvalidRecord(k))
  }

  function BoolOr(m: Fields, k: string, default: bool): (r: Result<bool, SdkError>)
    ensures r.Ok? <==> MaybeBool(m, k)
    ensures r.Ok? ==> BoolFrom(m, k, default, r.value)
    ensures r.Err? ==> r.error == InvalidRecord(k)
  {
    if k !in m then Ok(default)
    else if m[k].Bool? then Ok(m[k].b)
    else Err(InvalidRecord(k))
  }

  function TextOr(m: Fields, k: string, default: string): (r: Result<string, SdkError>)
    ensures r.Ok? <==> MaybeText(m, k)
    ensures r.Ok? ==> TextFrom(m, k, default, r.value)
    ensures r.Err? ==> r.error == InvalidRecord(k)
  {
    if k !in m then Ok(default)
    else if m[k].Str? then Ok(m[k].s)
    else Err(InvalidRecord(k))
  }

  /** The strings of a JSON array, in order, if every element is a string. */
  function Strings(items: seq<Value>): (r: Option<seq<string>>)
    ensures r.Some? <==> forall i :: 0 <= i < |items| ==> items[i].Str?
    ensures r.Some? ==> |r.value| == |items| && forall i :: 0 <= i < |items| ==> items[i] == Str(r.value[i])
  {
    if items == [] then Some([])
    else if !items[0].Str? then None
    else match Strings(items[1..])
      case None => None
      case Some(rest) => Some([items[0].s] + rest)
  }

  /** A `list[str] = []` field. */
  function StrListOr(m: Fields, k: string): (r: Result<seq<string>, SdkError>)
    ensures r.Ok? <==> MaybeStrList(m, k)
    ensures r.Ok? && k !in m ==> r.value == []
    ensures r.Ok? && k in m ==> |r.value| == |m[k].items| && forall i :: 0 <= i < |r.value| ==> m[k].items[i] == Str(r.value[i])
    ensures r.Err? ==> r.error == InvalidRecord(k)
  {
    if k !in m then Ok([])
    else if !m[k].Array? then Err(InvalidRecord(k))
    else match Strings(m[k].items)
      case None => Err(InvalidRecord(k))
      case Some(ss) => Ok(ss)
  }

  // ---------------------------------------------------------------------------
  // Keyword construction and lists of records

  /** `T(**x)`: only a mapping can be spread into keyword arguments. */
  function Construct<T>(x: Value, make: Fields -> Result<T, SdkError>): (r: Result<T, SdkError>)
    ensures x.Object? ==> r == make(x.fields)
    ensures !x.Object? ==> r == Err(UnexpectedShape)
  {
    if x.Object? then make(x.fields) else Err(UnexpectedShape)
  }

  /** `[T(**x) for x in items]`: every element is constructed, in order, and the first
      element that fails makes the whole list fail with its error. */
  function ParseEach<T>(items: seq<Value>, make: Fields -> Result<T, SdkError>): (r: Result<seq<T>, SdkError>)
    ensures r.Ok? <==> forall i :: 0 <= i < |items| ==> Construct(items[i], make).Ok?
    ensures r.Ok? ==> |r.value| == |items|
    ensures r.Ok? ==> forall i :: 0 <= i < |items| ==> Construct(items[i], make) == Ok(r.value[i])
    ensures r.Err? ==> exists i :: 0 <= i < |items| && Construct(items[i], make) == Err(r.error)
                           && forall j :: 0 <= j < i ==> Construct(items[j], make).Ok?
  {
    if items == [] then Ok([])
    else
      match Construct(items[0], make)
      case Err(e) => Err(e)
      case Ok(first) =>
        match ParseEach(items[1..], make)
        case Err(e) =>
          assert forall j :: 1 <= j < |items| ==> items[j] == items[1..][j - 1];
          Err(e)
        case Ok(rest) =>
          assert forall j :: 1 <= j < |items| ==> items[j] == items[1..][j - 1];
          Ok([first] + rest)
  }

  /** `[T(**x) for x in v]` over a value of any shape. Iterating an empty string or an
      empty dict yields nothing; a non-empty one yields strings, which `**` rejects;
      None, booleans and numbers cannot be iterated. */
  function ParseIterable<T>(v: Value, make: Fields -> Result<T, SdkError>): (r: Result<seq<T>, SdkError>)
    ensures v.Array? ==> r == ParseEach(v.items, make)
    ensures (v == Str("") || v == Object(map[])) ==> r == Ok([])
    ensures !v.Array? && v != Str("") && v != Object(map[]) ==> r == Err(UnexpectedShape)
  {
    match v
    case Array(items) => ParseEach(items, make)
    case Str(s) => if s == "" then Ok([]) else Err(UnexpectedShape)
    case Object(fields) => if fields == map[] then Ok([]) else Err(UnexpectedShape)
    case _ => Err(UnexpectedShape)
  }

  /** `T(**response)` applied to the outcome of a request. */
  function Record<T>(response: Result<Value, SdkError>, make: Fields -> Result<T, SdkError>): (r: Result<T, SdkError>)
    ensures response.Err? ==> r == Err(response.error)
    ensures response.Ok? ==> r == Construct(response.value, make)
  {
    match response
    case Err(e) => Err(e)
    case Ok(v) => Construct(v, make)
  }

  /** The query parameters of a paginated list call: `{"page": .., "page_size": ..}`. */
  function PageParams(page: int, pageSize: int): Option<map<string, int>> {
    Some(map["page" := page, "page_size" := pageSize])
  }

  /** `[T(**x) for x in response.get("data", [])]`: the items of a paginated envelope.
      A missing `data` key reads as an empty list; a response that is not a dict has no
      `.get`. */
  function PageItems<T>(response: Result<Value, SdkError>, make: Fields -> Result<T, SdkError>): (r: Result<seq<T>, SdkError>)
    ensures response.Err? ==> r == Err(response.error)
    ensures response.Ok? && !response.value.Object? ==> r == Err(UnexpectedShape)
    ensures response.Ok? && response.value.Object? && "data" !in response.value.fields ==> r == Ok([])
    ensures response.Ok? && response.value.Object? && "data" in response.value.fields ==>
              r == ParseIterable(response.value.fields["data"], make)
  {
    match response
    case Err(e) => Err(e)
    case Ok(v) =>
      if !v.Object? then Err(UnexpectedShape)
      else ParseIterable(if "data" in v.fields then v.fields["data"] else Array([]), make)
  }

  // ---------------------------------------------------------------------------
  // Records

  datatype Dataset = Dataset(
    id: string,
    name: string,
    description: Option<string>,
    fileSize: Option<int>,
    recordCount: Option<int>,
    status: string,
    validationError: Option<string>,
    createdAt: Timestamp,
    updatedAt: Option<Timestamp>)

  function ParseDataset(m: Fields): (r: Result<Dataset, SdkError>)
    ensures r.Ok? <==>
              IsStr(m, "id") && IsStr(m, "name") && MaybeStr(m, "description") && MaybeInt(m, "file_size")
              && MaybeInt(m, "record_count") && IsStr(m, "status") && MaybeStr(m, "validation_error")
              && IsStr(m, "created_at") && MaybeStr(m, "updated_at")
    ensures r.Ok? ==>
              var d := r.value;
              m["id"] == Str(d.id) && m["name"] == Str(d.name) && m["status"] == Str(d.status)
              && m["created_at"] == Str(d.createdAt)
              && StrFrom(m, "description", d.description) && IntFrom(m, "file_size", d.fileSize)
              && IntFrom(m, "record_count", d.recordCount) && StrFrom(m, "validation_error", d.validationError)
              && StrFrom(m, "updated_at", d.updatedAt)
    ensures r.Err? ==> r.error.InvalidRecord?
  {
    var id :- RequiredStr(m, "id");
    var name :- RequiredStr(m, "name");
    var description :- OptionalStr(m, "description");
    var fileSize :- OptionalInt(m, "file_size");
    var recordCount :- OptionalInt(m, "record_count");
    var status :- RequiredStr(m, "status");
    var validationError :- OptionalStr(m, "validation_error");
    var createdAt :- RequiredStr(m, "created_at");
    var updatedAt :- OptionalStr(m, "updated_at");
    Ok(Dataset(id, name, description, fileSize, recordCount, status, validationError, createdAt, updatedAt))
  }

  datatype DatasetUploadResponse = DatasetUploadResponse(id: string, name: string, status: string)

  function ParseDatasetUploadResponse(m: Fields): (r: Result<DatasetUploadResponse, SdkError>)
    ensures r.Ok? <==> IsStr(m, "id") && IsStr(m, "name") && IsStr(m, "status")
    ensures r.Ok? ==> m["id"] == Str(r.value.id) && m["name"] == Str(r.value.name) && m["status"] == Str(r.value.status)
    ensures r.Err? ==> r.error.InvalidRecord?
  {
    var id :- RequiredStr(m, "id");
    var name :- RequiredStr(m, "name");
    var status :- RequiredStr(m, "status");
    Ok(DatasetUploadResponse(id, name, status))
  }

  datatype ModelProvider = ModelProvider(
    id: string,
    name: string,
    batchInputPricePer1m: Option<real>,
    batchOutputPricePer1m: Option<real>,
    isBatchSupported: bool)

  function ParseModelProvider(m: Fields): (r: Result<ModelProvider, SdkError>)
    ensures r.Ok? <==>
              IsStr(m, "id") && IsStr(m, "name") && MaybeNumber(m, "batch_input_price_per_1m")
              && MaybeNumber(m, "batch_output_price_per_1m") && MaybeBool(m, "is_batch_supported")
    ensures r.Ok? ==>
              var p := r.value;
              m["id"] == Str(p.id) && m["name"] == Str(p.name)
              && NumberFrom(m, "batch_input_price_per_1m", p.batchInputPricePer1m)
              && NumberFrom(m, "batch_output_price_per_1m", p.batchOutputPricePer1m)
              && BoolFrom(m, "is_batch_supported", true, p.isBatchSupported)
    ensures r.Err? ==> r.error.InvalidRecord?
  {
    var id :- RequiredStr(m, "id");
    var name :- RequiredStr(m, "name");
    var inputPrice :- OptionalNumber(m, "batch_input_price_per_1m");
    var outputPrice :- OptionalNumber(m, "batch_output_price_per_1m");
    var supported :- BoolOr(m, "is_batch_supported", true);
    Ok(ModelProvider(id, name, inputPrice, outputPrice, supported))
  }

  /** A `list[ModelProvider] = []` field; a bad element fails the field. */
  predicate MaybeProviders(m: Fields, k: string) {
    k !in m || (m[k].Array? && forall i :: 0 <= i < |m[k].items| ==> Construct(m[k].items[i], ParseModelProvider).Ok?)
  }

  function ProvidersOr(m: Fields, k: string): (r: Result<seq<ModelProvider>, SdkError>)
    ensures r.Ok? <==> MaybeProviders(m, k)
    ensures r.Ok? && k !in m ==> r.value == []
    ensures r.Ok? && k in m ==>
              |r.value| == |m[k].items|
              && forall i :: 0 <= i < |r.value| ==> Construct(m[k].items[i], ParseModelProvider) == Ok(r.value[i])
    ensures r.Err? ==> r.error == InvalidRecord(k)
  {
    if k !in m then Ok([])
    else if !m[k].Array? then Err(InvalidRecord(k))
    else match ParseEach(m[k].items, ParseModelProvider)
      case Err(_) => Err(InvalidRecord(k))
      case Ok(ps) => Ok(ps)
  }

  datatype Model = Model(
    name: string,
    displayName: Option<string>,
    description: Option<string>,
    contextWindow: Option<int>,
    maxOutputTokens: Option<int>,
    capabilities: seq<string>,
    isDeprecated: bool,
    releaseDate: Option<string>,
    providers: seq<ModelProvider>)

  function ParseModel(m: Fields): (r: Result<Model, SdkError>)
    ensures r.Ok? <==>
              IsStr(m, "name") && MaybeStr(m, "display_name") && MaybeStr(m, "description")
              && MaybeInt(m, "context_window") && MaybeInt(m, "max_output_tokens")
              && MaybeStrList(m, "capabilities") && MaybeBool(m, "is_deprecated")
              && MaybeStr(m, "release_date") && MaybeProviders(m, "providers")
    ensures r.Ok? ==>
              var d := r.value;
              m["name"] == Str(d.name) && StrFrom(m, "display_name", d.displayName)
              && StrFrom(m, "description", d.description) && IntFrom(m, "context_window", d.contextWindow)
              && IntFrom(m, "max_output_tokens", d.maxOutputTokens)
              && BoolFrom(m, "is_deprecated", false, d.isDeprecated)
              && StrFrom(m, "release_date", d.releaseDate)
    ensures r.Ok? && "capabilities" !in m ==> r.value.capabilities == []
    ensures r.Ok? && "capabilities" in m ==>
              var items := m["capabilities"].items;
              |r.value.capabilities| == |items|
              && forall i :: 0 <= i < |items| ==> items[i] == Str(r.value.capabilities[i])
    ensures r.Ok? && "providers" !in m ==> r.value.providers == []
    ensures r.Ok? && "providers" in m ==>
              var items := m["providers"].items;
              |r.value.providers| == |items|
              && forall i :: 0 <= i < |items| ==> Construct(items[i], ParseModelProvider) == Ok(r.value.providers[i])
    ensures r.Err? ==> r.error.InvalidRecord?
  {
    var name :- RequiredStr(m, "name");
    var displayName :- OptionalStr(m, "display_name");
    var description :- OptionalStr(m, "description");
    var contextWindow :- OptionalInt(m, "context_window");
    var maxOutputTokens :- OptionalInt(m, "max_output_tokens");
    var capabilities :- StrListOr(m, "capabilities");
    var isDeprecated :- BoolOr(m, "is_deprecated", false);
    var releaseDate :- OptionalStr(m, "release_date");
    var providers :- ProvidersOr(m, "providers");
    Ok(Model(name, displayName, description, contextWindow, maxOutputTokens, capabilities, isDeprecated, releaseDate, providers))
  }

  /** A model given only its name takes every default: no capabilities, not deprecated,
      no providers. */
  lemma ModelDefaults(name: string)
    ensures ParseModel(map["name" := Str(name)]) == Ok(Model(name, None, None, None, None, [], false, None, []))
  {
  }

  datatype BatchJob = BatchJob(
    id: string,
    datasetId: string,
    datasetName: Option<string>,
    model: string,
    providerId: Option<string>,
    providerName: Option<string>,
    status: string,
    description: Option<string>,
    errorMessage: Option<string>,
    requestCount: Option<int>,
    completedCount: Option<int>,
    failedCount: Option<int>,
    inputTokens: Option<int>,
    outputTokens: Option<int>,
    estimatedCost: Option<real>,
    actualCost: Option<real>,
    hasResults: bool,
    hasErrors: bool,
    createdAt: Timestamp,
    submittedAt: Option<Timestamp>,
    completedAt: Option<Timestamp>)

  function ParseBatchJob(m: Fields): (r: Result<BatchJob, SdkError>)
    ensures r.Ok? <==>
              IsStr(m, "id") && IsStr(m, "dataset_id") && MaybeStr(m, "dataset_name") && IsStr(m, "model")
              && MaybeStr(m, "provider_id") && MaybeStr(m, "provider_name") && IsStr(m, "status")
              && MaybeStr(m, "description") && MaybeStr(m, "error_message")
              && MaybeInt(m, "request_count") && MaybeInt(m, "completed_count") && MaybeInt(m, "failed_count")
              && MaybeInt(m, "input_tokens") && MaybeInt(m, "output_tokens")
              && MaybeNumber(m, "estimated_cost") && MaybeNumber(m, "actual_cost")
              && MaybeBool(m, "has_results") && MaybeBool(m, "has_errors")
              && IsStr(m, "created_at") && MaybeStr(m, "submitted_at") && MaybeStr(m, "completed_at")
    ensures r.Ok? ==>
              var b := r.value;
              m["id"] == Str(b.id) && m["dataset_id"] == Str(b.datasetId) && m["model"] == Str(b.model)
              && m["status"] == Str(b.status) && m["created_at"] == Str(b.createdAt)
              && StrFrom(m, "dataset_name", b.datasetName) && StrFrom(m, "provider_id", b.providerId)
              && StrFrom(m, "provider_name", b.providerName) && StrFrom(m, "description", b.description)
              && StrFrom(m, "error_message", b.errorMessage)
              && IntFrom(m, "request_count", b.requestCount) && IntFrom(m, "completed_count", b.completedCount)
              && IntFrom(m, "failed_count", b.failedCount) && IntFrom(m, "input_tokens", b.inputTokens)
              && IntFrom(m, "output_tokens", b.outputTokens)
              && NumberFrom(m, "estimated_cost", b.estimatedCost) && NumberFrom(m, "actual_cost", b.actualCost)
              && BoolFrom(m, "has_results", false, b.hasResults) && BoolFrom(m, "has_errors", false, b.hasErrors)
              && StrFrom(m, "submitted_at", b.submittedAt) && StrFrom(m, "completed_at", b.completedAt)
    ensures r.Err? ==> r.error.InvalidRecord?
  {
    var id :- RequiredStr(m, "id");
    var datasetId :- RequiredStr(m, "dataset_id");
    var datasetName :- OptionalStr(m, "dataset_name");
    var model :- RequiredStr(m, "model");
    var providerId :- OptionalStr(m, "provider_id");
    var providerName :- OptionalStr(m, "provider_name");
    var status :- RequiredStr(m, "status");
    var description :- OptionalStr(m, "description");
    var errorMessage :- OptionalStr(m, "error_message");
    var requestCount :- OptionalInt(m, "request_count");
    var completedCount :- OptionalInt(m, "completed_count");
    var failedCount :- OptionalInt(m, "failed_count");
    var inputTokens :- OptionalInt(m, "input_tokens");
    var outputTokens :- OptionalInt(m, "output_tokens");
    var estimatedCost :- OptionalNumber(m, "estimated_cost");
    var actualCost :- OptionalNumber(m, "actual_cost");
    var hasResults :- BoolOr(m, "has_results", false);
    var hasErrors :- BoolOr(m, "has_errors", false);
    var createdAt :- RequiredStr(m, "created_at");
    var submittedAt :- OptionalStr(m, "submitted_at");
    var completedAt :- OptionalStr(m, "completed_at");
    Ok(BatchJob(id, datasetId, datasetName, model, providerId, providerName, status, description, errorMessage,
                requestCount, completedCount, failedCount, inputTokens, outputTokens, estimatedCost, actualCost,
                hasResults, hasErrors, createdAt, submittedAt, completedAt))
  }

  datatype BatchCreateRequest = BatchCreateRequest(
    datasetName: string,
    model: string,
    provider: Option<string>,
    description: Option<string>)

  function ParseBatchCreateRequest(m: Fields): (r: Result<BatchCreateRequest, SdkError>)
    ensures r.Ok? <==>
              IsStr(m, "dataset_name") && MaybeText(m, "model") && MaybeStr(m, "provider") && MaybeStr(m, "description")
    ensures r.Ok? ==>
              m["dataset_name"] == Str(r.value.datasetName) && TextFrom(m, "model", "auto", r.value.model)
              && StrFrom(m, "provider", r.value.provider) && StrFrom(m, "description", r.value.description)
    ensures r.Err? ==> r.error.InvalidRecord?
  {
    var datasetName :- RequiredStr(m, "dataset_name");
    var model :- TextOr(m, "model", "auto");
    var provider :- OptionalStr(m, "provider");
    var description :- OptionalStr(m, "description");
    Ok(BatchCreateRequest(datasetName, model, provider, description))
  }

  datatype BatchCreateResponse = BatchCreateResponse(
    id: string,
    status: string,
    model: string,
    providerId: Option<string>,
    providerName: Option<string>,
    estimatedCost: Option<real>)

  function ParseBatchCreateResponse(m: Fields): (r: Result<BatchCreateResponse, SdkError>)
    ensures r.Ok? <==>
              IsStr(m, "id") && IsStr(m, "status") && IsStr(m, "model")
              && MaybeStr(m, "provider_id") && MaybeStr(m, "provider_name") && MaybeNumber(m, "estimated_cost")
    ensures r.Ok? ==>
              m["id"] == Str(r.value.id) && m["status"] == Str(r.value.status) && m["model"] == Str(r.value.model)
              && StrFrom(m, "provider_id", r.value.providerId) && StrFrom(m, "provider_name", r.value.providerName)
              && NumberFrom(m, "estimated_cost", r.value.estimatedCost)
    ensures r.Err? ==> r.error.InvalidRecord?
  {
    var id :- RequiredStr(m, "id");
    var status :- RequiredStr(m, "status");
    var model :- RequiredStr(m, "model");
    var providerId :- OptionalStr(m, "provider_id");
    var providerName :- OptionalStr(m, "provider_name");
    var estimatedCost :- OptionalNumber(m, "estimated_cost");
    Ok(BatchCreateResponse(id, status, model, providerId, providerName, estimatedCost))
  }

  datatype PaginatedResponse = PaginatedResponse(data: seq<Value>, total: int, page: int, pageSize: int, hasMore: bool)

  function ParsePaginatedResponse(m: Fields): (r: Result<PaginatedResponse, SdkError>)
    ensures r.Ok? <==>
              "data" in m && m["data"].Array? && IsInt(m, "total") && IsInt(m, "page") && IsInt(m, "page_size")
              && IsBool(m, "has_more")
    ensures r.Ok? ==>
              m["data"] == Array(r.value.data) && m["total"] == Int(r.value.total) && m["page"] == Int(r.value.page)
              && m["page_size"] == Int(r.value.pageSize) && m["has_more"] == Bool(r.value.hasMore)
    ensures r.Err? ==> r.error.InvalidRecord?
  {
    var data :- RequiredArray(m, "data");
    var total :- RequiredInt(m, "total");
    var page :- RequiredInt(m, "page");
    var pageSize :- RequiredInt(m, "page_size");
    var hasMore :- RequiredBool(m, "has_more");
    Ok(PaginatedResponse(data, total, page, pageSize, hasMore))
  }
}
