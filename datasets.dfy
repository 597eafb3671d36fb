/** Dataset operations: upload (with name resolution and multipart shaping), list, get,
    lookup by name over one page, and delete. */
module Datasets {
  import opened Wrappers
  import opened Json
  import opened Exceptions
  import opened Types
  import opened Client

  const DATASETS_PATH := "/v1/datasets"
  const NAME_REQUIRED := "name is required when uploading from file-like object"
  const JSONL_MEDIA_TYPE := "application/jsonl"
  /** The page size `get_by_name` scans. */
  const LOOKUP_PAGE_SIZE := 100

  /** What `upload` accepts: a path (`str` or `Path`) or an already-open byte stream. */
  datatype UploadSource = FilePath(path: string) | FileObject(stream: Stream)

  // ---------------------------------------------------------------------------
  // Name resolution

  /** The text after the last '/', or all of `s` when it has none. */
  function LastSegment(s: string): (r: string)
    ensures |r| <= |s| && r == s[|s| - |r|..]
    ensures '/' !in r
    ensures |r| < |s| ==> s[|s| - |r| - 1] == '/'
  {
    if s == [] || s[|s| - 1] == '/' then [] else LastSegment(s[..|s| - 1]) + [s[|s| - 1]]
  }

  /** A segment with no '/' that follows a '/' (or starts the string) is the last segment. */
  lemma {:induction false} LastSegmentOf(prefix: string, segment: string)
    requires prefix == [] || prefix[|prefix| - 1] == '/'
    requires '/' !in segment
    ensures LastSegment(prefix + segment) == segment
  {
    var s := prefix + segment;
    if segment != [] {
      var shorter := segment[..|segment| - 1];
      assert s[..|s| - 1] == prefix + shorter;
      LastSegmentOf(prefix, shorter);
      assert shorter + [segment[|segment| - 1]] == segment;
    }
  }

  /** `Path(p).name`: the final component of a POSIX path, ignoring trailing '/' and
      "." components; "" when there is none. */
  function PathName(p: string): (r: string)
    ensures '/' !in r && r != "."
    decreases |p|
  {
    var q := RStripSlashes(p);
    var last := LastSegment(q);
    if last == "." then PathName(q[..|q| - 1]) else last
  }

  /** The name of `dir/file` is `file`, and so is the name of a bare `file`. */
  lemma PathNameOfJoin(dir: string, file: string)
    requires file != "" && file != "." && '/' !in file
    ensures PathName(dir + "/" + file) == file
    ensures PathName(file) == file
  {
    var joined := dir + "/" + file;
    assert joined[|joined| - 1] == file[|file| - 1];
    RStripSlashesUnique(joined, joined);
    LastSegmentOf(dir + "/", file);
    assert dir + "/" + file == (dir + "/") + file;
    RStripSlashesUnique(file, file);
    LastSegmentOf([], file);
    assert [] + file == file;
  }

  /** The name `upload` sends: an explicitly given name, even "", is kept; a path
      defaults to its final component; a stream without a name is a ValueError. */
  function ResolveName(file: UploadSource, name: Option<string>): (r: Result<string, SdkError>)
    ensures name.Some? ==> r == Ok(name.value)
    ensures name.None? && file.FilePath? ==> r == Ok(PathName(file.path))
    ensures name.None? && file.FileObject? ==> r == Err(InvalidArgument(NAME_REQUIRED))
  {
    match file
    case FilePath(path) => Ok(if name.None? then PathName(path) else name.value)
    case FileObject(_) => if name.None? then Err(InvalidArgument(NAME_REQUIRED)) else Ok(name.value)
  }

  /** The stream that is uploaded: the file `open(path, "rb")` gives, or the caller's stream. */
  function OpenedStream(file: UploadSource): Stream {
    match file
    case FilePath(path) => OpenedFile(path)
    case FileObject(stream) => stream
  }

  // ---------------------------------------------------------------------------
  // Upload

  /** The form fields of an upload: `name` always, `description` exactly when it is
      truthy, and nothing else. */
  predicate IsUploadForm(data: map<string, string>, name: string, description: Option<string>) {
    && data.Keys == {"name"} + (if TruthyText(description) then {"description"} else {})
    && data["name"] == name
    && (TruthyText(description) ==> data["description"] == description.value)
  }

  /** The construction of `data` in `_upload_file`. */
  method FormFields(name: string, description: Option<string>) returns (data: map<string, string>)
    ensures IsUploadForm(data, name, description)
  {
    data := map["name" := name];
    if TruthyText(description) {
      data := data["description" := description.value];
    }
  }

  /** The `files` of `_upload_file`: one part keyed "file", typed JSON Lines. */
  function FileParts(name: string, stream: Stream): Option<map<string, FilePart>> {
    Some(map["file" := FilePart(name, stream, JSONL_MEDIA_TYPE)])
  }

  /** Content-Type is never sent with an upload. */
  lemma UploadSendsNoContentType(apiKey: string, name: string, stream: Stream)
    ensures CONTENT_TYPE !in SentHeaders(apiKey, FileParts(name, stream))
  {
    assert "file" in FileParts(name, stream).value;
  }

  /** `_upload_file`: `POST /v1/datasets` as multipart form data. */
  method UploadFile(client: BatchRouter, stream: Stream, name: string, description: Option<string>)
    returns (r: Result<DatasetUploadResponse, SdkError>)
    modifies client.transport
    ensures |client.transport.sent| == |old(client.transport.sent)| + 1
    ensures client.transport.sent[..|old(client.transport.sent)|] == old(client.transport.sent)
    ensures var request := client.transport.sent[|old(client.transport.sent)|];
            && request.data.Some?
            && IsUploadForm(request.data.value, name, description)
            && request == client.Outgoing("POST", DATASETS_PATH, None, None, request.data, FileParts(name, stream))
            && CONTENT_TYPE !in request.headers
            && r == Record(HandleResponse(client.transport.server(request)), ParseDatasetUploadResponse)
  {
    var files := FileParts(name, stream);
    var data := FormFields(name, description);
    UploadSendsNoContentType(client.apiKey, name, stream);
    var response := client.Request("POST", DATASETS_PATH, data := Some(data), files := files);
    r := Record(response, ParseDatasetUploadResponse);
  }

  /** `upload`: resolves the name, then uploads; a stream without a name fails before
      any request is issued. */
  method Upload(client: BatchRouter, file: UploadSource, name: Option<string> := None,
                description: Option<string> := None)
    returns (r: Result<DatasetUploadResponse, SdkError>)
    modifies client.transport
    ensures ResolveName(file, name).Err? ==>
              r == Err(ResolveName(file, name).error) && client.transport.sent == old(client.transport.sent)
    ensures ResolveName(file, name).Ok? ==>
              && |client.transport.sent| == |old(client.transport.sent)| + 1
              && client.transport.sent[..|old(client.transport.sent)|] == old(client.transport.sent)
              && var resolved := ResolveName(file, name).value;
                 var request := client.transport.sent[|old(client.transport.sent)|];
                 && request.data.Some?
                 && IsUploadForm(request.data.value, resolved, description)
                 && request == client.Outgoing("POST", DATASETS_PATH, None, None, request.data,
                                               FileParts(resolved, OpenedStream(file)))
                 && r == Record(HandleResponse(client.transport.server(request)), ParseDatasetUploadResponse)
  {
    match ResolveName(file, name)
    case Err(e) =>
      r := Err(e);
    case Ok(resolved) =>
      r := UploadFile(client, OpenedStream(file), resolved, description);
  }

  // ---------------------------------------------------------------------------
  // Listing and lookup

  /** `list`: `GET /v1/datasets?page=..&page_size=..`, one Dataset per element of `data`. */
  method List(client: BatchRouter, page: int := 1, pageSize: int := 20) returns (r: Result<seq<Dataset>, SdkError>)
    modifies client.transport
    ensures var request := client.Outgoing("GET", DATASETS_PATH, PageParams(page, pageSize), None, None, None);
            && client.transport.sent == old(client.transport.sent) + [request]
            && r == PageItems(HandleResponse(client.transport.server(request)), ParseDataset)
  {
    var response := client.Request("GET", DATASETS_PATH, params := PageParams(page, pageSize));
    r := PageItems(response, ParseDataset);
  }

  /** `get`: `GET /v1/datasets/{id}`. */
  method Get(client: BatchRouter, datasetId: string) returns (r: Result<Dataset, SdkError>)
    modifies client.transport
    ensures var request := client.Outgoing("GET", DATASETS_PATH + "/" + datasetId, None, None, None, None);
            && client.transport.sent == old(client.transport.sent) + [request]
            && r == Record(HandleResponse(client.transport.server(request)), ParseDataset)
  {
    var response := client.Request("GET", DATASETS_PATH + "/" + datasetId);
    r := Record(response, ParseDataset);
  }

  /** `found` is the first dataset named `name`, or None when no dataset has that name. */
  ghost predicate IsFirstNamed(datasets: seq<Dataset>, name: string, found: Option<Dataset>) {
    && (found.None? ==> forall i :: 0 <= i < |datasets| ==> datasets[i].name != name)
    && (found.Some? ==> exists i :: 0 <= i < |datasets| && datasets[i] == found.value && datasets[i].name == name
                                    && forall j :: 0 <= j < i ==> datasets[j].name != name)
  }

  /** The scan of `get_by_name`: the first dataset with the name, or None. */
  method FindByName(datasets: seq<Dataset>, name: string) returns (found: Option<Dataset>)
    ensures IsFirstNamed(datasets, name, found)
  {
    for i := 0 to |datasets|
      invariant forall j :: 0 <= j < i ==> datasets[j].name != name
    {
      if datasets[i].name == name {
        return Some(datasets[i]);
      }
    }
    return None;
  }

  /** At most one answer is the first match. */
  lemma FirstNamedUnique(datasets: seq<Dataset>, name: string, a: Option<Dataset>, b: Option<Dataset>)
    requires IsFirstNamed(datasets, name, a) && IsFirstNamed(datasets, name, b)
    ensures a == b
  {
    if a.Some? && b.Some? {
      var i :| 0 <= i < |datasets| && datasets[i] == a.value && datasets[i].name == name
               && forall j :: 0 <= j < i ==> datasets[j].name != name;
      var k :| 0 <= k < |datasets| && datasets[k] == b.value && datasets[k].name == name
               && forall j :: 0 <= j < k ==> datasets[j].name != name;
      assert !(i < k) && !(k < i);
    }
  }

  /** `get_by_name`: one page of 100 datasets, scanned for the first exact match;
      no further pages are fetched, and no match is None rather than an error. */
  method GetByName(client: BatchRouter, name: string) returns (r: Result<Option<Dataset>, SdkError>)
    modifies client.transport
    ensures var request := client.Outgoing("GET", DATASETS_PATH, PageParams(1, LOOKUP_PAGE_SIZE), None, None, None);
            && client.transport.sent == old(client.transport.sent) + [request]
            && var listed := PageItems(HandleResponse(client.transport.server(request)), ParseDataset);
               && (listed.Err? ==> r == Err(listed.error))
               && (listed.Ok? ==> r.Ok? && IsFirstNamed(listed.value, name, r.value))
  {
    var listed := List(client, pageSize := LOOKUP_PAGE_SIZE);
    match listed
    case Err(e) =>
      r := Err(e);
    case Ok(datasets) =>
      var found := FindByName(datasets, name);
      r := Ok(found);
  }

  /** `delete`: `DELETE /v1/datasets/{id}`; returns nothing, but errors still surface. */
  method Delete(client: BatchRouter, datasetId: string) returns (r: Result<(), SdkError>)
    modifies client.transport
    ensures var request := client.Outgoing("DELETE", DATASETS_PATH + "/" + datasetId, None, None, None, None);
            && client.transport.sent == old(client.transport.sent) + [request]
            && var response := HandleResponse(client.transport.server(request));
               && (r.Ok? <==> response.Ok?)
               && (r.Err? ==> r.error == response.error)
  {
    var response := client.Request("DELETE", DATASETS_PATH + "/" + datasetId);
    r := if response.Ok? then Ok(()) else Err(response.error);
  }
}
