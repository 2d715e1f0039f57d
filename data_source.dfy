/** `DataSourceController` of the participant web app: the data catalog's list, and the
    registration of a CSV data source, whose file goes to Azure blob storage first, is then
    downloaded by the participant's R server, and is finally entered in the catalog. */
module DataSourceController {
  import opened Common
  import opened Clr
  import ClrGuid
  import opened ClrText
  import opened Json
  import opened TokenCache
  import opened WebApi

  /** `Models.DataSource` */
  datatype DataSource = DataSource(id: ClrGuid.Guid, name: NString, description: NString, type_: NString,
                                   modelSchema: NString, accessInfo: NString, isEnabled: bool)

  /** `new DataSource()`: every field at its default, and `Type` "csv". */
  const NewDataSource := DataSource(ClrGuid.Empty, None, None, Some("csv"), None, None, false)

  /** `new DataSource()` with `Name` set. */
  function Named(name: string): DataSource {
    DataSource(ClrGuid.Empty, Some(name), None, Some("csv"), None, None, false)
  }

  // ---- GET Index -------------------------------------------------------------------------

  /** One element of the result set: positions 1 to 5 are Name, Description, Type, ModelSchema
      and AccessInfo; position 0 is not read. */
  function DecodeDataSource(lib: Library, column: Json): Result<DataSource, Exn> {
    var name :- Column(lib, column, 1);
    var description :- Column(lib, column, 2);
    var type_ :- Column(lib, column, 3);
    var modelSchema :- Column(lib, column, 4);
    var accessInfo :- Column(lib, column, 5);
    Success(DataSource(ClrGuid.Empty, Some(name), Some(description), Some(type_), Some(modelSchema),
                       Some(accessInfo), false))
  }

  /** The list action's configuration: a token for `ResourceAppId`, and `GetDataSources` on the
      participant's own web API with the body "{}". */
  function Listing(s: Settings, lib: Library): ListEndpoint<DataSource> {
    ListEndpoint(Authority, s.resourceAppId, ResourceBaseAddress, "/api/GetDataSources", [],
                 c => DecodeDataSource(lib, c),
                 Named("(No data datasources exist in the system)"),
                 Named("(Sign-in required to view data datasources.)"))
  }

  function IndexGetSpec(s: Settings, lib: Library, token: TokenReply, reply: Reply, reauth: seq<string>,
                        cache: seq<CacheItem>): Step<DataSource>
  {
    ListIndex(s, lib, Listing(s, lib), token, reply, reauth, cache)
  }

  /** GET `Index` */
  method IndexGet(s: Settings, lib: Library, token: TokenReply, reply: Reply, reauth: seq<string>, cache: Cache)
    returns (outcome: Outcome<DataSource>, trace: seq<Event>)
    modifies cache
    ensures Step(outcome, trace, cache.items) == IndexGetSpec(s, lib, token, reply, reauth, old(cache.items))
  {
    outcome, trace := IndexList(s, lib, Listing(s, lib), token, reply, reauth, cache);
  }

  /** An element decodes exactly when it is an array of at least six cells; the record then
      carries cells 1 to 5 as text, and the defaults (with Type "csv" overwritten) elsewhere. */
  lemma DecodeDataSourceColumns(lib: Library, column: Json)
    ensures DecodeDataSource(lib, column).Success? <==> column.JArray? && |column.items| >= 6
    ensures DecodeDataSource(lib, column).Success? ==>
      var c := column.items;
      DecodeDataSource(lib, column).value
        == DataSource(ClrGuid.Empty, Some(Text(lib, c[1])), Some(Text(lib, c[2])), Some(Text(lib, c[3])),
                      Some(Text(lib, c[4])), Some(Text(lib, c[5])), false)
  {
  }

  /** Position 0 is never read. */
  lemma DecodeDataSourceIgnoresFirst(lib: Library, a: Json, b: Json, rest: seq<Json>)
    ensures DecodeDataSource(lib, JArray([a] + rest)) == DecodeDataSource(lib, JArray([b] + rest))
  {
    var x, y := [a] + rest, [b] + rest;
    assert forall k :: 1 <= k < |x| ==> x[k] == y[k];
  }

  /** A successful reply whose elements are all arrays of six or more cells lists one data
      source per inner element of every row, in order, each made from cells 1 to 5. */
  lemma IndexGetRecords(s: Settings, lib: Library, t: string, status: int, body: string, rows: seq<Json>,
                        reauth: seq<string>, cache: seq<CacheItem>)
    requires IsSuccessStatusCode(status) && ResultRows(lib, body) == Success(rows)
    requires forall k :: 0 <= k < |Elements(rows)| ==> Elements(rows)[k].JArray? && |Elements(rows)[k].items| >= 6
    ensures var st := IndexGetSpec(s, lib, Issued(t), Responded(status, body), reauth, cache);
      && st.outcome.ListView? && |st.outcome.items| == |Elements(rows)|
      && forall k :: 0 <= k < |Elements(rows)| ==>
           var c := Elements(rows)[k].items;
           st.outcome.items[k]
             == DataSource(ClrGuid.Empty, Some(Text(lib, c[1])), Some(Text(lib, c[2])), Some(Text(lib, c[3])),
                           Some(Text(lib, c[4])), Some(Text(lib, c[5])), false)
  {
    var e := Listing(s, lib);
    forall k | 0 <= k < |Elements(rows)| ensures e.decodeOne(Elements(rows)[k]).Success? {
      DecodeDataSourceColumns(lib, Elements(rows)[k]);
    }
    ListIndexSuccess(s, lib, e, t, status, rows, body, reauth, cache);
    forall k | 0 <= k < |Elements(rows)| {
      DecodeDataSourceColumns(lib, Elements(rows)[k]);
    }
  }

  /** A 401 evicts the central registry's tokens (though the token was acquired for
      `ResourceAppId`) and shows "(No data datasources exist in the system)"; any other failure
      status shows the "Error" view; an exception shows the challenge or the sign-in placeholder. */
  lemma IndexGetFailures(s: Settings, lib: Library, token: TokenReply, reply: Reply, reauth: seq<string>,
                         cache: seq<CacheItem>)
    ensures var st := IndexGetSpec(s, lib, token, reply, reauth, cache);
      && (token.Issued? && reply.Responded? && reply.status == Unauthorized ==>
            st.outcome == ListView([Named("(No data datasources exist in the system)")], Some("UnexpectedError"))
            && st.cache == Evicted(cache, s.centralRegistryResourceAppId))
      && (token.Issued? && reply.Responded? && !IsSuccessStatusCode(reply.status) && reply.status != Unauthorized ==>
            st.outcome == ErrorView && st.cache == cache)
      && ((token.Refused? || reply.Unreachable?) ==>
            st.cache == cache
            && st.outcome == if ReauthRequested(reauth) then Challenge
                             else ListView([Named("(Sign-in required to view data datasources.)")],
                                           Some("AuthorizationRequired" + Message(
                                             if token.Refused? then AdalServiceError(token.message)
                                             else HttpRequestError(reply.message)))))
  {
  }

  /** The token is acquired for `ResourceAppId` but the 401 branch evicts the central registry's
      tokens: when the two ids differ, the token that was refused stays cached. */
  lemma IndexGetKeepsRefusedToken(s: Settings, lib: Library, t: string, body: string, reauth: seq<string>,
                                  cache: seq<CacheItem>)
    requires s.resourceAppId != s.centralRegistryResourceAppId
    ensures var st := IndexGetSpec(s, lib, Issued(t), Responded(Unauthorized, body), reauth, cache);
      && st.trace[0] == TokenRequested(Authority, s.resourceAppId)
      && WithResource(st.cache, s.resourceAppId) == WithResource(cache, s.resourceAppId)
  {
    EvictedKeepsOthers(cache, s.centralRegistryResourceAppId, s.resourceAppId);
  }

  // ---- UploadFileToAzureBlob ---------------------------------------------------------------

  /** `SharedAccessBlobPermissions` */
  datatype BlobPermission = Read | Write | Delete | List | Add | Create

  /** `SharedAccessBlobPolicy`, with times in minutes of UTC. */
  datatype SasPolicy = SasPolicy(start: int, expiry: int, permissions: set<BlobPermission>)

  /** The policy built from two readings of `DateTimeOffset.UtcNow`: from five minutes before
      the first, to twenty-four hours after the second, read-only. */
  function SasPolicyAt(startNow: int, expiryNow: int): (p: SasPolicy)
    ensures p.permissions == {Read}
  {
    SasPolicy(startNow - 5, expiryNow + 24 * 60, {Read})
  }

  /** The storage account, as the answers of the Azure storage library: whether each reference
      could be obtained, whether the transfer completed, the URI of a blob by name, and the
      signature of a policy (or the exception signing throws). */
  datatype Storage = Storage(
    account: bool,                       // CloudStorageAccount.Parse gave an account
    blobClient: bool,                    // CreateCloudBlobClient gave a client
    container: bool,                     // GetContainerReference("data") gave a container
    blob: bool,                          // GetBlockBlobReference gave a blob
    transfer: bool,                      // TransferManager.UploadAsync(...).Wait() returned
    blobUri: string -> string,           // fileBlob.Uri
    sign: SasPolicy -> Option<string>)   // fileBlob.GetSharedAccessSignature(policy)

  /** `IFormFile`, of which only the client's file name is read. */
  datatype FormFile = FormFile(fileName: string)

  /** `Tuple<bool, string>` returned by the upload, with the storage calls it made. */
  datatype Upload = Upload(succeeded: bool, uri: NString, events: seq<Event>)

  const DataContainer := "data"

  /** `name + Path.GetExtension(file.FileName)`: the blob's name and the local file's name. */
  function LocalFileName(name: NString, file: FormFile): string {
    Concat(name, Some(GetExtension(file.fileName)))
  }

  function UploadSpec(name: NString, file: Option<FormFile>, storage: Storage, startNow: int, expiryNow: int): (u: Upload)
    ensures u.succeeded <==> u.uri.Some?
  {
    if !storage.account || !storage.blobClient || !storage.container then Upload(false, None, [])
    else
      var created := [ContainerCreateRequested(DataContainer)];
      if file.None? || !storage.blob then Upload(false, None, created)
      else
        var blobName := LocalFileName(name, file.value);
        var started := created + [BlobUploadStarted(blobName)];
        if !storage.transfer then Upload(false, None, started)
        else
          match storage.sign(SasPolicyAt(startNow, expiryNow))
          case None => Upload(false, None, started)
          case Some(sas) => Upload(true, Some(storage.blobUri(blobName) + sas), started)
  }

  /** `UploadFileToAzureBlob(name, file)`: every step that fails returns the initial
      `(false, null)`, whether by an early return or through the `catch` block. A null file
      fails when the blob name is built. */
  method UploadFileToAzureBlob(name: NString, file: Option<FormFile>, storage: Storage, startNow: int, expiryNow: int)
    returns (succeeded: bool, uri: NString, events: seq<Event>)
    ensures Upload(succeeded, uri, events) == UploadSpec(name, file, storage, startNow, expiryNow)
  {
    succeeded, uri, events := false, None, [];
    if !storage.account {
      return;
    }
    if !storage.blobClient {
      return;
    }
    if !storage.container {
      return;
    }
    events := events + [ContainerCreateRequested(DataContainer)];
    if file.None? {
      return;
    }
    if !storage.blob {
      return;
    }
    var blobName := LocalFileName(name, file.value);
    events := events + [BlobUploadStarted(blobName)];
    if !storage.transfer {
      return;
    }
    var policy := SasPolicyAt(startNow, expiryNow);
    var sas := storage.sign(policy);
    if sas.None? {
      return;
    }
    succeeded, uri := true, Some(storage.blobUri(blobName) + sas.value);
  }

  /** The signature is valid from five minutes before the upload finished, read-only, and for
      at least twenty-four hours after that; when the clock advanced by `d` minutes between its
      two readings, it is valid for 24 hours and 5 minutes plus `d`. */
  lemma SasPolicyWindow(startNow: int, expiryNow: int)
    requires startNow <= expiryNow
    ensures var p := SasPolicyAt(startNow, expiryNow);
      && p.start == startNow - 5 && p.start < startNow
      && p.expiry >= startNow + 24 * 60
      && p.expiry - p.start == 24 * 60 + 5 + (expiryNow - startNow)
      && p.permissions == {Read} && Write !in p.permissions && Delete !in p.permissions
  {
  }

  /** A successful upload has put the blob `name + extension` and hands back that blob's URI
      followed by the signature of the read-only policy. */
  lemma UploadSucceeded(name: NString, file: Option<FormFile>, storage: Storage, startNow: int, expiryNow: int)
    requires UploadSpec(name, file, storage, startNow, expiryNow).succeeded
    ensures var u := UploadSpec(name, file, storage, startNow, expiryNow);
      && file.Some?
      && storage.sign(SasPolicyAt(startNow, expiryNow)).Some?
      && u.events == [ContainerCreateRequested(DataContainer), BlobUploadStarted(LocalFileName(name, file.value))]
      && u.uri == Some(storage.blobUri(LocalFileName(name, file.value)) + storage.sign(SasPolicyAt(startNow, expiryNow)).value)
  {
  }

  // ---- POST Index --------------------------------------------------------------------------

  /** The form fields of the POST. */
  datatype DataSourceForm = DataSourceForm(name: NString, description: NString, type_: NString,
                                           modelschema: NString, datafile: Option<FormFile>)

  const UnsupportedTypeMessage := "Unsupported data source type."
  const UploadErrorMessage := "Error uploading file to Azure blob. Please contact the Administrator before proceeding."
  const DataDirectory := "/var/lib/mlsdistcomp/data/"

  /** What the `catch` block of the POST shows. */
  const PostCaught := ListView([Named("(No datasources exist in the data catalog)")], Some("AuthorizationRequired"))

  /** What a 401 from `CreateCSVDataSource` shows. */
  const PostUnauthorized := ItemView(Named("(Sign-in required to view data catalog.)"), Some("UnexpectedError"))

  function DownloadRequest(token: string, downloadUri: string, localFileName: string): Request {
    Request(ResourceBaseAddress, "/api/DownloadDataSourceFile", token,
            [("downloaduri", Str(downloadUri)), ("localfilename", Str(localFileName))])
  }

  function CreateRequest(token: string, name: NString, description: NString, modelschema: NString,
                         localFileName: string): Request
  {
    Request(ResourceBaseAddress, "/api/CreateCSVDataSource", token,
            [("datasourcename", FromNString(name)), ("datasourcedesc", FromNString(description)),
             ("schemaname", FromNString(modelschema)), ("datasourcelocation", Str(DataDirectory + localFileName))])
  }

  /** POST `Index`, as a function of what it is given and the answers it gets. */
  function IndexPostSpec(s: Settings, f: DataSourceForm, modelStateValid: bool, token: TokenReply, storage: Storage,
                         startNow: int, expiryNow: int, download: Reply, create: Reply,
                         cache: seq<CacheItem>): Step<DataSource>
  {
    if !modelStateValid then Step(ErrorView, [], cache)
    else
      var acquired := [TokenRequested(Authority, s.resourceAppId)];
      match token
      case Refused(_) => Step(PostCaught, acquired, cache)
      case Issued(t) =>
        if !IsCsvType(f.type_) then Step(FormView(Some(UnsupportedTypeMessage)), acquired, cache)
        else
          var after := UploadAndRegister(s, t, f, storage, startNow, expiryNow, download, create, cache);
          after.(trace := acquired + after.trace)
  }

  /** The part of POST `Index` after the type check: upload, download, catalog entry. */
  function UploadAndRegister(s: Settings, t: string, f: DataSourceForm, storage: Storage, startNow: int,
                             expiryNow: int, download: Reply, create: Reply, cache: seq<CacheItem>): Step<DataSource>
  {
    var up := UploadSpec(f.name, f.datafile, storage, startNow, expiryNow);
    if f.datafile.None? then Step(PostCaught, up.events, cache)
    else if !up.succeeded then Step(FormView(Some(UploadErrorMessage)), up.events, cache)
    else
      var local := LocalFileName(f.name, f.datafile.value);
      var downloading := up.events + [Posted(DownloadRequest(t, up.uri.value, local))];
      if download.Unreachable? then Step(PostCaught, downloading, cache)
      else
        var description := DefaultIfNullOrEmpty(f.description, f.name);
        var creating := downloading + [Posted(CreateRequest(t, f.name, description, f.modelschema, local))];
        var (outcome, after) := Classify(s, create, PostUnauthorized, ErrorView, PostCaught, cache);
        Step(outcome, creating, after)
  }

  /** POST `Index` */
  method IndexPost(s: Settings, f: DataSourceForm, modelStateValid: bool, token: TokenReply, storage: Storage,
                   startNow: int, expiryNow: int, download: Reply, create: Reply, cache: Cache)
    returns (outcome: Outcome<DataSource>, trace: seq<Event>)
    modifies cache
    ensures Step(outcome, trace, cache.items)
            == IndexPostSpec(s, f, modelStateValid, token, storage, startNow, expiryNow, download, create, old(cache.items))
  {
    trace := [];
    if !modelStateValid {
      return ErrorView, trace;
    }
    trace := trace + [TokenRequested(Authority, s.resourceAppId)];
    if token.Refused? {
      return PostCaught, trace;
    }
    if !IsCsvType(f.type_) {
      return FormView(Some(UnsupportedTypeMessage)), trace;
    }
    var rest: seq<Event>;
    outcome, rest := UploadAndRegisterSteps(s, token.accessToken, f, storage, startNow, expiryNow, download, create, cache);
    trace := trace + rest;
  }

  /** The statements of POST `Index` after the type check. */
  method UploadAndRegisterSteps(s: Settings, t: string, f: DataSourceForm, storage: Storage, startNow: int,
                                expiryNow: int, download: Reply, create: Reply, cache: Cache)
    returns (outcome: Outcome<DataSource>, trace: seq<Event>)
    modifies cache
    ensures Step(outcome, trace, cache.items)
            == UploadAndRegister(s, t, f, storage, startNow, expiryNow, download, create, old(cache.items))
  {
    var succeeded, uri, events := UploadFileToAzureBlob(f.name, f.datafile, storage, startNow, expiryNow);
    trace := events;
    if f.datafile.None? {
      return PostCaught, trace;
    }
    var local := LocalFileName(f.name, f.datafile.value);
    if !succeeded {
      return FormView(Some(UploadErrorMessage)), trace;
    }
    trace := trace + [Posted(DownloadRequest(t, uri.value, local))];
    if download.Unreachable? {
      return PostCaught, trace;
    }
    var description := f.description;
    if IsNullOrEmpty(description) {
      description := f.name;
    }
    trace := trace + [Posted(CreateRequest(t, f.name, description, f.modelschema, local))];
    outcome := ClassifyReply(s, create, PostUnauthorized, ErrorView, PostCaught, cache);
  }

  /** A type other than "csv" (in any letter case, with any surrounding white space) is
      rejected before anything is uploaded or sent; the token has been acquired by then. */
  lemma UnsupportedTypeSendsNothing(s: Settings, f: DataSourceForm, t: string, storage: Storage, startNow: int,
                                    expiryNow: int, download: Reply, create: Reply, cache: seq<CacheItem>)
    requires f.type_.None? ||
      forall i, j :: (0 <= i <= j <= |f.type_.value| && AllSatisfy(f.type_.value[..i], IsWhiteSpace)
                      && AllSatisfy(f.type_.value[j..], IsWhiteSpace)) ==> ToLower(f.type_.value[i..j]) != "csv"
    ensures IndexPostSpec(s, f, true, Issued(t), storage, startNow, expiryNow, download, create, cache)
            == Step(FormView(Some(UnsupportedTypeMessage)), [TokenRequested(Authority, s.resourceAppId)], cache)
  {
    if f.type_.Some? && IsCsvType(f.type_) {
      CsvTypeHasCsvCore(f.type_.value);
    }
  }

  /** A type that is "csv" up to letter case and surrounding white space passes the check. */
  lemma CsvTypeAccepted(p: string, core: string, q: string)
    requires AllSatisfy(p, IsWhiteSpace) && AllSatisfy(q, IsWhiteSpace) && ToLower(core) == "csv"
    ensures IsCsvType(Some(p + core + q))
  {
    CsvCoreIsCsvType(p, core, q);
  }

  /** A failed upload shows the upload error and sends neither `DownloadDataSourceFile` nor
      `CreateCSVDataSource`. */
  lemma UploadFailureSendsNothing(s: Settings, f: DataSourceForm, t: string, storage: Storage, startNow: int,
                                  expiryNow: int, download: Reply, create: Reply, cache: seq<CacheItem>)
    requires IsCsvType(f.type_) && f.datafile.Some?
    requires !UploadSpec(f.name, f.datafile, storage, startNow, expiryNow).succeeded
    ensures var st := IndexPostSpec(s, f, true, Issued(t), storage, startNow, expiryNow, download, create, cache);
      && st.outcome == FormView(Some(UploadErrorMessage))
      && SendsNothing(st.trace)
      && st.cache == cache
  {
    var up := UploadSpec(f.name, f.datafile, storage, startNow, expiryNow);
    var st := IndexPostSpec(s, f, true, Issued(t), storage, startNow, expiryNow, download, create, cache);
    assert st.trace == [TokenRequested(Authority, s.resourceAppId)] + up.events;
  }

  /** Once the upload succeeded, the blob, the downloaded local file and the catalog's location
      all use the one name `name + extension`; the description falls back to the name; and the
      two requests go out in this order. */
  lemma UploadedFileNames(s: Settings, f: DataSourceForm, t: string, storage: Storage, startNow: int,
                          expiryNow: int, status: int, body: string, create: Reply, cache: seq<CacheItem>)
    requires IsCsvType(f.type_)
    requires UploadSpec(f.name, f.datafile, storage, startNow, expiryNow).succeeded
    ensures var st := IndexPostSpec(s, f, true, Issued(t), storage, startNow, expiryNow, Responded(status, body), create, cache);
      var local := LocalFileName(f.name, f.datafile.value);
      var uri := UploadSpec(f.name, f.datafile, storage, startNow, expiryNow).uri.value;
      && BlobUploadStarted(local) in st.trace
      && Posts(st.trace) == [
           Request(ResourceBaseAddress, "/api/DownloadDataSourceFile", t,
                   [("downloaduri", Str(uri)), ("localfilename", Str(local))]),
           Request(ResourceBaseAddress, "/api/CreateCSVDataSource", t,
                   [("datasourcename", FromNString(f.name)),
                    ("datasourcedesc", FromNString(if IsNullOrEmpty(f.description) then f.name else f.description)),
                    ("schemaname", FromNString(f.modelschema)),
                    ("datasourcelocation", Str(DataDirectory + local))])]
  {
    var local := LocalFileName(f.name, f.datafile.value);
    var up := UploadSpec(f.name, f.datafile, storage, startNow, expiryNow);
    var d := Posted(DownloadRequest(t, up.uri.value, local));
    var c := Posted(CreateRequest(t, f.name, DefaultIfNullOrEmpty(f.description, f.name), f.modelschema, local));
    var quiet := [TokenRequested(Authority, s.resourceAppId), ContainerCreateRequested(DataContainer),
                  BlobUploadStarted(local)];
    UploadedTrace(s, f, t, storage, startNow, expiryNow, status, body, create, cache);
    var trace := IndexPostSpec(s, f, true, Issued(t), storage, startNow, expiryNow, Responded(status, body), create, cache).trace;
    assert trace == quiet + [d, c];
    assert trace[2] == BlobUploadStarted(local);
    PostsQuietThenTwo(quiet, d, c);
  }

  /** The trace of a POST whose upload succeeded: the token request, the two storage events,
      then the two requests. */
  lemma UploadedTrace(s: Settings, f: DataSourceForm, t: string, storage: Storage, startNow: int,
                      expiryNow: int, status: int, body: string, create: Reply, cache: seq<CacheItem>)
    requires IsCsvType(f.type_)
    requires UploadSpec(f.name, f.datafile, storage, startNow, expiryNow).succeeded
    ensures var local := LocalFileName(f.name, f.datafile.value);
      var up := UploadSpec(f.name, f.datafile, storage, startNow, expiryNow);
      IndexPostSpec(s, f, true, Issued(t), storage, startNow, expiryNow, Responded(status, body), create, cache).trace
      == [TokenRequested(Authority, s.resourceAppId), ContainerCreateRequested(DataContainer), BlobUploadStarted(local)]
         + [Posted(DownloadRequest(t, up.uri.value, local)),
            Posted(CreateRequest(t, f.name, DefaultIfNullOrEmpty(f.description, f.name), f.modelschema, local))]
  {
    UploadSucceeded(f.name, f.datafile, storage, startNow, expiryNow);
  }

  /** The reply to `DownloadDataSourceFile` is never looked at: whatever its status and body,
      the action ends the same way. */
  lemma DownloadReplyIgnored(s: Settings, f: DataSourceForm, valid: bool, token: TokenReply, storage: Storage,
                             startNow: int, expiryNow: int, status1: int, body1: string, status2: int,
                             body2: string, create: Reply, cache: seq<CacheItem>)
    ensures IndexPostSpec(s, f, valid, token, storage, startNow, expiryNow, Responded(status1, body1), create, cache)
            == IndexPostSpec(s, f, valid, token, storage, startNow, expiryNow, Responded(status2, body2), create, cache)
  {
  }

  /** After both requests went out, the `CreateCSVDataSource` reply decides: success redirects,
      a 401 evicts the central registry's tokens and shows the sign-in placeholder, any other
      status falls through to the "Error" view, and a failed send shows the catalog placeholder. */
  lemma CreateReplyDecides(s: Settings, f: DataSourceForm, t: string, storage: Storage, startNow: int,
                           expiryNow: int, status: int, body: string, create: Reply, cache: seq<CacheItem>)
    requires IsCsvType(f.type_)
    requires UploadSpec(f.name, f.datafile, storage, startNow, expiryNow).succeeded
    ensures var st := IndexPostSpec(s, f, true, Issued(t), storage, startNow, expiryNow, Responded(status, body), create, cache);
      && (create.Responded? && IsSuccessStatusCode(create.status) ==> st.outcome == RedirectToIndex && st.cache == cache)
      && (create.Responded? && create.status == Unauthorized ==>
            st.outcome == PostUnauthorized
            && forall x :: x in st.cache <==> x in cache && x.resource != s.centralRegistryResourceAppId)
      && (create.Responded? && !IsSuccessStatusCode(create.status) && create.status != Unauthorized ==>
            st.outcome == ErrorView && st.cache == cache)
      && (create.Unreachable? ==> st.outcome == PostCaught && st.cache == cache)
  {
    UploadSucceeded(f.name, f.datafile, storage, startNow, expiryNow);
    ClassifyCases(s, create, PostUnauthorized, ErrorView, PostCaught, cache);
  }

  /** A missing file is not reported as an upload error: building the local file name
      dereferences it, and the `catch` block answers instead. */
  lemma MissingFileIsCaught(s: Settings, f: DataSourceForm, t: string, storage: Storage, startNow: int,
                            expiryNow: int, download: Reply, create: Reply, cache: seq<CacheItem>)
    requires IsCsvType(f.type_) && f.datafile.None?
    ensures var st := IndexPostSpec(s, f, true, Issued(t), storage, startNow, expiryNow, download, create, cache);
      st.outcome == PostCaught && SendsNothing(st.trace) && st.cache == cache
  {
    var st := IndexPostSpec(s, f, true, Issued(t), storage, startNow, expiryNow, download, create, cache);
    assert st.trace == [TokenRequested(Authority, s.resourceAppId)] + UploadSpec(f.name, f.datafile, storage, startNow, expiryNow).events;
  }

  /** An invalid model state shows the "Error" view and asks nothing of anybody. */
  lemma InvalidModelState(s: Settings, f: DataSourceForm, token: TokenReply, storage: Storage, startNow: int,
                          expiryNow: int, download: Reply, create: Reply, cache: seq<CacheItem>)
    ensures IndexPostSpec(s, f, false, token, storage, startNow, expiryNow, download, create, cache)
            == Step(ErrorView, [], cache)
  {
  }
}
