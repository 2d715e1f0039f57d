/** `ModelSchemaController` of the participant web app: the data schemas known to the central
    registry, and the registration of a new schema there. */
module ModelSchemaController {
  import opened Common
  import opened Clr
  import ClrGuid
  import opened Json
  import opened TokenCache
  import opened WebApi

  /** `Models.ModelSchema` */
  datatype ModelSchema = ModelSchema(id: ClrGuid.Guid, name: NString, description: NString, version: NString,
                                     schemaJSON: NString, schemaBin: NString)

  /** `new ModelSchema()` with `Name` set. */
  function Named(name: string): ModelSchema {
    ModelSchema(ClrGuid.Empty, Some(name), None, None, None, None)
  }

  // ---- GET Index -------------------------------------------------------------------------

  /** One element of the result set: positions 1 to 4 are Name, Description, Version and
      SchemaJSON; position 0 is not read. */
  function DecodeSchema(lib: Library, column: Json): Result<ModelSchema, Exn> {
    var name :- Column(lib, column, 1);
    var description :- Column(lib, column, 2);
    var version :- Column(lib, column, 3);
    var schemaJSON :- Column(lib, column, 4);
    Success(ModelSchema(ClrGuid.Empty, Some(name), Some(description), Some(version), Some(schemaJSON), None))
  }

  const NoSchemas := Named("(No data schemas exist in the system)")
  const SignInRequired := Named("(Sign-in required to view data schemas.)")

  /** A token for the central registry, and `GetSchemas` with an empty schema name. */
  function Listing(s: Settings, lib: Library): ListEndpoint<ModelSchema> {
    ListEndpoint(CentralRegistryAuthority, s.centralRegistryResourceAppId, CentralRegistryBaseAddress,
                 "/api/GetSchemas", [("schemaname", Str(""))], c => DecodeSchema(lib, c), NoSchemas, SignInRequired)
  }

  function IndexGetSpec(s: Settings, lib: Library, token: TokenReply, reply: Reply, reauth: seq<string>,
                        cache: seq<CacheItem>): Step<ModelSchema>
  {
    ListIndex(s, lib, Listing(s, lib), token, reply, reauth, cache)
  }

  /** GET `Index` */
  method IndexGet(s: Settings, lib: Library, token: TokenReply, reply: Reply, reauth: seq<string>, cache: Cache)
    returns (outcome: Outcome<ModelSchema>, trace: seq<Event>)
    modifies cache
    ensures Step(outcome, trace, cache.items) == IndexGetSpec(s, lib, token, reply, reauth, old(cache.items))
  {
    outcome, trace := IndexList(s, lib, Listing(s, lib), token, reply, reauth, cache);
  }

  /** An element decodes exactly when it is an array of at least five cells; the record carries
      cells 1 to 4 as text and the defaults elsewhere. */
  lemma DecodeSchemaColumns(lib: Library, column: Json)
    ensures DecodeSchema(lib, column).Success? <==> column.JArray? && |column.items| >= 5
    ensures DecodeSchema(lib, column).Success? ==>
      var c := column.items;
      DecodeSchema(lib, column).value
        == ModelSchema(ClrGuid.Empty, Some(Text(lib, c[1])), Some(Text(lib, c[2])), Some(Text(lib, c[3])),
                       Some(Text(lib, c[4])), None)
  {
  }

  /** A successful reply whose elements are all arrays of five or more cells lists one schema
      per inner element of every row, in order. */
  lemma IndexGetRecords(s: Settings, lib: Library, t: string, status: int, body: string, rows: seq<Json>,
                        reauth: seq<string>, cache: seq<CacheItem>)
    requires IsSuccessStatusCode(status) && ResultRows(lib, body) == Success(rows)
    requires forall k :: 0 <= k < |Elements(rows)| ==> Elements(rows)[k].JArray? && |Elements(rows)[k].items| >= 5
    ensures var st := IndexGetSpec(s, lib, Issued(t), Responded(status, body), reauth, cache);
      && st.outcome.ListView? && |st.outcome.items| == |Elements(rows)|
      && forall k :: 0 <= k < |Elements(rows)| ==>
           var c := Elements(rows)[k].items;
           st.outcome.items[k]
             == ModelSchema(ClrGuid.Empty, Some(Text(lib, c[1])), Some(Text(lib, c[2])), Some(Text(lib, c[3])),
                            Some(Text(lib, c[4])), None)
  {
    var e := Listing(s, lib);
    forall k | 0 <= k < |Elements(rows)| ensures e.decodeOne(Elements(rows)[k]).Success? {
      DecodeSchemaColumns(lib, Elements(rows)[k]);
    }
    ListIndexSuccess(s, lib, e, t, status, rows, body, reauth, cache);
    forall k | 0 <= k < |Elements(rows)| {
      DecodeSchemaColumns(lib, Elements(rows)[k]);
    }
  }

  /** The request always carries an empty schema name; a 401 evicts the central registry's
      tokens and shows "(No data schemas exist in the system)"; any other failure status falls
      through to the "Error" view. */
  lemma IndexGetOutcomes(s: Settings, lib: Library, t: string, reply: Reply, reauth: seq<string>, cache: seq<CacheItem>)
    ensures var st := IndexGetSpec(s, lib, Issued(t), reply, reauth, cache);
      && st.trace[0] == TokenRequested(CentralRegistryAuthority, s.centralRegistryResourceAppId)
      && Posts(st.trace) == [Request(CentralRegistryBaseAddress, "/api/GetSchemas", t, [("schemaname", Str(""))])]
      && (reply.Responded? && reply.status == Unauthorized ==>
            st.outcome == ListView([NoSchemas], Some("UnexpectedError"))
            && st.cache == Evicted(cache, s.centralRegistryResourceAppId))
      && (reply.Responded? && !IsSuccessStatusCode(reply.status) && reply.status != Unauthorized ==>
            st.outcome == ErrorView && st.cache == cache)
  {
    ListIndexTrace(s, lib, Listing(s, lib), Issued(t), reply, reauth, cache);
  }

  // ---- POST Index --------------------------------------------------------------------------

  /** The form fields of the POST. */
  datatype SchemaForm = SchemaForm(name: NString, description: NString, schemajson: NString)

  const PostCaught := ListView([Named("(No schemas exist in the data catalog)")], Some("AuthorizationRequired"))
  const PostUnauthorized := ItemView(Named("(Sign-in required to view data catalog.)"), Some("UnexpectedError"))

  function RegisterSchemaRequest(token: string, name: NString, description: NString, schemajson: NString): Request {
    Request(CentralRegistryBaseAddress, "/api/RegisterSchema", token,
            [("schemaname", FromNString(name)), ("schemadesc", FromNString(description)),
             ("schema", FromNString(schemajson)), ("broadcast", Flag(true))])
  }

  function Posting(s: Settings): PostEndpoint<ModelSchema> {
    PostEndpoint(CentralRegistryAuthority, s.centralRegistryResourceAppId, PostUnauthorized, ErrorView, PostCaught)
  }

  /** POST `Index`: the description defaults to the name before the request is built. */
  function IndexPostSpec(s: Settings, f: SchemaForm, modelStateValid: bool, token: TokenReply, reply: Reply,
                         cache: seq<CacheItem>): Step<ModelSchema>
  {
    PostIndex(s, Posting(s), modelStateValid, token,
              t => Some(RegisterSchemaRequest(t, f.name, DefaultIfNullOrEmpty(f.description, f.name), f.schemajson)),
              reply, cache)
  }

  /** POST `Index` */
  method IndexPost(s: Settings, f: SchemaForm, modelStateValid: bool, token: TokenReply, reply: Reply, cache: Cache)
    returns (outcome: Outcome<ModelSchema>, trace: seq<Event>)
    modifies cache
    ensures Step(outcome, trace, cache.items) == IndexPostSpec(s, f, modelStateValid, token, reply, old(cache.items))
  {
    var description := f.description;
    if IsNullOrEmpty(description) {
      description := f.name;
    }
    outcome, trace := PostAction(s, Posting(s), modelStateValid, token,
                                 t => Some(RegisterSchemaRequest(t, f.name, description, f.schemajson)), reply, cache);
  }

  /** The name and the schema go to `RegisterSchema` as they are, with `broadcast` true; the
      description is the given one unless that is null or empty, and then the name. */
  lemma RegisterSchemaSent(s: Settings, f: SchemaForm, t: string, reply: Reply, cache: seq<CacheItem>)
    ensures var st := IndexPostSpec(s, f, true, Issued(t), reply, cache);
      && st.trace[0] == TokenRequested(CentralRegistryAuthority, s.centralRegistryResourceAppId)
      && Posts(st.trace) ==
           [Request(CentralRegistryBaseAddress, "/api/RegisterSchema", t,
                    [("schemaname", FromNString(f.name)),
                     ("schemadesc", FromNString(if f.description == None || f.description == Some("") then f.name
                                                else f.description)),
                     ("schema", FromNString(f.schemajson)), ("broadcast", Flag(true))])]
  {
    PostIndexCases(s, Posting(s), true, Issued(t),
                   t => Some(RegisterSchemaRequest(t, f.name, DefaultIfNullOrEmpty(f.description, f.name), f.schemajson)),
                   reply, cache);
  }

  /** Success redirects; a 401 evicts the central registry's tokens and shows the catalog
      sign-in placeholder; any other status falls through to the "Error" view; an exception
      shows "(No schemas exist in the data catalog)" with "AuthorizationRequired"; an invalid
      model state shows the "Error" view and asks for nothing. */
  lemma PostOutcomes(s: Settings, f: SchemaForm, valid: bool, token: TokenReply, reply: Reply, cache: seq<CacheItem>)
    ensures var st := IndexPostSpec(s, f, valid, token, reply, cache);
      && (!valid ==> st == Step(ErrorView, [], cache))
      && (valid && (token.Refused? || reply.Unreachable?) ==> st.outcome == PostCaught && st.cache == cache)
      && (valid && token.Issued? && reply.Responded? && IsSuccessStatusCode(reply.status) ==>
            st.outcome == RedirectToIndex && st.cache == cache)
      && (valid && token.Issued? && reply.Responded? && reply.status == Unauthorized ==>
            st.outcome == PostUnauthorized
            && forall x :: x in st.cache <==> x in cache && x.resource != s.centralRegistryResourceAppId)
      && (valid && token.Issued? && reply.Responded? && !IsSuccessStatusCode(reply.status) && reply.status != Unauthorized ==>
            st.outcome == ErrorView && st.cache == cache)
  {
    PostIndexCases(s, Posting(s), valid, token,
                   t => Some(RegisterSchemaRequest(t, f.name, DefaultIfNullOrEmpty(f.description, f.name), f.schemajson)),
                   reply, cache);
    ClassifyCases(s, reply, PostUnauthorized, ErrorView, PostCaught, cache);
  }
}
