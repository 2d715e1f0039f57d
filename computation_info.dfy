/** `ComputationInfoController` of the central registry web app: the list of computation
    projects, and the proposal of a project or the registration of the computation types. */
module ComputationInfoController {
  import opened Common
  import opened Clr
  import ClrGuid
  import opened ClrText
  import opened Json
  import opened Cells
  import opened TokenCache
  import opened WebApi

  /** `Models.ComputationInfo` */
  datatype ComputationInfo = ComputationInfo(id: ClrGuid.Guid, projectName: NString, projectDesc: NString,
                                             formula: NString, dataCatalog: NString, computationType: NString,
                                             isEnabled: bool, validFrom: DateTime, validTo: DateTime,
                                             broadcast: bool)

  /** `new ComputationInfo()` with `ProjectName` set. */
  function Named(projectName: string): ComputationInfo {
    ComputationInfo(ClrGuid.Empty, Some(projectName), None, None, None, None, false, MinDateTime, MinDateTime, false)
  }

  // ---- GET Index -------------------------------------------------------------------------

  /** One element of the result set, cell by cell in the order the assignments run: the id,
      five strings, the enabled flag, the two validity dates; `Broadcast` is set to true. */
  function DecodeComputationInfo(lib: Library, column: Json): Result<ComputationInfo, Exn> {
    var id :- GuidCell(lib, column, 0);
    var projectName :- Column(lib, column, 1);
    var projectDesc :- Column(lib, column, 2);
    var formula :- Column(lib, column, 3);
    var dataCatalog :- Column(lib, column, 4);
    var computationType :- Column(lib, column, 5);
    var isEnabled :- FlagCell(lib, column, 6);
    var validFrom :- DateCell(lib, column, 7);
    var validTo :- DateCell(lib, column, 8);
    Success(ComputationInfo(id, Some(projectName), Some(projectDesc), Some(formula), Some(dataCatalog),
                            Some(computationType), isEnabled, validFrom, validTo, true))
  }

  const NoProjects := Named("(No computation projects exist in the system)")
  const SignInRequired := Named("(Sign-in required to view computation projects.)")

  /** A token for the central registry, and `GetComputationProjects` with an empty project name. */
  function Listing(s: Settings, lib: Library): ListEndpoint<ComputationInfo> {
    ListEndpoint(Authority, s.centralRegistryResourceAppId, CentralRegistryBaseAddress,
                 "/api/GetComputationProjects", [("projectname", Str(""))],
                 c => DecodeComputationInfo(lib, c), NoProjects, SignInRequired)
  }

  function IndexGetSpec(s: Settings, lib: Library, token: TokenReply, reply: Reply, reauth: seq<string>,
                        cache: seq<CacheItem>): Step<ComputationInfo>
  {
    ListIndex(s, lib, Listing(s, lib), token, reply, reauth, cache)
  }

  /** GET `Index` */
  method IndexGet(s: Settings, lib: Library, token: TokenReply, reply: Reply, reauth: seq<string>, cache: Cache)
    returns (outcome: Outcome<ComputationInfo>, trace: seq<Event>)
    modifies cache
    ensures Step(outcome, trace, cache.items) == IndexGetSpec(s, lib, token, reply, reauth, old(cache.items))
  {
    outcome, trace := IndexList(s, lib, Listing(s, lib), token, reply, reauth, cache);
  }

  /** The cells of an element that decodes: at least nine, with a Guid in cell 0, an Int32 in
      cell 6 and dates in cells 7 and 8. */
  predicate Decodable(lib: Library, c: seq<Json>) {
    |c| >= 9
    && lib.parseGuid(Text(lib, c[0])).Success?
    && ToInt32(Text(lib, c[6])).Success?
    && lib.parseDateTime(Text(lib, c[7])).Success?
    && lib.parseDateTime(Text(lib, c[8])).Success?
  }

  /** The record such an element decodes to. */
  function Decoded(lib: Library, c: seq<Json>): ComputationInfo
    requires Decodable(lib, c)
  {
    ComputationInfo(lib.parseGuid(Text(lib, c[0])).value, Some(Text(lib, c[1])), Some(Text(lib, c[2])),
                    Some(Text(lib, c[3])), Some(Text(lib, c[4])), Some(Text(lib, c[5])),
                    ToInt32(Text(lib, c[6])) == Success(1),
                    lib.parseDateTime(Text(lib, c[7])).value, lib.parseDateTime(Text(lib, c[8])).value, true)
  }

  /** An element decodes exactly when it is an array of at least nine cells whose cell 0 is a
      Guid, cell 6 an Int32 and cells 7 and 8 dates; the record takes every field from its own
      cell, is enabled exactly when cell 6 is 1, and is always a broadcast project. */
  lemma DecodeComputationInfoColumns(lib: Library, column: Json)
    ensures DecodeComputationInfo(lib, column).Success? <==> column.JArray? && Decodable(lib, column.items)
    ensures DecodeComputationInfo(lib, column).Success? ==>
      column.JArray? && Decodable(lib, column.items) && DecodeComputationInfo(lib, column).value == Decoded(lib, column.items)
  {
  }

  /** `Broadcast` is true whatever the reply says. */
  lemma DecodedIsBroadcast(lib: Library, column: Json)
    requires DecodeComputationInfo(lib, column).Success?
    ensures DecodeComputationInfo(lib, column).value.broadcast
    ensures DecodeComputationInfo(lib, column).value.isEnabled <==> ToInt32(Text(lib, column.items[6])) == Success(1)
  {
    DecodeComputationInfoColumns(lib, column);
  }

  /** A flag cell that is not an Int32 (in an element whose cells before it are fine) makes the
      decoding fail with the conversion's exception. */
  lemma BadFlagFails(lib: Library, column: Json)
    requires column.JArray? && |column.items| >= 9 && lib.parseGuid(Text(lib, column.items[0])).Success?
    requires ToInt32(Text(lib, column.items[6])).Failure?
    ensures DecodeComputationInfo(lib, column) == Failure(ToInt32(Text(lib, column.items[6])).error)
  {
  }

  /** A successful reply whose elements all decode lists one project per inner element of every
      row, in order. */
  lemma IndexGetRecords(s: Settings, lib: Library, t: string, status: int, body: string, rows: seq<Json>,
                        reauth: seq<string>, cache: seq<CacheItem>)
    requires IsSuccessStatusCode(status) && ResultRows(lib, body) == Success(rows)
    requires forall k :: 0 <= k < |Elements(rows)| ==> DecodeComputationInfo(lib, Elements(rows)[k]).Success?
    ensures var st := IndexGetSpec(s, lib, Issued(t), Responded(status, body), reauth, cache);
      && st.outcome.ListView? && |st.outcome.items| == |Elements(rows)|
      && forall k :: 0 <= k < |Elements(rows)| ==>
           Elements(rows)[k].JArray? && Decodable(lib, Elements(rows)[k].items)
           && st.outcome.items[k] == Decoded(lib, Elements(rows)[k].items)
  {
    ListIndexSuccess(s, lib, Listing(s, lib), t, status, rows, body, reauth, cache);
    forall k | 0 <= k < |Elements(rows)| {
      DecodeComputationInfoColumns(lib, Elements(rows)[k]);
    }
  }

  /** An element whose flag is not an integer ends the action in the `catch` block: a challenge
      when re-authentication was asked for, otherwise the sign-in placeholder last. */
  lemma IndexGetBadFlag(s: Settings, lib: Library, t: string, status: int, body: string, rows: seq<Json>, k: nat,
                        reauth: seq<string>, cache: seq<CacheItem>)
    requires IsSuccessStatusCode(status) && ResultRows(lib, body) == Success(rows)
    requires k < |Elements(rows)| && Elements(rows)[k].JArray? && |Elements(rows)[k].items| >= 9
    requires lib.parseGuid(Text(lib, Elements(rows)[k].items[0])).Success?
    requires ToInt32(Text(lib, Elements(rows)[k].items[6])).Failure?
    ensures var st := IndexGetSpec(s, lib, Issued(t), Responded(status, body), reauth, cache);
      && st.cache == cache
      && (ReauthRequested(reauth) ==> st.outcome == Challenge)
      && (!ReauthRequested(reauth) ==>
            st.outcome.ListView? && |st.outcome.items| >= 1
            && st.outcome.items[|st.outcome.items| - 1] == SignInRequired
            && st.outcome.errorMessage.Some? && StartsWith(st.outcome.errorMessage.value, "AuthorizationRequired"))
  {
    var e := Listing(s, lib);
    BadFlagFails(lib, Elements(rows)[k]);
    assert e.decodeOne(Elements(rows)[k]).Failure?;
    ListIndexBadElement(s, lib, Listing(s, lib), t, status, body, rows, k, reauth, cache);
  }

  /** The request always carries an empty project name; a 401 evicts the central registry's
      tokens and shows "(No computation projects exist in the system)"; any other failure
      status falls through to the "Error" view. */
  lemma IndexGetOutcomes(s: Settings, lib: Library, t: string, reply: Reply, reauth: seq<string>, cache: seq<CacheItem>)
    ensures var st := IndexGetSpec(s, lib, Issued(t), reply, reauth, cache);
      && st.trace[0] == TokenRequested(Authority, s.centralRegistryResourceAppId)
      && Posts(st.trace) == [Request(CentralRegistryBaseAddress, "/api/GetComputationProjects", t, [("projectname", Str(""))])]
      && (reply.Responded? && reply.status == Unauthorized ==>
            st.outcome == ListView([NoProjects], Some("UnexpectedError"))
            && st.cache == Evicted(cache, s.centralRegistryResourceAppId))
      && (reply.Responded? && !IsSuccessStatusCode(reply.status) && reply.status != Unauthorized ==>
            st.outcome == ErrorView && st.cache == cache)
  {
    ListIndexTrace(s, lib, Listing(s, lib), Issued(t), reply, reauth, cache);
  }

  // ---- POST Index --------------------------------------------------------------------------

  /** The form fields of the POST. */
  datatype ProjectForm = ProjectForm(projectname: NString, projectdesc: NString, schemaname: NString,
                                     computationtype: NString, formula: NString, submitbutton: NString)

  /** What an exception and a 401 show. */
  const PostCaught := ListView([SignInRequired], Some("AuthorizationRequired"))
  const PostUnauthorized := ListView([SignInRequired], Some("UnexpectedError"))

  function ProposeRequest(token: string, f: ProjectForm): Request {
    Request(CentralRegistryBaseAddress, "/api/ProposeComputation", token,
            [("projectname", FromNString(f.projectname)), ("projectdesc", FromNString(f.projectdesc)),
             ("schemaname", FromNString(f.schemaname)), ("computationtype", FromNString(f.computationtype)),
             ("formula", FromNString(f.formula)), ("broadcast", Flag(true))])
  }

  /** The request the pressed button calls for: a proposal, the registration of the
      computation types (body "{}"), or none for any other button. */
  function ButtonRequest(token: string, f: ProjectForm): (r: Option<Request>)
    ensures r.None? <==> f.submitbutton != Some("Propose") && f.submitbutton != Some("Register")
  {
    if f.submitbutton == Some("Propose") then Some(ProposeRequest(token, f))
    else if f.submitbutton == Some("Register") then
      Some(Request(CentralRegistryBaseAddress, "/api/RegisterComputations", token, []))
    else None
  }

  function Posting(s: Settings): PostEndpoint<ComputationInfo> {
    PostEndpoint(Authority, s.centralRegistryResourceAppId, PostUnauthorized, ErrorView, PostCaught)
  }

  function IndexPostSpec(s: Settings, f: ProjectForm, modelStateValid: bool, token: TokenReply, reply: Reply,
                         cache: seq<CacheItem>): Step<ComputationInfo>
  {
    PostIndex(s, Posting(s), modelStateValid, token, t => ButtonRequest(t, f), reply, cache)
  }

  /** POST `Index` */
  method IndexPost(s: Settings, f: ProjectForm, modelStateValid: bool, token: TokenReply, reply: Reply, cache: Cache)
    returns (outcome: Outcome<ComputationInfo>, trace: seq<Event>)
    modifies cache
    ensures Step(outcome, trace, cache.items) == IndexPostSpec(s, f, modelStateValid, token, reply, old(cache.items))
  {
    outcome, trace := PostAction(s, Posting(s), modelStateValid, token, t => ButtonRequest(t, f), reply, cache);
  }

  /** "Propose" sends the five form fields as they are, with `broadcast` true, to
      `ProposeComputation`. */
  lemma ProposeSends(s: Settings, f: ProjectForm, t: string, reply: Reply, cache: seq<CacheItem>)
    requires f.submitbutton == Some("Propose")
    ensures Posts(IndexPostSpec(s, f, true, Issued(t), reply, cache).trace) ==
      [Request(CentralRegistryBaseAddress, "/api/ProposeComputation", t,
               [("projectname", FromNString(f.projectname)), ("projectdesc", FromNString(f.projectdesc)),
                ("schemaname", FromNString(f.schemaname)), ("computationtype", FromNString(f.computationtype)),
                ("formula", FromNString(f.formula)), ("broadcast", Flag(true))])]
  {
    PostIndexCases(s, Posting(s), true, Issued(t), t => ButtonRequest(t, f), reply, cache);
  }

  /** "Register" sends an empty object to `RegisterComputations`. */
  lemma RegisterSends(s: Settings, f: ProjectForm, t: string, reply: Reply, cache: seq<CacheItem>)
    requires f.submitbutton == Some("Register")
    ensures Posts(IndexPostSpec(s, f, true, Issued(t), reply, cache).trace) ==
      [Request(CentralRegistryBaseAddress, "/api/RegisterComputations", t, [])]
  {
    PostIndexCases(s, Posting(s), true, Issued(t), t => ButtonRequest(t, f), reply, cache);
  }

  /** Any other button (or none) redirects to the list without sending anything, once the
      token has been acquired. */
  lemma OtherButtonRedirects(s: Settings, f: ProjectForm, t: string, reply: Reply, cache: seq<CacheItem>)
    requires f.submitbutton != Some("Propose") && f.submitbutton != Some("Register")
    ensures IndexPostSpec(s, f, true, Issued(t), reply, cache)
            == Step(RedirectToIndex, [TokenRequested(Authority, s.centralRegistryResourceAppId)], cache)
  {
  }

  /** Once a request went out, success redirects, a 401 evicts the central registry's tokens and
      shows the sign-in placeholder, any other status falls through to the "Error" view, and a
      failed send shows the same placeholder with "AuthorizationRequired"; an invalid model
      state shows the "Error" view and asks for nothing. */
  lemma PostOutcomes(s: Settings, f: ProjectForm, valid: bool, t: string, reply: Reply, cache: seq<CacheItem>)
    requires f.submitbutton == Some("Propose") || f.submitbutton == Some("Register")
    ensures var st := IndexPostSpec(s, f, valid, Issued(t), reply, cache);
      && (!valid ==> st == Step(ErrorView, [], cache))
      && (valid && reply.Responded? && IsSuccessStatusCode(reply.status) ==> st.outcome == RedirectToIndex && st.cache == cache)
      && (valid && reply.Responded? && reply.status == Unauthorized ==>
            st.outcome == PostUnauthorized
            && forall x :: x in st.cache <==> x in cache && x.resource != s.centralRegistryResourceAppId)
      && (valid && reply.Responded? && !IsSuccessStatusCode(reply.status) && reply.status != Unauthorized ==>
            st.outcome == ErrorView && st.cache == cache)
      && (valid && reply.Unreachable? ==> st.outcome == PostCaught && st.cache == cache)
  {
    PostIndexCases(s, Posting(s), valid, Issued(t), t => ButtonRequest(t, f), reply, cache);
    ClassifyCases(s, reply, PostUnauthorized, ErrorView, PostCaught, cache);
  }
}
