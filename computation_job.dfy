/** `ComputationInfoJobController` of the participant web app: the jobs of a computation
    project, and the triggering of a new job. */
module ComputationInfoJobController {
  import opened Common
  import opened Clr
  import ClrGuid
  import opened Json
  import opened Cells
  import opened TokenCache
  import opened WebApi

  /** `Models.ComputationInfoJob` */
  datatype ComputationInfoJob = ComputationInfoJob(id: NString, computationInfo: NString, operation: NString,
                                                   result: NString, summary: NString, logTxt: NString,
                                                   status: NString, startDateTime: DateTime, endDateTime: DateTime)

  /** `new ComputationInfoJob()` with `Id` set. */
  function Named(id: string): ComputationInfoJob {
    ComputationInfoJob(Some(id), None, None, None, None, None, None, MinDateTime, MinDateTime)
  }

  const NoProjects := Named("(No computation projects exist in the system)")
  const SignInRequired := Named("(Sign-in required to view computation projects.)")

  // ---- GET Index -------------------------------------------------------------------------

  /** One element of the result set: seven strings, then the start and end dates. */
  function DecodeJob(lib: Library, column: Json): Result<ComputationInfoJob, Exn> {
    var id :- Column(lib, column, 0);
    var computationInfo :- Column(lib, column, 1);
    var operation :- Column(lib, column, 2);
    var result :- Column(lib, column, 3);
    var summary :- Column(lib, column, 4);
    var logTxt :- Column(lib, column, 5);
    var status :- Column(lib, column, 6);
    var startDateTime :- DateCell(lib, column, 7);
    var endDateTime :- DateCell(lib, column, 8);
    Success(ComputationInfoJob(Some(id), Some(computationInfo), Some(operation), Some(result), Some(summary),
                               Some(logTxt), Some(status), startDateTime, endDateTime))
  }

  /** The cells of an element that decodes: at least nine, with dates in cells 7 and 8. */
  predicate Decodable(lib: Library, c: seq<Json>) {
    |c| >= 9 && lib.parseDateTime(Text(lib, c[7])).Success? && lib.parseDateTime(Text(lib, c[8])).Success?
  }

  function Decoded(lib: Library, c: seq<Json>): ComputationInfoJob
    requires Decodable(lib, c)
  {
    ComputationInfoJob(Some(Text(lib, c[0])), Some(Text(lib, c[1])), Some(Text(lib, c[2])), Some(Text(lib, c[3])),
                       Some(Text(lib, c[4])), Some(Text(lib, c[5])), Some(Text(lib, c[6])),
                       lib.parseDateTime(Text(lib, c[7])).value, lib.parseDateTime(Text(lib, c[8])).value)
  }

  /** A token for the central registry, and `GetProjectJobs` for the project name, a null or
      empty one being sent as "". */
  function Listing(s: Settings, lib: Library, projectname: NString): ListEndpoint<ComputationInfoJob> {
    ListEndpoint(CentralRegistryAuthority, s.centralRegistryResourceAppId, CentralRegistryBaseAddress,
                 "/api/GetProjectJobs", [("projectname", Str(EmptyIfNullOrEmpty(projectname)))],
                 c => DecodeJob(lib, c), NoProjects, SignInRequired)
  }

  function IndexGetSpec(s: Settings, lib: Library, projectname: NString, token: TokenReply, reply: Reply,
                        reauth: seq<string>, cache: seq<CacheItem>): Step<ComputationInfoJob>
  {
    ListIndex(s, lib, Listing(s, lib, projectname), token, reply, reauth, cache)
  }

  /** GET `Index` */
  method IndexGet(s: Settings, lib: Library, projectname: NString, token: TokenReply, reply: Reply,
                  reauth: seq<string>, cache: Cache)
    returns (outcome: Outcome<ComputationInfoJob>, trace: seq<Event>)
    modifies cache
    ensures Step(outcome, trace, cache.items) == IndexGetSpec(s, lib, projectname, token, reply, reauth, old(cache.items))
  {
    var name := projectname;
    if IsNullOrEmpty(name) {
      name := Some("");
    }
    outcome, trace := IndexList(s, lib, Listing(s, lib, name), token, reply, reauth, cache);
  }

  /** An element decodes exactly when it is an array of at least nine cells whose cells 7 and
      8 are dates; the record takes cells 0 to 6 as text and the two dates. */
  lemma DecodeJobColumns(lib: Library, column: Json)
    ensures DecodeJob(lib, column).Success? <==> column.JArray? && Decodable(lib, column.items)
    ensures DecodeJob(lib, column).Success? ==>
      column.JArray? && Decodable(lib, column.items) && DecodeJob(lib, column).value == Decoded(lib, column.items)
  {
  }

  /** A successful reply whose elements all decode lists one job per inner element of every row,
      in order. */
  lemma IndexGetRecords(s: Settings, lib: Library, projectname: NString, t: string, status: int, body: string,
                        rows: seq<Json>, reauth: seq<string>, cache: seq<CacheItem>)
    requires IsSuccessStatusCode(status) && ResultRows(lib, body) == Success(rows)
    requires forall k :: 0 <= k < |Elements(rows)| ==> DecodeJob(lib, Elements(rows)[k]).Success?
    ensures var st := IndexGetSpec(s, lib, projectname, Issued(t), Responded(status, body), reauth, cache);
      && st.outcome.ListView? && |st.outcome.items| == |Elements(rows)|
      && forall k :: 0 <= k < |Elements(rows)| ==>
           Elements(rows)[k].JArray? && Decodable(lib, Elements(rows)[k].items)
           && st.outcome.items[k] == Decoded(lib, Elements(rows)[k].items)
  {
    ListIndexSuccess(s, lib, Listing(s, lib, projectname), t, status, rows, body, reauth, cache);
    forall k | 0 <= k < |Elements(rows)| {
      DecodeJobColumns(lib, Elements(rows)[k]);
    }
  }

  /** The request carries the project name, a null or empty one as ""; a 401 evicts the central
      registry's tokens and shows "(No computation projects exist in the system)"; any other
      failure status falls through to the "Error" view. */
  lemma IndexGetOutcomes(s: Settings, lib: Library, projectname: NString, t: string, reply: Reply,
                         reauth: seq<string>, cache: seq<CacheItem>)
    ensures var st := IndexGetSpec(s, lib, projectname, Issued(t), reply, reauth, cache);
      && st.trace[0] == TokenRequested(CentralRegistryAuthority, s.centralRegistryResourceAppId)
      && Posts(st.trace) == [Request(CentralRegistryBaseAddress, "/api/GetProjectJobs", t,
                                     [("projectname", Str(if IsNullOrEmpty(projectname) then "" else projectname.value))])]
      && (reply.Responded? && reply.status == Unauthorized ==>
            st.outcome == ListView([NoProjects], Some("UnexpectedError"))
            && st.cache == Evicted(cache, s.centralRegistryResourceAppId))
      && (reply.Responded? && !IsSuccessStatusCode(reply.status) && reply.status != Unauthorized ==>
            st.outcome == ErrorView && st.cache == cache)
  {
    ListIndexTrace(s, lib, Listing(s, lib, projectname), Issued(t), reply, reauth, cache);
  }

  // ---- POST Index --------------------------------------------------------------------------

  /** The form fields of the POST. */
  datatype JobForm = JobForm(projectname: NString, jobid: NString)

  const PostCaught := ListView([SignInRequired], Some("AuthorizationRequired"))
  const PostUnauthorized := ListView([SignInRequired], Some("UnexpectedError"))

  /** The id of the new job: the given one when it is present and parses, otherwise `newGuid`,
      the value of `Guid.NewGuid()`. */
  function JobGuid(lib: Library, jobid: NString, newGuid: ClrGuid.Guid): ClrGuid.Guid {
    if IsNullOrEmpty(jobid) || lib.parseGuid(jobid.value).Failure? then newGuid
    else lib.parseGuid(jobid.value).value
  }

  function TriggerRequest(token: string, projectname: string, job: ClrGuid.Guid): Request {
    Request(CentralRegistryBaseAddress, "/api/TriggerJob", token,
            [("projectname", Str(projectname)), ("jobid", Str(ClrGuid.Format(job)))])
  }

  function Posting(s: Settings): PostEndpoint<ComputationInfoJob> {
    PostEndpoint(CentralRegistryAuthority, s.centralRegistryResourceAppId, PostUnauthorized, ErrorView, PostCaught)
  }

  /** POST `Index`: a null or empty project name throws before anything else; then the job id
      is settled, and the rest is a single-request POST. */
  function IndexPostSpec(s: Settings, lib: Library, f: JobForm, newGuid: ClrGuid.Guid, modelStateValid: bool,
                         token: TokenReply, reply: Reply, cache: seq<CacheItem>): Step<ComputationInfoJob>
  {
    if IsNullOrEmpty(f.projectname) then Step(Thrown(ArgumentNull("projectname")), [], cache)
    else
      var job := JobGuid(lib, f.jobid, newGuid);
      PostIndex(s, Posting(s), modelStateValid, token, t => Some(TriggerRequest(t, f.projectname.value, job)), reply, cache)
  }

  /** POST `Index` */
  method IndexPost(s: Settings, lib: Library, f: JobForm, newGuid: ClrGuid.Guid, modelStateValid: bool,
                   token: TokenReply, reply: Reply, cache: Cache)
    returns (outcome: Outcome<ComputationInfoJob>, trace: seq<Event>)
    modifies cache
    ensures Step(outcome, trace, cache.items) == IndexPostSpec(s, lib, f, newGuid, modelStateValid, token, reply, old(cache.items))
  {
    if IsNullOrEmpty(f.projectname) {
      return Thrown(ArgumentNull("projectname")), [];
    }
    var jobidguid: ClrGuid.Guid;
    if IsNullOrEmpty(f.jobid) || lib.parseGuid(f.jobid.value).Failure? {
      jobidguid := newGuid;
    } else {
      jobidguid := lib.parseGuid(f.jobid.value).value;
    }
    var projectname := f.projectname.value;
    outcome, trace := PostAction(s, Posting(s), modelStateValid, token,
                                 t => Some(TriggerRequest(t, projectname, jobidguid)), reply, cache);
  }

  /** A null or empty project name throws `ArgumentNullException("projectname")` out of the
      action, whatever the model state, before any token is asked for or request sent. */
  lemma MissingProjectNameThrows(s: Settings, lib: Library, f: JobForm, newGuid: ClrGuid.Guid, valid: bool,
                                 token: TokenReply, reply: Reply, cache: seq<CacheItem>)
    requires f.projectname == None || f.projectname == Some("")
    ensures var st := IndexPostSpec(s, lib, f, newGuid, valid, token, reply, cache);
      st.outcome == Thrown(ArgumentNull("projectname")) && st.trace == [] && st.cache == cache
  {
  }

  /** The job id sent is always the canonical text of a Guid, from which that Guid reads back:
      the given id's when it is present and parses, the newGuid one's otherwise. */
  lemma SentJobId(s: Settings, lib: Library, f: JobForm, newGuid: ClrGuid.Guid, t: string, reply: Reply,
                  cache: seq<CacheItem>)
    requires !IsNullOrEmpty(f.projectname)
    ensures var ps := Posts(IndexPostSpec(s, lib, f, newGuid, true, Issued(t), reply, cache).trace);
      && |ps| == 1
      && ps[0].base == CentralRegistryBaseAddress && ps[0].path == "/api/TriggerJob" && ps[0].bearer == t
      && |ps[0].fields| == 2
      && ps[0].fields[0] == ("projectname", Str(f.projectname.value))
      && ps[0].fields[1].0 == "jobid" && ps[0].fields[1].1.Str?
      && var sent := ps[0].fields[1].1.text;
         && ClrGuid.IsCanonical(sent)
         && ((IsNullOrEmpty(f.jobid) || lib.parseGuid(f.jobid.value).Failure?) ==> ClrGuid.ReadCanonical(sent) == Some(newGuid))
         && (!IsNullOrEmpty(f.jobid) && lib.parseGuid(f.jobid.value).Success? ==>
               ClrGuid.ReadCanonical(sent) == Some(lib.parseGuid(f.jobid.value).value))
  {
    var job := JobGuid(lib, f.jobid, newGuid);
    PostIndexCases(s, Posting(s), true, Issued(t), t => Some(TriggerRequest(t, f.projectname.value, job)), reply, cache);
    ClrGuid.FormatIsCanonical(job);
    ClrGuid.ReadFormat(job);
  }

  /** A job id given in canonical form that the parser reads as the Guid it denotes is sent
      unchanged. */
  lemma CanonicalJobIdKept(s: Settings, lib: Library, f: JobForm, newGuid: ClrGuid.Guid, t: string, reply: Reply,
                           cache: seq<CacheItem>)
    requires !IsNullOrEmpty(f.projectname) && f.jobid.Some? && ClrGuid.IsCanonical(f.jobid.value)
    requires lib.parseGuid(f.jobid.value) == Success(ClrGuid.ReadCanonical(f.jobid.value).value)
    ensures Posts(IndexPostSpec(s, lib, f, newGuid, true, Issued(t), reply, cache).trace)
            == [Request(CentralRegistryBaseAddress, "/api/TriggerJob", t,
                        [("projectname", Str(f.projectname.value)), ("jobid", Str(f.jobid.value))])]
  {
    var job := JobGuid(lib, f.jobid, newGuid);
    PostIndexCases(s, Posting(s), true, Issued(t), t => Some(TriggerRequest(t, f.projectname.value, job)), reply, cache);
    ClrGuid.FormatRead(f.jobid.value);
  }

  /** With a project name: success redirects, a 401 evicts the central registry's tokens and
      shows the sign-in placeholder with "UnexpectedError", any other status falls through to
      the "Error" view; an exception (no token, no connection) shows the same placeholder with
      "AuthorizationRequired", with no re-authentication branch; an invalid model state shows
      the "Error" view and asks for nothing. */
  lemma PostOutcomes(s: Settings, lib: Library, f: JobForm, newGuid: ClrGuid.Guid, valid: bool, token: TokenReply,
                     reply: Reply, cache: seq<CacheItem>)
    requires !IsNullOrEmpty(f.projectname)
    ensures var st := IndexPostSpec(s, lib, f, newGuid, valid, token, reply, cache);
      && (!valid ==> st == Step(ErrorView, [], cache))
      && (valid && (token.Refused? || reply.Unreachable?) ==> st.outcome == PostCaught && st.cache == cache)
      && (valid && token.Issued? && reply.Responded? && IsSuccessStatusCode(reply.status) ==>
            st.outcome == RedirectToIndex && st.cache == cache)
      && (valid && token.Issued? && reply.Responded? && reply.status == Unauthorized ==>
            st.outcome == PostUnauthorized
            && forall x :: x in st.cache <==> x in cache && x.resource != s.centralRegistryResourceAppId)
      && (valid && token.Issued? && reply.Responded? && !IsSuccessStatusCode(reply.status) && reply.status != Unauthorized ==>
            st.outcome == ErrorView && st.cache == cache)
  {
    var job := JobGuid(lib, f.jobid, newGuid);
    PostIndexCases(s, Posting(s), valid, token, t => Some(TriggerRequest(t, f.projectname.value, job)), reply, cache);
    ClassifyCases(s, reply, PostUnauthorized, ErrorView, PostCaught, cache);
  }
}
