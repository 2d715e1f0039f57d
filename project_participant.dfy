/** `ComputationInfoParticipantController` of the central registry web app: the participants
    enrolled in a computation project, and the enrolment (or any other operation the pressed
    button names) of a participant. */
module ComputationInfoParticipantController {
  import opened Common
  import opened Clr
  import opened Json
  import opened TokenCache
  import opened WebApi

  /** `Models.ComputationInfoParticipant`: four strings, `IsEnabled` among them. */
  datatype ComputationInfoParticipant = ComputationInfoParticipant(id: NString, computationInfoName: NString,
                                                                   participantName: NString, isEnabled: NString)

  /** `new ComputationInfoParticipant()` with `Id` set. */
  function Named(id: string): ComputationInfoParticipant {
    ComputationInfoParticipant(Some(id), None, None, None)
  }

  // ---- GET Index -------------------------------------------------------------------------

  /** One element of the result set: cells 0 to 3, all as text. */
  function DecodeParticipant(lib: Library, column: Json): Result<ComputationInfoParticipant, Exn> {
    var id :- Column(lib, column, 0);
    var computationInfoName :- Column(lib, column, 1);
    var participantName :- Column(lib, column, 2);
    var isEnabled :- Column(lib, column, 3);
    Success(ComputationInfoParticipant(Some(id), Some(computationInfoName), Some(participantName), Some(isEnabled)))
  }

  const NoEnrolments := Named("(No participants have enrolled in a project)")
  /** The sign-in placeholder of the list action, spelt as the action spells it. */
  const SignInRequired := Named("(Sign-in required to view project particpants.)")

  /** A token for the central registry, and `GetProjectParticipants` for the project name, a
      null or empty one being sent as "". */
  function Listing(s: Settings, lib: Library, projectname: NString): ListEndpoint<ComputationInfoParticipant> {
    ListEndpoint(Authority, s.centralRegistryResourceAppId, CentralRegistryBaseAddress,
                 "/api/GetProjectParticipants", [("projectname", Str(EmptyIfNullOrEmpty(projectname)))],
                 c => DecodeParticipant(lib, c), NoEnrolments, SignInRequired)
  }

  function IndexGetSpec(s: Settings, lib: Library, projectname: NString, token: TokenReply, reply: Reply,
                        reauth: seq<string>, cache: seq<CacheItem>): Step<ComputationInfoParticipant>
  {
    ListIndex(s, lib, Listing(s, lib, projectname), token, reply, reauth, cache)
  }

  /** GET `Index` */
  method IndexGet(s: Settings, lib: Library, projectname: NString, token: TokenReply, reply: Reply,
                  reauth: seq<string>, cache: Cache)
    returns (outcome: Outcome<ComputationInfoParticipant>, trace: seq<Event>)
    modifies cache
    ensures Step(outcome, trace, cache.items) == IndexGetSpec(s, lib, projectname, token, reply, reauth, old(cache.items))
  {
    var name := projectname;
    if IsNullOrEmpty(name) {
      name := Some("");
    }
    outcome, trace := IndexList(s, lib, Listing(s, lib, name), token, reply, reauth, cache);
  }

  /** An element decodes exactly when it is an array of at least four cells; every field is the
      text of its cell, `IsEnabled` included, with no conversion. */
  lemma DecodeParticipantColumns(lib: Library, column: Json)
    ensures DecodeParticipant(lib, column).Success? <==> column.JArray? && |column.items| >= 4
    ensures DecodeParticipant(lib, column).Success? ==>
      var c := column.items;
      DecodeParticipant(lib, column).value
        == ComputationInfoParticipant(Some(Text(lib, c[0])), Some(Text(lib, c[1])), Some(Text(lib, c[2])),
                                      Some(Text(lib, c[3])))
  {
  }

  /** A successful reply whose elements are all arrays of four or more cells lists one
      enrolment per inner element of every row, in order. */
  lemma IndexGetRecords(s: Settings, lib: Library, projectname: NString, t: string, status: int, body: string,
                        rows: seq<Json>, reauth: seq<string>, cache: seq<CacheItem>)
    requires IsSuccessStatusCode(status) && ResultRows(lib, body) == Success(rows)
    requires forall k :: 0 <= k < |Elements(rows)| ==> Elements(rows)[k].JArray? && |Elements(rows)[k].items| >= 4
    ensures var st := IndexGetSpec(s, lib, projectname, Issued(t), Responded(status, body), reauth, cache);
      && st.outcome.ListView? && |st.outcome.items| == |Elements(rows)|
      && forall k :: 0 <= k < |Elements(rows)| ==>
           var c := Elements(rows)[k].items;
           st.outcome.items[k]
             == ComputationInfoParticipant(Some(Text(lib, c[0])), Some(Text(lib, c[1])), Some(Text(lib, c[2])),
                                           Some(Text(lib, c[3])))
  {
    var e := Listing(s, lib, projectname);
    forall k | 0 <= k < |Elements(rows)| ensures e.decodeOne(Elements(rows)[k]).Success? {
      DecodeParticipantColumns(lib, Elements(rows)[k]);
    }
    ListIndexSuccess(s, lib, e, t, status, rows, body, reauth, cache);
    forall k | 0 <= k < |Elements(rows)| {
      DecodeParticipantColumns(lib, Elements(rows)[k]);
    }
  }

  /** The request carries the project name, a null or empty one as ""; a 401 evicts the central
      registry's tokens and shows "(No participants have enrolled in a project)"; any other
      failure status falls through to the "Error" view. */
  lemma IndexGetOutcomes(s: Settings, lib: Library, projectname: NString, t: string, reply: Reply,
                         reauth: seq<string>, cache: seq<CacheItem>)
    ensures var st := IndexGetSpec(s, lib, projectname, Issued(t), reply, reauth, cache);
      && st.trace[0] == TokenRequested(Authority, s.centralRegistryResourceAppId)
      && Posts(st.trace) == [Request(CentralRegistryBaseAddress, "/api/GetProjectParticipants", t,
                                     [("projectname", Str(if IsNullOrEmpty(projectname) then "" else projectname.value))])]
      && (reply.Responded? && reply.status == Unauthorized ==>
            st.outcome == ListView([NoEnrolments], Some("UnexpectedError"))
            && st.cache == Evicted(cache, s.centralRegistryResourceAppId))
      && (reply.Responded? && !IsSuccessStatusCode(reply.status) && reply.status != Unauthorized ==>
            st.outcome == ErrorView && st.cache == cache)
  {
    ListIndexTrace(s, lib, Listing(s, lib, projectname), Issued(t), reply, reauth, cache);
  }

  // ---- POST Index --------------------------------------------------------------------------

  /** The form fields of the POST. */
  datatype EnrolmentForm = EnrolmentForm(projectname: NString, participantname: NString, submitbutton: NString)

  const PostSignIn := Named("(Sign-in required to view project participants.)")
  const PostCaught := ListView([PostSignIn], Some("AuthorizationRequired"))
  const PostUnauthorized := ListView([PostSignIn], Some("UnexpectedError"))

  function EnrolRequest(token: string, f: EnrolmentForm): Request {
    Request(CentralRegistryBaseAddress, "/api/EnrollInProject", token,
            [("projectname", FromNString(f.projectname)), ("participantname", FromNString(f.participantname)),
             ("operation", FromNString(f.submitbutton))])
  }

  function Posting(s: Settings): PostEndpoint<ComputationInfoParticipant> {
    PostEndpoint(Authority, s.centralRegistryResourceAppId, PostUnauthorized, ErrorView, PostCaught)
  }

  function IndexPostSpec(s: Settings, f: EnrolmentForm, modelStateValid: bool, token: TokenReply, reply: Reply,
                         cache: seq<CacheItem>): Step<ComputationInfoParticipant>
  {
    PostIndex(s, Posting(s), modelStateValid, token, t => Some(EnrolRequest(t, f)), reply, cache)
  }

  /** POST `Index` */
  method IndexPost(s: Settings, f: EnrolmentForm, modelStateValid: bool, token: TokenReply, reply: Reply, cache: Cache)
    returns (outcome: Outcome<ComputationInfoParticipant>, trace: seq<Event>)
    modifies cache
    ensures Step(outcome, trace, cache.items) == IndexPostSpec(s, f, modelStateValid, token, reply, old(cache.items))
  {
    outcome, trace := PostAction(s, Posting(s), modelStateValid, token, t => Some(EnrolRequest(t, f)), reply, cache);
  }

  /** The project name, the participant name and the pressed button go to `EnrollInProject` as
      they are, nulls as nulls, and nothing else does. */
  lemma EnrolmentForwarded(s: Settings, f: EnrolmentForm, t: string, reply: Reply, cache: seq<CacheItem>)
    ensures Posts(IndexPostSpec(s, f, true, Issued(t), reply, cache).trace) ==
      [Request(CentralRegistryBaseAddress, "/api/EnrollInProject", t,
               [("projectname", FromNString(f.projectname)), ("participantname", FromNString(f.participantname)),
                ("operation", FromNString(f.submitbutton))])]
  {
    PostIndexCases(s, Posting(s), true, Issued(t), t => Some(EnrolRequest(t, f)), reply, cache);
  }

  /** Success redirects; a 401 evicts the central registry's tokens and shows the sign-in
      placeholder with "UnexpectedError"; any other status falls through to the "Error" view;
      an exception shows the placeholder with "AuthorizationRequired"; an invalid model state
      shows the "Error" view and asks for nothing. */
  lemma PostOutcomes(s: Settings, f: EnrolmentForm, valid: bool, token: TokenReply, reply: Reply, cache: seq<CacheItem>)
    ensures var st := IndexPostSpec(s, f, valid, token, reply, cache);
      && (!valid ==> st == Step(ErrorView, [], cache))
      && (valid && (token.Refused? || reply.Unreachable?) ==> st.outcome == PostCaught && st.cache == cache)
      && (valid && token.Issued? && reply.Responded? && IsSuccessStatusCode(reply.status) ==>
            st.outcome == RedirectToIndex && st.cache == cache)
      && (valid && token.Issued? && reply.Responded? && reply.status == Unauthorized ==>
            st.outcome == PostUnauthorized
            && forall x :: x in st.cache <==> x in cache && x.resource != s.centralRegistryResourceAppId)
      && (valid && token.Issued? && reply.Responded? && !IsSuccessStatusCode(reply.status) && reply.status != Unauthorized ==>
            st.outcome == ErrorView && st.cache == cache)
  {
    PostIndexCases(s, Posting(s), valid, token, t => Some(EnrolRequest(t, f)), reply, cache);
    ClassifyCases(s, reply, PostUnauthorized, ErrorView, PostCaught, cache);
  }
}
