/** `ParticipantController` of the participant web app: the participants known to the central
    registry, and the registration of this site's master participant with its own web API. */
module ParticipantController {
  import opened Common
  import opened Clr
  import ClrGuid
  import opened ClrText
  import opened Json
  import opened Cells
  import opened TokenCache
  import opened WebApi

  /** `Models.Participant` */
  datatype Participant = Participant(id: ClrGuid.Guid, name: NString, clientId: ClrGuid.Guid, tenantId: NString,
                                     url: NString, clientSecret: NString, isEnabled: bool,
                                     validFrom: DateTime, validTo: DateTime)

  /** `new Participant()` with `Name` set. */
  function Named(name: string): Participant {
    Participant(ClrGuid.Empty, Some(name), ClrGuid.Empty, None, None, None, false, MinDateTime, MinDateTime)
  }

  // ---- GET Index -------------------------------------------------------------------------

  /** One element of the result set, cell by cell in the order the assignments run: a Guid,
      a string, a Guid, three strings, the enabled flag, the two validity dates. */
  function DecodeParticipant(lib: Library, column: Json): Result<Participant, Exn> {
    var id :- GuidCell(lib, column, 0);
    var name :- Column(lib, column, 1);
    var clientId :- GuidCell(lib, column, 2);
    var tenantId :- Column(lib, column, 3);
    var url :- Column(lib, column, 4);
    var clientSecret :- Column(lib, column, 5);
    var isEnabled :- FlagCell(lib, column, 6);
    var validFrom :- DateCell(lib, column, 7);
    var validTo :- DateCell(lib, column, 8);
    Success(Participant(id, Some(name), clientId, Some(tenantId), Some(url), Some(clientSecret), isEnabled,
                        validFrom, validTo))
  }

  /** The cells of an element that decodes: at least nine, with Guids in cells 0 and 2, an
      Int32 in cell 6 and dates in cells 7 and 8. */
  predicate Decodable(lib: Library, c: seq<Json>) {
    |c| >= 9
    && lib.parseGuid(Text(lib, c[0])).Success?
    && lib.parseGuid(Text(lib, c[2])).Success?
    && ToInt32(Text(lib, c[6])).Success?
    && lib.parseDateTime(Text(lib, c[7])).Success?
    && lib.parseDateTime(Text(lib, c[8])).Success?
  }

  /** The record such an element decodes to. */
  function Decoded(lib: Library, c: seq<Json>): Participant
    requires Decodable(lib, c)
  {
    Participant(lib.parseGuid(Text(lib, c[0])).value, Some(Text(lib, c[1])), lib.parseGuid(Text(lib, c[2])).value,
                Some(Text(lib, c[3])), Some(Text(lib, c[4])), Some(Text(lib, c[5])),
                ToInt32(Text(lib, c[6])) == Success(1),
                lib.parseDateTime(Text(lib, c[7])).value, lib.parseDateTime(Text(lib, c[8])).value)
  }

  const NoParticipants := Named("(No participants exist in the system)")
  const SignInRequired := Named("(Sign-in required to view participants.)")

  /** A token for the central registry, and `GetParticipants` with the body "{}". */
  function Listing(s: Settings, lib: Library): ListEndpoint<Participant> {
    ListEndpoint(CentralRegistryAuthority, s.centralRegistryResourceAppId, CentralRegistryBaseAddress,
                 "/api/GetParticipants", [], c => DecodeParticipant(lib, c), NoParticipants, SignInRequired)
  }

  function IndexGetSpec(s: Settings, lib: Library, token: TokenReply, reply: Reply, reauth: seq<string>,
                        cache: seq<CacheItem>): Step<Participant>
  {
    ListIndex(s, lib, Listing(s, lib), token, reply, reauth, cache)
  }

  /** GET `Index` */
  method IndexGet(s: Settings, lib: Library, token: TokenReply, reply: Reply, reauth: seq<string>, cache: Cache)
    returns (outcome: Outcome<Participant>, trace: seq<Event>)
    modifies cache
    ensures Step(outcome, trace, cache.items) == IndexGetSpec(s, lib, token, reply, reauth, old(cache.items))
  {
    outcome, trace := IndexList(s, lib, Listing(s, lib), token, reply, reauth, cache);
  }

  /** An element decodes exactly when it is an array of at least nine cells whose ids are
      Guids, whose flag is an Int32 and whose validity cells are dates; the record takes every
      field from its own cell and is enabled exactly when cell 6 is 1. */
  lemma DecodeParticipantColumns(lib: Library, column: Json)
    ensures DecodeParticipant(lib, column).Success? <==> column.JArray? && Decodable(lib, column.items)
    ensures DecodeParticipant(lib, column).Success? ==>
      column.JArray? && Decodable(lib, column.items) && DecodeParticipant(lib, column).value == Decoded(lib, column.items)
  {
  }

  /** A successful reply whose elements all decode lists one participant per inner element of
      every row, in order. */
  lemma IndexGetRecords(s: Settings, lib: Library, t: string, status: int, body: string, rows: seq<Json>,
                        reauth: seq<string>, cache: seq<CacheItem>)
    requires IsSuccessStatusCode(status) && ResultRows(lib, body) == Success(rows)
    requires forall k :: 0 <= k < |Elements(rows)| ==> DecodeParticipant(lib, Elements(rows)[k]).Success?
    ensures var st := IndexGetSpec(s, lib, Issued(t), Responded(status, body), reauth, cache);
      && st.outcome.ListView? && |st.outcome.items| == |Elements(rows)|
      && forall k :: 0 <= k < |Elements(rows)| ==>
           Elements(rows)[k].JArray? && Decodable(lib, Elements(rows)[k].items)
           && st.outcome.items[k] == Decoded(lib, Elements(rows)[k].items)
  {
    ListIndexSuccess(s, lib, Listing(s, lib), t, status, rows, body, reauth, cache);
    forall k | 0 <= k < |Elements(rows)| {
      DecodeParticipantColumns(lib, Elements(rows)[k]);
    }
  }

  /** An element with a cell that does not convert (an id that is not a Guid, a flag that is not
      an Int32, a date that does not parse) ends the action in the `catch` block: a challenge
      when re-authentication was asked for, otherwise the sign-in placeholder last. */
  lemma IndexGetBadCell(s: Settings, lib: Library, t: string, status: int, body: string, rows: seq<Json>, k: nat,
                        reauth: seq<string>, cache: seq<CacheItem>)
    requires IsSuccessStatusCode(status) && ResultRows(lib, body) == Success(rows)
    requires k < |Elements(rows)| && Elements(rows)[k].JArray? && !Decodable(lib, Elements(rows)[k].items)
    ensures var st := IndexGetSpec(s, lib, Issued(t), Responded(status, body), reauth, cache);
      && st.cache == cache
      && (ReauthRequested(reauth) ==> st.outcome == Challenge)
      && (!ReauthRequested(reauth) ==>
            st.outcome.ListView? && |st.outcome.items| >= 1
            && st.outcome.items[|st.outcome.items| - 1] == SignInRequired
            && st.outcome.errorMessage.Some? && StartsWith(st.outcome.errorMessage.value, "AuthorizationRequired"))
  {
    var e := Listing(s, lib);
    DecodeParticipantColumns(lib, Elements(rows)[k]);
    assert e.decodeOne(Elements(rows)[k]).Failure?;
    ListIndexBadElement(s, lib, e, t, status, body, rows, k, reauth, cache);
  }

  /** The request is "{}" to `GetParticipants`; a 401 evicts the central registry's tokens and
      shows "(No participants exist in the system)"; any other failure status falls through to
      the "Error" view. */
  lemma IndexGetOutcomes(s: Settings, lib: Library, t: string, reply: Reply, reauth: seq<string>, cache: seq<CacheItem>)
    ensures var st := IndexGetSpec(s, lib, Issued(t), reply, reauth, cache);
      && st.trace[0] == TokenRequested(CentralRegistryAuthority, s.centralRegistryResourceAppId)
      && Posts(st.trace) == [Request(CentralRegistryBaseAddress, "/api/GetParticipants", t, [])]
      && (reply.Responded? && reply.status == Unauthorized ==>
            st.outcome == ListView([NoParticipants], Some("UnexpectedError"))
            && st.cache == Evicted(cache, s.centralRegistryResourceAppId))
      && (reply.Responded? && !IsSuccessStatusCode(reply.status) && reply.status != Unauthorized ==>
            st.outcome == ErrorView && st.cache == cache)
  {
    ListIndexTrace(s, lib, Listing(s, lib), Issued(t), reply, reauth, cache);
  }

  // ---- POST Index --------------------------------------------------------------------------

  /** The form fields of the POST. */
  datatype ParticipantForm = ParticipantForm(name: NString, clientid: NString, clientsecret: NString,
                                             tenantid: NString, url: NString)

  const PostCaught := ListView([Named("(No items in list)")], Some("AuthorizationRequired"))
  const PostUnauthorized :=
    ItemView(Named("(Unauthorized access. You must sign-in again to perform this operation.)"), Some("UnexpectedError"))
  const PostRejected :=
    ItemView(Named("(Could not register Central Registry participant in the system. Please contact System Administrator.)"),
             Some("Application error"))

  function RegisterMasterRequest(token: string, f: ParticipantForm): Request {
    Request(ResourceBaseAddress, "/api/RegisterMaster", token,
            [("name", FromNString(f.name)), ("clientid", FromNString(f.clientid)),
             ("clientsecret", FromNString(f.clientsecret)), ("tenantid", FromNString(f.tenantid)),
             ("url", FromNString(f.url))])
  }

  /** A token for `ResourceAppId`; a failure status that is not a 401 shows its own placeholder. */
  function Posting(s: Settings): PostEndpoint<Participant> {
    PostEndpoint(Authority, s.resourceAppId, PostUnauthorized, PostRejected, PostCaught)
  }

  function IndexPostSpec(s: Settings, f: ParticipantForm, modelStateValid: bool, token: TokenReply, reply: Reply,
                         cache: seq<CacheItem>): Step<Participant>
  {
    PostIndex(s, Posting(s), modelStateValid, token, t => Some(RegisterMasterRequest(t, f)), reply, cache)
  }

  /** POST `Index` */
  method IndexPost(s: Settings, f: ParticipantForm, modelStateValid: bool, token: TokenReply, reply: Reply, cache: Cache)
    returns (outcome: Outcome<Participant>, trace: seq<Event>)
    modifies cache
    ensures Step(outcome, trace, cache.items) == IndexPostSpec(s, f, modelStateValid, token, reply, old(cache.items))
  {
    outcome, trace := PostAction(s, Posting(s), modelStateValid, token, t => Some(RegisterMasterRequest(t, f)), reply, cache);
  }

  /** The five form fields go, as they are, to `RegisterMaster` on the participant's own web API,
      with a token acquired for `ResourceAppId`. */
  lemma RegisterMasterSent(s: Settings, f: ParticipantForm, t: string, reply: Reply, cache: seq<CacheItem>)
    ensures var st := IndexPostSpec(s, f, true, Issued(t), reply, cache);
      && st.trace[0] == TokenRequested(Authority, s.resourceAppId)
      && Posts(st.trace) ==
           [Request(ResourceBaseAddress, "/api/RegisterMaster", t,
                    [("name", FromNString(f.name)), ("clientid", FromNString(f.clientid)),
                     ("clientsecret", FromNString(f.clientsecret)), ("tenantid", FromNString(f.tenantid)),
                     ("url", FromNString(f.url))])]
  {
    PostIndexCases(s, Posting(s), true, Issued(t), t => Some(RegisterMasterRequest(t, f)), reply, cache);
  }

  /** Every reply is answered in the `try` block: success redirects, a 401 evicts the central
      registry's tokens with "UnexpectedError", any other status shows "Application error", and
      an exception shows "(No items in list)"; a valid model state never reaches the "Error"
      view, an invalid one shows it and asks for nothing. */
  lemma PostOutcomes(s: Settings, f: ParticipantForm, valid: bool, token: TokenReply, reply: Reply, cache: seq<CacheItem>)
    ensures var st := IndexPostSpec(s, f, valid, token, reply, cache);
      && (!valid ==> st == Step(ErrorView, [], cache))
      && (valid ==> st.outcome != ErrorView)
      && (valid && (token.Refused? || reply.Unreachable?) ==> st.outcome == PostCaught && st.cache == cache)
      && (valid && token.Issued? && reply.Responded? && IsSuccessStatusCode(reply.status) ==>
            st.outcome == RedirectToIndex && st.cache == cache)
      && (valid && token.Issued? && reply.Responded? && reply.status == Unauthorized ==>
            st.outcome == PostUnauthorized
            && forall x :: x in st.cache <==> x in cache && x.resource != s.centralRegistryResourceAppId)
      && (valid && token.Issued? && reply.Responded? && !IsSuccessStatusCode(reply.status) && reply.status != Unauthorized ==>
            st.outcome == PostRejected && st.cache == cache)
  {
    PostIndexCases(s, Posting(s), valid, token, t => Some(RegisterMasterRequest(t, f)), reply, cache);
    ClassifyCases(s, reply, PostUnauthorized, PostRejected, PostCaught, cache);
  }

  /** The token is acquired for `ResourceAppId` but a 401 evicts the central registry's tokens:
      when the two ids differ, the token that was refused stays cached. */
  lemma PostKeepsRefusedToken(s: Settings, f: ParticipantForm, t: string, body: string, cache: seq<CacheItem>)
    requires s.resourceAppId != s.centralRegistryResourceAppId
    ensures var st := IndexPostSpec(s, f, true, Issued(t), Responded(Unauthorized, body), cache);
      && st.trace[0] == TokenRequested(Authority, s.resourceAppId)
      && WithResource(st.cache, s.resourceAppId) == WithResource(cache, s.resourceAppId)
  {
    EvictedKeepsOthers(cache, s.centralRegistryResourceAppId, s.resourceAppId);
  }
}
