/** What every controller action shares: the configuration it reads, the remote calls it makes
    (recorded in a trace), the replies it gets back (as inputs), the MVC results it returns,
    the list action that all six controllers repeat, and the handling of a POST reply. */
module WebApi {
  import opened Common
  import opened Clr
  import opened Json
  import opened Decoder
  import opened TokenCache

  /** `AzureAdOptions.Settings`: the two application ids a token can be requested for. */
  datatype Settings = Settings(resourceAppId: string, centralRegistryResourceAppId: string)

  /** The two authorities and the two base addresses of the configuration. */
  datatype Authority = Authority | CentralRegistryAuthority
  datatype BaseAddress = ResourceBaseAddress | CentralRegistryBaseAddress

  /** A field value of a JSON request body built from an anonymous object. */
  datatype Value = Str(text: string) | Null | Flag(flag: bool)

  /** A C# string as a JSON field value: null serialises as `null`. */
  function FromNString(s: NString): (v: Value)
    ensures s.None? <==> v == Null
    ensures s.Some? ==> v == Str(s.value)
  {
    match s
    case None => Null
    case Some(t) => Str(t)
  }

  /** A POST to `base + path` with the bearer token, whose body is a JSON object with `fields`
      (the body "{}" has none). */
  datatype Request = Request(base: BaseAddress, path: string, bearer: string, fields: seq<(string, Value)>)

  /** What an action asks of the outside world, in order. */
  datatype Event =
    | TokenRequested(authority: Authority, resource: string)   // AcquireTokenAsync
    | Posted(request: Request)                                 // HttpClient.SendAsync
    | ContainerCreateRequested(container: string)              // CreateIfNotExistsAsync
    | BlobUploadStarted(blobName: string)                      // TransferManager.UploadAsync

  /** The answer to `AcquireTokenAsync`: a token, or the exception it throws. */
  datatype TokenReply = Issued(accessToken: string) | Refused(message: string)

  /** The answer to `SendAsync`: a status code and the body text, or the exception it throws. */
  datatype Reply = Responded(status: int, body: string) | Unreachable(message: string)

  /** The `IActionResult` an action returns. */
  datatype Outcome<R> =
    | ListView(items: seq<R>, errorMessage: NString)   // View(list), with ViewBag.ErrorMessage
    | ItemView(item: R, errorMessage: NString)         // View(item)
    | FormView(errorMessage: NString)                  // View()
    | ErrorView                                        // View("Error")
    | RedirectToIndex                                  // RedirectToAction("Index")
    | Challenge                                        // ChallengeResult for OpenID Connect
    | Thrown(exception: Exn)                           // an exception that leaves the action

  /** The result of an action: what it returns, what it asked for, and the token cache after. */
  datatype Step<R> = Step(outcome: Outcome<R>, trace: seq<Event>, cache: seq<CacheItem>)

  /** `HttpResponseMessage.IsSuccessStatusCode` */
  predicate IsSuccessStatusCode(status: int) {
    200 <= status <= 299
  }

  /** `HttpStatusCode.Unauthorized` */
  const Unauthorized := 401

  /** `HttpContext.Request.Query["reauth"] == "True"`: the query holds exactly one `reauth`
      value, and it is "True". */
  predicate ReauthRequested(reauth: seq<string>) {
    reauth == ["True"]
  }

  predicate SendsNothing(trace: seq<Event>) {
    forall k :: 0 <= k < |trace| ==> !trace[k].Posted?
  }

  /** The requests in a trace, in order. */
  function Posts(trace: seq<Event>): (r: seq<Request>)
    ensures |r| <= |trace|
    ensures r == [] <==> SendsNothing(trace)
  {
    if trace == [] then []
    else
      var rest := Posts(trace[1..]);
      assert SendsNothing(trace) <==> !trace[0].Posted? && SendsNothing(trace[1..]) by {
        assert forall k :: 1 <= k < |trace| ==> trace[k] == trace[1..][k - 1];
      }
      (if trace[0].Posted? then [trace[0].request] else []) + rest
  }

  lemma {:induction false} PostsAppend(a: seq<Event>, b: seq<Event>)
    ensures Posts(a + b) == Posts(a) + Posts(b)
  {
    if a == [] {
      assert a + b == b;
    } else {
      assert (a + b)[0] == a[0];
      assert (a + b)[1..] == a[1..] + b;
      PostsAppend(a[1..], b);
    }
  }

  lemma PostsOne(e: Event)
    ensures Posts([e]) == if e.Posted? then [e.request] else []
  {
    assert [e][1..] == [];
  }

  /** A trace that sends nothing before two requests posts exactly those two, in order. */
  lemma PostsQuietThenTwo(quiet: seq<Event>, d: Event, c: Event)
    requires SendsNothing(quiet) && d.Posted? && c.Posted?
    ensures Posts(quiet + [d, c]) == [d.request, c.request]
  {
    PostsAppend(quiet, [d, c]);
    assert [d, c] == [d] + [c];
    PostsAppend([d], [c]);
    PostsOne(d);
    PostsOne(c);
  }

  // ---- The list action (every controller's GET Index) ------------------------------------

  /** What distinguishes one controller's GET `Index`: where the token comes from, what is
      posted where, how one element of the result set becomes a record, and the two
      placeholder records. */
  datatype ListEndpoint<R> = ListEndpoint(
    authority: Authority,
    resource: string,
    base: BaseAddress,
    path: string,
    fields: seq<(string, Value)>,
    decodeOne: Json -> Result<R, Exn>,
    noItems: R,           // shown after a 401
    signInRequired: R)    // shown after an exception

  /** The `catch (Exception ex)` block of a list action: a challenge when re-authentication was
      asked for, otherwise the list so far with the sign-in placeholder after it. */
  function ListCatch<R>(e: ListEndpoint<R>, reauth: seq<string>, list: seq<R>, x: Exn): Outcome<R> {
    if ReauthRequested(reauth) then Challenge
    else ListView(list + [e.signInRequired], Some("AuthorizationRequired" + Message(x)))
  }

  function ListRequest<R>(e: ListEndpoint<R>, token: string): Request {
    Request(e.base, e.path, token, e.fields)
  }

  /** GET `Index`, as a function of the replies it gets. */
  function ListIndex<R>(s: Settings, lib: Library, e: ListEndpoint<R>, token: TokenReply, reply: Reply,
                        reauth: seq<string>, cache: seq<CacheItem>): Step<R>
  {
    var acquire := [TokenRequested(e.authority, e.resource)];
    match token
    case Refused(m) => Step(ListCatch(e, reauth, [], AdalServiceError(m)), acquire, cache)
    case Issued(t) =>
      var trace := acquire + [Posted(ListRequest(e, t))];
      match reply
      case Unreachable(m) => Step(ListCatch(e, reauth, [], HttpRequestError(m)), trace, cache)
      case Responded(status, body) =>
        if IsSuccessStatusCode(status) then
          var d := DecodeBody(lib, body, e.decodeOne);
          if d.failure.Some? then Step(ListCatch(e, reauth, d.records, d.failure.value), trace, cache)
          else Step(ListView(d.records, None), trace, cache)
        else if status == Unauthorized then
          Step(ListView([e.noItems], Some("UnexpectedError")), trace, Evicted(cache, s.centralRegistryResourceAppId))
        else Step(ErrorView, trace, cache)
  }

  /** GET `Index`, step by step: the token, the request, then the reply's three branches. */
  method IndexList<R>(s: Settings, lib: Library, e: ListEndpoint<R>, token: TokenReply, reply: Reply,
                      reauth: seq<string>, cache: Cache)
    returns (outcome: Outcome<R>, trace: seq<Event>)
    modifies cache
    ensures Step(outcome, trace, cache.items) == ListIndex(s, lib, e, token, reply, reauth, old(cache.items))
  {
    trace := [TokenRequested(e.authority, e.resource)];
    if token.Refused? {
      return ListCatch(e, reauth, [], AdalServiceError(token.message)), trace;
    }
    trace := trace + [Posted(ListRequest(e, token.accessToken))];
    if reply.Unreachable? {
      return ListCatch(e, reauth, [], HttpRequestError(reply.message)), trace;
    }
    if IsSuccessStatusCode(reply.status) {
      var rows := ResultRows(lib, reply.body);
      if rows.Failure? {
        return ListCatch(e, reauth, [], rows.error), trace;
      }
      var list, failure := DecodeRows(rows.value, e.decodeOne);
      if failure.Some? {
        return ListCatch(e, reauth, list, failure.value), trace;
      }
      return ListView(list, None), trace;
    }
    if reply.status == Unauthorized {
      EvictResource(cache, s.centralRegistryResourceAppId);
      return ListView([e.noItems], Some("UnexpectedError")), trace;
    }
    return ErrorView, trace;
  }

  /** Whatever goes wrong inside the `try` block (no token, no connection, a body that is not
      the expected envelope, an element that does not decode) ends in the `catch` block: a
      challenge if `reauth` is "True", otherwise the records decoded so far followed by the
      sign-in placeholder, with a message that starts "AuthorizationRequired". The cache is
      left alone. */
  lemma ListIndexCatches<R>(s: Settings, lib: Library, e: ListEndpoint<R>, token: TokenReply, reply: Reply,
                            reauth: seq<string>, cache: seq<CacheItem>)
    requires token.Refused? || reply.Unreachable?
             || (reply.Responded? && IsSuccessStatusCode(reply.status)
                 && DecodeBody(lib, reply.body, e.decodeOne).failure.Some?)
    ensures var st := ListIndex(s, lib, e, token, reply, reauth, cache);
      && st.cache == cache
      && (ReauthRequested(reauth) ==> st.outcome == Challenge)
      && (!ReauthRequested(reauth) ==>
            && st.outcome.ListView?
            && |st.outcome.items| >= 1
            && st.outcome.items[|st.outcome.items| - 1] == e.signInRequired
            && st.outcome.errorMessage.Some?
            && StartsWith(st.outcome.errorMessage.value, "AuthorizationRequired"))
  {
    var st := ListIndex(s, lib, e, token, reply, reauth, cache);
    if !ReauthRequested(reauth) {
      var msg := st.outcome.errorMessage.value;
      assert msg[..|"AuthorizationRequired"|] == "AuthorizationRequired";
    }
  }

  /** A 401 evicts every cached token of the central registry, keeps every other token where
      it was, and shows the "no items" placeholder with "UnexpectedError". */
  lemma ListIndexUnauthorized<R>(s: Settings, lib: Library, e: ListEndpoint<R>, t: string, body: string,
                                 reauth: seq<string>, cache: seq<CacheItem>)
    ensures var st := ListIndex(s, lib, e, Issued(t), Responded(Unauthorized, body), reauth, cache);
      && st.outcome == ListView([e.noItems], Some("UnexpectedError"))
      && (forall x :: x in st.cache <==> x in cache && x.resource != s.centralRegistryResourceAppId)
      && (forall r :: r != s.centralRegistryResourceAppId ==> WithResource(st.cache, r) == WithResource(cache, r))
  {
    EvictedMembers(cache, s.centralRegistryResourceAppId);
    forall r | r != s.centralRegistryResourceAppId
      ensures WithResource(Evicted(cache, s.centralRegistryResourceAppId), r) == WithResource(cache, r)
    {
      EvictedKeepsOthers(cache, s.centralRegistryResourceAppId, r);
    }
  }

  /** Any other status that is not a success falls out of the `try` block into `View("Error")`. */
  lemma ListIndexOtherFailure<R>(s: Settings, lib: Library, e: ListEndpoint<R>, t: string, status: int,
                                 body: string, reauth: seq<string>, cache: seq<CacheItem>)
    requires !IsSuccessStatusCode(status) && status != Unauthorized
    ensures ListIndex(s, lib, e, Issued(t), Responded(status, body), reauth, cache)
            == Step(ErrorView, [TokenRequested(e.authority, e.resource), Posted(ListRequest(e, t))], cache)
  {
  }

  /** A successful reply whose rows all decode shows one record per inner element of every
      row, in order. */
  lemma ListIndexSuccess<R>(s: Settings, lib: Library, e: ListEndpoint<R>, t: string, status: int,
                            rows: seq<Json>, body: string, reauth: seq<string>, cache: seq<CacheItem>)
    requires IsSuccessStatusCode(status) && ResultRows(lib, body) == Success(rows)
    requires forall k :: 0 <= k < |Elements(rows)| ==> e.decodeOne(Elements(rows)[k]).Success?
    ensures var st := ListIndex(s, lib, e, Issued(t), Responded(status, body), reauth, cache);
      && st.cache == cache
      && st.outcome.ListView? && st.outcome.errorMessage == None
      && |st.outcome.items| == |Elements(rows)|
      && forall k :: 0 <= k < |Elements(rows)| ==> st.outcome.items[k] == e.decodeOne(Elements(rows)[k]).value
  {
    DecodeSeqSuccess(Elements(rows), e.decodeOne);
  }

  /** An element that does not decode ends the action in the `catch` block, after the records
      of the elements before the first one that fails. */
  lemma ListIndexBadElement<R>(s: Settings, lib: Library, e: ListEndpoint<R>, t: string, status: int, body: string,
                               rows: seq<Json>, k: nat, reauth: seq<string>, cache: seq<CacheItem>)
    requires IsSuccessStatusCode(status) && ResultRows(lib, body) == Success(rows)
    requires k < |Elements(rows)| && e.decodeOne(Elements(rows)[k]).Failure?
    ensures var st := ListIndex(s, lib, e, Issued(t), Responded(status, body), reauth, cache);
      && st.cache == cache
      && (ReauthRequested(reauth) ==> st.outcome == Challenge)
      && (!ReauthRequested(reauth) ==>
            && st.outcome.ListView?
            && 1 <= |st.outcome.items| <= k + 1
            && st.outcome.items[|st.outcome.items| - 1] == e.signInRequired
            && st.outcome.errorMessage.Some?
            && StartsWith(st.outcome.errorMessage.value, "AuthorizationRequired"))
  {
    DecodeSeqSpec(Elements(rows), e.decodeOne);
    ListIndexCatches(s, lib, e, Issued(t), Responded(status, body), reauth, cache);
  }

  /** A list action asks for one token and, if it gets one, sends its one request. */
  lemma ListIndexTrace<R>(s: Settings, lib: Library, e: ListEndpoint<R>, token: TokenReply, reply: Reply,
                          reauth: seq<string>, cache: seq<CacheItem>)
    ensures var st := ListIndex(s, lib, e, token, reply, reauth, cache);
      && st.trace[0] == TokenRequested(e.authority, e.resource)
      && (token.Refused? ==> SendsNothing(st.trace))
      && (token.Issued? ==> Posts(st.trace) == [ListRequest(e, token.accessToken)])
      && (st.cache != cache ==> reply.Responded? && reply.status == Unauthorized)
  {
    var st := ListIndex(s, lib, e, token, reply, reauth, cache);
    if token.Issued? {
      var p := Posted(ListRequest(e, token.accessToken));
      assert st.trace == [TokenRequested(e.authority, e.resource), p];
      assert st.trace[1..] == [p] && [p][1..] == [];
    }
  }

  // ---- The reply to a POST ---------------------------------------------------------------

  /** What a POST action does with the reply to its last request: success redirects to the
      list; a 401 evicts the central registry's tokens and shows `unauthorized`; any other
      status shows `otherFailure`; a failed send lands in the `catch` block, `caught`. */
  function Classify<R>(s: Settings, reply: Reply, unauthorized: Outcome<R>, otherFailure: Outcome<R>,
                       caught: Outcome<R>, cache: seq<CacheItem>): (Outcome<R>, seq<CacheItem>)
  {
    match reply
    case Unreachable(_) => (caught, cache)
    case Responded(status, _) =>
      if IsSuccessStatusCode(status) then (RedirectToIndex, cache)
      else if status == Unauthorized then (unauthorized, Evicted(cache, s.centralRegistryResourceAppId))
      else (otherFailure, cache)
  }

  method ClassifyReply<R>(s: Settings, reply: Reply, unauthorized: Outcome<R>, otherFailure: Outcome<R>,
                          caught: Outcome<R>, cache: Cache)
    returns (outcome: Outcome<R>)
    modifies cache
    ensures (outcome, cache.items) == Classify(s, reply, unauthorized, otherFailure, caught, old(cache.items))
  {
    if reply.Unreachable? {
      return caught;
    }
    if IsSuccessStatusCode(reply.status) {
      return RedirectToIndex;
    }
    if reply.status == Unauthorized {
      EvictResource(cache, s.centralRegistryResourceAppId);
      return unauthorized;
    }
    return otherFailure;
  }

  /** The four ways a POST reply can end, and that only a 401 touches the cache, removing
      exactly the central registry's tokens. */
  lemma ClassifyCases<R>(s: Settings, reply: Reply, unauthorized: Outcome<R>, otherFailure: Outcome<R>,
                         caught: Outcome<R>, cache: seq<CacheItem>)
    ensures var (outcome, after) := Classify(s, reply, unauthorized, otherFailure, caught, cache);
      && (outcome == RedirectToIndex <== reply.Responded? && IsSuccessStatusCode(reply.status))
      && (reply.Unreachable? ==> outcome == caught && after == cache)
      && (reply.Responded? && reply.status == Unauthorized ==>
            outcome == unauthorized
            && forall x :: x in after <==> x in cache && x.resource != s.centralRegistryResourceAppId)
      && (reply.Responded? && !IsSuccessStatusCode(reply.status) && reply.status != Unauthorized ==>
            outcome == otherFailure && after == cache)
  {
    EvictedMembers(cache, s.centralRegistryResourceAppId);
  }

  // ---- A POST that sends at most one request ---------------------------------------------

  /** What distinguishes the single-request POST actions: where the token comes from, and what
      a 401, any other failure status and an exception show. */
  datatype PostEndpoint<R> = PostEndpoint(
    authority: Authority,
    resource: string,
    unauthorized: Outcome<R>,
    otherFailure: Outcome<R>,
    caught: Outcome<R>)

  /** POST `Index`: the "Error" view for an invalid model state; otherwise a token, then the
      request built with it (none means the action redirects without sending anything), then
      the reply's classification. */
  function PostIndex<R>(s: Settings, p: PostEndpoint<R>, modelStateValid: bool, token: TokenReply,
                        request: string -> Option<Request>, reply: Reply, cache: seq<CacheItem>): Step<R>
  {
    if !modelStateValid then Step(ErrorView, [], cache)
    else
      var acquired := [TokenRequested(p.authority, p.resource)];
      match token
      case Refused(_) => Step(p.caught, acquired, cache)
      case Issued(t) =>
        match request(t)
        case None => Step(RedirectToIndex, acquired, cache)
        case Some(req) =>
          var (outcome, after) := Classify(s, reply, p.unauthorized, p.otherFailure, p.caught, cache);
          Step(outcome, acquired + [Posted(req)], after)
  }

  method PostAction<R>(s: Settings, p: PostEndpoint<R>, modelStateValid: bool, token: TokenReply,
                       request: string -> Option<Request>, reply: Reply, cache: Cache)
    returns (outcome: Outcome<R>, trace: seq<Event>)
    modifies cache
    ensures Step(outcome, trace, cache.items) == PostIndex(s, p, modelStateValid, token, request, reply, old(cache.items))
  {
    trace := [];
    if !modelStateValid {
      return ErrorView, trace;
    }
    trace := trace + [TokenRequested(p.authority, p.resource)];
    if token.Refused? {
      return p.caught, trace;
    }
    var req := request(token.accessToken);
    if req.None? {
      return RedirectToIndex, trace;
    }
    trace := trace + [Posted(req.value)];
    outcome := ClassifyReply(s, reply, p.unauthorized, p.otherFailure, p.caught, cache);
  }

  /** How a single-request POST can end: an invalid model state asks nothing of anybody; a
      refused token lands in the `catch` block; without a request the action redirects; with
      one, exactly that request goes out and its reply decides as `Classify` does. */
  lemma PostIndexCases<R>(s: Settings, p: PostEndpoint<R>, valid: bool, token: TokenReply,
                          request: string -> Option<Request>, reply: Reply, cache: seq<CacheItem>)
    ensures var st := PostIndex(s, p, valid, token, request, reply, cache);
      && (!valid ==> st == Step(ErrorView, [], cache))
      && (valid ==> st.trace[0] == TokenRequested(p.authority, p.resource))
      && (valid && token.Refused? ==> st.outcome == p.caught && st.cache == cache && SendsNothing(st.trace))
      && (valid && token.Issued? && request(token.accessToken).None? ==>
            st.outcome == RedirectToIndex && st.cache == cache && SendsNothing(st.trace))
      && (valid && token.Issued? && request(token.accessToken).Some? ==>
            Posts(st.trace) == [request(token.accessToken).value]
            && (st.outcome, st.cache) == Classify(s, reply, p.unauthorized, p.otherFailure, p.caught, cache))
  {
    if valid && token.Issued? && request(token.accessToken).Some? {
      var st := PostIndex(s, p, valid, token, request, reply, cache);
      var acquired := [TokenRequested(p.authority, p.resource)];
      var posted := Posted(request(token.accessToken).value);
      assert st.trace == acquired + [posted];
      PostsAppend(acquired, [posted]);
      PostsOne(acquired[0]);
      PostsOne(posted);
    }
  }
}
