/** The HTTP client of the dashboard: the request interceptor that attaches
    the bearer token (section 2.1 of RFC 6750), the response interceptor
    that reacts to 401 Unauthorized (section 15.5.2 of RFC 9110) by
    refreshing the access token once per request, and the URL builders of
    the five REST resources.

    The server and the refresh endpoint are not modelled: their answers are
    the events that drive a per-request state machine, so every possible
    answer sequence is covered. */
module Api {
  import opened Base
  import opened Text
  import Storage

  // ---------------------------------------------------------------------
  // Configuration and requests
  // ---------------------------------------------------------------------

  const DefaultApiUrl: string := "https://web-production-dd05.up.railway.app"
  const RefreshPath: string := "/api/token/refresh/"
  const LoginPage: string := "/login"
  const AuthorizationHeader: string := "Authorization"
  const BearerPrefix: string := "Bearer "

  /** `process.env.NEXT_PUBLIC_API_URL || DefaultApiUrl`: the environment
      variable is a parameter; a missing or empty one falls back. */
  function ApiUrl(env: Option<string>): string {
    OrElse(env, DefaultApiUrl)
  }

  datatype Method = GET | POST | PUT | DELETE

  /** An axios request configuration; `retried` is the `_retry` mark the
      response interceptor puts on it. */
  datatype Request = Request(
    verb: Method,
    url: string,
    headers: map<string, string>,
    body: Option<string>,
    retried: bool)

  /** A request as `apiService` creates it: no headers of its own yet and
      never retried. */
  function NewRequest(verb: Method, url: string, body: Option<string>): Request {
    Request(verb, url, map[], body, false)
  }

  /** The header value that carries `token`. */
  function Bearer(token: string): string {
    BearerPrefix + token
  }

  /** The token an `Authorization` header carries, if it is a bearer one. */
  function BearerToken(headers: map<string, string>): Option<string> {
    if AuthorizationHeader in headers && BearerPrefix <= headers[AuthorizationHeader]
    then Some(headers[AuthorizationHeader][|BearerPrefix|..])
    else None
  }

  /** Reading the token back out of a header written with `Bearer` gives
      the token that was written. */
  lemma BearerRoundTrip(headers: map<string, string>, token: string)
    ensures BearerToken(headers[AuthorizationHeader := Bearer(token)]) == Some(token)
  {
    assert (BearerPrefix + token)[|BearerPrefix|..] == token;
  }

  // ---------------------------------------------------------------------
  // Request interceptor
  // ---------------------------------------------------------------------

  /** The request interceptor: when `localStorage` holds a truthy access
      token, the request leaves with `Authorization: Bearer <token>` and
      nothing else about it changes; when the token is missing or empty the
      request leaves exactly as it came. */
  function Authenticate(st: Storage.Store, req: Request): (r: Request)
    ensures Truthy(Storage.GetItem(st, Storage.AccessKey)) ==>
      && BearerToken(r.headers) == Storage.GetItem(st, Storage.AccessKey)
      && r.headers.Keys == req.headers.Keys + {AuthorizationHeader}
      && (forall h :: h in req.headers && h != AuthorizationHeader ==> r.headers[h] == req.headers[h])
      && r == req.(headers := r.headers)
    ensures !Truthy(Storage.GetItem(st, Storage.AccessKey)) ==> r == req
  {
    var token := Storage.GetItem(st, Storage.AccessKey);
    if Truthy(token) then
      BearerRoundTrip(req.headers, token.value);
      req.(headers := req.headers[AuthorizationHeader := Bearer(token.value)])
    else req
  }

  // ---------------------------------------------------------------------
  // Response interceptor: one refresh per request
  // ---------------------------------------------------------------------

  /** What one dispatched request gets back: an HTTP response, or an error
      without a response (network failure). */
  datatype Reply =
    | Response(status: int, data: string)
    | NoResponse(message: string)

  /** axios resolves a response with a 2xx status and rejects every other
      reply. */
  predicate IsOk(r: Reply) {
    r.Response? && 200 <= r.status < 300
  }

  /** `error.response?.status === 401`. */
  predicate IsUnauthorized(r: Reply) {
    r.Response? && r.status == 401
  }

  /** What the POST to the refresh endpoint yields: a new access token, or
      any error at all. */
  datatype RefreshReply = Refreshed(access: string) | RefreshFailed(error: Reply)

  /** Why a call was rejected: with the reply of the request itself, or
      with the error of the refresh attempt. */
  datatype Failure = Rejected(reply: Reply) | RefreshError(error: Reply)

  /** Where one logical call stands. */
  datatype Phase =
    | AwaitingReply(req: Request)     // dispatched, waiting for the server
    | AwaitingRefresh(req: Request)   // 401 seen, refresh POST in flight
    | Resolved(reply: Reply)          // the caller receives this response
    | Failed(failure: Failure)        // the caller's promise is rejected

  predicate IsTerminal(p: Phase) {
    p.Resolved? || p.Failed?
  }

  /** What the call does to the outside world, in order. */
  datatype Effect =
    | Send(req: Request)                              // the request as it leaves
    | PostRefresh(url: string, refresh: Option<string>) // body `{ refresh }`
    | Navigate(path: string)                          // `window.location.href = path`

  datatype State = State(store: Storage.Store, phase: Phase, effects: seq<Effect>)

  /** An answer from the outside world. */
  datatype Event = Replied(reply: Reply) | RefreshDone(outcome: RefreshReply)

  /** `api(req)`: the request interceptor runs, then the request is sent. */
  function Dispatch(st: Storage.Store, req: Request, effects: seq<Effect>): (s: State)
    ensures s.store == st && s.phase.AwaitingReply?
    ensures s.effects == effects + [Send(s.phase.req)]
    ensures s.phase.req == Authenticate(st, req)
    ensures Truthy(Storage.GetItem(st, Storage.AccessKey)) ==>
      BearerToken(s.phase.req.headers) == Storage.GetItem(st, Storage.AccessKey)
    ensures !Truthy(Storage.GetItem(st, Storage.AccessKey)) ==> s.phase.req == req
    ensures s.phase.req.retried == req.retried
  {
    var sent := Authenticate(st, req);
    State(st, AwaitingReply(sent), effects + [Send(sent)])
  }

  /** The response interceptor on the reply to `req`. A 2xx reply passes
      through and a non-401 error, or a 401 on a request already marked,
      is rejected with that same error; in both cases the store and the
      effects are untouched. A first 401 marks the request and issues
      exactly one POST to the refresh endpoint carrying whatever the store
      holds as refresh token, even nothing. */
  function OnReply(env: Option<string>, st: Storage.Store, effects: seq<Effect>, req: Request, reply: Reply): (s: State)
    ensures s.store == st
    ensures IsOk(reply) ==> s == State(st, Resolved(reply), effects)
    ensures !IsOk(reply) && (!IsUnauthorized(reply) || req.retried) ==>
      s == State(st, Failed(Rejected(reply)), effects)
    ensures IsUnauthorized(reply) && !req.retried ==>
      && s.phase == AwaitingRefresh(req.(retried := true))
      && s.effects == effects + [PostRefresh(ApiUrl(env) + RefreshPath, Storage.GetItem(st, Storage.RefreshKey))]
  {
    if IsOk(reply) then State(st, Resolved(reply), effects)
    else if IsUnauthorized(reply) && !req.retried then
      var marked := req.(retried := true);
      var refresh := Storage.GetItem(st, Storage.RefreshKey);
      State(st, AwaitingRefresh(marked), effects + [PostRefresh(ApiUrl(env) + RefreshPath, refresh)])
    else State(st, Failed(Rejected(reply)), effects)
  }

  /** The interceptor once the refresh POST for `req` has settled.
      On success the new token is stored as access token, the refresh token
      and every other key keep their values, and `req` is sent again, still
      marked, with `Bearer <new token>` (even an empty new token: the header
      is written before the request interceptor runs again, and the
      interceptor leaves an empty token alone). On failure both tokens are
      removed, the browser is sent to `/login`, and the call is rejected
      with the refresh error, not the original 401. */
  function OnRefreshReply(st: Storage.Store, effects: seq<Effect>, req: Request, outcome: RefreshReply): (s: State)
    ensures outcome.Refreshed? ==>
      && Storage.GetItem(s.store, Storage.AccessKey) == Some(outcome.access)
      && (forall k :: k != Storage.AccessKey ==> Storage.GetItem(s.store, k) == Storage.GetItem(st, k))
      && s.phase.AwaitingReply?
      && s.phase.req == req.(headers := s.phase.req.headers)
      && BearerToken(s.phase.req.headers) == Some(outcome.access)
      && s.effects == effects + [Send(s.phase.req)]
    ensures outcome.RefreshFailed? ==>
      && Storage.GetItem(s.store, Storage.AccessKey) == None
      && Storage.GetItem(s.store, Storage.RefreshKey) == None
      && (forall k :: k != Storage.AccessKey && k != Storage.RefreshKey ==>
            Storage.GetItem(s.store, k) == Storage.GetItem(st, k))
      && s.phase == Failed(RefreshError(outcome.error))
      && s.effects == effects + [Navigate(LoginPage)]
  {
    match outcome
    case Refreshed(access) =>
      var store := Storage.SetItem(st, Storage.AccessKey, access);
      var withHeader := req.(headers := req.headers[AuthorizationHeader := Bearer(access)]);
      BearerRoundTrip(req.headers, access);
      Dispatch(store, withHeader, effects)
    case RefreshFailed(error) =>
      State(Storage.ClearTokens(st), Failed(RefreshError(error)), effects + [Navigate(LoginPage)])
  }

  /** The event fits the phase: a reply while a request is in flight, a
      refresh outcome while the refresh POST is. */
  predicate Accepts(s: State, e: Event) {
    (s.phase.AwaitingReply? && e.Replied?) || (s.phase.AwaitingRefresh? && e.RefreshDone?)
  }

  /** One step of the call; an event that does not fit the phase is ignored. */
  function Step(env: Option<string>, s: State, e: Event): State {
    if s.phase.AwaitingReply? && e.Replied? then
      OnReply(env, s.store, s.effects, s.phase.req, e.reply)
    else if s.phase.AwaitingRefresh? && e.RefreshDone? then
      OnRefreshReply(s.store, s.effects, s.phase.req, e.outcome)
    else s
  }

  /** The call after a sequence of outside answers. */
  function Run(env: Option<string>, s: State, events: seq<Event>): State
    decreases |events|
  {
    if |events| == 0 then s else Run(env, Step(env, s, events[0]), events[1..])
  }

  /** A call of `apiService` started on `st`. */
  function Call(st: Storage.Store, verb: Method, url: string, body: Option<string>): State {
    Dispatch(st, NewRequest(verb, url, body), [])
  }

  // ---------------------------------------------------------------------
  // Refresh-once: bounds on what one call can do
  // ---------------------------------------------------------------------

  function CountSends(effects: seq<Effect>): nat {
    if |effects| == 0 then 0
    else CountSends(effects[..|effects| - 1]) + (if effects[|effects| - 1].Send? then 1 else 0)
  }

  function CountRefreshes(effects: seq<Effect>): nat {
    if |effects| == 0 then 0
    else CountRefreshes(effects[..|effects| - 1]) + (if effects[|effects| - 1].PostRefresh? then 1 else 0)
  }

  function CountNavigations(effects: seq<Effect>): nat {
    if |effects| == 0 then 0
    else CountNavigations(effects[..|effects| - 1]) + (if effects[|effects| - 1].Navigate? then 1 else 0)
  }

  /** What holds at every point of a call that started unmarked: the mark
      records whether the refresh already happened, and the counts of sends,
      refresh POSTs and navigations follow from the phase. */
  ghost predicate Invariant(s: State) {
    var sends := CountSends(s.effects);
    var refreshes := CountRefreshes(s.effects);
    var navigations := CountNavigations(s.effects);
    match s.phase
    case AwaitingReply(req) =>
      if req.retried then sends == 2 && refreshes == 1 && navigations == 0
      else sends == 1 && refreshes == 0 && navigations == 0
    case AwaitingRefresh(req) =>
      req.retried && sends == 1 && refreshes == 1 && navigations == 0
    case Resolved(_) =>
      sends <= 2 && refreshes <= 1 && navigations == 0
    case Failed(f) =>
      sends <= 2 && refreshes <= 1 && navigations <= (if f.RefreshError? then 1 else 0)
  }

  /** How many more outside answers the call can still accept. */
  function Budget(p: Phase): nat {
    match p
    case AwaitingReply(req) => if req.retried then 1 else 3
    case AwaitingRefresh(_) => 2
    case _ => 0
  }

  lemma CountsAppend(effects: seq<Effect>, e: Effect)
    ensures CountSends(effects + [e]) == CountSends(effects) + (if e.Send? then 1 else 0)
    ensures CountRefreshes(effects + [e]) == CountRefreshes(effects) + (if e.PostRefresh? then 1 else 0)
    ensures CountNavigations(effects + [e]) == CountNavigations(effects) + (if e.Navigate? then 1 else 0)
  {
    assert (effects + [e])[..|effects|] == effects;
  }

  /** A fresh call satisfies the invariant. */
  lemma CallInvariant(st: Storage.Store, verb: Method, url: string, body: Option<string>)
    ensures Invariant(Call(st, verb, url, body))
    ensures Budget(Call(st, verb, url, body).phase) == 3
  {
    CountsAppend([], Send(Call(st, verb, url, body).phase.req));
  }

  /** Every step keeps the invariant, and every accepted answer uses up
      part of the budget. */
  lemma {:induction false} StepInvariant(env: Option<string>, s: State, e: Event)
    requires Invariant(s)
    ensures Invariant(Step(env, s, e))
    ensures Accepts(s, e) ==> Budget(Step(env, s, e).phase) < Budget(s.phase)
    ensures !Accepts(s, e) ==> Step(env, s, e) == s
  {
    var t := Step(env, s, e);
    if s.phase.AwaitingReply? && e.Replied? {
      if IsUnauthorized(e.reply) && !s.phase.req.retried {
        CountsAppend(s.effects, t.effects[|t.effects| - 1]);
      }
    } else if s.phase.AwaitingRefresh? && e.RefreshDone? {
      CountsAppend(s.effects, t.effects[|t.effects| - 1]);
    }
  }

  /** Refresh-once. Whatever the server and the refresh endpoint answer,
      and in whatever order the answers arrive, one call is sent at most
      twice, posts to the refresh endpoint at most once and navigates at
      most once; and it accepts at most three answers before it settles,
      because the `_retry` mark is set before the refresh and never cleared. */
  lemma {:induction false} RefreshOnce(env: Option<string>, s: State, events: seq<Event>)
    requires Invariant(s)
    ensures Invariant(Run(env, s, events))
    ensures CountSends(Run(env, s, events).effects) <= 2
    ensures CountRefreshes(Run(env, s, events).effects) <= 1
    ensures CountNavigations(Run(env, s, events).effects) <= 1
    ensures Budget(Run(env, s, events).phase) <= Budget(s.phase)
    decreases |events|
  {
    if |events| > 0 {
      StepInvariant(env, s, events[0]);
      RefreshOnce(env, Step(env, s, events[0]), events[1..]);
    }
  }

  /** Every answer the call accepts is counted against its budget: along
      any sequence of fitting answers, a fresh call accepts at most three
      (reply, refresh outcome, reply) and is then settled. */
  ghost predicate AllAccepted(env: Option<string>, s: State, events: seq<Event>)
    decreases |events|
  {
    |events| == 0 || (Accepts(s, events[0]) && AllAccepted(env, Step(env, s, events[0]), events[1..]))
  }

  lemma {:induction false} AcceptedRunIsShort(env: Option<string>, s: State, events: seq<Event>)
    requires Invariant(s)
    requires AllAccepted(env, s, events)
    ensures |events| <= Budget(s.phase)
    ensures |events| == Budget(s.phase) ==> IsTerminal(Run(env, s, events).phase)
    decreases |events|
  {
    if |events| > 0 {
      StepInvariant(env, s, events[0]);
      AcceptedRunIsShort(env, Step(env, s, events[0]), events[1..]);
    } else {
      assert Budget(s.phase) == 0 ==> IsTerminal(s.phase);
    }
  }

  // ---------------------------------------------------------------------
  // Resource paths of `apiService`
  // ---------------------------------------------------------------------

  datatype Resource = Vehicles | Drivers | Tasks | Mileages | Expenses

  function ResourceName(r: Resource): string {
    match r
    case Vehicles => "araclar"
    case Drivers => "suruculer"
    case Tasks => "gorevler"
    case Mileages => "kilometreler"
    case Expenses => "harcamalar"
  }

  /** The resource whose path segment is `name`, if any. */
  function ResourceNamed(name: string): Option<Resource> {
    if name == "araclar" then Some(Vehicles)
    else if name == "suruculer" then Some(Drivers)
    else if name == "gorevler" then Some(Tasks)
    else if name == "kilometreler" then Some(Mileages)
    else if name == "harcamalar" then Some(Expenses)
    else None
  }

  /** The five operations per resource: list, get, create, update, delete. */
  datatype Operation = List | Get(id: nat) | Create | Update(id: nat) | Delete(id: nat)

  function IdOf(op: Operation): Option<nat> {
    match op
    case List => None
    case Create => None
    case Get(id) => Some(id)
    case Update(id) => Some(id)
    case Delete(id) => Some(id)
  }

  const ApiPrefix: string := "/api/"

  /** The HTTP method and path `apiService` uses for `op` on `res`:
      `/api/<res>/` for the collection, `/api/<res>/<id>/` for one item. */
  function Endpoint(res: Resource, op: Operation): (Method, string) {
    var collection := ApiPrefix + ResourceName(res) + "/";
    match op
    case List => (GET, collection)
    case Create => (POST, collection)
    case Get(id) => (GET, collection + NatToString(id) + "/")
    case Update(id) => (PUT, collection + NatToString(id) + "/")
    case Delete(id) => (DELETE, collection + NatToString(id) + "/")
  }

  /** Reads a resource path back: which resource, and which item if any. */
  function ParsePath(p: string): Option<(Resource, Option<nat>)> {
    if !(ApiPrefix <= p) then None
    else
      var rest := p[|ApiPrefix|..];
      var name := BeforeFirst(rest, '/');
      if |name| == |rest| then None
      else
        var tail := rest[|name| + 1..];
        match ResourceNamed(name)
        case None => None
        case Some(res) =>
          if tail == "" then Some((res, None))
          else if |tail| > 1 && tail[|tail| - 1] == '/' && IsDigits(tail[..|tail| - 1])
          then Some((res, Some(ParseNat(tail[..|tail| - 1]))))
          else None
  }

  lemma ResourceNameRoundTrip(res: Resource)
    ensures ResourceNamed(ResourceName(res)) == Some(res)
    ensures '/' !in ResourceName(res)
  {
  }

  /** The path `/api/<res>/` followed by `tail` is read back as `res`. */
  lemma ParseJoinedPath(res: Resource, tail: string)
    ensures var rest := (ApiPrefix + ResourceName(res) + "/" + tail)[|ApiPrefix|..];
      && rest == ResourceName(res) + ['/'] + tail
      && BeforeFirst(rest, '/') == ResourceName(res)
      && rest[|ResourceName(res)| + 1..] == tail
  {
    var name := ResourceName(res);
    ResourceNameRoundTrip(res);
    var rest := (ApiPrefix + name + "/" + tail)[|ApiPrefix|..];
    assert rest == name + ['/'] + tail;
    BeforeFirstOfJoined(name, '/', tail);
  }

  /** The collection path `/api/<res>/` is read back as `res` with no id. */
  lemma ParseCollectionPath(res: Resource)
    ensures ParsePath(ApiPrefix + ResourceName(res) + "/") == Some((res, None))
  {
    ParseJoinedPath(res, "");
    ResourceNameRoundTrip(res);
    assert ApiPrefix + ResourceName(res) + "/" + "" == ApiPrefix + ResourceName(res) + "/";
  }

  /** The item path `/api/<res>/<id>/` is read back as `res` and `id`. */
  lemma ParseItemPath(res: Resource, id: nat)
    ensures ParsePath(ApiPrefix + ResourceName(res) + "/" + NatToString(id) + "/") == Some((res, Some(id)))
  {
    var tail := NatToString(id) + "/";
    ParseJoinedPath(res, tail);
    ResourceNameRoundTrip(res);
    assert ApiPrefix + ResourceName(res) + "/" + NatToString(id) + "/" == ApiPrefix + ResourceName(res) + "/" + tail;
    ParseNatToString(id);
    assert tail[..|tail| - 1] == NatToString(id);
  }

  /** Every endpoint path names its resource and exactly the id of the
      operation, so no two operations on different resources or ids share a
      path: list and create use the collection path, get, update and delete
      the item path. */
  lemma EndpointPaths(res: Resource, op: Operation)
    ensures ParsePath(Endpoint(res, op).1) == Some((res, IdOf(op)))
    ensures Endpoint(res, op).0 == GET <==> op.List? || op.Get?
    ensures Endpoint(res, op).0 == POST <==> op.Create?
    ensures Endpoint(res, op).0 == PUT <==> op.Update?
    ensures Endpoint(res, op).0 == DELETE <==> op.Delete?
  {
    match op
    case List => ParseCollectionPath(res);
    case Create => ParseCollectionPath(res);
    case Get(id) => ParseItemPath(res, id);
    case Update(id) => ParseItemPath(res, id);
    case Delete(id) => ParseItemPath(res, id);
  }

  /** Distinct (resource, id) pairs never share a path. */
  lemma EndpointPathsDistinct(res1: Resource, op1: Operation, res2: Resource, op2: Operation)
    requires Endpoint(res1, op1).1 == Endpoint(res2, op2).1
    ensures res1 == res2 && IdOf(op1) == IdOf(op2)
  {
    EndpointPaths(res1, op1);
    EndpointPaths(res2, op2);
  }
}
