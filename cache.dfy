/**
 * The request-coalescing cache as a state machine over the proxy's `requests`
 * Map. Node runs each handler to completion, so each event is one atomic step:
 *   - an arrival of a client request (the HTTP handler),
 *   - the settlement of an upstream fetch (the promise's continuation),
 *   - the expiry of a TTL timer.
 * Fetch n creates promise n, so the fetch count doubles as the generation of
 * the entry that fetch inserted.
 */
module Cache {
  import opened Wrappers
  import opened Json
  import opened Errors
  import opened Query
  import opened Upstream
  import opened Endpoints

  const AccessTokenParam: string := "access_token"

  /** reqURL.toString() once the credential is set: the pathname and the final parameter list. */
  datatype Key = Key(path: string, params: Params)

  /** The proxy's collaborators and settings: path matcher, JSON.parse, the access token. */
  datatype Config = Config(matches: Matcher, parse: string -> Parsed, accessToken: string)

  /** What the continuation of a fetch captured: the key and the endpoint of the request that missed. */
  datatype Fetch = Fetch(key: Key, endpoint: Endpoint)

  datatype State = State(
    requests: map<Key, nat>,      // the Map: each key holds the promise of one fetch
    pending: map<nat, Fetch>,     // fetches that have not settled
    resolved: map<nat, Response>, // what each settled promise resolved to
    timers: map<nat, Key>,        // armed TTL timers, by the fetch whose settlement armed them
    log: seq<Key>)                // log[n] is the key fetch n was issued for; |log| fetches so far

  /** What a client gets: an immediate reply, or the promise whose value will be written to it. */
  datatype Reply = Immediate(response: Response) | Await(promise: nat)

  datatype Route = Reject(response: Response) | Forward(key: Key, endpoint: Endpoint)

  datatype Event =
    | Arrival(verb: string, path: string, params: Params)
    | Settlement(fetch: nat, outcome: Outcome)
    | Expiry(fetch: nat)

  function Init(): State
  {
    State(map[], map[], map[], map[], [])
  }

  function MethodNotAllowed(): Response
  {
    Response(405, map[], InvalidMethodBody())
  }

  function NotFound(): Response
  {
    Response(404, map[], UnknownRequestBody())
  }

  predicate AllowedMethod(verb: string)
  {
    verb == "GET" || verb == "OPTIONS"
  }

  /** The key of a routed request: pathname plus the client's parameters with the credential set. */
  function KeyOf(c: Config, path: string, params: Params): Key
  {
    Key(path, SetParam(params, AccessTokenParam, c.accessToken))
  }

  /** Method check, then endpoint lookup, then the cache key. */
  function RouteRequest(c: Config, verb: string, path: string, params: Params): Route
  {
    if !AllowedMethod(verb) then Reject(MethodNotAllowed())
    else match FindEndpoint(c.matches, Table, path)
      case None => Reject(NotFound())
      case Some(i) => Forward(KeyOf(c, path, params), Table[i])
  }

  lemma RouteForward(c: Config, verb: string, path: string, params: Params, i: nat)
    requires AllowedMethod(verb)
    requires FindEndpoint(c.matches, Table, path) == Some(i)
    ensures i < |Table|
    ensures RouteRequest(c, verb, path, params) == Forward(KeyOf(c, path, params), Table[i])
  {
  }

  /** Attach to the entry for `key`, or issue fetch |log| and insert its promise at once. */
  function Admit(s: State, key: Key, endpoint: Endpoint): (State, Reply)
  {
    if key in s.requests then (s, Await(s.requests[key]))
    else
      var n := |s.log|;
      (s.(requests := s.requests[key := n],
          pending := s.pending[n := Fetch(key, endpoint)],
          log := s.log + [key]),
       Await(n))
  }

  function ArriveStep(c: Config, s: State, verb: string, path: string, params: Params): (State, Reply)
  {
    match RouteRequest(c, verb, path, params)
    case Reject(response) => (s, Immediate(response))
    case Forward(key, endpoint) => Admit(s, key, endpoint)
  }

  /** A routed request is the Map lookup for its key and the first matching endpoint. */
  lemma ArriveForwarded(c: Config, s: State, verb: string, path: string, params: Params, i: nat)
    requires AllowedMethod(verb)
    requires FindEndpoint(c.matches, Table, path) == Some(i)
    ensures i < |Table|
    ensures ArriveStep(c, s, verb, path, params) == Admit(s, KeyOf(c, path, params), Table[i])
  {
    RouteForward(c, verb, path, params, i);
  }

  /** isCached as the continuation calls it: the endpoint, the request's query map, the parsed body. */
  function SettleVerdict(c: Config, f: Fetch, response: Response): Verdict
  {
    IsCached(f.endpoint, FromEntries(f.key.params), c.parse(response.body))
  }

  /**
   * Fetch n settles: its promise resolves, and the continuation deletes the key at
   * once, arms a timer for it, or throws (leaving the entry in place, untimed).
   * A fetch settles once; for any other n nothing happens.
   */
  function SettleStep(c: Config, s: State, n: nat, o: Outcome): State
  {
    if n !in s.pending then s
    else
      var f := s.pending[n];
      var response := Settled(o);
      var s1 := s.(pending := s.pending - {n}, resolved := s.resolved[n := response]);
      match SettleVerdict(c, f, response)
      case NotCacheable => s1.(requests := s1.requests - {f.key})
      case Cacheable => s1.(timers := s1.timers[n := f.key])
      case Threw => s1
  }

  /** The timer armed by fetch n fires: it deletes the key it captured. Unarmed timers do nothing. */
  function ExpireStep(s: State, n: nat): State
  {
    if n !in s.timers then s
    else s.(requests := s.requests - {s.timers[n]}, timers := s.timers - {n})
  }

  function Step(c: Config, s: State, e: Event): State
  {
    match e
    case Arrival(verb, path, params) => ArriveStep(c, s, verb, path, params).0
    case Settlement(n, o) => SettleStep(c, s, n, o)
    case Expiry(n) => ExpireStep(s, n)
  }

  function Run(c: Config, s: State, evs: seq<Event>): State
    decreases |evs|
  {
    if evs == [] then s else Run(c, Step(c, s, evs[0]), evs[1..])
  }

  /** What a reply has delivered so far: the immediate response, or the promise's value once settled. */
  function Delivered(s: State, r: Reply): Option<Response>
  {
    match r
    case Immediate(response) => Some(response)
    case Await(n) => if n in s.resolved then Some(s.resolved[n]) else None
  }

  // ---------------------------------------------------------------------------
  // The invariant.
  // ---------------------------------------------------------------------------

  /** A pending fetch's promise is what the Map holds under the key it was issued for. */
  ghost predicate PendingInMap(s: State)
  {
    forall n :: n in s.pending ==>
      && n < |s.log| && n !in s.resolved
      && s.pending[n].key == s.log[n]
      && s.log[n] in s.requests && s.requests[s.log[n]] == n
  }

  /** Every fetch issued is pending or settled. */
  ghost predicate FetchesAccounted(s: State)
  {
    && (forall n :: n in s.resolved ==> n < |s.log|)
    && (forall n :: 0 <= n < |s.log| ==> n in s.pending || n in s.resolved)
  }

  /** An armed timer belongs to a settled fetch whose promise is still the entry for its key. */
  ghost predicate TimersOwnEntries(s: State)
  {
    forall n :: n in s.timers ==>
      && n in s.resolved && n < |s.log|
      && s.timers[n] == s.log[n]
      && s.log[n] in s.requests && s.requests[s.log[n]] == n
  }

  /** Each entry holds a fetch issued for that key, and the latest fetch for that key. */
  ghost predicate EntriesLatest(s: State)
  {
    && (forall k :: k in s.requests ==> s.requests[k] < |s.log| && s.log[s.requests[k]] == k)
    && (forall n :: 0 <= n < |s.log| && s.log[n] in s.requests ==> n <= s.requests[s.log[n]])
  }

  ghost predicate Valid(s: State)
  {
    PendingInMap(s) && FetchesAccounted(s) && TimersOwnEntries(s) && EntriesLatest(s)
  }

  lemma InitValid()
    ensures Valid(Init())
  {
  }

  lemma AdmitKeepsPendingInMap(s: State, key: Key, endpoint: Endpoint)
    requires Valid(s)
    requires key !in s.requests
    ensures PendingInMap(Admit(s, key, endpoint).0)
  {
    var t := Admit(s, key, endpoint).0;
    var n := |s.log|;
    forall m | m in t.pending
      ensures m < |t.log| && m !in t.resolved && t.pending[m].key == t.log[m]
      ensures t.log[m] in t.requests && t.requests[t.log[m]] == m
    {
      if m != n {
        assert t.log[m] == s.log[m];
        assert s.log[m] != key;
      }
    }
  }

  lemma AdmitKeepsTimersOwnEntries(s: State, key: Key, endpoint: Endpoint)
    requires Valid(s)
    requires key !in s.requests
    ensures TimersOwnEntries(Admit(s, key, endpoint).0)
  {
    var t := Admit(s, key, endpoint).0;
    forall m | m in t.timers
      ensures m in t.resolved && m < |t.log| && t.timers[m] == t.log[m]
      ensures t.log[m] in t.requests && t.requests[t.log[m]] == m
    {
      assert t.log[m] == s.log[m];
      assert s.log[m] != key;
    }
  }

  lemma AdmitKeepsEntriesLatest(s: State, key: Key, endpoint: Endpoint)
    requires Valid(s)
    requires key !in s.requests
    ensures EntriesLatest(Admit(s, key, endpoint).0)
  {
    var t := Admit(s, key, endpoint).0;
    var n := |s.log|;
    assert t.log[n] == key;
    forall k | k in t.requests
      ensures t.requests[k] < |t.log| && t.log[t.requests[k]] == k
    {
      if k != key {
        assert t.log[t.requests[k]] == s.log[s.requests[k]];
      }
    }
    forall m | 0 <= m < |t.log| && t.log[m] in t.requests
      ensures m <= t.requests[t.log[m]]
    {
      if m < n {
        assert t.log[m] == s.log[m];
      }
    }
  }

  lemma AdmitPreservesValid(s: State, key: Key, endpoint: Endpoint)
    requires Valid(s)
    ensures Valid(Admit(s, key, endpoint).0)
  {
    if key !in s.requests {
      var t := Admit(s, key, endpoint).0;
      AdmitKeepsPendingInMap(s, key, endpoint);
      assert FetchesAccounted(t) by {
        assert forall m :: 0 <= m < |t.log| ==> m < |s.log| || m in t.pending;
      }
      AdmitKeepsTimersOwnEntries(s, key, endpoint);
      AdmitKeepsEntriesLatest(s, key, endpoint);
    }
  }

  lemma ArrivePreservesValid(c: Config, s: State, verb: string, path: string, params: Params)
    requires Valid(s)
    ensures Valid(ArriveStep(c, s, verb, path, params).0)
  {
    match RouteRequest(c, verb, path, params)
    case Reject(_) =>
    case Forward(key, endpoint) => AdmitPreservesValid(s, key, endpoint);
  }

  /** The promise of pending fetch n resolves; `drop` also deletes its key, `arm` arms its timer. */
  function Resolve(s: State, n: nat, response: Response, drop: bool, arm: bool): State
    requires n in s.pending
  {
    var key := s.pending[n].key;
    s.(pending := s.pending - {n},
       resolved := s.resolved[n := response],
       requests := if drop then s.requests - {key} else s.requests,
       timers := if arm then s.timers[n := key] else s.timers)
  }

  lemma ResolveKeepsPendingInMap(s: State, n: nat, response: Response, drop: bool, arm: bool)
    requires Valid(s)
    requires n in s.pending
    ensures PendingInMap(Resolve(s, n, response, drop, arm))
  {
    var key := s.pending[n].key;
    var t := Resolve(s, n, response, drop, arm);
    forall m | m in t.pending
      ensures m < |t.log| && m !in t.resolved && t.pending[m].key == t.log[m]
      ensures t.log[m] in t.requests && t.requests[t.log[m]] == m
    {
      assert m in s.pending && m != n;
      assert s.requests[key] == n;
      assert s.log[m] != key;
    }
  }

  lemma ResolveKeepsTimersOwnEntries(s: State, n: nat, response: Response, drop: bool, arm: bool)
    requires Valid(s)
    requires n in s.pending
    requires !(drop && arm)
    ensures TimersOwnEntries(Resolve(s, n, response, drop, arm))
  {
    var key := s.pending[n].key;
    var t := Resolve(s, n, response, drop, arm);
    assert key == s.log[n] && s.requests[key] == n;
    forall m | m in t.timers
      ensures m in t.resolved && m < |t.log| && t.timers[m] == t.log[m]
      ensures t.log[m] in t.requests && t.requests[t.log[m]] == m
    {
      if m != n {
        assert m in s.timers;
        assert s.log[m] != key;
      }
    }
  }

  lemma ResolvePreservesValid(s: State, n: nat, response: Response, drop: bool, arm: bool)
    requires Valid(s)
    requires n in s.pending
    requires !(drop && arm)
    ensures Valid(Resolve(s, n, response, drop, arm))
  {
    var t := Resolve(s, n, response, drop, arm);
    ResolveKeepsPendingInMap(s, n, response, drop, arm);
    assert FetchesAccounted(t);
    ResolveKeepsTimersOwnEntries(s, n, response, drop, arm);
    assert EntriesLatest(t);
  }

  lemma SettleIsResolve(c: Config, s: State, n: nat, o: Outcome)
    requires n in s.pending
    ensures var v := SettleVerdict(c, s.pending[n], Settled(o));
      SettleStep(c, s, n, o) == Resolve(s, n, Settled(o), v == NotCacheable, v == Cacheable)
  {
  }

  lemma SettlePreservesValid(c: Config, s: State, n: nat, o: Outcome)
    requires Valid(s)
    ensures Valid(SettleStep(c, s, n, o))
  {
    if n in s.pending {
      var v := SettleVerdict(c, s.pending[n], Settled(o));
      SettleIsResolve(c, s, n, o);
      ResolvePreservesValid(s, n, Settled(o), v == NotCacheable, v == Cacheable);
    }
  }

  lemma ExpirePreservesValid(s: State, n: nat)
    requires Valid(s)
    ensures Valid(ExpireStep(s, n))
  {
    if n in s.timers {
      var k := s.timers[n];
      var t := ExpireStep(s, n);
      assert s.requests[k] == n;
      assert PendingInMap(t) by {
        assert forall m :: m in s.pending ==> s.log[m] != k;
      }
      assert FetchesAccounted(t);
      assert TimersOwnEntries(t) by {
        assert forall m :: m in s.timers && m != n ==> s.log[m] != k;
      }
      assert EntriesLatest(t);
    }
  }

  lemma StepPreservesValid(c: Config, s: State, e: Event)
    requires Valid(s)
    ensures Valid(Step(c, s, e))
  {
    match e
    case Arrival(verb, path, params) => ArrivePreservesValid(c, s, verb, path, params);
    case Settlement(n, o) => SettlePreservesValid(c, s, n, o);
    case Expiry(n) => ExpirePreservesValid(s, n);
  }

  /** Every reachable state satisfies the invariant. */
  lemma {:induction false} RunPreservesValid(c: Config, s: State, evs: seq<Event>)
    requires Valid(s)
    ensures Valid(Run(c, s, evs))
    decreases |evs|
  {
    if evs != [] {
      StepPreservesValid(c, s, evs[0]);
      RunPreservesValid(c, Step(c, s, evs[0]), evs[1..]);
    }
  }

  // ---------------------------------------------------------------------------
  // Arrivals.
  // ---------------------------------------------------------------------------

  /** A method other than GET or OPTIONS is answered 405 before the path is looked at; nothing changes. */
  lemma RejectsOtherMethods(c: Config, s: State, verb: string, path: string, params: Params)
    requires !AllowedMethod(verb)
    ensures ArriveStep(c, s, verb, path, params) == (s, Immediate(MethodNotAllowed()))
  {
  }

  /** A GET or OPTIONS for a path no endpoint matches is answered 404; nothing changes. */
  lemma RejectsUnknownPaths(c: Config, s: State, verb: string, path: string, params: Params)
    requires AllowedMethod(verb)
    requires forall j :: 0 <= j < |Table| ==> !c.matches(Table[j].pattern, path)
    ensures ArriveStep(c, s, verb, path, params) == (s, Immediate(NotFound()))
  {
  }

  /** The method is not part of the key: GET and OPTIONS for one URL share one entry. */
  lemma MethodNotInKey(c: Config, s: State, path: string, params: Params)
    ensures ArriveStep(c, s, "GET", path, params) == ArriveStep(c, s, "OPTIONS", path, params)
  {
  }

  /** Routed requests use the first matching endpoint and the key with the credential set. */
  lemma RoutesToFirstMatch(c: Config, verb: string, path: string, params: Params)
    requires AllowedMethod(verb)
    requires exists j :: 0 <= j < |Table| && c.matches(Table[j].pattern, path)
    ensures match RouteRequest(c, verb, path, params)
      case Reject(_) => false
      case Forward(key, endpoint) =>
        && key.path == path
        && ValuesOf(key.params, AccessTokenParam) == [c.accessToken]
        && Without(key.params, AccessTokenParam) == Without(params, AccessTokenParam)
        && exists i :: 0 <= i < |Table| && endpoint == Table[i] && c.matches(Table[i].pattern, path)
             && forall j :: 0 <= j < i ==> !c.matches(Table[j].pattern, path)
  {
    var found := FindEndpoint(c.matches, Table, path);
    SetParamReplaces(params, AccessTokenParam, c.accessToken);
    assert found.Some?;
  }

  /** A hit attaches to the existing promise: no fetch, no change. */
  lemma ArriveHit(c: Config, s: State, verb: string, path: string, params: Params, key: Key, endpoint: Endpoint)
    requires RouteRequest(c, verb, path, params) == Forward(key, endpoint)
    requires key in s.requests
    ensures ArriveStep(c, s, verb, path, params) == (s, Await(s.requests[key]))
  {
  }

  /** A miss issues exactly one fetch and inserts its pending promise before anything settles. */
  lemma ArriveMiss(c: Config, s: State, verb: string, path: string, params: Params, key: Key, endpoint: Endpoint)
    requires Valid(s)
    requires RouteRequest(c, verb, path, params) == Forward(key, endpoint)
    requires key !in s.requests
    ensures var (t, r) := ArriveStep(c, s, verb, path, params);
      && r == Await(|s.log|)
      && t.log == s.log + [key]
      && t.requests == s.requests[key := |s.log|]
      && t.pending == s.pending[|s.log| := Fetch(key, endpoint)] && |s.log| !in s.pending
      && |s.log| !in t.resolved
      && t.resolved == s.resolved && t.timers == s.timers
  {
    assert |s.log| !in s.resolved && |s.log| !in s.pending;
  }

  // ---------------------------------------------------------------------------
  // Settlement and expiry.
  // ---------------------------------------------------------------------------

  /**
   * When fetch n settles, its promise resolves to the normalised response, and the
   * entry for its key is removed at once (not cacheable), kept with a timer
   * armed (cacheable), or kept for good with no timer (the predicate threw).
   * No other key's entry changes.
   */
  lemma SettleEffect(c: Config, s: State, n: nat, o: Outcome)
    requires Valid(s)
    requires n in s.pending
    ensures var t := SettleStep(c, s, n, o);
      var key := s.pending[n].key;
      var v := SettleVerdict(c, s.pending[n], Settled(o));
      && s.requests[key] == n
      && t.pending == s.pending - {n} && t.resolved == s.resolved[n := Settled(o)] && n !in s.resolved
      && t.log == s.log
      && t.requests - {key} == s.requests - {key}
      && (v == NotCacheable ==> key !in t.requests && t.timers == s.timers)
      && (v == Cacheable ==> t.requests == s.requests && t.timers == s.timers[n := key])
      && (v == Threw ==> t.requests == s.requests && t.timers == s.timers && n !in t.timers)
  {
    var f := s.pending[n];
    var response := Settled(o);
    var s1 := s.(pending := s.pending - {n}, resolved := s.resolved[n := response]);
    assert n !in s.timers;
    assert s.requests[f.key] == n;
    match SettleVerdict(c, f, response)
    case NotCacheable =>
      assert SettleStep(c, s, n, o) == s1.(requests := s1.requests - {f.key});
    case Cacheable =>
      assert SettleStep(c, s, n, o) == s1.(timers := s1.timers[n := f.key]);
    case Threw =>
      assert SettleStep(c, s, n, o) == s1;
  }

  /** An expiry removes exactly the entry whose settlement armed it, and only once. */
  lemma ExpireRemovesOwnEntry(s: State, n: nat)
    requires Valid(s)
    requires n in s.timers
    ensures var key := s.timers[n];
      && key in s.requests && s.requests[key] == n
      && ExpireStep(s, n).requests == s.requests - {key}
      && ExpireStep(ExpireStep(s, n), n) == ExpireStep(s, n)
  {
  }

  /** While a key's entry has a timer armed, no newer fetch for that key exists. */
  lemma NoNewerFetchWhileCached(s: State, n: nat, m: nat)
    requires Valid(s)
    requires n in s.timers
    requires n < m < |s.log|
    ensures s.log[m] != s.log[n]
  {
    assert s.log[n] in s.requests && s.requests[s.log[n]] == n;
  }

  /** Each key has at most one pending fetch. */
  lemma OnePendingFetchPerKey(s: State, n: nat, m: nat)
    requires Valid(s)
    requires n in s.pending && m in s.pending
    requires s.pending[n].key == s.pending[m].key
    ensures n == m
  {
  }

  /** An arrival either leaves the state alone or is the Map lookup for the routed key. */
  lemma ArrivalIsAdmit(c: Config, s: State, verb: string, path: string, params: Params)
    ensures var route := RouteRequest(c, verb, path, params);
      Step(c, s, Arrival(verb, path, params)) == if route.Forward? then Admit(s, route.key, route.endpoint).0 else s
  {
  }

  /** A miss appends one fetch, for a key without an entry; settled promises and timers are untouched. */
  lemma AdmitTransition(s: State, key: Key, endpoint: Endpoint)
    requires Valid(s)
    ensures var t := Admit(s, key, endpoint).0;
      && t.resolved == s.resolved && t.timers == s.timers
      && (key in s.requests ==> t == s)
      && (key !in s.requests ==>
            && t.log == s.log + [key] && |s.log| !in s.resolved && |s.log| !in s.timers
            && t.requests == s.requests[key := |s.log|])
  {
  }

  /** Resolving fetch n touches only its own promise, and at most its own key's entry. */
  lemma ResolveTransition(s: State, n: nat, response: Response, drop: bool, arm: bool)
    requires Valid(s)
    requires n in s.pending
    ensures var t := Resolve(s, n, response, drop, arm);
      var key := s.pending[n].key;
      && t.log == s.log
      && n !in s.resolved && t.resolved == s.resolved[n := response]
      && key in s.requests && s.requests[key] == n
      && t.requests - {key} == s.requests - {key}
      && (key in t.requests ==> t.requests[key] == n)
      && n !in s.timers
      && (forall m :: m in t.timers && m != n ==> m in s.timers && t.timers[m] == s.timers[m])
      && (forall m :: m in s.timers ==> m in t.timers)
  {
    assert n !in s.timers;
  }

  /** An expiry removes only the entry its timer owns, and only that timer. */
  lemma ExpireTransition(s: State, n: nat)
    requires Valid(s)
    ensures var t := ExpireStep(s, n);
      && t.log == s.log && t.resolved == s.resolved && t.pending == s.pending
      && (n in s.timers ==>
            && s.timers[n] in s.requests && s.requests[s.timers[n]] == n
            && t.requests == s.requests - {s.timers[n]} && t.timers == s.timers - {n})
      && (n !in s.timers ==> t == s)
  {
  }

  /** A step never changes a settled promise's value, and only ever appends to the fetch log. */
  lemma StepKeepsHistory(c: Config, s: State, e: Event)
    requires Valid(s)
    ensures var t := Step(c, s, e);
      && s.log <= t.log && |t.log| <= |s.log| + 1
      && forall n :: n in s.resolved ==> n in t.resolved && t.resolved[n] == s.resolved[n]
  {
    match e
    case Arrival(verb, path, params) =>
      ArrivalIsAdmit(c, s, verb, path, params);
      var route := RouteRequest(c, verb, path, params);
      if route.Forward? {
        AdmitTransition(s, route.key, route.endpoint);
      }
    case Settlement(n, o) =>
      if n in s.pending {
        var v := SettleVerdict(c, s.pending[n], Settled(o));
        SettleIsResolve(c, s, n, o);
        ResolveTransition(s, n, Settled(o), v == NotCacheable, v == Cacheable);
      }
    case Expiry(n) =>
  }

  /** Once a reply has delivered a value, no later event changes it. */
  lemma DeliveredIsFinal(c: Config, s: State, e: Event, r: Reply)
    requires Valid(s)
    requires Delivered(s, r).Some?
    ensures Delivered(Step(c, s, e), r) == Delivered(s, r)
  {
    StepKeepsHistory(c, s, e);
  }

  /** ... nor any later run: every waiter on a promise receives its one settled value. */
  lemma {:induction false} DeliveredIsFinalRun(c: Config, s: State, evs: seq<Event>, r: Reply)
    requires Valid(s)
    requires Delivered(s, r).Some?
    ensures Delivered(Run(c, s, evs), r) == Delivered(s, r)
    decreases |evs|
  {
    if evs != [] {
      DeliveredIsFinal(c, s, evs[0], r);
      StepPreservesValid(c, s, evs[0]);
      DeliveredIsFinalRun(c, Step(c, s, evs[0]), evs[1..], r);
    }
  }

  // ---------------------------------------------------------------------------
  // Coalescing over runs.
  // ---------------------------------------------------------------------------

  /** `key` has an entry in every state of the run, the first and the last included. */
  ghost predicate KeptThroughout(c: Config, s: State, evs: seq<Event>, key: Key)
    decreases |evs|
  {
    key in s.requests && (evs != [] ==> KeptThroughout(c, Step(c, s, evs[0]), evs[1..], key))
  }

  lemma StepKeepsEntry(c: Config, s: State, e: Event, key: Key)
    requires Valid(s)
    requires key in s.requests && key in Step(c, s, e).requests
    ensures var t := Step(c, s, e);
      && t.requests[key] == s.requests[key]
      && s.log <= t.log
      && forall m :: |s.log| <= m < |t.log| ==> t.log[m] != key
  {
    match e
    case Arrival(verb, path, params) =>
      ArrivalIsAdmit(c, s, verb, path, params);
      var route := RouteRequest(c, verb, path, params);
      if route.Forward? {
        AdmitTransition(s, route.key, route.endpoint);
      }
    case Settlement(n, o) =>
      if n in s.pending {
        var v := SettleVerdict(c, s.pending[n], Settled(o));
        SettleIsResolve(c, s, n, o);
        ResolveTransition(s, n, Settled(o), v == NotCacheable, v == Cacheable);
      }
    case Expiry(n) =>
  }

  /**
   * Coalescing: as long as a key keeps its entry, every arrival for it gets the
   * same promise, and no fetch for that key is issued, whatever else happens.
   */
  lemma {:induction false} CoalescedWhileKept(c: Config, s: State, evs: seq<Event>, key: Key)
    requires Valid(s)
    requires KeptThroughout(c, s, evs, key)
    ensures var t := Run(c, s, evs);
      && key in t.requests && t.requests[key] == s.requests[key]
      && s.log <= t.log
      && forall m :: |s.log| <= m < |t.log| ==> t.log[m] != key
    decreases |evs|
  {
    if evs != [] {
      var s1 := Step(c, s, evs[0]);
      StepKeepsEntry(c, s, evs[0], key);
      StepPreservesValid(c, s, evs[0]);
      CoalescedWhileKept(c, s1, evs[1..], key);
      var t := Run(c, s, evs);
      forall m | |s.log| <= m < |t.log|
        ensures t.log[m] != key
      {
        if m < |s1.log| {
          assert t.log[m] == s1.log[m];
        }
      }
    }
  }

  /** An entry whose predicate threw has a settled promise and no timer ... */
  ghost predicate Stuck(s: State, key: Key)
  {
    key in s.requests && s.requests[key] in s.resolved && s.requests[key] !in s.timers
  }

  lemma SettleThrewSticks(c: Config, s: State, n: nat, o: Outcome)
    requires Valid(s)
    requires n in s.pending
    requires SettleVerdict(c, s.pending[n], Settled(o)) == Threw
    ensures Stuck(SettleStep(c, s, n, o), s.pending[n].key)
    ensures SettleStep(c, s, n, o).requests[s.pending[n].key] == n
  {
    assert n !in s.timers;
  }

  lemma StepKeepsStuck(c: Config, s: State, e: Event, key: Key)
    requires Valid(s)
    requires Stuck(s, key)
    ensures Stuck(Step(c, s, e), key)
    ensures Step(c, s, e).requests[key] == s.requests[key]
  {
    match e
    case Arrival(verb, path, params) =>
      ArrivalIsAdmit(c, s, verb, path, params);
      var route := RouteRequest(c, verb, path, params);
      if route.Forward? {
        AdmitTransition(s, route.key, route.endpoint);
      }
    case Settlement(m, o) =>
      if m in s.pending {
        var v := SettleVerdict(c, s.pending[m], Settled(o));
        SettleIsResolve(c, s, m, o);
        ResolveTransition(s, m, Settled(o), v == NotCacheable, v == Cacheable);
      }
    case Expiry(m) =>
      ExpireTransition(s, m);
  }

  /** ... and stays in the Map for ever: no later event removes it. */
  lemma {:induction false} StuckIsPermanent(c: Config, s: State, evs: seq<Event>, key: Key)
    requires Valid(s)
    requires Stuck(s, key)
    ensures Stuck(Run(c, s, evs), key)
    ensures Run(c, s, evs).requests[key] == s.requests[key]
    decreases |evs|
  {
    if evs != [] {
      StepKeepsStuck(c, s, evs[0], key);
      StepPreservesValid(c, s, evs[0]);
      StuckIsPermanent(c, Step(c, s, evs[0]), evs[1..], key);
    }
  }

  /** The Map lookup keeps every armed timer and the entry it owns. */
  lemma AdmitKeepsTimer(s: State, key: Key, endpoint: Endpoint, n: nat)
    requires Valid(s)
    requires n in s.timers
    ensures var t := Admit(s, key, endpoint).0;
      && n in t.timers && t.timers[n] == s.timers[n]
      && s.timers[n] in t.requests && t.requests[s.timers[n]] == n
  {
    AdmitTransition(s, key, endpoint);
  }

  /** Resolving a pending fetch keeps every armed timer and the entry it owns. */
  lemma ResolveKeepsTimer(s: State, m: nat, response: Response, drop: bool, arm: bool, n: nat)
    requires Valid(s)
    requires m in s.pending
    requires n in s.timers
    ensures var t := Resolve(s, m, response, drop, arm);
      && n in t.timers && t.timers[n] == s.timers[n]
      && s.timers[n] in t.requests && t.requests[s.timers[n]] == n
  {
    ResolveTransition(s, m, response, drop, arm);
    assert s.requests[s.timers[n]] == n;
  }

  /** Another timer's firing keeps this timer and the entry it owns. */
  lemma ExpireKeepsTimer(s: State, m: nat, n: nat)
    requires Valid(s)
    requires n in s.timers && m != n
    ensures var t := ExpireStep(s, m);
      && n in t.timers && t.timers[n] == s.timers[n]
      && s.timers[n] in t.requests && t.requests[s.timers[n]] == n
  {
    if m in s.timers {
      assert s.requests[s.timers[m]] == m;
    }
  }

  /** Two extensions of a log, neither adding `key`, add no `key` together. */
  lemma NoKeyInExtension(a: seq<Key>, b: seq<Key>, d: seq<Key>, key: Key)
    requires a <= b <= d
    requires forall m :: |a| <= m < |b| ==> b[m] != key
    requires forall m :: |b| <= m < |d| ==> d[m] != key
    ensures forall m :: |a| <= m < |d| ==> d[m] != key
  {
    forall m | |a| <= m < |d|
      ensures d[m] != key
    {
      if m < |b| {
        assert d[m] == b[m];
      }
    }
  }

  /** An armed timer, and the entry it owns, survive every event other than its own expiry. */
  lemma StepKeepsTimer(c: Config, s: State, e: Event, n: nat)
    requires Valid(s)
    requires n in s.timers
    requires e != Expiry(n)
    ensures var t := Step(c, s, e);
      var key := s.timers[n];
      && n in t.timers && t.timers[n] == key
      && key in t.requests && t.requests[key] == n
  {
    match e
    case Arrival(verb, path, params) =>
      ArrivalIsAdmit(c, s, verb, path, params);
      var route := RouteRequest(c, verb, path, params);
      if route.Forward? {
        AdmitKeepsTimer(s, route.key, route.endpoint, n);
      }
    case Settlement(m, o) =>
      if m in s.pending {
        var v := SettleVerdict(c, s.pending[m], Settled(o));
        SettleIsResolve(c, s, m, o);
        ResolveKeepsTimer(s, m, Settled(o), v == NotCacheable, v == Cacheable, n);
      }
    case Expiry(m) =>
      ExpireKeepsTimer(s, m, n);
  }

  /**
   * A retained entry stays in the Map, holding the same settled promise and with
   * its timer armed, through any run that does not fire that timer; no fetch for
   * its key is issued meanwhile, and the timer's firing then removes exactly it.
   */
  lemma {:induction false} CachedUntilExpiry(c: Config, s: State, evs: seq<Event>, n: nat)
    requires Valid(s)
    requires n in s.timers
    requires forall i :: 0 <= i < |evs| ==> evs[i] != Expiry(n)
    ensures var t := Run(c, s, evs);
      var key := s.timers[n];
      && n in t.timers && t.timers[n] == key
      && key in t.requests && t.requests[key] == n
      && s.log <= t.log
      && (forall m :: |s.log| <= m < |t.log| ==> t.log[m] != key)
      && ExpireStep(t, n).requests == t.requests - {key}
    decreases |evs|
  {
    var key := s.timers[n];
    if evs == [] {
      ExpireRemovesOwnEntry(s, n);
    } else {
      var s1 := Step(c, s, evs[0]);
      assert evs[0] != Expiry(n);
      StepKeepsTimer(c, s, evs[0], n);
      StepKeepsEntry(c, s, evs[0], key);
      StepPreservesValid(c, s, evs[0]);
      assert forall i :: 0 <= i < |evs[1..]| ==> evs[1..][i] == evs[i + 1];
      CachedUntilExpiry(c, s1, evs[1..], n);
      var t := Run(c, s, evs);
      assert t == Run(c, s1, evs[1..]);
      NoKeyInExtension(s.log, s1.log, t.log, key);
    }
  }

  // ---------------------------------------------------------------------------
  // Scenarios.
  // ---------------------------------------------------------------------------

  /** Two requests for one URL before the first settles: one fetch, one shared promise. */
  lemma BurstSharesOneFetch(c: Config, s: State, m1: string, m2: string, path: string, params: Params)
    requires Valid(s)
    requires AllowedMethod(m1) && AllowedMethod(m2)
    requires FindEndpoint(c.matches, Table, path).Some?
    requires KeyOf(c, path, params) !in s.requests
    ensures var (s1, r1) := ArriveStep(c, s, m1, path, params);
      var (s2, r2) := ArriveStep(c, s1, m2, path, params);
      && r1 == r2 == Await(|s.log|)
      && s2.log == s.log + [KeyOf(c, path, params)]
      && Delivered(s2, r1) == None
  {
    assert |s.log| !in s.resolved;
  }

  /**
   * A response judged not cacheable leaves no entry, so the next request for the
   * same URL issues a new fetch with a new promise.
   */
  lemma DiscardedResponseRefetches(c: Config, s: State, n: nat, o: Outcome, verb: string, path: string, params: Params)
    requires Valid(s)
    requires n in s.pending
    requires SettleVerdict(c, s.pending[n], Settled(o)) == NotCacheable
    requires RouteRequest(c, verb, path, params).Forward?
    requires RouteRequest(c, verb, path, params).key == s.pending[n].key
    ensures var t := SettleStep(c, s, n, o);
      var (u, r) := ArriveStep(c, t, verb, path, params);
      && Delivered(t, Await(n)) == Some(Settled(o))
      && r == Await(|s.log|) && |s.log| != n
      && u.log == s.log + [s.pending[n].key]
  {
    SettleEffect(c, s, n, o);
  }

  /**
   * A response judged cacheable is served to later requests without a fetch until
   * its timer fires; after that the next request issues exactly one new fetch.
   */
  lemma RetainedUntilExpiry(c: Config, s: State, n: nat, o: Outcome, verb: string, path: string, params: Params)
    requires Valid(s)
    requires n in s.pending
    requires SettleVerdict(c, s.pending[n], Settled(o)) == Cacheable
    requires RouteRequest(c, verb, path, params).Forward?
    requires RouteRequest(c, verb, path, params).key == s.pending[n].key
    ensures var t := SettleStep(c, s, n, o);
      var (t1, r1) := ArriveStep(c, t, verb, path, params);
      var u := ExpireStep(t1, n);
      var (u1, r2) := ArriveStep(c, u, verb, path, params);
      && t1 == t && r1 == Await(n) && Delivered(t, r1) == Some(Settled(o))
      && s.pending[n].key !in u.requests
      && ExpireStep(u, n) == u
      && r2 == Await(|s.log|) && u1.log == s.log + [s.pending[n].key]
  {
    SettleEffect(c, s, n, o);
  }

  /** Whether endpoint i retains the transport-failure response for a request with query map q. */
  predicate RetainsProxyFailure(i: nat, q: map<string, string>)
  {
    || i < SyncIndex
    || (i == SyncIndex && "since" in q)
    || (i == EventsIndex && "from" in q)
  }

  lemma ProxyFailureFetchVerdict(c: Config, path: string, params: Params, i: nat)
    requires c.parse(ProxyFailureBody()) == Json(ErrorObject("ERR_UNKNOWN", "Error proxying request"))
    requires i < |Table|
    ensures SettleVerdict(c, Fetch(KeyOf(c, path, params), Table[i]), Settled(TransportFailure)) == Cacheable
        <==> RetainsProxyFailure(i, FromEntries(params))
  {
    var key := KeyOf(c, path, params);
    FromEntriesSetParam(params, AccessTokenParam, c.accessToken);
    var q := FromEntries(key.params);
    assert q == FromEntries(params)[AccessTokenParam := c.accessToken];
    assert "since" in q <==> "since" in FromEntries(params);
    assert "from" in q <==> "from" in FromEntries(params);
    ProxyFailureVerdict(i, q);
    TableShape();
  }

  /**
   * A transport failure settles to the 500 error body, which JSON.parse accepts.
   * The entry is retained on endpoints without a predicate, and on /sync and
   * /events exactly when the client's request carried `since` or `from`.
   */
  lemma TransportFailureRetention(c: Config, s: State, verb: string, path: string, params: Params, i: nat)
    requires Valid(s)
    requires c.parse(ProxyFailureBody()) == Json(ErrorObject("ERR_UNKNOWN", "Error proxying request"))
    requires AllowedMethod(verb)
    requires FindEndpoint(c.matches, Table, path) == Some(i)
    requires KeyOf(c, path, params) !in s.requests
    ensures var s1 := ArriveStep(c, s, verb, path, params).0;
      var s2 := SettleStep(c, s1, |s.log|, TransportFailure);
      KeyOf(c, path, params) in s2.requests <==> RetainsProxyFailure(i, FromEntries(params))
  {
    var key := KeyOf(c, path, params);
    var s1 := ArriveStep(c, s, verb, path, params).0;
    var n := |s.log|;
    RouteForward(c, verb, path, params, i);
    assert s1 == Admit(s, key, Table[i]).0;
    assert s1.pending[n] == Fetch(key, Table[i]);
    ProxyFailureFetchVerdict(c, path, params, i);
    var v := SettleVerdict(c, s1.pending[n], Settled(TransportFailure));
    assert v != Threw;
    SettleIsResolve(c, s1, n, TransportFailure);
    var s2 := Resolve(s1, n, Settled(TransportFailure), v == NotCacheable, v == Cacheable);
    assert s1.pending[n].key == key && key in s1.requests;
    assert key in s2.requests <==> v == Cacheable;
  }
}
