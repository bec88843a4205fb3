/**
 * The endpoint table, first-match routing over it, and the per-endpoint
 * cache-validity decision `isCached`.
 */
module Endpoints {
  import opened Wrappers
  import opened Json
  import opened Errors

  /**
   * An endpoint's validity predicate: none, or the long-poll check "the request's
   * cursor parameter is not strictly equal to the response's cursor field".
   */
  datatype Policy = Always | CursorAdvanced(param: string, field: string)

  datatype Endpoint = Endpoint(pattern: string, policy: Policy)

  /** The path matcher (path-to-regexp's match for a pattern, applied to a pathname). */
  type Matcher = (string, string) -> bool

  const Table: seq<Endpoint> := [
    Endpoint("/_matrix/client/versions", Always),
    Endpoint("/_matrix/client/r0/rooms/:room/initialSync", Always),
    Endpoint("/_matrix/client/r0/rooms/:room/messages", Always),
    Endpoint("/_matrix/client/r0/rooms/:room/state/:stateKey", Always),
    Endpoint("/_matrix/client/r0/sync", CursorAdvanced("since", "next_batch")),
    Endpoint("/_matrix/client/r0/events", CursorAdvanced("from", "end"))
  ]

  const SyncIndex := 4
  const EventsIndex := 5

  /** Array.prototype.find over the table: the index of the first endpoint whose pattern matches. */
  function FindEndpoint(matches: Matcher, table: seq<Endpoint>, path: string): (r: Option<nat>)
    ensures r.Some? ==> r.value < |table| && matches(table[r.value].pattern, path)
    ensures r.Some? ==> forall j :: 0 <= j < r.value ==> !matches(table[j].pattern, path)
    ensures r.None? <==> forall j :: 0 <= j < |table| ==> !matches(table[j].pattern, path)
  {
    if table == [] then None
    else if matches(table[0].pattern, path) then Some(0)
    else match FindEndpoint(matches, table[1..], path)
      case None => None
      case Some(i) => Some(i + 1)
  }

  /**
   * JavaScript's `a !== b` for a query value (a string or undefined) and a JSON
   * field (any JSON value or undefined): different types are never equal, and
   * undefined equals only undefined.
   */
  predicate StrictlyDiffer(a: Option<string>, b: Option<JsonValue>)
  {
    match (a, b)
    case (None, None) => false
    case (Some(s), Some(JString(t))) => s != t
    case _ => true
  }

  function Lookup(query: map<string, string>, name: string): Option<string>
  {
    if name in query then Some(query[name]) else None
  }

  /**
   * The outcome of `isCached`. Destructuring a JSON `null` body in a predicate
   * throws a TypeError inside the settle continuation: `Threw`.
   */
  datatype Verdict = Cacheable | NotCacheable | Threw

  /** CachedEndpoint.isCached(searchParams, body) for a body already run through JSON.parse. */
  function IsCached(e: Endpoint, query: map<string, string>, body: Parsed): (r: Verdict)
    ensures r == Cacheable ==> body.Json?
    ensures r == Threw ==> e.policy.CursorAdvanced? && body == Json(JNull)
  {
    match body
    case ParseFail => NotCacheable
    case Json(v) =>
      match e.policy
      case Always => Cacheable
      case CursorAdvanced(param, field) =>
        if v == JNull then Threw
        else if StrictlyDiffer(Lookup(query, param), Property(v, field)) then Cacheable
        else NotCacheable
  }

  // ---------------------------------------------------------------------------
  // The table's policies.
  // ---------------------------------------------------------------------------

  lemma TableShape()
    ensures |Table| == 6
    ensures forall i :: 0 <= i < 4 ==> Table[i].policy == Always
    ensures Table[SyncIndex].policy == CursorAdvanced("since", "next_batch")
    ensures Table[EventsIndex].policy == CursorAdvanced("from", "end")
  {
  }

  /** A body that is not JSON is never retained, on any endpoint. */
  lemma MalformedNeverCached(e: Endpoint, query: map<string, string>)
    ensures IsCached(e, query, ParseFail) == NotCacheable
  {
  }

  /** Endpoints without a predicate retain every JSON body. */
  lemma NoPredicateCachesJson(e: Endpoint, query: map<string, string>, body: Parsed)
    requires e.policy.Always?
    ensures IsCached(e, query, body) == Cacheable <==> body.Json?
  {
  }

  /**
   * /sync retains a non-null JSON response iff `since` !== `next_batch`: with both
   * present and strings, iff they differ; with both absent, never.
   */
  lemma SyncCachedIff(query: map<string, string>, v: JsonValue)
    requires v != JNull
    ensures IsCached(Table[SyncIndex], query, Json(v)) == Cacheable
        <==> StrictlyDiffer(Lookup(query, "since"), Property(v, "next_batch"))
    ensures IsCached(Table[SyncIndex], query, Json(v)) != Threw
  {
  }

  /** /events retains a non-null JSON response iff `from` !== `end`. */
  lemma EventsCachedIff(query: map<string, string>, v: JsonValue)
    requires v != JNull
    ensures IsCached(Table[EventsIndex], query, Json(v)) == Cacheable
        <==> StrictlyDiffer(Lookup(query, "from"), Property(v, "end"))
    ensures IsCached(Table[EventsIndex], query, Json(v)) != Threw
  {
  }

  /** A long poll that timed out returns the cursor it was given: not retained. */
  lemma SyncSameCursorNotCached(since: string, members: seq<(string, JsonValue)>)
    requires LastMember(members, "next_batch") == Some(JString(since))
    ensures IsCached(Table[SyncIndex], map["since" := since], Json(JObject(members))) == NotCacheable
  {
  }

  /** A long poll that advanced the cursor is retained. */
  lemma SyncNewCursorCached(since: string, next: string, members: seq<(string, JsonValue)>)
    requires since != next
    requires LastMember(members, "next_batch") == Some(JString(next))
    ensures IsCached(Table[SyncIndex], map["since" := since], Json(JObject(members))) == Cacheable
  {
  }

  /** A cursor-checked endpoint given JSON null throws instead of deciding. */
  lemma NullBodyThrows(i: nat, query: map<string, string>)
    requires i == SyncIndex || i == EventsIndex
    ensures IsCached(Table[i], query, Json(JNull)) == Threw
  {
  }

  /**
   * The transport-failure body parses to {errcode, error}, which has neither cursor
   * field: it is retained on endpoints without a predicate, and on /sync and
   * /events exactly when the request carried `since` or `from`.
   */
  lemma ProxyFailureVerdict(i: nat, query: map<string, string>)
    requires i < |Table|
    ensures i < SyncIndex ==> IsCached(Table[i], query, Json(ErrorObject("ERR_UNKNOWN", "Error proxying request"))) == Cacheable
    ensures i == SyncIndex ==> (IsCached(Table[i], query, Json(ErrorObject("ERR_UNKNOWN", "Error proxying request"))) == Cacheable <==> "since" in query)
    ensures i == EventsIndex ==> (IsCached(Table[i], query, Json(ErrorObject("ERR_UNKNOWN", "Error proxying request"))) == Cacheable <==> "from" in query)
  {
    var members := ErrorObject("ERR_UNKNOWN", "Error proxying request").members;
    assert |"next_batch"| != |"errcode"| && |"next_batch"| != |"error"|;
    assert |"end"| != |"errcode"| && |"end"| != |"error"|;
    assert LastMember(members, "next_batch") == None;
    assert LastMember(members, "end") == None;
  }
}
