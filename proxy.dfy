/**
 * The request handler of `main` as an object: the `requests` Map it mutates in
 * place, the fetches in flight with their continuations' captured context, the
 * settled promises' values and the armed timers. One method per event; each is
 * proved to perform exactly the corresponding step of the Cache state machine
 * and to keep its invariant.
 */
module Proxy {
  import opened Wrappers
  import opened Json
  import opened Query
  import opened Upstream
  import opened Endpoints
  import opened Cache

  class RequestCache {
    const config: Config
    var requests: map<Key, nat>
    var pending: map<nat, Fetch>
    var resolved: map<nat, Response>
    var timers: map<nat, Key>
    var fetches: nat
    ghost var log: seq<Key>

    ghost function Snapshot(): State
      reads this
    {
      State(requests, pending, resolved, timers, log)
    }

    ghost predicate Valid()
      reads this
    {
      fetches == |log| && Cache.Valid(Snapshot())
    }

    /** `const requests = new Map()`. */
    constructor (config: Config)
      ensures Valid()
      ensures this.config == config && Snapshot() == Init() && fetches == 0
    {
      this.config := config;
      requests, pending, resolved, timers := map[], map[], map[], map[];
      fetches := 0;
      log := [];
      InitValid();
    }

    /** The HTTP handler for one request. */
    method Arrive(verb: string, path: string, params: Params) returns (reply: Reply)
      requires Valid()
      modifies this
      ensures Valid()
      ensures (Snapshot(), reply) == ArriveStep(config, old(Snapshot()), verb, path, params)
    {
      ghost var s0 := Snapshot();
      ArrivePreservesValid(config, s0, verb, path, params);
      if !AllowedMethod(verb) {
        reply := Immediate(MethodNotAllowed());
        RejectsOtherMethods(config, s0, verb, path, params);
        return;
      }
      var found := FindEndpoint(config.matches, Table, path);
      if found.None? {
        reply := Immediate(NotFound());
        RejectsUnknownPaths(config, s0, verb, path, params);
        return;
      }
      var endpoint := Table[found.value];
      var key := KeyOf(config, path, params);
      ArriveForwarded(config, s0, verb, path, params, found.value);
      reply := Admit(key, endpoint);
    }

    /** The Map lookup of the handler: attach to the stored promise, or issue a fetch and store its promise. */
    method Admit(key: Key, endpoint: Endpoint) returns (reply: Reply)
      requires Valid()
      modifies this
      ensures Valid()
      ensures (Snapshot(), reply) == Cache.Admit(old(Snapshot()), key, endpoint)
    {
      AdmitPreservesValid(Snapshot(), key, endpoint);
      if key in requests {
        reply := Await(requests[key]);
        return;
      }
      var n := fetches;
      fetches := fetches + 1;
      log := log + [key];
      requests := requests[key := n];
      pending := pending[n := Fetch(key, endpoint)];
      reply := Await(n);
    }

    /** Fetch n settles with outcome o: resolve its promise, then run the caching continuation. */
    method Settle(n: nat, o: Outcome)
      requires Valid()
      modifies this
      ensures Snapshot() == SettleStep(config, old(Snapshot()), n, o)
      ensures Valid()
      ensures fetches == old(fetches)
    {
      ghost var s0 := Snapshot();
      if n !in pending {
        return;
      }
      var f := pending[n];
      var response := MakeRequest(o);
      var verdict := SettleVerdict(config, f, response);
      pending := pending - {n};
      resolved := resolved[n := response];
      if verdict == NotCacheable {
        requests := requests - {f.key};
      } else if verdict == Cacheable {
        timers := timers[n := f.key];
      }
      ghost var t := Resolve(s0, n, response, verdict == NotCacheable, verdict == Cacheable);
      assert Snapshot() == t;
      SettleIsResolve(config, s0, n, o);
      ResolvePreservesValid(s0, n, response, verdict == NotCacheable, verdict == Cacheable);
      assert Cache.Valid(t);
    }

    /** The TTL timer armed by fetch n fires. */
    method Expire(n: nat)
      requires Valid()
      modifies this
      ensures Valid()
      ensures Snapshot() == ExpireStep(old(Snapshot()), n)
      ensures fetches == old(fetches)
    {
      ExpirePreservesValid(Snapshot(), n);
      if n !in timers {
        return;
      }
      var key := timers[n];
      requests := requests - {key};
      timers := timers - {n};
    }

    /** What a reply has delivered in the current state; changes nothing. */
    method Delivery(reply: Reply) returns (r: Option<Response>)
      ensures r == Delivered(Snapshot(), reply)
      ensures reply.Await? && reply.promise in pending && Valid() ==> r.None?
    {
      match reply {
        case Immediate(response) => r := Some(response);
        case Await(n) => r := if n in resolved then Some(resolved[n]) else None;
      }
    }
  }
}
