/** The `gas_estimator` tool: the Etherscan gas oracle for a chain, rate
    limited to 10 calls per minute per chain and cached for 60 seconds. */
module GasEstimator {
  import opened Wrappers
  import opened RateLimiting
  import opened TtlCache
  import opened ToolKit

  const MaxCalls: int := 10
  const IntervalMs: int := 60_000
  const FailurePrefix: string := "Gas estimator failed: "
  const InvalidResponse: string := "Invalid gas oracle response"

  /** `{chain?}`. */
  datatype Args = Args(chain: Option<string>)

  /** The Etherscan `gastracker/gasoracle` query: the chain id only. */
  datatype Request = Request(chainId: Option<int>)

  /** The oracle record's fields; `None` is an absent field. */
  datatype Oracle = Oracle(safeGasPrice: Option<string>, proposeGasPrice: Option<string>,
                           fastGasPrice: Option<string>, lastBlock: Option<string>)

  /** What `res.data?.result` holds: nothing, a text (the provider's error
      message, for one) or the oracle record. */
  datatype Field = Absent | Text(text: string) | Record(oracle: Oracle)

  datatype Body = Body(result: Field)

  /** `!res.data?.result` fails exactly for an absent result or an empty text. */
  predicate Truthy(f: Field) {
    match f
    case Absent => false
    case Text(t) => t != ""
    case Record(_) => true
  }

  function ChainOf(args: Args): string {
    args.chain.GetOr(DefaultChain)
  }

  /** `gas-<chain>`, in the gas namespace of the cache. */
  function Key(chain: string): (k: string)
    ensures k == "gas-" + chain
    ensures NamespaceOf(k) == GasKeys
  {
    var k := "gas-" + chain;
    assert k[..4] == "gas-" && k[0] == 'g';
    k
  }

  /** Each chain has a key of its own: two calls share a quota and a cache
      entry exactly when they name the same chain. */
  lemma KeySeparates(chain1: string, chain2: string)
    ensures Key(chain1) == Key(chain2) <==> chain1 == chain2
  {
    if Key(chain1) == Key(chain2) {
      assert chain1 == Key(chain1)[4..];
      assert chain2 == Key(chain2)[4..];
    }
  }

  /** The result built from the oracle answer: the chain and the four oracle
      fields copied verbatim; a textual result has no such fields, so all four
      come out undefined. */
  function Project(chain: string, f: Field): (g: GasResult)
    ensures g.chain == chain
    ensures f.Record? ==> g == GasResult(chain, f.oracle.safeGasPrice, f.oracle.proposeGasPrice,
                                         f.oracle.fastGasPrice, f.oracle.lastBlock)
    ensures !f.Record? ==> g.safeGasPrice.None? && g.proposeGasPrice.None? && g.fastGasPrice.None? && g.lastBlock.None?
  {
    match f
    case Record(o) => GasResult(chain, o.safeGasPrice, o.proposeGasPrice, o.fastGasPrice, o.lastBlock)
    case _ => GasResult(chain, None, None, None, None)
  }

  /** `gasEstimatorTool.execute(args)` on the shared state `s` at `now`. Every
      call is charged to the limiter. A refused call throws the bare
      "Rate limit exceeded" without touching the cache or calling upstream. A
      live cached result (an object, so always truthy) is returned unchanged
      without an upstream call. Otherwise the oracle is queried for the
      chain's id; a missing result throws "Invalid gas oracle response",
      every failure is rethrown with the prefix "Gas estimator failed: " and
      nothing is cached; a present result is projected, cached for 60 seconds
      from its arrival and returned. */
  function Evaluate(s: Store, args: Args, now: int, fetch: Fetch<Body>)
    : (o: Outcome<GasResult, Request>)
    requires WellTyped(s.entries)
    ensures WellTyped(o.store.entries)
    ensures var key := Key(ChainOf(args));
      var (limits, admitted) := Admit(s.limits, key, MaxCalls, IntervalMs, now);
      var (entries, cached) := Lookup(s.entries, key, now);
      && o.store.limits == limits
      && (!admitted ==> o.result == Failure(RateLimitExceeded) && o.request.None? && o.store.entries == s.entries)
      && (admitted && cached.Some? ==>
            o.result == Success(cached.value.gas) && o.request.None? && o.store.entries == s.entries)
      && (admitted && cached.None? ==>
            && o.request == Some(Request(ChainId(ChainOf(args))))
            && (o.result.Failure? ==> o.store.entries == entries && FailurePrefix <= o.result.error)
            && (o.result.Success? <==> fetch.Received? && Truthy(fetch.body.result))
            && (o.result.Success? ==>
                  && o.result.value == Project(ChainOf(args), fetch.body.result)
                  && o.store.entries == Insert(entries, key, GasReport(o.result.value), CacheTtlSeconds, fetch.at))
            && (fetch.Received? && !Truthy(fetch.body.result) ==>
                  o.result == Failure(FailurePrefix + InvalidResponse))
            && (fetch.Raised? ==> o.result == Failure(FailurePrefix + DetailOf(fetch.error))))
  {
    var chain := ChainOf(args);
    var key := Key(chain);
    var (limits, admitted) := Admit(s.limits, key, MaxCalls, IntervalMs, now);
    if !admitted then Outcome(Store(limits, s.entries), None, Failure(RateLimitExceeded))
    else
      var (entries, cached) := Lookup(s.entries, key, now);
      LookupKeepsWellTyped(s.entries, key, now);
      if cached.Some? then Outcome(Store(limits, entries), None, Success(cached.value.gas))
      else
        var request := Some(Request(ChainId(chain)));
        match fetch
        case Raised(e) => Outcome(Store(limits, entries), request, Failure(FailurePrefix + DetailOf(e)))
        case Received(body, at) =>
          if !Truthy(body.result) then
            Outcome(Store(limits, entries), request, Failure(FailurePrefix + DetailOf(Raise(InvalidResponse))))
          else
            var result := Project(chain, body.result);
            Outcome(Store(limits, Insert(entries, key, GasReport(result), CacheTtlSeconds, at)),
                    request, Success(result))
  }

  /** `gasEstimatorTool.execute(args)` on the process-wide limiter and cache. */
  method Execute(args: Args, limiter: RateLimiter, cache: Cache<Value>, now: int, fetch: Fetch<Body>)
    returns (request: Option<Request>, r: Result<GasResult>)
    requires WellTyped(cache.entries)
    modifies limiter, cache
    ensures WellTyped(cache.entries)
    ensures Outcome(Store(limiter.limits, cache.entries), request, r)
            == Evaluate(Store(old(limiter.limits), old(cache.entries)), args, now, fetch)
  {
    var chain := ChainOf(args);
    var key := Key(chain);
    var admitted := limiter.RateLimit(key, MaxCalls, IntervalMs, now);
    if !admitted {
      return None, Failure(RateLimitExceeded);
    }
    LookupKeepsWellTyped(cache.entries, key, now);
    var cached := cache.Get(key, now);
    if cached.Some? {
      return None, Success(cached.value.gas);
    }
    request := Some(Request(ChainId(chain)));
    match fetch {
      case Raised(e) =>
        r := Failure(FailurePrefix + DetailOf(e));
      case Received(body, at) =>
        if !Truthy(body.result) {
          r := Failure(FailurePrefix + DetailOf(Raise(InvalidResponse)));
        } else {
          var result := Project(chain, body.result);
          cache.Set(key, GasReport(result), CacheTtlSeconds, at);
          r := Success(result);
        }
    }
  }

  /** Two calls for the same chain within the cache lifetime of a fetched
      result: the second makes no upstream call and returns the identical
      result unless the limiter refuses it. */
  lemma SecondCallServedFromCache(s: Store, args: Args, now: int, fetch: Fetch<Body>,
                                  later: int, fetch2: Fetch<Body>)
    requires WellTyped(s.entries)
    requires var o := Evaluate(s, args, now, fetch); o.request.Some? && o.result.Success?
    requires later <= fetch.at + CacheTtlSeconds * 1000
    ensures var o := Evaluate(s, args, now, fetch);
      var o2 := Evaluate(o.store, args, later, fetch2);
      o2.request.None? && (o2.result == o.result || o2.result == Failure(RateLimitExceeded))
  {
    var o := Evaluate(s, args, now, fetch);
    var key := Key(ChainOf(args));
    assert key in o.store.entries && o.store.entries[key] == Entry(GasReport(o.result.value), fetch.at + CacheTtlSeconds * 1000);
  }

  /** A provider that answers with a non-empty text in `result` (its error
      message) passes the presence check: the call succeeds with every price
      undefined, and that result is cached. */
  lemma TextResultIsCached(s: Store, args: Args, now: int, text: string, at: int)
    requires WellTyped(s.entries)
    requires text != ""
    requires var key := Key(ChainOf(args));
      Admit(s.limits, key, MaxCalls, IntervalMs, now).1 && key !in s.entries
    ensures var o := Evaluate(s, args, now, Received(Body(Text(text)), at));
      && o.result == Success(GasResult(ChainOf(args), None, None, None, None))
      && Key(ChainOf(args)) in o.store.entries
  {
  }
}
