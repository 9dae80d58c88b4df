/** The `wallet_balance` tool: the native balance of an address, rate limited
    to 5 calls per minute per key and cached for 60 seconds. */
module WalletBalance {
  import opened Wrappers
  import opened Text
  import opened RateLimiting
  import opened TtlCache
  import opened ToolKit

  const MaxCalls: int := 5
  const IntervalMs: int := 60_000
  const FailurePrefix: string := "Wallet balance fetch failed: "

  /** `{address, chain?}`. */
  datatype Args = Args(address: string, chain: Option<string>)

  /** The Etherscan `account/balance` query (tag `latest`): chain id and
      address. */
  datatype Request = Request(chainId: Option<int>, address: string)

  /** The provider's `{status, result, message}`; an absent field is empty. */
  datatype Body = Body(status: string, result: string, message: string)

  /** `chain = "ethereum"` when the arguments name no chain. */
  function ChainOf(args: Args): string {
    args.chain.GetOr(DefaultChain)
  }

  /** `balance-<chain>-<address>`, in the balance namespace of the cache. */
  function Key(chain: string, address: string): (k: string)
    ensures k == "balance-" + chain + "-" + address
    ensures NamespaceOf(k) == BalanceKeys
  {
    var k := Dashed("balance-", chain, address);
    assert k[..8] == "balance-";
    k
  }

  /** Calls for one chain share a key exactly when they name the same
      address, and calls for one address share a key exactly when they name
      the same chain. */
  lemma KeySeparates(chain1: string, address1: string, chain2: string, address2: string)
    requires chain1 == chain2 || address1 == address2
    ensures Key(chain1, address1) == Key(chain2, address2) <==> chain1 == chain2 && address1 == address2
  {
    DashedSeparates("balance-", chain1, address1, chain2, address2);
  }

  /** The message thrown for a provider answer whose status is not "1":
      `new Error(result || message)` seen through `err.message || err`. */
  function ProviderReason(body: Body): (reason: string)
    ensures body.result != "" ==> reason == body.result
    ensures body.result == "" && body.message != "" ==> reason == body.message
    ensures body.result == "" && body.message == "" ==> reason == "Error"
  {
    MessageOf(Raise(if body.result != "" then body.result else body.message))
  }

  /** A cache hit: a live entry whose balance text is not empty (an empty
      string is falsy and reads as a miss). */
  predicate IsHit(cached: Option<Value>) {
    cached.Some? && cached.value.BalanceText? && cached.value.text != ""
  }

  /** `walletBalanceTool.execute(args)` on the shared state `s` at `now`, with
      `fetch` the upstream answer should the call get that far. The call is
      always charged to the limiter, cache hits included. A refused call
      throws the bare "Rate limit exceeded" and neither reads the cache nor
      calls upstream. A hit returns the cached balance without an upstream
      call and leaves the cache as it was. Otherwise the provider is queried
      for the key's chain and address; any failure is thrown with the prefix
      "Wallet balance fetch failed: " and nothing is cached; a status "1"
      answer is formatted, cached under the same key for 60 seconds from its
      arrival and returned; should `formatEther` throw, its message is thrown
      with the prefix and nothing is cached. */
  function Evaluate(s: Store, args: Args, now: int, fetch: Fetch<Body>, fx: Formatters)
    : (o: Outcome<BalanceResult, Request>)
    requires WellTyped(s.entries)
    ensures WellTyped(o.store.entries)
    ensures var key := Key(ChainOf(args), args.address);
      var (limits, admitted) := Admit(s.limits, key, MaxCalls, IntervalMs, now);
      var (entries, cached) := Lookup(s.entries, key, now);
      && o.store.limits == limits
      && (!admitted ==> o.result == Failure(RateLimitExceeded) && o.request.None? && o.store.entries == s.entries)
      && (admitted && IsHit(cached) ==>
            o.result == Success(BalanceResult(ChainOf(args), cached.value.text))
            && o.request.None? && o.store.entries == s.entries)
      && (admitted && !IsHit(cached) ==>
            && o.request == Some(Request(ChainId(ChainOf(args)), args.address))
            && (o.result.Failure? ==> o.store.entries == entries
                                      && FailurePrefix <= o.result.error)
            && (o.result.Success? <==>
                  fetch.Received? && fetch.body.status == "1" && fx.formatEther(fetch.body.result).Done?)
            && (o.result.Success? ==>
                  var balance := fx.formatEther(fetch.body.result).value;
                  && o.result.value == BalanceResult(ChainOf(args), balance)
                  && o.store.entries == Insert(entries, key, BalanceText(balance), CacheTtlSeconds, fetch.at))
            && (fetch.Raised? ==> o.result == Failure(FailurePrefix + MessageOf(fetch.error)))
            && (fetch.Received? && fetch.body.status != "1" ==>
                  o.result == Failure(FailurePrefix + ProviderReason(fetch.body)))
            && (fetch.Received? && fetch.body.status == "1" && fx.formatEther(fetch.body.result).Threw? ==>
                  o.result == Failure(FailurePrefix + MessageOf(fx.formatEther(fetch.body.result).error))))
  {
    var chain := ChainOf(args);
    var key := Key(chain, args.address);
    var (limits, admitted) := Admit(s.limits, key, MaxCalls, IntervalMs, now);
    if !admitted then Outcome(Store(limits, s.entries), None, Failure(RateLimitExceeded))
    else
      var (entries, cached) := Lookup(s.entries, key, now);
      LookupKeepsWellTyped(s.entries, key, now);
      if IsHit(cached) then Outcome(Store(limits, entries), None, Success(BalanceResult(chain, cached.value.text)))
      else
        var request := Some(Request(ChainId(chain), args.address));
        match fetch
        case Raised(e) => Outcome(Store(limits, entries), request, Failure(FailurePrefix + MessageOf(e)))
        case Received(body, at) =>
          if body.status != "1" then
            Outcome(Store(limits, entries), request, Failure(FailurePrefix + ProviderReason(body)))
          else
            match fx.formatEther(body.result)
            case Threw(e) => Outcome(Store(limits, entries), request, Failure(FailurePrefix + MessageOf(e)))
            case Done(balance) =>
              Outcome(Store(limits, Insert(entries, key, BalanceText(balance), CacheTtlSeconds, at)),
                      request, Success(BalanceResult(chain, balance)))
  }

  /** `walletBalanceTool.execute(args)` on the process-wide limiter and cache. */
  method Execute(args: Args, limiter: RateLimiter, cache: Cache<Value>, now: int, fetch: Fetch<Body>,
                 fx: Formatters)
    returns (request: Option<Request>, r: Result<BalanceResult>)
    requires WellTyped(cache.entries)
    modifies limiter, cache
    ensures WellTyped(cache.entries)
    ensures Outcome(Store(limiter.limits, cache.entries), request, r)
            == Evaluate(Store(old(limiter.limits), old(cache.entries)), args, now, fetch, fx)
  {
    var chain := ChainOf(args);
    var key := Key(chain, args.address);
    var admitted := limiter.RateLimit(key, MaxCalls, IntervalMs, now);
    if !admitted {
      return None, Failure(RateLimitExceeded);
    }
    LookupKeepsWellTyped(cache.entries, key, now);
    var cached := cache.Get(key, now);
    if IsHit(cached) {
      return None, Success(BalanceResult(chain, cached.value.text));
    }
    request := Some(Request(ChainId(chain), args.address));
    match fetch {
      case Raised(e) =>
        r := Failure(FailurePrefix + MessageOf(e));
      case Received(body, at) =>
        if body.status != "1" {
          r := Failure(FailurePrefix + ProviderReason(body));
        } else {
          match fx.formatEther(body.result) {
            case Threw(e) =>
              r := Failure(FailurePrefix + MessageOf(e));
            case Done(balance) =>
              cache.Set(key, BalanceText(balance), CacheTtlSeconds, at);
              r := Success(BalanceResult(chain, balance));
          }
        }
    }
  }

  /** Two identical calls within the cache lifetime of a fetched balance: the
      second makes no upstream call and returns the same result unless the
      limiter refuses it, provided the formatted balance is not the empty
      string. */
  lemma SecondCallServedFromCache(s: Store, args: Args, now: int, fetch: Fetch<Body>, fx: Formatters,
                                  later: int, fetch2: Fetch<Body>)
    requires WellTyped(s.entries)
    requires var o := Evaluate(s, args, now, fetch, fx);
      o.request.Some? && o.result.Success? && o.result.value.balance != ""
    requires later <= fetch.at + CacheTtlSeconds * 1000
    ensures var o := Evaluate(s, args, now, fetch, fx);
      var o2 := Evaluate(o.store, args, later, fetch2, fx);
      o2.request.None? && (o2.result == o.result || o2.result == Failure(RateLimitExceeded))
  {
    var o := Evaluate(s, args, now, fetch, fx);
    var key := Key(ChainOf(args), args.address);
    assert key in o.store.entries && o.store.entries[key] == Entry(BalanceText(o.result.value.balance), fetch.at + CacheTtlSeconds * 1000);
  }
}
