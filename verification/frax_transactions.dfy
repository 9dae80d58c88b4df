/** The `frax_transactions` tool: the latest FRAX token transfers of an
    address, rate limited to 5 calls per minute per key and cached for 60
    seconds. */
module FraxTransactions {
  import opened Wrappers
  import opened Text
  import opened RateLimiting
  import opened TtlCache
  import opened ToolKit

  const MaxCalls: int := 5
  const IntervalMs: int := 60_000
  const FailurePrefix: string := "FRAX transactions fetch failed: "
  const UnexpectedFormat: string := "Unexpected API response format"

  /** At most this many transfers are returned. */
  const MaxTransfers: nat := 5

  /** Decimals assumed when a transfer does not state its own. */
  const DefaultDecimals: int := 18

  /** `FRAX_TOKEN`, the FRAX contract on each supported chain. */
  const FraxToken: map<string, string> := map[
    "ethereum" := "0x853d955acef822db058eb8505911ed77f175b99e",
    "fraxtal" := "0xfc00000000000000000000000000000000000001"]

  /** `{address, chain?}`. */
  datatype Args = Args(address: string, chain: Option<string>)

  /** The Etherscan `account/tokentx` query (page 1, offset 5, newest first):
      chain id, token contract (undefined for an unknown chain) and address. */
  datatype Request = Request(chainId: int, contractAddress: Option<string>, address: string)

  /** One provider transfer record; `value` is empty when absent, and
      `tokenDecimal` is the number the record states, if any. */
  datatype RawTransfer = RawTransfer(hash: string, from: string, to: string, value: string,
                                     tokenDecimal: Option<int>, timeStamp: string)

  /** The two places a provider may put the transfer list: `data.result` and
      `data.data.items`; `None` is anything that is not an array. */
  datatype Body = Body(result: Option<seq<RawTransfer>>, dataItems: Option<seq<RawTransfer>>)

  function ChainOf(args: Args): string {
    args.chain.GetOr(DefaultChain)
  }

  /** `frax-tx-<chain>-<address>`, in the FRAX namespace of the cache. */
  function Key(chain: string, address: string): (k: string)
    ensures k == "frax-tx-" + chain + "-" + address
    ensures NamespaceOf(k) == FraxKeys
  {
    var k := Dashed("frax-tx-", chain, address);
    assert k[..8] == "frax-tx-" && k[0] == 'f';
    k
  }

  /** Calls for one chain share a key exactly when they name the same
      address, and calls for one address share a key exactly when they name
      the same chain. */
  lemma KeySeparates(chain1: string, address1: string, chain2: string, address2: string)
    requires chain1 == chain2 || address1 == address2
    ensures Key(chain1, address1) == Key(chain2, address2) <==> chain1 == chain2 && address1 == address2
  {
    DashedSeparates("frax-tx-", chain1, address1, chain2, address2);
  }

  /** Chain id 252 and the Fraxtal token for "fraxtal"; chain id 1 and the
      token listed for the chain (undefined for one not listed) otherwise. */
  function RequestFor(chain: string, address: string): (q: Request)
    ensures q.address == address
    ensures chain == "fraxtal" ==> q.chainId == 252 && q.contractAddress == Some(FraxToken["fraxtal"])
    ensures chain == "ethereum" ==> q.chainId == 1 && q.contractAddress == Some(FraxToken["ethereum"])
    ensures chain !in FraxToken ==> q.chainId == 1 && q.contractAddress.None?
  {
    Request(if chain == "fraxtal" then 252 else 1,
            if chain in FraxToken then Some(FraxToken[chain]) else None,
            address)
  }

  /** Shape normalisation: `data.result` when it is an array, else
      `data.data.items` when that is, else "Unexpected API response format". */
  function Items(body: Body): (r: Result<seq<RawTransfer>>)
    ensures body.result.Some? ==> r == Success(body.result.value)
    ensures body.result.None? && body.dataItems.Some? ==> r == Success(body.dataItems.value)
    ensures r.Failure? <==> body.result.None? && body.dataItems.None?
    ensures r.Failure? ==> r.error == UnexpectedFormat
  {
    if body.result.Some? then Success(body.result.value)
    else if body.dataItems.Some? then Success(body.dataItems.value)
    else Failure(UnexpectedFormat)
  }

  /** The text `BigInt` is given: the value, or "0" when it is absent. */
  function ValueText(tx: RawTransfer): string {
    if tx.value != "" then tx.value else "0"
  }

  /** One transfer as returned, or the error its conversion throws. The
      value is parsed by `BigInt` first, then formatted with the stated
      decimals (or 18), then the timestamp is rendered; the first of these
      to throw decides the error. On success hash, sender and recipient are
      copied and the amount and time are the formatted texts. */
  function Convert(tx: RawTransfer, fx: Formatters): (t: Attempt<Transfer>)
    ensures var v := fx.toBigInt(ValueText(tx));
      && (v.Threw? ==> t == Threw(v.error))
      && (v.Done? ==>
            var amount := fx.formatUnits(v.value, tx.tokenDecimal.GetOr(DefaultDecimals));
            var time := fx.isoTimestamp(tx.timeStamp);
            && (amount.Threw? ==> t == Threw(amount.error))
            && (amount.Done? && time.Threw? ==> t == Threw(time.error))
            && (amount.Done? && time.Done? ==>
                  t == Done(Transfer(tx.hash, tx.from, tx.to, amount.value, time.value))))
  {
    match fx.toBigInt(ValueText(tx))
    case Threw(e) => Threw(e)
    case Done(value) =>
      match fx.formatUnits(value, tx.tokenDecimal.GetOr(DefaultDecimals))
      case Threw(e) => Threw(e)
      case Done(amount) =>
        match fx.isoTimestamp(tx.timeStamp)
        case Threw(e) => Threw(e)
        case Done(time) => Done(Transfer(tx.hash, tx.from, tx.to, amount, time))
  }

  /** `items.map(...)`: every item converted, in order, or the error of the
      first item whose conversion throws. */
  function ConvertAll(items: seq<RawTransfer>, fx: Formatters): (r: Attempt<seq<Transfer>>)
    ensures r.Done? <==> forall i :: 0 <= i < |items| ==> Convert(items[i], fx).Done?
    ensures r.Done? ==> |r.value| == |items|
    ensures r.Done? ==> forall i :: 0 <= i < |items| ==> Convert(items[i], fx) == Done(r.value[i])
    ensures r.Threw? ==> exists i :: 0 <= i < |items| && Convert(items[i], fx) == Threw(r.error)
                                    && forall j :: 0 <= j < i ==> Convert(items[j], fx).Done?
  {
    if items == [] then Done([])
    else
      match Convert(items[0], fx)
      case Threw(e) => Threw(e)
      case Done(t) =>
        match ConvertAll(items[1..], fx)
        case Threw(e) => Threw(e)
        case Done(ts) => Done([t] + ts)
  }

  /** How many of `count` listed transfers are returned. */
  function Shown(count: nat): nat {
    if count < MaxTransfers then count else MaxTransfers
  }

  /** `items.slice(0, 5).map(...)`: the first (at most five) transfers the
      provider listed, converted in its order, or the error of the first of
      them whose conversion throws. */
  function Latest(items: seq<RawTransfer>, fx: Formatters): (r: Attempt<seq<Transfer>>)
    ensures r.Done? <==> forall i :: 0 <= i < Shown(|items|) ==> Convert(items[i], fx).Done?
    ensures r.Done? ==> |r.value| == Shown(|items|) <= MaxTransfers
    ensures r.Done? ==> forall i :: 0 <= i < |r.value| ==> Convert(items[i], fx) == Done(r.value[i])
    ensures r.Threw? ==> exists i :: 0 <= i < Shown(|items|) && Convert(items[i], fx) == Threw(r.error)
                                    && forall j :: 0 <= j < i ==> Convert(items[j], fx).Done?
  {
    var shown := items[..Shown(|items|)];
    assert forall i :: 0 <= i < |shown| ==> shown[i] == items[i];
    ConvertAll(shown, fx)
  }

  /** `fraxTransactionTool.execute(args)` on the shared state `s` at `now`.
      Every call is charged to the limiter. A refused call throws the bare
      "Rate limit exceeded" without touching the cache or calling upstream. A
      live cached result is returned unchanged without an upstream call.
      Otherwise the provider is queried; a body with the list in neither place
      fails with "Unexpected API response format", and a transfer whose
      conversion throws fails the whole call; every failure is rethrown
      with the prefix "FRAX transactions fetch failed: " and nothing is cached;
      on success `{chain, address, transactions}` is cached for 60 seconds
      from the response's arrival and returned. */
  function Evaluate(s: Store, args: Args, now: int, fetch: Fetch<Body>, fx: Formatters)
    : (o: Outcome<FraxResult, Request>)
    requires WellTyped(s.entries)
    ensures WellTyped(o.store.entries)
    ensures var key := Key(ChainOf(args), args.address);
      var (limits, admitted) := Admit(s.limits, key, MaxCalls, IntervalMs, now);
      var (entries, cached) := Lookup(s.entries, key, now);
      && o.store.limits == limits
      && (!admitted ==> o.result == Failure(RateLimitExceeded) && o.request.None? && o.store.entries == s.entries)
      && (admitted && cached.Some? ==>
            o.result == Success(cached.value.frax) && o.request.None? && o.store.entries == s.entries)
      && (admitted && cached.None? ==>
            && o.request == Some(RequestFor(ChainOf(args), args.address))
            && (o.result.Failure? ==> o.store.entries == entries && FailurePrefix <= o.result.error)
            && (o.result.Success? <==>
                  fetch.Received? && Items(fetch.body).Success? && Latest(Items(fetch.body).value, fx).Done?)
            && (o.result.Success? ==>
                  && o.result.value == FraxResult(ChainOf(args), args.address, Latest(Items(fetch.body).value, fx).value)
                  && o.store.entries == Insert(entries, key, FraxReport(o.result.value), CacheTtlSeconds, fetch.at))
            && (fetch.Received? && Items(fetch.body).Failure? ==>
                  o.result == Failure(FailurePrefix + UnexpectedFormat))
            && (fetch.Received? && Items(fetch.body).Success? && Latest(Items(fetch.body).value, fx).Threw? ==>
                  o.result == Failure(FailurePrefix + DetailOf(Latest(Items(fetch.body).value, fx).error)))
            && (fetch.Raised? ==> o.result == Failure(FailurePrefix + DetailOf(fetch.error))))
  {
    var chain := ChainOf(args);
    var key := Key(chain, args.address);
    var (limits, admitted) := Admit(s.limits, key, MaxCalls, IntervalMs, now);
    if !admitted then Outcome(Store(limits, s.entries), None, Failure(RateLimitExceeded))
    else
      var (entries, cached) := Lookup(s.entries, key, now);
      LookupKeepsWellTyped(s.entries, key, now);
      if cached.Some? then Outcome(Store(limits, entries), None, Success(cached.value.frax))
      else
        var request := Some(RequestFor(chain, args.address));
        match fetch
        case Raised(e) => Outcome(Store(limits, entries), request, Failure(FailurePrefix + DetailOf(e)))
        case Received(body, at) =>
          match Items(body)
          case Failure(m) => Outcome(Store(limits, entries), request, Failure(FailurePrefix + DetailOf(Raise(m))))
          case Success(items) =>
            match Latest(items, fx)
            case Threw(e) => Outcome(Store(limits, entries), request, Failure(FailurePrefix + DetailOf(e)))
            case Done(txs) =>
              var result := FraxResult(chain, args.address, txs);
              Outcome(Store(limits, Insert(entries, key, FraxReport(result), CacheTtlSeconds, at)),
                      request, Success(result))
  }

  /** `fraxTransactionTool.execute(args)` on the process-wide limiter and cache. */
  method Execute(args: Args, limiter: RateLimiter, cache: Cache<Value>, now: int, fetch: Fetch<Body>,
                 fx: Formatters)
    returns (request: Option<Request>, r: Result<FraxResult>)
    requires WellTyped(cache.entries)
    modifies limiter, cache
    ensures WellTyped(cache.entries)
    ensures Outcome(Store(limiter.limits, cache.entries), request, r)
            == Evaluate(Store(old(limiter.limits), old(cache.entries)), args, now, fetch, fx)
  {
    var chain := ChainOf(args);
    var key := Key(chain, args.address);
    var admitted := limiter.RateLimit(key, MaxCalls, IntervalMs, now);
    if !admitted {
      return None, Failure(RateLimitExceeded);
    }
    LookupKeepsWellTyped(cache.entries, key, now);
    var cached := cache.Get(key, now);
    if cached.Some? {
      return None, Success(cached.value.frax);
    }
    request := Some(RequestFor(chain, args.address));
    match fetch {
      case Raised(e) =>
        r := Failure(FailurePrefix + DetailOf(e));
      case Received(body, at) =>
        var items := Items(body);
        if items.Failure? {
          r := Failure(FailurePrefix + DetailOf(Raise(items.error)));
        } else {
          match Latest(items.value, fx) {
            case Threw(e) =>
              r := Failure(FailurePrefix + DetailOf(e));
            case Done(txs) =>
              var result := FraxResult(chain, args.address, txs);
              cache.Set(key, FraxReport(result), CacheTtlSeconds, at);
              r := Success(result);
          }
        }
    }
  }

  /** Two identical calls within the cache lifetime of a fetched list: the
      second makes no upstream call and returns the identical list unless the
      limiter refuses it. */
  lemma SecondCallServedFromCache(s: Store, args: Args, now: int, fetch: Fetch<Body>, fx: Formatters,
                                  later: int, fetch2: Fetch<Body>)
    requires WellTyped(s.entries)
    requires var o := Evaluate(s, args, now, fetch, fx); o.request.Some? && o.result.Success?
    requires later <= fetch.at + CacheTtlSeconds * 1000
    ensures var o := Evaluate(s, args, now, fetch, fx);
      var o2 := Evaluate(o.store, args, later, fetch2, fx);
      o2.request.None? && (o2.result == o.result || o2.result == Failure(RateLimitExceeded))
  {
    var o := Evaluate(s, args, now, fetch, fx);
    var key := Key(ChainOf(args), args.address);
    assert key in o.store.entries && o.store.entries[key] == Entry(FraxReport(o.result.value), fetch.at + CacheTtlSeconds * 1000);
  }
}
