/** The `crypto_converter` tool: converts an amount between two currencies at
    the CoinGecko rate, rate limited to 10 calls per minute per pair, with the
    rate (not the converted amount) cached for 60 seconds. */
module CryptoConverter {
  import opened Wrappers
  import opened Text
  import opened RateLimiting
  import opened TtlCache
  import opened ToolKit

  const MaxCalls: int := 10
  const IntervalMs: int := 60_000
  const FailurePrefix: string := "Crypto conversion failed: "

  /** `coinMap`: CoinGecko ids of the common upper-case symbols. */
  const CoinMap: map<string, string> := map[
    "BTC" := "bitcoin", "ETH" := "ethereum", "USDC" := "usd-coin", "BNB" := "binancecoin", "DAI" := "dai"]

  /** `{from, to, amount}`. */
  datatype Args = Args(from: string, to: string, amount: real)

  /** `{rate, converted}`. */
  datatype Conversion = Conversion(rate: real, converted: real)

  /** The CoinGecko `simple/price` query: `ids` and `vs_currencies`. */
  datatype Request = Request(ids: string, vsCurrencies: string)

  /** The price table: coin id to currency to rate. */
  datatype Body = Body(prices: map<string, map<string, real>>)

  /** `crypto-<FROM>-<TO>` with both symbols upper-cased, in the converter's
      namespace of the cache. */
  function Key(from: string, to: string): (k: string)
    ensures k == "crypto-" + Upper(from) + "-" + Upper(to)
    ensures NamespaceOf(k) == CryptoKeys
  {
    var k := Dashed("crypto-", Upper(from), Upper(to));
    assert k[..7] == "crypto-" && k[0] == 'c';
    k
  }

  /** Two pairs that agree, up to letter case, on one currency share a key
      exactly when they agree, up to letter case, on the other one too. */
  lemma KeySeparates(from1: string, to1: string, from2: string, to2: string)
    requires SameIgnoringCase(from1, from2) || SameIgnoringCase(to1, to2)
    ensures Key(from1, to1) == Key(from2, to2) <==> SameIgnoringCase(from1, from2) && SameIgnoringCase(to1, to2)
  {
    UpperIdentifiesCase(from1, from2);
    UpperIdentifiesCase(to1, to2);
    DashedSeparates("crypto-", Upper(from1), Upper(to1), Upper(from2), Upper(to2));
  }

  /** Pairs that differ only in letter case share one key, hence one quota
      and one cache entry. */
  lemma KeyIgnoresCase(from1: string, to1: string, from2: string, to2: string)
    requires SameIgnoringCase(from1, from2) && SameIgnoringCase(to1, to2)
    ensures Key(from1, to1) == Key(from2, to2)
  {
    UpperIdentifiesCase(from1, from2);
    UpperIdentifiesCase(to1, to2);
  }

  /** The CoinGecko id of `from`: the `coinMap` entry for its upper-case form
      when there is one, otherwise `from` lower-cased. */
  function FromId(from: string): (id: string)
    ensures Upper(from) in CoinMap ==> id == CoinMap[Upper(from)]
    ensures Upper(from) !in CoinMap ==> id == Lower(from)
  {
    if Upper(from) in CoinMap then CoinMap[Upper(from)] else Lower(from)
  }

  /** `res.data[fromId]?.[toId]`, undefined when either level is missing. */
  function RateOf(body: Body, fromId: string, toId: string): (rate: Option<real>)
    ensures rate.Some? <==> fromId in body.prices && toId in body.prices[fromId]
    ensures rate.Some? ==> rate.value == body.prices[fromId][toId]
  {
    if fromId in body.prices && toId in body.prices[fromId] then Some(body.prices[fromId][toId]) else None
  }

  /** A rate is usable when present and non-zero (`!rate` rejects the rest). */
  predicate Usable(rate: Option<real>) {
    rate.Some? && rate.value != 0.0
  }

  /** `rate * amount`. */
  function Times(rate: real, amount: real): real {
    rate * amount
  }

  /** A cache hit: a live cached rate that is not zero (zero is falsy and
      reads as a miss). */
  predicate IsHit(cached: Option<Value>) {
    cached.Some? && cached.value.Rate? && cached.value.rate != 0.0
  }

  function Unavailable(from: string, to: string): string {
    "Conversion not available from " + from + " to " + to
  }

  /** `cryptoConverterTool.execute(args)` on the shared state `s` at `now`.
      Every call is charged to the limiter under the upper-cased pair. A
      refused call throws the bare "Rate limit exceeded" without touching the
      cache or calling upstream. A live non-zero cached rate gives
      `{rate, converted: rate * amount}` without an upstream call. Otherwise
      prices are requested for the resolved ids; a missing or zero rate
      throws "Conversion not available from <from> to <to>" (as typed); every
      failure is rethrown with the prefix "Crypto conversion failed: " and
      nothing is cached; a usable rate is cached for 60 seconds from the
      response's arrival and the conversion returned. */
  function Evaluate(s: Store, args: Args, now: int, fetch: Fetch<Body>)
    : (o: Outcome<Conversion, Request>)
    requires WellTyped(s.entries)
    ensures WellTyped(o.store.entries)
    ensures var key := Key(args.from, args.to);
      var (limits, admitted) := Admit(s.limits, key, MaxCalls, IntervalMs, now);
      var (entries, cached) := Lookup(s.entries, key, now);
      var hit := IsHit(cached);
      && o.store.limits == limits
      && (!admitted ==> o.result == Failure(RateLimitExceeded) && o.request.None? && o.store.entries == s.entries)
      && (admitted && hit ==>
            && o.result.Success?
            && o.result.value.rate == cached.value.rate
            && o.result.value.converted == Times(cached.value.rate, args.amount)
            && o.request.None? && o.store.entries == s.entries)
      && (admitted && !hit ==>
            && o.request == Some(Request(FromId(args.from), Lower(args.to)))
            && (o.result.Failure? ==> o.store.entries == entries && FailurePrefix <= o.result.error)
            && (o.result.Success? <==> fetch.Received? && Usable(RateOf(fetch.body, FromId(args.from), Lower(args.to))))
            && (o.result.Success? ==>
                  var rate := o.result.value.rate;
                  && rate == RateOf(fetch.body, FromId(args.from), Lower(args.to)).value
                  && o.result.value.converted == Times(rate, args.amount)
                  && o.store.entries == Insert(entries, key, Rate(rate), CacheTtlSeconds, fetch.at))
            && (fetch.Received? && !Usable(RateOf(fetch.body, FromId(args.from), Lower(args.to))) ==>
                  o.result == Failure(FailurePrefix + Unavailable(args.from, args.to)))
            && (fetch.Raised? ==> o.result == Failure(FailurePrefix + MessageOf(fetch.error))))
  {
    var key := Key(args.from, args.to);
    var (limits, admitted) := Admit(s.limits, key, MaxCalls, IntervalMs, now);
    if !admitted then Outcome(Store(limits, s.entries), None, Failure(RateLimitExceeded))
    else
      var (entries, cached) := Lookup(s.entries, key, now);
      LookupKeepsWellTyped(s.entries, key, now);
      if IsHit(cached) then
        Outcome(Store(limits, entries), None, Success(Conversion(cached.value.rate, Times(cached.value.rate, args.amount))))
      else
        var fromId := FromId(args.from);
        var toId := Lower(args.to);
        var request := Some(Request(fromId, toId));
        match fetch
        case Raised(e) => Outcome(Store(limits, entries), request, Failure(FailurePrefix + MessageOf(e)))
        case Received(body, at) =>
          var rate := RateOf(body, fromId, toId);
          if !Usable(rate) then
            Outcome(Store(limits, entries), request,
                    Failure(FailurePrefix + MessageOf(Raise(Unavailable(args.from, args.to)))))
          else
            Outcome(Store(limits, Insert(entries, key, Rate(rate.value), CacheTtlSeconds, at)),
                    request, Success(Conversion(rate.value, Times(rate.value, args.amount))))
  }

  /** `cryptoConverterTool.execute(args)` on the process-wide limiter and cache. */
  method Execute(args: Args, limiter: RateLimiter, cache: Cache<Value>, now: int, fetch: Fetch<Body>)
    returns (request: Option<Request>, r: Result<Conversion>)
    requires WellTyped(cache.entries)
    modifies limiter, cache
    ensures WellTyped(cache.entries)
    ensures Outcome(Store(limiter.limits, cache.entries), request, r)
            == Evaluate(Store(old(limiter.limits), old(cache.entries)), args, now, fetch)
  {
    var key := Key(args.from, args.to);
    var admitted := limiter.RateLimit(key, MaxCalls, IntervalMs, now);
    if !admitted {
      return None, Failure(RateLimitExceeded);
    }
    LookupKeepsWellTyped(cache.entries, key, now);
    var cached := cache.Get(key, now);
    if IsHit(cached) {
      return None, Success(Conversion(cached.value.rate, Times(cached.value.rate, args.amount)));
    }
    var fromId := FromId(args.from);
    var toId := Lower(args.to);
    request := Some(Request(fromId, toId));
    match fetch {
      case Raised(e) =>
        r := Failure(FailurePrefix + MessageOf(e));
      case Received(body, at) =>
        var rate := RateOf(body, fromId, toId);
        if !Usable(rate) {
          r := Failure(FailurePrefix + MessageOf(Raise(Unavailable(args.from, args.to))));
        } else {
          cache.Set(key, Rate(rate.value), CacheTtlSeconds, at);
          r := Success(Conversion(rate.value, Times(rate.value, args.amount)));
        }
    }
  }

  /** A rate fetched for one amount serves a later call with another amount:
      within the cache lifetime that call makes no upstream request and
      converts its own amount at the cached rate, unless the limiter refuses
      it. */
  lemma CachedRateServesOtherAmounts(s: Store, args: Args, now: int, fetch: Fetch<Body>,
                                     amount2: real, later: int, fetch2: Fetch<Body>)
    requires WellTyped(s.entries)
    requires var o := Evaluate(s, args, now, fetch); o.request.Some? && o.result.Success?
    requires later <= fetch.at + CacheTtlSeconds * 1000
    ensures var o := Evaluate(s, args, now, fetch);
      var o2 := Evaluate(o.store, args.(amount := amount2), later, fetch2);
      && o2.request.None?
      && (o2.result == Success(Conversion(o.result.value.rate, Times(o.result.value.rate, amount2)))
          || o2.result == Failure(RateLimitExceeded))
  {
    var o := Evaluate(s, args, now, fetch);
    var key := Key(args.from, args.to);
    assert key in o.store.entries && o.store.entries[key] == Entry(Rate(o.result.value.rate), fetch.at + CacheTtlSeconds * 1000);
  }
}
