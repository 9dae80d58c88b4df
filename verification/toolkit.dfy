/** What the five tools share: the one process-wide limiter map and cache map
    (as values, for the reference functions), the shape of the values the
    tools put in the cache, the key namespaces that keep those shapes apart,
    upstream responses and errors as inputs, and the foreign formatters. */
module ToolKit {
  import opened Wrappers
  import opened RateLimiting
  import opened TtlCache

  /** The message every tool throws, unprefixed, when the limiter refuses. */
  const RateLimitExceeded: string := "Rate limit exceeded"

  /** Every tool that caches keeps its result for 60 seconds. */
  const CacheTtlSeconds: int := 60

  /** The chain a tool uses when its arguments name none. */
  const DefaultChain: string := "ethereum"

  /** `CHAIN_IDS`, the Etherscan chain ids of the chains the wallet and gas
      tools know. */
  const ChainIds: map<string, int> := map["ethereum" := 1, "polygon" := 137, "arbitrum" := 42161]

  /** `CHAIN_IDS[chain]`: undefined for a chain the table does not list. */
  function ChainId(chain: string): (id: Option<int>)
    ensures id.Some? <==> chain in {"ethereum", "polygon", "arbitrum"}
    ensures chain == "ethereum" ==> id == Some(1)
    ensures chain == "polygon" ==> id == Some(137)
    ensures chain == "arbitrum" ==> id == Some(42161)
  {
    if chain in ChainIds then Some(ChainIds[chain]) else None
  }

  /** A thrown JavaScript error: its `name` ("Error", "AxiosError", ...), the
      `response.data.message` and `response.data` an HTTP client attaches
      (empty when absent), and its `message`. */
  datatype Exception = Exception(name: string, responseMessage: string, responseData: string, message: string)

  /** `new Error(message)`. */
  function Raise(message: string): Exception {
    Exception("Error", "", "", message)
  }

  /** `err.message || err`: the message, or the error's string form (its name)
      when the message is empty. */
  function MessageOf(e: Exception): (text: string)
    ensures e.message != "" ==> text == e.message
    ensures e.message == "" ==> text == e.name
  {
    if e.message != "" then e.message else e.name
  }

  /** `err?.response?.data?.message || err?.response?.data || err.message || err`. */
  function DetailOf(e: Exception): (text: string)
    ensures e.responseMessage != "" ==> text == e.responseMessage
    ensures e.responseMessage == "" && e.responseData != "" ==> text == e.responseData
    ensures e.responseMessage == "" && e.responseData == "" ==> text == MessageOf(e)
  {
    if e.responseMessage != "" then e.responseMessage
    else if e.responseData != "" then e.responseData
    else MessageOf(e)
  }

  /** What an upstream HTTP call gives back: the decoded response body and the
      clock reading when it arrived, or the error the client threw. */
  datatype Fetch<T> = Received(body: T, at: int) | Raised(error: Exception)

  /** A foreign conversion that either gives a value or throws. */
  datatype Attempt<T> = Done(value: T) | Threw(error: Exception)

  /** Functions of foreign libraries whose code is not part of this model,
      each of which may throw: `formatEther`, `BigInt(text)`,
      `formatUnits(value, decimals)` and the ISO-8601 rendering of a provider
      timestamp given in seconds (`toISOString`, which throws on an invalid
      date). */
  datatype Formatters = Formatters(
    formatEther: string -> Attempt<string>,
    toBigInt: string -> Attempt<int>,
    formatUnits: (int, int) -> Attempt<string>,
    isoTimestamp: string -> Attempt<string>)

  /** `{chain, balance}` from the wallet balance tool. */
  datatype BalanceResult = BalanceResult(chain: string, balance: string)

  /** `{chain, safeGasPrice, proposeGasPrice, fastGasPrice, lastBlock}` from
      the gas estimator; `None` is an undefined field. */
  datatype GasResult = GasResult(chain: string, safeGasPrice: Option<string>, proposeGasPrice: Option<string>,
                                 fastGasPrice: Option<string>, lastBlock: Option<string>)

  /** One entry of the FRAX transfer list. */
  datatype Transfer = Transfer(hash: string, from: string, to: string, amount: string, timestamp: string)

  /** `{chain, address, transactions}` from the FRAX transfer tool. */
  datatype FraxResult = FraxResult(chain: string, address: string, transactions: seq<Transfer>)

  /** What the tools store in the shared cache: the wallet tool a formatted
      balance, the gas and FRAX tools their whole result, the converter a
      rate. */
  datatype Value = BalanceText(text: string) | GasReport(gas: GasResult) | FraxReport(frax: FraxResult) | Rate(rate: real)

  /** The key prefixes of the tools that share the cache. */
  datatype Namespace = BalanceKeys | GasKeys | FraxKeys | CryptoKeys | OtherKeys

  function NamespaceOf(key: string): Namespace {
    if "balance-" <= key then BalanceKeys
    else if "gas-" <= key then GasKeys
    else if "frax-tx-" <= key then FraxKeys
    else if "crypto-" <= key then CryptoKeys
    else OtherKeys
  }

  /** The value shape each namespace holds. */
  predicate Fits(key: string, v: Value) {
    match NamespaceOf(key)
    case BalanceKeys => v.BalanceText?
    case GasKeys => v.GasReport?
    case FraxKeys => v.FraxReport?
    case CryptoKeys => v.Rate?
    case OtherKeys => true
  }

  /** Every cached value has the shape its key's tool stores, so a tool that
      reads its own key gets back what it wrote. */
  predicate WellTyped(entries: map<string, Entry<Value>>) {
    forall k :: k in entries ==> Fits(k, entries[k].value)
  }

  /** Reading the cache keeps it well typed. */
  lemma LookupKeepsWellTyped(entries: map<string, Entry<Value>>, key: string, now: int)
    requires WellTyped(entries)
    ensures WellTyped(Lookup(entries, key, now).0)
    ensures var v := Lookup(entries, key, now).1; v.Some? ==> Fits(key, v.value)
  {
  }

  /** The limiter map and the cache map together: the state every tool reads
      and writes. */
  datatype Store = Store(limits: map<string, Window>, entries: map<string, Entry<Value>>)

  /** What one tool call does: the state afterwards, the upstream request it
      issued (`None` when it made no upstream call) and its result or thrown
      error. */
  datatype Outcome<T, Q> = Outcome(store: Store, request: Option<Q>, result: Result<T>)
}
