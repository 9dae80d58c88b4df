# crypto-telegram-mcp, modelled in Dafny

This project models the request-governance core of the crypto-telegram-mcp
server and proves properties about it. The server exposes five tools over
the Model Context Protocol (MCP) and through a Telegram chat:

- `crypto_converter` converts an amount between currencies at a CoinGecko
  rate;
- `frax_transactions` lists the latest FRAX token transfers of an address;
- `wallet_balance` reads a native balance from Etherscan;
- `gas_estimator` reads the Etherscan gas oracle;
- `telegram_bot` posts to a Telegram chat.

Every tool runs the same pipeline:

1. derive a key from its arguments;
2. charge that key in the process-wide fixed-window **rate limiter**, and
   throw "Rate limit exceeded" if refused;
3. serve a live entry of the process-wide **TTL cache**;
4. otherwise query upstream, validate and normalise the answer, cache it
   for 60 seconds and return it, prefixing every failure with a
   tool-specific message.

The rest of the core:

- The **dispatcher** lists the registry and calls a tool by exact name. It
  wraps every outcome in a response envelope, so no exception escapes.
- The **chat listener** polls Telegram for updates and moves its `offset`
  past each one. It splits each text message into words, binds the
  arguments of `/balance`, `/convert`, `/gas` and `/frax`, and replies with
  the tool's result, a fixed usage or help text, or the error.
- The **notification sink** `sendTelegram` is a rate-limited,
  fire-and-forget sender. It shares the limiter, and its key prefix, with
  `telegram_bot`.

How the source is modelled:

- **Limiter and cache.** Both are mutated in place, so each is a class with
  a `map` field and methods with `modifies` clauses. Each method is proved
  equal to a pure function (`Admit`, `Insert`, `Lookup`), and the
  properties are lemmas about those functions.
- **Tools.** Each tool has a pure reference function `Evaluate` over the
  limiter and cache maps, which gives the new maps, the upstream request
  (if any) and the result or thrown message. Each tool also has a method
  `Execute` that calls the limiter and cache methods in the source's order
  and is proved equal to `Evaluate`.
- **Upstream.** An upstream answer is an input (`Fetch`): either the decoded
  body with the clock reading at its arrival, or the error the HTTP client
  threw.
- **The shared cache.** It holds a union of the four cached shapes. The
  invariant `WellTyped` says that each key prefix (`balance-`, `gas-`,
  `frax-tx-`, `crypto-`) holds the shape its tool writes. Every tool
  preserves it.
- **The listener.** Its poll loop is a `while` loop in a class holding
  `offset`, proved against a recursive specification of the batch.
- **The dispatcher.** It is pure: functions over a sequence of tool
  descriptors, with `execute` abstracted as a function parameter.

## Model

| member | source | states |
|---|---|---|
| RateLimiting.Charge | src/utils/rateLimiter.ts:7-9 | an unseen key opens a window `{1, now}`; a window whose start is more than `intervalMs` old (strictly) is reset to `{1, now}`; otherwise the count goes up by one and the start stays put |
| RateLimiting.Admit | src/utils/rateLimiter.ts:5-12 | only `key`'s window changes, every other key keeps its window, and the call is admitted exactly when the incremented count is at most `max` (refused calls are counted too) |
| RateLimiting.Replay | src/utils/rateLimiter.ts:5-12 | successive calls for one key yield one verdict per call and keep every key already present |
| RateLimiting.CallsWithinWindow | src/utils/rateLimiter.ts:8-11 | within one window the k-th further call is admitted exactly when `count + k <= max`, every call is counted and the window start does not move |
| RateLimiting.FirstWindowAdmitsExactlyMax | src/utils/rateLimiter.ts:7-11 | from an unseen key, calls within `intervalMs` of the first are admitted exactly while fewer than `max` came before: exactly `max` succeed, all later ones fail |
| RateLimiting.RateLimiter.RateLimit | src/utils/rateLimiter.ts:5-12 | the limiter map becomes `Admit`'s map (only `key`'s window replaced by its charged successor) and the verdict is `Admit`'s |
| RateLimiting.RateLimiter.constructor | src/utils/rateLimiter.ts:3 | the limiter starts with no windows |
| TtlCache.Insert | src/utils/cache.ts:5-7 | `set` overwrites `key` with `{value, now + ttl*1000}` and leaves every other key unchanged |
| TtlCache.Lookup | src/utils/cache.ts:9-14 | a missing key reads as absent and changes nothing; a live entry (`now <= expire`) reads as its value and changes nothing; a stale one reads as absent and is deleted, and nothing else changes |
| TtlCache.ReadBack | src/utils/cache.ts:5-14 | a value set reads back unchanged, with the map unchanged, up to and including its expiry, and reads as absent and is removed afterwards |
| TtlCache.Reads | src/utils/cache.ts:9-14 | successive reads of one key yield one result per read |
| TtlCache.EvictedStaysAbsent | src/utils/cache.ts:10-12 | once a read has found a key stale, every later read of it is absent and changes nothing until it is set again |
| TtlCache.AbsentKeyReadsAbsent | src/utils/cache.ts:10-11 | reads of a key never set are all absent and leave the map unchanged |
| TtlCache.Cache.Set | src/utils/cache.ts:5-7 | the cache map becomes `Insert`'s map |
| TtlCache.Cache.Get | src/utils/cache.ts:9-14 | the new map and the value read are `Lookup`'s |
| TtlCache.Cache.constructor | src/utils/cache.ts:3 | the cache starts empty |
| Text.Upper | src/tools/cryptoConverter.ts:37 | `toUpperCase` keeps the length, turns each lower-case letter into its own upper-case letter (32 code points lower) and keeps every other character |
| Text.Lower | src/tools/cryptoConverter.ts:47-48 | `toLowerCase` keeps the length, turns each upper-case letter into its own lower-case letter (32 code points higher) and keeps every other character |
| Text.UpperIdentifiesCase | src/tools/cryptoConverter.ts:37 | two strings upper-case alike exactly when, position by position, they hold the same character or the same ASCII letter in the other case |
| Text.Prefix | src/utils/telegram.ts:19 | `slice(0, n)` is a prefix of the string, of length `min(n, length)` |
| Text.Split | src/telegramListener.ts:45 | `split(/\s+/)` yields at least one field and no field contains white space; the empty text gives one empty field, a text starting with white space an empty first field, and any other text a first field starting with its first character |
| Text.SplitAfterWord | src/telegramListener.ts:45 | a space-free word in front of a text becomes part of its first field |
| Text.SplitUnwords | src/telegramListener.ts:45 | splitting words joined by single spaces gives back exactly those words |
| Text.SplitAtRun | src/telegramListener.ts:45 | a run of white space of any length ends a field as a single space does, and a leading run yields an empty first field |
| ToolKit.ChainId | src/tools/walletBalance.ts:43 | `CHAIN_IDS[chain]` is 1 for ethereum, 137 for polygon, 42161 for arbitrum, and undefined for every other chain |
| ToolKit.MessageOf | src/tools/walletBalance.ts:63 | the thrown error's text is its message, or the error's name when the message is empty |
| ToolKit.DetailOf | src/tools/gasEstimator.ts:59-65 | the error detail is the response's `data.message`, else its `data`, else the error's message, else its name |
| ToolKit.LookupKeepsWellTyped | src/utils/cache.ts:9-14 | reading the shared cache keeps every key prefix holding its tool's value shape, and what a key yields fits its prefix |
| WalletBalance.Key | src/tools/walletBalance.ts:34 | the key is `balance-<chain>-<address>`, which lies in the balance prefix of the shared cache |
| WalletBalance.KeySeparates | src/tools/walletBalance.ts:34 | calls for one chain share a key exactly when they name the same address, and calls for one address exactly when they name the same chain |
| WalletBalance.ProviderReason | src/tools/walletBalance.ts:54-63 | a status other than "1" reports the provider's `result`, else its `message`, else "Error" |
| WalletBalance.Evaluate | src/tools/walletBalance.ts:33-65 | every call is charged; a refusal throws "Rate limit exceeded" and neither reads the cache nor queries; a non-empty cached balance is returned with no query; otherwise the query targets the chain's id and address, and every failure caches nothing and throws "Wallet balance fetch failed: " followed by the transport error's message, the provider's reason for a status other than "1", or the message `formatEther` throws; status "1" with a formatted balance caches it for 60 s from arrival and returns `{chain, balance}` |
| WalletBalance.Execute | src/tools/walletBalance.ts:33-65 | the new limiter and cache maps, the query issued and the result are `Evaluate`'s, and the cache stays well typed |
| WalletBalance.SecondCallServedFromCache | src/tools/walletBalance.ts:37-61 | a repeat call within the cache lifetime of a fetched non-empty balance issues no query and returns the same result, unless refused by the limiter |
| GasEstimator.Key | src/tools/gasEstimator.ts:28 | the key is `gas-<chain>`, which lies in the gas prefix of the shared cache |
| GasEstimator.KeySeparates | src/tools/gasEstimator.ts:28 | two calls share a key exactly when they name the same chain |
| GasEstimator.Project | src/tools/gasEstimator.ts:48-54 | the result copies the chain and the four oracle fields verbatim; a textual result has all four undefined |
| GasEstimator.Evaluate | src/tools/gasEstimator.ts:27-67 | every call is charged; a refusal throws before cache or query; a cached result is returned unchanged with no query; otherwise a missing result fails with "Invalid gas oracle response", every failure carries the prefix "Gas estimator failed: " and the response detail and caches nothing, and a present result is projected, cached for 60 s and returned |
| GasEstimator.Execute | src/tools/gasEstimator.ts:27-67 | the new limiter and cache maps, the query issued and the result are `Evaluate`'s, and the cache stays well typed |
| GasEstimator.SecondCallServedFromCache | src/tools/gasEstimator.ts:31-57 | a repeat call within the cache lifetime of a fetched result issues no query and returns the identical result, unless refused |
| GasEstimator.TextResultIsCached | src/tools/gasEstimator.ts:44-56 | a non-empty textual `result` passes the presence check: the call succeeds with all prices undefined and that result is cached |
| FraxTransactions.Key | src/tools/fraxTransactions.ts:30 | the key is `frax-tx-<chain>-<address>`, which lies in the FRAX prefix of the shared cache |
| FraxTransactions.KeySeparates | src/tools/fraxTransactions.ts:30 | calls for one chain share a key exactly when they name the same address, and calls for one address exactly when they name the same chain |
| FraxTransactions.RequestFor | src/tools/fraxTransactions.ts:12-43 | chain id 252 and the Fraxtal token for "fraxtal"; chain id 1 otherwise, with the Ethereum token for "ethereum" and no token for an unlisted chain |
| FraxTransactions.Items | src/tools/fraxTransactions.ts:52-61 | `data.result` when it is an array, else `data.data.items` when that is, else "Unexpected API response format" |
| FraxTransactions.Convert | src/tools/fraxTransactions.ts:63-73 | `BigInt` of the value (default "0"), then `formatUnits` with the stated decimals (default 18), then the timestamp rendering; the first of them to throw gives the error; otherwise hash, sender and recipient are copied with the formatted amount and time |
| FraxTransactions.ConvertAll | src/tools/fraxTransactions.ts:63-74 | `.map` converts every item in order, or throws the error of the first item whose conversion throws |
| FraxTransactions.Latest | src/tools/fraxTransactions.ts:63-74 | the first `min(5, n)` transfers the provider listed, converted in its order, or the error of the first of them whose conversion throws |
| FraxTransactions.Evaluate | src/tools/fraxTransactions.ts:29-89 | every call is charged; a refusal throws before cache or query; a cached result is returned with no query; otherwise the query is issued, and every failure caches nothing and throws "FRAX transactions fetch failed: " followed by the response detail of a transport error, "Unexpected API response format", or the detail of a throwing transfer conversion; success caches `{chain, address, transactions}` for 60 s and returns it |
| FraxTransactions.Execute | src/tools/fraxTransactions.ts:29-89 | the new limiter and cache maps, the query issued and the result are `Evaluate`'s, and the cache stays well typed |
| FraxTransactions.SecondCallServedFromCache | src/tools/fraxTransactions.ts:33-79 | a repeat call within the cache lifetime of a fetched list issues no query and returns the identical list, unless refused |
| CryptoConverter.Key | src/tools/cryptoConverter.ts:37 | the key is `crypto-<FROM>-<TO>` with both symbols upper-cased, which lies in the converter prefix of the shared cache |
| CryptoConverter.KeyIgnoresCase | src/tools/cryptoConverter.ts:37-44 | pairs whose symbols differ only in the case of ASCII letters share one key, hence one quota and one cache entry |
| CryptoConverter.KeySeparates | src/tools/cryptoConverter.ts:37 | pairs that agree up to case on one symbol share a key exactly when they agree up to case on the other |
| CryptoConverter.FromId | src/tools/cryptoConverter.ts:13-47 | the `coinMap` id of the upper-cased symbol when listed, else the symbol lower-cased |
| CryptoConverter.RateOf | src/tools/cryptoConverter.ts:61 | `data[fromId]?.[toId]` is defined exactly when both levels exist, and is that rate |
| CryptoConverter.Evaluate | src/tools/cryptoConverter.ts:34-74 | every call is charged; a refusal throws before cache or query; a non-zero cached rate gives `{rate, rate * amount}` with no query; otherwise prices are queried for the resolved ids, a missing or zero rate fails with "Conversion not available from X to Y", every failure carries the prefix "Crypto conversion failed: " and caches nothing, and a usable rate alone is cached for 60 s and converted |
| CryptoConverter.Execute | src/tools/cryptoConverter.ts:34-74 | the new limiter and cache maps, the query issued and the result are `Evaluate`'s, and the cache stays well typed |
| CryptoConverter.CachedRateServesOtherAmounts | src/tools/cryptoConverter.ts:43-70 | the cache holds the rate, not the amount: a later call for another amount issues no query and converts its own amount at the cached rate, unless refused |
| TelegramBot.Key | src/tools/telegramBot.ts:18 | the whole message, after `telegram-`, is the limiter key |
| TelegramBot.Evaluate | src/tools/telegramBot.ts:17-32 | every call is charged 5 per 10 s under the message; a refusal throws "Rate limit exceeded" and posts nothing; otherwise exactly the message is posted, `{success: ok, result}` is returned whatever `ok` says, a transport error throws "Telegram message failed: " plus its message, and the cache is never touched |
| TelegramBot.Execute | src/tools/telegramBot.ts:17-32 | the new limiter map, the post issued and the result are `Evaluate`'s, for any cache contents |
| TelegramNotify.Key | src/utils/telegram.ts:19 | the key is `telegram-` plus the first 50 characters |
| TelegramNotify.Deliver | src/utils/telegram.ts:16-40 | unconfigured: the limiter is untouched and nothing is posted; configured: charged 5 per 10 s under the 50-character key, posted exactly when admitted, the API answer returned whatever `ok` says, a transport error swallowed |
| TelegramNotify.SendTelegram | src/utils/telegram.ts:16-40 | the new limiter map, the post issued and the value returned are `Deliver`'s |
| TelegramNotify.KeysAgreeExactlyWhenShort | src/utils/telegram.ts:19 | the sink and the bot tool use the same key for a message exactly when it has at most 50 characters |
| TelegramNotify.SharedPrefixSharesWindow | src/utils/telegram.ts:19-20 | messages agreeing on their first 50 characters are charged to the same window |
| TelegramNotify.BotExhaustsSinkQuota | src/utils/telegram.ts:19-23 | after the bot tool sent a short message five times within 10 s, the sink's send of it within that window is skipped without a post |
| Dispatcher.Registry | src/index.ts:13-19 | the registry holds exactly five tools (their names and order are stated by `RegistryOrder`) |
| Dispatcher.ListTools | src/index.ts:45-53 | one listing per registered tool, in registry order, with its name, description and `parameters` as `inputSchema` |
| Dispatcher.FindIndex | src/index.ts:59 | the first tool whose name equals the requested one exactly, or none exactly when no tool has that name |
| Dispatcher.CallTool | src/index.ts:57-99 | an unknown name answers "Tool not found: <name>" as an error; otherwise the first tool of that name runs, its result comes back unwrapped and its thrown message as `{success: false, error}` marked as an error; a returned result always comes from running a tool of that name; the error flag is set exactly when the payload is `{success: false, error}` |
| Dispatcher.RegistryOrder | src/index.ts:13-52 | the listing names crypto_converter, frax_transactions, wallet_balance, gas_estimator, telegram_bot, in that order |
| Dispatcher.CallRunsNamedTool | src/index.ts:58-98 | with distinct names, calling a tool by its name runs exactly that tool: its result unwrapped without the error flag, its thrown message as `{success: false, error}` with the flag |
| Dispatcher.RegistryCallsListedTools | src/index.ts:45-98 | every listed name calls the tool listed under it |
| Dispatcher.UnknownNameRunsNothing | src/index.ts:61-70 | for a name no tool has, the answer does not depend on any tool's behaviour |
| TelegramListener.SupportedOr | src/telegramListener.ts:55-57 | a field is used as the chain only when it is in `SUPPORTED_CHAINS`, else "ethereum" |
| TelegramListener.Classify | src/telegramListener.ts:46-167 | the lower-cased verb picks the command and any other verb gets the help text; `/balance` without an address gets its usage; `/convert` missing an argument gets its usage and a non-number amount "❌ Amount must be a number"; `/gas` and `/balance` take only supported chains; `/frax` takes "fraxtal" only when the third field is exactly that |
| TelegramListener.Parse | src/telegramListener.ts:45-47 | an empty text, or one starting with white space, has an empty verb and gets the help text |
| TelegramListener.ParseWords | src/telegramListener.ts:45-46 | a line of space-separated non-empty words is classified on exactly those words |
| TelegramListener.BalanceLineParses | src/telegramListener.ts:45-59 | `/balance <address> <chain>` with a supported chain, in any letter case of the verb, asks for that balance |
| TelegramListener.ErrorReply | src/telegramListener.ts:168-171 | the error reply is "⚠️ Error: " followed by the message, or by "Error" when the message is empty |
| TelegramListener.FraxAnswer | src/telegramListener.ts:131-148 | an empty list answers "No FRAX transactions found"; otherwise one line per transfer, in order, with the hash cut to its first ten characters and the chain upper-cased |
| TelegramListener.Respond | src/telegramListener.ts:48-171 | a fixed reply touches no state; a tool command has that tool's effect on limiter and cache and answers its result, with MATIC for polygon balances and ETH otherwise, or its error after "⚠️ Error: " |
| TelegramListener.Route | src/telegramListener.ts:48-171 | the new limiter and cache maps and the reply are `Respond`'s, by calling the tools' `Execute` |
| TelegramListener.RefusedBalanceAnswersError | src/telegramListener.ts:59-171 | a `/balance` the limiter refuses answers "⚠️ Error: Rate limit exceeded" and issues no query |
| TelegramListener.TextOf | src/telegramListener.ts:26-27 | the message is `message`, else `channel_post`, and it is kept only when its text is present and non-empty |
| TelegramListener.Step | src/telegramListener.ts:23-35 | `offset` becomes the update's id plus one before anything else; an update without text changes nothing else; a text message is routed and its reply appended for its chat |
| TelegramListener.FinalOffset | src/telegramListener.ts:23-24 | after a non-empty batch `offset` is one past the last update's id, skipped updates included; an empty batch leaves it |
| TelegramListener.OneReplyPerTextMessage | src/telegramListener.ts:23-35 | exactly one reply per update with text, to that update's chat, in update order, with earlier replies untouched |
| TelegramListener.Listener.Poll | src/telegramListener.ts:18-40 | a failed poll changes nothing; otherwise the new limiter, cache, `offset` and replies are those of the batch specification, and the cache stays well typed |
| TelegramListener.Listener.constructor | src/telegramListener.ts:9 | `offset` starts at 0 |

## Left out

- HTTP transport is not modelled: the Etherscan, CoinGecko and Telegram endpoints, the API keys and URLs. Each upstream answer is an input `Fetch`: the decoded body and its arrival time, or the error the client threw.
- The MCP SDK plumbing is not modelled: server construction, the vendor patch, handler registration, the stdio transport and `main`. Only the two handler bodies are modelled.
- `JSON.stringify` of payloads and the Markdown and emoji layout of tool replies are not modelled. Replies are kept as the fields they interpolate. The fixed usage, help, "No FRAX transactions found" and error texts are exact.
- `console` logging is not modelled.
- `process.env` is read as a boolean `configured` for the sink.
- `setInterval` scheduling is not modelled: one poll is one call of `Poll`.
- Each tool call is one atomic step here. In the source, a call awaits the upstream answer between its limiter charge and cache read and its `setCache`, so overlapping MCP calls interleave there. Two overlapping calls can then both miss the cache and both query upstream. The `SecondCallServedFromCache` lemmas and `CachedRateServesOtherAmounts` hold for calls that follow each other.
- `Date.now()` is an explicit `now`. One reading serves a tool's limiter charge and cache read. The cache write uses the time the response arrived.
- `formatEther`, `BigInt`, `formatUnits` and the ISO date rendering are foreign code, passed in as functions that give a value or throw. What they compute and when they throw is not modelled, only how the tools react to a throw.
- `FraxTransactions.Evaluate`: the decimals `Number(tx.tokenDecimal ?? 18)` are taken as already parsed, so a non-numeric `tokenDecimal` (NaN) is not a separate case; it is covered only as a throw of `formatUnits`.
- `CryptoConverter.RateOf`: JavaScript object lookups are modelled as map lookups, which see own properties only. A name inherited from `Object.prototype` is not modelled: `res.data["constructor"]?.["name"]` is the truthy "Object" in the source (so `/convert constructor name 1` caches and returns it) but undefined here. The same holds for `CHAIN_IDS[chain]` (`ToolKit.ChainId`) and `FRAX_TOKEN[chain]` (`FraxTransactions.RequestFor`): "undefined for every other chain" means every chain that is not an inherited property name.
- `TelegramListener.Classify`: `Number(...)`/`isNaN` is the parameter `toNumber`.
- JavaScript numbers are `real`, with no floating-point rounding.
- Case mapping covers ASCII letters only.
- `slice` counts characters, not UTF-16 code units.
- `/\s+/` uses the ECMAScript white-space set.
- `err.response.data` is modelled as the text it turns into when concatenated.
- `Dispatcher.CallTool`: a tool's `execute` is an abstract function of the descriptor, so the call arguments and the link to the five tool models are not tracked. `String(error)` for non-`Error` throws does not arise, because every tool throws `Error`.
- `TelegramListener.Listener.Poll`: the listener's own `send` helper is assumed to deliver. A failed send would escape `routeTelegram` and abandon the rest of the batch; that is not modelled. A failed `getUpdates` call or an undecodable body is one `Raised` input that changes nothing. Polls are also modelled as running one at a time. In the source, `setInterval` starts a tick every 1.5 s without waiting for the previous one, and a tick holds a 30 s long poll and then awaits the routing of each update. A new tick can therefore start while an earlier batch is still being routed. It then fetches from the partly advanced `offset`, answers that batch's remaining updates a second time and charges the tools' quotas twice, and a slower tick can move `offset` back. `FinalOffset`, `OneReplyPerTextMessage` and `Poll` hold for a poll that runs alone.
- `TelegramListener.Respond`: a gas result's fields are `Option`s, where the source would print "undefined" for an absent one.
- `sendTelegram`'s `console.error` on a not-`ok` answer has no effect to model.
- `src/tools/index.ts` is not part of this model: it only re-exports the same five tools.
