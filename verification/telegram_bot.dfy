/** The `telegram_bot` tool: posts a message to the configured Telegram chat,
    rate limited to 5 sends per 10 seconds per distinct message. It does not
    use the cache. */
module TelegramBot {
  import opened Wrappers
  import opened RateLimiting
  import opened ToolKit

  const MaxCalls: int := 5
  const IntervalMs: int := 10_000
  const FailurePrefix: string := "Telegram message failed: "

  /** `{message}`. */
  datatype Args = Args(message: string)

  /** The `sendMessage` call: the text posted to the configured chat. */
  datatype Request = Request(text: string)

  /** The Bot API answer `{ok, result}`; `result` is kept as its JSON text. */
  datatype Body = Body(ok: bool, result: string)

  /** `{success, result}` as the tool returns it. */
  datatype Sent = Sent(success: bool, result: string)

  /** `telegram-<message>`: the whole message is the key. */
  function Key(message: string): (k: string)
    ensures k == "telegram-" + message
    ensures k[9..] == message
  {
    "telegram-" + message
  }

  /** `telegramBotTool.execute(args)` on the shared limiter state of `s` at
      `now`. Every call is charged to the limiter under the message. A refused
      call throws the bare "Rate limit exceeded" and posts nothing. An
      admitted call posts exactly the message; the answer's `ok` and `result`
      are returned as `success` and `result` whatever `ok` says, and a
      transport error is rethrown as "Telegram message failed: " followed by
      its message. The cache is never touched. */
  function Evaluate(s: Store, args: Args, now: int, fetch: Fetch<Body>): (o: Outcome<Sent, Request>)
    ensures var (limits, admitted) := Admit(s.limits, Key(args.message), MaxCalls, IntervalMs, now);
      && o.store == Store(limits, s.entries)
      && (!admitted ==> o.result == Failure(RateLimitExceeded) && o.request.None?)
      && (admitted ==>
            && o.request == Some(Request(args.message))
            && (o.result.Success? <==> fetch.Received?)
            && (fetch.Received? ==> o.result.value == Sent(fetch.body.ok, fetch.body.result))
            && (fetch.Raised? ==> o.result == Failure(FailurePrefix + fetch.error.message)))
  {
    var (limits, admitted) := Admit(s.limits, Key(args.message), MaxCalls, IntervalMs, now);
    if !admitted then Outcome(Store(limits, s.entries), None, Failure(RateLimitExceeded))
    else
      var request := Some(Request(args.message));
      match fetch
      case Raised(e) => Outcome(Store(limits, s.entries), request, Failure(FailurePrefix + e.message))
      case Received(body, _) => Outcome(Store(limits, s.entries), request, Success(Sent(body.ok, body.result)))
  }

  /** `telegramBotTool.execute(args)` on the process-wide limiter. */
  method Execute(args: Args, limiter: RateLimiter, now: int, fetch: Fetch<Body>)
    returns (request: Option<Request>, r: Result<Sent>)
    modifies limiter
    ensures forall entries :: Outcome(Store(limiter.limits, entries), request, r)
                              == Evaluate(Store(old(limiter.limits), entries), args, now, fetch)
  {
    var admitted := limiter.RateLimit(Key(args.message), MaxCalls, IntervalMs, now);
    if !admitted {
      return None, Failure(RateLimitExceeded);
    }
    request := Some(Request(args.message));
    match fetch {
      case Raised(e) =>
        r := Failure(FailurePrefix + e.message);
      case Received(body, _) =>
        r := Success(Sent(body.ok, body.result));
    }
  }
}
