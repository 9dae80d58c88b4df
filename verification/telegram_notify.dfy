/** `sendTelegram`, a fire-and-forget Telegram sender offered to the rest of
    the server (the chat listener replies through a sender of its own, and
    no tool calls this one): it sends nothing when the bot is not
    configured, silently skips a
    message the limiter refuses (5 per 10 seconds, keyed on the first 50
    characters), and swallows transport errors. It shares the limiter, and
    its key prefix, with the `telegram_bot` tool. */
module TelegramNotify {
  import opened Wrappers
  import opened Text
  import opened RateLimiting
  import opened ToolKit
  import TelegramBot

  const MaxCalls: int := 5
  const IntervalMs: int := 10_000

  /** Only this many leading characters of a message make up its key. */
  const KeyLength: nat := 50

  /** `telegram-<first 50 characters>`. */
  function Key(message: string): (k: string)
    ensures k == "telegram-" + Prefix(message, KeyLength)
  {
    "telegram-" + Prefix(message, KeyLength)
  }

  /** What one `sendTelegram(message)` call does to the limiter map: the new
      map, the message posted (`None` when nothing is posted) and what the
      call returns (`None` is `undefined`). `configured` says whether both the
      bot token and the chat id are set. */
  datatype Delivery = Delivery(limits: map<string, Window>, posted: Option<TelegramBot.Request>,
                               returned: Option<TelegramBot.Body>)

  /** An unconfigured sink returns at once and leaves the limiter alone. A
      configured one charges the limiter under the message's first 50
      characters; a refused message is skipped without a post. An admitted
      one posts the whole message and returns the API answer, `ok` or not; a
      transport error is swallowed and the call returns nothing. */
  function Deliver(limits: map<string, Window>, message: string, configured: bool, now: int,
                   fetch: Fetch<TelegramBot.Body>): (d: Delivery)
    ensures !configured ==> d == Delivery(limits, None, None)
    ensures configured ==>
      var (next, admitted) := Admit(limits, Key(message), MaxCalls, IntervalMs, now);
      && d.limits == next
      && (admitted <==> d.posted.Some?)
      && (admitted ==> d.posted.value == TelegramBot.Request(message))
      && (d.returned.Some? <==> admitted && fetch.Received?)
      && (d.returned.Some? ==> d.returned.value == fetch.body)
  {
    if !configured then Delivery(limits, None, None)
    else
      var (next, admitted) := Admit(limits, Key(message), MaxCalls, IntervalMs, now);
      if !admitted then Delivery(next, None, None)
      else
        match fetch
        case Raised(_) => Delivery(next, Some(TelegramBot.Request(message)), None)
        case Received(body, _) => Delivery(next, Some(TelegramBot.Request(message)), Some(body))
  }

  /** `sendTelegram(message)` on the process-wide limiter. */
  method SendTelegram(message: string, configured: bool, limiter: RateLimiter, now: int,
                      fetch: Fetch<TelegramBot.Body>)
    returns (posted: Option<TelegramBot.Request>, returned: Option<TelegramBot.Body>)
    modifies limiter
    ensures Delivery(limiter.limits, posted, returned) == Deliver(old(limiter.limits), message, configured, now, fetch)
  {
    if !configured {
      return None, None;
    }
    var admitted := limiter.RateLimit(Key(message), MaxCalls, IntervalMs, now);
    if !admitted {
      return None, None;
    }
    posted := Some(TelegramBot.Request(message));
    match fetch {
      case Raised(_) =>
        returned := None;
      case Received(body, _) =>
        returned := Some(body);
    }
  }

  /** The sink and the `telegram_bot` tool use the same limiter key for a
      message exactly when it has at most 50 characters; a longer message is
      charged to different windows by the two. */
  lemma {:induction false} KeysAgreeExactlyWhenShort(message: string)
    ensures Key(message) == TelegramBot.Key(message) <==> |message| <= KeyLength
  {
    if |message| > KeyLength {
      assert |Key(message)| < |TelegramBot.Key(message)|;
    }
  }

  /** Messages that agree on their first 50 characters share one window, so
      sending one uses up the quota of the other. */
  lemma SharedPrefixSharesWindow(m1: string, m2: string, limits: map<string, Window>, now: int,
                                 fetch: Fetch<TelegramBot.Body>)
    requires Prefix(m1, KeyLength) == Prefix(m2, KeyLength)
    ensures var d := Deliver(limits, m1, true, now, fetch);
      d.limits[Key(m2)] == Charge(limits, Key(m2), IntervalMs, now)
  {
  }

  /** After the `telegram_bot` tool has sent a short message five times within
      10 seconds of the first send, the sink's attempt to send the same message
      within that window is skipped: nothing is posted and nothing returned. */
  lemma BotExhaustsSinkQuota(limits: map<string, Window>, message: string, times: seq<int>, now: int,
                             fetch: Fetch<TelegramBot.Body>)
    requires |message| <= KeyLength
    requires TelegramBot.Key(message) !in limits
    requires |times| == TelegramBot.MaxCalls
    requires forall i :: 0 <= i < |times| ==> times[i] - times[0] <= IntervalMs
    requires now - times[0] <= IntervalMs
    ensures var afterBot := Replay(limits, TelegramBot.Key(message), TelegramBot.MaxCalls,
                                   TelegramBot.IntervalMs, times).0;
      var d := Deliver(afterBot, message, true, now, fetch);
      d.posted.None? && d.returned.None?
  {
    var key := TelegramBot.Key(message);
    KeysAgreeExactlyWhenShort(message);
    var (next, _) := Admit(limits, key, TelegramBot.MaxCalls, TelegramBot.IntervalMs, times[0]);
    assert next[key] == Window(1, times[0]);
    CallsWithinWindow(next, key, TelegramBot.MaxCalls, TelegramBot.IntervalMs, times[1..]);
    var afterBot := Replay(limits, key, TelegramBot.MaxCalls, TelegramBot.IntervalMs, times).0;
    assert afterBot == Replay(next, key, TelegramBot.MaxCalls, TelegramBot.IntervalMs, times[1..]).0;
    assert afterBot[key] == Window(MaxCalls, times[0]);
  }
}
