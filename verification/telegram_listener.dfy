/** The Telegram chat front end: each poll fetches a batch of updates,
    advances `offset` past every one of them, and routes each text message
    through the command parser to one of the four query tools, replying
    to the message's chat with the formatted result, a fixed usage or help
    text, or the error message. */
module TelegramListener {
  import opened Wrappers
  import opened Text
  import opened RateLimiting
  import opened TtlCache
  import opened ToolKit
  import WalletBalance
  import CryptoConverter
  import GasEstimator
  import FraxTransactions

  /** `SUPPORTED_CHAINS`, the chains `/balance` and `/gas` accept. */
  const SupportedChains: seq<string> := ["ethereum", "polygon", "arbitrum"]

  const BalanceUsage: string := "Usage: /balance <address> [chain]"
  const ConvertUsage: string := "Usage: /convert <from> <to> <amount>"
  const AmountNotNumber: string := "❌ Amount must be a number"
  const NoFraxTransactions: string := "No FRAX transactions found"
  const ErrorPrefix: string := "⚠️ Error: "
  const HelpText: string :=
    "🤖 Available Commands:\n\n/balance <address> [chain]\n/convert <from> <to> <amount>\n/gas [chain]\n"
    + "/frax <address?> [chain]\n\nExample:\n/balance 0xabc... polygon\n/convert BTC USD 2\n/gas ethereum\n"
    + "/frax 0xabc...\n"

  /** How many leading characters of a transaction hash a FRAX reply shows. */
  const HashShown: nat := 10

  /** What a chat message asks for: one of the four tool calls with its
      arguments bound, or a fixed reply that calls no tool. */
  datatype Command =
    | Balance(address: string, chain: string)
    | Convert(from: string, to: string, amount: real)
    | Gas(chain: string)
    | Frax(address: string, chain: string)
    | Fixed(text: string)

  /** `parts[i]`, with a missing field read as the empty string: every use in
      the router treats `undefined` and `""` alike. */
  function Arg(parts: seq<string>, i: nat): string {
    if i < |parts| then parts[i] else ""
  }

  /** The allow-list check with its default: the field when it names a
      supported chain, otherwise "ethereum". */
  function SupportedOr(field: string): (chain: string)
    ensures chain in SupportedChains
    ensures field in SupportedChains ==> chain == field
    ensures field !in SupportedChains ==> chain == DefaultChain
  {
    if field in SupportedChains then field else DefaultChain
  }

  /** The router's decision on the fields of a message. The verb is the first
      field lower-cased; an unknown verb gets the help text. `/balance` needs
      an address and takes a supported chain from the third field, else
      "ethereum". `/convert` needs three non-empty arguments and an amount
      `toNumber` accepts (`None` stands for NaN). `/gas` takes a supported
      chain from the second field, else "ethereum". `/frax` takes the second
      field as the address (possibly empty) and "fraxtal" only when the third
      field is exactly that, else "ethereum". */
  function Classify(parts: seq<string>, toNumber: string -> Option<real>): (c: Command)
    requires |parts| >= 1
    ensures var verb := Lower(parts[0]);
      && (verb !in {"/balance", "/convert", "/gas", "/frax"} <==> c == Fixed(HelpText))
      && (verb == "/balance" ==>
            (Arg(parts, 1) == "" <==> c == Fixed(BalanceUsage))
            && (Arg(parts, 1) != "" ==> c == Balance(parts[1], SupportedOr(Arg(parts, 2)))))
      && (verb == "/convert" ==>
            && (Arg(parts, 1) == "" || Arg(parts, 2) == "" || Arg(parts, 3) == "" <==> c == Fixed(ConvertUsage))
            && (Arg(parts, 1) != "" && Arg(parts, 2) != "" && Arg(parts, 3) != "" && toNumber(parts[3]).None?
                <==> c == Fixed(AmountNotNumber))
            && (c.Convert? <==> c != Fixed(ConvertUsage) && toNumber(parts[3]).Some?)
            && (c.Convert? ==> c == Convert(parts[1], parts[2], toNumber(parts[3]).value)))
      && (verb == "/gas" ==> c == Gas(SupportedOr(Arg(parts, 1))))
      && (verb == "/frax" ==> c.Frax? && c.address == Arg(parts, 1)
                              && (c.chain == "fraxtal" <==> Arg(parts, 2) == "fraxtal"))
    ensures c.Balance? ==> c.address != "" && c.chain in SupportedChains
    ensures c.Gas? ==> c.chain in SupportedChains
    ensures c.Frax? ==> c.chain in {"ethereum", "fraxtal"}
    ensures c.Fixed? ==> c.text in {HelpText, BalanceUsage, ConvertUsage, AmountNotNumber}
  {
    var verb := Lower(parts[0]);
    if verb == "/balance" then
      if Arg(parts, 1) == "" then Fixed(BalanceUsage)
      else Balance(parts[1], SupportedOr(Arg(parts, 2)))
    else if verb == "/convert" then
      if Arg(parts, 1) == "" || Arg(parts, 2) == "" || Arg(parts, 3) == "" then Fixed(ConvertUsage)
      else
        match toNumber(parts[3])
        case None => Fixed(AmountNotNumber)
        case Some(amount) => Convert(parts[1], parts[2], amount)
    else if verb == "/gas" then Gas(SupportedOr(Arg(parts, 1)))
    else if verb == "/frax" then Frax(Arg(parts, 1), if Arg(parts, 2) == "fraxtal" then "fraxtal" else DefaultChain)
    else Fixed(HelpText)
  }

  /** `routeTelegram`'s parsing: the text split on runs of white space, then
      classified. A text that is empty or starts with white space has an
      empty first field, which is no command, so it gets the help text. */
  function Parse(text: string, toNumber: string -> Option<real>): (c: Command)
    ensures text == [] || IsSpace(text[0]) ==> c == Fixed(HelpText)
  {
    Classify(Split(text), toNumber)
  }

  /** A command line typed as space-separated non-empty words is classified
      on exactly those words. */
  lemma ParseWords(words: seq<string>, toNumber: string -> Option<real>)
    requires |words| >= 1
    requires forall i :: 0 <= i < |words| ==> words[i] != [] && NoSpace(words[i])
    ensures Parse(Unwords(words), toNumber) == Classify(words, toNumber)
  {
    SplitUnwords(words);
  }

  /** `/balance <address> <chain>` with a supported chain asks for that
      chain's balance of that address, whatever the case of the verb. */
  lemma BalanceLineParses(verb: string, address: string, chain: string, toNumber: string -> Option<real>)
    requires Lower(verb) == "/balance"
    requires address != [] && NoSpace(address) && chain in SupportedChains
    ensures Parse(verb + " " + address + " " + chain, toNumber) == Balance(address, chain)
  {
    var words := [verb, address, chain];
    assert NoSpace(chain);
    assert verb != [] && NoSpace(verb) by {
      assert |verb| == |Lower(verb)|;
      forall i | 0 <= i < |verb| ensures !IsSpace(verb[i]) {
        assert Lower(verb)[i] == LowerChar(verb[i]);
      }
    }
    ParseWords(words, toNumber);
    assert Unwords(words[1..]) == address + " " + chain by {
      assert words[1..][1..] == [chain];
    }
    assert Unwords(words) == verb + " " + address + " " + chain;
    assert Classify(words, toNumber) == Balance(address, chain);
  }

  /** One FRAX transfer as a reply lists it: the hash cut to its first ten
      characters, then sender, recipient, amount and time. */
  datatype FraxLine = FraxLine(hash: string, from: string, to: string, amount: string, timestamp: string)

  /** What the listener answers, before Markdown rendering: a plain text, or
      the fields a tool reply interpolates (chains are upper-cased). */
  datatype Reply =
    | Plain(text: string)
    | WalletReply(chain: string, balance: string, unit: string)
    | ConversionReply(amount: real, from: string, converted: real, to: string, rate: real)
    | GasReply(chain: string, safe: Option<string>, propose: Option<string>, fast: Option<string>,
               lastBlock: Option<string>)
    | FraxReply(chain: string, lines: seq<FraxLine>)

  /** The error reply: `err.message || err` after the warning prefix. */
  function ErrorReply(message: string): (r: Reply)
    ensures message != "" ==> r == Plain(ErrorPrefix + message)
    ensures message == "" ==> r == Plain(ErrorPrefix + "Error")
  {
    Plain(ErrorPrefix + MessageOf(Raise(message)))
  }

  /** The FRAX reply for a result: the fixed text for an empty list, else one
      line per transfer, in order, each hash cut to ten characters. */
  function FraxAnswer(result: FraxResult): (r: Reply)
    ensures result.transactions == [] ==> r == Plain(NoFraxTransactions)
    ensures result.transactions != [] ==>
      && r.FraxReply? && r.chain == Upper(result.chain)
      && |r.lines| == |result.transactions|
      && forall i :: 0 <= i < |r.lines| ==>
           var tx := result.transactions[i];
           && r.lines[i].hash <= tx.hash && |r.lines[i].hash| <= HashShown
           && r.lines[i] == FraxLine(Prefix(tx.hash, HashShown), tx.from, tx.to, tx.amount, tx.timestamp)
  {
    if result.transactions == [] then Plain(NoFraxTransactions)
    else
      var txs := result.transactions;
      FraxReply(Upper(result.chain),
                seq(|txs|, i requires 0 <= i < |txs| =>
                  FraxLine(Prefix(txs[i].hash, HashShown), txs[i].from, txs[i].to, txs[i].amount, txs[i].timestamp)))
  }

  /** The clock and the upstream answers one routed message would see. */
  datatype Env = Env(now: int, wallet: Fetch<WalletBalance.Body>, convert: Fetch<CryptoConverter.Body>,
                     gas: Fetch<GasEstimator.Body>, frax: Fetch<FraxTransactions.Body>)

  /** `routeTelegram` after parsing, on the shared state: a fixed reply
      touches nothing; a tool command runs that tool's `execute` on the
      shared limiter and cache and answers with its result, or with the error
      it threw after "⚠️ Error: ". No error escapes. */
  function Respond(s: Store, c: Command, e: Env, fx: Formatters): (r: (Store, Reply))
    requires WellTyped(s.entries)
    ensures WellTyped(r.0.entries)
    ensures c.Fixed? ==> r == (s, Plain(c.text))
    ensures c.Balance? ==>
      var o := WalletBalance.Evaluate(s, WalletBalance.Args(c.address, Some(c.chain)), e.now, e.wallet, fx);
      && r.0 == o.store
      && (o.result.Success? ==>
            r.1 == WalletReply(Upper(c.chain), o.result.value.balance, if c.chain == "polygon" then "MATIC" else "ETH"))
      && (o.result.Failure? ==> r.1 == ErrorReply(o.result.error))
    ensures c.Convert? ==>
      var o := CryptoConverter.Evaluate(s, CryptoConverter.Args(c.from, c.to, c.amount), e.now, e.convert);
      && r.0 == o.store
      && (o.result.Success? ==>
            r.1 == ConversionReply(c.amount, Upper(c.from), o.result.value.converted, Upper(c.to), o.result.value.rate))
      && (o.result.Failure? ==> r.1 == ErrorReply(o.result.error))
    ensures c.Gas? ==>
      var o := GasEstimator.Evaluate(s, GasEstimator.Args(Some(c.chain)), e.now, e.gas);
      && r.0 == o.store
      && (o.result.Success? ==>
            var g := o.result.value;
            r.1 == GasReply(Upper(g.chain), g.safeGasPrice, g.proposeGasPrice, g.fastGasPrice, g.lastBlock))
      && (o.result.Failure? ==> r.1 == ErrorReply(o.result.error))
    ensures c.Frax? ==>
      var o := FraxTransactions.Evaluate(s, FraxTransactions.Args(c.address, Some(c.chain)), e.now, e.frax, fx);
      && r.0 == o.store
      && (o.result.Success? ==> r.1 == FraxAnswer(o.result.value))
      && (o.result.Failure? ==> r.1 == ErrorReply(o.result.error))
  {
    match c
    case Fixed(text) => (s, Plain(text))
    case Balance(address, chain) =>
      var o := WalletBalance.Evaluate(s, WalletBalance.Args(address, Some(chain)), e.now, e.wallet, fx);
      (o.store,
       match o.result
       case Failure(m) => ErrorReply(m)
       case Success(b) => WalletReply(Upper(b.chain), b.balance, if b.chain == "polygon" then "MATIC" else "ETH"))
    case Convert(from, to, amount) =>
      var o := CryptoConverter.Evaluate(s, CryptoConverter.Args(from, to, amount), e.now, e.convert);
      (o.store,
       match o.result
       case Failure(m) => ErrorReply(m)
       case Success(v) => ConversionReply(amount, Upper(from), v.converted, Upper(to), v.rate))
    case Gas(chain) =>
      var o := GasEstimator.Evaluate(s, GasEstimator.Args(Some(chain)), e.now, e.gas);
      (o.store,
       match o.result
       case Failure(m) => ErrorReply(m)
       case Success(g) => GasReply(Upper(g.chain), g.safeGasPrice, g.proposeGasPrice, g.fastGasPrice, g.lastBlock))
    case Frax(address, chain) =>
      var o := FraxTransactions.Evaluate(s, FraxTransactions.Args(address, Some(chain)), e.now, e.frax, fx);
      (o.store,
       match o.result
       case Failure(m) => ErrorReply(m)
       case Success(f) => FraxAnswer(f))
  }

  /** `routeTelegram` after parsing, on the process-wide limiter and cache. */
  method Route(c: Command, limiter: RateLimiter, cache: Cache<Value>, e: Env, fx: Formatters)
    returns (reply: Reply)
    requires WellTyped(cache.entries)
    modifies limiter, cache
    ensures WellTyped(cache.entries)
    ensures (Store(limiter.limits, cache.entries), reply) == Respond(Store(old(limiter.limits), old(cache.entries)), c, e, fx)
  {
    match c {
      case Fixed(text) =>
        reply := Plain(text);
      case Balance(address, chain) =>
        var _, r := WalletBalance.Execute(WalletBalance.Args(address, Some(chain)), limiter, cache, e.now, e.wallet, fx);
        if r.Failure? {
          reply := ErrorReply(r.error);
        } else {
          var b := r.value;
          reply := WalletReply(Upper(b.chain), b.balance, if b.chain == "polygon" then "MATIC" else "ETH");
        }
      case Convert(from, to, amount) =>
        var _, r := CryptoConverter.Execute(CryptoConverter.Args(from, to, amount), limiter, cache, e.now, e.convert);
        if r.Failure? {
          reply := ErrorReply(r.error);
        } else {
          reply := ConversionReply(amount, Upper(from), r.value.converted, Upper(to), r.value.rate);
        }
      case Gas(chain) =>
        var _, r := GasEstimator.Execute(GasEstimator.Args(Some(chain)), limiter, cache, e.now, e.gas);
        if r.Failure? {
          reply := ErrorReply(r.error);
        } else {
          var g := r.value;
          reply := GasReply(Upper(g.chain), g.safeGasPrice, g.proposeGasPrice, g.fastGasPrice, g.lastBlock);
        }
      case Frax(address, chain) =>
        var _, r := FraxTransactions.Execute(FraxTransactions.Args(address, Some(chain)), limiter, cache, e.now, e.frax, fx);
        if r.Failure? {
          reply := ErrorReply(r.error);
        } else {
          reply := FraxAnswer(r.value);
        }
    }
  }

  /** A `/balance` the limiter refuses is answered with the rate-limit error
      and issues no balance query. */
  lemma RefusedBalanceAnswersError(s: Store, address: string, chain: string, e: Env, fx: Formatters)
    requires WellTyped(s.entries)
    requires !Admit(s.limits, WalletBalance.Key(chain, address), WalletBalance.MaxCalls,
                    WalletBalance.IntervalMs, e.now).1
    ensures Respond(s, Balance(address, chain), e, fx).1 == Plain(ErrorPrefix + RateLimitExceeded)
    ensures WalletBalance.Evaluate(s, WalletBalance.Args(address, Some(chain)), e.now, e.wallet, fx).request.None?
  {
  }

  /** A chat message: the chat it came from and its text, if any. */
  datatype Msg = Msg(chatId: int, text: Option<string>)

  /** One Bot API update: a private message or a channel post. */
  datatype Update = Update(updateId: int, message: Option<Msg>, channelPost: Option<Msg>)

  /** A reply queued for a chat. */
  datatype Outgoing = Outgoing(chatId: int, reply: Reply)

  /** `update.message || update.channel_post`, kept only when it carries a
      non-empty text. */
  function TextOf(u: Update): (m: Option<Msg>)
    ensures m.Some? ==> m.value.text.Some? && m.value.text.value != ""
    ensures u.message.Some? ==> m.None? || m == u.message
    ensures u.message.None? ==> m.None? || m == u.channelPost
    ensures m.None? <==> var msg := if u.message.Some? then u.message else u.channelPost;
                         msg.None? || msg.value.text.None? || msg.value.text.value == ""
  {
    var msg := if u.message.Some? then u.message else u.channelPost;
    if msg.None? || msg.value.text.None? || msg.value.text.value == "" then None else msg
  }

  /** What a batch has done so far: the shared state, `offset` and the
      replies sent, in order. */
  datatype Progress = Progress(store: Store, offset: int, outbox: seq<Outgoing>)

  /** One turn of the poll loop for the update at position `i` of its batch:
      `offset` moves past the update first, then a text message is routed
      and answered in its chat; any other update is skipped. */
  function Step(p: Progress, u: Update, e: Env, fx: Formatters, toNumber: string -> Option<real>): (q: Progress)
    requires WellTyped(p.store.entries)
    ensures WellTyped(q.store.entries)
    ensures q.offset == u.updateId + 1
    ensures TextOf(u).None? ==> q == p.(offset := u.updateId + 1)
    ensures TextOf(u).Some? ==>
      var m := TextOf(u).value;
      var (s, reply) := Respond(p.store, Parse(m.text.value, toNumber), e, fx);
      q == Progress(s, u.updateId + 1, p.outbox + [Outgoing(m.chatId, reply)])
  {
    match TextOf(u)
    case None => p.(offset := u.updateId + 1)
    case Some(m) =>
      var (s, reply) := Respond(p.store, Parse(m.text.value, toNumber), e, fx);
      Progress(s, u.updateId + 1, p.outbox + [Outgoing(m.chatId, reply)])
  }

  /** The loop over a whole batch, update by update in order; `env(i)` is
      what the `i`-th routed message sees. */
  function Batch(p: Progress, updates: seq<Update>, env: nat -> Env, fx: Formatters,
                 toNumber: string -> Option<real>): (q: Progress)
    requires WellTyped(p.store.entries)
    ensures WellTyped(q.store.entries)
    decreases |updates|
  {
    if updates == [] then p
    else
      var n := |updates| - 1;
      Step(Batch(p, updates[..n], env, fx, toNumber), updates[n], env(n), fx, toNumber)
  }

  /** The chats of the updates that carry text, in order. */
  function TextChats(updates: seq<Update>): seq<int> {
    if updates == [] then []
    else
      var n := |updates| - 1;
      TextChats(updates[..n]) + (if TextOf(updates[n]).Some? then [TextOf(updates[n]).value.chatId] else [])
  }

  /** After a non-empty batch `offset` is one past the last update's id,
      skipped updates included; an empty batch leaves it alone. */
  lemma FinalOffset(p: Progress, updates: seq<Update>, env: nat -> Env, fx: Formatters,
                    toNumber: string -> Option<real>)
    requires WellTyped(p.store.entries)
    ensures updates == [] ==> Batch(p, updates, env, fx, toNumber).offset == p.offset
    ensures updates != [] ==> Batch(p, updates, env, fx, toNumber).offset == updates[|updates| - 1].updateId + 1
  {
  }

  /** Exactly one reply is sent per update that carries text, to that
      update's chat and in update order; nothing already sent changes. */
  lemma {:induction false} OneReplyPerTextMessage(p: Progress, updates: seq<Update>, env: nat -> Env,
                                                  fx: Formatters, toNumber: string -> Option<real>)
    requires WellTyped(p.store.entries)
    ensures var out := Batch(p, updates, env, fx, toNumber).outbox;
      && |out| == |p.outbox| + |TextChats(updates)|
      && out[..|p.outbox|] == p.outbox
      && forall i :: 0 <= i < |TextChats(updates)| ==> out[|p.outbox| + i].chatId == TextChats(updates)[i]
    decreases |updates|
  {
    if updates != [] {
      var n := |updates| - 1;
      OneReplyPerTextMessage(p, updates[..n], env, fx, toNumber);
    }
  }

  /** The listener's own state: the next update id to ask for. */
  class Listener {
    var offset: int

    constructor()
      ensures offset == 0
    {
      offset := 0;
    }

    /** One poll: a failed `getUpdates` call changes nothing; otherwise the
        loop of `startTelegramListener` over the batch, routing every text
        message in order through the shared limiter and cache. */
    method Poll(batch: Fetch<seq<Update>>, limiter: RateLimiter, cache: Cache<Value>, env: nat -> Env,
                fx: Formatters, toNumber: string -> Option<real>)
      returns (outbox: seq<Outgoing>)
      requires WellTyped(cache.entries)
      modifies this, limiter, cache
      ensures WellTyped(cache.entries)
      ensures batch.Raised? ==> outbox == [] && offset == old(offset)
                                && limiter.limits == old(limiter.limits) && cache.entries == old(cache.entries)
      ensures batch.Received? ==>
        Progress(Store(limiter.limits, cache.entries), offset, outbox)
        == Batch(Progress(Store(old(limiter.limits), old(cache.entries)), old(offset), []),
                 batch.body, env, fx, toNumber)
    {
      outbox := [];
      if batch.Raised? {
        return;
      }
      var updates := batch.body;
      ghost var start := Progress(Store(limiter.limits, cache.entries), offset, []);
      var i := 0;
      while i < |updates|
        invariant 0 <= i <= |updates|
        invariant WellTyped(cache.entries)
        invariant Progress(Store(limiter.limits, cache.entries), offset, outbox)
                  == Batch(start, updates[..i], env, fx, toNumber)
      {
        var u := updates[i];
        offset := u.updateId + 1;
        var m := TextOf(u);
        if m.Some? {
          var reply := Route(Parse(m.value.text.value, toNumber), limiter, cache, env(i), fx);
          outbox := outbox + [Outgoing(m.value.chatId, reply)];
        }
        assert updates[..i + 1][..i] == updates[..i];
        i := i + 1;
      }
      assert updates[..i] == updates;
    }
  }
}
