/**
 * What both message handlers share: the inbound event, the effects a handler
 * has on the outside world, the points where an awaited call can reject, the
 * `Bot` object through which effects happen, the rendering of history into
 * the AI context, and the fixed reply texts.
 */
module Runtime {
  import opened Wrappers
  import opened JsString
  import opened MessageStore
  import Ai

  /** `MAX_HISTORY`: how many recent records are asked for. */
  const MaxHistory: nat := 5
  /** `ERROR_MESSAGE`: the reply when anything in the handler throws. */
  const ErrorMessage := "⚠️ Ops! Tive um problema. Pode tentar novamente?"
  /** The reply when the AI yields nothing. */
  const Fallback := "🤖 Não consegui entender. Pode reformular?"

  /** An inbound WhatsApp message; a missing `from` or `body` is the empty string, which is falsy just the same. */
  datatype Event = Event(from: string, body: string, isStatus: bool)

  /**
   * One effect on the outside world, in the order it happened: a message
   * delivered through the WhatsApp client, a record written to the message
   * collection, or a prompt posted to the AI service.
   */
  datatype Effect = Sent(to: string, text: string) | Logged(record: Record) | Asked(prompt: string)

  /** The awaited calls that can reject (throw) inside a handler. */
  datatype Step =
    | Notify        // client.sendMessage inside the preprocessor
    | GetChat       // msg.getChat()
    | SaveUser      // saveMessage(from, 'user', ...)
    | FetchHistory  // getLastMessages(from, MAX_HISTORY)
    | FetchTopics   // getConversationTopics(from)
    | Typing        // simulateTyping(chat)
    | SendReply     // client.sendMessage(from, aiResponse)
    | SaveBot       // saveMessage(from, 'bot', ...)
    | SendError     // client.sendMessage(from, ERROR_MESSAGE) in the catch block

  /** How an async function ends: with a value, or by throwing. */
  datatype Outcome<T> = Returned(value: T) | Threw

  /** The effects of a piece of code and how it ended. */
  datatype Run<T> = Run(effects: seq<Effect>, outcome: Outcome<T>)

  /**
   * Everything a handler depends on besides the event and the message log:
   * which awaited calls reject; `recent(phone, limit, log)`, the records
   * `getLastMessages` returns (most recent first) when the log is `log`;
   * `topics(phone, log)`, what `getConversationTopics` returns; the AI service
   * (prompt to reply content, `None` for any failure); the random draws; and
   * the creation times of the user and bot records.
   */
  datatype Env = Env(
    fails: set<Step>,
    recent: (string, nat, seq<Record>) -> seq<Record>,
    topics: (string, seq<Record>) -> seq<string>,
    service: string -> Option<string>,
    draws: Ai.Draws,
    greeting: Ai.Index4,
    userAt: int,
    botAt: int)

  /** The guard `msg?.from && msg?.body && msg.from.endsWith('@c.us')`. */
  predicate Accepts(ev: Event) {
    ev.from != "" && ev.body != "" && EndsWith(ev.from, "@c.us")
  }

  /** The records written, in order. */
  function Records(effects: seq<Effect>): (r: seq<Record>)
    ensures |r| <= |effects|
  {
    if effects == [] then []
    else (if effects[0].Logged? then [effects[0].record] else []) + Records(effects[1..])
  }

  lemma {:induction false} RecordsAppend(a: seq<Effect>, b: seq<Effect>)
    ensures Records(a + b) == Records(a) + Records(b)
  {
    if a != [] {
      assert (a + b)[1..] == a[1..] + b;
      RecordsAppend(a[1..], b);
    } else {
      assert a + b == b;
    }
  }

  /** The number of prompts posted. */
  function Asks(effects: seq<Effect>): nat {
    if effects == [] then 0 else (if effects[0].Asked? then 1 else 0) + Asks(effects[1..])
  }

  lemma {:induction false} AsksAppend(a: seq<Effect>, b: seq<Effect>)
    ensures Asks(a + b) == Asks(a) + Asks(b)
  {
    if a != [] {
      assert (a + b)[1..] == a[1..] + b;
      AsksAppend(a[1..], b);
    } else {
      assert a + b == b;
    }
  }

  /** The speaker label of a history line: `role === 'user' ? 'Usuário' : 'Bot'`. */
  function Speaker(r: Record): string {
    if r.role == "user" then "Usuário" else "Bot"
  }

  function ContextLine(r: Record): string {
    Speaker(r) + ": " + r.content
  }

  function Reverse<T>(s: seq<T>): (r: seq<T>)
    ensures |r| == |s|
  {
    if s == [] then [] else Reverse(s[1..]) + [s[0]]
  }

  lemma {:induction false} ReverseAt<T>(s: seq<T>, i: int)
    requires 0 <= i < |s|
    ensures Reverse(s)[i] == s[|s| - 1 - i]
  {
    if i < |s| - 1 {
      ReverseAt(s[1..], i);
    }
  }

  function ContextLines(h: seq<Record>): (r: seq<string>)
    ensures |r| == |h|
  {
    seq(|h|, i requires 0 <= i < |h| => ContextLine(h[i]))
  }

  /** `history.reverse().map(...).join('\n')`. */
  function RenderContext(history: seq<Record>): string {
    Join("\n", ContextLines(Reverse(history)))
  }

  /**
   * The context reads oldest first: line `i` renders the record `i` places
   * from the end of the most-recent-first history.
   */
  lemma Chronological(history: seq<Record>)
    ensures RenderContext(history)
      == Join("\n", seq(|history|, i requires 0 <= i < |history| => ContextLine(history[|history| - 1 - i])))
  {
    var lines := ContextLines(Reverse(history));
    var expected := seq(|history|, i requires 0 <= i < |history| => ContextLine(history[|history| - 1 - i]));
    forall i | 0 <= i < |history|
      ensures lines[i] == expected[i]
    {
      ReverseAt(history, i);
    }
    assert lines == expected;
  }

  /** The newest record (first in the history) becomes the last line; no history renders as "". */
  lemma NewestLast(newest: Record, older: seq<Record>)
    ensures RenderContext([]) == ""
    ensures RenderContext([newest] + older)
      == if older == [] then ContextLine(newest) else RenderContext(older) + "\n" + ContextLine(newest)
  {
    var h := [newest] + older;
    assert h[1..] == older;
    assert ContextLines(Reverse(h)) == ContextLines(Reverse(older)) + [ContextLine(newest)];
    JoinSnoc("\n", ContextLines(Reverse(older)), ContextLine(newest));
  }

  /** Three records fetched newest first render oldest first, one per line. */
  lemma ThreeInOrder(r1: Record, r2: Record, r3: Record)
    ensures RenderContext([r3, r2, r1]) == ContextLine(r1) + "\n" + ContextLine(r2) + "\n" + ContextLine(r3)
  {
    NewestLast(r1, []);
    assert [r1] == [r1] + [];
    NewestLast(r2, [r1]);
    assert [r2, r1] == [r2] + [r1];
    NewestLast(r3, [r2, r1]);
    assert [r3, r2, r1] == [r3] + [r2, r1];
  }

  /** `history[0]?.sentiment || 'neutral'`. */
  function Sentiment(history: seq<Record>): (r: string)
    ensures r != ""
    ensures history == [] || history[0].sentiment.None? || history[0].sentiment == Some("") ==> r == "neutral"
    ensures history != [] && history[0].sentiment.Some? && history[0].sentiment.value != "" ==> r == history[0].sentiment.value
  {
    if history == [] then "neutral"
    else match history[0].sentiment
      case None => "neutral"
      case Some(s) => if s == "" then "neutral" else s
  }

  /** `aiResponse || fallback`: the AI text unless it is null or empty; never empty. */
  function ReplyText(ai: Option<string>): (r: string)
    ensures r != ""
    ensures ai.Some? && ai.value != "" ==> r == ai.value
    ensures ai.None? || ai.value == "" ==> r == Fallback
  {
    if ai.Some? && ai.value != "" then ai.value else Fallback
  }

  /** The catch block: try to send `ERROR_MESSAGE`, swallowing a failure to do so. */
  function Recover(ev: Event, env: Env): seq<Effect> {
    if SendError in env.fails then [] else [Sent(ev.from, ErrorMessage)]
  }

  function UserRecord(ev: Event, env: Env, text: string): Record {
    Record(ev.from, "user", text, None, env.userAt)
  }

  function BotRecord(ev: Event, env: Env, reply: string): Record {
    Record(ev.from, "bot", reply, None, env.botAt)
  }

  /** Send the reply, then save it as a bot record; either step may throw. */
  function Respond(ev: Event, env: Env, reply: string): Run<()> {
    if SendReply in env.fails then Run([], Threw)
    else if SaveBot in env.fails then Run([Sent(ev.from, reply)], Threw)
    else Run([Sent(ev.from, reply), Logged(BotRecord(ev, env, reply))], Returned(()))
  }

  /** The effects of `run`, followed by the catch block's when it threw. */
  function Finish<T>(ev: Event, env: Env, run: Run<T>): seq<Effect> {
    run.effects + if run.outcome.Threw? then Recover(ev, env) else []
  }

  /**
   * The bot's view of the outside world: the WhatsApp client, the message
   * collection and the AI service. `trace` is every effect so far, in order.
   */
  class Bot {
    const messages: MessageLog
    var trace: seq<Effect>

    constructor (messages: MessageLog)
      ensures this.messages == messages && trace == []
    {
      this.messages := messages;
      trace := [];
    }

    /** `client.sendMessage(to, text)`: delivered, or rejected when `fail`. */
    method SendMessage(to: string, text: string, fail: bool) returns (ok: bool)
      modifies this
      ensures ok == !fail
      ensures trace == old(trace) + if fail then [] else [Sent(to, text)]
    {
      ok := !fail;
      if ok {
        trace := trace + [Sent(to, text)];
      }
    }

    /** `saveMessage(phone, role, content)` at time `now`: appended, or rejected when `fail`. */
    method SaveMessage(phone: string, role: string, content: string, now: int, fail: bool) returns (ok: bool)
      modifies this, messages
      ensures ok == !fail
      ensures trace == old(trace) + if fail then [] else [Logged(Record(phone, role, content, None, now))]
      ensures messages.records == old(messages.records) + if fail then [] else [Record(phone, role, content, None, now)]
    {
      ok := !fail;
      if ok {
        messages.SaveMessage(phone, role, content, now);
        trace := trace + [Logged(Record(phone, role, content, None, now))];
      }
    }

    /** The AI request: the prompt is posted whatever comes back. */
    method Ask(prompt: string)
      modifies this
      ensures trace == old(trace) + [Asked(prompt)]
    {
      trace := trace + [Asked(prompt)];
    }

    /** The catch block of both handlers. */
    method Apologize(ev: Event, env: Env)
      modifies this
      ensures trace == old(trace) + Recover(ev, env)
    {
      var delivered := SendMessage(ev.from, ErrorMessage, SendError in env.fails);
    }

    /** `await client.sendMessage(from, aiResponse); await saveMessage(from, 'bot', aiResponse)`. */
    method Deliver(ev: Event, env: Env, reply: string) returns (ok: bool)
      modifies this, messages
      ensures ok == Respond(ev, env, reply).outcome.Returned?
      ensures trace == old(trace) + Respond(ev, env, reply).effects
      ensures messages.records == old(messages.records) + Records(Respond(ev, env, reply).effects)
    {
      ok := SendMessage(ev.from, reply, SendReply in env.fails);
      if ok {
        ok := SaveMessage(ev.from, "bot", reply, env.botAt, SaveBot in env.fails);
      }
    }
  }

  /** Every bot record in `e` is written right after the same text was sent to `to`. */
  ghost predicate SavedAfterSent(e: seq<Effect>, to: string) {
    forall i :: 0 <= i < |e| && e[i].Logged? && e[i].record.role == "bot" ==> 0 < i && e[i - 1] == Sent(to, e[i].record.content)
  }

  /** The records a handler may write: none, the user's text, or that and then one bot record. */
  ghost predicate Logs(records: seq<Record>, user: Record) {
    records == [] || records == [user] || (|records| == 2 && records[0] == user && records[1].role == "bot")
  }

  /** Putting the user's record first keeps every bot record right after its send. */
  lemma UserFirst(user: Record, a: seq<Effect>, to: string)
    requires user.role == "user" && SavedAfterSent(a, to)
    ensures SavedAfterSent([Logged(user)] + a, to)
  {
    var e := [Logged(user)] + a;
    forall i | 0 <= i < |e| && e[i].Logged? && e[i].record.role == "bot"
      ensures 0 < i && e[i - 1] == Sent(to, e[i].record.content)
    {
      assert e[i] == a[i - 1];
      assert 0 < i - 1;
      assert e[i - 1] == a[i - 2];
    }
  }

  /** The user's record followed by a conversation that writes at most one bot record, right after its send. */
  lemma LoggedThen(user: Record, a: seq<Effect>, to: string)
    requires user.role == "user" && Asks(a) <= 1 && SavedAfterSent(a, to)
    requires Records(a) == [] || (|Records(a)| == 1 && Records(a)[0].role == "bot")
    ensures Asks([Logged(user)] + a) <= 1
    ensures Logs(Records([Logged(user)] + a), user)
    ensures SavedAfterSent([Logged(user)] + a, to)
  {
    RecordsAppend([Logged(user)], a);
    AsksAppend([Logged(user)], a);
    UserFirst(user, a, to);
  }

  /** The user's record followed by the catch block: no prompt, the one user record, no bot record. */
  lemma LoggedThenRecover(user: Record, ev: Event, env: Env)
    requires user.role == "user"
    ensures Asks([Logged(user)] + Recover(ev, env)) == 0
    ensures Records([Logged(user)] + Recover(ev, env)) == [user]
    ensures SavedAfterSent([Logged(user)] + Recover(ev, env), ev.from)
  {
    RecordsAppend([Logged(user)], Recover(ev, env));
    AsksAppend([Logged(user)], Recover(ev, env));
  }

  /** Effects that are all messages sent: no prompt, no record, so no bot record out of place. */
  lemma SendsOnly(e: seq<Effect>, to: string)
    requires forall x :: x in e ==> x.Sent?
    ensures Asks(e) == 0 && Records(e) == [] && SavedAfterSent(e, to)
  {
    RecordsNone(e);
    AsksNone(e);
  }

  /** What follows the prompt: the reply's send and save, then the error reply if one of them threw. */
  lemma TailDiscipline(ev: Event, env: Env, tail: seq<Effect>)
    requires exists reply :: tail == Finish(ev, env, Respond(ev, env, reply))
    ensures Asks(tail) == 0
    ensures Records(tail) == [] || (|Records(tail)| == 1 && Records(tail)[0].role == "bot")
    ensures forall i :: 0 <= i < |tail| && tail[i].Logged? ==> tail[i].record.role == "bot" && 0 < i && tail[i - 1] == Sent(ev.from, tail[i].record.content)
  {
    var reply :| tail == Finish(ev, env, Respond(ev, env, reply));
    if SendReply in env.fails {
    } else if SaveBot in env.fails {
      RecordsAppend([Sent(ev.from, reply)], Recover(ev, env));
      AsksAppend([Sent(ev.from, reply)], Recover(ev, env));
    } else {
      assert tail == [Sent(ev.from, reply)] + [Logged(BotRecord(ev, env, reply))];
      RecordsAppend([Sent(ev.from, reply)], [Logged(BotRecord(ev, env, reply))]);
      AsksAppend([Sent(ev.from, reply)], [Logged(BotRecord(ev, env, reply))]);
    }
  }

  /**
   * The common tail of both handlers: post the prompt built from the user's
   * text, the context, the topics and the sentiment; reply with the AI text,
   * or the fallback when it gives nothing; send that reply and then save it.
   */
  function Converse(ev: Event, env: Env, text: string, context: string, topics: seq<string>, sentiment: string): seq<Effect> {
    var reply := ReplyText(Ai.GenerateAIResponse(env.service, env.draws, text, context, topics, sentiment));
    [Asked(Ai.Prompt(text, context, topics, sentiment))] + Finish(ev, env, Respond(ev, env, reply))
  }

  /** When sending and saving both succeed: the prompt, the reply sent, the reply saved. */
  lemma Conversed(ev: Event, env: Env, text: string, context: string, topics: seq<string>, sentiment: string)
    requires SendReply !in env.fails && SaveBot !in env.fails
    ensures var reply := ReplyText(Ai.GenerateAIResponse(env.service, env.draws, text, context, topics, sentiment));
      var e := Converse(ev, env, text, context, topics, sentiment);
      && |e| == 3
      && e[0] == Asked(Ai.Prompt(text, context, topics, sentiment))
      && e[1] == Sent(ev.from, reply)
      && e[2] == Logged(BotRecord(ev, env, reply))
  {
  }

  /** When the reply cannot be sent: the prompt, then the catch block, and nothing saved. */
  lemma ConverseUnsent(ev: Event, env: Env, text: string, context: string, topics: seq<string>, sentiment: string)
    requires SendReply in env.fails
    ensures var e := Converse(ev, env, text, context, topics, sentiment);
      |e| == 1 + |Recover(ev, env)| && e[0] == Asked(Ai.Prompt(text, context, topics, sentiment)) && e[1..] == Recover(ev, env)
  {
  }

  /** One prompt, first; then at most one record, a bot record written right after its text was sent. */
  lemma ConverseDiscipline(ev: Event, env: Env, text: string, context: string, topics: seq<string>, sentiment: string)
    ensures var e := Converse(ev, env, text, context, topics, sentiment);
      && e[0] == Asked(Ai.Prompt(text, context, topics, sentiment))
      && Asks(e) == 1
      && (Records(e) == [] || (|Records(e)| == 1 && Records(e)[0].role == "bot"))
      && SavedAfterSent(e, ev.from)
  {
    var e := Converse(ev, env, text, context, topics, sentiment);
    var tail := e[1..];
    assert e == [e[0]] + tail;
    RecordsAppend([e[0]], tail);
    AsksAppend([e[0]], tail);
    TailDiscipline(ev, env, tail);
    forall i | 0 <= i < |e| && e[i].Logged? && e[i].record.role == "bot"
      ensures 0 < i && e[i - 1] == Sent(ev.from, e[i].record.content)
    {
      assert i > 0;
      assert e[i] == tail[i - 1];
    }
  }

  /**
   * A conversation ends with the reply saved as a bot record when sending and
   * saving succeed, and with the catch block's error message when either fails.
   */
  lemma ConverseEnds(ev: Event, env: Env, text: string, context: string, topics: seq<string>, sentiment: string)
    ensures var e := Converse(ev, env, text, context, topics, sentiment);
      && (SendReply !in env.fails && SaveBot !in env.fails ==> e[|e| - 1].Logged? && e[|e| - 1].record.role == "bot")
      && (SendError !in env.fails && (SendReply in env.fails || SaveBot in env.fails) ==> e[|e| - 1] == Sent(ev.from, ErrorMessage))
  {
  }

  /** The effects end answered: nothing at all, or the reply saved as a bot record last, or the error message last. */
  ghost predicate EndsAnswered(e: seq<Effect>, to: string) {
    || e == []
    || (e[|e| - 1].Logged? && e[|e| - 1].record.role == "bot")
    || e[|e| - 1] == Sent(to, ErrorMessage)
  }

  /** Logging the user's text before a non-empty answered tail keeps it answered. */
  lemma LoggedThenAnswered(user: Record, r: seq<Effect>, to: string)
    requires r != [] && EndsAnswered(r, to)
    ensures EndsAnswered([Logged(user)] + r, to)
  {
    assert ([Logged(user)] + r)[|r|] == r[|r| - 1];
  }

  /** The user's record, then the prompt, whatever becomes of the reply. */
  lemma LoggedThenAsked(user: Record, ev: Event, env: Env, text: string, context: string, topics: seq<string>, sentiment: string)
    ensures var e := [Logged(user)] + Converse(ev, env, text, context, topics, sentiment);
      |e| >= 2 && e[0] == Logged(user) && e[1] == Asked(Ai.Prompt(text, context, topics, sentiment))
  {
  }

  /** The user's record, then a conversation whose reply was sent and saved. */
  lemma LoggedThenConversed(user: Record, ev: Event, env: Env, text: string, context: string, topics: seq<string>, sentiment: string)
    requires SendReply !in env.fails && SaveBot !in env.fails
    ensures var reply := ReplyText(Ai.GenerateAIResponse(env.service, env.draws, text, context, topics, sentiment));
      var e := [Logged(user)] + Converse(ev, env, text, context, topics, sentiment);
      && |e| == 4
      && e[0] == Logged(user)
      && e[1] == Asked(Ai.Prompt(text, context, topics, sentiment))
      && e[2] == Sent(ev.from, reply)
      && e[3] == Logged(BotRecord(ev, env, reply))
  {
    Conversed(ev, env, text, context, topics, sentiment);
  }

  /** The user's record, then a conversation whose reply could not be sent: the prompt and the catch block. */
  lemma LoggedThenUnsent(user: Record, ev: Event, env: Env, text: string, context: string, topics: seq<string>, sentiment: string)
    requires SendReply in env.fails && SendError !in env.fails
    ensures var e := [Logged(user)] + Converse(ev, env, text, context, topics, sentiment);
      |e| == 3 && e[0] == Logged(user) && e[1] == Asked(Ai.Prompt(text, context, topics, sentiment)) && e[2] == Sent(ev.from, ErrorMessage)
  {
    ConverseUnsent(ev, env, text, context, topics, sentiment);
  }

  /** `Converse` with its prompt and reply named. */
  lemma ConverseOf(ev: Event, env: Env, text: string, context: string, topics: seq<string>, sentiment: string, prompt: string, reply: string)
    requires prompt == Ai.Prompt(text, context, topics, sentiment)
    requires reply == ReplyText(Ai.GenerateAIResponse(env.service, env.draws, text, context, topics, sentiment))
    ensures Converse(ev, env, text, context, topics, sentiment) == [Asked(prompt)] + Finish(ev, env, Respond(ev, env, reply))
  {
  }

  /** Build the prompt, ask the AI, then send and save the reply, acting through `bot`. */
  method ConverseMessage(bot: Bot, ev: Event, env: Env, text: string, context: string, topics: seq<string>, sentiment: string)
    modifies bot, bot.messages
    ensures bot.trace == old(bot.trace) + Converse(ev, env, text, context, topics, sentiment)
    ensures bot.messages.records == old(bot.messages.records) + Records(Converse(ev, env, text, context, topics, sentiment))
  {
    var prompt := Ai.Prompt(text, context, topics, sentiment);
    var reply := ReplyText(Ai.GenerateAIResponse(env.service, env.draws, text, context, topics, sentiment));
    ConverseOf(ev, env, text, context, topics, sentiment, prompt, reply);
    AskAndReply(bot, ev, env, prompt, reply);
  }

  /** Post the prompt, then send and save the reply; the catch block runs if either of those throws. */
  method AskAndReply(bot: Bot, ev: Event, env: Env, prompt: string, reply: string)
    modifies bot, bot.messages
    ensures bot.trace == old(bot.trace) + ([Asked(prompt)] + Finish(ev, env, Respond(ev, env, reply)))
    ensures bot.messages.records == old(bot.messages.records) + Records([Asked(prompt)] + Finish(ev, env, Respond(ev, env, reply)))
  {
    ghost var asked := old(bot.trace) + [Asked(prompt)];
    bot.Ask(prompt);
    var delivered := bot.Deliver(ev, env, reply);
    ghost var run := Respond(ev, env, reply);
    RecordsAppend([Asked(prompt)], Finish(ev, env, run));
    RecordsAppend(run.effects, if delivered then [] else Recover(ev, env));
    if !delivered {
      bot.Apologize(ev, env);
      Regroup(asked, run.effects, Recover(ev, env));
    } else {
      assert run.effects + [] == run.effects;
    }
    assert bot.trace == asked + Finish(ev, env, run);
    Regroup(old(bot.trace), [Asked(prompt)], Finish(ev, env, run));
  }

  /** Effects that are all messages sent post no prompt. */
  lemma {:induction false} AsksNone(e: seq<Effect>)
    requires forall x :: x in e ==> x.Sent?
    ensures Asks(e) == 0
  {
    if e != [] {
      assert e[0] in e;
      assert forall x :: x in e[1..] ==> x in e;
      AsksNone(e[1..]);
    }
  }

  /** Effects that are all messages sent write no record. */
  lemma {:induction false} RecordsNone(e: seq<Effect>)
    requires forall x :: x in e ==> x.Sent?
    ensures Records(e) == []
  {
    if e != [] {
      assert e[0] in e;
      assert forall x :: x in e[1..] ==> x in e;
      RecordsNone(e[1..]);
    }
  }
}
