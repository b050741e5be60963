/**
 * `handleMessage` of handlers/messageHandler.js: guard, preprocessor,
 * save the user's text, then fetch history and topics, ask the AI, send the
 * reply and save it; any exception is answered with `ERROR_MESSAGE`.
 */
module Handler {
  import opened Wrappers
  import opened JsString
  import opened MessageStore
  import opened Runtime
  import Middleware
  import Ai

  /** What follows once the preprocessor let the message through. */
  function Proceed(ev: Event, env: Env, log: seq<Record>): seq<Effect> {
    if GetChat in env.fails then Recover(ev, env)
    else
      var text := Trim(ev.body);
      if text == "" then []
      else if SaveUser in env.fails then Recover(ev, env)
      else
        var user := UserRecord(ev, env, text);
        if FetchHistory in env.fails || FetchTopics in env.fails || Typing in env.fails then
          [Logged(user)] + Recover(ev, env)
        else
          [Logged(user)] + Answer(ev, env, text, env.recent(ev.from, MaxHistory, log + [user]), env.topics(ev.from, log + [user]))
  }

  /** Context and sentiment from the history, then the AI request and the reply. */
  function Answer(ev: Event, env: Env, text: string, history: seq<Record>, topics: seq<string>): seq<Effect> {
    Converse(ev, env, text, RenderContext(history), topics, Sentiment(history))
  }

  /** The effects of `handleMessage(client, msg)` on a message log `log`, in order. */
  function Handle(ev: Event, env: Env, log: seq<Record>): seq<Effect> {
    if !Accepts(ev) then []
    else
      var pre := Middleware.Preprocess(ev, env, log);
      if pre.outcome.Threw? then pre.effects + Recover(ev, env)
      else if !pre.outcome.value then pre.effects
      else Proceed(ev, env, log)
  }

  /** An event without sender or text, or not from a `@c.us` contact, has no effect at all. */
  lemma IgnoresInvalid(ev: Event, env: Env, log: seq<Record>)
    requires !Accepts(ev)
    ensures Handle(ev, env, log) == []
  {
  }

  /**
   * When the preprocessor deals with a message, nothing is logged and the AI
   * is not asked: at most the preprocessor's one message is sent.
   */
  lemma PreprocessedNotLogged(ev: Event, env: Env, log: seq<Record>)
    requires Accepts(ev) && Middleware.Preprocess(ev, env, log).outcome == Returned(false)
    ensures var e := Handle(ev, env, log);
      && |e| <= 1 && Records(e) == [] && Asks(e) == 0
      && forall x :: x in e ==> x.Sent? && x.to == ev.from
  {
    Middleware.PreprocessShape(ev, env, log);
    var e := Handle(ev, env, log);
    if |e| == 1 {
      assert e == [e[0]] && e[0].Sent?;
      assert Records(e) == [] + Records([]);
    }
  }

  /** A body of white space alone produces no log entry and no reply (once the chat is available). */
  lemma BlankIsSilent(ev: Event, env: Env, log: seq<Record>)
    requires Accepts(ev) && AllSpace(ev.body) && GetChat !in env.fails
    ensures Handle(ev, env, log) == []
  {
    Middleware.BlankPassesThrough(ev, env, log);
  }

  /**
   * The normal path: the user's trimmed text is saved first, so the history
   * is read from a log that already holds it; the sentiment is that of the
   * newest history record; the AI is asked once; the reply (AI text or the
   * fallback) is sent and then saved as the one bot record.
   */
  lemma NormalPath(ev: Event, env: Env, log: seq<Record>)
    requires Accepts(ev) && Middleware.Preprocess(ev, env, log).outcome == Returned(true)
    requires Trim(ev.body) != ""
    requires env.fails !! {GetChat, SaveUser, FetchHistory, FetchTopics, Typing, SendReply, SaveBot}
    ensures var text := Trim(ev.body);
      var user := Record(ev.from, "user", text, None, env.userAt);
      var history := env.recent(ev.from, MaxHistory, log + [user]);
      var topics := env.topics(ev.from, log + [user]);
      var context := RenderContext(history);
      var sentiment := Sentiment(history);
      var reply := ReplyText(Ai.GenerateAIResponse(env.service, env.draws, text, context, topics, sentiment));
      var e := Handle(ev, env, log);
      && |e| == 4
      && e[0] == Logged(user)
      && e[1] == Asked(Ai.Prompt(text, context, topics, sentiment))
      && e[2] == Sent(ev.from, reply)
      && e[3] == Logged(Record(ev.from, "bot", reply, None, env.botAt))
  {
    Passes(ev, env, log);
    var text := Trim(ev.body);
    var user := UserRecord(ev, env, text);
    var history := env.recent(ev.from, MaxHistory, log + [user]);
    var topics := env.topics(ev.from, log + [user]);
    Proceeds(ev, env, log);
    LoggedThenConversed(user, ev, env, text, RenderContext(history), topics, Sentiment(history));
  }

  /** The effects once the user's text is in `log`: an apology when a fetch or typing fails, the answer otherwise. */
  function Reply(ev: Event, env: Env, text: string, log: seq<Record>): seq<Effect> {
    if FetchHistory in env.fails || FetchTopics in env.fails || Typing in env.fails then Recover(ev, env)
    else Answer(ev, env, text, env.recent(ev.from, MaxHistory, log), env.topics(ev.from, log))
  }

  lemma ProceedSaved(ev: Event, env: Env, log: seq<Record>)
    requires Trim(ev.body) != "" && GetChat !in env.fails && SaveUser !in env.fails
    ensures var user := UserRecord(ev, env, Trim(ev.body));
      Proceed(ev, env, log) == [Logged(user)] + Reply(ev, env, Trim(ev.body), log + [user])
  {
  }

  /** The paths of `Proceed` that end before the AI is asked. */
  lemma ProceedStops(ev: Event, env: Env, log: seq<Record>)
    ensures GetChat in env.fails ==> Proceed(ev, env, log) == Recover(ev, env)
    ensures GetChat !in env.fails && Trim(ev.body) == "" ==> Proceed(ev, env, log) == []
    ensures GetChat !in env.fails && Trim(ev.body) != "" && SaveUser in env.fails ==> Proceed(ev, env, log) == Recover(ev, env)
    ensures GetChat !in env.fails && Trim(ev.body) != "" && SaveUser !in env.fails
      && (FetchHistory in env.fails || FetchTopics in env.fails || Typing in env.fails)
      ==> Proceed(ev, env, log) == [Logged(UserRecord(ev, env, Trim(ev.body)))] + Recover(ev, env)
  {
  }

  lemma Proceeds(ev: Event, env: Env, log: seq<Record>)
    requires Trim(ev.body) != ""
    requires GetChat !in env.fails && SaveUser !in env.fails && FetchHistory !in env.fails
    requires FetchTopics !in env.fails && Typing !in env.fails
    ensures var user := UserRecord(ev, env, Trim(ev.body));
      Proceed(ev, env, log)
        == [Logged(user)] + Answer(ev, env, Trim(ev.body), env.recent(ev.from, MaxHistory, log + [user]), env.topics(ev.from, log + [user]))
  {
  }

  lemma Passes(ev: Event, env: Env, log: seq<Record>)
    requires Accepts(ev) && Middleware.Preprocess(ev, env, log).outcome == Returned(true)
    ensures Handle(ev, env, log) == Proceed(ev, env, log)
  {
  }

  /** A failure to send the reply is answered by the error message; nothing more is logged. */
  lemma FailedReplyApologizes(ev: Event, env: Env, log: seq<Record>)
    requires Accepts(ev) && Middleware.Preprocess(ev, env, log).outcome == Returned(true)
    requires Trim(ev.body) != ""
    requires env.fails !! {GetChat, SaveUser, FetchHistory, FetchTopics, Typing}
    requires SendReply in env.fails && SendError !in env.fails
    ensures var e := Handle(ev, env, log);
      |e| == 3 && e[0] == Logged(UserRecord(ev, env, Trim(ev.body))) && e[1].Asked? && e[2] == Sent(ev.from, ErrorMessage)
  {
    Passes(ev, env, log);
    var text := Trim(ev.body);
    var user := UserRecord(ev, env, text);
    Proceeds(ev, env, log);
    var history := env.recent(ev.from, MaxHistory, log + [user]);
    LoggedThenUnsent(user, ev, env, text, RenderContext(history), env.topics(ev.from, log + [user]), Sentiment(history));
  }

  /**
   * Every accepted message is answered, unless the error message itself
   * cannot be sent: the effects are nothing (a dropped message or a blank
   * body), the preprocessor's one message, or they end with the reply saved
   * as a bot record or with the catch block's `ERROR_MESSAGE`.
   */
  lemma EveryPathAnswered(ev: Event, env: Env, log: seq<Record>)
    requires Accepts(ev) && SendError !in env.fails
    ensures var e := Handle(ev, env, log);
      || e == []
      || (|e| == 1 && e[0].Sent? && e[0].to == ev.from)
      || (e[|e| - 1].Logged? && e[|e| - 1].record.role == "bot")
      || e[|e| - 1] == Sent(ev.from, ErrorMessage)
  {
    var pre := Middleware.Preprocess(ev, env, log);
    if pre.outcome.Threw? {
      var e := pre.effects + Recover(ev, env);
      assert Handle(ev, env, log) == e;
      assert e[|e| - 1] == Sent(ev.from, ErrorMessage);
    } else if !pre.outcome.value {
      Middleware.PreprocessShape(ev, env, log);
      assert Handle(ev, env, log) == pre.effects;
    } else {
      Passes(ev, env, log);
      ProceedAnswered(ev, env, log);
    }
  }

  /** Once past the preprocessor: nothing, or the saved reply last, or the error message last. */
  lemma ProceedAnswered(ev: Event, env: Env, log: seq<Record>)
    requires SendError !in env.fails
    ensures EndsAnswered(Proceed(ev, env, log), ev.from)
  {
    var text := Trim(ev.body);
    if GetChat in env.fails || text == "" || SaveUser in env.fails {
      ProceedStops(ev, env, log);
    } else {
      var user := UserRecord(ev, env, text);
      var r := Reply(ev, env, text, log + [user]);
      ProceedSaved(ev, env, log);
      ReplyEnds(ev, env, text, log + [user]);
      LoggedThenAnswered(user, r, ev.from);
    }
  }

  /** Once the user's text is saved, the handler ends with the saved reply or, after a failure, with the error message. */
  lemma ReplyEnds(ev: Event, env: Env, text: string, log: seq<Record>)
    ensures var r := Reply(ev, env, text, log);
      && (SendError !in env.fails ==> r != [] && EndsAnswered(r, ev.from))
      && (env.fails == {} ==> r != [] && r[|r| - 1].Logged? && r[|r| - 1].record.role == "bot")
  {
    if !(FetchHistory in env.fails || FetchTopics in env.fails || Typing in env.fails) {
      var history := env.recent(ev.from, MaxHistory, log);
      ConverseEnds(ev, env, text, RenderContext(history), env.topics(ev.from, log), Sentiment(history));
    }
  }

  /**
   * The catch block runs only when a step fails: with no failing step, and
   * leaving aside `/reset` (which always throws), the preprocessor does not
   * throw, a message it deals with has only its own effects, and a message it
   * lets through has no effect or ends with the reply saved as a bot record.
   */
  lemma CatchOnlyOnFailure(ev: Event, env: Env, log: seq<Record>)
    requires Accepts(ev) && env.fails == {}
    requires !(Middleware.IsCommand(ev.body) && Middleware.CommandToken(ev.body) == "reset")
    ensures var pre := Middleware.Preprocess(ev, env, log);
      var e := Handle(ev, env, log);
      && pre.outcome.Returned?
      && (pre.outcome == Returned(false) ==> e == pre.effects)
      && (pre.outcome == Returned(true) ==> e == [] || (e[|e| - 1].Logged? && e[|e| - 1].record.role == "bot"))
  {
    var pre := Middleware.Preprocess(ev, env, log);
    if pre.outcome == Returned(true) {
      Passes(ev, env, log);
      ProceedQuiet(ev, env, log);
    }
  }

  /** With no failing step, what follows the preprocessor has no effect or ends with the saved reply. */
  lemma ProceedQuiet(ev: Event, env: Env, log: seq<Record>)
    requires env.fails == {}
    ensures var e := Proceed(ev, env, log);
      e == [] || (e[|e| - 1].Logged? && e[|e| - 1].record.role == "bot")
  {
    var text := Trim(ev.body);
    if text != "" {
      var user := UserRecord(ev, env, text);
      var r := Reply(ev, env, text, log + [user]);
      ProceedSaved(ev, env, log);
      ReplyEnds(ev, env, text, log + [user]);
      assert ([Logged(user)] + r)[|r|] == r[|r| - 1];
    }
  }

  /** `/reset` refers to an undeclared `Message`, so it always ends in the catch block. */
  lemma ResetApologizes(ev: Event, env: Env, log: seq<Record>)
    requires Accepts(ev) && !Contains(ev.from, "@g.us") && !ev.isStatus
    requires Middleware.IsCommand(ev.body) && Middleware.CommandToken(ev.body) == "reset"
    ensures Handle(ev, env, log) == Recover(ev, env)
  {
  }

  /**
   * On every path: at most one prompt; the records written are none, the
   * user's trimmed text alone, or that and then one bot record; and a bot
   * record is written right after the same text was sent to the sender.
   */
  lemma LogDiscipline(ev: Event, env: Env, log: seq<Record>)
    ensures var e := Handle(ev, env, log);
      && Asks(e) <= 1
      && Logs(Records(e), UserRecord(ev, env, Trim(ev.body)))
      && SavedAfterSent(e, ev.from)
  {
    if !Accepts(ev) {
    } else if Middleware.Preprocess(ev, env, log).outcome != Returned(true) {
      PreprocessedDiscipline(ev, env, log);
    } else {
      Passes(ev, env, log);
      ProceedDiscipline(ev, env, log);
    }
  }

  lemma PreprocessedDiscipline(ev: Event, env: Env, log: seq<Record>)
    requires Accepts(ev) && Middleware.Preprocess(ev, env, log).outcome != Returned(true)
    ensures var e := Handle(ev, env, log);
      && Asks(e) == 0 && Records(e) == [] && SavedAfterSent(e, ev.from)
  {
    var pre := Middleware.Preprocess(ev, env, log);
    Middleware.PreprocessSends(ev, env, log);
    var e := if pre.outcome.Threw? then pre.effects + Recover(ev, env) else pre.effects;
    assert forall x :: x in e ==> x.Sent?;
    SendsOnly(e, ev.from);
    assert Handle(ev, env, log) == e;
  }

  lemma ProceedDiscipline(ev: Event, env: Env, log: seq<Record>)
    ensures var e := Proceed(ev, env, log);
      && Asks(e) <= 1
      && Logs(Records(e), UserRecord(ev, env, Trim(ev.body)))
      && SavedAfterSent(e, ev.from)
  {
    var text := Trim(ev.body);
    if GetChat in env.fails || text == "" || SaveUser in env.fails {
      UnloggedDiscipline(ev, env, log);
    } else if FetchHistory in env.fails || FetchTopics in env.fails || Typing in env.fails {
      UnansweredDiscipline(ev, env, log);
    } else {
      AnsweredDiscipline(ev, env, log);
    }
  }

  lemma UnloggedDiscipline(ev: Event, env: Env, log: seq<Record>)
    requires GetChat in env.fails || Trim(ev.body) == "" || SaveUser in env.fails
    ensures var e := Proceed(ev, env, log);
      && Asks(e) == 0 && Records(e) == [] && SavedAfterSent(e, ev.from)
  {
    var e := Proceed(ev, env, log);
    assert forall x :: x in e ==> x.Sent?;
    RecordsNone(e);
    AsksNone(e);
  }

  lemma UnansweredDiscipline(ev: Event, env: Env, log: seq<Record>)
    requires Trim(ev.body) != "" && GetChat !in env.fails && SaveUser !in env.fails
    requires FetchHistory in env.fails || FetchTopics in env.fails || Typing in env.fails
    ensures var e := Proceed(ev, env, log);
      && Asks(e) == 0 && Records(e) == [UserRecord(ev, env, Trim(ev.body))] && SavedAfterSent(e, ev.from)
  {
    LoggedThenRecover(UserRecord(ev, env, Trim(ev.body)), ev, env);
    ProceedSaved(ev, env, log);
  }

  lemma AnsweredDiscipline(ev: Event, env: Env, log: seq<Record>)
    requires Trim(ev.body) != ""
    requires GetChat !in env.fails && SaveUser !in env.fails && FetchHistory !in env.fails
    requires FetchTopics !in env.fails && Typing !in env.fails
    ensures var e := Proceed(ev, env, log);
      && Asks(e) <= 1
      && Logs(Records(e), UserRecord(ev, env, Trim(ev.body)))
      && SavedAfterSent(e, ev.from)
  {
    var text := Trim(ev.body);
    var user := UserRecord(ev, env, text);
    var history := env.recent(ev.from, MaxHistory, log + [user]);
    var topics := env.topics(ev.from, log + [user]);
    ConverseDiscipline(ev, env, text, RenderContext(history), topics, Sentiment(history));
    LoggedThen(user, Answer(ev, env, text, history, topics), ev.from);
    Proceeds(ev, env, log);
  }

  /** `handleMessage(client, msg)`, acting through `bot`. */
  method HandleMessage(bot: Bot, ev: Event, env: Env)
    modifies bot, bot.messages
    ensures bot.trace == old(bot.trace) + Handle(ev, env, old(bot.messages.records))
    ensures bot.messages.records == old(bot.messages.records) + Records(Handle(ev, env, old(bot.messages.records)))
  {
    if !Accepts(ev) {
      return;
    }
    ghost var log := bot.messages.records;
    var pre := Middleware.MessagePreprocessor(bot, ev, env);
    ghost var effects := Middleware.Preprocess(ev, env, log).effects;
    Middleware.PreprocessShape(ev, env, log);
    RecordsNone(effects);
    if pre.Threw? {
      assert Handle(ev, env, log) == effects + Recover(ev, env);
      RecordsAppend(effects, Recover(ev, env));
      bot.Apologize(ev, env);
      Regroup(old(bot.trace), effects, Recover(ev, env));
      return;
    }
    if !pre.value {
      assert Handle(ev, env, log) == effects;
      return;
    }
    assert bot.trace == old(bot.trace);
    Passes(ev, env, log);
    ProceedMessage(bot, ev, env);
  }

  /** The body of `handleMessage` after the preprocessor let the message through. */
  method ProceedMessage(bot: Bot, ev: Event, env: Env)
    modifies bot, bot.messages
    ensures bot.trace == old(bot.trace) + Proceed(ev, env, old(bot.messages.records))
    ensures bot.messages.records == old(bot.messages.records) + Records(Proceed(ev, env, old(bot.messages.records)))
  {
    ghost var log := bot.messages.records;
    ProceedStops(ev, env, log);
    if GetChat in env.fails {
      bot.Apologize(ev, env);
      return;
    }
    var text := Trim(ev.body);
    if text == "" {
      return;
    }
    var saved := bot.SaveMessage(ev.from, "user", text, env.userAt, SaveUser in env.fails);
    if !saved {
      assert bot.trace == old(bot.trace) && bot.messages.records == log;
      assert Proceed(ev, env, log) == Recover(ev, env);
      bot.Apologize(ev, env);
      return;
    }
    var user := UserRecord(ev, env, text);
    assert bot.trace == old(bot.trace) + [Logged(user)] && bot.messages.records == log + [user];
    ghost var a := Reply(ev, env, text, log + [user]);
    ProceedSaved(ev, env, log);
    RecordsAppend([Logged(user)], a);
    ReplySaved(bot, ev, env, text);
    Regroup(old(bot.trace), [Logged(user)], a);
    Regroup(log, [user], Records(a));
  }

  /**
   * What `handleMessage` does once the user's text is saved to `log`: fetch
   * the history and the topics, type, ask, then send and save the reply.
   */
  method ReplySaved(bot: Bot, ev: Event, env: Env, text: string)
    modifies bot, bot.messages
    ensures bot.trace == old(bot.trace) + Reply(ev, env, text, old(bot.messages.records))
    ensures bot.messages.records == old(bot.messages.records) + Records(Reply(ev, env, text, old(bot.messages.records)))
  {
    if FetchHistory in env.fails || FetchTopics in env.fails || Typing in env.fails {
      RecordsNone(Recover(ev, env));
      bot.Apologize(ev, env);
      return;
    }
    var history := env.recent(ev.from, MaxHistory, bot.messages.records);
    var topics := env.topics(ev.from, bot.messages.records);
    ConverseMessage(bot, ev, env, text, RenderContext(history), topics, Sentiment(history));
  }
}
