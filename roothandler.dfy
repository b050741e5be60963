/**
 * `handleMessage` of the top-level messageHandler.js, the second handler: no
 * preprocessor; the history is fetched (and a failure to fetch it is
 * swallowed) before the user's text is saved; the AI is asked with the
 * context alone, so topics and sentiment take their defaults.
 */
module RootHandler {
  import opened Wrappers
  import opened JsString
  import opened MessageStore
  import opened Runtime
  import Ai

  /** `getLastMessages(from, MAX_HISTORY).catch(() => [])`, on the log as it is before the save. */
  function History(ev: Event, env: Env, log: seq<Record>): seq<Record> {
    if FetchHistory in env.fails then [] else env.recent(ev.from, MaxHistory, log)
  }

  /** The effects of `handleMessage(client, msg)` on a message log `log`, in order. */
  function Handle(ev: Event, env: Env, log: seq<Record>): seq<Effect> {
    if !Accepts(ev) then []
    else if GetChat in env.fails then Recover(ev, env)
    else
      var text := Trim(ev.body);
      if text == "" then []
      else if SaveUser in env.fails then Recover(ev, env)
      else if Typing in env.fails then [Logged(UserRecord(ev, env, text))] + Recover(ev, env)
      else [Logged(UserRecord(ev, env, text))] + Converse(ev, env, text, RenderContext(History(ev, env, log)), [], "neutral")
  }

  /** An event without sender or text, or not from a `@c.us` contact, has no effect at all. */
  lemma IgnoresInvalid(ev: Event, env: Env, log: seq<Record>)
    requires !Accepts(ev)
    ensures Handle(ev, env, log) == []
  {
  }

  /** A body of white space alone produces no log entry and no reply (once the chat is available). */
  lemma BlankIsSilent(ev: Event, env: Env, log: seq<Record>)
    requires Accepts(ev) && AllSpace(ev.body) && GetChat !in env.fails
    ensures Handle(ev, env, log) == []
  {
  }

  /**
   * The normal path: the history is read from the log as it was before the
   * user's text is saved, so it never holds this message; the prompt has no
   * topics and a neutral mood; the reply (AI text or the fallback) is sent
   * and then saved as the one bot record.
   */
  lemma NormalPath(ev: Event, env: Env, log: seq<Record>)
    requires Accepts(ev) && Trim(ev.body) != ""
    requires env.fails !! {GetChat, FetchHistory, SaveUser, Typing, SendReply, SaveBot}
    ensures var text := Trim(ev.body);
      var context := RenderContext(env.recent(ev.from, MaxHistory, log));
      var reply := ReplyText(Ai.GenerateAIResponse(env.service, env.draws, text, context, [], "neutral"));
      var e := Handle(ev, env, log);
      && |e| == 4
      && e[0] == Logged(Record(ev.from, "user", text, None, env.userAt))
      && e[1] == Asked(Ai.Prompt(text, context, [], "neutral"))
      && e[2] == Sent(ev.from, reply)
      && e[3] == Logged(Record(ev.from, "bot", reply, None, env.botAt))
  {
    var text := Trim(ev.body);
    var context := RenderContext(env.recent(ev.from, MaxHistory, log));
    Answers(ev, env, log);
    LoggedThenConversed(UserRecord(ev, env, text), ev, env, text, context, [], "neutral");
  }

  /**
   * A failure to fetch the history is not an error: the message is still
   * saved and answered, with an empty context.
   */
  lemma LostHistoryIsEmptyContext(ev: Event, env: Env, log: seq<Record>)
    requires Accepts(ev) && Trim(ev.body) != ""
    requires FetchHistory in env.fails
    requires env.fails !! {GetChat, SaveUser, Typing}
    ensures var e := Handle(ev, env, log);
      && |e| >= 2
      && e[0] == Logged(UserRecord(ev, env, Trim(ev.body)))
      && e[1] == Asked(Ai.Prompt(Trim(ev.body), "", [], "neutral"))
  {
    Answers(ev, env, log);
    assert RenderContext(History(ev, env, log)) == "";
    LoggedThenAsked(UserRecord(ev, env, Trim(ev.body)), ev, env, Trim(ev.body), "", [], "neutral");
  }

  /** With the history in hand, the handler always goes on to ask the AI, whatever the history holds. */
  lemma Answers(ev: Event, env: Env, log: seq<Record>)
    requires Accepts(ev) && Trim(ev.body) != ""
    requires GetChat !in env.fails && SaveUser !in env.fails && Typing !in env.fails
    ensures Handle(ev, env, log)
      == [Logged(UserRecord(ev, env, Trim(ev.body)))] + Converse(ev, env, Trim(ev.body), RenderContext(History(ev, env, log)), [], "neutral")
  {
  }

  /**
   * Every accepted message is answered, unless the error message itself
   * cannot be sent: the effects are nothing (a blank body), or they end with
   * the reply saved as a bot record or with the catch block's `ERROR_MESSAGE`.
   */
  lemma EveryPathAnswered(ev: Event, env: Env, log: seq<Record>)
    requires Accepts(ev) && SendError !in env.fails
    ensures var e := Handle(ev, env, log);
      || e == []
      || (e[|e| - 1].Logged? && e[|e| - 1].record.role == "bot")
      || e[|e| - 1] == Sent(ev.from, ErrorMessage)
  {
    Stops(ev, env, log);
    if GetChat !in env.fails && Trim(ev.body) != "" && SaveUser !in env.fails && Typing !in env.fails {
      Answers(ev, env, log);
      ConverseEnds(ev, env, Trim(ev.body), RenderContext(History(ev, env, log)), [], "neutral");
    }
  }

  /** The catch block runs only when a step fails: with no failing step, a message has no effect or ends with the reply saved. */
  lemma CatchOnlyOnFailure(ev: Event, env: Env, log: seq<Record>)
    requires Accepts(ev) && env.fails == {}
    ensures var e := Handle(ev, env, log);
      e == [] || (e[|e| - 1].Logged? && e[|e| - 1].record.role == "bot")
  {
    if Trim(ev.body) != "" {
      Answers(ev, env, log);
      ConverseEnds(ev, env, Trim(ev.body), RenderContext(History(ev, env, log)), [], "neutral");
    }
  }

  /**
   * On every path: at most one prompt; the records written are none, the
   * user's trimmed text alone, or that and then one bot record; and a bot
   * record is written right after the same text was sent to the sender.
   */
  lemma LogDiscipline(ev: Event, env: Env, log: seq<Record>)
    ensures var e := Handle(ev, env, log);
      && Asks(e) <= 1
      && Logs(Records(e), UserRecord(ev, env, Trim(ev.body)))
      && SavedAfterSent(e, ev.from)
  {
    if !Accepts(ev) || GetChat in env.fails || Trim(ev.body) == "" || SaveUser in env.fails {
      UnloggedDiscipline(ev, env, log);
    } else if Typing in env.fails {
      UnansweredDiscipline(ev, env, log);
    } else {
      AnsweredDiscipline(ev, env, log);
    }
  }

  lemma UnloggedDiscipline(ev: Event, env: Env, log: seq<Record>)
    requires !Accepts(ev) || GetChat in env.fails || Trim(ev.body) == "" || SaveUser in env.fails
    ensures var e := Handle(ev, env, log);
      && Asks(e) == 0 && Records(e) == [] && SavedAfterSent(e, ev.from)
  {
    var e := Handle(ev, env, log);
    assert forall x :: x in e ==> x.Sent?;
    RecordsNone(e);
    AsksNone(e);
  }

  lemma UnansweredDiscipline(ev: Event, env: Env, log: seq<Record>)
    requires Accepts(ev) && Trim(ev.body) != "" && GetChat !in env.fails && SaveUser !in env.fails && Typing in env.fails
    ensures var e := Handle(ev, env, log);
      && Asks(e) == 0 && Records(e) == [UserRecord(ev, env, Trim(ev.body))] && SavedAfterSent(e, ev.from)
  {
    LoggedThenRecover(UserRecord(ev, env, Trim(ev.body)), ev, env);
    Saved(ev, env, log);
  }

  lemma AnsweredDiscipline(ev: Event, env: Env, log: seq<Record>)
    requires Accepts(ev) && Trim(ev.body) != ""
    requires GetChat !in env.fails && SaveUser !in env.fails && Typing !in env.fails
    ensures var e := Handle(ev, env, log);
      && Asks(e) == 1
      && Logs(Records(e), UserRecord(ev, env, Trim(ev.body)))
      && SavedAfterSent(e, ev.from)
  {
    var user := UserRecord(ev, env, Trim(ev.body));
    var context := RenderContext(History(ev, env, log));
    ConverseDiscipline(ev, env, Trim(ev.body), context, [], "neutral");
    LoggedThen(user, Converse(ev, env, Trim(ev.body), context, [], "neutral"), ev.from);
    Answers(ev, env, log);
  }

  /** The paths of `Handle` that end before the user's text is saved. */
  lemma Stops(ev: Event, env: Env, log: seq<Record>)
    requires Accepts(ev)
    ensures GetChat in env.fails ==> Handle(ev, env, log) == Recover(ev, env)
    ensures GetChat !in env.fails && Trim(ev.body) == "" ==> Handle(ev, env, log) == []
    ensures GetChat !in env.fails && Trim(ev.body) != "" && SaveUser in env.fails ==> Handle(ev, env, log) == Recover(ev, env)
  {
  }

  /** The effects after the user's text is saved: an apology when typing fails, the conversation otherwise. */
  lemma Saved(ev: Event, env: Env, log: seq<Record>)
    requires Accepts(ev) && Trim(ev.body) != "" && GetChat !in env.fails && SaveUser !in env.fails
    ensures Handle(ev, env, log) == [Logged(UserRecord(ev, env, Trim(ev.body)))]
      + (if Typing in env.fails then Recover(ev, env)
         else Converse(ev, env, Trim(ev.body), RenderContext(History(ev, env, log)), [], "neutral"))
  {
  }

  /** `handleMessage(client, msg)`, acting through `bot`. */
  method HandleMessage(bot: Bot, ev: Event, env: Env)
    modifies bot, bot.messages
    ensures bot.trace == old(bot.trace) + Handle(ev, env, old(bot.messages.records))
    ensures bot.messages.records == old(bot.messages.records) + Records(Handle(ev, env, old(bot.messages.records)))
  {
    if !Accepts(ev) {
      return;
    }
    ghost var log := bot.messages.records;
    Stops(ev, env, log);
    RecordsNone(Recover(ev, env));
    if GetChat in env.fails {
      bot.Apologize(ev, env);
      return;
    }
    var text := Trim(ev.body);
    if text == "" {
      return;
    }
    var history := if FetchHistory in env.fails then [] else env.recent(ev.from, MaxHistory, bot.messages.records);
    var saved := bot.SaveMessage(ev.from, "user", text, env.userAt, SaveUser in env.fails);
    if !saved {
      assert bot.trace == old(bot.trace) && bot.messages.records == log;
      bot.Apologize(ev, env);
      return;
    }
    var user := UserRecord(ev, env, text);
    assert bot.trace == old(bot.trace) + [Logged(user)] && bot.messages.records == log + [user];
    ghost var a := if Typing in env.fails then Recover(ev, env) else Converse(ev, env, text, RenderContext(history), [], "neutral");
    Saved(ev, env, log);
    RecordsAppend([Logged(user)], a);
    ReplySaved(bot, ev, env, text, RenderContext(history));
    Regroup(old(bot.trace), [Logged(user)], a);
    Regroup(log, [user], Records(a));
  }

  /** What `handleMessage` does once the user's text is saved: type, ask, send and save the reply. */
  method ReplySaved(bot: Bot, ev: Event, env: Env, text: string, context: string)
    modifies bot, bot.messages
    ensures var a := if Typing in env.fails then Recover(ev, env) else Converse(ev, env, text, context, [], "neutral");
      && bot.trace == old(bot.trace) + a
      && bot.messages.records == old(bot.messages.records) + Records(a)
  {
    if Typing in env.fails {
      RecordsNone(Recover(ev, env));
      bot.Apologize(ev, env);
      return;
    }
    ConverseMessage(bot, ev, env, text, context, [], "neutral");
  }
}
