/**
 * The inbound preprocessor of middlewares/middlewares.js: drops group and
 * status traffic, answers `/` commands, answers greetings, and lets every
 * other message through to the handler.
 */
module Middleware {
  import opened Wrappers
  import opened JsString
  import opened MessageStore
  import opened Runtime
  import Ai

  /** The alternatives of the greeting regular expression. */
  const GreetingPatterns := ["oi", "olá", "ola", "eae", "bom dia", "boa tarde", "boa noite"]
  /** The alternatives of the thanks regular expression. */
  const ThanksPatterns := ["obrigad", "obrigado", "valeu", "agradeço"]
  const Greetings := ["Oi! Como vai? 😊", "Olá! Tudo bem por aí?", "E aí! Bom te ver por aqui!", "Oi! Pronto pra bater um papo?"]
  const HelpText := "📌 Comandos disponíveis:\n" + "/ajuda - Mostra esta ajuda\n"
    + "/topicos - Mostra tópicos que conversamos\n" + "/reset - Reinicia nossa conversa"
  const TopicsHeader := "📚 Tópicos que conversamos:\n"
  const NoTopicsYet := "Ainda não identificamos tópicos específicos"
  const UnknownCommand := "⚠️ Comando não reconhecido. Use /ajuda para ver os comandos disponíveis."

  datatype Intent = Saudacao | Agradecimento | Outro

  /** `isCommand(message)`: the raw, untrimmed text starts with a slash. */
  function IsCommand(message: string): (r: bool)
    ensures r <==> |message| > 0 && message[0] == '/'
  {
    StartsWith(message, "/")
  }

  /** Some alternative of the pattern list occurs in `text`. */
  predicate MatchesAny(text: string, patterns: seq<string>) {
    exists i :: 0 <= i < |patterns| && Contains(text, patterns[i])
  }

  /**
   * `detectIntent(message)`: on the lowercased text, a greeting when any
   * greeting alternative occurs; otherwise thanks when any thanks alternative
   * occurs; otherwise "outro". Greeting wins when both occur.
   */
  function DetectIntent(message: string): (r: Intent)
    ensures r == Saudacao <==> MatchesAny(Lower(message), GreetingPatterns)
    ensures r == Agradecimento <==> !MatchesAny(Lower(message), GreetingPatterns) && MatchesAny(Lower(message), ThanksPatterns)
    ensures r == Outro <==> !MatchesAny(Lower(message), GreetingPatterns) && !MatchesAny(Lower(message), ThanksPatterns)
  {
    var lower := Lower(message);
    if MatchesAny(lower, GreetingPatterns) then Saudacao
    else if MatchesAny(lower, ThanksPatterns) then Agradecimento
    else Outro
  }

  /** No pattern made of white space alone can occur in white space. */
  lemma NoMatchInSpace(text: string, patterns: seq<string>)
    requires AllSpace(text)
    requires forall i :: 0 <= i < |patterns| ==> patterns[i] != [] && !IsSpace(patterns[i][0])
    ensures !MatchesAny(text, patterns)
  {
    forall i, k | 0 <= i < |patterns| && 0 <= k <= |text| - |patterns[i]|
      ensures !OccursAt(text, patterns[i], k)
    {
      assert text[k..k + |patterns[i]|][0] == text[k];
    }
  }

  /** Text that is all white space is neither a greeting nor thanks. */
  lemma BlankIsOther(message: string)
    requires AllSpace(message)
    ensures DetectIntent(message) == Outro
  {
    var lower := Lower(message);
    assert forall i :: 0 <= i < |message| ==> lower[i] == message[i];
    NoMatchInSpace(lower, GreetingPatterns);
    NoMatchInSpace(lower, ThanksPatterns);
  }

  /** Any text holding "bom dia" is a greeting, even when it also thanks. */
  lemma GreetingWins(message: string)
    requires Contains(Lower(message), "bom dia")
    ensures DetectIntent(message) == Saudacao
  {
    assert GreetingPatterns[4] == "bom dia";
  }

  /** `getGreetingVariation()` with its draw made explicit: one of the four fixed greetings. */
  function GreetingVariation(i: Ai.Index4): (r: string)
    ensures r in Greetings
  {
    Greetings[i]
  }

  /**
   * The command token: `body.split(' ')[0].substring(1).toLowerCase()`, the
   * first space-separated word without its first character, lowercased.
   */
  function CommandToken(body: string): (r: string)
    ensures |r| <= |body|
    ensures forall i :: 0 <= i < |r| ==> r[i] != ' '
  {
    var word := FirstWord(body);
    var token := DropFirst(word);
    assert forall i :: 0 <= i < |token| ==> token[i] == word[i + 1];
    Lower(token)
  }

  /** The token is the first word less its slash, lowercased, whatever follows the first space. */
  lemma CommandTokenIsFirstWord(word: string, rest: string)
    requires |word| > 0 && forall i :: 0 <= i < |word| ==> word[i] != ' '
    ensures CommandToken(word + " " + rest) == Lower(word[1..])
  {
    var body := word + " " + rest;
    var first := FirstWord(body);
    assert forall i :: 0 <= i < |word| ==> body[i] == word[i];
    assert body[|word|] == ' ';
    assert forall i :: 0 <= i < |first| ==> first[i] == body[i];
    assert |first| == |word|;
    assert first == word;
  }

  /** A command word with nothing after it: the token is the word less its slash, lowercased. */
  lemma CommandTokenOfBareWord(word: string)
    requires |word| > 0 && forall i :: 0 <= i < |word| ==> word[i] != ' '
    ensures CommandToken(word) == Lower(word[1..])
  {
    assert |FirstWord(word)| == |word|;
    assert FirstWord(word) == word;
  }

  /** `/ajuda` alone gives the token `ajuda`. */
  lemma CommandTokenOfAjuda()
    ensures CommandToken("/ajuda") == "ajuda"
  {
    CommandTokenOfBareWord("/ajuda");
    assert "/ajuda"[1..] == "ajuda";
  }

  /** `/AJUDA agora` gives the token `ajuda`. */
  lemma CommandTokenOfWord()
    ensures CommandToken("/AJUDA" + " " + "agora") == "ajuda"
  {
    CommandTokenIsFirstWord("/AJUDA", "agora");
    var lower := Lower("/AJUDA"[1..]);
    assert LowerChar('A') == 'a' by { assert 'A' as int + 32 == 'a' as int; }
    assert LowerChar('J') == 'j' by { assert 'J' as int + 32 == 'j' as int; }
    assert LowerChar('U') == 'u' by { assert 'U' as int + 32 == 'u' as int; }
    assert LowerChar('D') == 'd' by { assert 'D' as int + 32 == 'd' as int; }
    assert lower[0] == 'a' && lower[1] == 'j' && lower[2] == 'u' && lower[3] == 'd' && lower[4] == 'a';
  }

  /** A bare slash gives the empty token. */
  lemma CommandTokenOfSlash()
    ensures CommandToken("/") == ""
  {
    assert FirstWord("/") == "/" by {
      assert FirstWord("/"[1..]) == [];
    }
  }

  /** The `/topicos` reply: the topics joined by ", ", or a fixed sentence when that join is empty. */
  function TopicsReply(topics: seq<string>): (r: string)
    ensures StartsWith(r, TopicsHeader)
    ensures Join(", ", topics) == "" ==> r == TopicsHeader + NoTopicsYet
    ensures Join(", ", topics) != "" ==> r == TopicsHeader + Join(", ", topics)
  {
    var joined := Join(", ", topics);
    TopicsHeader + (if joined == "" then NoTopicsYet else joined)
  }

  /** `await client.sendMessage(msg.from, text)` inside the preprocessor. */
  function Say(ev: Event, env: Env, text: string): Run<()> {
    if Notify in env.fails then Run([], Threw) else Run([Sent(ev.from, text)], Returned(()))
  }

  /**
   * `handleCommand(client, msg)` on a message log `log`. The `reset` branch
   * refers to `Message`, which middlewares/middlewares.js never declares, so
   * it throws before sending anything.
   */
  function Command(ev: Event, env: Env, log: seq<Record>): Run<()> {
    var token := CommandToken(ev.body);
    if token == "ajuda" then Say(ev, env, HelpText)
    else if token == "topicos" then
      if FetchTopics in env.fails then Run([], Threw) else Say(ev, env, TopicsReply(env.topics(ev.from, log)))
    else if token == "reset" then Run([], Threw)
    else Say(ev, env, UnknownCommand)
  }

  /**
   * `messagePreprocessor(client, msg)`: `Returned(true)` lets the message
   * through to the handler; `Returned(false)` means it was dealt with here.
   */
  function Preprocess(ev: Event, env: Env, log: seq<Record>): Run<bool> {
    if Contains(ev.from, "@g.us") || ev.isStatus then Run([], Returned(false))
    else if IsCommand(ev.body) then
      var c := Command(ev, env, log);
      Run(c.effects, if c.outcome.Threw? then Threw else Returned(false))
    else if DetectIntent(ev.body) == Saudacao then
      if Notify in env.fails then Run([], Threw) else Run([Sent(ev.from, GreetingVariation(env.greeting))], Returned(false))
    else Run([], Returned(true))
  }

  /**
   * Each command sends at most one message, to the sender: the help text for
   * `ajuda`, the fixed "not recognised" reply for any other unknown token
   * (the empty one of a bare `/` included), and nothing for `reset`.
   */
  lemma CommandDispatch(ev: Event, env: Env, log: seq<Record>)
    ensures var c := Command(ev, env, log);
      && |c.effects| <= 1
      && (forall e :: e in c.effects ==> e.Sent? && e.to == ev.from)
      && (c.outcome.Returned? <==> |c.effects| == 1)
      && (Notify !in env.fails && CommandToken(ev.body) == "ajuda" ==> c.effects == [Sent(ev.from, HelpText)])
      && (Notify !in env.fails && CommandToken(ev.body) !in {"ajuda", "topicos", "reset"}
          ==> c.effects == [Sent(ev.from, UnknownCommand)])
      && (CommandToken(ev.body) == "reset" ==> c == Run([], Threw))
  {
  }

  /** A bare `/` is an unrecognised command. */
  lemma BareSlashIsUnknown(from: string, isStatus: bool, env: Env, log: seq<Record>)
    requires Notify !in env.fails
    ensures Command(Event(from, "/", isStatus), env, log).effects == [Sent(from, UnknownCommand)]
  {
    CommandTokenOfSlash();
  }

  /** Group (`@g.us`) and status traffic is dropped before anything else, with no effect. */
  lemma DropsGroupAndStatus(ev: Event, env: Env, log: seq<Record>)
    requires Contains(ev.from, "@g.us") || ev.isStatus
    ensures Preprocess(ev, env, log) == Run([], Returned(false))
  {
  }

  /** A command is handled and never let through; greeting detection does not run on it. */
  lemma CommandsStopHere(ev: Event, env: Env, log: seq<Record>)
    requires !Contains(ev.from, "@g.us") && !ev.isStatus && IsCommand(ev.body)
    ensures Preprocess(ev, env, log).effects == Command(ev, env, log).effects
    ensures Preprocess(ev, env, log).outcome != Returned(true)
  {
  }

  /** A greeting gets exactly one of the four greetings back and is not let through. */
  lemma GreetingAnswered(ev: Event, env: Env, log: seq<Record>)
    requires !Contains(ev.from, "@g.us") && !ev.isStatus && !IsCommand(ev.body)
    requires DetectIntent(ev.body) == Saudacao && Notify !in env.fails
    ensures var r := Preprocess(ev, env, log);
      r.outcome == Returned(false) && |r.effects| == 1 && r.effects[0].to == ev.from && r.effects[0].text in Greetings
  {
  }

  /**
   * Whatever the input, the preprocessor sends at most one message and logs
   * nothing; it lets a message through exactly when the message is not
   * dropped, not a command and not a greeting, and then it sends nothing.
   */
  lemma PreprocessShape(ev: Event, env: Env, log: seq<Record>)
    ensures var r := Preprocess(ev, env, log);
      && |r.effects| <= 1
      && (forall e :: e in r.effects ==> e.Sent? && e.to == ev.from)
      && (r.outcome == Returned(true) <==>
           !Contains(ev.from, "@g.us") && !ev.isStatus && !IsCommand(ev.body) && DetectIntent(ev.body) != Saudacao)
      && (r.outcome == Returned(true) ==> r.effects == [])
  {
    CommandDispatch(ev, env, log);
  }

  /** The preprocessor's only effects are messages sent. */
  lemma PreprocessSends(ev: Event, env: Env, log: seq<Record>)
    ensures forall x :: x in Preprocess(ev, env, log).effects ==> x.Sent?
  {
    PreprocessShape(ev, env, log);
  }

  /** A body of white space alone is let through untouched unless it is group or status traffic. */
  lemma BlankPassesThrough(ev: Event, env: Env, log: seq<Record>)
    requires ev.body != [] && AllSpace(ev.body)
    ensures Preprocess(ev, env, log).effects == []
    ensures Preprocess(ev, env, log).outcome.Returned?
  {
    BlankIsOther(ev.body);
  }

  /** `handleCommand(client, msg)`, sending through `bot`. */
  method HandleCommand(bot: Bot, ev: Event, env: Env) returns (r: Outcome<()>)
    modifies bot
    ensures r == Command(ev, env, old(bot.messages.records)).outcome
    ensures bot.trace == old(bot.trace) + Command(ev, env, old(bot.messages.records)).effects
  {
    var token := CommandToken(ev.body);
    var text := "";
    if token == "ajuda" {
      text := HelpText;
    } else if token == "topicos" {
      if FetchTopics in env.fails {
        return Threw;
      }
      text := TopicsReply(env.topics(ev.from, bot.messages.records));
    } else if token == "reset" {
      return Threw;
    } else {
      text := UnknownCommand;
    }
    var ok := bot.SendMessage(ev.from, text, Notify in env.fails);
    r := if ok then Returned(()) else Threw;
  }

  /** `messagePreprocessor(client, msg)`, sending through `bot`. */
  method MessagePreprocessor(bot: Bot, ev: Event, env: Env) returns (r: Outcome<bool>)
    modifies bot
    ensures r == Preprocess(ev, env, old(bot.messages.records)).outcome
    ensures bot.trace == old(bot.trace) + Preprocess(ev, env, old(bot.messages.records)).effects
  {
    if Contains(ev.from, "@g.us") || ev.isStatus {
      return Returned(false);
    }
    if IsCommand(ev.body) {
      var c := HandleCommand(bot, ev, env);
      return if c.Threw? then Threw else Returned(false);
    }
    if DetectIntent(ev.body) == Saudacao {
      var ok := bot.SendMessage(ev.from, GreetingVariation(env.greeting), Notify in env.fails);
      return if ok then Returned(false) else Threw;
    }
    return Returned(true);
  }
}
