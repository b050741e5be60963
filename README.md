# Moreira Bot message pipeline, modelled in Dafny

Moreira Bot is a WhatsApp chatbot. Each inbound message goes through the
same pipeline:

- **Preprocessor.** The inbound preprocessor drops group and status
  traffic. It answers `/` commands and greetings itself and lets every other
  message through.
- **Handler.** The handler checks the event, trims the text and saves it to
  the message log. It reads recent history, renders that history as a
  chronological `Usuário:` / `Bot:` context, and asks an AI service for a
  reply. If the AI gives nothing, it uses a fixed fallback. It sends the reply
  and then saves it. If anything throws, it sends a fixed error message.
- **Two handler variants.** `handlers/messageHandler.js` saves first and then
  reads history and topics. The top-level `messageHandler.js` reads history
  first, treats a failed read as empty history, and passes neither topics nor
  sentiment.
- **Services.** Beside the pipeline sit:
  - the AI prompt builder and its random reply tweaks;
  - a menu service over a `MenuItem` collection;
  - a per-phone session store;
  - the append-only message log;
  - a named-configuration lookup.

## How it is modelled

**Effects.** Every side effect is an `Effect` appended to `Bot.trace`:

- `Sent(to, text)`: a WhatsApp message;
- `Logged(record)`: a record written to the message collection;
- `Asked(prompt)`: the prompt posted to the AI.

The message collection itself is `MessageLog.records`.

**Methods and specification functions.** Each handler, the preprocessor and
the command dispatcher is an imperative module-level method that acts
through a `bot: Bot` parameter, as the source's functions act through
`client` and the stores. Each is proved
equal to a pure specification function of the event, the environment and
the log as it was before the call: `Handler.Handle`, `RootHandler.Handle`,
`Middleware.Preprocess` and `Middleware.Command`. The properties are lemmas
about those functions.

**The environment (`Runtime.Env`).** Everything outside the pipeline is an
input:

- `fails`: which awaited call rejects (`Runtime.Step`);
- what `getLastMessages` and `getConversationTopics` return for a given log;
- the AI service, a function from prompt to `Option<string>`, where `None` is any failure;
- the random draws;
- the record creation times.

The menu and session collections are `map`s keyed by their unique field. The
configuration collection is a `seq` scanned in natural order.

## Model

| member | source | states |
|---|---|---|
| Middleware.IsCommand | middlewares/middlewares.js:3-5 | true exactly when the raw, untrimmed body is non-empty and starts with `/` |
| Middleware.DetectIntent | middlewares/middlewares.js:24-29 | greeting iff a greeting pattern occurs in the lowercased text; thanks iff no greeting but a thanks pattern occurs; "outro" iff neither |
| Middleware.GreetingWins | middlewares/middlewares.js:26-27 | text containing "bom dia" is a greeting even if it also thanks |
| Middleware.BlankIsOther | middlewares/middlewares.js:24-29 | text of white space alone is neither greeting nor thanks |
| Middleware.GreetingVariation | middlewares/middlewares.js:31-39 | the greeting sent is one of the four fixed greetings, whatever the draw |
| Middleware.CommandToken | middlewares/middlewares.js:42 | the token is no longer than the body and contains no space; its value is given by the two lemmas below |
| JsString.FirstWord | middlewares/middlewares.js:42 | `split(' ')[0]`: a space-free prefix of the body that covers it or stops right before a space |
| Middleware.CommandTokenIsFirstWord | middlewares/middlewares.js:42 | for any space-free first word and any rest, the token is that word without its first character, lowercased |
| Middleware.CommandTokenOfBareWord | middlewares/middlewares.js:42 | for a space-free body such as `/ajuda`, the token is the body without its first character, lowercased |
| Middleware.CommandTokenOfAjuda | middlewares/middlewares.js:42 | `/ajuda` alone gives the token `ajuda` |
| Middleware.CommandTokenOfWord | middlewares/middlewares.js:42 | `/AJUDA agora` gives the token `ajuda` |
| Middleware.CommandTokenOfSlash | middlewares/middlewares.js:42 | a bare `/` gives the empty token |
| Middleware.TopicsReply | middlewares/middlewares.js:53-56 | the `/topicos` reply is the header then the comma-joined topics, or the fixed "no topics yet" sentence when the join is empty |
| Middleware.Command | middlewares/middlewares.js:41-67 | specification of `handleCommand` on a given log: its effects and whether it throws; its properties are `CommandDispatch` and `BareSlashIsUnknown` |
| Middleware.CommandDispatch | middlewares/middlewares.js:41-66 | at most one message, to the sender; the command succeeds iff it sent one; `ajuda` sends the help text; an unknown token sends the "not recognised" reply; `reset` throws with no effect |
| Middleware.BareSlashIsUnknown | middlewares/middlewares.js:41-66 | a bare `/` gets the "not recognised" reply |
| Middleware.DropsGroupAndStatus | middlewares/middlewares.js:8 | group (`@g.us`) or status traffic returns false with no effect at all |
| Middleware.CommandsStopHere | middlewares/middlewares.js:10-13 | a command has exactly the command's effects and is never let through, so greeting detection does not run |
| Middleware.GreetingAnswered | middlewares/middlewares.js:16-19 | a greeting gets exactly one message, to the sender, drawn from the fixed greetings, and returns false |
| Middleware.PreprocessShape | middlewares/middlewares.js:7-22 | at most one message, to the sender; let through iff not dropped, not a command and not a greeting, and then nothing is sent |
| Middleware.PreprocessSends | middlewares/middlewares.js:7-22 | the preprocessor's only effects are messages sent |
| Middleware.BlankPassesThrough | middlewares/middlewares.js:7-22 | a non-empty body of white space alone sends nothing and never throws in the preprocessor |
| Middleware.Preprocess | middlewares/middlewares.js:7-22 | specification of `messagePreprocessor`: its effects and its outcome (let through, handled, or thrown); its properties are the lemmas above |
| Middleware.HandleCommand | middlewares/middlewares.js:41-67 | the method's outcome and the messages it sends are those of `Command` on the log before the call |
| Middleware.MessagePreprocessor | middlewares/middlewares.js:7-22 | the method's outcome and the messages it sends are those of `Preprocess` on the log before the call |
| Handler.IgnoresInvalid | handlers/messageHandler.js:12 | an event without sender or body, or not from `@c.us`, has no effect |
| Handler.Handle | handlers/messageHandler.js:11-56 | specification of `handleMessage`: the effects, in order, on a given log; its properties are the lemmas of this module |
| Handler.Proceed | handlers/messageHandler.js:22-55 | specification of the part of `handleMessage` after the preprocessor lets a message through |
| Handler.Passes | handlers/messageHandler.js:18-20 | a message the preprocessor lets through has exactly the effects of the rest of the handler |
| Handler.ProceedStops | handlers/messageHandler.js:22-40 | a failed `getChat` or user save gives only the catch block; a blank body gives nothing; a failed fetch or typing step gives the user record then the catch block |
| Handler.Proceeds | handlers/messageHandler.js:27-46 | with every step before the AI call succeeding: the user record, then the conversation built from history and topics read after the save |
| Handler.ProceedSaved | handlers/messageHandler.js:27-40 | once the user record is saved, the rest reads the log that holds it |
| Handler.Reply | handlers/messageHandler.js:30-55 | specification of what follows the user save: the catch block when a fetch or typing fails, otherwise the conversation; its properties are `ReplyEnds` and the disciplines |
| Handler.PreprocessedNotLogged | handlers/messageHandler.js:18-20 | when the preprocessor returns false: at most one message, to the sender, no record, no prompt |
| Handler.BlankIsSilent | handlers/messageHandler.js:22-24 | a body of white space alone produces no record and no reply |
| Handler.NormalPath | handlers/messageHandler.js:22-46 | when nothing fails there are exactly four effects: the trimmed user record; the prompt built from history and topics read from the log *with* that record, with the newest record's sentiment; the reply sent; the same reply saved as the bot record |
| Handler.FailedReplyApologizes | handlers/messageHandler.js:45-55 | a reply that cannot be sent gives the user record, the prompt, then the error message, and nothing more is logged |
| Handler.EveryPathAnswered | handlers/messageHandler.js:11-56 | unless the error message itself cannot be sent, every accepted message ends with nothing, the preprocessor's one message, the reply saved as a bot record, or `ERROR_MESSAGE` |
| Handler.CatchOnlyOnFailure | handlers/messageHandler.js:48-55 | with no failing step and no `/reset`, the preprocessor does not throw and the handler never ends in the catch block: a handled message has only the preprocessor's effects, a passed one nothing or the saved reply |
| Handler.ProceedAnswered | handlers/messageHandler.js:22-55 | past the preprocessor, unless the error message cannot be sent: nothing, or the saved reply last, or `ERROR_MESSAGE` last |
| Handler.ReplyEnds | handlers/messageHandler.js:30-55 | after the user save: never empty; it ends with the saved reply or `ERROR_MESSAGE` when that can be sent, and with the saved reply when nothing fails |
| Handler.ProceedQuiet | handlers/messageHandler.js:22-46 | past the preprocessor with no failing step: no effect, or the saved reply last |
| Handler.ResetApologizes | middlewares/middlewares.js:59-62 | `/reset` always throws, so its only effect is the catch block's `ERROR_MESSAGE` |
| Handler.LogDiscipline | handlers/messageHandler.js:11-56 | on every path: at most one prompt; the records written are none, the user record, or the user record then one bot record; every bot record directly follows the sending of the same text to the sender |
| Handler.PreprocessedDiscipline | handlers/messageHandler.js:18-20 | a message the preprocessor deals with (or that throws there) writes no record and posts no prompt |
| Handler.ProceedDiscipline | handlers/messageHandler.js:22-55 | the discipline above for the part after the preprocessor |
| Handler.UnloggedDiscipline | handlers/messageHandler.js:22-27 | a failed `getChat`, a blank body or a failed user save writes no record and posts no prompt |
| Handler.UnansweredDiscipline | handlers/messageHandler.js:27-40 | a failure fetching history or topics, or while typing, leaves exactly the user record and no prompt |
| Handler.AnsweredDiscipline | handlers/messageHandler.js:27-46 | once the AI is reached: one prompt, the user record, then at most one bot record written right after its send |
| Handler.HandleMessage | handlers/messageHandler.js:11-56 | the method's trace and log growth are exactly `Handle` on the log before the call |
| Handler.ProceedMessage | handlers/messageHandler.js:22-55 | the method's trace and log growth are exactly `Proceed` on the log before the call |
| Handler.ReplySaved | handlers/messageHandler.js:30-46 | once the user record is saved, the trace and log grow by the apology or by the conversation read from the log now holding it |
| RootHandler.IgnoresInvalid | messageHandler.js:13-16 | an invalid event has no effect |
| RootHandler.Handle | messageHandler.js:11-54 | specification of `handleMessage`: the effects, in order, on a given log; its properties are the lemmas of this module |
| RootHandler.History | messageHandler.js:28 | specification of `getLastMessages(...).catch(() => [])` on the log before the save; its property is `LostHistoryIsEmptyContext` |
| RootHandler.Stops | messageHandler.js:20-35 | a failed `getChat` or user save gives only the catch block; a blank body gives nothing |
| RootHandler.Saved | messageHandler.js:35-44 | after the user save: the catch block when typing fails, otherwise the conversation with the history read before the save |
| RootHandler.Answers | messageHandler.js:28-44 | whatever the history holds or whether its fetch failed, a saved message goes on to the AI |
| RootHandler.BlankIsSilent | messageHandler.js:21-25 | a blank body produces no record and no reply |
| RootHandler.NormalPath | messageHandler.js:28-44 | when nothing fails: the user record; the prompt from the history read from the log *before* that record, with no topics and a neutral mood; the reply sent; the reply saved as the bot record |
| RootHandler.LostHistoryIsEmptyContext | messageHandler.js:28 | a rejected history fetch is not an error: the message is still saved and the prompt has an empty context |
| RootHandler.EveryPathAnswered | messageHandler.js:11-54 | unless the error message itself cannot be sent, every accepted message ends with nothing, the reply saved as a bot record, or `ERROR_MESSAGE` |
| RootHandler.CatchOnlyOnFailure | messageHandler.js:46-53 | with no failing step a message has no effect or ends with the saved reply: the catch block never runs |
| RootHandler.LogDiscipline | messageHandler.js:11-54 | on every path: at most one prompt; records none, user, or user then bot; each bot record right after its send |
| RootHandler.UnloggedDiscipline | messageHandler.js:21-35 | a failed `getChat`, a blank body or a failed user save writes no record and posts no prompt |
| RootHandler.UnansweredDiscipline | messageHandler.js:35-38 | a failure while typing leaves exactly the user record and no prompt |
| RootHandler.AnsweredDiscipline | messageHandler.js:35-44 | once the AI is reached: one prompt, the user record, then at most one bot record written right after its send |
| RootHandler.HandleMessage | messageHandler.js:11-54 | the method's trace and log growth are exactly `Handle` on the log before the call |
| RootHandler.ReplySaved | messageHandler.js:37-53 | after the save, the trace and log grow by the apology when typing fails, or by the conversation |
| Runtime.Sentiment | handlers/messageHandler.js:32 | never empty; "neutral" for no history or a missing or empty sentiment, else the newest record's sentiment |
| Runtime.ReplyText | handlers/messageHandler.js:41-42 | never empty; the AI text when it is non-empty, otherwise exactly the fallback |
| Runtime.RenderContext | handlers/messageHandler.js:34-37 | specification of the context string; its properties are `Chronological`, `NewestLast` and `ThreeInOrder` |
| Runtime.Chronological | handlers/messageHandler.js:34-37 | context line `i` renders the record `i` places from the end of the newest-first history |
| Runtime.NewestLast | handlers/messageHandler.js:34-37 | no history renders as ""; the newest record becomes the last line, after a newline |
| Runtime.ThreeInOrder | messageHandler.js:29-32 | three records fetched newest first render oldest first, one per line |
| Runtime.Converse | handlers/messageHandler.js:40-55 | specification of the common tail of both handlers: prompt, reply, send, save, catch block; its properties are the lemmas below |
| Runtime.Recover | handlers/messageHandler.js:48-55 | specification of the catch block: `ERROR_MESSAGE` to the sender, or nothing when that send fails; its properties are `Bot.Apologize` and `ConverseEnds` |
| Runtime.Conversed | handlers/messageHandler.js:41-46 | when send and save succeed: the prompt, the reply sent to the sender, the same reply saved as the bot record |
| Runtime.ConverseUnsent | handlers/messageHandler.js:45-55 | when the send fails: the prompt, then exactly the catch block's effects |
| Runtime.ConverseDiscipline | handlers/messageHandler.js:41-55 | the prompt comes first and once; at most one record, a bot record right after its send |
| Runtime.TailDiscipline | handlers/messageHandler.js:45-55 | after the prompt there is no further prompt, and any record is a bot record directly after its send |
| Runtime.ConverseEnds | handlers/messageHandler.js:41-55 | a conversation ends with the bot record when send and save succeed, and with `ERROR_MESSAGE` when either fails and the error can be sent |
| Runtime.ConverseMessage | handlers/messageHandler.js:40-46 | the method's trace and log growth are exactly `Converse` |
| Runtime.AskAndReply | handlers/messageHandler.js:41-55 | the prompt is posted, then the reply is sent and saved, and the catch block runs iff one of those threw |
| Runtime.Bot.SendMessage | handlers/messageHandler.js:45 | delivered iff not rejected; the trace gains exactly that message |
| Runtime.Bot.SaveMessage | handlers/messageHandler.js:27 | saved iff not rejected; the trace and the log gain exactly that record |
| Runtime.Bot.Deliver | handlers/messageHandler.js:45-46 | sends then saves the reply; the saving happens only after a successful send |
| Runtime.Bot.Ask | services/ai.js:33-47 | the prompt is posted exactly once, whatever the service answers |
| Runtime.Bot.Apologize | handlers/messageHandler.js:50-54 | sends `ERROR_MESSAGE`, and a rejected send adds nothing |
| Ai.MoodLine | services/ai.js:10-14 | the empathy sentence iff "negative", the relaxed one iff "positive", empty iff any other value |
| Ai.TopicsLine | services/ai.js:27 | never empty; the comma-joined topics, or "nenhum tópico específico" exactly when that join is empty |
| Ai.Prompt | services/ai.js:16-31 | specification of the posted prompt; its properties are `PromptIsTrimmedTemplate` and `PromptFrame` |
| Ai.PromptIsTrimmedTemplate | services/ai.js:16-31 | `.trim()` of the template removes only its leading newline, for every message, context and topic list |
| Ai.PromptFrame | services/ai.js:16-31 | the prompt starts with the guidelines and ends with `Usuário: <message>\nMoreira Bot:` |
| Ai.NoVariationWithoutDraw | services/ai.js:66-69 | the reply is unchanged when the first draw does not select a variation |
| Ai.FinalStopVariations | services/ai.js:60-61 | variations 0 and 1 replace a final `.` by `!` or `...` and leave text without one unchanged |
| Ai.LowerFirstVariation | services/ai.js:62 | variation 2 keeps the length, lowercases the first character and keeps the rest |
| Ai.SmileVariation | services/ai.js:63 | variation 3 appends ` 😊` or returns the text unchanged |
| Ai.ApplyResponseVariations | services/ai.js:58-70 | specification of `applyResponseVariations` with its draws as inputs; its properties are the variation lemmas around it |
| Ai.AtMostOneVariation | services/ai.js:58-70 | the result is the reply or exactly one of the four tweaks of it |
| Ai.GenerateAIResponse | services/ai.js:6-56 | `null` exactly when the service fails for this prompt; without a variation draw, the trimmed reply |
| JsString.Trim | handlers/messageHandler.js:23 | no longer than its input, empty iff the input is all white space, and otherwise with no white space at either end; `TrimIsSlice` and `TrimPadded` pin down which text it keeps |
| JsString.TrimIsSlice | handlers/messageHandler.js:23 | the trimmed text is a slice of the input with only white space before it and only white space after it |
| JsString.TrimPadded | handlers/messageHandler.js:23 | white space added on either side of a text that is empty or has no white space at its ends is exactly what trimming removes |
| JsString.TrimIdempotent | handlers/messageHandler.js:23 | trimming twice is trimming once |
| JsString.Lower | middlewares/middlewares.js:25 | same length, each character lowercased |
| Menus.BelowIrreflexive | services/menuService.js:47 | no option number sorts before itself |
| Menus.BelowAsymmetric | services/menuService.js:47 | two option numbers never sort before each other |
| Menus.BelowTransitive | services/menuService.js:47 | the sort order is transitive |
| Menus.BelowTotal | services/menuService.js:47 | any two distinct option numbers are ordered |
| Menus.Ascending | services/menuService.js:47 | each key exactly once, each before every larger one |
| Menus.MainMenuListsActive | services/menuService.js:47 | the listed items are exactly the active items, in strictly ascending option-number order |
| Menus.MenuLinesAppend | services/menuService.js:51-53 | the lines for a list are the lines for its parts, in order |
| Menus.MainMenuText | services/menuService.js:46-57 | specification of `getMainMenu`'s text; its properties are `MainMenuListsActive`, `EmptyMainMenu` and `TenBeforeTwo` |
| Menus.EmptyMainMenu | services/menuService.js:46-57 | with nothing active, the main menu is the header then the footer |
| Menus.TenBeforeTwo | services/menuService.js:47-54 | option numbers sort as strings: "10" is listed before "2" |
| Menus.OptionOrMainMenu | services/menuService.js:59-71 | an unknown number gets exactly the main menu; a known one gets its own text |
| Menus.InactiveStillRendered | services/menuService.js:59-61 | an inactive item is absent from the main menu but still answers its own number |
| Menus.MenuForOption | services/menuService.js:59-71 | specification of `getMenuForOption`'s text; its properties are `OptionOrMainMenu` and `InactiveStillRendered` |
| Menus.DefaultOptionText | services/menuService.js:24-35 | after the default upserts over any collection, option "1" shows its title, description and two sub-option lines in stored order |
| Menus.Upserts | services/menuService.js:37-43 | specification of the upsert loop, one `updateOne` per default in order; its properties are the lemmas below |
| Menus.UpsertsAt | services/menuService.js:37-43 | a number no default names keeps its item; one that a default names holds the last such default's fields, keeps its `isActive`, or is inserted active |
| Menus.UpsertsKeyed | services/menuService.js:37-43 | the upserts keep every item filed under its own number |
| Menus.UpsertsIdempotent | services/menuService.js:37-43 | running the default upserts twice is running them once |
| Menus.DefaultsInstalled | services/menuService.js:23-44 | afterwards option "1" is the default menu with its previous `isActive`; every other item is untouched |
| Menus.Validate | services/menuService.js:4-14 | a document validates iff number, title and description are present and non-empty |
| Menus.Add | services/menuService.js:73-76 | specification of `addNewMenuOption`: the new collection and the save result; its properties are the lemmas below |
| Menus.AddInsertsOrRejects | services/menuService.js:73-76 | saved iff valid and the number is free, and then stored under its number with nothing else changed; otherwise the collection is unchanged |
| Menus.AddRefusesTakenNumber | services/menuService.js:5 | a taken option number is refused even when the data is valid |
| Menus.AddRefusesMissingField | services/menuService.js:4-7 | a missing or empty required field is refused before the index is consulted |
| Menus.MenuService.constructor | services/menuService.js:19-21 | construction runs the default upserts over the existing collection |
| Menus.MenuService.InitializeDefaultMenus | services/menuService.js:23-44 | the collection becomes the upserts of the defaults, one by one, keeping the unique-number invariant |
| Menus.MenuService.GetMainMenu | services/menuService.js:46-57 | the text built with `+=` equals the main-menu text of the collection |
| Menus.MenuService.GetMenuForOption | services/menuService.js:59-71 | the text equals the option's menu, or the main menu for an unknown number |
| Menus.MenuService.AddNewMenuOption | services/menuService.js:73-76 | the collection and the result are those of `Add`, keeping the unique-number invariant |
| SessionStore.GetOrCreate | models/Session.js:14-20 | specification of `getOrCreateSession`: the new collection and the session returned; its properties are the lemmas below |
| SessionStore.SetState | models/Session.js:23-29 | specification of `setSessionState`: the new collection; its property is `SetStateUpserts` |
| SessionStore.GetOrCreateFindsOrCreates | models/Session.js:14-20 | returns the phone's stored session; an unknown phone gets a new session with null state, a known one keeps its session and nothing is written; other phones untouched |
| SessionStore.GetOrCreateIdempotent | models/Session.js:14-20 | a second call returns the same session and creates nothing |
| SessionStore.SetStateUpserts | models/Session.js:23-29 | one session per phone, carrying the given state (null included) and the write time; other phones unchanged; created if absent |
| SessionStore.Sessions.constructor | models/Session.js:11 | a handle on the collection, holding exactly the sessions it already has, one per phone |
| SessionStore.Sessions.GetOrCreateSession | models/Session.js:14-20 | collection and returned session are those of `GetOrCreate`, one session per phone |
| SessionStore.Sessions.SetSessionState | models/Session.js:23-29 | the collection becomes `SetState` of the old one, one session per phone |
| MessageStore.MessageLog.constructor | services/message.js:11 | a handle on the collection, holding exactly the records it already has |
| MessageStore.MessageLog.SaveMessage | services/message.js:13-15 | exactly one record is appended, with the given phone, role and content and the creation time; earlier records are untouched |
| ConfigStore.FindOne | services/models/Config.js:11 | the first position holding the name, or none exactly when no entry has it |
| ConfigStore.GetConfig | services/models/Config.js:10-13 | the value of the first entry with the name, or the default when there is none |
| ConfigStore.GetConfigReadsTheEntry | services/models/Config.js:10-13 | with unique names, any entry with the name is the one whose value is returned |
| ConfigStore.GetConfigDefaultsToNull | services/models/Config.js:10-12 | with the default omitted, a missing name gives null |

## Left out

- The HTTP request to the AI service (services/ai.js:33-47) is left out: its URL, headers, `max_tokens` and the float `temperature`. The service is a function from prompt to `Option<string>`, and `None` stands for every failure, including a response missing the expected fields.
- Every `Math.random()` draw is an input: the greeting index, and whether, which and how a reply variation applies.
- Console logging, `console.time`, and the delay and typing indicator of `simulateTyping` are left out. Typing appears only as a step that may reject.
- `getLastMessages` and `getConversationTopics` are abstract functions of the phone and the log. Neither is defined by services/message.js, which exports only `saveMessage`, and neither is defined by the bare model in services/models/Message.js. The order in which each handler reads them relative to its own save is modelled.
- The handlers import their collaborators from paths that do not export them. That wiring is not modelled: each call is taken to reach the function its name designates.
- `/reset` does not clear the conversation. middlewares/middlewares.js:60 refers to `Message`, which that file never declares, so the branch throws before sending anything. The handler then sends the error message. The model does exactly that.
- `toLowerCase` is modelled for ASCII and Latin-1 capitals only. Strings are sequences of code points, not UTF-16 units.
- The menu sort is modelled as lexicographic code-point order. MongoDB collation options are not modelled.
- The constructor of services/menuService.js does not await `initializeDefaultMenus()`. Calls that overlap with it are not modelled: the constructor is taken to finish its upserts first.
- Store failures (a rejected write or read) are modelled only at the awaited calls of the two handlers and the preprocessor. The menu, session and configuration operations always succeed.
- `Menus.SetFields`: an item inserted by the default upsert gets `isActive: true`, the schema default that mongoose applies on insert.
- `Menus.MenuService.AddNewMenuOption` checks only the `required` constraints and the unique index. mongoose type casting of non-string values is not modelled.
- `Runtime.Records`: the role of a record is free text, as in services/message.js. The `user`/`bot` enumeration and the `sentiment` field of services/models/Message.js are not enforced.
- Menu entries with missing sub-option fields, which JavaScript renders as `undefined`, are not modelled: sub-options always carry strings.
- The operating-hours checks, behaviour flags, contact counters, flows and intent-priority matching of the other models have no implementation in the core and are not modelled.
