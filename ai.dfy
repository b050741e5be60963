/**
 * The pure parts of services/ai.js: the prompt sent to the text-generation
 * service, the null-on-failure wrapper around the call, and the random
 * stylistic tweak applied to a reply. The HTTP call itself is the parameter
 * `service` (prompt to reply content, `None` for any failure) and every
 * `Math.random()` draw is an explicit argument.
 */
module Ai {
  import opened Wrappers
  import opened JsString

  /** `Math.floor(Math.random() * 4)`: an index into a four-element list. */
  type Index4 = i: int | 0 <= i < 4

  /**
   * The draws `applyResponseVariations` makes: `vary` is `Math.random() < 0.3`,
   * `pick` selects the variation, `smile` is the `Math.random() > 0.5` of the fourth one.
   */
  datatype Draws = Draws(vary: bool, pick: Index4, smile: bool)

  const Guidelines := "Você é o Moreira Bot, " + "uma IA conversacional para WhatsApp. Siga estas diretrizes:\n1. Linguagem informal mas educada\n2. Respostas curtas (1-2 frases geralmente)\n3. Varie seu estilo de resposta\n4. Use emojis ocasionalmente (1-2 por resposta)\n5. Se não souber algo, diga claramente"
  const Empathy := "O usuário parece chateado. Seja empático e cuidadoso."
  const Relaxed := "O usuário está de bom humor. Pode ser mais descontraído."
  const NoTopics := "nenhum tópico específico"
  const Smile := " 😊"

  /** The mood sentence: empathy for "negative", relaxed for "positive", nothing for any other sentiment. */
  function MoodLine(sentiment: string): (r: string)
    ensures r == Empathy <==> sentiment == "negative"
    ensures r == Relaxed <==> sentiment == "positive"
    ensures r == "" <==> sentiment != "negative" && sentiment != "positive"
  {
    if sentiment == "negative" then Empathy
    else if sentiment == "positive" then Relaxed
    else ""
  }

  /** The topic list joined by ", ", or the "no topic" marker when that join is empty; never empty. */
  function TopicsLine(topics: seq<string>): (r: string)
    ensures r != ""
    ensures Join(", ", topics) == "" ==> r == NoTopics
    ensures Join(", ", topics) != "" ==> r == Join(", ", topics)
  {
    var joined := Join(", ", topics);
    if joined == "" then NoTopics else joined
  }

  /** The middle of the prompt: history, topics and mood, each on its own lines. */
  function PromptMiddle(context: string, topics: seq<string>, sentiment: string): string {
    "\n\nContexto histórico:\n" + context
      + "\n\nTópicos recentes: " + TopicsLine(topics)
      + "\n" + MoodLine(sentiment) + "\n\n"
  }

  /** The closing part of the prompt: the user's turn and the bot's cue. */
  function Turn(message: string): string {
    "Usuário: " + message + "\nMoreira Bot:"
  }

  /** The template literal of `generateAIResponse`, before `.trim()`: it opens with a newline. */
  function Template(message: string, context: string, topics: seq<string>, sentiment: string): string {
    "\n" + Prompt(message, context, topics, sentiment)
  }

  /** The prompt `generateAIResponse` posts: guidelines, history, topics, mood, then the user's turn. */
  function Prompt(message: string, context: string, topics: seq<string>, sentiment: string): string {
    Guidelines + PromptMiddle(context, topics, sentiment) + Turn(message)
  }

  /**
   * `.trim()` on the template removes its leading newline and nothing else,
   * whatever the message, context and topics are: the posted prompt is
   * exactly `Prompt`, and it is already trimmed.
   */
  lemma PromptIsTrimmedTemplate(message: string, context: string, topics: seq<string>, sentiment: string)
    ensures Trim(Template(message, context, topics, sentiment)) == Prompt(message, context, topics, sentiment)
    ensures Trim(Prompt(message, context, topics, sentiment)) == Prompt(message, context, topics, sentiment)
  {
    var turn := Turn(message);
    var body := Prompt(message, context, topics, sentiment);
    assert body[0] == Guidelines[0] == 'V';
    assert turn[|turn| - 1] == ':';
    assert body[|body| - 1] == turn[|turn| - 1];
    TrimAfterSpace("\n", body);
    TrimOfTrimmed(body);
  }

  /** The prompt opens with the guidelines and ends with the user's message and the bot's cue. */
  lemma PromptFrame(message: string, context: string, topics: seq<string>, sentiment: string)
    ensures StartsWith(Prompt(message, context, topics, sentiment), Guidelines)
    ensures EndsWith(Prompt(message, context, topics, sentiment), "Usuário: " + message + "\nMoreira Bot:")
  {
    ConcatFrame(Guidelines, PromptMiddle(context, topics, sentiment), Turn(message));
  }

  /** `text.replace(/\.$/, with)`: a single final full stop becomes `with`; other text is unchanged. */
  function ReplaceFinalStop(text: string, with: string): string {
    if EndsWith(text, ".") then text[..|text| - 1] + with else text
  }

  /** `text.charAt(0).toLowerCase() + text.slice(1)`. */
  function LowerFirst(text: string): string {
    if text == [] then [] else [LowerChar(text[0])] + text[1..]
  }

  /** `applyResponseVariations(response)` with its draws made explicit. */
  function ApplyResponseVariations(response: string, draws: Draws): string {
    if !draws.vary then response
    else match draws.pick
      case 0 => ReplaceFinalStop(response, "!")
      case 1 => ReplaceFinalStop(response, "...")
      case 2 => LowerFirst(response)
      case 3 => if draws.smile then response + Smile else response
  }

  /** No variation is applied when the first draw is not below 0.3. */
  lemma NoVariationWithoutDraw(response: string, draws: Draws)
    requires !draws.vary
    ensures ApplyResponseVariations(response, draws) == response
  {
  }

  /**
   * Variations 0 and 1 change only a final full stop, into "!" or "...";
   * a reply without one is returned as it is.
   */
  lemma FinalStopVariations(response: string, draws: Draws)
    requires draws.vary && draws.pick < 2
    ensures var r := ApplyResponseVariations(response, draws);
      if |response| > 0 && response[|response| - 1] == '.' then
        && StartsWith(r, response[..|response| - 1])
        && r[|response| - 1..] == (if draws.pick == 0 then "!" else "...")
      else r == response
  {
  }

  /** Variation 2 lowercases the first character only; the empty reply stays empty. */
  lemma LowerFirstVariation(response: string, draws: Draws)
    requires draws.vary && draws.pick == 2
    ensures var r := ApplyResponseVariations(response, draws);
      && |r| == |response|
      && (response != [] ==> r[0] == LowerChar(response[0]) && r[1..] == response[1..])
  {
  }

  /** Variation 3 either appends the smiley or leaves the reply alone. */
  lemma SmileVariation(response: string, draws: Draws)
    requires draws.vary && draws.pick == 3
    ensures var r := ApplyResponseVariations(response, draws);
      r == (if draws.smile then response + " 😊" else response)
  {
  }

  /**
   * Whatever the draws, at most one variation applies: the reply is kept,
   * or one of the four single tweaks is applied to it.
   */
  lemma AtMostOneVariation(response: string, draws: Draws)
    ensures ApplyResponseVariations(response, draws)
      in {response, ReplaceFinalStop(response, "!"), ReplaceFinalStop(response, "..."),
          LowerFirst(response), response + Smile}
  {
  }

  /**
   * `generateAIResponse(message, context = '', topics = [], sentiment = 'neutral')`:
   * `null` exactly when the call for this prompt fails in any way (it never
   * throws); otherwise the trimmed reply, possibly varied.
   */
  function GenerateAIResponse(service: string -> Option<string>, draws: Draws, message: string,
                              context: string := "", topics: seq<string> := [], sentiment: string := "neutral"): (r: Option<string>)
    ensures r.None? <==> service(Prompt(message, context, topics, sentiment)).None?
    ensures !draws.vary ==> r == (var reply := service(Prompt(message, context, topics, sentiment));
      if reply.None? then None else Some(Trim(reply.value)))
  {
    var reply := service(Prompt(message, context, topics, sentiment));
    if reply.None? then None else Some(ApplyResponseVariations(Trim(reply.value), draws))
  }
}
