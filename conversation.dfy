/**
 * Per-caller conversation history and prompt building (`ConversationService`).
 *
 * The service keeps, per phone number, the list of `{user, assistant}` exchanges,
 * capped at the last ten; the prompt sent to the language model is the persona
 * text, the last five exchanges and the new input. The language model itself is
 * a parameter: a function from prompt to reply text, `None` when generation
 * raises.
 */
module Conversation {
  import opened Text
  import opened Wrappers

  datatype Exchange = Exchange(user: string, assistant: string)

  /** Exchanges kept per caller. */
  const MaxHistory: nat := 10
  /** Exchanges replayed in a prompt. */
  const PromptHistory: nat := 5

  const UnavailableReply := "عذراً، خدمة المحادثة غير متاحة حالياً"
  const ErrorReply := "عذراً، حدث خطأ تقني. يرجى المحاولة مرة أخرى"

  const UserLabel := "المستخدم: "
  const AssistantLabel := "المساعد: "
  /** The prompt's last line: the assistant label without its trailing space. */
  const AssistantCue := "\nالمساعد:"

  const ArabicContext :=
    "أنت مساعد ذكي ودود يتحدث العربية الشامية (السورية). \n" +
    "            يجب أن تكون:\n" +
    "            - مفيد ومتعاون\n" +
    "            - تستخدم اللهجة السورية الطبيعية\n" +
    "            - تجيب بشكل موجز وواضح\n" +
    "            - تظهر الاهتمام والود في المحادثة\n" +
    "            - لا تستخدم كلمات معقدة أو فصحى مفرطة\n" +
    "            \n" +
    "            احرص على أن تكون إجاباتك قصيرة ومناسبة للمحادثة الهاتفية."

  const EnglishContext :=
    "You are a helpful and friendly AI assistant. \n" +
    "            You should:\n" +
    "            - Be helpful and cooperative\n" +
    "            - Use natural, conversational language\n" +
    "            - Keep responses concise and clear\n" +
    "            - Show interest and warmth in conversation\n" +
    "            - Keep answers brief and suitable for phone conversations."

  const ArabicWelcome := "أهلاً وسهلاً! أنا مساعدك الذكي. كيف بدك أساعدك اليوم؟"
  const EnglishWelcome := "Hello! I'm your AI assistant. How can I help you today?"

  /** The language test shared by `_build_context` and `get_welcome_message`. */
  predicate IsArabic(language: string) {
    Lower(language) == "arabic"
  }

  /** `_build_context(language)`: the persona text. */
  function BuildContext(language: string): string {
    if IsArabic(language) then ArabicContext else EnglishContext
  }

  /** `get_welcome_message(language)`. */
  function WelcomeMessage(language: string): string {
    if IsArabic(language) then ArabicWelcome else EnglishWelcome
  }

  /** Persona and greeting always agree on the language, whatever the spelling of its name. */
  lemma ContextMatchesWelcome(language: string)
    ensures BuildContext(language) == ArabicContext <==> WelcomeMessage(language) == ArabicWelcome
    ensures BuildContext(language) == EnglishContext <==> WelcomeMessage(language) == EnglishWelcome
  {
    assert |ArabicContext| != |EnglishContext|;
    assert |ArabicWelcome| != |EnglishWelcome|;
  }

  /**
   * For every language name: its case does not matter, the Arabic persona is
   * chosen exactly for a name that lower-cases to "arabic", and any other name
   * selects the English persona and greeting.
   */
  lemma LanguageChoiceAnyName(language: string)
    ensures BuildContext(Lower(language)) == BuildContext(language)
    ensures WelcomeMessage(Lower(language)) == WelcomeMessage(language)
    ensures BuildContext(language) == ArabicContext <==> Lower(language) == "arabic"
    ensures Lower(language) != "arabic" ==>
      BuildContext(language) == EnglishContext && WelcomeMessage(language) == EnglishWelcome
  {
    LowerIdempotent(language);
    assert |ArabicContext| != |EnglishContext|;
  }

  /** Examples of the language choice: three spellings of "arabic", and "english". */
  lemma LanguageChoice()
    ensures BuildContext("arabic") == ArabicContext && BuildContext("Arabic") == ArabicContext
    ensures BuildContext("ARABIC") == ArabicContext
    ensures BuildContext("english") == EnglishContext && WelcomeMessage("english") == EnglishWelcome
  {
    assert Lower("Arabic") == "arabic";
    assert Lower("ARABIC") == "arabic";
    assert Lower("english")[0] == 'e';
  }

  /**
   * The caller's history after one exchange is recorded (`_update_conversation_history`):
   * append, then keep only the last `MaxHistory` entries.
   */
  function Recorded(history: seq<Exchange>, e: Exchange): (r: seq<Exchange>)
    ensures |r| == if |history| < MaxHistory then |history| + 1 else MaxHistory
    ensures r[|r| - 1] == e
  {
    var grown := history + [e];
    if |grown| > MaxHistory then grown[|grown| - MaxHistory..] else grown
  }

  /** Below the cap the exchange is simply appended; at the cap the oldest entry is evicted first. */
  lemma RecordedEvictsOldest(history: seq<Exchange>, e: Exchange)
    requires |history| <= MaxHistory
    ensures |history| < MaxHistory ==> Recorded(history, e) == history + [e]
    ensures |history| == MaxHistory ==> Recorded(history, e) == history[1..] + [e]
  {
    var r := Recorded(history, e);
    if |history| == MaxHistory {
      assert (history + [e])[1..] == history[1..] + [e];
    }
  }

  /** `history[-5:] if len(history) > 5 else history`. */
  function RecentHistory(history: seq<Exchange>): seq<Exchange> {
    if |history| > PromptHistory then history[|history| - PromptHistory..] else history
  }

  /** The recent history is the last `min(5, n)` exchanges, in order. */
  lemma RecentHistoryIsSuffix(history: seq<Exchange>)
    ensures var r := RecentHistory(history);
      |r| == (if |history| < PromptHistory then |history| else PromptHistory) &&
      r == history[|history| - |r|..]
  {
  }

  /** `f"المستخدم: {text}\n"` */
  function UserLine(text: string): string {
    UserLabel + text + "\n"
  }

  /** `f"المساعد: {text}\n\n"` */
  function AssistantLine(text: string): string {
    AssistantLabel + text + "\n\n"
  }

  function RenderExchange(e: Exchange): string {
    UserLine(e.user) + AssistantLine(e.assistant)
  }

  /** The exchanges written one after another, oldest first. */
  function RenderHistory(exchanges: seq<Exchange>): string
  {
    if exchanges == [] then ""
    else RenderHistory(exchanges[..|exchanges| - 1]) + RenderExchange(exchanges[|exchanges| - 1])
  }

  /** Rendering distributes over concatenation of exchange lists. */
  lemma {:induction false} RenderHistoryAppend(a: seq<Exchange>, b: seq<Exchange>)
    ensures RenderHistory(a + b) == RenderHistory(a) + RenderHistory(b)
  {
    if b != [] {
      assert (a + b)[..|a + b| - 1] == a + b[..|b| - 1];
      RenderHistoryAppend(a, b[..|b| - 1]);
    } else {
      assert a + b == a;
    }
  }

  /**
   * Concatenation is associative. Dafny knows this; stating it as a lemma hands
   * the prover the one regrouping the prompt loop needs instead of letting it
   * search for it.
   */
  lemma AppendAssociative(a: string, b: string, c: string)
    ensures (a + b) + c == a + (b + c)
  {
  }

  /** The complete prompt for `input` given the caller's stored history. */
  function Prompt(context: string, history: seq<Exchange>, input: string): string {
    (context + "\n\n") + RenderHistory(RecentHistory(history)) + (UserLabel + input + AssistantCue)
  }

  /**
   * Exchanges older than the last five never reach the prompt: prefixing older
   * history to one that already holds five exchanges does not change it.
   */
  lemma PromptIgnoresOlderHistory(context: string, older: seq<Exchange>, history: seq<Exchange>, input: string)
    requires |history| >= PromptHistory
    ensures Prompt(context, older + history, input) == Prompt(context, history, input)
  {
    var whole := older + history;
    assert whole[|whole| - PromptHistory..] == history[|history| - PromptHistory..];
  }

  /** A list is the part before position `k`, the element at `k`, and the part after it. */
  lemma SplitAround<T>(xs: seq<T>, k: int)
    requires 0 <= k < |xs|
    ensures xs == xs[..k] + ([xs[k]] + xs[k + 1..])
  {
    assert xs == xs[..k] + xs[k..];
    assert xs[k..] == [xs[k]] + xs[k + 1..];
  }

  /** Every exchange of a list is rendered, whole, inside the rendering of the list. */
  lemma RenderHistoryContains(exchanges: seq<Exchange>, k: int)
    requires 0 <= k < |exchanges|
    ensures Contains(RenderHistory(exchanges), RenderExchange(exchanges[k]))
  {
    var e := exchanges[k];
    var front, back := exchanges[..k], exchanges[k + 1..];
    SplitAround(exchanges, k);
    RenderHistoryAppend(front, [e] + back);
    RenderHistoryAppend([e], back);
    assert RenderHistory([e]) == RenderExchange(e) by {
      assert [e][..0] == [];
    }
    var before := RenderHistory(front);
    var after := RenderHistory(back);
    assert RenderHistory(exchanges) == before + (RenderExchange(e) + after);
    AppendAssociative(before, RenderExchange(e), after);
    ContainsInfix(before, RenderExchange(e), after);
  }

  /**
   * The prompt starts with the persona text and a blank line, renders every
   * recent exchange (the last `min(5, n)`, see `RecentHistoryIsSuffix`), and
   * ends with the new input followed by the assistant cue.
   */
  lemma PromptShape(context: string, history: seq<Exchange>, input: string)
    ensures Prompt(context, history, input)[..|context| + 2] == context + "\n\n"
    ensures forall k | 0 <= k < |RecentHistory(history)| ::
      Contains(Prompt(context, history, input), RenderExchange(RecentHistory(history)[k]))
    ensures var p, tail := Prompt(context, history, input), UserLabel + input + AssistantCue;
      |tail| <= |p| && p[|p| - |tail|..] == tail
  {
    var recent := RecentHistory(history);
    var head := context + "\n\n";
    var body := RenderHistory(recent);
    var tail := UserLabel + input + AssistantCue;
    var p := head + body + tail;
    assert p == Prompt(context, history, input);
    assert p[..|head|] == head;
    assert p[|p| - |tail|..] == tail;
    forall k | 0 <= k < |recent|
      ensures Contains(p, RenderExchange(recent[k]))
    {
      RenderHistoryContains(recent, k);
      ContainsInfix(head, body, tail);
      ContainsTransitive(p, body, RenderExchange(recent[k]));
    }
  }

  /** The reply `get_conversation_response` returns, given whether a model is configured and what generation produced. */
  function ResponseText(hasModel: bool, generated: Option<string>): string {
    if !hasModel then UnavailableReply
    else match generated
      case None => ErrorReply
      case Some(text) => Strip(text)
  }

  /** The histories after `get_conversation_response`, for the same inputs. */
  function RespondedHistories(hasModel: bool, history: map<string, seq<Exchange>>, phone: string,
                              userInput: string, generated: Option<string>): map<string, seq<Exchange>> {
    if !hasModel then history
    else
      var entry := if phone in history then history[phone] else [];
      match generated
      case None => history[phone := entry]
      case Some(text) => history[phone := Recorded(entry, Exchange(userInput, Strip(text)))]
  }

  /**
   * What answering does to the histories: with no model nothing changes; with
   * a model the caller has an entry afterwards, it grows by the exchange exactly
   * when generation succeeded, stays within the cap, and nobody else's history
   * changes. The reply text is the apology, the error text or the stripped
   * generation, respectively.
   */
  lemma ResponseEffects(hasModel: bool, history: map<string, seq<Exchange>>, phone: string,
                        userInput: string, generated: Option<string>)
    requires forall p | p in history :: |history[p]| <= MaxHistory
    ensures var after := RespondedHistories(hasModel, history, phone, userInput, generated);
      (forall p | p in after :: |after[p]| <= MaxHistory) &&
      (forall p | p != phone :: (p in after <==> p in history) && (p in history ==> after[p] == history[p])) &&
      (!hasModel ==> after == history && ResponseText(hasModel, generated) == UnavailableReply) &&
      (hasModel && generated.None? ==>
        phone in after && after[phone] == (if phone in history then history[phone] else []) &&
        ResponseText(hasModel, generated) == ErrorReply) &&
      (hasModel && generated.Some? ==>
        phone in after && after[phone][|after[phone]| - 1] == Exchange(userInput, Strip(generated.value)) &&
        ResponseText(hasModel, generated) == Strip(generated.value))
  {
  }

  class ConversationService {
    /** Whether a language model was configured (`self.model` is not `None`). */
    const hasModel: bool
    /** `conversation_history`: phone number to exchanges, oldest first. */
    var history: map<string, seq<Exchange>>

    /** Every stored history respects the cap. */
    ghost predicate Valid()
      reads this
    {
      forall phone | phone in history :: |history[phone]| <= MaxHistory
    }

    /** `self.conversation_history.get(phone_number, [])`. */
    function HistoryOf(phone: string): seq<Exchange>
      reads this
    {
      if phone in history then history[phone] else []
    }

    constructor (hasModel: bool)
      ensures Valid() && this.hasModel == hasModel && history == map[]
    {
      this.hasModel := hasModel;
      history := map[];
    }

    /** `_update_conversation_history`: record one exchange for `phone`; nobody else's history changes. */
    method UpdateConversationHistory(phone: string, userInput: string, aiResponse: string)
      requires Valid()
      modifies this
      ensures Valid()
      ensures history == old(history)[phone := Recorded(old(HistoryOf(phone)), Exchange(userInput, aiResponse))]
    {
      var entry := if phone in history then history[phone] else [];
      entry := entry + [Exchange(userInput, aiResponse)];
      if |entry| > MaxHistory {
        entry := entry[|entry| - MaxHistory..];
      }
      history := history[phone := entry];
    }

    /** `clear_conversation`: forget `phone`; a no-op when it is unknown. */
    method ClearConversation(phone: string)
      requires Valid()
      modifies this
      ensures Valid()
      ensures history == old(history) - {phone}
      ensures phone !in old(history) ==> history == old(history)
    {
      if phone in history {
        history := history - {phone};
      }
    }

    /** `_build_conversation_prompt`, with its `prompt +=` loop over the recent exchanges. */
    method BuildConversationPrompt(userInput: string, phone: string, context: string) returns (prompt: string)
      ensures prompt == Prompt(context, HistoryOf(phone), userInput)
    {
      prompt := context + "\n\n";
      var all := if phone in history then history[phone] else [];
      var recent := if |all| > PromptHistory then all[|all| - PromptHistory..] else all;
      for i := 0 to |recent|
        invariant prompt == (context + "\n\n") + RenderHistory(recent[..i])
      {
        assert recent[..i + 1][..i] == recent[..i];
        ghost var before := prompt;
        prompt := prompt + UserLine(recent[i].user);
        prompt := prompt + AssistantLine(recent[i].assistant);
        AppendAssociative(before, UserLine(recent[i].user), AssistantLine(recent[i].assistant));
        AppendAssociative(context + "\n\n", RenderHistory(recent[..i]), RenderExchange(recent[i]));
      }
      assert recent[..|recent|] == recent;
      prompt := prompt + (UserLabel + userInput + AssistantCue);
    }

    /**
     * `get_conversation_response`: with no model, a fixed apology and no state
     * change; otherwise the caller gets a (possibly empty) history entry, the
     * model sees `Prompt(...)`, and either its stripped reply is returned and
     * recorded or, when generation raises, a fixed error text is returned and no
     * turn is recorded.
     */
    method GetConversationResponse(userInput: string, phone: string, language: string,
                                   generate: string -> Option<string>) returns (reply: string)
      requires Valid()
      modifies this
      ensures Valid()
      ensures reply == ResponseText(hasModel, generate(Prompt(BuildContext(language), old(HistoryOf(phone)), userInput)))
      ensures history ==
        RespondedHistories(hasModel, old(history), phone, userInput,
                           generate(Prompt(BuildContext(language), old(HistoryOf(phone)), userInput)))
    {
      if !hasModel {
        return UnavailableReply;
      }
      ghost var entry := HistoryOf(phone);
      if phone !in history {
        history := history[phone := []];
      }
      assert Valid();
      var prompt := BuildConversationPrompt(userInput, phone, BuildContext(language));
      assert HistoryOf(phone) == entry;
      var generated := generate(prompt);
      if generated.None? {
        reply := ErrorReply;
        assert history == old(history)[phone := entry];
        return;
      }
      reply := Strip(generated.value);
      UpdateConversationHistory(phone, userInput, reply);
    }
  }
}
