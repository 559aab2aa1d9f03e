// The AI tutor chat page: it opens with a welcome line in the user's
// language, sends typed, spoken or topic text to the model, appends the
// user's message and exactly one answer to the chat store, and speaks the
// answer, without markdown characters, only in voice mode. The model's
// answers and the clock readings are inputs.
module AIChatbot {
  import opened Wrappers
  import opened JsText
  import opened JsValue
  import ChatStore
  import Gemini

  const WelcomeKo: string := "안녕하세요! LG TV 세일즈 튜터입니다. 제품 지식부터 판매 노하우까지, 무엇이든 물어보세요! 😊"
  const WelcomeEs: string := "¡Hola! Soy tu tutor de ventas de LG TV. Pregúntame lo que quieras sobre productos o ventas. 😊"
  const WelcomePt: string := "Olá! Sou seu tutor de vendas de TV LG. Pergunte-me qualquer coisa sobre produtos ou vendas. 😊"
  const WelcomeEn: string := "Hello! I'm your LG TV Sales Tutor. Ask me anything about products or sales know-how! 😊"

  /** The welcome line for the page's language; English for any other. */
  function WelcomeText(language: string): (t: string)
    ensures language == "ko" ==> t == WelcomeKo
    ensures language == "es" ==> t == WelcomeEs
    ensures language == "pt-br" ==> t == WelcomePt
    ensures language != "ko" && language != "es" && language != "pt-br" ==> t == WelcomeEn
  {
    if language == "ko" then WelcomeKo
    else if language == "es" then WelcomeEs
    else if language == "pt-br" then WelcomePt
    else WelcomeEn
  }

  /** The generic error line of the page's label table (English for a
    * language without one). */
  function ErrorLine(language: string): (t: string)
    ensures language != "ko" && language != "es" && language != "pt-br" ==> t == "An error occurred."
    ensures t != []
  {
    if language == "ko" then "오류가 발생했습니다."
    else if language == "es" then "Ocurrió un error."
    else if language == "pt-br" then "Ocorreu um erro."
    else "An error occurred."
  }

  /** The tutor's answer: the reply's text, or the error line when the
    * service call threw (the page's `catch`). The service catches a failed
    * model call itself and answers with its Korean error pair, which is
    * shown like any reply (FailedCallShowsServiceError). */
  function AnswerText(reply: Option<Gemini.Reply>, language: string): (t: string)
    ensures reply.Some? ==> t == reply.value.text
    ensures reply.None? ==> t == ErrorLine(language) && t != []
  {
    if reply.Some? then reply.value.text else ErrorLine(language)
  }

  /** What is spoken after an answer: the reply's speech text without
    * markdown, in voice mode only; nothing when the service call threw. */
  function Spoken(reply: Option<Gemini.Reply>, isAutoMode: bool): (r: Option<string>)
    ensures r.Some? <==> reply.Some? && isAutoMode
  {
    if reply.Some? && isAutoMode then Some(SpeechOf(reply.value.speech)) else None
  }

  /** A model call that fails inside the service does not reach the page's
    * error line: the service's Korean error text is shown whatever the
    * interface language. */
  lemma FailedCallShowsServiceError(language: string)
    ensures AnswerText(Some(Gemini.SendMessageReply(true, false, None)), language) == Gemini.ErrorText
    ensures language != "ko" ==> AnswerText(Some(Gemini.SendMessageReply(true, false, None)), language) != ErrorLine(language)
  {
    Gemini.FailedCallReply(false);
    if language != "ko" {
      ErrorLineIsNotServiceError(language);
    }
  }

  /** In voice mode that error text is also spoken, as it is. */
  lemma FailedCallSpokenAsServiceError(isAutoMode: bool)
    ensures Spoken(Some(Gemini.SendMessageReply(true, false, None)), isAutoMode)
      == if isAutoMode then Some(Gemini.ErrorText) else None
  {
    Gemini.FailedCallReply(false);
    ErrorTextSpokenAsIs(isAutoMode);
  }

  /** The page's own error line differs from the service's Korean error
    * text in every language but Korean. */
  lemma ErrorLineIsNotServiceError(language: string)
    requires language != "ko"
    ensures ErrorLine(language) != Gemini.ErrorText
  {
    var t := Gemini.ErrorText;
    assert t[0] == '오';
    assert ErrorLine(language)[0] != '오';
  }

  /** The service's error text holds no markdown character, so speech
    * synthesis gets it as it is, in voice mode. */
  lemma ErrorTextSpokenAsIs(isAutoMode: bool)
    ensures SpeechOf(Gemini.ErrorText) == Gemini.ErrorText
    ensures Spoken(Some(Gemini.Reply(Gemini.ErrorText, Gemini.ErrorText)), isAutoMode)
      == if isAutoMode then Some(Gemini.ErrorText) else None
  {
    var t := Gemini.ErrorText;
    assert t == ['오', '류', '가', ' ', '발', '생', '했', '습', '니', '다', '.'];
    assert forall i :: 0 <= i < |t| ==> t[i] !in Gemini.MarkdownChars;
    SpeechOfPlainText(t);
  }

  /** A chat message before the store stamps it. */
  function Message(role: string, text: string): (m: Record)
    ensures Get(m, "role") == Some(Str(role)) && Get(m, "text") == Some(Str(text))
    ensures m.Keys == {"role", "text"}
  {
    map["role" := Str(role), "text" := Str(text)]
  }

  /** The recommended topics show exactly while the chat holds one message
    * and it is the tutor's. */
  predicate TopicsVisible(messages: seq<Record>)
  {
    |messages| == 1 && Get(messages[0], "role") == Some(Str("ai"))
  }

  /** The text `handleSend` works on: a non-empty text passed in (a topic
    * button), else the speech transcript in auto mode, else the input. */
  function TextToSend(manualText: Option<string>, isAuto: bool, autoText: string, input: string): (t: string)
    ensures manualText.Some? && manualText.value != [] ==> t == manualText.value
    ensures (manualText.None? || manualText.value == []) && isAuto ==> t == autoText
    ensures (manualText.None? || manualText.value == []) && !isAuto ==> t == input
  {
    if manualText.Some? && manualText.value != [] then manualText.value
    else if isAuto then autoText
    else input
  }

  /** The text handed to speech synthesis: no '*', '#' or '`' left and
    * every other character kept in order. */
  function SpeechOf(text: string): (r: string)
    ensures forall i :: 0 <= i < |r| ==> r[i] !in Gemini.MarkdownChars
    ensures multiset(r) <= multiset(text)
  {
    RemoveChars(text, Gemini.MarkdownChars)
  }

  /** Text free of markdown characters is spoken as it is. */
  lemma SpeechOfPlainText(text: string)
    requires forall i :: 0 <= i < |text| ==> text[i] !in Gemini.MarkdownChars
    ensures SpeechOf(text) == text
  {
    RemoveCharsIdle(text, Gemini.MarkdownChars);
  }

  /** After the welcome alone the topics show; once a send has added its
    * two messages they never show again. */
  lemma TopicsOnlyBeforeFirstSend(welcome: Record, m1: Record, m2: Record, t0: nat, t1: nat, t2: nat)
    requires Get(welcome, "role") == Some(Str("ai"))
    ensures TopicsVisible(ChatStore.AppendMessage([], welcome, t0))
    ensures !TopicsVisible(ChatStore.AppendMessage(ChatStore.AppendMessage(ChatStore.AppendMessage([], welcome, t0), m1, t1), m2, t2))
  {
    var once := ChatStore.AppendMessage([], welcome, t0);
    assert Get(once[0], "role") == Some(Str("ai"));
  }

  class AIChatbotState {
    const store: ChatStore.ChatStoreState
    const language: string
    /** A speech recogniser was created (the browser supports one). */
    const hasRecognition: bool
    var input: string
    var isListening: bool
    var isAutoMode: bool
    var hasInitialized: bool

    constructor(store: ChatStore.ChatStoreState, language: string, hasRecognition: bool)
      ensures this.store == store && this.language == language && this.hasRecognition == hasRecognition
      ensures input == [] && !isListening && !isAutoMode && !hasInitialized
    {
      this.store := store;
      this.language := language;
      this.hasRecognition := hasRecognition;
      input := [];
      isListening := false;
      isAutoMode := false;
      hasInitialized := false;
    }

    /** The mount effect: once the model session is up (`initOk`), a first
      * initialisation empties the chat and posts the welcome line; later
      * ones, and a failed start, leave the chat alone. */
    method InitChat(initOk: bool, nowMs: nat)
      modifies this, store
      ensures initOk && !old(hasInitialized) ==>
        store.messages == [Merge(Message("ai", WelcomeText(language)), map["id" := Num(nowMs)])]
        && hasInitialized
      ensures !(initOk && !old(hasInitialized)) ==>
        store.messages == old(store.messages) && hasInitialized == old(hasInitialized)
      ensures store.isTyping == old(store.isTyping) && store.sessions == old(store.sessions)
      ensures input == old(input) && isListening == old(isListening) && isAutoMode == old(isAutoMode)
    {
      if initOk && !hasInitialized {
        store.ResetChat();
        hasInitialized := true;
        store.AddMessage(Message("ai", WelcomeText(language)), nowMs);
      }
    }

    /** The two messages of one exchange: the user's text, then the
      * answer, with typing on in between and off at the end. */
    method Exchange(text: string, answer: string, nowUser: nat, nowAi: nat)
      modifies store
      ensures store.messages ==
        ChatStore.AppendMessage(ChatStore.AppendMessage(old(store.messages), Message("user", text), nowUser), Message("ai", answer), nowAi)
      ensures !store.isTyping && store.sessions == old(store.sessions)
    {
      store.AddMessage(Message("user", text), nowUser);
      store.SetTyping(true);
      store.SetTyping(false);
      store.AddMessage(Message("ai", answer), nowAi);
    }

    /** One accepted send of `text`: listening stops, the input is
      * cleared, the user's message and then exactly one answer are
      * appended and typing ends; the answer's speech is returned for
      * speaking only in voice (auto) mode. */
    method SendText(text: string, reply: Option<Gemini.Reply>, nowUser: nat, nowAi: nat)
      returns (spoken: Option<string>)
      modifies this, store
      ensures store.messages ==
        ChatStore.AppendMessage(ChatStore.AppendMessage(old(store.messages), Message("user", text), nowUser), Message("ai", AnswerText(reply, language)), nowAi)
      ensures !store.isTyping && store.sessions == old(store.sessions)
      ensures input == [] && isListening == (old(isListening) && !hasRecognition)
      ensures spoken == Spoken(reply, isAutoMode)
      ensures isAutoMode == old(isAutoMode) && hasInitialized == old(hasInitialized)
    {
      StopInput();
      Exchange(text, AnswerText(reply, language), nowUser, nowAi);
      spoken := Spoken(reply, isAutoMode);
    }

    /** The start of a send: recognition stops and the input is cleared. */
    method StopInput()
      modifies this
      ensures input == [] && isListening == (old(isListening) && !hasRecognition)
      ensures isAutoMode == old(isAutoMode) && hasInitialized == old(hasInitialized)
    {
      if hasRecognition {
        isListening := false;
      }
      input := [];
    }

    /** `handleSend(isAuto, manualText)`: blank text does nothing at all;
      * any other text is sent as `SendText` says. */
    method HandleSend(isAuto: bool, manualText: Option<string>, autoText: string,
                      reply: Option<Gemini.Reply>, nowUser: nat, nowAi: nat)
      returns (spoken: Option<string>)
      modifies this, store
      ensures IsBlank(TextToSend(manualText, isAuto, autoText, old(input))) ==>
        store.messages == old(store.messages) && store.isTyping == old(store.isTyping)
      ensures IsBlank(TextToSend(manualText, isAuto, autoText, old(input))) ==>
        input == old(input) && isListening == old(isListening) && spoken.None?
      ensures !IsBlank(TextToSend(manualText, isAuto, autoText, old(input))) ==>
        store.messages == ChatStore.AppendMessage(
          ChatStore.AppendMessage(old(store.messages), Message("user", TextToSend(manualText, isAuto, autoText, old(input))), nowUser),
          Message("ai", AnswerText(reply, language)), nowAi)
      ensures !IsBlank(TextToSend(manualText, isAuto, autoText, old(input))) ==>
        !store.isTyping && input == [] && isListening == (old(isListening) && !hasRecognition)
      ensures !IsBlank(TextToSend(manualText, isAuto, autoText, old(input))) ==> spoken == Spoken(reply, isAutoMode)
      ensures store.sessions == old(store.sessions) && isAutoMode == old(isAutoMode) && hasInitialized == old(hasInitialized)
    {
      var textToSend := TextToSend(manualText, isAuto, autoText, input);
      if IsBlank(textToSend) {
        return None;
      }
      spoken := SendText(textToSend, reply, nowUser, nowAi);
    }

    /** `handleClearChat` as written: its first line calls a
      * `clearMessages` action the chat store does not have, so every call
      * throws a TypeError on entry (`threw` is always true) before anything
      * changes; the chat is not cleared, the initialisation flag stays set
      * and the page is not reloaded. */
    method HandleClearChatAsWritten() returns (threw: bool)
      ensures threw
      ensures store.messages == old(store.messages) && hasInitialized == old(hasInitialized)
    {
      threw := true;
    }

    /** `handleClearChat` as intended: the store's reset empties the chat
      * and the welcome is posted again on the next initialisation. */
    method HandleClearChat()
      modifies this, store
      ensures store.messages == [] && !hasInitialized
      ensures store.isTyping == old(store.isTyping) && store.sessions == old(store.sessions)
      ensures input == old(input) && isListening == old(isListening) && isAutoMode == old(isAutoMode)
    {
      store.ResetChat();
      hasInitialized := false;
    }
  }

  /** With a non-empty chat, the shipped clear handler leaves the messages
    * in place while the intended one empties them. */
  method ClearChatDiscrepancy(page: AIChatbotState) returns (asWritten: seq<Record>, intended: seq<Record>)
    requires |page.store.messages| > 0
    modifies page, page.store
    ensures |asWritten| > 0 && intended == []
  {
    var threw := page.HandleClearChatAsWritten();
    asWritten := page.store.messages;
    page.HandleClearChat();
    intended := page.store.messages;
  }
}
