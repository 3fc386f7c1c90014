/** The chat assistant window of the web client: its transcript, the welcome message
    seeded when it opens, `sendMessage` with its guards, the quick-search buttons, and
    the language-dependent error text and speech codes.

    Each handler is one atomic method whose awaited `/api/chatbot/chat` answer is an
    input (`None` when the request fails or answers with an error status); the new
    state is a pure transition of a snapshot of the old one. */
module ChatWindow {
  import opened Wrappers
  import opened Text
  import opened Chatbot

  datatype Sender = User | Bot

  /** A transcript entry; `schemes` is present only on a bot reply from the backend. */
  datatype Message = Message(sender: Sender, text: string, schemes: Option<seq<Found>>)

  /** A snapshot of the window's state. */
  datatype Window = Window(messages: seq<Message>, inputText: string, isLoading: bool)

  const Initial := Window([], "", false)

  const WelcomeEn := "Hello! I'm your SahayataAI assistant. Ask me about government schemes in English, Telugu, or Hindi. How can I help you today?"
  const WelcomeTe := "నమస్కారం! నేను మీ సహాయతAI అసిస్టెంట్. ఆంగ్లం, తెలుగు లేదా హిందీలో ప్రభుత్వ పథకాల గురించి నన్ను అడగండి. నేను మీకు ఎలా సహాయం చేయగలను?"
  const WelcomeHi := "नमस्ते! मैं आपका सहायताAI सहायक हूं। अंग्रेजी, तेलुगु या हिंदी में सरकारी योजनाओं के बारे में मुझसे पूछें। मैं आज आपकी कैसे मदद कर सकता हूं?"

  /** `welcomeMessages[language] || welcomeMessages.en`. */
  function WelcomeFor(language: string): (r: string)
    ensures language == "te" ==> r == WelcomeTe
    ensures language == "hi" ==> r == WelcomeHi
    ensures language != "te" && language != "hi" ==> r == WelcomeEn
  {
    if language == "en" then WelcomeEn else if language == "te" then WelcomeTe
    else if language == "hi" then WelcomeHi else WelcomeEn
  }

  const ErrorEn := "Sorry, I encountered an error. Please try again."
  const ErrorTe := "క్షమించండి, నాకు ఒక లోపం ఎదురైంది. దయచేసి మళ్లీ ప్రయత్నించండి."
  const ErrorHi := "क्षमा करें, मुझे एक त्रुटि का सामना करना पड़ा। कृपया पुन: प्रयास करें।"

  /** The apology appended when a chat request fails: English for en, Telugu for te,
      Hindi for every other code. */
  function ErrorFor(language: string): (r: string)
    ensures r in {ErrorEn, ErrorTe, ErrorHi}
    ensures r == ErrorEn <==> language == "en"
    ensures r == ErrorTe <==> language == "te"
  {
    if language == "en" then ErrorEn else if language == "te" then ErrorTe else ErrorHi
  }

  /** `langCodes[language] || 'en-IN'`, used for recognition and for synthesis. */
  function SpeechCode(language: string): (r: string)
    ensures language == "te" ==> r == "te-IN"
    ensures language == "hi" ==> r == "hi-IN"
    ensures language != "te" && language != "hi" ==> r == "en-IN"
  {
    if language == "en" then "en-IN" else if language == "te" then "te-IN"
    else if language == "hi" then "hi-IN" else "en-IN"
  }

  /** The welcome effect: an open window with an empty transcript gets one bot message. */
  function Seed(w: Window, isOpen: bool, language: string): Window {
    if isOpen && |w.messages| == 0 then w.(messages := [Message(Bot, WelcomeFor(language), None)]) else w
  }

  /** `messageText || inputText`: an explicit non-empty argument wins. */
  function TextToSend(argument: Option<string>, inputText: string): string {
    if argument.Some? && argument.value != "" then argument.value else inputText
  }

  predicate Accepts(w: Window, argument: Option<string>) {
    Strip(TextToSend(argument, w.inputText)) != "" && !w.isLoading
  }

  /** The bot message a settled request appends. */
  function BotMessage(answer: Option<ChatResponse>, language: string): Message {
    match answer
    case Some(data) => Message(Bot, data.response, Some(data.schemes))
    case None => Message(Bot, ErrorFor(language), None)
  }

  /** `sendMessage`: when accepted, the user's message and then one bot message are
      appended, the input is cleared and loading ends. */
  function Send(w: Window, argument: Option<string>, answer: Option<ChatResponse>, language: string): Window {
    if !Accepts(w, argument) then w
    else
      var text := TextToSend(argument, w.inputText);
      Window(w.messages + [Message(User, text, None), BotMessage(answer, language)], "", false)
  }

  /** A quick-search button: the query is put in the input and sent. The send reads
      the input captured when the handler was created, so an empty query falls back to
      the earlier input; a refused send leaves the query in the input. */
  function QuickSearch(w: Window, query: string, answer: Option<ChatResponse>, language: string): Window {
    if Accepts(w, Some(query)) then Send(w, Some(query), answer, language)
    else w.(inputText := query)
  }

  /** For a non-empty query a quick search is the same as typing the query and
      pressing send; an empty one sends whatever was typed before. */
  lemma QuickSearchIsTypeThenSend(w: Window, query: string, answer: Option<ChatResponse>, language: string)
    ensures query != "" ==>
      QuickSearch(w, query, answer, language) == Send(w.(inputText := query), None, answer, language)
    ensures query == "" && Accepts(w, None) ==>
      QuickSearch(w, query, answer, language).messages[|w.messages|] == Message(User, w.inputText, None)
  {
  }

  /** An accepted send grows the transcript by exactly two, keeps every earlier
      message, and leaves the input empty and loading false; a refused one changes
      nothing. */
  lemma SendEffect(w: Window, argument: Option<string>, answer: Option<ChatResponse>, language: string)
    ensures var after := Send(w, argument, answer, language);
      if Accepts(w, argument) then
        |after.messages| == |w.messages| + 2 && after.messages[..|w.messages|] == w.messages
        && after.messages[|w.messages|] == Message(User, TextToSend(argument, w.inputText), None)
        && after.messages[|w.messages| + 1].sender == Bot
        && after.inputText == "" && !after.isLoading
      else after == w
  {
    var after := Send(w, argument, answer, language);
    if Accepts(w, argument) {
      assert after.messages[..|w.messages|] == w.messages;
    }
  }

  /** The bot message is the backend's reply when there is one and the localised
      apology otherwise. */
  lemma ReplyOrApology(w: Window, argument: Option<string>, answer: Option<ChatResponse>, language: string)
    requires Accepts(w, argument)
    ensures var last := Send(w, argument, answer, language).messages[|w.messages| + 1];
      (answer.Some? ==> last.text == answer.value.response && last.schemes == Some(answer.value.schemes))
      && (answer.None? ==> last.text == ErrorFor(language) && last.schemes.None?)
  {
  }

  /** An explicit non-empty argument is sent; an absent or empty one sends the input. */
  lemma ArgumentPriority(argument: Option<string>, inputText: string)
    ensures argument.Some? && argument.value != "" ==> TextToSend(argument, inputText) == argument.value
    ensures argument == None || argument == Some("") ==> TextToSend(argument, inputText) == inputText
  {
  }

  /** Nothing is sent while a request is in flight or when the text is only
      whitespace. */
  lemma SendGuards(w: Window, argument: Option<string>, answer: Option<ChatResponse>, language: string)
    requires w.isLoading || Strip(TextToSend(argument, w.inputText)) == ""
    ensures Send(w, argument, answer, language) == w
  {
  }

  /** Opening seeds exactly one welcome message into an empty transcript, never touches
      a non-empty one, and seeding twice is seeding once. */
  lemma SeedOnce(w: Window, isOpen: bool, language: string)
    ensures isOpen && w.messages == [] ==>
      Seed(w, isOpen, language).messages == [Message(Bot, WelcomeFor(language), None)]
    ensures w.messages != [] || !isOpen ==> Seed(w, isOpen, language) == w
    ensures Seed(Seed(w, isOpen, language), isOpen, language) == Seed(w, isOpen, language)
  {
  }

  /** What can happen to the window. */
  datatype Event =
    | Opened(isOpen: bool)
    | Typed(text: string)
    | Sent(argument: Option<string>, answer: Option<ChatResponse>)
    | Quick(query: string, answer: Option<ChatResponse>)

  function Step(w: Window, e: Event, language: string): Window {
    match e
    case Opened(isOpen) => Seed(w, isOpen, language)
    case Typed(text) => w.(inputText := text)
    case Sent(argument, answer) => Send(w, argument, answer, language)
    case Quick(query, answer) => QuickSearch(w, query, answer, language)
  }

  function Replay(w: Window, events: seq<Event>, language: string): Window
    decreases |events|
  {
    if events == [] then w else Replay(Step(w, events[0], language), events[1..], language)
  }

  predicate IsPrefix(a: seq<Message>, b: seq<Message>) {
    |a| <= |b| && b[..|a|] == a
  }

  lemma StepAppends(w: Window, e: Event, language: string)
    ensures IsPrefix(w.messages, Step(w, e, language).messages)
    ensures !w.isLoading ==> !Step(w, e, language).isLoading
  {
    match e
    case Sent(argument, answer) => SendEffect(w, argument, answer, language);
    case Quick(query, answer) => SendEffect(w.(inputText := query), Some(query), answer, language);
    case _ =>
  }

  /** The transcript is append-only: after any run of events every earlier message is
      still there, in its place; and loading never stays on after a handler. */
  lemma {:induction false} ReplayAppendOnly(w: Window, events: seq<Event>, language: string)
    ensures IsPrefix(w.messages, Replay(w, events, language).messages)
    ensures !w.isLoading ==> !Replay(w, events, language).isLoading
    decreases |events|
  {
    if events != [] {
      var next := Step(w, events[0], language);
      StepAppends(w, events[0], language);
      ReplayAppendOnly(next, events[1..], language);
      var last := Replay(next, events[1..], language).messages;
      assert last[..|next.messages|][..|w.messages|] == last[..|w.messages|];
    }
  }

  lemma AppendTwo<T>(s: seq<T>, a: T, b: T)
    ensures s + [a] + [b] == s + [a, b]
  {
  }

  class ChatAssistant {
    var messages: seq<Message>
    var inputText: string
    var isLoading: bool

    function State(): Window
      reads this
    {
      Window(messages, inputText, isLoading)
    }

    constructor ()
      ensures State() == Initial
    {
      messages := [];
      inputText := "";
      isLoading := false;
    }

    /** The welcome effect, run when `isOpen` or the language changes. */
    method OpenEffect(isOpen: bool, language: string)
      modifies this
      ensures State() == Seed(old(State()), isOpen, language)
    {
      if isOpen && |messages| == 0 {
        messages := [Message(Bot, WelcomeFor(language), None)];
      }
    }

    method SetInputText(text: string)
      modifies this
      ensures State() == old(State()).(inputText := text)
    {
      inputText := text;
    }

    /** `sendMessage(argument)`; `request` is the body posted, if any. */
    method SendMessage(argument: Option<string>, answer: Option<ChatResponse>, language: string)
      returns (request: Option<ChatRequest>)
      modifies this
      ensures State() == Send(old(State()), argument, answer, language)
      ensures request.Some? <==> Accepts(old(State()), argument)
      ensures request.Some? ==> request.value == ChatRequest(TextToSend(argument, old(inputText)), language)
    {
      ghost var w := State();
      var textToSend := if argument.Some? && argument.value != "" then argument.value else inputText;
      assert textToSend == TextToSend(argument, w.inputText);
      if Strip(textToSend) == "" || isLoading {
        assert !Accepts(w, argument);
        return None;
      }
      assert Accepts(w, argument);
      var userMessage := Message(User, textToSend, None);
      messages := messages + [userMessage];
      inputText := "";
      isLoading := true;
      request := Some(ChatRequest(textToSend, language));
      var botMessage := BotMessage(answer, language);
      messages := messages + [botMessage];
      AppendTwo(w.messages, userMessage, botMessage);
      isLoading := false;
      assert State() == Window(w.messages + [userMessage, botMessage], "", false);
    }

    /** `handleQuickSearch(query)`. */
    method HandleQuickSearch(query: string, answer: Option<ChatResponse>, language: string)
      returns (request: Option<ChatRequest>)
      modifies this
      ensures State() == QuickSearch(old(State()), query, answer, language)
      ensures request.Some? <==> Accepts(old(State()), Some(query))
      ensures query != "" ==> (request.Some? <==> Strip(query) != "" && !old(isLoading))
    {
      request := SendMessage(Some(query), answer, language);
      if request.None? {
        inputText := query;
      }
    }
  }
}
