/**
 * The chat widget's submit logic (src/app/components/ChatWidget.tsx): the
 * message list, the input box, the loading flag and the selected language,
 * and `handleSubmit`, whose awaited post splits it into `BeginSubmit` (up to
 * the request) and `CompleteSubmit` (after the reply or the error).
 */
module ChatWidget {
  import opened Wrappers
  import Faq
  import JsString
  import ChatRoute
  import FaqStore

  /** The bot's text when the request fails. */
  const ErrorText: string := "Sorry, I encountered an error. Please try again."

  /**
   * One line of the conversation. A bot message's text is whatever the reply
   * carried as `answer`, which may be absent.
   */
  datatype Message = Message(text: Option<string>, isUser: bool, source: Option<ChatRoute.Source>)

  /** The body the widget posts to `/api/chat`. */
  datatype ChatRequest = ChatRequest(message: string, lang: string)

  /** How the awaited post ended: rejected (network error or error status), or the reply's fields. */
  datatype Reply = Rejected | Resolved(answer: Option<string>, source: ChatRoute.Source)

  /** The message recording what the user sent. */
  function UserMessage(text: string): (m: Message)
    ensures m.isUser && m.text == Some(text) && m.source.None?
  {
    Message(Some(text), true, None)
  }

  /** The bot's message for a reply: its answer and source, or the fixed error text without a source. */
  function BotMessage(reply: Reply): (m: Message)
    ensures !m.isUser
    ensures m.source.Some? <==> reply.Resolved?
    ensures reply.Resolved? ==> m.text == reply.answer && m.source == Some(reply.source)
    ensures reply.Rejected? ==> m.text == Some(ErrorText)
  {
    match reply
    case Rejected => Message(Some(ErrorText), false, None)
    case Resolved(answer, source) => Message(answer, false, Some(source))
  }

  /** A message the user sent: non-empty, with no white space at either end, no source. */
  predicate IsUserTurn(m: Message) {
    m.isUser && m.text.Some? && m.text.value != []
    && !JsString.IsSpace(m.text.value[0]) && !JsString.IsSpace(m.text.value[|m.text.value| - 1])
    && m.source.None?
  }

  /** A bot message: a bot message without a source is the error text. */
  predicate IsBotTurn(m: Message) {
    !m.isUser && (m.source.None? ==> m.text == Some(ErrorText))
  }

  /** The conversation alternates: each user message is followed by exactly one bot message. */
  predicate Alternates(ms: seq<Message>) {
    forall i :: 0 <= i < |ms| ==> if i % 2 == 0 then IsUserTurn(ms[i]) else IsBotTurn(ms[i])
  }

  /** Appending the message whose turn it is keeps the conversation alternating. */
  lemma AppendKeepsAlternation(ms: seq<Message>, m: Message)
    requires Alternates(ms)
    requires if |ms| % 2 == 0 then IsUserTurn(m) else IsBotTurn(m)
    ensures Alternates(ms + [m])
  {
    var ms' := ms + [m];
    forall i | 0 <= i < |ms'| ensures if i % 2 == 0 then IsUserTurn(ms'[i]) else IsBotTurn(ms'[i]) {
      if i < |ms| {
        assert ms'[i] == ms[i];
        assert if i % 2 == 0 then IsUserTurn(ms[i]) else IsBotTurn(ms[i]);
      } else {
        assert ms'[i] == m;
      }
    }
  }

  class Widget {
    var messages: seq<Message>
    var input: string
    var isLoading: bool
    var language: Faq.Language

    /** A request is pending exactly when the last message is the user's, still unanswered. */
    ghost predicate Valid()
      reads this
    {
      Alternates(messages) && (isLoading <==> |messages| % 2 == 1)
    }

    /** The widget as first rendered: no messages, empty input, not loading, Croatian. */
    constructor ()
      ensures Valid()
      ensures messages == [] && input == "" && !isLoading && language == Faq.Hr
    {
      messages := [];
      input := "";
      isLoading := false;
      language := Faq.Hr;
    }

    /** Typing into the input box. */
    method SetInput(text: string)
      requires Valid()
      modifies this`input
      ensures Valid()
      ensures input == text
    {
      input := text;
    }

    /** Choosing a language in the selector, which offers only the FAQ's two options. */
    method SetLanguage(choice: Faq.Language)
      requires Valid()
      modifies this`language
      ensures Valid()
      ensures language == choice
    {
      language := choice;
    }

    /**
     * The part of `handleSubmit` before the request: nothing happens when the
     * trimmed input is empty or a request is pending; otherwise the trimmed
     * input is appended as the user's message, the input is cleared, loading
     * starts, and the request to send is returned.
     */
    method BeginSubmit() returns (request: Option<ChatRequest>)
      requires Valid()
      modifies this
      ensures Valid()
      ensures request.Some? <==> JsString.Trim(old(input)) != [] && !old(isLoading)
      ensures request.None? ==> messages == old(messages) && input == old(input)
                                && isLoading == old(isLoading)
      ensures request.Some? ==>
                request.value == ChatRequest(JsString.Trim(old(input)), old(language).Code())
                && messages == old(messages) + [UserMessage(JsString.Trim(old(input)))]
                && input == "" && isLoading
      ensures language == old(language)
    {
      var userMessage := JsString.Trim(input);
      if userMessage == [] || isLoading {
        return None;
      }
      AppendKeepsAlternation(messages, UserMessage(userMessage));
      input := "";
      messages := messages + [UserMessage(userMessage)];
      isLoading := true;
      request := Some(ChatRequest(userMessage, language.Code()));
    }

    /**
     * The part of `handleSubmit` after the request: exactly one bot message
     * is appended, for the reply or for the failure, and loading stops.
     */
    method CompleteSubmit(reply: Reply)
      requires Valid() && isLoading
      modifies this`messages, this`isLoading
      ensures Valid()
      ensures messages == old(messages) + [BotMessage(reply)]
      ensures !isLoading
    {
      AppendKeepsAlternation(messages, BotMessage(reply));
      messages := messages + [BotMessage(reply)];
      isLoading := false;
    }
  }

  /** The route's body for a widget request: the message and an explicit language. */
  function ToBody(request: ChatRequest): (body: ChatRoute.Body)
    ensures body.Parsed? && body.message == request.message && body.lang == Some(request.lang)
  {
    ChatRoute.Parsed(request.message, Some(request.lang))
  }

  /**
   * How the widget receives a route response: the post rejects on a non-2xx
   * status, and the route's only error status is 500.
   */
  function Receive(response: ChatRoute.Response): (reply: Reply)
    ensures reply.Rejected? <==> response.Error?
    ensures response.Answer? ==> reply == Resolved(response.answer, response.source)
  {
    match response
    case Answer(answer, source) => Resolved(answer, source)
    case Error(_, _) => Rejected
  }

  /**
   * `handleSubmit` as a whole, against the chat route: either nothing
   * changes, or exactly two messages are appended, the user's and the bot's
   * reply to the route's response, and loading is over.
   */
  method HandleSubmit(w: Widget, cmsReady: bool,
                      find: FaqStore.Query -> ChatRoute.LookupOutcome,
                      complete: ChatRoute.Completion -> ChatRoute.GenerationOutcome)
    requires w.Valid()
    modifies w
    ensures w.Valid() && w.language == old(w.language)
    ensures |w.messages| == |old(w.messages)| || |w.messages| == |old(w.messages)| + 2
    ensures w.messages[..|old(w.messages)|] == old(w.messages)
    ensures |w.messages| == |old(w.messages)| + 2 <==> JsString.Trim(old(w.input)) != [] && !old(w.isLoading)
    ensures |w.messages| == |old(w.messages)| ==> w.input == old(w.input) && w.isLoading == old(w.isLoading)
    ensures |w.messages| == |old(w.messages)| + 2 ==>
              !w.isLoading && w.input == "" &&
              var x := ChatRoute.Post(ChatRoute.Parsed(JsString.Trim(old(w.input)), Some(old(w.language).Code())),
                                      cmsReady, find, complete);
              w.messages[|old(w.messages)|] == UserMessage(JsString.Trim(old(w.input)))
              && w.messages[|old(w.messages)| + 1] == BotMessage(Receive(x.response))
  {
    var request := w.BeginSubmit();
    if request.Some? {
      var exchange := ChatRoute.Post(ToBody(request.value), cmsReady, find, complete);
      w.CompleteSubmit(Receive(exchange.response));
    }
  }

  /**
   * Whatever the route does, the bot's message for it carries `local` exactly
   * when a stored FAQ record answered, and a message without a source is the
   * error text exactly when the route failed.
   */
  lemma BotMessageForRoute(request: ChatRequest, cmsReady: bool,
                           find: FaqStore.Query -> ChatRoute.LookupOutcome,
                           complete: ChatRoute.Completion -> ChatRoute.GenerationOutcome)
    ensures var x := ChatRoute.Post(ToBody(request), cmsReady, find, complete);
            var m := BotMessage(Receive(x.response));
            var found := find(ChatRoute.LookupQuery(request.message, request.lang));
            (m.source == Some(ChatRoute.Local) <==> cmsReady && found.Docs? && |found.docs| > 0)
            && (m.source.None? <==> x.response == ChatRoute.Failed)
            && (m.source.None? ==> m.text == Some(ErrorText))
  {
  }

  /** The widget only ever asks in one of the FAQ's languages. */
  lemma RequestLanguageIsAnOption(w: Widget)
    ensures Faq.ParseLanguage(w.language.Code()) == Some(w.language)
  {
    Faq.CodeRoundTrip(w.language);
  }
}
