/**
 * The chat answer route (`POST /api/chat`, src/app/api/chat/route.ts).
 *
 * The handler reads `{message, lang}`, looks the message up in the FAQ
 * collection for that language, answers with the first record found
 * (source `local`), and otherwise asks the completion service once and
 * answers with the first choice's content (source `openai`). Every failure
 * along the way becomes one uniform 500 response.
 *
 * The CMS and the completion service are collaborators whose behaviour is
 * not visible here: they are passed in as functions from the request the
 * route sends to the outcome it receives, and the result records which
 * requests the route made, in order.
 */
module ChatRoute {
  import opened Wrappers
  import Faq
  import FaqStore

  /** Used for `lang` when the request body has none. */
  const DefaultLang: string := "hr"
  const CompletionModel: string := "gpt-4-turbo"
  const ConciergePersona: string := "You are a helpful hotel concierge answering questions for guests. "
  const FailureMessage: string := "Failed to process chat request"
  const FailureStatus: int := 500

  /** The request body after `req.json()`: unreadable, or a message with an optional `lang`. */
  datatype Body = Malformed | Parsed(message: string, lang: Option<string>)

  /** What the CMS returns for a find: an error, or the matching records in its order. */
  datatype LookupOutcome = LookupFailed | Docs(docs: seq<Faq.Record>)

  datatype Role = System | User

  /** One entry of the completion request's `messages`. */
  datatype Turn = Turn(role: Role, content: string)

  /** A completion request: the model and the conversation sent to it. */
  datatype Completion = Completion(model: string, messages: seq<Turn>)

  /**
   * What the completion service returns: an error, or its choices, each
   * carrying the message content when there is one (`None` for an absent
   * message or a null content).
   */
  datatype GenerationOutcome = GenerationFailed | Choices(contents: seq<Option<string>>)

  /** Where an answer came from: a stored FAQ record, or the completion service. */
  datatype Source = Local | OpenAi {
    /** The value of the response's `source` field. */
    function Tag(): (t: string)
      ensures (this == Local) == (t == "local")
      ensures (this == OpenAi) == (t == "openai")
    {
      match this
      case Local => "local"
      case OpenAi => "openai"
    }
  }

  /** The JSON the route responds with. */
  datatype Response =
    | Answer(answer: Option<string>, source: Source)
    | Error(error: string, status: int)

  /** The one failure response, whatever went wrong. */
  const Failed: Response := Error(FailureMessage, FailureStatus)

  /** A request the route sends to a collaborator. */
  datatype Call = Find(query: FaqStore.Query) | Generate(request: Completion)

  /** What one invocation did: the requests it sent, in order, and its response. */
  datatype Exchange = Exchange(calls: seq<Call>, response: Response)

  /** The FAQ lookup for a message in a language. */
  function LookupQuery(message: string, lang: string): (q: FaqStore.Query)
    ensures q.collection == Faq.Slug && q.questionLike == message && q.languageEquals == lang
  {
    FaqStore.Query(Faq.Slug, message, lang)
  }

  /** The completion request for a message: the concierge persona, then the message verbatim. */
  function CompletionFor(message: string): (c: Completion)
    ensures c.model == CompletionModel
    ensures |c.messages| == 2
    ensures c.messages[0] == Turn(System, ConciergePersona)
    ensures c.messages[1] == Turn(User, message)
  {
    Completion(CompletionModel, [Turn(System, ConciergePersona), Turn(User, message)])
  }

  /**
   * The handler. `cmsReady` is whether the CMS client could be set up;
   * `find` and `complete` answer the route's two kinds of request.
   */
  function Post(body: Body, cmsReady: bool,
                find: FaqStore.Query -> LookupOutcome,
                complete: Completion -> GenerationOutcome): (x: Exchange)
    // at most one lookup and one completion, the lookup first
    ensures |x.calls| <= 2
    ensures x.calls == [] <==> body.Malformed? || !cmsReady
    ensures x.calls != [] ==> x.calls[0] == Find(LookupQuery(body.message, body.lang.GetOr(DefaultLang)))
    // the completion is requested exactly when the lookup succeeded with no records
    ensures |x.calls| == 2 <==> x.calls != [] && find(x.calls[0].query) == Docs([])
    ensures |x.calls| == 2 ==> x.calls[1] == Generate(CompletionFor(body.message))
    // a local answer is the first record found, and only when one was found
    ensures x.response.Answer? && x.response.source == Local
            <==> x.calls != [] && find(x.calls[0].query).Docs? && |find(x.calls[0].query).docs| > 0
    ensures x.response.Answer? && x.response.source == Local
            ==> x.response.answer == Some(find(x.calls[0].query).docs[0].answer)
    // a generated answer is the first choice's content, and only when there was a choice
    ensures x.response.Answer? && x.response.source == OpenAi
            <==> |x.calls| == 2 && complete(x.calls[1].request).Choices?
                 && |complete(x.calls[1].request).contents| > 0
    ensures x.response.Answer? && x.response.source == OpenAi
            ==> x.response.answer == complete(x.calls[1].request).contents[0]
    // every failure looks the same
    ensures x.response.Error? ==> x.response == Failed
  {
    match body
    case Malformed => Exchange([], Failed)
    case Parsed(message, lang) =>
      if !cmsReady then Exchange([], Failed)
      else
        var query := LookupQuery(message, lang.GetOr(DefaultLang));
        match find(query)
        case LookupFailed => Exchange([Find(query)], Failed)
        case Docs(docs) =>
          if |docs| > 0 then Exchange([Find(query)], Answer(Some(docs[0].answer), Local))
          else
            var request := CompletionFor(message);
            match complete(request)
            case GenerationFailed => Exchange([Find(query), Generate(request)], Failed)
            case Choices(contents) =>
              // `choices[0].message` throws on an empty list
              if |contents| == 0 then Exchange([Find(query), Generate(request)], Failed)
              else Exchange([Find(query), Generate(request)], Answer(contents[0], OpenAi))
  }

  /** Leaving `lang` out of the body behaves exactly like sending `lang: "hr"`. */
  lemma DefaultLanguageIsHr(message: string, cmsReady: bool,
                            find: FaqStore.Query -> LookupOutcome,
                            complete: Completion -> GenerationOutcome)
    ensures Post(Parsed(message, None), cmsReady, find, complete)
         == Post(Parsed(message, Some(DefaultLang)), cmsReady, find, complete)
  {
  }

  /** A supplied `lang` reaches the language filter unchanged, whether or not it is an FAQ option. */
  lemma LangIsForwarded(message: string, lang: string,
                        find: FaqStore.Query -> LookupOutcome,
                        complete: Completion -> GenerationOutcome)
    ensures Post(Parsed(message, Some(lang)), true, find, complete).calls[0]
         == Find(FaqStore.Query("faq", message, lang))
  {
  }

  /** When the lookup finds records, the first one answers and the completion service is never asked. */
  lemma LocalHit(message: string, lang: Option<string>,
                 find: FaqStore.Query -> LookupOutcome,
                 complete: Completion -> GenerationOutcome)
    requires find(LookupQuery(message, lang.GetOr(DefaultLang))).Docs?
    requires |find(LookupQuery(message, lang.GetOr(DefaultLang))).docs| > 0
    ensures var x := Post(Parsed(message, lang), true, find, complete);
            x.response == Answer(Some(find(LookupQuery(message, lang.GetOr(DefaultLang))).docs[0].answer), Local)
            && forall c :: c in x.calls ==> c.Find?
  {
  }

  /**
   * When the lookup finds nothing, the route asks for exactly one completion,
   * with the persona and the verbatim message. The first choice's content,
   * even an absent one, is the answer; no choices, or a failed completion,
   * is the failure response.
   */
  lemma Fallback(message: string, lang: Option<string>,
                 find: FaqStore.Query -> LookupOutcome,
                 complete: Completion -> GenerationOutcome)
    requires find(LookupQuery(message, lang.GetOr(DefaultLang))) == Docs([])
    ensures var x := Post(Parsed(message, lang), true, find, complete);
            x.calls == [Find(LookupQuery(message, lang.GetOr(DefaultLang))),
                        Generate(Completion("gpt-4-turbo",
                                            [Turn(System, ConciergePersona), Turn(User, message)]))]
            && var g := complete(CompletionFor(message));
               (g.Choices? && |g.contents| > 0 ==> x.response == Answer(g.contents[0], OpenAi))
               && (g == Choices([]) ==> x.response == Failed)
               && (g == GenerationFailed ==> x.response == Failed)
  {
  }

  /** A failed lookup ends in the failure response, and no completion is requested. */
  lemma LookupFailureIsolated(message: string, lang: Option<string>,
                              find: FaqStore.Query -> LookupOutcome,
                              complete: Completion -> GenerationOutcome)
    requires find(LookupQuery(message, lang.GetOr(DefaultLang))) == LookupFailed
    ensures var x := Post(Parsed(message, lang), true, find, complete);
            x.response == Failed && |x.calls| == 1
  {
  }

  /**
   * Each invocation ends in exactly one of a local answer, a generated answer
   * or the failure response, and only the answers carry a source.
   */
  lemma ExactlyOneOutcome(body: Body, cmsReady: bool,
                          find: FaqStore.Query -> LookupOutcome,
                          complete: Completion -> GenerationOutcome)
    ensures var r := Post(body, cmsReady, find, complete).response;
            (r.Answer? && r.source == Local) || (r.Answer? && r.source == OpenAi) || r == Failed
  {
  }

  /**
   * The route answers from the FAQ store: when the CMS answers the route's
   * lookup from a store with its `like` test, a local answer is the answer of
   * a stored record that matches the message in the requested language, and,
   * as stored answers are required, it is not empty.
   */
  lemma LocalAnswerFromStore(message: string, lang: Option<string>, store: seq<Faq.Record>,
                             like: (string, string) -> bool,
                             find: FaqStore.Query -> LookupOutcome,
                             complete: Completion -> GenerationOutcome)
    requires forall r :: r in store ==> Faq.Valid(r)
    requires var q := LookupQuery(message, lang.GetOr(DefaultLang));
             find(q) == Docs(FaqStore.Find(store, like, q))
    ensures var x := Post(Parsed(message, lang), true, find, complete);
            x.response.Answer? && x.response.source == Local
            ==> exists i :: 0 <= i < |store|
                  && x.response.answer == Some(store[i].answer) && |store[i].answer| > 0
                  && like(store[i].question, message)
                  && store[i].language.Code() == lang.GetOr(DefaultLang)
  {
    var q := LookupQuery(message, lang.GetOr(DefaultLang));
    var docs := FaqStore.Find(store, like, q);
    var x := Post(Parsed(message, lang), true, find, complete);
    if x.response.Answer? && x.response.source == Local {
      assert docs != [] && x.response.answer == Some(docs[0].answer);
      var i :| 0 <= i < |store| && store[i] == docs[0];
      assert FaqStore.Matches(like, q, store[i]);
    }
  }

  /**
   * An unknown language is not rejected: it is passed to the lookup, which
   * cannot find a record in it, so the question always goes to the
   * completion service.
   */
  lemma UnknownLanguageIsGenerated(message: string, lang: string, store: seq<Faq.Record>,
                                   like: (string, string) -> bool,
                                   find: FaqStore.Query -> LookupOutcome,
                                   complete: Completion -> GenerationOutcome)
    requires lang != "hr" && lang != "en"
    requires find(LookupQuery(message, lang)) == Docs(FaqStore.Find(store, like, LookupQuery(message, lang)))
    ensures Post(Parsed(message, Some(lang)), true, find, complete).calls
         == [Find(LookupQuery(message, lang)), Generate(CompletionFor(message))]
  {
    FaqStore.UnknownLanguageFindsNothing(store, like, LookupQuery(message, lang));
  }
}
