# AI concierge chat: answer routing and chat widget, in Dafny

A model of the answer path of a hotel-concierge chatbot. A guest types a
question into the chat widget. The widget posts it, with the selected
language, to the chat route. The route looks the message up in the FAQ
collection of the CMS for that language. When a record is found, the route
answers with the first record's answer, tagged `local`. Otherwise it asks the
completion service once, with a fixed concierge persona and the message, and
answers with the first choice's content, tagged `openai`. Any failure becomes
one uniform 500 response. The widget then appends one bot message: the answer
and its source, or a fixed error text.

Modules (one per source file or component):

- `Wrappers`: `Option` and `Result`.
- `Faq` (`src/collections/FAQ.ts`): the record type, the two languages, creation with the `hr` default and field validation, and the read access rule.
- `FaqStore`: the FAQ lookup the route sends to the CMS. The CMS's `like` test is a parameter. The language test is exact equality. Results keep the store's order.
- `ChatRoute` (`src/app/api/chat/route.ts`): `Post` is a total function of the parsed body, whether the CMS came up, and the two collaborators. The collaborators are passed as functions from the request sent to the outcome received. The result lists the requests made, in order, together with the response.
- `JsString`: `String.prototype.trim`, which the widget applies to the input. Stripping is defined and proved for any test on characters; `Trim` uses the ECMAScript white space and line terminators.
- `ChatWidget` (`src/app/components/ChatWidget.tsx`): a `Widget` class holding `messages`, `input`, `isLoading` and `language`. `handleSubmit` is split at its `await` into `BeginSubmit` and `CompleteSubmit`. `HandleSubmit` runs both against `ChatRoute.Post`.

Behaviour of the code worth knowing:

- Generated answers are tagged `openai` (route.ts:74).
- `lang` is not checked against `hr`/`en`. Any value goes to the language filter, and an unknown one finds nothing, so the completion service answers.
- A first choice with no content is a success with no answer.
- An empty choice list fails, because `choices[0].message` throws.

## Model

| member | source | states |
|---|---|---|
| `Faq.ParseLanguage` | src/collections/FAQ.ts:26-32 | a language value is accepted exactly when it is `hr` or `en`, and it maps back to its own code |
| `Faq.CodeRoundTrip` | src/collections/FAQ.ts:29-32 | each language option parses back from its stored value |
| `Faq.Errors` | src/collections/FAQ.ts:13-36 | a draft's errors name exactly the failing fields: question missing or empty, answer missing or empty, language not an option after the default is applied |
| `Faq.Create` | src/collections/FAQ.ts:13-36 | creation succeeds exactly when question and answer are non-empty and the language is absent, `hr` or `en`; the record keeps the given texts, takes language `hr` when none is given, and is valid; otherwise every field error is reported |
| `Faq.DefaultIsCroatian` | src/collections/FAQ.ts:33-34 | creating a record without a language is the same as creating it with `hr` |
| `Faq.CanRead` | src/collections/FAQ.ts:10-12 | every reader, anonymous or signed in, may read FAQ records |
| `FaqStore.Find` | src/app/api/chat/route.ts:40-46 | the lookup returns only stored records whose question is `like` the message and whose language equals the requested one; it returns every such record; its first result is the first such record in store order |
| `FaqStore.NoCrossLanguage` | src/app/api/chat/route.ts:44 | a record found for a language has exactly that language |
| `FaqStore.UnknownLanguageFindsNothing` | src/app/api/chat/route.ts:44 | a language other than `hr` or `en` finds no record in any store |
| `ChatRoute.LookupQuery` | src/app/api/chat/route.ts:40-46 | the lookup targets the `faq` collection, with the verbatim message as the `like` pattern and the language as the `equals` value |
| `ChatRoute.CompletionFor` | src/app/api/chat/route.ts:56-68 | the completion request uses `gpt-4-turbo` and exactly two messages: the concierge persona as system, then the user's message verbatim |
| `ChatRoute.Post` | src/app/api/chat/route.ts:28-80 | at most two requests, lookup first; no request when the body is unreadable or the CMS is not up; the lookup carries the message and `lang`, defaulting to `hr`; a completion is requested exactly when the lookup returned no records; `local` exactly when records were found, answering with the first; `openai` exactly when the completion gave at least one choice, answering with the first choice's content; every error is the single uniform failure |
| `ChatRoute.DefaultLanguageIsHr` | src/app/api/chat/route.ts:30 | a body without `lang` gives the same requests and response as one with `lang: "hr"` |
| `ChatRoute.LangIsForwarded` | src/app/api/chat/route.ts:30-46 | any supplied `lang` reaches the lookup's language filter unchanged |
| `ChatRoute.LocalHit` | src/app/api/chat/route.ts:48-53 | when the lookup finds records, the response is the first record's answer tagged `local` and no completion is requested |
| `ChatRoute.Fallback` | src/app/api/chat/route.ts:55-75 | when the lookup finds nothing, the route makes exactly the lookup and then one `gpt-4-turbo` request with the persona and the verbatim message; a first choice without content is a success with no answer, and in general the first choice's content is the answer tagged `openai`; no choices, or a failed completion, is the failure response |
| `ChatRoute.LookupFailureIsolated` | src/app/api/chat/route.ts:40-79 | a failed lookup gives the failure response and no completion request |
| `ChatRoute.ExactlyOneOutcome` | src/app/api/chat/route.ts:48-79 | every invocation ends as a local answer, a generated answer, or the uniform failure |
| `ChatRoute.LocalAnswerFromStore` | src/app/api/chat/route.ts:40-53 | when the CMS answers the lookup from a store, a local answer is the non-empty answer of a stored record that is `like` the message and in the requested language |
| `ChatRoute.UnknownLanguageIsGenerated` | src/app/api/chat/route.ts:30-68 | a `lang` outside the FAQ options is not rejected: the lookup finds nothing and the completion service is asked |
| `JsString.StripStart` | src/app/components/ChatWidget.tsx:40 | the result is a suffix of the input that does not start with a stripped character |
| `JsString.StripEnd` | src/app/components/ChatWidget.tsx:40 | the result is a prefix of the input that does not end with a stripped character |
| `JsString.StripStartRemovesOnlySpace` | src/app/components/ChatWidget.tsx:40 | every character removed from the front is a stripped character |
| `JsString.StripEndRemovesOnlySpace` | src/app/components/ChatWidget.tsx:40 | every character removed from the back is a stripped character |
| `JsString.Strip` | src/app/components/ChatWidget.tsx:42 | the result neither starts nor ends with a stripped character and is no longer than the input |
| `JsString.Trim` | src/app/components/ChatWidget.tsx:42 | `input.trim()` neither starts nor ends with ECMAScript white space or a line terminator |
| `JsString.StripKeepsInfix` | src/app/components/ChatWidget.tsx:42 | the kept text is a contiguous part of the input |
| `JsString.StripRemovesOnlySpace` | src/app/components/ChatWidget.tsx:42 | everything before and after the kept text is a stripped character |
| `JsString.StripEmptyIffBlank` | src/app/components/ChatWidget.tsx:40 | the input strips to nothing exactly when every character is a stripped one; for `trim`, exactly when the input is all white space |
| `JsString.StripIdempotent` | src/app/components/ChatWidget.tsx:42 | stripping twice is stripping once |
| `ChatWidget.UserMessage` | src/app/components/ChatWidget.tsx:44 | the user's message carries the text, `isUser` true and no source |
| `ChatWidget.BotMessage` | src/app/components/ChatWidget.tsx:53-69 | a bot message has `isUser` false; it has a source exactly when the post resolved, and then it carries the reply's answer and source; otherwise its text is the fixed error text |
| `ChatWidget.AppendKeepsAlternation` | src/app/components/ChatWidget.tsx:44-64 | appending the message whose turn it is, a user message after a bot message or a bot message after a user message, keeps the conversation alternating |
| `ChatWidget.Widget.constructor` | src/app/components/ChatWidget.tsx:17-21 | the widget starts with no messages, empty input, not loading, language `hr` |
| `ChatWidget.Widget.SetInput` | src/app/components/ChatWidget.tsx:159 | typing replaces the input and keeps the invariant |
| `ChatWidget.Widget.SetLanguage` | src/app/components/ChatWidget.tsx:93-100 | the selector sets one of the two FAQ languages |
| `ChatWidget.Widget.BeginSubmit` | src/app/components/ChatWidget.tsx:38-51 | with an empty trimmed input or a pending request nothing changes and nothing is sent; otherwise the trimmed input is appended as the user's message, the input is cleared, loading starts, and the request carries the trimmed message and the selected language |
| `ChatWidget.Widget.CompleteSubmit` | src/app/components/ChatWidget.tsx:53-72 | exactly one bot message for the reply or the failure is appended, and loading stops, on both paths |
| `ChatWidget.ToBody` | src/app/components/ChatWidget.tsx:48-51 | the route receives the widget's message and its language as an explicit `lang` |
| `ChatWidget.Receive` | src/app/components/ChatWidget.tsx:47-61 | the post rejects exactly on the route's failure response; otherwise the reply carries the response's answer and source |
| `ChatWidget.HandleSubmit` | src/app/components/ChatWidget.tsx:38-73 | a submit either changes nothing or appends exactly two messages, the user's trimmed message and the bot's message for the route's response; earlier messages are kept; loading is over afterwards |
| `ChatWidget.BotMessageForRoute` | src/app/components/ChatWidget.tsx:53-69 | the bot's message is tagged `local` exactly when the CMS answered from a found record, and has no source exactly when the route failed, in which case it shows the error text |
| `ChatWidget.RequestLanguageIsAnOption` | src/app/components/ChatWidget.tsx:21 | the language the widget sends is always one of the FAQ's options |

`Widget.Valid` is kept by every widget method. It says the messages alternate: user, bot, user, bot. A user message is non-empty and already trimmed. A bot message without a source is the error text. A request is pending exactly when the last message is an unanswered user message.

## Left out

- The CMS's `like` matching and result order are not visible. `like` is a parameter, and the store's order is taken as the result order.
- `getPayload` and its configuration are reduced to a boolean: the CMS came up or it did not.
- The completion client and the network call are left out. Only the request's shape is modelled, and the outcome is an input.
- The API key and environment configuration are left out.
- HTTP and JSON plumbing is left out: `req.json()`, `NextResponse.json`, and `console.error` logging. A body is either unreadable or gives a string `message` and an optional string `lang`. A `message` or `lang` that is not a string, or a `lang` of `null`, is not modelled.
- An answer that is absent and one that is `null` are both `None`.
- React's `useState`, `useEffect` and `useRef`, scrolling, the `isOpen` toggle and all rendering are left out.
- The widget's state updates are applied in order. Two submits that race before a re-render are not modelled.
- `src/app/my-route/route.ts`, `src/app/page.tsx`, `src/app/layout.tsx` and `src/app/components/ChatWidgetWrapper.tsx` are not part of this model. They hold markup or a pass-through query, with no logic.
- ChatWidget.Receive: maps every error response to a rejected post without looking at its status. The route's only error status is 500.
- FaqStore.Find: the CMS's `find` is paginated and the route passes no `limit`, so the route really receives the first page of matches, not every match. Paging is not modelled. The route reads only whether the result is empty and its first record, and both are the same for the first page as for the full list.
- JsString.Trim: Dafny strings are sequences of Unicode scalar values, while JavaScript strings are UTF-16 code units. Every character `trim` strips is a single code unit in the Basic Multilingual Plane, so the result agrees on every string Dafny can represent. Strings holding lone surrogates cannot be represented at all.
