# ConText chat widget: crawler, Gemini client, answer flow and chat hook

This project models the question-answering path of the ConText chat widget. A
visitor types a question about the page they are on. The chat hook sends the
question and the page URL to a server flow. The flow validates the input,
crawls the page, builds a prompt from the page text, and asks a Gemini client
for an answer. The client rejects blank prompts, blank contexts and prompts
that try to bypass the context. It keeps a conversation history of at most ten
turns.

The model has one module per source file and two shared modules:

- `Text` holds the JavaScript string operations the code relies on:
  - the `\s` character class, `trim` and `includes`;
  - `toLowerCase` on ASCII letters;
  - `join` and repeated `+=`.
- `Outcomes` holds `Option` and the completion of a call that may throw (`Completion`, `Thrown`).
- `WebCrawler` models `crawlWebpage` once the page is fetched: whitespace collapsing, trimming and the two fallback messages.
- `AiInstance` models the Gemini client:
  - class `Gemini` holds the module-level `conversationHistory`;
  - `Stream` (`streamWithGemini`) and `Generate` (`generateWithGemini`) are proved against the pure specification `StreamSpec`;
  - `ClearHistory` empties the history.
- `AnswerFlow` models `summarizeWebPage`, `buildPrompt` and `answerQuestionWithContext`. The method drives a shared `Gemini` object and is proved against `AnswerSpec`.
- `UseChat` models the `useChat` hook as class `ChatSession`:
  - `InputChange` is `handleInputChange`;
  - `handleSubmit` is split at its `await`: `Submit` runs up to the call into the flow and returns the request it would send, and `Receive` takes the flow's reply;
  - both are proved against pure specifications.

Parameters stand in for outside code:

- the fetched page text or a failed fetch (`FetchOutcome`);
- the Gemini model, a function from the combined prompt to the parts it streams and, if it fails, after how many parts;
- zod's URL check and `URL.canParse` (predicates);
- `window.location.href` (`None` when there is no window);
- the ids `crypto.randomUUID` would produce.

One branch of the code is hardly ever reached, and the model keeps it that
way. `buildPrompt` has a general-knowledge branch
(`src/ai/flows/answer-question-with-context.ts:33-38`) meant for pages that
could not be retrieved. It is selected only by a
summary that starts with `Error:`. The crawler's failure text starts with
`Failed to crawl`, so a failed fetch gets the ordinary page prompt with that
text as the page content (`AnswerFlow.FailedFetchUsesPagePrompt`). Only a
thrown crawl, which the real crawler never produces, or a page whose own text
starts with `Error:` selects the general-knowledge prompt
(`AnswerFlow.GeneralPromptOnlyForErrorPages`).

## Model

| member | source | states |
|---|---|---|
| Text.BlankIffAllSpace | src/ai/ai-instance.ts:34 | `s.trim() === ""` holds exactly when every character of `s` is whitespace, the empty string included |
| Text.LowerKeepsContains | src/ai/ai-instance.ts:51-52 | lower-casing the prompt keeps every occurrence of a substring, lower-cased |
| WebCrawler.CollapseCollapsed | src/services/web-crawler.ts:27 | after `replace(/\s+/g, " ")` each whitespace run is a single blank; the result is empty only for empty input and starts with whitespace only when the input does |
| WebCrawler.StripCollapse | src/services/web-crawler.ts:27 | collapsing keeps every non-whitespace character, in order |
| WebCrawler.CollapseAppend | src/services/web-crawler.ts:27 | a part that ends in non-whitespace collapses on its own, since no whitespace run crosses its end |
| WebCrawler.CollapseRun | src/services/web-crawler.ts:27 | a whitespace run whose neighbours are non-whitespace (or the ends of the text) becomes exactly one blank, never none, and the text on each side collapses on its own |
| WebCrawler.StripTrim | src/services/web-crawler.ts:27 | `trim` deletes only whitespace |
| WebCrawler.NormalizeShape | src/services/web-crawler.ts:27 | the crawler's text is collapsed, neither starts nor ends with whitespace, and keeps the page's non-whitespace characters in order |
| WebCrawler.NormalizeRun | src/services/web-crawler.ts:27 | two pieces of text separated by whitespace come out as the normalised pieces joined by exactly one blank; a blank line between two words leaves one blank, not none |
| WebCrawler.NormalizeFixedPoint | src/services/web-crawler.ts:27 | normalising leaves a text unchanged exactly when it already has that shape |
| WebCrawler.NormalizeIdempotent | src/services/web-crawler.ts:27 | normalising twice gives the same text as normalising once |
| WebCrawler.NormalizeEmptyIff | src/services/web-crawler.ts:27-29 | the text is empty, and the no-content message is returned, exactly when the page text is all whitespace |
| WebCrawler.CrawlResult | src/services/web-crawler.ts:27-33 | three cases: a page with content gives its normalised, non-empty text; a whitespace-only page gives the no-content message with the URL; a failed fetch gives the failure message with the URL |
| AiInstance.Received | src/ai/ai-instance.ts:81-82 | the parts that arrive are a prefix of what the model streams, and all of it when the stream does not fail |
| AiInstance.AnyIncluded | src/ai/ai-instance.ts:52 | `some(includes)` holds exactly when one of the keywords occurs in the text |
| AiInstance.BlankPromptRejected | src/ai/ai-instance.ts:34-37 | an empty or whitespace-only prompt yields only the invalid-prompt error; nothing is sent and the history is unchanged |
| AiInstance.BlankContextRejected | src/ai/ai-instance.ts:38-41 | otherwise an empty or whitespace-only context yields only the missing-context error; nothing is sent and nothing is recorded |
| AiInstance.BypassRejected | src/ai/ai-instance.ts:44-55 | otherwise a keyword in the lower-cased prompt yields only the bypass error; nothing is sent and nothing is recorded |
| AiInstance.KeywordsAreLowerCase | src/ai/ai-instance.ts:44-50 | every bypass keyword is its own lower-case form and starts with a non-whitespace character |
| AiInstance.KeywordPromptRejected | src/ai/ai-instance.ts:44-55 | a prompt containing a keyword as written (e.g. "ignore all context") is rejected as a bypass whenever the context is non-blank, even though the prompt itself is non-blank |
| AiInstance.BypassIgnoresCase | src/ai/ai-instance.ts:51-52 | any capitalisation of a keyword in the prompt triggers the bypass check |
| AiInstance.RequestSentIff | src/ai/ai-instance.ts:34-76 | Gemini is called exactly when the prompt and the context are both non-blank and no keyword occurs in the lower-cased prompt |
| AiInstance.RequestEmbedsInputs | src/ai/ai-instance.ts:57-74 | the combined prompt sent to Gemini contains the context, the rendered history and the prompt |
| AiInstance.EntriesAt | src/ai/ai-instance.ts:58-59 | the i-th rendered entry is the i-th stored turn |
| AiInstance.RenderHistorySnoc | src/ai/ai-instance.ts:58-60 | the rendered history lists the turns oldest first, with a blank line between turns |
| AiInstance.RenderHistoryStarts | src/ai/ai-instance.ts:58-60 | a non-empty rendered history starts with the oldest stored turn |
| AiInstance.NonEmptyParts | src/ai/ai-instance.ts:81-87 | only non-empty parts are yielded, all of them, in order; dropping the empty ones does not change the concatenation |
| AiInstance.NonEmptyIn | src/ai/ai-instance.ts:81-87 | every yielded chunk is one of the received parts |
| AiInstance.Yield | src/ai/ai-instance.ts:80-87 | the loop yields exactly the non-empty parts, and the accumulated response is their concatenation |
| AiInstance.StreamCompletes | src/ai/ai-instance.ts:76-95 | a completed stream yields its non-empty parts; the history becomes the last ten turns of the old history plus the new turn, whose response is the concatenation of the yielded chunks |
| AiInstance.StreamFails | src/ai/ai-instance.ts:80-99 | a stream that throws yields the non-empty parts that arrived, all from the model's parts, then the stream error last, and records nothing |
| AiInstance.FailedChunks | src/ai/ai-instance.ts:80-99 | the chunks of a failed stream end with the stream error, and every other chunk is a non-empty part the model sent |
| AiInstance.RecordIsWindow | src/ai/ai-instance.ts:90-95 | push-then-shift on a history within its bound keeps the last ten turns with the new turn appended last |
| AiInstance.WindowAppend | src/ai/ai-instance.ts:90-95 | taking the last ten turns before an append does not change the last ten after it |
| AiInstance.RecordAllIsWindow | src/ai/ai-instance.ts:90-95 | any run of successful generations leaves the last ten turns of the old history followed by the new turns (first in, first out) |
| AiInstance.HistoryKeepsLastTen | src/ai/ai-instance.ts:90-95 | after ten or more successful generations the history holds exactly the last ten turns |
| AiInstance.GeneratedText | src/ai/ai-instance.ts:105-114 | `generateWithGemini` returns the rejection text, or the concatenation of all streamed parts, or the parts that arrived followed by the stream error |
| AiInstance.Accumulate | src/ai/ai-instance.ts:109-113 | `full += chunk` over the chunks is their concatenation |
| AiInstance.Gemini.constructor | src/ai/ai-instance.ts:21 | the history starts empty |
| AiInstance.Gemini.Stream | src/ai/ai-instance.ts:28-100 | the yielded chunks, the request sent and the new history are those of the specification, and the history stays within ten turns |
| AiInstance.Gemini.Generate | src/ai/ai-instance.ts:105-114 | returns the concatenation of the chunks the stream yields, and leaves the history the stream leaves |
| AiInstance.Gemini.ClearHistory | src/ai/ai-instance.ts:119-121 | the history is empty afterwards |
| AnswerFlow.Issues | src/ai/flows/answer-question-with-context.ts:8-11 | no issue is reported exactly when the URL passes the URL check and the question is non-empty |
| AnswerFlow.IssuesListed | src/ai/flows/answer-question-with-context.ts:8-11 | the URL issue is listed exactly when the URL check fails, the question issue exactly when the question is empty, and nothing else is listed |
| AnswerFlow.IssueTexts | src/ai/flows/answer-question-with-context.ts:57-58 | one `path: message` text per issue, in order |
| AnswerFlow.IssueListing | src/ai/flows/answer-question-with-context.ts:57-60 | the answer lists the issue texts after the invalid-input prefix, separated by a comma and a space |
| AnswerFlow.InvalidInputShortCircuits | src/ai/flows/answer-question-with-context.ts:55-61 | invalid input is answered with the invalid-input error; nothing is sent to Gemini and the history is unchanged |
| AnswerFlow.EmptyQuestionAnswer | src/ai/flows/answer-question-with-context.ts:55-61 | a valid URL with an empty question is answered with the single question issue |
| AnswerFlow.BothIssuesInOrder | src/ai/flows/answer-question-with-context.ts:55-61 | with both fields wrong the URL issue comes before the question issue |
| AnswerFlow.Truncate | src/ai/flows/answer-question-with-context.ts:23 | text within 4000 characters is kept whole; longer text becomes its first 4000 characters followed by "...", 4003 characters in all |
| AnswerFlow.TruncateKeepsPrefix | src/ai/flows/answer-question-with-context.ts:23 | truncation keeps the page text's opening characters and never exceeds 4003 characters |
| AnswerFlow.TruncateKeepsMarker | src/ai/flows/answer-question-with-context.ts:23 | the summary starts with the error marker exactly when the raw page text does |
| AnswerFlow.ThrownCrawlGivesGeneralPrompt | src/ai/flows/answer-question-with-context.ts:24-38 | a thrown crawl yields a summary that starts with the error marker, so the general-knowledge prompt is chosen |
| AnswerFlow.CrawlMarker | src/services/web-crawler.ts:29-32 | the crawler's output starts with the error marker only when the page's normalised text does; its own two messages never do |
| AnswerFlow.FramedParts | src/ai/flows/answer-question-with-context.ts:34-48 | a prompt built on the shared layout contains the URL, the summary and the question, starts with its fixed lead, and ends with "Q: " and the question |
| AnswerFlow.PromptShape | src/ai/flows/answer-question-with-context.ts:32-49 | both prompts contain the URL, the summary and the question, end with "Q: " and the question, and are never blank; the general-knowledge prompt is chosen exactly when the summary starts with "Error:" |
| AnswerFlow.GeneralPromptOnlyForErrorPages | src/ai/flows/answer-question-with-context.ts:20-49 | with the real crawler the general-knowledge prompt is chosen exactly when the fetched page's normalised text starts with "Error:" |
| AnswerFlow.FailedFetchUsesPagePrompt | src/ai/flows/answer-question-with-context.ts:41-48 | a failed fetch gets the page prompt, with the crawler's failure message as the page content |
| AnswerFlow.PageContextNotBlank | src/ai/flows/answer-question-with-context.ts:67 | the fixed context "the page content" is not blank |
| AnswerFlow.OnlyBypassRejects | src/ai/flows/answer-question-with-context.ts:65-67 | the client never rejects the flow's prompt or context as blank; it rejects exactly when the bypass check fires |
| AnswerFlow.RequestSentIff | src/ai/flows/answer-question-with-context.ts:52-68 | Gemini is called exactly when the input is valid and no keyword occurs in the lower-cased prompt; a one-space question passes validation |
| AnswerFlow.KeywordReachesPrompt | src/ai/flows/answer-question-with-context.ts:64-66 | a keyword in the lower-cased URL, question or page summary also occurs in the lower-cased prompt |
| AnswerFlow.KeywordAnywhereRejected | src/ai/flows/answer-question-with-context.ts:63-68 | a bypass keyword in the URL, the question or the page summary (the first 4000 characters of the normalised page text) makes the answer the bypass error; nothing is sent or recorded |
| AnswerFlow.ValidInputAnswered | src/ai/flows/answer-question-with-context.ts:63-68 | for valid, accepted input and a completed stream, the request embeds the prompt, the answer is the concatenation of the streamed parts, and the turn is recorded with that answer |
| AnswerFlow.ValidInputStreamFails | src/ai/flows/answer-question-with-context.ts:63-68 | for valid input and a failed stream, the answer ends with the stream error and nothing is recorded |
| AnswerFlow.AnswerQuestionWithContext | src/ai/flows/answer-question-with-context.ts:52-77 | the answer and the client's new history are those of the flow's specification |
| AnswerFlow.CatchAnswers | src/ai/flows/answer-question-with-context.ts:69-76 | a caught `Error` becomes an answer that starts with "Error:" and ends with its message; anything else becomes the unknown-error answer, which does not start with "Error:" |
| UseChat.ChatSession.constructor | src/hooks/use-chat.ts:47-59 | the chat starts with the initial messages and input, idle and with no error |
| UseChat.ChatSession.InputChange | src/hooks/use-chat.ts:63-68 | only the input changes, to the field's value |
| UseChat.ChatSession.Submit | src/hooks/use-chat.ts:71-111 | the new state and the request are those of the submit specification |
| UseChat.ChatSession.Receive | src/hooks/use-chat.ts:111-169 | the new state is that of the reply specification |
| UseChat.SubmitIgnored | src/hooks/use-chat.ts:74 | a blank input, or a submit while loading, changes nothing and sends nothing |
| UseChat.SubmitSentIff | src/hooks/use-chat.ts:74-111 | a request is sent exactly when the input is not blank, nothing is loading, and the effective URL parses and starts with "http" |
| UseChat.SubmitAccepted | src/hooks/use-chat.ts:77-88 | an accepted submit keeps the earlier messages, appends the user's message with the input untrimmed, and clears the input |
| UseChat.SubmitSends | src/hooks/use-chat.ts:92-111 | a sent submit asks about the input as typed with the effective URL, shows only the user's message, and waits with no error |
| UseChat.SubmitRefusesUrl | src/hooks/use-chat.ts:101-168 | a URL the guard refuses shows the user's message and the URL error at once, stores the error and stops loading; the flow is not called |
| UseChat.MissingUrlRejected | src/hooks/use-chat.ts:95-108 | with no configured URL and no window, an accepted submit is refused with the URL error |
| UseChat.NoSubmitWhileLoading | src/hooks/use-chat.ts:74-87 | while an answer is awaited every further submit is ignored, whatever was typed since |
| UseChat.SentQuestionNotBlank | src/hooks/use-chat.ts:74-98 | the question sent is never blank, so it always meets the flow's one-character minimum |
| UseChat.ReceiveAppendsOne | src/hooks/use-chat.ts:114-168 | a reply appends exactly one assistant message and ends loading. A non-empty answer, error answers included, is shown verbatim and sets no error. An empty answer gives the fallback reply and error. A throw gives the error reply and stores its message |
| UseChat.ExchangeAddsTwo | src/hooks/use-chat.ts:71-169 | a full exchange adds the user's message and then one assistant message, leaves the input empty and the hook idle, and leaves an error exactly when the flow threw or answered with nothing |

## Left out

- Fetching the page and parsing the HTML are left out. This covers `axios.get` with its user agent and 10-second timeout, and the cheerio removal of script, style, nav, footer and header. The model starts from the body text or a failure, given as `FetchOutcome`.
- The Gemini SDK is a parameter: the model's name, its generation settings and the API key are out. The model is a function of the request, so a model that answers the same request differently on two calls is not captured.
- The client's `typeof` checks are absent: prompt and context are typed strings here.
- Console logging, toasts, and the `onResponse`/`onError` callbacks are left out. They do not change what the code returns or stores, as long as the callbacks do not throw; the popup passes none. A callback that throws inside the `try` of `handleSubmit` would make its `catch` append a second assistant message. For `JSON.stringify` of errors, see the AnswerFlow.AnswerSpec line below.
- zod's URL check and `URL.canParse` are parameters. The issue messages are zod's defaults, and each issue path has one segment. `OutputSchema.parse` of a string always succeeds, so it is the identity here.
- AnswerFlow.Truncate: lengths and the 4000-character cut are counted in Unicode code points, because a Dafny `string` is a sequence of code points. JavaScript's `length` and `slice` count UTF-16 code units. On text with characters outside the Basic Multilingual Plane, the source cuts earlier than the model does and can split a surrogate pair; the model never splits one.
- AnswerFlow.TruncateKeepsPrefix: the 4003 bound and the kept prefix hold in code points, not in the source's UTF-16 code units, for the reason given under AnswerFlow.Truncate.
- Text.Lower: lower-cases ASCII letters only. JavaScript's `toLowerCase` also maps non-ASCII capitals, so `AiInstance.AttemptsBypass` and the lemmas built on it do not cover keywords written with non-ASCII capitals.
- AnswerFlow.AnswerSpec: the flow's `try` body never throws in the model. The crawler catches its own errors. The client's `catch` can itself throw, because it logs the error with `JSON.stringify(err, null, 2)` (`src/ai/ai-instance.ts:97`), which throws on a circular or BigInt-bearing error object. That is the one path by which the flow's `catch` is reached, and the model does not model it. It always reaches `Settle` as `Returned`. The `catch` clause is modelled by `Settle` and `CatchAnswers`, and `summarizeWebPage`'s `catch` by `SummarizeWebPage` on `Threw`.
- AiInstance.Gemini.Stream: returns all the chunks at once. A consumer that stops reading the generator early is not modelled.
- Concurrency is out. Concurrent calls interleave at every `await`, and the one module-level history is shared by all callers. Each client call here runs to completion before the next. In the hook, `Submit` and `Receive` are atomic steps on the latest state; React's batching and stale closures are not modelled.
- Message ids from `crypto.randomUUID` are parameters, and so is `window.location.href`. The exposed `setMessages`/`setInput` setters and `e.preventDefault()` are not modelled.
- `src/app/page.tsx`, `src/components/contextual-chat-popup.tsx` and `src/ai/dev.ts` are not part of this model.
