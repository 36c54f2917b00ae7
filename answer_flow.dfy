/** The server flow of src/ai/flows/answer-question-with-context.ts: input
    validation, the bounded page summary, the choice between the page prompt
    and the general-knowledge prompt, and the call into the Gemini client
    with the fixed context "the page content". zod's URL check is a
    parameter, and so are the page fetch and the Gemini model. */
module AnswerFlow {
  import opened Text
  import opened Outcomes
  import opened WebCrawler
  import opened AiInstance

  /** `{ url, question }` as the caller sends it. */
  datatype AnswerInput = AnswerInput(url: string, question: string)

  /** One schema violation: the field it concerns and zod's message. */
  datatype Issue = Issue(path: string, message: string)

  /** The response object `{ answer }`. */
  datatype AnswerOutput = AnswerOutput(answer: string)

  /** The most characters of page text the prompt carries. */
  const SummaryLimit: nat := 4000
  const Ellipsis := "..."
  const InvalidUrlMessage := "Invalid url"
  const TooShortMessage := "String must contain at least 1 character(s)"
  /** The marker `buildPrompt` looks for, and the start of every error answer. */
  const ErrorMarker := "Error:"
  const InvalidInputPrefix := ErrorMarker + " Invalid input. "
  const RetrievalErrorPrefix := ErrorMarker + " Could not retrieve content from "
  const UnknownErrorAnswer := "Unknown error occurred."

  /** The context the flow hands to the client in place of the page. */
  const PageContext := "the page content"

  /** The violations `InputSchema.safeParse` reports, in schema order: the
      url must pass zod's URL check `isUrl`, the question must have at least
      one character. */
  function Issues(input: AnswerInput, isUrl: string -> bool): (r: seq<Issue>)
    ensures r == [] <==> isUrl(input.url) && input.question != ""
  {
    (if isUrl(input.url) then [] else [Issue("url", InvalidUrlMessage)])
    + (if |input.question| >= 1 then [] else [Issue("question", TooShortMessage)])
  }

  /** Every violated field is reported, once, and no other. */
  lemma {:induction false} IssuesListed(input: AnswerInput, isUrl: string -> bool)
    ensures var r := Issues(input, isUrl);
      |r| <= 2
      && ((exists i :: 0 <= i < |r| && r[i] == Issue("url", InvalidUrlMessage)) <==> !isUrl(input.url))
      && ((exists i :: 0 <= i < |r| && r[i] == Issue("question", TooShortMessage)) <==> input.question == "")
      && (forall i :: 0 <= i < |r| ==> r[i].path == "url" || r[i].path == "question")
  {
    var r := Issues(input, isUrl);
    var u := Issue("url", InvalidUrlMessage);
    var q := Issue("question", TooShortMessage);
    assert u != q by {
      assert u.path[0] != q.path[0];
    }
    if !isUrl(input.url) {
      assert r[0] == u;
    }
    if input.question == "" {
      assert r[|r| - 1] == q;
    }
  }

  /** One issue as the answer lists it: `path: message`. */
  function IssueText(issue: Issue): string {
    issue.path + ": " + issue.message
  }

  /** `errors.map(...)`. */
  function IssueTexts(issues: seq<Issue>): (r: seq<string>)
    ensures |r| == |issues|
    ensures forall i :: 0 <= i < |issues| ==> r[i] == IssueText(issues[i])
    decreases |issues|
  {
    if issues == [] then [] else [IssueText(issues[0])] + IssueTexts(issues[1..])
  }

  /** The answer for input that fails validation. */
  function InvalidInputAnswer(issues: seq<Issue>): string {
    InvalidInputPrefix + Join(IssueTexts(issues), ", ")
  }

  /** Page text longer than the limit is cut to its first 4000 characters
      followed by an ellipsis; shorter text is kept whole. */
  function Truncate(raw: string): (r: string)
    ensures |raw| <= SummaryLimit ==> r == raw
    ensures |raw| > SummaryLimit ==>
      (|r| == SummaryLimit + |Ellipsis| && r[..SummaryLimit] == raw[..SummaryLimit] && r[SummaryLimit..] == Ellipsis)
  {
    if |raw| > SummaryLimit then raw[..SummaryLimit] + Ellipsis else raw
  }

  /** `err instanceof Error ? err.message : ""`. */
  function ThrownMessage(e: Thrown): string {
    match e
    case ErrorValue(message) => message
    case OtherValue => ""
  }

  /** `summarizeWebPage(url)`, given how the crawl completed. */
  function SummarizeWebPage(url: string, crawl: Completion<string>): string {
    match crawl
    case Returned(raw) => Truncate(raw)
    case Threw(e) => RetrievalErrorPrefix + url + ". " + ThrownMessage(e)
  }

  const GeneralLead := "The webpage at "
  const GeneralMid := " could not be retrieved: "
  const GeneralTail := "\n    \nPlease answer the following question using general knowledge:\n\n"
  const PageLead := "You are an assistant " + "helping users with questions about this webpage: "
  const PageMid := "\n\nWebpage Content:\n"
  const PageTail := "\n\nNow answer the user's question clearly and concisely.\n\n"
  const QuestionMark := "Q: "

  /** The layout both prompts share: fixed text around the URL and the
      summary, then the question after its marker. */
  function Framed(lead: string, url: string, mid: string, summary: string, tail: string, question: string): string {
    lead + url + mid + summary + tail + QuestionMark + question
  }

  /** A framed prompt carries the URL and the summary, ends with the
      question after its marker and starts with its fixed lead. */
  lemma {:induction false} FramedParts(lead: string, url: string, mid: string, summary: string, tail: string, question: string)
    ensures var p := Framed(lead, url, mid, summary, tail, question);
      Contains(p, url) && Contains(p, summary) && Contains(p, question)
      && EndsWith(p, QuestionMark + question) && StartsWith(p, lead)
  {
    var p := Framed(lead, url, mid, summary, tail, question);
    var a := lead + url + mid;
    var rest := summary + tail + QuestionMark + question;
    assert p == a + rest;
    ContainsMiddle(lead, url, mid);
    ContainsExtend(a, url, rest);
    assert p == a + summary + (tail + QuestionMark + question);
    ContainsMiddle(a, summary, tail + QuestionMark + question);
    var b := a + summary + tail;
    assert p == b + (QuestionMark + question);
    assert p == (b + QuestionMark) + question + "";
    ContainsMiddle(b + QuestionMark, question, "");
    assert p[..|lead|] == lead;
  }

  /** The prompt for a page that could not be retrieved. */
  function GeneralPrompt(url: string, question: string, summary: string): string {
    Framed(GeneralLead, url, GeneralMid, summary, GeneralTail, question)
  }

  /** The prompt that hands the page text to the model. */
  function PagePrompt(url: string, question: string, summary: string): string {
    Framed(PageLead, url, PageMid, summary, PageTail, question)
  }

  /** `buildPrompt`: a summary that starts with the error marker selects
      the general-knowledge prompt. */
  function BuildPrompt(url: string, question: string, summary: string): string {
    if StartsWith(summary, ErrorMarker) then GeneralPrompt(url, question, summary)
    else PagePrompt(url, question, summary)
  }

  /** The `try`/`catch` around the generation: what the body returned, or
      the answer the `catch` clause makes of what it threw. */
  function Settle(body: Completion<string>): string {
    match body
    case Returned(answer) => answer
    case Threw(ErrorValue(message)) => ErrorMarker + " " + message
    case Threw(OtherValue) => UnknownErrorAnswer
  }

  /** The page text the real crawler hands to `summarizeWebPage`. */
  function Crawled(url: string, fetch: FetchOutcome): Completion<string> {
    Returned(CrawlWebpage(url, fetch))
  }

  /** The prompt the flow sends for valid input. */
  function FlowPrompt(input: AnswerInput, fetch: FetchOutcome): string {
    var summary := SummarizeWebPage(input.url, Crawled(input.url, fetch));
    BuildPrompt(input.url, input.question, summary)
  }

  /** What one call of the flow does: the answer, the client history it
      leaves and the request it makes the client send to Gemini, if any. */
  datatype FlowOutcome = FlowOutcome(answer: string, history: seq<HistoryItem>, request: Option<string>)

  /** `answerQuestionWithContext(input)` with client history `h`. */
  function AnswerSpec(h: seq<HistoryItem>, input: AnswerInput, isUrl: string -> bool,
                      fetch: FetchOutcome, api: string -> ApiStream): FlowOutcome
  {
    var issues := Issues(input, isUrl);
    if issues != [] then FlowOutcome(InvalidInputAnswer(issues), h, None)
    else
      var o := StreamSpec(h, FlowPrompt(input, fetch), PageContext, api);
      FlowOutcome(Settle(Returned(Concat(o.chunks))), o.history, o.request)
  }

  /** `answerQuestionWithContext`, driving the shared Gemini client. */
  method AnswerQuestionWithContext(client: Gemini, input: AnswerInput, isUrl: string -> bool,
                                   fetch: FetchOutcome, api: string -> ApiStream)
    returns (out: AnswerOutput)
    requires client.Valid()
    modifies client
    ensures client.Valid()
    ensures var o := AnswerSpec(old(client.history), input, isUrl, fetch, api);
      out.answer == o.answer && client.history == o.history
  {
    var issues := Issues(input, isUrl);
    if issues != [] {
      out := AnswerOutput(InvalidInputAnswer(issues));
      return;
    }
    var summary := SummarizeWebPage(input.url, Crawled(input.url, fetch));
    var prompt := BuildPrompt(input.url, input.question, summary);
    var answer := client.Generate(prompt, PageContext, api);
    out := AnswerOutput(Settle(Returned(answer)));
  }

  /** Input that fails validation is answered with the list of issues and
      never reaches the crawler or the model: nothing is sent and the
      history stays as it was. */
  lemma {:induction false} InvalidInputShortCircuits(h: seq<HistoryItem>, input: AnswerInput, isUrl: string -> bool,
                                                     fetch: FetchOutcome, api: string -> ApiStream)
    requires !isUrl(input.url) || input.question == ""
    ensures var o := AnswerSpec(h, input, isUrl, fetch, api);
      o.request.None? && o.history == h && StartsWith(o.answer, InvalidInputPrefix)
  {
  }

  /** A valid URL with an empty question is answered with the one question
      issue. */
  lemma {:induction false} EmptyQuestionAnswer(h: seq<HistoryItem>, url: string, isUrl: string -> bool,
                                               fetch: FetchOutcome, api: string -> ApiStream)
    requires isUrl(url)
    ensures AnswerSpec(h, AnswerInput(url, ""), isUrl, fetch, api).answer
      == InvalidInputPrefix + IssueText(Issue("question", TooShortMessage))
  {
    var q := Issue("question", TooShortMessage);
    assert Issues(AnswerInput(url, ""), isUrl) == [q];
    IssueListing(q, q);
  }

  /** With both fields wrong, the URL issue is listed before the question
      issue, separated by a comma. */
  lemma {:induction false} BothIssuesInOrder(h: seq<HistoryItem>, url: string, isUrl: string -> bool,
                                             fetch: FetchOutcome, api: string -> ApiStream)
    requires !isUrl(url)
    ensures AnswerSpec(h, AnswerInput(url, ""), isUrl, fetch, api).answer
      == InvalidInputPrefix + IssueText(Issue("url", InvalidUrlMessage)) + ", "
         + IssueText(Issue("question", TooShortMessage))
  {
    var u, q := Issue("url", InvalidUrlMessage), Issue("question", TooShortMessage);
    assert Issues(AnswerInput(url, ""), isUrl) == [u, q];
    IssueListing(u, q);
  }

  /** The issues are listed in order, separated by a comma and a space. */
  lemma {:induction false} IssueListing(a: Issue, b: Issue)
    ensures InvalidInputAnswer([a]) == InvalidInputPrefix + IssueText(a)
    ensures InvalidInputAnswer([a, b]) == InvalidInputPrefix + IssueText(a) + ", " + IssueText(b)
  {
    assert IssueTexts([a]) == [IssueText(a)];
    var t := IssueTexts([a, b]);
    assert t == [IssueText(a), IssueText(b)];
    assert t[1..] == [IssueText(b)];
    assert Join(t, ", ") == IssueText(a) + ", " + IssueText(b);
  }

  /** The fixed context is not blank. */
  lemma {:induction false} PageContextNotBlank()
    ensures !AllSpace(PageContext) && !IsBlank(PageContext)
  {
    assert !IsSpace(PageContext[0]);
    BlankIffAllSpace(PageContext);
  }

  /** Each prompt carries the URL, the summary and the question, ends with
      the question after its marker and is never blank; the
      general-knowledge prompt is chosen exactly when the summary starts
      with the error marker. */
  lemma {:induction false} PromptShape(url: string, question: string, summary: string)
    ensures var p := BuildPrompt(url, question, summary);
      Contains(p, url) && Contains(p, summary) && Contains(p, question)
      && EndsWith(p, QuestionMark + question) && !AllSpace(p)
      && (p == GeneralPrompt(url, question, summary) <==> StartsWith(summary, ErrorMarker))
  {
    var p := BuildPrompt(url, question, summary);
    var g := GeneralPrompt(url, question, summary);
    var q := PagePrompt(url, question, summary);
    FramedParts(GeneralLead, url, GeneralMid, summary, GeneralTail, question);
    FramedParts(PageLead, url, PageMid, summary, PageTail, question);
    assert g[0] == g[..|GeneralLead|][0] == 'T';
    assert PageLead[0] == 'Y';
    assert q[0] == q[..|PageLead|][0] == PageLead[0];
    assert !IsSpace(p[0]);
  }

  /** Truncation keeps at most the limit plus the ellipsis, and keeps the
      opening characters of the page text. */
  lemma {:induction false} TruncateKeepsPrefix(raw: string, p: string)
    requires StartsWith(raw, p) && |p| <= SummaryLimit
    ensures StartsWith(Truncate(raw), p) && |Truncate(raw)| <= SummaryLimit + |Ellipsis|
  {
    if |raw| > SummaryLimit {
      assert Truncate(raw)[..|p|] == raw[..SummaryLimit][..|p|];
    }
  }

  /** A thrown crawl becomes a summary with the error marker, which selects
      the general-knowledge prompt. */
  lemma {:induction false} ThrownCrawlGivesGeneralPrompt(url: string, question: string, e: Thrown)
    ensures var s := SummarizeWebPage(url, Threw(e));
      StartsWith(s, RetrievalErrorPrefix) && BuildPrompt(url, question, s) == GeneralPrompt(url, question, s)
  {
    var s := SummarizeWebPage(url, Threw(e));
    assert s == ErrorMarker + (" Could not retrieve content from " + url + ". " + ThrownMessage(e));
  }

  /** With the real crawler the general-knowledge prompt is chosen exactly
      when the fetched page's own normalised text starts with the error
      marker: a failed fetch, whose text starts "Failed to crawl", and an
      empty page get the page prompt with the crawler's message as content. */
  lemma {:induction false} GeneralPromptOnlyForErrorPages(input: AnswerInput, fetch: FetchOutcome)
    ensures var summary := SummarizeWebPage(input.url, Crawled(input.url, fetch));
      (FlowPrompt(input, fetch) == GeneralPrompt(input.url, input.question, summary))
      <==> (fetch.BodyText? && StartsWith(Normalize(fetch.text), ErrorMarker))
  {
    var raw := CrawlWebpage(input.url, fetch);
    PromptShape(input.url, input.question, Truncate(raw));
    TruncateKeepsMarker(raw);
    CrawlMarker(input.url, fetch);
  }

  /** Truncation neither adds nor removes the error marker at the start. */
  lemma {:induction false} TruncateKeepsMarker(raw: string)
    ensures StartsWith(Truncate(raw), ErrorMarker) <==> StartsWith(raw, ErrorMarker)
  {
    if StartsWith(raw, ErrorMarker) {
      TruncateKeepsPrefix(raw, ErrorMarker);
    } else if |raw| > SummaryLimit {
      assert raw[..|ErrorMarker|] == Truncate(raw)[..|ErrorMarker|];
    }
  }

  /** The crawler's own messages do not start with the error marker: its
      text starts with it only when the page's normalised text does. */
  lemma {:induction false} CrawlMarker(url: string, fetch: FetchOutcome)
    ensures StartsWith(CrawlWebpage(url, fetch), ErrorMarker)
      <==> fetch.BodyText? && StartsWith(Normalize(fetch.text), ErrorMarker)
  {
    var raw := CrawlWebpage(url, fetch);
    match fetch
    case FetchFailed =>
      assert raw[0] == FailurePrefix[0] == 'F';
    case BodyText(t) =>
      if Normalize(t) == [] {
        assert raw[0] == NoContentPrefix[0] == 'N';
      }
  }

  /** A failed fetch is taken for page content: the page prompt carries the
      crawler's failure message as the webpage content. */
  lemma {:induction false} FailedFetchUsesPagePrompt(input: AnswerInput)
    ensures FlowPrompt(input, FetchFailed)
      == PagePrompt(input.url, input.question, Truncate(FailurePrefix + input.url + "."))
  {
    GeneralPromptOnlyForErrorPages(input, FetchFailed);
  }

  /** The client's own guards never reject the flow's prompt or its
      context as blank: the only guard that can reject is the bypass check. */
  lemma {:induction false} OnlyBypassRejects(input: AnswerInput, fetch: FetchOutcome)
    ensures var r := Rejection(FlowPrompt(input, fetch), PageContext);
      (r.None? <==> !AttemptsBypass(FlowPrompt(input, fetch)))
      && (r.Some? <==> r == Some(BypassError))
  {
    var prompt := FlowPrompt(input, fetch);
    PromptShape(input.url, input.question, SummarizeWebPage(input.url, Crawled(input.url, fetch)));
    BlankIffAllSpace(prompt);
    PageContextNotBlank();
  }

  /** The model is called exactly when the input is valid and the prompt
      holds no bypass keyword; a question of one space passes validation. */
  lemma {:induction false} RequestSentIff(h: seq<HistoryItem>, input: AnswerInput, isUrl: string -> bool,
                                          fetch: FetchOutcome, api: string -> ApiStream)
    ensures AnswerSpec(h, input, isUrl, fetch, api).request.Some?
      <==> isUrl(input.url) && input.question != "" && !AttemptsBypass(FlowPrompt(input, fetch))
  {
    if Issues(input, isUrl) == [] {
      var prompt := FlowPrompt(input, fetch);
      assert StreamSpec(h, prompt, PageContext, api).request.Some? <==> !AttemptsBypass(prompt) by {
        PromptShape(input.url, input.question, SummarizeWebPage(input.url, Crawled(input.url, fetch)));
        PageContextNotBlank();
        AiInstance.RequestSentIff(h, prompt, PageContext, api);
      }
    }
  }

  /** A bypass keyword in the lower-cased URL, question or page summary
      ends up in the lower-cased prompt. */
  lemma {:induction false} KeywordReachesPrompt(input: AnswerInput, fetch: FetchOutcome, w: string)
    requires var summary := SummarizeWebPage(input.url, Crawled(input.url, fetch));
      Contains(Lower(input.url), w) || Contains(Lower(input.question), w) || Contains(Lower(summary), w)
    ensures Contains(Lower(FlowPrompt(input, fetch)), w)
  {
    var summary := SummarizeWebPage(input.url, Crawled(input.url, fetch));
    var prompt := FlowPrompt(input, fetch);
    PromptShape(input.url, input.question, summary);
    if Contains(Lower(input.url), w) {
      LowerKeepsContains(prompt, input.url);
      ContainsTrans(Lower(prompt), Lower(input.url), w);
    } else if Contains(Lower(input.question), w) {
      LowerKeepsContains(prompt, input.question);
      ContainsTrans(Lower(prompt), Lower(input.question), w);
    } else {
      LowerKeepsContains(prompt, summary);
      ContainsTrans(Lower(prompt), Lower(summary), w);
    }
  }

  /** A bypass keyword written into the URL, the question or the page
      summary (the first 4000 characters of the normalised page text)
      rejects the whole request: the answer is the bypass error and nothing
      is sent or recorded. */
  lemma {:induction false} KeywordAnywhereRejected(h: seq<HistoryItem>, input: AnswerInput, isUrl: string -> bool,
                                                   fetch: FetchOutcome, api: string -> ApiStream, k: nat)
    requires isUrl(input.url) && input.question != ""
    requires k < |BypassKeywords|
    requires var summary := SummarizeWebPage(input.url, Crawled(input.url, fetch));
      Contains(Lower(input.url), BypassKeywords[k]) || Contains(Lower(input.question), BypassKeywords[k])
      || Contains(Lower(summary), BypassKeywords[k])
    ensures AnswerSpec(h, input, isUrl, fetch, api) == FlowOutcome(BypassError, h, None)
  {
    var prompt := FlowPrompt(input, fetch);
    KeywordReachesPrompt(input, fetch, BypassKeywords[k]);
    assert StreamSpec(h, prompt, PageContext, api) == StreamOutcome([BypassError], h, None) by {
      PromptShape(input.url, input.question, SummarizeWebPage(input.url, Crawled(input.url, fetch)));
      PageContextNotBlank();
      BypassRejected(h, prompt, PageContext, api, k);
    }
    assert Concat([BypassError]) == BypassError by {
      assert [BypassError][..0] == [];
    }
  }

  /** For valid input that passes the guards and a stream that completes,
      the request carries the prompt, the answer is the concatenation of
      what the model streamed and the turn is recorded with that answer. */
  lemma {:induction false} ValidInputAnswered(h: seq<HistoryItem>, input: AnswerInput, isUrl: string -> bool,
                                              fetch: FetchOutcome, api: string -> ApiStream)
    requires |h| <= MaxHistory
    requires isUrl(input.url) && input.question != ""
    requires !AttemptsBypass(FlowPrompt(input, fetch))
    requires api(CombinedPrompt(PageContext, RenderHistory(h), FlowPrompt(input, fetch))).failAfter.None?
    ensures var prompt := FlowPrompt(input, fetch);
      var request := CombinedPrompt(PageContext, RenderHistory(h), prompt);
      var o := AnswerSpec(h, input, isUrl, fetch, api);
      o.request == Some(request) && o.answer == Concat(api(request).parts)
      && o.history == Window(h + [HistoryItem(prompt, o.answer)])
  {
    var prompt := FlowPrompt(input, fetch);
    var request := CombinedPrompt(PageContext, RenderHistory(h), prompt);
    assert Rejection(prompt, PageContext).None? by {
      OnlyBypassRejects(input, fetch);
    }
    GeneratedText(h, prompt, PageContext, api);
    RecordIsWindow(h, HistoryItem(prompt, Concat(api(request).parts)));
  }

  /** For valid input that passes the guards and a stream that throws, the
      answer ends with the stream error and nothing is recorded. */
  lemma {:induction false} ValidInputStreamFails(h: seq<HistoryItem>, input: AnswerInput, isUrl: string -> bool,
                                                 fetch: FetchOutcome, api: string -> ApiStream)
    requires isUrl(input.url) && input.question != ""
    requires !AttemptsBypass(FlowPrompt(input, fetch))
    requires api(CombinedPrompt(PageContext, RenderHistory(h), FlowPrompt(input, fetch))).failAfter.Some?
    ensures var o := AnswerSpec(h, input, isUrl, fetch, api);
      o.request.Some? && EndsWith(o.answer, StreamError) && o.history == h
  {
    var prompt := FlowPrompt(input, fetch);
    assert Rejection(prompt, PageContext).None? by {
      OnlyBypassRejects(input, fetch);
    }
    GeneratedText(h, prompt, PageContext, api);
    EndsWithAppend(Concat(Received(api(CombinedPrompt(PageContext, RenderHistory(h), prompt)))), StreamError);
  }

  /** The `catch` clause: an `Error` becomes its message behind the error
      marker, anything else the unknown-error answer. */
  lemma {:induction false} CatchAnswers(e: Thrown)
    ensures StartsWith(Settle(Threw(e)), ErrorMarker) <==> e.ErrorValue?
    ensures e.ErrorValue? ==> EndsWith(Settle(Threw(e)), e.message)
  {
    var s := Settle(Threw(e));
    if e.OtherValue? {
      assert s[0] == UnknownErrorAnswer[0] == 'U';
    } else {
      assert s == ErrorMarker + (" " + e.message);
    }
  }
}
