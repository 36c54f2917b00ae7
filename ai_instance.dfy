/** The Gemini client of src/ai/ai-instance.ts: the guard chain in front of
    the model, the streamed chunks and their accumulation, and the
    module-level conversation history bounded to ten turns. The Gemini model
    itself is a parameter: a function from the combined prompt to the stream
    it answers with. */
module AiInstance {
  import opened Text
  import opened Outcomes

  /** One stored turn. */
  datatype HistoryItem = HistoryItem(prompt: string, response: string)

  /** The most turns the history keeps. */
  const MaxHistory: nat := 10

  /** Substrings of the lower-cased prompt that reject it. */
  const BypassKeywords: seq<string> := ["forget", "ignore", "outside", "bypass", "no context"]

  const EmptyPromptError := "Error: Invalid or empty prompt."
  const NoContextError := "Error: No context provided (PDF or website content required)."
  const BypassError := "Error: Prompt attempts to bypass context. Only questions related to the provided PDF or website are allowed."
  const StreamError := "Error: Failed to stream content from Gemini."

  /** What one streaming call to Gemini delivers: the text of each chunk in
      order, and, if the call fails, how many chunks arrive before it throws
      (zero when `generateContentStream` itself rejects). */
  datatype ApiStream = ApiStream(parts: seq<string>, failAfter: Option<nat>)

  /** The chunks that arrive before the stream ends or throws. */
  function Received(s: ApiStream): (r: seq<string>)
    ensures |r| <= |s.parts| && r == s.parts[..|r|]
    ensures s.failAfter.None? ==> r == s.parts
  {
    match s.failAfter
    case None => s.parts
    case Some(k) => if k < |s.parts| then s.parts[..k] else s.parts
  }

  /** `keywords.some((keyword) => s.includes(keyword))`. */
  function AnyIncluded(s: string, keywords: seq<string>): (r: bool)
    ensures r <==> exists i :: 0 <= i < |keywords| && Contains(s, keywords[i])
    decreases |keywords|
  {
    if keywords == [] then false
    else Contains(s, keywords[0]) || AnyIncluded(s, keywords[1..])
  }

  /** The lower-cased prompt includes one of the bypass keywords. */
  predicate AttemptsBypass(prompt: string) {
    AnyIncluded(Lower(prompt), BypassKeywords)
  }

  /** The checks that run before any external call, in the order the client
      runs them; `Some(chunk)` is the single chunk a rejected call yields. */
  function Rejection(prompt: string, context: string): Option<string> {
    if IsBlank(prompt) then Some(EmptyPromptError)
    else if IsBlank(context) then Some(NoContextError)
    else if AttemptsBypass(prompt) then Some(BypassError)
    else None
  }

  /** One stored turn as the history context shows it. */
  function Entry(item: HistoryItem): string {
    "User: " + item.prompt + "\nAssistant: " + item.response
  }

  /** `conversationHistory.map(...)`. */
  function Entries(h: seq<HistoryItem>): (r: seq<string>)
    ensures |r| == |h|
    decreases |h|
  {
    if h == [] then [] else Entries(h[..|h| - 1]) + [Entry(h[|h| - 1])]
  }

  /** `historyContext`: the stored turns, oldest first, separated by a blank line. */
  function RenderHistory(h: seq<HistoryItem>): string {
    Join(Entries(h), "\n\n")
  }

  /** The fixed policy text that opens the instruction sent to Gemini,
      up to the context. */
  const PolicyText: string :=
    "\n      You are a chatbot restricted to answering questions based solely on the following context from a PDF or website. Do not use external knowledge or answer questions unrelated to the context. If the question is irrelevant, respond with: \"This question is outside the provided context.\" Consider the conversation history to maintain coherence.\n\n      Context: "
  const HistoryLabel: string := "\n\n      Conversation History:\n      "
  const QuestionLabel: string := "\n\n      User Question: "
  const ClosingText: string := "\n\n      Answer based only on the provided context and history.\n    "

  /** The instruction sent to Gemini: the fixed policy text, then the
      context, the rendered history and the user's question. */
  function CombinedPrompt(context: string, historyContext: string, prompt: string): string {
    PolicyText + context + HistoryLabel + historyContext + QuestionLabel + prompt + ClosingText
  }

  /** `push` of a new turn followed, past the bound, by `shift`. */
  function Record(h: seq<HistoryItem>, item: HistoryItem): seq<HistoryItem> {
    var pushed := h + [item];
    if |pushed| > MaxHistory then pushed[1..] else pushed
  }

  /** The parts that `if (part) { ... yield part; }` lets through, in order. */
  function NonEmpty(parts: seq<string>): seq<string>
    decreases |parts|
  {
    if parts == [] then []
    else NonEmpty(parts[..|parts| - 1]) + (if parts[|parts| - 1] != "" then [parts[|parts| - 1]] else [])
  }

  /** What one call of `streamWithGemini` does: the chunks it yields, the
      history it leaves and the combined prompt it sends to Gemini, if any. */
  datatype StreamOutcome = StreamOutcome(chunks: seq<string>, history: seq<HistoryItem>, request: Option<string>)

  /** `streamWithGemini(prompt, context)` with history `h` and model `api`. */
  function StreamSpec(h: seq<HistoryItem>, prompt: string, context: string, api: string -> ApiStream): StreamOutcome {
    match Rejection(prompt, context)
    case Some(chunk) => StreamOutcome([chunk], h, None)
    case None =>
      var request := CombinedPrompt(context, RenderHistory(h), prompt);
      var stream := api(request);
      var chunks := NonEmpty(Received(stream));
      if stream.failAfter.Some? then StreamOutcome(chunks + [StreamError], h, Some(request))
      else StreamOutcome(chunks, Record(h, HistoryItem(prompt, Concat(chunks))), Some(request))
  }

  /** The last `MaxHistory` entries of `s`, or all of `s` when it is shorter. */
  function Window(s: seq<HistoryItem>): (r: seq<HistoryItem>)
    ensures |r| <= MaxHistory
  {
    if |s| <= MaxHistory then s else s[|s| - MaxHistory..]
  }

  /** The history after one successful stream per item of `items`, in order. */
  function RecordAll(h: seq<HistoryItem>, items: seq<HistoryItem>): seq<HistoryItem>
    decreases |items|
  {
    if items == [] then h else RecordAll(Record(h, items[0]), items[1..])
  }

  /** The `for await` loop of `streamWithGemini`: yields each non-empty
      part as it arrives and accumulates the response. */
  method Yield(received: seq<string>) returns (chunks: seq<string>, response: string)
    ensures chunks == NonEmpty(received)
    ensures response == Concat(chunks)
  {
    response := "";
    chunks := [];
    var i := 0;
    while i < |received|
      invariant 0 <= i <= |received|
      invariant chunks == NonEmpty(received[..i])
      invariant response == Concat(chunks)
    {
      var part := received[i];
      assert received[..i + 1][..i] == received[..i];
      if part != "" {
        response := response + part;
        chunks := chunks + [part];
      }
      i := i + 1;
    }
    assert received[..i] == received;
  }

  /** The `for await` loop of `generateWithGemini`: `full += chunk` over
      every chunk, in order. */
  method Accumulate(chunks: seq<string>) returns (full: string)
    ensures full == Concat(chunks)
  {
    full := "";
    var i := 0;
    while i < |chunks|
      invariant 0 <= i <= |chunks|
      invariant full == Concat(chunks[..i])
    {
      assert chunks[..i + 1][..i] == chunks[..i];
      full := full + chunks[i];
      i := i + 1;
    }
    assert chunks[..i] == chunks;
  }

  /** The module-level state of the client: `conversationHistory`. */
  class Gemini {
    var history: seq<HistoryItem>

    ghost predicate Valid()
      reads this
    {
      |history| <= MaxHistory
    }

    /** The history as the module starts it: empty. */
    constructor ()
      ensures Valid() && history == []
    {
      history := [];
    }

    /** `streamWithGemini`: returns the chunks it yields, in order, and the
        combined prompt it sends to Gemini (`None` when a guard rejects
        before any external call). */
    method Stream(prompt: string, context: string, api: string -> ApiStream)
      returns (chunks: seq<string>, request: Option<string>)
      requires Valid()
      modifies this
      ensures Valid()
      ensures var o := StreamSpec(old(history), prompt, context, api);
        chunks == o.chunks && request == o.request && history == o.history
    {
      if IsBlank(prompt) {
        chunks, request := [EmptyPromptError], None;
        return;
      }
      if IsBlank(context) {
        chunks, request := [NoContextError], None;
        return;
      }
      if AttemptsBypass(prompt) {
        chunks, request := [BypassError], None;
        return;
      }
      var combined := CombinedPrompt(context, RenderHistory(history), prompt);
      request := Some(combined);
      var stream := api(combined);
      var response;
      chunks, response := Yield(Received(stream));
      if stream.failAfter.Some? {
        chunks := chunks + [StreamError];
        return;
      }
      history := history + [HistoryItem(prompt, response)];
      if |history| > MaxHistory {
        history := history[1..];
      }
    }

    /** `generateWithGemini`: the concatenation of every chunk the stream yields. */
    method Generate(prompt: string, context: string, api: string -> ApiStream) returns (full: string)
      requires Valid()
      modifies this
      ensures Valid()
      ensures var o := StreamSpec(old(history), prompt, context, api);
        full == Concat(o.chunks) && history == o.history
    {
      var chunks, _ := Stream(prompt, context, api);
      full := Accumulate(chunks);
    }

    /** `clearHistory`. */
    method ClearHistory()
      modifies this
      ensures Valid() && history == []
    {
      history := [];
    }
  }

  /** Only the non-empty parts are yielded, all of them, and dropping the
      empty ones does not change the concatenation. */
  lemma {:induction false} NonEmptyParts(parts: seq<string>)
    ensures forall i :: 0 <= i < |NonEmpty(parts)| ==> NonEmpty(parts)[i] != ""
    ensures Concat(NonEmpty(parts)) == Concat(parts)
    ensures (forall i :: 0 <= i < |parts| ==> parts[i] != "") ==> NonEmpty(parts) == parts
  {
    NonEmptyNoBlank(parts);
    NonEmptyConcat(parts);
    if forall i :: 0 <= i < |parts| ==> parts[i] != "" {
      NonEmptyKeepsAll(parts);
    }
  }

  /** No yielded part is empty. */
  lemma {:induction false} NonEmptyNoBlank(parts: seq<string>)
    ensures forall i :: 0 <= i < |NonEmpty(parts)| ==> NonEmpty(parts)[i] != ""
    decreases |parts|
  {
    if parts != [] {
      NonEmptyNoBlank(parts[..|parts| - 1]);
    }
  }

  /** Dropping the empty parts does not change the concatenation. */
  lemma {:induction false} NonEmptyConcat(parts: seq<string>)
    ensures Concat(NonEmpty(parts)) == Concat(parts)
    decreases |parts|
  {
    if parts != [] {
      var init, last := parts[..|parts| - 1], parts[|parts| - 1];
      NonEmptyConcat(init);
      var tail := if last != "" then [last] else [];
      ConcatAppend(NonEmpty(init), tail);
      assert Concat(tail) == last by {
        if last != "" {
          assert tail[..0] == [];
        }
      }
    }
  }

  /** When no part is empty, every part is yielded. */
  lemma {:induction false} NonEmptyKeepsAll(parts: seq<string>)
    requires forall i :: 0 <= i < |parts| ==> parts[i] != ""
    ensures NonEmpty(parts) == parts
    decreases |parts|
  {
    if parts != [] {
      var init := parts[..|parts| - 1];
      NonEmptyKeepsAll(init);
      assert parts == init + [parts[|parts| - 1]];
    }
  }

  /** A prompt that is empty or only whitespace yields only the invalid-prompt
      error: nothing is sent and the history stays as it was. */
  lemma {:induction false} BlankPromptRejected(h: seq<HistoryItem>, prompt: string, context: string, api: string -> ApiStream)
    requires AllSpace(prompt)
    ensures StreamSpec(h, prompt, context, api) == StreamOutcome([EmptyPromptError], h, None)
  {
    assert Rejection(prompt, context) == Some(EmptyPromptError) by {
      BlankIffAllSpace(prompt);
    }
  }

  /** Otherwise an empty or whitespace-only context yields only the
      missing-context error: nothing is sent and the history stays. */
  lemma {:induction false} BlankContextRejected(h: seq<HistoryItem>, prompt: string, context: string, api: string -> ApiStream)
    requires !AllSpace(prompt) && AllSpace(context)
    ensures StreamSpec(h, prompt, context, api) == StreamOutcome([NoContextError], h, None)
  {
    assert Rejection(prompt, context) == Some(NoContextError) by {
      BlankIffAllSpace(prompt);
      BlankIffAllSpace(context);
    }
  }

  /** Otherwise a prompt whose lower-cased text includes a bypass keyword
      yields only the bypass error: nothing is sent and the history stays. */
  lemma {:induction false} BypassRejected(h: seq<HistoryItem>, prompt: string, context: string, api: string -> ApiStream, k: nat)
    requires !AllSpace(prompt) && !AllSpace(context)
    requires k < |BypassKeywords| && Contains(Lower(prompt), BypassKeywords[k])
    ensures StreamSpec(h, prompt, context, api) == StreamOutcome([BypassError], h, None)
  {
    assert Rejection(prompt, context) == Some(BypassError) by {
      BlankIffAllSpace(prompt);
      BlankIffAllSpace(context);
    }
  }

  /** Gemini is called exactly when the prompt and the context both hold
      something other than whitespace and no bypass keyword occurs in the
      lower-cased prompt. */
  lemma {:induction false} RequestSentIff(h: seq<HistoryItem>, prompt: string, context: string, api: string -> ApiStream)
    ensures StreamSpec(h, prompt, context, api).request.Some? <==>
      !AllSpace(prompt) && !AllSpace(context) && !AttemptsBypass(prompt)
  {
    assert Rejection(prompt, context).None? <==>
      !AllSpace(prompt) && !AllSpace(context) && !AttemptsBypass(prompt)
    by {
      BlankIffAllSpace(prompt);
      BlankIffAllSpace(context);
    }
  }

  /** The keyword check ignores the case of ASCII letters: an occurrence of
      any capitalisation of a keyword rejects the prompt. */
  lemma {:induction false} BypassIgnoresCase(prompt: string, word: string)
    requires Contains(prompt, word) && Lower(word) in BypassKeywords
    ensures AttemptsBypass(prompt)
  {
    LowerKeepsContains(prompt, word);
    var k :| 0 <= k < |BypassKeywords| && BypassKeywords[k] == Lower(word);
  }

  /** The request sent to Gemini embeds the context, the rendered history
      and the prompt. */
  lemma {:induction false} RequestEmbedsInputs(h: seq<HistoryItem>, prompt: string, context: string, api: string -> ApiStream)
    requires StreamSpec(h, prompt, context, api).request.Some?
    ensures var r := StreamSpec(h, prompt, context, api).request.value;
      Contains(r, context) && Contains(r, RenderHistory(h)) && Contains(r, prompt)
  {
    var hc := RenderHistory(h);
    var s1 := PolicyText + context + HistoryLabel;
    var s2 := s1 + hc + QuestionLabel;
    var s3 := s2 + prompt + ClosingText;
    assert StreamSpec(h, prompt, context, api).request.value == s3;
    ContainsMiddle(PolicyText, context, HistoryLabel);
    ContainsExtend(s1, context, hc);
    ContainsExtend(s1 + hc, context, QuestionLabel);
    ContainsExtend(s2, context, prompt);
    ContainsExtend(s2 + prompt, context, ClosingText);
    ContainsMiddle(s1, hc, QuestionLabel);
    ContainsExtend(s2, hc, prompt);
    ContainsExtend(s2 + prompt, hc, ClosingText);
    ContainsMiddle(s2, prompt, ClosingText);
  }

  /** A stream that completes yields exactly its non-empty parts, and the
      turn recorded holds their concatenation as the response; the history
      gains that turn and stays within its bound. */
  lemma {:induction false} StreamCompletes(h: seq<HistoryItem>, prompt: string, context: string, api: string -> ApiStream)
    requires |h| <= MaxHistory
    requires Rejection(prompt, context).None?
    requires api(CombinedPrompt(context, RenderHistory(h), prompt)).failAfter.None?
    ensures var o := StreamSpec(h, prompt, context, api);
      var parts := api(CombinedPrompt(context, RenderHistory(h), prompt)).parts;
      o.chunks == NonEmpty(parts)
      && (forall i :: 0 <= i < |o.chunks| ==> o.chunks[i] != "")
      && o.history == Window(h + [HistoryItem(prompt, Concat(parts))])
      && o.history[|o.history| - 1] == HistoryItem(prompt, Concat(o.chunks))
  {
    var parts := api(CombinedPrompt(context, RenderHistory(h), prompt)).parts;
    NonEmptyParts(parts);
    RecordIsWindow(h, HistoryItem(prompt, Concat(parts)));
  }

  /** A stream that throws yields the non-empty parts that arrived, then the
      one stream error, and records nothing. */
  lemma {:induction false} StreamFails(h: seq<HistoryItem>, prompt: string, context: string, api: string -> ApiStream)
    requires Rejection(prompt, context).None?
    requires api(CombinedPrompt(context, RenderHistory(h), prompt)).failAfter.Some?
    ensures var o := StreamSpec(h, prompt, context, api);
      var s := api(CombinedPrompt(context, RenderHistory(h), prompt));
      o.chunks == NonEmpty(Received(s)) + [StreamError] && o.history == h
      && o.chunks[|o.chunks| - 1] == StreamError
      && (forall i :: 0 <= i < |o.chunks| - 1 ==> o.chunks[i] != "" && o.chunks[i] in s.parts)
  {
    FailedChunks(api(CombinedPrompt(context, RenderHistory(h), prompt)));
  }

  /** The chunks of a failed stream: the non-empty parts that arrived, each
      one of the parts the model sent, and the stream error last. */
  lemma {:induction false} FailedChunks(s: ApiStream)
    ensures var c := NonEmpty(Received(s)) + [StreamError];
      c[|c| - 1] == StreamError
      && (forall i :: 0 <= i < |c| - 1 ==> c[i] != "" && c[i] in s.parts)
  {
    var got := Received(s);
    NonEmptyParts(got);
    NonEmptyIn(got);
    assert forall x :: x in got ==> x in s.parts;
  }

  /** What `generateWithGemini` returns: the rejection text when a guard
      rejects, the concatenation of every streamed part when the stream
      completes, and the parts that arrived followed by the stream error
      when it throws. */
  lemma {:induction false} GeneratedText(h: seq<HistoryItem>, prompt: string, context: string, api: string -> ApiStream)
    ensures var s := api(CombinedPrompt(context, RenderHistory(h), prompt));
      var full := Concat(StreamSpec(h, prompt, context, api).chunks);
      if Rejection(prompt, context).Some? then full == Rejection(prompt, context).value
      else if s.failAfter.None? then full == Concat(s.parts)
      else full == Concat(Received(s)) + StreamError
  {
    var s := api(CombinedPrompt(context, RenderHistory(h), prompt));
    var chunks := StreamSpec(h, prompt, context, api).chunks;
    if Rejection(prompt, context).Some? {
      assert chunks[..0] == [];
    } else {
      var got := NonEmpty(Received(s));
      NonEmptyParts(Received(s));
      if s.failAfter.Some? {
        assert chunks[..|got|] == got;
      }
    }
  }

  /** Every yielded part is one of the parts received. */
  lemma {:induction false} NonEmptyIn(parts: seq<string>)
    ensures forall i :: 0 <= i < |NonEmpty(parts)| ==> NonEmpty(parts)[i] in parts
    decreases |parts|
  {
    if parts != [] {
      var init := parts[..|parts| - 1];
      NonEmptyIn(init);
      assert forall x :: x in init ==> x in parts;
    }
  }

  /** Recording a turn on a history within its bound keeps the last ten
      turns of the history with the new turn appended. */
  lemma {:induction false} RecordIsWindow(h: seq<HistoryItem>, item: HistoryItem)
    requires |h| <= MaxHistory
    ensures Record(h, item) == Window(h + [item])
    ensures |Record(h, item)| == if |h| < MaxHistory then |h| + 1 else MaxHistory
    ensures Record(h, item)[|Record(h, item)| - 1] == item
  {
  }

  /** Windowing a longer sequence first does not change the window after an append. */
  lemma {:induction false} WindowAppend(s: seq<HistoryItem>, x: HistoryItem)
    ensures Window(Window(s) + [x]) == Window(s + [x])
  {
    if |s| > MaxHistory {
      assert (s + [x])[|s + [x]| - MaxHistory..] == s[|s| - MaxHistory..][1..] + [x];
    }
  }

  /** FIFO eviction over a run of successful generations: the history ends
      as the last ten turns of the old history followed by the new ones. */
  lemma {:induction false} RecordAllIsWindow(h: seq<HistoryItem>, items: seq<HistoryItem>)
    requires |h| <= MaxHistory
    ensures RecordAll(h, items) == Window(h + items)
    decreases |items|
  {
    if items == [] {
      assert h + items == h;
    } else {
      RecordIsWindow(h, items[0]);
      WindowAppend(h, items[0]);
      RecordAllIsWindow(Record(h, items[0]), items[1..]);
      assert Record(h, items[0]) == Window(h + [items[0]]);
      RecordAllWindowed(h + [items[0]], items[1..]);
      assert h + [items[0]] + items[1..] == h + items;
    }
  }

  /** The window of an initial history is absorbed by later appends when
      windowing the whole run. */
  lemma {:induction false} RecordAllWindowed(s: seq<HistoryItem>, rest: seq<HistoryItem>)
    ensures Window(Window(s) + rest) == Window(s + rest)
    decreases |rest|
  {
    if rest != [] {
      var init, last := rest[..|rest| - 1], rest[|rest| - 1];
      RecordAllWindowed(s, init);
      assert Window(s) + rest == (Window(s) + init) + [last];
      assert s + rest == (s + init) + [last];
      WindowAppend(Window(s) + init, last);
      WindowAppend(s + init, last);
    } else {
      assert Window(s) + rest == Window(s);
      assert s + rest == s;
    }
  }

  /** After ten or more successful generations the history holds exactly
      the last ten turns: every older one is gone. */
  lemma {:induction false} HistoryKeepsLastTen(h: seq<HistoryItem>, items: seq<HistoryItem>)
    requires |h| <= MaxHistory && |items| >= MaxHistory
    ensures RecordAll(h, items) == items[|items| - MaxHistory..]
  {
    RecordAllIsWindow(h, items);
    assert (h + items)[|h + items| - MaxHistory..] == items[|items| - MaxHistory..];
  }

  /** The rendered history lists the stored turns in order, one blank line
      between turns. */
  lemma {:induction false} RenderHistorySnoc(h: seq<HistoryItem>, item: HistoryItem)
    ensures RenderHistory(h + [item]) ==
      if h == [] then Entry(item) else RenderHistory(h) + "\n\n" + Entry(item)
  {
    assert (h + [item])[..|h|] == h;
    JoinSnoc(Entries(h), Entry(item), "\n\n");
  }

  /** The `i`-th rendered entry is the `i`-th stored turn. */
  lemma {:induction false} EntriesAt(h: seq<HistoryItem>, i: nat)
    requires i < |h|
    ensures Entries(h)[i] == Entry(h[i])
    decreases |h|
  {
    if i < |h| - 1 {
      EntriesAt(h[..|h| - 1], i);
    }
  }

  /** The rendered history starts with the oldest stored turn. */
  lemma {:induction false} RenderHistoryStarts(h: seq<HistoryItem>)
    requires h != []
    ensures StartsWith(RenderHistory(h), Entry(h[0]))
  {
    var e := Entries(h);
    EntriesAt(h, 0);
    if |h| > 1 {
      assert RenderHistory(h) == e[0] + ("\n\n" + Join(e[1..], "\n\n"));
    }
  }

  /** The bypass keywords are written in lower case and start with a letter. */
  lemma {:induction false} KeywordsAreLowerCase(k: nat)
    requires k < |BypassKeywords|
    ensures var w := BypassKeywords[k]; Lower(w) == w && w != [] && !IsSpace(w[0])
  {
    LowerNoCapitals(BypassKeywords[k]);
  }

  /** A prompt that includes a bypass keyword as written (for instance
      "ignore all context") is rejected as a bypass attempt whenever the
      context is not blank: nothing is sent and nothing is recorded. */
  lemma {:induction false} KeywordPromptRejected(h: seq<HistoryItem>, prompt: string, context: string, api: string -> ApiStream, k: nat)
    requires k < |BypassKeywords| && Contains(prompt, BypassKeywords[k]) && !AllSpace(context)
    ensures StreamSpec(h, prompt, context, api) == StreamOutcome([BypassError], h, None)
  {
    var w := BypassKeywords[k];
    KeywordsAreLowerCase(k);
    assert !AllSpace(prompt) by {
      ContainsIff(prompt, w);
      var i: nat :| OccursAt(prompt, w, i);
      assert prompt[i] == w[0];
    }
    LowerKeepsContains(prompt, w);
    BypassRejected(h, prompt, context, api, k);
  }
}
