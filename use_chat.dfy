/** The chat hook of src/hooks/use-chat.ts: the message list, the input
    field, the loading flag and the last error, and the submit handler that
    sends the question with the page URL to the answer flow and shows what
    comes back. The handler runs in two steps: everything up to the call
    into the flow (`Submit`), and everything after it (`Receive`), with the
    flow's reply as a parameter. URL parsing and message ids are parameters. */
module UseChat {
  import opened Text
  import opened Outcomes
  import AnswerFlow

  datatype Role = User | Assistant

  /** One entry of the chat. */
  datatype Message = Message(id: string, role: Role, content: string)

  /** What the hook keeps in React state. */
  datatype ChatState = ChatState(messages: seq<Message>, input: string, isLoading: bool, error: Option<string>)

  /** The only URL scheme check the hook makes: a prefix. */
  const HttpPrefix := "http"
  const UrlGuardMessage := "Invalid or missing webpage URL for context."
  const EmptyAnswerReply := "Sorry, I couldn't generate a response for that. There might have been an issue."
  const EmptyAnswerError := "AI returned an empty or invalid response."
  const UnknownErrorMessage := "An unknown error occurred."
  const ErrorReplyPrefix := "Sorry, I encountered an error: "

  /** The configured URL, or else the page's own address when there is a
      window, or else the empty string. */
  function EffectiveUrl(configuredUrl: string, windowHref: Option<string>): string {
    if configuredUrl != "" then configuredUrl
    else match windowHref
      case Some(href) => href
      case None => ""
  }

  /** The URL guard: non-empty, parseable by `URL.canParse` (the parameter
      `canParse`) and starting with "http". */
  predicate UrlAccepted(url: string, canParse: string -> bool) {
    url != "" && canParse(url) && StartsWith(url, HttpPrefix)
  }

  /** `err instanceof Error ? err.message : "An unknown error occurred."`. */
  function CaughtMessage(e: Thrown): string {
    match e
    case ErrorValue(message) => message
    case OtherValue => UnknownErrorMessage
  }

  /** The user's message goes up, the input is cleared, loading starts and
      the previous error is cleared. */
  function Begin(st: ChatState, userId: string): ChatState {
    ChatState(st.messages + [Message(userId, User, st.input)], "", true, None)
  }

  /** The `catch` and `finally` clauses: the error is stored and shown as an
      assistant message, and loading ends. */
  function Caught(st: ChatState, e: Thrown, id: string): ChatState {
    var m := CaughtMessage(e);
    ChatState(st.messages + [Message(id, Assistant, ErrorReplyPrefix + m)], st.input, false, Some(m))
  }

  /** The answer check and `finally`: an empty answer is replaced by the
      fallback reply and stored as an error; any other answer is shown as
      it is. Loading ends either way. */
  function Answered(st: ChatState, answer: string, id: string): ChatState {
    if answer == "" then
      ChatState(st.messages + [Message(id, Assistant, EmptyAnswerReply)], st.input, false, Some(EmptyAnswerError))
    else
      ChatState(st.messages + [Message(id, Assistant, answer)], st.input, false, st.error)
  }

  /** The state after the synchronous part of a submit, and the request it
      hands to the answer flow, if any. */
  datatype SubmitOutcome = SubmitOutcome(state: ChatState, request: Option<AnswerFlow.AnswerInput>)

  /** `handleSubmit` up to the call into the flow. */
  function SubmitSpec(st: ChatState, configuredUrl: string, windowHref: Option<string>,
                      canParse: string -> bool, userId: string, errorId: string): SubmitOutcome
  {
    if IsBlank(st.input) || st.isLoading then SubmitOutcome(st, None)
    else
      var begun := Begin(st, userId);
      var url := EffectiveUrl(configuredUrl, windowHref);
      if !UrlAccepted(url, canParse) then
        SubmitOutcome(Caught(begun, ErrorValue(UrlGuardMessage), errorId), None)
      else SubmitOutcome(begun, Some(AnswerFlow.AnswerInput(url, st.input)))
  }

  /** `handleSubmit` after the flow returned `Returned(output)` or threw. */
  function ReceiveSpec(st: ChatState, reply: Completion<AnswerFlow.AnswerOutput>, replyId: string): ChatState {
    match reply
    case Returned(output) => Answered(st, output.answer, replyId)
    case Threw(e) => Caught(st, e, replyId)
  }

  /** One mounted chat: its React state and the configured URL. */
  class ChatSession {
    var messages: seq<Message>
    var input: string
    var isLoading: bool
    var error: Option<string>
    const configuredUrl: string

    function State(): ChatState
      reads this
    {
      ChatState(messages, input, isLoading, error)
    }

    /** `useChat({ initialMessages, initialInput, initialApiConfig })`. */
    constructor (initialMessages: seq<Message>, initialInput: string, url: string)
      ensures State() == ChatState(initialMessages, initialInput, false, None)
      ensures configuredUrl == url
    {
      messages := initialMessages;
      input := initialInput;
      isLoading := false;
      error := None;
      configuredUrl := url;
    }

    /** `handleInputChange`: the field's new value replaces the input. */
    method InputChange(value: string)
      modifies this
      ensures State() == old(State()).(input := value)
    {
      input := value;
    }

    /** `handleSubmit` up to the call into the flow: returns the request
        to send, if any. */
    method Submit(windowHref: Option<string>, canParse: string -> bool, userId: string, errorId: string)
      returns (request: Option<AnswerFlow.AnswerInput>)
      modifies this
      ensures SubmitOutcome(State(), request)
        == SubmitSpec(old(State()), configuredUrl, windowHref, canParse, userId, errorId)
    {
      if IsBlank(input) || isLoading {
        request := None;
        return;
      }
      ghost var before := State();
      var newUserMessage := Message(userId, User, input);
      messages := messages + [newUserMessage];
      var currentInput := input;
      input := "";
      isLoading := true;
      error := None;
      assert State() == Begin(before, userId);
      var url := EffectiveUrl(configuredUrl, windowHref);
      if !UrlAccepted(url, canParse) {
        error := Some(UrlGuardMessage);
        messages := messages + [Message(errorId, Assistant, ErrorReplyPrefix + UrlGuardMessage)];
        isLoading := false;
        request := None;
        assert State() == Caught(Begin(before, userId), ErrorValue(UrlGuardMessage), errorId);
        return;
      }
      request := Some(AnswerFlow.AnswerInput(url, currentInput));
    }

    /** `handleSubmit` after the flow replied. */
    method Receive(reply: Completion<AnswerFlow.AnswerOutput>, replyId: string)
      modifies this
      ensures State() == ReceiveSpec(old(State()), reply, replyId)
    {
      match reply {
        case Returned(output) =>
          if output.answer == "" {
            messages := messages + [Message(replyId, Assistant, EmptyAnswerReply)];
            error := Some(EmptyAnswerError);
          } else {
            messages := messages + [Message(replyId, Assistant, output.answer)];
          }
        case Threw(e) =>
          var errorMessage := CaughtMessage(e);
          error := Some(errorMessage);
          messages := messages + [Message(replyId, Assistant, ErrorReplyPrefix + errorMessage)];
      }
      isLoading := false;
    }
  }

  /** A blank input, or a submit while an answer is awaited, changes nothing
      and sends nothing. */
  lemma {:induction false} SubmitIgnored(st: ChatState, configuredUrl: string, windowHref: Option<string>,
                                         canParse: string -> bool, userId: string, errorId: string)
    requires AllSpace(st.input) || st.isLoading
    ensures SubmitSpec(st, configuredUrl, windowHref, canParse, userId, errorId) == SubmitOutcome(st, None)
  {
    BlankIffAllSpace(st.input);
  }

  /** A request goes to the flow exactly when the input is not blank,
      nothing is awaited and the URL passes the guard. */
  lemma {:induction false} SubmitSentIff(st: ChatState, configuredUrl: string, windowHref: Option<string>,
                                         canParse: string -> bool, userId: string, errorId: string)
    ensures SubmitSpec(st, configuredUrl, windowHref, canParse, userId, errorId).request.Some?
      <==> !AllSpace(st.input) && !st.isLoading && UrlAccepted(EffectiveUrl(configuredUrl, windowHref), canParse)
  {
    BlankIffAllSpace(st.input);
  }

  /** An accepted submit keeps the earlier messages, appends the user's
      message with the input as typed, untrimmed, and clears the input. */
  lemma {:induction false} SubmitAccepted(st: ChatState, configuredUrl: string, windowHref: Option<string>,
                                          canParse: string -> bool, userId: string, errorId: string)
    requires !AllSpace(st.input) && !st.isLoading
    ensures var o := SubmitSpec(st, configuredUrl, windowHref, canParse, userId, errorId);
      var n := |st.messages|;
      n < |o.state.messages| && o.state.messages[..n] == st.messages
      && o.state.messages[n] == Message(userId, User, st.input)
      && o.state.input == ""
  {
    BlankIffAllSpace(st.input);
    var n := |st.messages|;
    var begun := Begin(st, userId);
    assert begun.messages[..n] == st.messages;
    if !UrlAccepted(EffectiveUrl(configuredUrl, windowHref), canParse) {
      var failed := Caught(begun, ErrorValue(UrlGuardMessage), errorId);
      assert failed.messages[..n + 1] == begun.messages;
      assert failed.messages[..n] == st.messages;
    }
  }

  /** Sent, an accepted submit asks the flow about the input as typed with
      the effective URL, shows only the user's message so far, and waits
      with no error. */
  lemma {:induction false} SubmitSends(st: ChatState, configuredUrl: string, windowHref: Option<string>,
                                       canParse: string -> bool, userId: string, errorId: string)
    requires !AllSpace(st.input) && !st.isLoading
    requires UrlAccepted(EffectiveUrl(configuredUrl, windowHref), canParse)
    ensures var o := SubmitSpec(st, configuredUrl, windowHref, canParse, userId, errorId);
      o.request == Some(AnswerFlow.AnswerInput(EffectiveUrl(configuredUrl, windowHref), st.input))
      && o.state == ChatState(st.messages + [Message(userId, User, st.input)], "", true, None)
  {
    BlankIffAllSpace(st.input);
  }

  /** Refused by the URL guard, an accepted submit shows the user's message
      and then the URL error at once, stores the error and stops loading;
      nothing is sent. */
  lemma {:induction false} SubmitRefusesUrl(st: ChatState, configuredUrl: string, windowHref: Option<string>,
                                            canParse: string -> bool, userId: string, errorId: string)
    requires !AllSpace(st.input) && !st.isLoading
    requires !UrlAccepted(EffectiveUrl(configuredUrl, windowHref), canParse)
    ensures var o := SubmitSpec(st, configuredUrl, windowHref, canParse, userId, errorId);
      o.request.None?
      && o.state.messages == st.messages + [Message(userId, User, st.input)]
                             + [Message(errorId, Assistant, ErrorReplyPrefix + UrlGuardMessage)]
      && o.state.input == "" && !o.state.isLoading && o.state.error == Some(UrlGuardMessage)
  {
    BlankIffAllSpace(st.input);
  }

  /** With no configured URL and no window, an accepted submit is refused
      with the URL error. */
  lemma {:induction false} MissingUrlRejected(st: ChatState, canParse: string -> bool, userId: string, errorId: string)
    requires !AllSpace(st.input) && !st.isLoading
    ensures var o := SubmitSpec(st, "", None, canParse, userId, errorId);
      o.request.None? && o.state.error == Some(UrlGuardMessage)
  {
    BlankIffAllSpace(st.input);
  }

  /** While an answer is awaited every further submit is ignored, whatever
      the input holds by then. */
  lemma {:induction false} NoSubmitWhileLoading(st: ChatState, configuredUrl: string, windowHref: Option<string>,
                                                canParse: string -> bool, userId: string, errorId: string,
                                                typed: string, windowHref2: Option<string>,
                                                userId2: string, errorId2: string)
    requires SubmitSpec(st, configuredUrl, windowHref, canParse, userId, errorId).request.Some?
    ensures var s := SubmitSpec(st, configuredUrl, windowHref, canParse, userId, errorId).state.(input := typed);
      SubmitSpec(s, configuredUrl, windowHref2, canParse, userId2, errorId2) == SubmitOutcome(s, None)
  {
  }

  /** The question sent to the flow is never blank, so it always meets the
      flow's one-character minimum. */
  lemma {:induction false} SentQuestionNotBlank(st: ChatState, configuredUrl: string, windowHref: Option<string>,
                                                canParse: string -> bool, userId: string, errorId: string)
    requires SubmitSpec(st, configuredUrl, windowHref, canParse, userId, errorId).request.Some?
    ensures var q := SubmitSpec(st, configuredUrl, windowHref, canParse, userId, errorId).request.value.question;
      !AllSpace(q) && q != ""
  {
    BlankIffAllSpace(st.input);
  }

  /** A reply appends exactly one assistant message with the reply's id and
      ends loading; an answer the flow returned is shown verbatim, error
      answers included, unless it is empty. */
  lemma {:induction false} ReceiveAppendsOne(st: ChatState, reply: Completion<AnswerFlow.AnswerOutput>, replyId: string)
    ensures var r := ReceiveSpec(st, reply, replyId);
      |r.messages| == |st.messages| + 1 && r.messages[..|st.messages|] == st.messages
      && r.messages[|st.messages|].role == Assistant && r.messages[|st.messages|].id == replyId
      && !r.isLoading && r.input == st.input
      && (reply.Returned? && reply.value.answer != "" ==>
            r.messages[|st.messages|].content == reply.value.answer && r.error == st.error)
      && (reply.Returned? && reply.value.answer == "" ==>
            r.messages[|st.messages|].content == EmptyAnswerReply && r.error == Some(EmptyAnswerError))
      && (reply.Threw? ==>
            r.messages[|st.messages|].content == ErrorReplyPrefix + CaughtMessage(reply.thrown)
            && r.error == Some(CaughtMessage(reply.thrown)))
  {
  }

  /** A full exchange adds the user's message and then one assistant
      message, leaves the input empty and the hook idle, and leaves an error
      exactly when the flow threw or answered with nothing. */
  lemma {:induction false} ExchangeAddsTwo(st: ChatState, configuredUrl: string, windowHref: Option<string>,
                                           canParse: string -> bool, userId: string, errorId: string,
                                           reply: Completion<AnswerFlow.AnswerOutput>, replyId: string)
    requires SubmitSpec(st, configuredUrl, windowHref, canParse, userId, errorId).request.Some?
    ensures var r := ReceiveSpec(SubmitSpec(st, configuredUrl, windowHref, canParse, userId, errorId).state, reply, replyId);
      |r.messages| == |st.messages| + 2 && r.messages[..|st.messages|] == st.messages
      && r.messages[|st.messages|] == Message(userId, User, st.input)
      && r.messages[|st.messages| + 1].role == Assistant
      && r.input == "" && !r.isLoading
      && (r.error.None? <==> reply.Returned? && reply.value.answer != "")
  {
    var s := SubmitSpec(st, configuredUrl, windowHref, canParse, userId, errorId).state;
    SubmitAccepted(st, configuredUrl, windowHref, canParse, userId, errorId);
    ReceiveAppendsOne(s, reply, replyId);
    assert s.messages[..|st.messages|] == st.messages;
    assert ReceiveSpec(s, reply, replyId).messages[..|st.messages|]
      == ReceiveSpec(s, reply, replyId).messages[..|s.messages|][..|st.messages|];
  }
}
