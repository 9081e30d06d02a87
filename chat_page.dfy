/**
 * The chat page's conversation state (app/chat-bot/page.jsx): the displayed
 * turns, the input box, the `loading`/`isStreaming` flags and the abort
 * handle, with the page's handlers as methods.
 *
 * Calls that the page starts without awaiting are split at the call: `Send`
 * and `Regenerate` perform the synchronous part and return the turns they
 * hand to the stream; `StreamResponse` then consumes the server's response,
 * given as an input value. A user's Stop that cancels an in-flight stream is
 * an event in that input (an `AbortError` between reads), and
 * `StreamResponse` performs `Stop` at that point.
 */
module ChatPage {
  import opened Wrappers
  import opened Strings
  import opened ChatRequest
  import ChatStreamRoute

  /** At most this many of the most recent turns are sent upstream. */
  const MaxMessages := 10

  const SetupFailedMessage := "Failed to stream response."

  /** An error caught by the page: the abort of its own request, or any other error with its message. */
  datatype Failure = AbortError | Failed(message: string)

  /** How the body ends after its chunks: completion, or a read that rejects. */
  datatype StreamEnd = Done | ReadFailed(failure: Failure)

  /** What `fetch` and the body reader produce, with each read already decoded to text. */
  datatype Response =
    | FetchFailed(failure: Failure)               // fetch itself rejected
    | NotOk                                        // !res.ok or no body
    | Body(chunks: seq<string>, end: StreamEnd)

  /** The assistant turn that reports a caught error. */
  function ErrorTurn(message: string): (r: Message)
    ensures r.role == AssistantRole && r.content == "Error: " + message
  {
    Message(AssistantRole, "Error: " + message)
  }

  /** The turns on display once one response has been consumed from `history`. */
  function StreamOutcome(history: seq<Message>, response: Response): (r: seq<Message>)
    ensures history <= r
    ensures response.Body? ==> |r| > |history| && r[|history|] == Message(AssistantRole, Concat(response.chunks))
    ensures |r| == |history| + 2 <==> response.Body? && response.end.ReadFailed? && response.end.failure.Failed?
    ensures |r| == |history| <==> response == FetchFailed(AbortError)
    ensures response.NotOk? ==> r == history + [ErrorTurn(SetupFailedMessage)]
    ensures response.FetchFailed? && response.failure.Failed? ==> r == history + [ErrorTurn(response.failure.message)]
    ensures response.Body? && (response.end.Done? || response.end.failure.AbortError?) ==>
      r == history + [Message(AssistantRole, Concat(response.chunks))]
    ensures response.Body? && response.end.ReadFailed? && response.end.failure.Failed? ==>
      r == history + [Message(AssistantRole, Concat(response.chunks)), ErrorTurn(response.end.failure.message)]
  {
    match response
    case FetchFailed(AbortError) => history
    case FetchFailed(Failed(m)) => history + [ErrorTurn(m)]
    case NotOk => history + [ErrorTurn(SetupFailedMessage)]
    case Body(chunks, end) =>
      var streamed := history + [Message(AssistantRole, Concat(chunks))];
      match end
      case Done => streamed
      case ReadFailed(AbortError) => streamed
      case ReadFailed(Failed(m)) => streamed + [ErrorTurn(m)]
  }

  /**
   * The client shows exactly what the relay sent: when the page reads the
   * relay's chunks to the end, the new assistant turn is the upstream text,
   * followed by the relay's error notice when the upstream failed mid-stream.
   */
  lemma ClientShowsRelayedText(history: seq<Message>, up: ChatStreamRoute.Upstream)
    ensures var r := StreamOutcome(history, Body(ChatStreamRoute.RelayChunks(up), Done));
      r == history + [Message(AssistantRole,
        Concat(up.fragments) + if up.throws then ChatStreamRoute.StreamingError else "")]
  {
    ChatStreamRoute.RelayText(up);
  }

  /** An upstream that fails after "Hel" and "lo" leaves "Hello" followed by the notice on display. */
  lemma MidStreamFailureKeepsPartialText(history: seq<Message>)
    ensures var up := ChatStreamRoute.Upstream(["Hel", "lo"], true);
      StreamOutcome(history, Body(ChatStreamRoute.RelayChunks(up), Done))
        == history + [Message(AssistantRole, "Hello\n[Streaming error]")]
  {
    ClientShowsRelayedText(history, ChatStreamRoute.Upstream(["Hel", "lo"], true));
    HelloWithNotice();
  }

  /** The fragments "Hel" and "lo" followed by the relay's notice read "Hello\n[Streaming error]". */
  lemma HelloWithNotice()
    ensures Concat(["Hel", "lo"]) + ChatStreamRoute.StreamingError == "Hello\n[Streaming error]"
  {
    var fragments := ["Hel", "lo"];
    assert fragments[1..] == ["lo"] && fragments[1..][1..] == [];
    assert Concat(fragments) == "Hel" + ("lo" + "");
  }

  /**
   * The turns sent after appending `m` end with `m`, keep at most ten turns,
   * and are the most recent ones.
   */
  lemma PayloadEndsWithNewTurn(history: seq<Message>, m: Message)
    ensures var p := LastN(history + [m], MaxMessages);
      p == (if |history| < MaxMessages then history else history[|history| - (MaxMessages - 1)..]) + [m]
  {
    var h := history + [m];
    if |history| >= MaxMessages {
      assert h[|h| - MaxMessages..] == history[|history| - (MaxMessages - 1)..] + [m];
    }
  }

  /** A body of one chunk read to the end adds that chunk as the assistant turn. */
  lemma OneChunk(history: seq<Message>, text: string)
    ensures StreamOutcome(history, Body([text], Done)) == history + [Message(AssistantRole, text)]
  {
    assert [text][1..] == [];
    assert Concat([text]) == text + Concat([]) == text;
  }

  /** An abort controller; `aborted` records that `abort()` was called on it. */
  class AbortController {
    var aborted: bool

    constructor ()
      ensures !aborted
    {
      aborted := false;
    }

    method Abort()
      modifies this
      ensures aborted
    {
      aborted := true;
    }
  }

  class ChatSession {
    var messages: seq<Message>
    var input: string
    var loading: bool
    var isStreaming: bool
    /** `abortRef.current`: the controller of the request in flight, if any. */
    var abortRef: AbortController?

    /** The page's initial state. */
    constructor ()
      ensures messages == [] && input == "" && !loading && !isStreaming && abortRef == null
    {
      messages, input, loading, isStreaming, abortRef := [], "", false, false, null;
    }

    /**
     * handleSend: unless the input is blank or a reply is loading, appends the
     * input as a user turn, clears the input, sets `loading`, and returns the
     * most recent turns to stream with.
     */
    method Send() returns (payload: Option<seq<Message>>)
      modifies this
      ensures payload.None? <==> IsBlank(old(input)) || old(loading)
      ensures payload.None? ==> messages == old(messages) && input == old(input) && loading == old(loading)
      ensures payload.Some? ==>
        messages == old(messages) + [Message(UserRole, old(input))] && input == "" && loading &&
        payload.value == LastN(messages, MaxMessages)
      ensures isStreaming == old(isStreaming) && abortRef == old(abortRef)
    {
      if IsBlank(input) || loading {
        return None;
      }
      var updated := messages + [Message(UserRole, input)];
      messages := updated;
      input := "";
      loading := true;
      payload := Some(LastN(updated, MaxMessages));
    }

    /**
     * handleRegenerate: when not loading and the last turn is the assistant's,
     * removes that turn, sets `loading`, and returns the most recent remaining
     * turns to stream with; otherwise changes nothing.
     */
    method Regenerate() returns (payload: Option<seq<Message>>)
      modifies this
      ensures payload.Some? <==>
        !old(loading) && old(messages) != [] && old(messages)[|old(messages)| - 1].role == AssistantRole
      ensures payload.None? ==> messages == old(messages) && loading == old(loading)
      ensures payload.Some? ==>
        messages == old(messages)[..|old(messages)| - 1] && loading &&
        payload.value == LastN(messages, MaxMessages)
      ensures input == old(input) && isStreaming == old(isStreaming) && abortRef == old(abortRef)
    {
      if loading {
        return None;
      }
      if |messages| == 0 {
        return None;
      }
      var last := messages[|messages| - 1];
      if last.role != AssistantRole {
        return None;
      }
      var withoutLast := messages[..|messages| - 1];
      messages := withoutLast;
      loading := true;
      payload := Some(LastN(withoutLast, MaxMessages));
    }

    /**
     * streamResponse: opens a controller, consumes the response, and on every
     * path ends with both flags cleared and no controller. A successful setup
     * adds one assistant turn that holds the running concatenation of the
     * chunks read so far.
     */
    method StreamResponse(response: Response)
      modifies this
      ensures messages == StreamOutcome(old(messages), response)
      ensures input == old(input)
      ensures !loading && !isStreaming && abortRef == null
    {
      var controller := new AbortController();
      abortRef := controller;
      isStreaming := true;
      match response {
        case FetchFailed(failure) =>
          if failure.AbortError? {
            Stop();
          } else {
            messages := messages + [ErrorTurn(failure.message)];
          }
        case NotOk =>
          messages := messages + [ErrorTurn(SetupFailedMessage)];
        case Body(chunks, end) =>
          messages := messages + [Message(AssistantRole, "")];
          var fullText := "";
          var i := 0;
          while i < |chunks|
            invariant 0 <= i <= |chunks|
            invariant fullText == Concat(chunks[..i])
            invariant messages == old(messages) + [Message(AssistantRole, fullText)]
            invariant abortRef == controller && input == old(input)
          {
            assert chunks[..i + 1] == chunks[..i] + [chunks[i]];
            ConcatAppend(chunks[..i], chunks[i]);
            fullText := fullText + chunks[i];
            messages := messages[|messages| - 1 := Message(AssistantRole, fullText)];
            i := i + 1;
          }
          assert chunks[..i] == chunks;
          match end {
            case Done =>
            case ReadFailed(failure) =>
              if failure.AbortError? {
                Stop();
              } else {
                messages := messages + [ErrorTurn(failure.message)];
              }
          }
      }
      loading := false;
      isStreaming := false;
      abortRef := null;
    }

    /**
     * handleStop: with a controller in flight, aborts it, drops it and clears
     * both flags; without one, changes nothing, so a second Stop is a no-op.
     */
    method Stop()
      modifies this, abortRef
      ensures messages == old(messages) && input == old(input) && abortRef == null
      ensures old(abortRef) == null ==> loading == old(loading) && isStreaming == old(isStreaming)
      ensures old(abortRef) != null ==> old(abortRef).aborted && !loading && !isStreaming
    {
      if abortRef != null {
        abortRef.Abort();
        abortRef := null;
        loading := false;
        isStreaming := false;
      }
    }

    /** handleClear: Stop, then an empty conversation, an empty input and `loading` off. */
    method Clear()
      modifies this, abortRef
      ensures messages == [] && input == "" && !loading && abortRef == null
      ensures isStreaming == (old(abortRef) == null && old(isStreaming))
      ensures old(abortRef) != null ==> old(abortRef).aborted
    {
      Stop();
      messages := [];
      input := "";
      loading := false;
    }
  }

  /** "Hi" is not blank, so the page sends it. */
  lemma HiNotBlank()
    ensures !IsBlank("Hi")
  {
    TrimEmptyIffBlank("Hi");
    assert !IsJsWhitespace("Hi"[0]);
  }

  /** The chunks "He", "llo", "!" read to the end add the assistant turn "Hello!". */
  lemma HelloChunks(history: seq<Message>)
    ensures StreamOutcome(history, Body(["He", "llo", "!"], Done)) == history + [Message(AssistantRole, "Hello!")]
  {
    var chunks := ["He", "llo", "!"];
    assert chunks[1..] == ["llo", "!"] && chunks[1..][1..] == ["!"] && chunks[1..][1..][1..] == [];
    assert Concat(chunks) == "He" + ("llo" + ("!" + ""));
    assert "He" + ("llo" + ("!" + "")) == "Hello!";
  }

  /** A fresh page with "Hi" typed in sends it as the only turn. */
  method SendHi() returns (page: ChatSession, sent: Option<seq<Message>>)
    ensures fresh(page)
    ensures page.messages == [Message(UserRole, "Hi")] && sent == Some(page.messages)
  {
    var kept := [Message(UserRole, "Hi")];
    page := new ChatSession();
    page.input := "Hi";
    HiNotBlank();
    assert !IsBlank(page.input);
    sent := page.Send();
    assert page.messages == [] + kept == kept;
    assert |LastN(kept, MaxMessages)| == 1;
    assert LastN(kept, MaxMessages) == kept[0..] == kept;
  }

  /** Sending "Hi" and reading "He", "llo", "!" to the end leaves the user turn and "Hello!". */
  method SendScenario() returns (sent: Option<seq<Message>>, transcript: seq<Message>)
    ensures sent == Some([Message(UserRole, "Hi")])
    ensures transcript == [Message(UserRole, "Hi"), Message(AssistantRole, "Hello!")]
  {
    var page;
    page, sent := SendHi();
    page.StreamResponse(Body(["He", "llo", "!"], Done));
    HelloChunks([Message(UserRole, "Hi")]);
    transcript := page.messages;
  }

  /**
   * Regenerating after a user turn and an assistant reply resends only the user
   * turn, and the new reply takes the old one's place.
   */
  method RegenerateScenario() returns (sent: Option<seq<Message>>, transcript: seq<Message>)
    ensures sent == Some([Message(UserRole, "Hi")])
    ensures transcript == [Message(UserRole, "Hi"), Message(AssistantRole, "Hey")]
  {
    var page := new ChatSession();
    var kept := [Message(UserRole, "Hi")];
    page.messages := kept + [Message(AssistantRole, "Hello!")];
    assert page.messages[..|page.messages| - 1] == kept;
    sent := page.Regenerate();
    assert page.messages == kept;
    assert |LastN(kept, MaxMessages)| == 1;
    assert LastN(kept, MaxMessages) == kept[0..] == kept;
    page.StreamResponse(Body(["Hey"], Done));
    OneChunk(kept, "Hey");
    transcript := page.messages;
  }

  /** Stopping twice leaves the same state as stopping once. */
  method StopTwice(page: ChatSession)
    modifies page, page.abortRef
    ensures page.messages == old(page.messages) && page.input == old(page.input) && page.abortRef == null
    ensures old(page.abortRef) == null ==> page.loading == old(page.loading) && page.isStreaming == old(page.isStreaming)
    ensures old(page.abortRef) != null ==> old(page.abortRef).aborted && !page.loading && !page.isStreaming
  {
    page.Stop();
    page.Stop();
  }
}
