/**
 * The streaming chat endpoint (POST /api/chat-bot/chat-stream): validate the
 * turns, assemble the prompt, and relay the model's text fragments to the
 * client as they arrive.
 *
 * The model provider is an input: either the streaming call fails before any
 * fragment (an error thrown by `generateContentStream`), or it yields a list
 * of fragments and then either ends or throws.
 */
module ChatStreamRoute {
  import opened Wrappers
  import opened Strings
  import opened Errors
  import opened ChatRequest

  const StreamSystemPrompt := "You are a helpful assistant. Reply in simple English. Use plain text only."

  /** The in-band notice written when the upstream iteration fails. */
  const StreamingError := "\n[Streaming error]"

  /** The fragments the upstream stream delivered, and whether it then threw. */
  datatype Upstream = Upstream(fragments: seq<string>, throws: bool)

  /** What the relay did to the outbound stream: the chunks it enqueued and how often it closed it. */
  datatype Sink = Sink(queue: seq<string>, closeCalls: nat)

  /** Writes one chunk; a stream accepts no chunk once it has been closed. */
  function Enqueue(s: Sink, chunk: string): (r: Sink)
    requires s.closeCalls == 0
    ensures r.queue == s.queue + [chunk] && r.closeCalls == 0
  {
    s.(queue := s.queue + [chunk])
  }

  function Close(s: Sink): (r: Sink)
    ensures r.queue == s.queue && r.closeCalls == s.closeCalls + 1
  {
    s.(closeCalls := s.closeCalls + 1)
  }

  /** The non-empty texts of a fragment list, in arrival order. */
  function NonEmpty(fragments: seq<string>): (r: seq<string>)
    ensures |r| <= |fragments|
    ensures forall i :: 0 <= i < |r| ==> r[i] != ""
  {
    if fragments == [] then []
    else
      var last := fragments[|fragments| - 1];
      NonEmpty(fragments[..|fragments| - 1]) + (if last == "" then [] else [last])
  }

  /** The kept texts are exactly the non-empty fragments, each as often as it arrived. */
  lemma {:induction false} NonEmptyKeepsEveryText(fragments: seq<string>)
    ensures multiset(NonEmpty(fragments)) == multiset(fragments)["" := 0]
  {
    if fragments != [] {
      var init, last := fragments[..|fragments| - 1], fragments[|fragments| - 1];
      assert fragments == init + [last];
      NonEmptyKeepsEveryText(init);
    }
  }

  /** The chunks the relay writes for an upstream: its non-empty fragments, then the error notice if it threw. */
  function RelayChunks(up: Upstream): (r: seq<string>)
    ensures |r| == |NonEmpty(up.fragments)| + (if up.throws then 1 else 0)
    ensures forall i :: 0 <= i < |r| ==> r[i] != ""
    ensures up.throws ==> r[|r| - 1] == StreamingError
    ensures forall i :: 0 <= i < |r| && !(up.throws && i == |r| - 1) ==> r[i] in up.fragments
  {
    var kept := NonEmpty(up.fragments);
    NonEmptyKeepsEveryText(up.fragments);
    assert forall i :: 0 <= i < |kept| ==> kept[i] in up.fragments by {
      forall i | 0 <= i < |kept| ensures kept[i] in up.fragments {
        assert kept[i] in multiset(kept);
      }
    }
    kept + (if up.throws then [StreamingError] else [])
  }

  /** Reading one more fragment keeps it exactly when it is not empty. */
  lemma NonEmptyStep(fragments: seq<string>, i: nat)
    requires i < |fragments|
    ensures NonEmpty(fragments[..i + 1]) == NonEmpty(fragments[..i]) + (if fragments[i] == "" then [] else [fragments[i]])
  {
    assert fragments[..i + 1][..i] == fragments[..i];
  }

  /** Relays the upstream fragments to the outbound stream, then closes it. */
  method Relay(up: Upstream) returns (sink: Sink)
    ensures sink.queue == RelayChunks(up)
    ensures sink.closeCalls == 1
  {
    sink := Sink([], 0);
    var i := 0;
    while i < |up.fragments|
      invariant 0 <= i <= |up.fragments|
      invariant sink == Sink(NonEmpty(up.fragments[..i]), 0)
    {
      var text := up.fragments[i];
      NonEmptyStep(up.fragments, i);
      if text != "" {
        sink := Enqueue(sink, text);
      }
      i := i + 1;
    }
    assert up.fragments[..i] == up.fragments;
    ghost var kept := sink.queue;
    if up.throws {
      sink := Enqueue(sink, StreamingError);
    }
    assert sink.queue == kept + (if up.throws then [StreamingError] else []);
    sink := Close(sink);
  }

  /**
   * Filtering keeps arrival order: the kept texts of a list read in two parts
   * are those of the first part followed by those of the second.
   */
  lemma {:induction false} NonEmptyAppend(a: seq<string>, b: seq<string>)
    ensures NonEmpty(a + b) == NonEmpty(a) + NonEmpty(b)
  {
    if b == [] {
      assert a + b == a;
    } else {
      var init, last := b[..|b| - 1], b[|b| - 1];
      assert (a + b)[..|a + b| - 1] == a + init;
      NonEmptyAppend(a, init);
    }
  }

  /** Dropping the empty fragments does not change the concatenated text. */
  lemma {:induction false} NonEmptyConcat(fragments: seq<string>)
    ensures Concat(NonEmpty(fragments)) == Concat(fragments)
  {
    if fragments != [] {
      var init, last := fragments[..|fragments| - 1], fragments[|fragments| - 1];
      assert init + [last] == fragments;
      NonEmptyConcat(init);
      ConcatAppend(init, last);
      if last != "" {
        ConcatAppend(NonEmpty(init), last);
      } else {
        assert NonEmpty(init) + [] == NonEmpty(init);
      }
    }
  }

  /**
   * The text a client receives is every fragment in arrival order, followed by
   * the error notice exactly when the upstream threw.
   */
  lemma RelayText(up: Upstream)
    ensures Concat(RelayChunks(up)) == Concat(up.fragments) + (if up.throws then StreamingError else "")
  {
    NonEmptyConcat(up.fragments);
    var kept := NonEmpty(up.fragments);
    if up.throws {
      ConcatAppend(kept, StreamingError);
      assert RelayChunks(up) == kept + [StreamingError];
    } else {
      assert RelayChunks(up) == kept + [] == kept;
    }
  }

  datatype Header = Header(name: string, value: string)

  const StreamHeaders := [Header("Content-Type", "text/plain; charset=utf-8"), Header("Cache-Control", "no-cache")]

  /** The route's reply: a JSON error, or a 200 text stream carrying the relayed chunks. */
  datatype StreamReply = Rejected(error: ErrorReply) | Streaming(headers: seq<Header>, chunks: seq<string>)

  /** The reply, and the prompt given to the model (None when the model was not called). */
  datatype StreamExchange = StreamExchange(reply: StreamReply, prompt: Option<string>)

  /** The POST handler, with the request body and the provider's streaming call as inputs. */
  function Post(request: Request<MessagesField>, provider: Result<Upstream, Thrown>): (r: StreamExchange)
    ensures r.reply == Rejected(BadRequest) <==> request.Readable? && ValidTurns(request.fields).None?
    ensures r.prompt.Some? <==> request.Readable? && ValidTurns(request.fields).Some?
    ensures r.prompt.Some? ==> r.prompt.value == BuildPrompt(StreamSystemPrompt, request.fields.items)
    ensures r.reply.Streaming? <==> r.prompt.Some? && provider.Success?
    ensures r.reply.Streaming? ==> r.reply.headers == StreamHeaders && r.reply.chunks == RelayChunks(provider.value)
    ensures r.reply.Rejected? && r.reply.error != BadRequest ==>
      r.reply.error.status == 500 &&
      r.reply.error.message == ErrorMessage(if request.Unreadable? then request.error else provider.error)
  {
    match request
    case Unreadable(e) => StreamExchange(Rejected(ServerError(e)), None)
    case Readable(field) =>
      match ValidTurns(field)
      case None => StreamExchange(Rejected(BadRequest), None)
      case Some(turns) =>
        var prompt := BuildPrompt(StreamSystemPrompt, turns);
        match provider
        case Failure(e) => StreamExchange(Rejected(ServerError(e)), Some(prompt))
        case Success(up) => StreamExchange(Streaming(StreamHeaders, RelayChunks(up)), Some(prompt))
  }
}
