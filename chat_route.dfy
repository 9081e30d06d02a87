/**
 * The non-streaming chat endpoint (POST /api/chat-bot/chat): validate the
 * turns, assemble the prompt, and answer with the model's whole reply.
 */
module ChatRoute {
  import opened Wrappers
  import opened Errors
  import opened ChatRequest

  const ChatSystemPrompt := "You are a helpful assistant. Reply in simple English. Do not use markdown symbols like ** or #. Use plain text only."

  /** `{success:true, data}` or a JSON error. */
  datatype ChatReply = Answered(data: string) | Rejected(error: ErrorReply)

  /** The reply, and the prompt given to the model (None when the model was not called). */
  datatype ChatExchange = ChatExchange(reply: ChatReply, prompt: Option<string>)

  /**
   * The POST handler. `model` is the outcome of `generateContent`: a thrown
   * error, or a reply whose text may be absent.
   */
  function Post(request: Request<MessagesField>, model: Result<Option<string>, Thrown>): (r: ChatExchange)
    ensures r.reply == Rejected(BadRequest) <==> request.Readable? && ValidTurns(request.fields).None?
    ensures r.prompt.Some? <==> request.Readable? && ValidTurns(request.fields).Some?
    ensures r.prompt.Some? ==> r.prompt.value == BuildPrompt(ChatSystemPrompt, request.fields.items)
    ensures r.reply.Answered? <==> r.prompt.Some? && model.Success?
    ensures r.reply.Answered? ==> r.reply.data == model.value.GetOr("")
    ensures r.reply.Rejected? && r.reply.error != BadRequest ==>
      r.reply.error.status == 500 &&
      r.reply.error.message == ErrorMessage(if request.Unreadable? then request.error else model.error)
  {
    match request
    case Unreadable(e) => ChatExchange(Rejected(ServerError(e)), None)
    case Readable(field) =>
      match ValidTurns(field)
      case None => ChatExchange(Rejected(BadRequest), None)
      case Some(turns) =>
        var prompt := BuildPrompt(ChatSystemPrompt, turns);
        match model
        case Failure(e) => ChatExchange(Rejected(ServerError(e)), Some(prompt))
        case Success(text) => ChatExchange(Answered(text.GetOr("")), Some(prompt))
  }
}
