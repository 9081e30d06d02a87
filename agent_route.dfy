/**
 * The agent endpoint (POST /api/agent): the model's reply is read as a
 * decision `{action, params}`, and the action "recommendSongs" runs the
 * song lookup tool.
 *
 * The model's reply text is an input, and so is JSON parsing: `parse`
 * gives the decision a text parses to, or None when `JSON.parse` throws.
 * The handler has no catch, so an error it meets leaves it uncaught.
 */
module AgentRoute {
  import opened Wrappers
  import opened Errors
  import opened SongRecommendation

  /** A parsed decision; absent keys are None. */
  datatype Decision = Decision(action: Option<string>, params: Option<Params>)

  /** `{action: "none", params: {}}`, used when the reply does not parse. */
  const NoActionDecision := Decision(Some("none"), Some(Params(None)))

  const RecommendAction := "recommendSongs"
  const NoActionNeeded := "No action needed."

  datatype AgentResult = Recommended(recommendation: Recommendation) | Acknowledged(message: string)

  /** The JSON reply `{success, result}`. */
  datatype AgentReply = AgentReply(success: bool, result: AgentResult)

  /** The handler either replies or throws out of itself. */
  datatype AgentOutcome = Replied(reply: AgentReply) | Uncaught

  /** `text || "{}"`: an empty reply reads as the empty object. */
  function ReplyContent(text: string): (r: string)
    ensures r != ""
    ensures text == "" ==> r == "{}"
    ensures text != "" ==> r == text
  {
    if text == "" then "{}" else text
  }

  /** The decision a reply stands for, falling back to "none" when it does not parse. */
  function Decide(text: string, parse: string -> Option<Decision>): (d: Decision)
    ensures parse(ReplyContent(text)).None? ==> d == NoActionDecision
    ensures parse(ReplyContent(text)).Some? ==> d == parse(ReplyContent(text)).value
  {
    match parse(ReplyContent(text))
    case None => NoActionDecision
    case Some(parsed) => parsed
  }

  /**
   * The POST handler. `reply` is the model's reply text, or the error thrown
   * while reading the request or calling the model.
   */
  function Post(reply: Result<string, Thrown>, parse: string -> Option<Decision>): (r: AgentOutcome)
    ensures r.Replied? ==> r.reply.success
    ensures r.Uncaught? <==> (reply.Failure? ||
      (Decide(reply.value, parse).action == Some(RecommendAction) && Decide(reply.value, parse).params.None?))
    ensures r.Replied? && r.reply.result.Recommended? <==> (reply.Success? &&
      Decide(reply.value, parse).action == Some(RecommendAction) && Decide(reply.value, parse).params.Some?)
    ensures r.Replied? && r.reply.result.Recommended? ==>
      r.reply.result.recommendation == RecommendSongs(Decide(reply.value, parse).params.value)
    ensures r.Replied? && r.reply.result.Acknowledged? ==> r.reply.result.message == NoActionNeeded
  {
    match reply
    case Failure(_) => Uncaught
    case Success(text) =>
      var parsed := Decide(text, parse);
      if parsed.action == Some(RecommendAction) then
        // the tool destructures its argument, which throws when `params` is absent
        match parsed.params
        case None => Uncaught
        case Some(params) => Replied(AgentReply(true, Recommended(RecommendSongs(params))))
      else
        Replied(AgentReply(true, Acknowledged(NoActionNeeded)))
  }

  /** An empty reply is handled exactly as the reply "{}". */
  lemma EmptyReplyIsEmptyObject(parse: string -> Option<Decision>)
    ensures Post(Success(""), parse) == Post(Success("{}"), parse)
  {
  }

  /** A reply that does not parse needs no action. */
  lemma UnparseableReplyNeedsNoAction(text: string, parse: string -> Option<Decision>)
    requires parse(ReplyContent(text)).None?
    ensures Post(Success(text), parse) == Replied(AgentReply(true, Acknowledged(NoActionNeeded)))
  {
  }
}
