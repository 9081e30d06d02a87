/**
 * What the two chat routes share: the chat turn, the check on the request's
 * `messages` field, the role-labelled prompt, and the JSON error replies.
 * Both routes carry their own copy of this logic; it is written once here and
 * each route supplies its own system instruction.
 */
module ChatRequest {
  import opened Wrappers
  import opened Strings
  import opened Errors

  /** One chat turn `{role, content}`; roles are free text on the wire. */
  datatype Message = Message(role: string, content: string)

  const UserRole := "user"
  const AssistantRole := "assistant"

  /** The `messages` field of a request body as the routes see it. */
  datatype MessagesField =
    | Missing                        // absent, null, or another falsy value
    | NotArray                       // present but not an array
    | Array(items: seq<Message>)

  /** The JSON bodies `{success:false, message}` a route replies with on failure. */
  datatype ErrorReply = ErrorReply(status: int, message: string)

  const MessagesRequired := "Messages are required"
  const SomethingWentWrong := "Something went wrong"

  /** The turns to prompt with, or None when the request must be refused with 400. */
  function ValidTurns(field: MessagesField): (r: Option<seq<Message>>)
    ensures r.Some? <==> field.Array? && field.items != []
    ensures r.Some? ==> r.value == field.items
  {
    match field
    case Array(items) => if items == [] then None else Some(items)
    case _ => None
  }

  /** `error?.message || "Something went wrong"`: never an empty text. */
  function ErrorMessage(e: Thrown): (r: string)
    ensures r != ""
    ensures e.message.Some? && e.message.value != "" ==> r == e.message.value
    ensures (e.message.None? || e.message.value == "") ==> r == SomethingWentWrong
  {
    match e.message
    case Some(m) => if m != "" then m else SomethingWentWrong
    case None => SomethingWentWrong
  }

  /** The 400 reply for a missing, non-array or empty `messages`. */
  const BadRequest := ErrorReply(400, MessagesRequired)

  /** The 500 reply for an error thrown before a reply was produced. */
  function ServerError(e: Thrown): (r: ErrorReply)
    ensures r.status == 500 && r.message != ""
  {
    ErrorReply(500, ErrorMessage(e))
  }

  /** "User" for the role "user"; every other role is labelled "Assistant". */
  function RoleLabel(role: string): (r: string)
    ensures r == "User" <==> role == UserRole
    ensures r == "Assistant" <==> role != UserRole
  {
    if role == UserRole then "User" else "Assistant"
  }

  /** One prompt line `"<Label>: <content>"`. */
  function Line(m: Message): string {
    RoleLabel(m.role) + ": " + m.content
  }

  /** The prompt's lines: the system line, then one line per turn in input order. */
  function PromptLines(system: string, turns: seq<Message>): (r: seq<string>)
    ensures |r| == |turns| + 1
    ensures r[0] == "System: " + system
    ensures forall i :: 0 <= i < |turns| ==> r[i + 1] == Line(turns[i])
  {
    if turns == [] then ["System: " + system]
    else PromptLines(system, turns[..|turns| - 1]) + [Line(turns[|turns| - 1])]
  }

  /** The single prompt text sent to the model: the lines joined by newlines. */
  function BuildPrompt(system: string, turns: seq<Message>): (r: string)
    ensures var head := "System: " + system;
      |head| <= |r| && r[..|head|] == head && (turns == [] <==> r == head)
  {
    var lines := PromptLines(system, turns);
    var head := lines[0];
    if |lines| == 1 then head
    else
      assert Join(lines, "\n") == head + "\n" + Join(lines[1..], "\n");
      Join(lines, "\n")
  }

  /** One more turn extends the prompt by a newline and that turn's line. */
  lemma PromptAppend(system: string, turns: seq<Message>, m: Message)
    ensures BuildPrompt(system, turns + [m]) == BuildPrompt(system, turns) + "\n" + Line(m)
  {
    assert (turns + [m])[..|turns|] == turns;
    JoinAppend(PromptLines(system, turns), Line(m), "\n");
  }

  /** A turn whose content has no newline gives a prompt line without one. */
  lemma LineHasNoNewline(m: Message)
    requires '\n' !in m.content
    ensures '\n' !in Line(m)
  {
    var who := RoleLabel(m.role);
    assert who == "User" || who == "Assistant";
    assert '\n' !in who + ": ";
  }

  /**
   * When neither the system instruction nor any content holds a newline, the
   * prompt's newline-separated lines are exactly the system line and one
   * role-labelled line per turn, in order.
   */
  lemma PromptLineByLine(system: string, turns: seq<Message>)
    requires '\n' !in system
    requires forall i :: 0 <= i < |turns| ==> '\n' !in turns[i].content
    ensures Split(BuildPrompt(system, turns), '\n') == PromptLines(system, turns)
  {
    var lines := PromptLines(system, turns);
    forall i | 0 <= i < |lines| ensures '\n' !in lines[i] {
      if i == 0 {
        assert lines[0] == "System: " + system;
      } else {
        LineHasNoNewline(turns[i - 1]);
      }
    }
    SplitJoin(lines, '\n');
    assert BuildPrompt(system, turns) == Join(lines, "\n");
  }
}
