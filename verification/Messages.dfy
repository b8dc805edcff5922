/** Messages of a conversation: what they consist of, and the tool calls they make and answer. */
module Messages {
  import opened Sequences
  import opened Wrappers

  datatype Role = User | Assistant

  datatype ResultItem = PlainText(text: string) | Resource(extracted: string) | Picture | OtherItem

  datatype ToolResult = Answer(content: seq<ResultItem>) | ToolError(message: string)

  datatype Block =
    | Text(text: string, audience: Option<seq<Role>>)
    | Image(data: string)
    | ToolRequest(id: string, call: string)
    | ToolResponse(id: string, result: ToolResult)
    | ToolConfirmationRequest(id: string)
    | ActionRequired(data: string)
    | FrontendToolRequest(id: string)
    | Thinking(thinking: string, signature: string)
    | RedactedThinking(data: string)
    | SystemNotification(msg: string)
    | Error(message: string)

  /** Metadata that no operation here looks at is kept in rest. */
  datatype Metadata = Metadata(
    userVisible: bool, agentVisible: bool, turnContext: bool,
    inference: Option<string>, limitReached: bool, rest: string)

  datatype Message = Message(id: Option<string>, role: Role, content: seq<Block>, metadata: Metadata)

  const DEFAULT_METADATA := Metadata(true, true, false, None, false, "")

  // ----- effective roles -----

  datatype EffectiveRole = AsUser | AsAssistant | AsTool

  predicate HasToolResponse(content: seq<Block>) {
    exists i :: 0 <= i < |content| && content[i].ToolResponse?
  }

  function EffectiveRoleOf(m: Message): EffectiveRole {
    if m.role == User && HasToolResponse(m.content) then AsTool
    else if m.role == User then AsUser
    else AsAssistant
  }

  // ----- tool calls -----

  datatype Event = Request | Response

  /** A tool call asked for by the assistant, or answered by the user side. */
  function EventOf(role: Role, b: Block, id: string): seq<Event> {
    if role == Assistant && b.ToolRequest? && b.id == id then [Request]
    else if role == User && b.ToolResponse? && b.id == id then [Response]
    else []
  }

  function TraceIn(role: Role, content: seq<Block>, id: string): seq<Event> {
    if content == [] then [] else TraceIn(role, Init(content), id) + EventOf(role, Last(content), id)
  }

  /** Everything that happens to one tool call id, in order. */
  function Trace(ms: seq<Message>, id: string): seq<Event> {
    if ms == [] then [] else Trace(Init(ms), id) + TraceIn(Last(ms).role, Last(ms).content, id)
  }

  /** A block that must not stand in a message of this role. */
  predicate Misplaced(role: Role, b: Block) {
    match role
    case User => b.ToolRequest? || b.ToolConfirmationRequest? || b.Thinking? || b.RedactedThinking?
    case Assistant => b.ToolResponse? || b.FrontendToolRequest?
  }

  predicate WellPlacedIn(role: Role, content: seq<Block>) {
    forall i :: 0 <= i < |content| ==> !Misplaced(role, content[i])
  }

  predicate WellPlaced(ms: seq<Message>) {
    forall i :: 0 <= i < |ms| ==> WellPlacedIn(ms[i].role, ms[i].content)
  }

  lemma WellPlacedStep(role: Role, content: seq<Block>)
    requires content != []
    ensures WellPlacedIn(role, content) <==> WellPlacedIn(role, Init(content)) && !Misplaced(role, Last(content))
  {
    assert content == Init(content) + [Last(content)];
  }

  lemma AllWellPlacedStep(ms: seq<Message>)
    requires ms != []
    ensures WellPlaced(ms) <==> WellPlaced(Init(ms)) && WellPlacedIn(Last(ms).role, Last(ms).content)
  {
    assert ms == Init(ms) + [Last(ms)];
    if WellPlaced(Init(ms)) && WellPlacedIn(Last(ms).role, Last(ms).content) {
      forall i | 0 <= i < |ms| ensures WellPlacedIn(ms[i].role, ms[i].content) {
        assert i < |ms| - 1 ==> Init(ms)[i] == ms[i];
      }
    }
  }

  lemma TraceInStep(role: Role, content: seq<Block>, b: Block, id: string)
    ensures TraceIn(role, content + [b], id) == TraceIn(role, content, id) + EventOf(role, b, id)
  {
    assert Init(content + [b]) == content;
  }

  lemma {:induction false} TraceInConcat(role: Role, a: seq<Block>, b: seq<Block>, id: string)
    ensures TraceIn(role, a + b, id) == TraceIn(role, a, id) + TraceIn(role, b, id)
  {
    if b == [] {
      assert a + b == a;
    } else {
      InitOfConcat(a, b);
      TraceInConcat(role, a, Init(b), id);
      Assoc(TraceIn(role, a, id), TraceIn(role, Init(b), id), EventOf(role, Last(b), id));
    }
  }

  lemma {:induction false} TraceConcat(a: seq<Message>, b: seq<Message>, id: string)
    ensures Trace(a + b, id) == Trace(a, id) + Trace(b, id)
  {
    if b == [] {
      assert a + b == a;
    } else {
      InitOfConcat(a, b);
      TraceConcat(a, Init(b), id);
      Assoc(Trace(a, id), Trace(Init(b), id), TraceIn(Last(b).role, Last(b).content, id));
    }
  }

  lemma TraceOne(m: Message, id: string)
    ensures Trace([m], id) == TraceIn(m.role, m.content, id)
  {
    assert Init([m]) == [] && Trace([], id) == [];
  }

  /** An event in a trace comes from some block of some message. */
  lemma {:induction false} EventSource(role: Role, content: seq<Block>, id: string, e: Event) returns (i: nat)
    requires e in TraceIn(role, content, id)
    ensures i < |content| && EventOf(role, content[i], id) == [e]
  {
    if e in EventOf(role, Last(content), id) {
      i := |content| - 1;
    } else {
      i := EventSource(role, Init(content), id, e);
    }
  }
}
