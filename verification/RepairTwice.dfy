/** Conversations that one repair does not settle, and calls that it cannot keep. */
module RepairTwice {
  import opened Whitespace
  import opened Wrappers
  import opened Sequences
  import opened Messages
  import opened CleanPasses
  import opened ToolPairing
  import opened RunMerging
  import opened SignedThinking
  import opened Normalizer
  import opened RepairAgain

  predicate OnlyText(content: seq<Block>) {
    forall i :: 0 <= i < |content| ==> content[i].Text?
  }

  lemma {:induction false} TextIsQuiet(role: Role, content: seq<Block>, id: string)
    requires OnlyText(content)
    ensures TraceIn(role, content, id) == [] && SignedIn(content) == []
  {
    if content != [] {
      TextIsQuiet(role, Init(content), id);
    }
  }

  lemma {:induction false} TextsAreQuiet(ms: seq<Message>, id: string)
    requires forall i :: 0 <= i < |ms| ==> OnlyText(ms[i].content)
    ensures Trace(ms, id) == [] && SignedOf(ms) == []
  {
    if ms != [] {
      TextsAreQuiet(Init(ms), id);
      TextIsQuiet(Last(ms).role, Last(ms).content, id);
    }
  }

  function Says(role: Role, text: string): Message {
    Message(None, role, [Text(text, None)], DEFAULT_METADATA)
  }

  /** An answer that the assistant gave in two messages. */
  function SplitAnswer(q: string, a: string, b: string, r: string): seq<Message> {
    [Says(User, q), Says(Assistant, a), Says(Assistant, b), Says(User, r)]
  }

  function MergedAnswer(q: string, a: string, b: string, r: string): seq<Message> {
    [Says(User, q), Extend(Says(Assistant, a), Says(Assistant, b)), Says(User, r)]
  }

  predicate Plain(text: string) {
    text != "" && !IsWhite(text[|text| - 1])
  }

  lemma MergesTwo(q: Message, a: Message, b: Message, r: Message)
    requires !Joins(q, a, false) && Joins(a, b, false) && !Joins(Extend(a, b), r, false)
    ensures MergeRuns([q, a, b, r], false) == [q, Extend(a, b), r]
  {
    var e := Extend(a, b);
    MergeNext([], q, false);
    MergeNext([q], a, false);
    MergeNext([q, a], b, false);
    MergeNext([q, a, b], r, false);
    assert [] + [q] == [q] && [q] + [a] == [q, a] && [q, a] + [b] == [q, a, b] && [q, a, b] + [r] == [q, a, b, r];
    assert MergeRuns([q, a], false) == [q, a] && Init([q, a]) == [q];
    assert MergeRuns([q, a, b], false) == [q, e];
  }

  lemma QuietTexts(ms: seq<Message>)
    requires forall i :: 0 <= i < |ms| ==> OnlyText(ms[i].content)
    ensures CallsInOrder(ms) && NoDup(SignedOf(ms))
  {
    TextsAreQuiet(ms, "");
    forall id ensures Alternates(Trace(ms, id)) {
      TextsAreQuiet(ms, id);
    }
  }

  lemma TextsConsolidate(ms: seq<Message>, merged: seq<Message>)
    requires Tidy(ms) && merged == MergeRuns(ms, false)
    requires forall i :: 0 <= i < |ms| ==> OnlyText(ms[i].content)
    requires forall i :: 0 <= i < |merged| ==> OnlyText(merged[i].content)
    ensures Consolidate(ms).messages == merged
  {
    CleanUpCleanIff(ms);
    QuietTexts(ms);
    ToolCallingCleanIff(ms);
    QuietTexts(merged);
    DedupeCleanIff(merged);
  }

  lemma AdjacentTextsReported(ms: seq<Message>, i: nat)
    requires i < |ms| && ms[i].role == Assistant && |ms[i].content| == 2
        && SameAudience(ms[i].content[0], ms[i].content[1])
    ensures FixMessages(ms).issues != []
  {
    FixIssuesIff(ms);
    var content := ms[i].content;
    assert !NoAdjacentTexts(ms[i]) by {
      assert SameAudience(content[0], content[0 + 1]);
    }
  }

  lemma SaysIsTidy(role: Role, text: string)
    requires Plain(text)
    ensures var m := Says(role, text);
            NoAdjacentTexts(m) && Trimmed(m) && !EmptyContent(m.content) && NoEmptyResult(m) && OnlyText(m.content)
  {
    var m := Says(role, text);
    assert m.content[0].text == text;
  }

  lemma SplitAnswerIsTidy(q: string, a: string, b: string, r: string)
    requires Plain(q) && Plain(a) && Plain(b) && Plain(r)
    ensures Tidy(SplitAnswer(q, a, b, r))
    ensures forall i :: 0 <= i < 4 ==> OnlyText(SplitAnswer(q, a, b, r)[i].content)
  {
    SaysIsTidy(User, q);
    SaysIsTidy(Assistant, a);
    SaysIsTidy(Assistant, b);
    SaysIsTidy(User, r);
  }

  lemma EndsStay(ms: seq<Message>, merged: seq<Message>)
    requires Consolidate(ms).messages == merged && merged != [] && merged[0].role == User && Last(merged).role == User
    ensures FixMessages(ms).messages == merged
  {
    LeadTrailCleanIff(merged);
  }

  lemma SplitAnswerMerges(q: string, a: string, b: string, r: string)
    ensures MergeRuns(SplitAnswer(q, a, b, r), false) == MergedAnswer(q, a, b, r)
  {
    MergesTwo(Says(User, q), Says(Assistant, a), Says(Assistant, b), Says(User, r));
  }

  lemma SplitAnswerConsolidates(q: string, a: string, b: string, r: string)
    requires Plain(q) && Plain(a) && Plain(b) && Plain(r)
    ensures Consolidate(SplitAnswer(q, a, b, r)).messages == MergedAnswer(q, a, b, r)
  {
    SplitAnswerMerges(q, a, b, r);
    SplitAnswerIsTidy(q, a, b, r);
    TextsConsolidate(SplitAnswer(q, a, b, r), MergedAnswer(q, a, b, r));
  }

  /** Merging puts the texts of an answer side by side, and a second repair joins them. */
  lemma RepairIsNotIdempotent(q: string, a: string, b: string, r: string)
    requires Plain(q) && Plain(a) && Plain(b) && Plain(r)
    ensures FixMessages(SplitAnswer(q, a, b, r)).messages == MergedAnswer(q, a, b, r)
    ensures FixMessages(MergedAnswer(q, a, b, r)).issues != []
  {
    SplitAnswerConsolidates(q, a, b, r);
    EndsStay(SplitAnswer(q, a, b, r), MergedAnswer(q, a, b, r));
    AdjacentTextsReported(MergedAnswer(q, a, b, r), 1);
  }

  // ----- calls that repair cannot keep -----

  function Calls(id: string, call: string): Message {
    Message(None, Assistant, [ToolRequest(id, call)], DEFAULT_METADATA)
  }

  function Returns(id: string, text: string): Message {
    Message(None, User, [ToolResponse(id, Answer([PlainText(text)]))], DEFAULT_METADATA)
  }

  lemma TraceNext(ms: seq<Message>, m: Message, b: Block, id: string)
    requires m.content == [b]
    ensures Trace(ms + [m], id) == Trace(ms, id) + EventOf(m.role, b, id)
  {
    assert Init(ms + [m]) == ms;
    assert Init([b]) == [] && TraceIn(m.role, [], id) == [];
  }

  lemma TraceOfTwo(a: Message, x: Block, u: Message, y: Block, id: string)
    requires a.content == [x] && u.content == [y]
    ensures Trace([a, u], id) == EventOf(a.role, x, id) + EventOf(u.role, y, id)
  {
    TraceNext([], a, x, id);
    TraceNext([a], u, y, id);
    assert [] + [a] == [a] && [a] + [u] == [a, u];
  }

  lemma CallTrace(id: string, call: string, text: string, other: string)
    ensures Trace([Calls(id, call), Returns(id, text)], other) == if other == id then [Request, Response] else []
  {
    var a, u := Calls(id, call), Returns(id, text);
    TraceOfTwo(a, a.content[0], u, u.content[0], other);
  }

  /** An assistant message that calls and comes first, its answer, and a question. */
  function CallFirst(id: string, call: string, text: string, q: string): seq<Message> {
    [Calls(id, call), Returns(id, text), Says(User, q)]
  }

  lemma CallFirstTrace(id: string, call: string, text: string, q: string, other: string)
    ensures Trace(CallFirst(id, call, text, q), other) == if other == id then [Request, Response] else []
  {
    var a, u, m := Calls(id, call), Returns(id, text), Says(User, q);
    CallTrace(id, call, text, other);
    TraceNext([a, u], m, m.content[0], other);
    assert [a, u] + [m] == [a, u, m];
  }

  lemma CallsIsTidy(m: Message)
    requires |m.content| == 1 && !m.content[0].Text? && !EmptyResult(m.content[0])
    ensures NoAdjacentTexts(m) && Trimmed(m) && !EmptyContent(m.content) && NoEmptyResult(m)
  {
  }

  lemma CallFirstIsTidy(id: string, call: string, text: string, q: string)
    requires text != "" && Plain(q)
    ensures Tidy(CallFirst(id, call, text, q)) && WellPlaced(CallFirst(id, call, text, q))
  {
    var result := [PlainText(text)];
    assert Meaningful(result[0]);
    CallsIsTidy(Calls(id, call));
    CallsIsTidy(Returns(id, text));
    SaysIsTidy(User, q);
  }

  /** Repair breaks every tidy and paired conversation that starts with a call. */
  lemma LeadingCallIsDropped(ms: seq<Message>, id: string)
    requires Tidy(ms) && Paired(ms) && ms != [] && Asks(ms[0], id)
    ensures DistinctRequests(ms) && LeadAsks(Consolidate(ms).messages) && !Paired(FixMessages(ms).messages)
  {
    forall other ensures Requests(Trace(ms, other)) <= 1 && Alternates(Trace(ms, other)) {
      assert PairTrace(Trace(ms, other));
      OneRequest();
    }
    TidySettlesIff(ms);
    LeadAsksIff(ms);
    FixedPairedIff(ms);
  }

  /** Repair drops the call and keeps the answer. */
  lemma AnsweredLeadIsDropped(id: string, call: string, text: string, q: string)
    requires text != "" && Plain(q)
    ensures Paired(CallFirst(id, call, text, q)) && !Paired(FixMessages(CallFirst(id, call, text, q)).messages)
  {
    var ms := CallFirst(id, call, text, q);
    CallFirstIsTidy(id, call, text, q);
    forall other ensures PairTrace(Trace(ms, other)) {
      CallFirstTrace(id, call, text, q, other);
    }
    assert ms[0].content[0].ToolRequest?;
    LeadingCallIsDropped(ms, id);
  }

  lemma OneRequest()
    ensures Requests([]) == 0 && Requests([Request, Response]) == 1
  {
    assert Init([Request, Response]) == [Request] && Init([Request]) == [];
  }

  /** A call, its answer, and the same call again: the first run removes the answered request as well. */
  lemma ReaskedIsFoundAgain(id: string, call: string, text: string, again: string)
    ensures var ms := [Calls(id, call), Returns(id, text), Calls(id, again)];
            Reasked(Trace(ms, id)) && FixToolCalling(FixToolCalling(ms).messages).issues != []
  {
    var a, u, b := Calls(id, call), Returns(id, text), Calls(id, again);
    var ms := [a, u, b];
    CallTrace(id, call, text, id);
    TraceNext([a, u], b, b.content[0], id);
    assert [a, u] + [b] == ms;
    var t := Trace(ms, id);
    assert t == [Request, Response, Request];
    assert t[0] == Request && t[1] == Response;
    SecondRunCleanIff(ms);
  }
}
