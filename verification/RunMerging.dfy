/** Merging runs of messages with the same effective role, within one visibility or for a request. */
module RunMerging {
  import opened Sequences
  import opened Messages
  import opened CleanPasses

  predicate Joins(a: Message, b: Message, across: bool) {
    && EffectiveRoleOf(a) == EffectiveRoleOf(b)
    && (across || (a.metadata.userVisible == b.metadata.userVisible
      && a.metadata.turnContext == b.metadata.turnContext))
  }

  function Extend(a: Message, b: Message): Message {
    a.(content := a.content + b.content)
  }

  function Add(merged: seq<Message>, m: Message, across: bool): seq<Message> {
    if merged != [] && Joins(Last(merged), m, across) then Init(merged) + [Extend(Last(merged), m)] else merged + [m]
  }

  function MergeRuns(ms: seq<Message>, across: bool): seq<Message> {
    if ms == [] then [] else Add(MergeRuns(Init(ms), across), Last(ms), across)
  }

  function MergeIssues(ms: seq<Message>, across: bool): seq<Issue> {
    if ms == [] then []
    else
      var merged := MergeRuns(Init(ms), across);
      MergeIssues(Init(ms), across)
      + if merged != [] && Joins(Last(merged), Last(ms), across) then [MergedRun(EffectiveRoleOf(Last(ms)))] else []
  }

  method MergeConsecutive(ms: seq<Message>, across: bool) returns (fixed: Fixed)
    ensures fixed == Fixed(MergeRuns(ms, across), MergeIssues(ms, across))
  {
    var merged: seq<Message>, issues := [], [];
    for i := 0 to |ms|
      invariant merged == MergeRuns(ms[..i], across) && issues == MergeIssues(ms[..i], across)
    {
      TakeNext(ms, i);
      if merged != [] {
        var last := merged[|merged| - 1];
        var effective := EffectiveRoleOf(ms[i]);
        if EffectiveRoleOf(last) == effective
           && (across || (last.metadata.userVisible == ms[i].metadata.userVisible
                          && last.metadata.turnContext == ms[i].metadata.turnContext)) {
          merged := merged[..|merged| - 1] + [Extend(last, ms[i])];
          issues := issues + [MergedRun(effective)];
          continue;
        }
      }
      merged := merged + [ms[i]];
    }
    assert ms[..|ms|] == ms;
    fixed := Fixed(merged, issues);
  }

  /** Consolidating what is to be persisted. */
  function MergeConsecutiveMessages(ms: seq<Message>): Fixed {
    Fixed(MergeRuns(ms, false), MergeIssues(ms, false))
  }

  /** Consolidating what goes to a provider that demands strict alternation. */
  function ForRequest(ms: seq<Message>): seq<Message> {
    MergeRuns(ms, true)
  }

  // ----- one step -----

  lemma ExtendKeepsEffective(a: Message, b: Message)
    requires EffectiveRoleOf(a) == EffectiveRoleOf(b)
    ensures EffectiveRoleOf(Extend(a, b)) == EffectiveRoleOf(a)
  {
    var c := a.content + b.content;
    assert forall i :: 0 <= i < |b.content| ==> c[|a.content| + i] == b.content[i];
    assert HasToolResponse(c) <==> HasToolResponse(a.content) || HasToolResponse(b.content) by {
      if HasToolResponse(a.content) {
        var i :| 0 <= i < |a.content| && a.content[i].ToolResponse?;
        assert c[i] == a.content[i];
      }
    }
  }

  predicate SameRun(a: Message, b: Message) {
    EffectiveRoleOf(a) == EffectiveRoleOf(b) && a.role == b.role
  }

  lemma AddEnds(merged: seq<Message>, m: Message, across: bool)
    ensures Add(merged, m, across) != [] && SameRun(Last(Add(merged, m, across)), m)
  {
    if merged != [] && Joins(Last(merged), m, across) {
      ExtendKeepsEffective(Last(merged), m);
    }
  }

  lemma LastEffective(ms: seq<Message>, across: bool)
    requires ms != []
    ensures MergeRuns(ms, across) != [] && SameRun(Last(MergeRuns(ms, across)), Last(ms))
  {
    AddEnds(MergeRuns(Init(ms), across), Last(ms), across);
  }

  // ----- no two neighbours join -----

  predicate NoJoins(ms: seq<Message>, across: bool) {
    forall i :: 0 <= i < |ms| - 1 ==> !Joins(ms[i], ms[i + 1], across)
  }

  lemma NoJoinsStep(ms: seq<Message>, m: Message, across: bool)
    requires NoJoins(ms, across) && (ms != [] ==> !Joins(Last(ms), m, across))
    ensures NoJoins(ms + [m], across)
  {
  }

  lemma NoJoinsInit(ms: seq<Message>, across: bool)
    requires ms != [] && NoJoins(ms, across)
    ensures NoJoins(Init(ms), across) && (Init(ms) != [] ==> !Joins(Last(Init(ms)), Last(ms), across))
  {
  }

  lemma ReplaceLast(merged: seq<Message>, m: Message, across: bool)
    requires merged != [] && NoJoins(merged, across) && Joins(Last(merged), m, across)
    ensures NoJoins(Init(merged) + [Extend(Last(merged), m)], across)
  {
    ExtendKeepsEffective(Last(merged), m);
    NoJoinsInit(merged, across);
    NoJoinsStep(Init(merged), Extend(Last(merged), m), across);
  }

  /** In the merged form no two neighbours could be merged any more. */
  lemma {:induction false} MergedHasNoJoins(ms: seq<Message>, across: bool)
    ensures NoJoins(MergeRuns(ms, across), across)
  {
    if ms != [] {
      var merged := MergeRuns(Init(ms), across);
      MergedHasNoJoins(Init(ms), across);
      if merged != [] && Joins(Last(merged), Last(ms), across) {
        ReplaceLast(merged, Last(ms), across);
      } else {
        NoJoinsStep(merged, Last(ms), across);
      }
    }
  }

  /** There is something to merge exactly if two neighbours join. */
  lemma {:induction false} MergeCleanIff(ms: seq<Message>, across: bool)
    ensures MergeIssues(ms, across) == [] <==> NoJoins(ms, across)
    ensures NoJoins(ms, across) ==> MergeRuns(ms, across) == ms
  {
    if ms != [] {
      var init := Init(ms);
      MergeCleanIff(init, across);
      SplitLast(ms);
      if NoJoins(ms, across) {
        NoJoinsInit(ms, across);
      } else if MergeIssues(ms, across) == [] {
        NoJoinsStep(init, Last(ms), across);
      }
    }
  }

  lemma MergeIdempotent(ms: seq<Message>, across: bool)
    ensures MergeRuns(MergeRuns(ms, across), across) == MergeRuns(ms, across)
    ensures MergeIssues(MergeRuns(ms, across), across) == []
  {
    MergedHasNoJoins(ms, across);
    MergeCleanIff(MergeRuns(ms, across), across);
  }

  // ----- nothing is lost -----

  function Contents(ms: seq<Message>): seq<Block> {
    if ms == [] then [] else Contents(Init(ms)) + Last(ms).content
  }

  lemma AddKeepsContents(merged: seq<Message>, m: Message, across: bool)
    ensures Contents(Add(merged, m, across)) == Contents(merged) + m.content
  {
    if merged != [] && Joins(Last(merged), m, across) {
      var e := Extend(Last(merged), m);
      assert Init(Init(merged) + [e]) == Init(merged);
      Assoc(Contents(Init(merged)), Last(merged).content, m.content);
    } else {
      assert Init(merged + [m]) == merged;
    }
  }

  /** Merging keeps every block, in order. */
  lemma {:induction false} MergeKeepsContents(ms: seq<Message>, across: bool)
    ensures Contents(MergeRuns(ms, across)) == Contents(ms)
  {
    if ms != [] {
      MergeKeepsContents(Init(ms), across);
      AddKeepsContents(MergeRuns(Init(ms), across), Last(ms), across);
    }
  }

  lemma AddKeepsTrace(merged: seq<Message>, m: Message, across: bool, id: string)
    ensures Trace(Add(merged, m, across), id) == Trace(merged, id) + TraceIn(m.role, m.content, id)
  {
    if merged != [] && Joins(Last(merged), m, across) {
      var e := Extend(Last(merged), m);
      assert Init(Init(merged) + [e]) == Init(merged);
      TraceInConcat(m.role, Last(merged).content, m.content, id);
      Assoc(Trace(Init(merged), id), TraceIn(m.role, Last(merged).content, id), TraceIn(m.role, m.content, id));
    } else {
      assert Init(merged + [m]) == merged;
    }
  }

  /** Merging keeps the tool calls, in order. */
  lemma {:induction false} MergeKeepsTrace(ms: seq<Message>, across: bool, id: string)
    ensures Trace(MergeRuns(ms, across), id) == Trace(ms, id)
  {
    if ms != [] {
      MergeKeepsTrace(Init(ms), across, id);
      AddKeepsTrace(MergeRuns(Init(ms), across), Last(ms), across, id);
    }
  }

  lemma AddWellPlaced(merged: seq<Message>, m: Message, across: bool)
    requires WellPlaced(merged) && WellPlacedIn(m.role, m.content)
    ensures WellPlaced(Add(merged, m, across))
  {
    var after := Add(merged, m, across);
    if merged != [] && Joins(Last(merged), m, across) {
      AllWellPlacedStep(merged);
      assert Init(after) == Init(merged);
    } else {
      assert Init(after) == merged;
    }
    AllWellPlacedStep(after);
  }

  lemma {:induction false} MergeWellPlaced(ms: seq<Message>, across: bool)
    requires WellPlaced(ms)
    ensures WellPlaced(MergeRuns(ms, across))
  {
    if ms != [] {
      AllWellPlacedStep(ms);
      MergeWellPlaced(Init(ms), across);
      AddWellPlaced(MergeRuns(Init(ms), across), Last(ms), across);
    }
  }

  lemma {:induction false} MergeStems(ms: seq<Message>, across: bool)
    ensures Stems(MergeRuns(ms, across), ms)
  {
    if ms != [] {
      var merged := MergeRuns(Init(ms), across);
      MergeStems(Init(ms), across);
      SplitLast(ms);
      if merged != [] && Joins(Last(merged), Last(ms), across) {
        AddStems(merged, Init(ms), Last(ms));
      } else {
        StemsStep(merged, Init(ms), [Last(ms)], Last(ms));
      }
    }
  }

  lemma AddStems(merged: seq<Message>, before: seq<Message>, m: Message)
    requires merged != [] && Stems(merged, before)
    ensures Stems(Init(merged) + [Extend(Last(merged), m)], before + [m])
  {
    StemsStep(merged, before, [], m);
    assert merged + [] == merged;
    assert StemsFrom(merged[|merged| - 1], before + [m]);
    forall i | 0 <= i < |merged| ensures StemsFrom((Init(merged) + [Extend(Last(merged), m)])[i], before + [m]) {
      assert StemsFrom(merged[i], before + [m]);
    }
  }

  // ----- confluence -----

  lemma AddTwice(merged: seq<Message>, l: Message, m: Message)
    requires EffectiveRoleOf(l) == EffectiveRoleOf(m)
    ensures Add(Add(merged, l, true), m, true) == Add(merged, Extend(l, m), true)
  {
    ExtendKeepsEffective(l, m);
    if merged != [] && Joins(Last(merged), l, true) {
      ExtendKeepsEffective(Last(merged), l);
      Assoc(Last(merged).content, l.content, m.content);
      var e := Extend(Last(merged), l);
      assert Init(Init(merged) + [e]) == Init(merged);
    } else {
      assert Init(merged + [l]) == merged;
    }
  }

  lemma MergeNext(ms: seq<Message>, m: Message, across: bool)
    ensures MergeRuns(ms + [m], across) == Add(MergeRuns(ms, across), m, across)
  {
    assert Init(ms + [m]) == ms;
  }

  /** Merging within visibility first makes no difference to what goes to the provider. */
  lemma {:induction false} MergeConfluent(ms: seq<Message>)
    ensures ForRequest(MergeRuns(ms, false)) == ForRequest(ms)
  {
    if ms != [] {
      var merged, m := MergeRuns(Init(ms), false), Last(ms);
      MergeConfluent(Init(ms));
      if merged != [] && Joins(Last(merged), m, false) {
        var init, l := Init(merged), Last(merged);
        SplitLast(merged);
        MergeNext(init, l, true);
        MergeNext(init, Extend(l, m), true);
        AddTwice(ForRequest(init), l, m);
      } else {
        MergeNext(merged, m, true);
      }
    }
  }

  // ----- counting turns -----

  function Assistants(ms: seq<Message>): nat {
    if ms == [] then 0 else Assistants(Init(ms)) + if Last(ms).role == Assistant then 1 else 0
  }

  /** The last messages of runs of assistant messages, from index i on. */
  function RunEnds(ms: seq<Message>, i: nat): nat
    requires i <= |ms|
    decreases |ms| - i
  {
    if i == |ms| then 0
    else RunEnds(ms, i + 1) + if ms[i].role == Assistant && (i + 1 == |ms| || ms[i + 1].role != Assistant) then 1 else 0
  }

  lemma {:induction false} RunEndsAppend(ms: seq<Message>, m: Message, i: nat)
    requires i <= |ms|
    ensures RunEnds(ms + [m], i) == RunEnds(ms, i)
            + (if m.role != Assistant then 0 else if i < |ms| && Last(ms).role == Assistant then 0 else 1)
    decreases |ms| - i
  {
    var more := ms + [m];
    if i == |ms| {
      assert RunEnds(more, i + 1) == 0;
    } else {
      assert more[i] == ms[i];
      RunEndsAppend(ms, m, i + 1);
    }
  }

  lemma {:induction false} RunEndsAreAssistants(ms: seq<Message>)
    ensures RunEnds(ms, 0) == Assistants(ForRequest(ms))
  {
    if ms != [] {
      var init, m := Init(ms), Last(ms);
      var merged := ForRequest(init);
      RunEndsAreAssistants(init);
      RunEndsAppend(init, m, 0);
      SplitLast(ms);
      if init != [] {
        LastEffective(init, true);
      }
      if merged != [] && Joins(Last(merged), m, true) {
        assert Init(Init(merged) + [Extend(Last(merged), m)]) == Init(merged);
      } else {
        assert Init(merged + [m]) == merged;
      }
    }
  }

  /** Counts, from the back, as many turns as there are assistant messages in the request. */
  method AssistantTurnCount(ms: seq<Message>) returns (turns: nat)
    ensures turns == Assistants(ForRequest(ms))
  {
    turns := 0;
    var inAssistantBlock := false;
    var i := |ms|;
    while i > 0
      invariant 0 <= i <= |ms| && turns == RunEnds(ms, i)
      invariant inAssistantBlock <==> i < |ms| && ms[i].role == Assistant
    {
      i := i - 1;
      if ms[i].role == Assistant {
        if !inAssistantBlock {
          turns := turns + 1;
          inAssistantBlock := true;
        }
      } else {
        inAssistantBlock := false;
      }
    }
    RunEndsAreAssistants(ms);
  }

  /** The request form alternates strictly. */
  lemma RequestAlternates(ms: seq<Message>, i: nat)
    requires i + 1 < |ForRequest(ms)|
    ensures EffectiveRoleOf(ForRequest(ms)[i]) != EffectiveRoleOf(ForRequest(ms)[i + 1])
  {
    MergedHasNoJoins(ms, true);
    assert !Joins(ForRequest(ms)[i], ForRequest(ms)[i + 1], true);
  }
}
