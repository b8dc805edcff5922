/** The repair of a conversation before it is sent to a model: nine passes in a row. */
module Normalizer {
  import opened Wrappers
  import opened Sequences
  import opened Messages
  import opened CleanPasses
  import opened ToolPairing
  import opened ToolCallingPass
  import opened RunMerging
  import opened SignedThinking

  // ----- the last two passes -----

  function FixLead(ms: seq<Message>): Fixed {
    if ms != [] && ms[0].role == Assistant then Fixed(ms[1..], [RemovedLeading]) else Fixed(ms, [])
  }

  function FixTrail(ms: seq<Message>): Fixed {
    if ms != [] && Last(ms).role == Assistant then Fixed(Init(ms), [RemovedTrailing]) else Fixed(ms, [])
  }

  /** One pass after others: its result, and its complaints behind theirs. */
  function Then(r: Fixed, next: Fixed): Fixed {
    Fixed(next.messages, r.issues + next.issues)
  }

  function FixLeadTrail(ms: seq<Message>): Fixed {
    Then(FixLead(ms), FixTrail(FixLead(ms).messages))
  }

  const PLACEHOLDER := Message(None, User, [Text("Hello", None)], DEFAULT_METADATA)

  function PopulateIfEmpty(ms: seq<Message>): Fixed {
    if ms == [] then Fixed([PLACEHOLDER], [AddedPlaceholder]) else Fixed(ms, [])
  }

  // ----- the pipeline -----

  function TrimTexts(ms: seq<Message>): Fixed {
    var r := MergeTextContentItems(ms);
    Then(r, TrimAssistantTextWhitespace(r.messages))
  }

  function DropEmpties(ms: seq<Message>): Fixed {
    Then(TrimTexts(ms), RemoveEmptyMessages(TrimTexts(ms).messages))
  }

  function CleanUp(ms: seq<Message>): Fixed {
    Then(DropEmpties(ms), FixEmptyToolResults(DropEmpties(ms).messages))
  }

  function FixToolCalls(ms: seq<Message>): Fixed {
    Then(CleanUp(ms), FixToolCalling(CleanUp(ms).messages))
  }

  function MergeAll(ms: seq<Message>): Fixed {
    Then(FixToolCalls(ms), MergeConsecutiveMessages(FixToolCalls(ms).messages))
  }

  function Consolidate(ms: seq<Message>): Fixed {
    Then(MergeAll(ms), DedupeSignedThinking(MergeAll(ms).messages))
  }

  function TrimEnds(ms: seq<Message>): Fixed {
    Then(Consolidate(ms), FixLeadTrail(Consolidate(ms).messages))
  }

  function FixMessages(ms: seq<Message>): Fixed {
    Then(TrimEnds(ms), PopulateIfEmpty(TrimEnds(ms).messages))
  }

  method FixLeadTrailInPlace(ms: seq<Message>) returns (fixed: Fixed)
    ensures fixed == FixLeadTrail(ms)
  {
    var messages, issues := ms, [];
    if messages != [] && messages[0].role == Assistant {
      messages, issues := messages[1..], issues + [RemovedLeading];
    }
    if messages != [] && messages[|messages| - 1].role == Assistant {
      messages, issues := messages[..|messages| - 1], issues + [RemovedTrailing];
    }
    fixed := Fixed(messages, issues);
  }

  /** The pipeline with the passes that work by loops and removals. */
  method FixMessagesInOrder(ms: seq<Message>) returns (fixed: Fixed)
    ensures fixed == FixMessages(ms)
  {
    var cleaned := CleanUp(ms);
    var called := FixToolCallingByRemoval(cleaned.messages);
    var merged := MergeConsecutive(called.messages, false);
    var deduped := DedupeSignedThinkingInOrder(merged.messages);
    var trimmed := FixLeadTrailInPlace(deduped.messages);
    var populated := PopulateIfEmpty(trimmed.messages);
    fixed := Fixed(populated.messages,
                   ((((cleaned.issues + called.issues) + merged.issues) + deduped.issues) + trimmed.issues)
                   + populated.issues);
  }

  // ----- the normal form -----

  ghost predicate TidyTexts(ms: seq<Message>) {
    && (forall i :: 0 <= i < |ms| ==> NoAdjacentTexts(ms[i]))
    && (forall i :: 0 <= i < |ms| ==> Trimmed(ms[i]))
  }

  ghost predicate Tidy(ms: seq<Message>) {
    TidyTexts(ms) && NoneEmpty(ms) && forall i :: 0 <= i < |ms| ==> NoEmptyResult(ms[i])
  }

  predicate UserAtBothEnds(ms: seq<Message>) {
    ms != [] ==> ms[0].role == User && Last(ms).role == User
  }

  /** What a conversation must satisfy to be accepted as it is. */
  ghost predicate NormalForm(ms: seq<Message>) {
    && Tidy(ms)
    && CallsInOrder(ms)
    && NoJoins(ms, false)
    && NoDup(SignedOf(ms))
    && ms != [] && UserAtBothEnds(ms)
  }

  /** Nothing to report so far exactly if so much is satisfied, and then nothing has changed. */
  ghost predicate CleanIff(r: Fixed, ms: seq<Message>, condition: bool) {
    (r.issues == [] <==> condition) && (r.issues == [] ==> r.messages == ms)
  }

  /** One more pass keeps everything clean exactly if its own condition holds. */
  lemma ThenClean(ms: seq<Message>, r: Fixed, next: Fixed, before: bool, condition: bool)
    requires CleanIff(r, ms, before)
    requires r.messages == ms ==> CleanIff(next, ms, condition)
    ensures CleanIff(Then(r, next), ms, before && condition)
  {
    ConcatEmpty(r.issues, next.issues);
  }

  lemma JoinCleanIff(ms: seq<Message>)
    ensures CleanIff(MergeTextContentItems(ms), ms, forall i :: 0 <= i < |ms| ==> NoAdjacentTexts(ms[i]))
  {
    JoinTextsGentle();
    EachClean(ms, JoinTextsIn);
  }

  lemma TrimCleanIff(ms: seq<Message>)
    ensures CleanIff(TrimAssistantTextWhitespace(ms), ms, forall i :: 0 <= i < |ms| ==> Trimmed(ms[i]))
  {
    TrimGentle();
    EachClean(ms, TrimIn);
  }

  lemma TrimTextsCleanIff(ms: seq<Message>)
    ensures CleanIff(TrimTexts(ms), ms, TidyTexts(ms))
  {
    JoinCleanIff(ms);
    TrimCleanIff(ms);
    var r := MergeTextContentItems(ms);
    ThenClean(ms, r, TrimAssistantTextWhitespace(r.messages),
              forall i :: 0 <= i < |ms| ==> NoAdjacentTexts(ms[i]), forall i :: 0 <= i < |ms| ==> Trimmed(ms[i]));
  }

  lemma CleanUpCleanIff(ms: seq<Message>)
    ensures CleanIff(CleanUp(ms), ms, Tidy(ms))
  {
    TrimTextsCleanIff(ms);
    NoneEmptyIff(ms);
    ThenClean(ms, TrimTexts(ms), RemoveEmptyMessages(TrimTexts(ms).messages), TidyTexts(ms), NoneEmpty(ms));
    FillGentle();
    EachClean(ms, FillIn);
    ThenClean(ms, DropEmpties(ms), FixEmptyToolResults(DropEmpties(ms).messages),
              TidyTexts(ms) && NoneEmpty(ms), forall i :: 0 <= i < |ms| ==> NoEmptyResult(ms[i]));
  }

  lemma LeadTrailCleanIff(ms: seq<Message>)
    ensures CleanIff(FixLeadTrail(ms), ms, UserAtBothEnds(ms))
  {
  }

  lemma ConsolidateCleanIff(ms: seq<Message>)
    ensures CleanIff(Consolidate(ms), ms, Tidy(ms) && CallsInOrder(ms) && NoJoins(ms, false) && NoDup(SignedOf(ms)))
  {
    CleanUpCleanIff(ms);
    ToolCallingCleanIff(ms);
    ThenClean(ms, CleanUp(ms), FixToolCalling(CleanUp(ms).messages), Tidy(ms), CallsInOrder(ms) && NoneEmpty(ms));
    MergeCleanIff(ms, false);
    ThenClean(ms, FixToolCalls(ms), MergeConsecutiveMessages(FixToolCalls(ms).messages),
              Tidy(ms) && CallsInOrder(ms), NoJoins(ms, false));
    DedupeCleanIff(ms);
    ThenClean(ms, MergeAll(ms), DedupeSignedThinking(MergeAll(ms).messages),
              Tidy(ms) && CallsInOrder(ms) && NoJoins(ms, false), NoDup(SignedOf(ms)));
  }

  /**
   A conversation is accepted exactly if it is in normal form; repairing it then changes nothing.
   */
  lemma FixIssuesIff(ms: seq<Message>)
    ensures FixMessages(ms).issues == [] <==> NormalForm(ms)
    ensures FixMessages(ms).issues == [] ==> FixMessages(ms).messages == ms
  {
    var condition := Tidy(ms) && CallsInOrder(ms) && NoJoins(ms, false) && NoDup(SignedOf(ms));
    ConsolidateCleanIff(ms);
    LeadTrailCleanIff(ms);
    ThenClean(ms, Consolidate(ms), FixLeadTrail(Consolidate(ms).messages), condition, UserAtBothEnds(ms));
    ThenClean(ms, TrimEnds(ms), PopulateIfEmpty(TrimEnds(ms).messages), condition && UserAtBothEnds(ms), ms != []);
  }

  datatype Invalid = Invalid(reason: seq<Issue>, conversation: seq<Message>)

  /** A validated conversation is the one that was given, or the given one is handed back with the complaints. */
  function NewConversation(ms: seq<Message>): (r: Result<seq<Message>, Invalid>)
    ensures r.Ok? <==> NormalForm(ms)
    ensures if r.Ok? then r.value == ms else r.error.conversation == ms && r.error.reason != []
  {
    FixIssuesIff(ms);
    var issues := FixMessages(ms).issues;
    if issues != [] then Err(Invalid(issues, ms)) else Ok(ms)
  }

  // ----- where the messages come from -----

  lemma StemsTrans(a: seq<Message>, b: seq<Message>, c: seq<Message>)
    requires Stems(a, b) && Stems(b, c)
    ensures Stems(a, c)
  {
    forall i | 0 <= i < |a| ensures StemsFrom(a[i], c) {
      assert StemsFrom(a[i], b);
      var j :| 0 <= j < |b| && b[j].role == a[i].role && b[j].metadata == a[i].metadata;
      assert StemsFrom(b[j], c);
    }
  }

  lemma EachStemsFrom(ms: seq<Message>, before: seq<Message>, f: Message -> Fixed)
    requires Tame(f) && Stems(ms, before)
    ensures Stems(Each(ms, f).messages, before)
  {
    EachStems(ms, f);
    StemsTrans(Each(ms, f).messages, ms, before);
  }

  lemma StemsRefl(ms: seq<Message>)
    ensures Stems(ms, ms)
  {
    forall i | 0 <= i < |ms| ensures StemsFrom(ms[i], ms) {
    }
  }

  lemma CleanUpStems(ms: seq<Message>)
    ensures Stems(CleanUp(ms).messages, ms)
  {
    StemsRefl(ms);
    JoinTextsGentle();
    EachStemsFrom(ms, ms, JoinTextsIn);
    var m1 := MergeTextContentItems(ms).messages;
    TrimGentle();
    EachStemsFrom(m1, ms, TrimIn);
    var m2 := TrimAssistantTextWhitespace(m1).messages;
    DropEmptyGentle();
    EachStemsFrom(m2, ms, DropEmpty);
    FillGentle();
    EachStemsFrom(RemoveEmptyMessages(m2).messages, ms, FillIn);
  }

  lemma {:induction false} SiftAllStems(ms: seq<Message>)
    ensures Stems(SiftAll(ms).messages, ms)
  {
    if ms != [] {
      SiftAllStems(Init(ms));
      var w := SiftAll(Init(ms));
      var sifted := Sift(Last(ms).role, Last(ms).content, w.pending).content;
      StemsStep(w.messages, Init(ms), [Last(ms).(content := sifted)], Last(ms));
      SplitLast(ms);
    }
  }

  lemma ToolCallingStems(ms: seq<Message>)
    ensures Stems(FixToolCalling(ms).messages, ms)
  {
    var w := SiftAll(ms);
    SiftAllStems(ms);
    DropOrphansTame(w.pending);
    EachStemsFrom(w.messages, ms, DropOrphans(w.pending));
    DropEmptyGentle();
    EachStemsFrom(Each(w.messages, DropOrphans(w.pending)).messages, ms, DropEmpty);
  }

  /** No pass up to the seventh lengthens a conversation or invents a role or metadata. */
  lemma ConsolidateStems(ms: seq<Message>)
    ensures Stems(Consolidate(ms).messages, ms)
  {
    var m4 := CleanUp(ms).messages;
    CleanUpStems(ms);
    var m5 := FixToolCalling(m4).messages;
    ToolCallingStems(m4);
    StemsTrans(m5, m4, ms);
    var m6 := MergeRuns(m5, false);
    MergeStems(m5, false);
    StemsTrans(m6, m5, ms);
    DedupeKeepsPlaces(m6);
    var m7 := DedupeAll(m6).messages;
    forall i | 0 <= i < |m7| ensures StemsFrom(m7[i], ms) {
      assert SamePlace(m7[i], m6[i]) && StemsFrom(m6[i], ms);
    }
  }

  lemma LeadTrailStems(ms: seq<Message>, before: seq<Message>)
    requires Stems(ms, before)
    ensures Stems(FixLeadTrail(ms).messages, before)
  {
    var lead := FixLead(ms).messages;
    assert forall i :: 0 <= i < |lead| ==> lead[i] in ms;
    assert Stems(lead, before);
  }

  /** Repair neither lengthens nor empties a conversation that is not empty, whatever is visible in it. */
  lemma FixedFits(ms: seq<Message>)
    requires ms != []
    ensures 1 <= |FixMessages(ms).messages| <= |ms|
  {
    ConsolidateStems(ms);
    LeadTrailStems(Consolidate(ms).messages, ms);
  }

  /** What the agent sees, it still sees after repair. */
  lemma FixedStaysVisible(ms: seq<Message>)
    requires forall i :: 0 <= i < |ms| ==> ms[i].metadata.agentVisible
    ensures forall i :: 0 <= i < |FixMessages(ms).messages| ==> FixMessages(ms).messages[i].metadata.agentVisible
  {
    var trimmed := FixLeadTrail(Consolidate(ms).messages).messages;
    ConsolidateStems(ms);
    LeadTrailStems(Consolidate(ms).messages, ms);
    forall i | 0 <= i < |trimmed| ensures trimmed[i].metadata.agentVisible {
      assert StemsFrom(trimmed[i], ms);
    }
  }

  // ----- alternation -----

  predicate UniformAs(ms: seq<Message>, userVisible: bool, turnContext: bool) {
    forall i :: 0 <= i < |ms| ==> ms[i].metadata.userVisible == userVisible && ms[i].metadata.turnContext == turnContext
  }

  lemma StemsUniform(a: seq<Message>, b: seq<Message>, userVisible: bool, turnContext: bool)
    requires Stems(a, b) && UniformAs(b, userVisible, turnContext)
    ensures UniformAs(a, userVisible, turnContext)
  {
    forall i | 0 <= i < |a|
      ensures a[i].metadata.userVisible == userVisible && a[i].metadata.turnContext == turnContext
    {
      assert StemsFrom(a[i], b);
    }
  }

  predicate Differ(a: Message, b: Message) {
    EffectiveRoleOf(a) != EffectiveRoleOf(b)
  }

  predicate Alternating(ms: seq<Message>) {
    forall i :: 0 <= i < |ms| - 1 ==> Differ(ms[i], ms[i + 1])
  }

  lemma ConsolidatedAlternates(ms: seq<Message>, userVisible: bool, turnContext: bool)
    requires UniformAs(ms, userVisible, turnContext)
    ensures Alternating(Consolidate(ms).messages) && NoDup(SignedOf(Consolidate(ms).messages))
  {
    var m5 := FixToolCalls(ms).messages;
    var m6 := MergeRuns(m5, false);
    var m7 := DedupeAll(m6).messages;
    CleanUpStems(ms);
    ToolCallingStems(CleanUp(ms).messages);
    StemsTrans(m5, CleanUp(ms).messages, ms);
    MergeStems(m5, false);
    StemsTrans(m6, m5, ms);
    StemsUniform(m6, ms, userVisible, turnContext);
    MergedHasNoJoins(m5, false);
    DedupeKeepsPlaces(m6);
    DedupeAllKeeps(m6);
    forall i | 0 <= i < |m7| - 1 ensures Differ(m7[i], m7[i + 1]) {
      assert !Joins(m6[i], m6[i + 1], false);
      assert SamePlace(m7[i], m6[i]) && SamePlace(m7[i + 1], m6[i + 1]);
    }
  }

  lemma {:induction false} SignedOfConcat(a: seq<Message>, b: seq<Message>)
    ensures SignedOf(a + b) == SignedOf(a) + SignedOf(b)
  {
    if b == [] {
      assert a + b == a;
    } else {
      InitOfConcat(a, b);
      SignedOfConcat(a, Init(b));
      Assoc(SignedOf(a), SignedOf(Init(b)), if Last(b).role == Assistant then SignedIn(Last(b).content) else []);
    }
  }

  lemma NoDupSuffix(x: seq<Block>, y: seq<Block>)
    requires NoDup(x + y)
    ensures NoDup(y)
  {
    var xy := x + y;
    assert forall i :: 0 <= i < |y| ==> xy[|x| + i] == y[i];
  }

  lemma NoDupPart(a: seq<Message>, b: seq<Message>)
    requires NoDup(SignedOf(a + b))
    ensures NoDup(SignedOf(a)) && NoDup(SignedOf(b))
  {
    SignedOfConcat(a, b);
    NoDupPrefix(SignedOf(a), SignedOf(b));
    NoDupSuffix(SignedOf(a), SignedOf(b));
  }

  lemma LeadAlternates(ms: seq<Message>)
    requires Alternating(ms) && NoDup(SignedOf(ms))
    ensures var r := FixLead(ms).messages; Alternating(r) && NoDup(SignedOf(r)) && (r != [] ==> r[0].role == User)
  {
    if ms != [] && ms[0].role == Assistant {
      var r := ms[1..];
      assert ms == [ms[0]] + r;
      NoDupPart([ms[0]], r);
      forall i | 0 <= i < |r| - 1 ensures Differ(r[i], r[i + 1]) {
        assert Differ(ms[i + 1], ms[i + 2]);
      }
      assert r != [] ==> Differ(ms[0], ms[0 + 1]);
    }
  }

  lemma TrailAlternates(ms: seq<Message>)
    requires Alternating(ms) && NoDup(SignedOf(ms)) && (ms != [] ==> ms[0].role == User)
    ensures var r := FixTrail(ms).messages;
            Alternating(r) && NoDup(SignedOf(r)) && (r != [] ==> r[0].role == User && Last(r).role == User)
  {
    if ms != [] && Last(ms).role == Assistant {
      var n := |ms| - 2;
      SplitLast(ms);
      NoDupPart(Init(ms), [Last(ms)]);
      assert n >= 0 ==> Differ(ms[n], ms[n + 1]);
    }
  }

  /**
   Repaired conversations of one visibility start and end with the user, alternate between
   effective roles, and never repeat a signed thinking block.
   */
  lemma FixedAlternates(ms: seq<Message>, userVisible: bool, turnContext: bool)
    requires UniformAs(ms, userVisible, turnContext)
    ensures var out := FixMessages(ms).messages;
            && out != [] && out[0].role == User && Last(out).role == User
            && Alternating(out) && NoDup(SignedOf(out))
  {
    ConsolidatedAlternates(ms, userVisible, turnContext);
    var m7 := Consolidate(ms).messages;
    LeadAlternates(m7);
    TrailAlternates(FixLead(m7).messages);
    assert SignedOf([PLACEHOLDER]) == [] by {
      assert Init([PLACEHOLDER]) == [] && SignedOf([]) == [];
    }
  }

  // ----- tool pairing through the pipeline -----

  lemma CleanUpKeepsTrace(ms: seq<Message>, id: string)
    ensures Trace(CleanUp(ms).messages, id) == Trace(ms, id)
  {
    JoinTextsGentle();
    EachKeepsTrace(ms, JoinTextsIn, id);
    var m1 := MergeTextContentItems(ms).messages;
    TrimGentle();
    EachKeepsTrace(m1, TrimIn, id);
    var m2 := TrimAssistantTextWhitespace(m1).messages;
    DropEmptyGentle();
    EachKeepsTrace(m2, DropEmpty, id);
    FillGentle();
    EachKeepsTrace(RemoveEmptyMessages(m2).messages, FillIn, id);
  }

  /** With distinct request ids, all calls are paired before the ends are trimmed. */
  lemma ConsolidatedPaired(ms: seq<Message>)
    requires DistinctRequests(ms)
    ensures Paired(Consolidate(ms).messages)
  {
    var m4 := CleanUp(ms).messages;
    forall id ensures Requests(Trace(m4, id)) <= 1 {
      CleanUpKeepsTrace(ms, id);
    }
    PairedAfterFix(m4);
    var m5 := FixToolCalling(m4).messages;
    var m6 := MergeRuns(m5, false);
    MergeWellPlaced(m5, false);
    DedupeWellPlaced(m6);
    forall id ensures PairTrace(Trace(DedupeAll(m6).messages, id)) {
      MergeKeepsTrace(m5, false, id);
      DedupeKeepsTrace(m6, id);
      assert PairTrace(Trace(m5, id));
    }
  }

  lemma TraceOfHead(ms: seq<Message>, id: string)
    requires ms != []
    ensures Trace(ms, id) == TraceIn(ms[0].role, ms[0].content, id) + Trace(ms[1..], id)
  {
    assert ms == [ms[0]] + ms[1..];
    TraceConcat([ms[0]], ms[1..], id);
    TraceOne(ms[0], id);
  }

  ghost predicate LeadAsks(ms: seq<Message>) {
    ms != [] && exists id :: Asks(ms[0], id)
  }

  lemma {:induction false} AskShows(content: seq<Block>, i: nat, id: string)
    requires i < |content| && content[i].ToolRequest? && content[i].id == id
    ensures Request in TraceIn(Assistant, content, id)
  {
    if i == |content| - 1 {
      assert EventOf(Assistant, Last(content), id) == [Request];
    } else {
      AskShows(Init(content), i, id);
    }
  }

  lemma AskedInHead(m: Message, id: string)
    requires Asks(m, id)
    ensures Request in TraceIn(Assistant, m.content, id) && Response !in TraceIn(Assistant, m.content, id)
  {
    var i :| 0 <= i < |m.content| && m.content[i].ToolRequest? && m.content[i].id == id;
    AskShows(m.content, i, id);
    OneKindOfEvent(Assistant, m.content, id);
  }

  lemma NotAskedInHead(m: Message, id: string)
    requires m.role == Assistant && !Asks(m, id)
    ensures TraceIn(Assistant, m.content, id) == []
  {
    var head := TraceIn(Assistant, m.content, id);
    OneKindOfEvent(Assistant, m.content, id);
    if head != [] {
      EventShows(m, id, head[0]);
    }
  }

  /** What remains of one id when the first message goes. */
  lemma LeadTrace(ms: seq<Message>, id: string)
    requires Paired(ms) && ms != [] && ms[0].role == Assistant
    ensures Trace(ms[1..], id) == if Asks(ms[0], id) then [Response] else Trace(ms, id)
  {
    TraceOfHead(ms, id);
    assert PairTrace(Trace(ms, id));
    if Asks(ms[0], id) {
      AskedInHead(ms[0], id);
      HeadIsRequest(TraceIn(Assistant, ms[0].content, id), Trace(ms[1..], id));
    } else {
      NotAskedInHead(ms[0], id);
      assert [] + Trace(ms[1..], id) == Trace(ms[1..], id);
    }
  }

  lemma HeadIsRequest(head: seq<Event>, rest: seq<Event>)
    requires PairTrace(head + rest) && Request in head && Response !in head
    ensures rest == [Response]
  {
    var t := head + rest;
    assert t == [Request, Response];
    assert head == t[..|head|] && rest == t[|head|..];
    assert t[..0] == [] && t[..1] == [Request] && t[..2] == [Request, Response];
  }

  /** Dropping a trailing assistant message never drops a call that ends in an answer. */
  lemma TrailTrace(ms: seq<Message>, id: string)
    requires Trace(ms, id) == [] || Last(Trace(ms, id)) == Response
    ensures Trace(FixTrail(ms).messages, id) == Trace(ms, id)
  {
    if ms != [] && Last(ms).role == Assistant {
      var here := TraceIn(Assistant, Last(ms).content, id);
      OneKindOfEvent(Assistant, Last(ms).content, id);
      LastOfConcat(Trace(Init(ms), id), here);
      assert Trace(Init(ms), id) + [] == Trace(Init(ms), id);
    }
  }

  lemma LeadTrailTrace(ms: seq<Message>, id: string)
    requires Paired(ms)
    ensures Trace(FixLeadTrail(ms).messages, id)
            == if ms != [] && Asks(ms[0], id) then [Response] else Trace(ms, id)
  {
    assert PairTrace(Trace(ms, id));
    if ms != [] && ms[0].role == Assistant {
      LeadTrace(ms, id);
    }
    TrailTrace(FixLead(ms).messages, id);
  }

  lemma LeadTrailWellPlaced(ms: seq<Message>)
    requires WellPlaced(ms)
    ensures WellPlaced(PopulateIfEmpty(FixLeadTrail(ms).messages).messages)
  {
    var r := FixLeadTrail(ms).messages;
    assert forall i :: 0 <= i < |r| ==> r[i] in ms;
  }

  lemma PopulateTrace(ms: seq<Message>, id: string)
    ensures Trace(PopulateIfEmpty(ms).messages, id) == Trace(ms, id)
  {
    if ms == [] {
      TraceOne(PLACEHOLDER, id);
      assert Init(PLACEHOLDER.content) == [] && TraceIn(User, [], id) == [];
    }
  }

  lemma FinalTrace(ms: seq<Message>, id: string)
    requires Paired(ms)
    ensures Trace(PopulateIfEmpty(FixLeadTrail(ms).messages).messages, id)
            == if ms != [] && Asks(ms[0], id) then [Response] else Trace(ms, id)
  {
    LeadTrailTrace(ms, id);
    PopulateTrace(FixLeadTrail(ms).messages, id);
  }

  lemma EndsKeepPairsIff(ms: seq<Message>)
    requires Paired(ms)
    ensures Paired(PopulateIfEmpty(FixLeadTrail(ms).messages).messages) <==> !LeadAsks(ms)
  {
    var out := PopulateIfEmpty(FixLeadTrail(ms).messages).messages;
    LeadTrailWellPlaced(ms);
    if LeadAsks(ms) {
      var id :| Asks(ms[0], id);
      FinalTrace(ms, id);
      assert !PairTrace(Trace(out, id));
    } else {
      forall id ensures PairTrace(Trace(out, id)) {
        FinalTrace(ms, id);
        assert PairTrace(Trace(ms, id));
      }
    }
  }

  /**
   With distinct request ids the repaired conversation pairs every call, except in one case: the
   first message left by the other passes is an assistant message that makes calls. It is dropped,
   and the answers to its calls stay.
   */
  lemma FixedPairedIff(ms: seq<Message>)
    requires DistinctRequests(ms)
    ensures Paired(FixMessages(ms).messages) <==> !LeadAsks(Consolidate(ms).messages)
  {
    ConsolidatedPaired(ms);
    EndsKeepPairsIff(Consolidate(ms).messages);
  }

  /** In particular it pairs every call if the first message that survives the first five passes is the user's. */
  lemma FixedPaired(ms: seq<Message>)
    requires DistinctRequests(ms)
    requires var called := FixToolCalls(ms).messages; called == [] || called[0].role == User
    ensures Paired(FixMessages(ms).messages)
  {
    var m5 := FixToolCalls(ms).messages;
    var m6 := MergeRuns(m5, false);
    FirstRole(m5);
    DedupeKeepsPlaces(m6);
    assert m6 != [] ==> SamePlace(DedupeAll(m6).messages[0], m6[0]);
    FixedPairedIff(ms);
  }

  lemma {:induction false} FirstRole(ms: seq<Message>)
    ensures (ms == [] <==> MergeRuns(ms, false) == []) && (ms != [] ==> MergeRuns(ms, false)[0].role == ms[0].role)
  {
    if |ms| > 1 {
      FirstRole(Init(ms));
    }
  }
}
