/**
 When one repair is enough. A second repair of a conversation finds nothing exactly if a condition
 holds that can be read off the conversation before its messages are merged, run by run.
 */
module RepairAgain {
  import opened Sequences
  import opened Messages
  import opened CleanPasses
  import opened ToolPairing
  import opened RunMerging
  import opened SignedThinking
  import opened RunStructure
  import opened DedupedContent
  import opened Normalizer
  import opened RepairedShape

  // ----- on the result -----

  /** What the last two passes leave: at most one assistant message is missing at each end. */
  function Front(ms: seq<Message>): nat {
    if ms != [] && ms[0].role == Assistant then 1 else 0
  }

  function Back(ms: seq<Message>): (r: nat)
    ensures Front(ms) <= r <= |ms|
  {
    if Front(ms) < |ms| && Last(ms).role == Assistant then |ms| - 1 else |ms|
  }

  lemma LeadTrailIs(ms: seq<Message>)
    ensures FixLeadTrail(ms).messages == ms[Front(ms)..Back(ms)]
  {
  }

  lemma TidyIff(ms: seq<Message>)
    requires AllTidy(ms)
    ensures Tidy(ms) <==> (forall i :: 0 <= i < |ms| ==> NoAdjacentTexts(ms[i])) && NoneEmpty(ms)
  {
    forall i | 0 <= i < |ms| ensures Trimmed(ms[i]) && NoEmptyResult(ms[i]) {
      TidyMessageIff(ms[i]);
    }
  }

  lemma OneTextIsNormal(m: Message, b: Block)
    requires m.role == User && m.content == [b] && b.Text? && b.text != ""
    ensures NormalForm([m])
  {
    assert m.content[0] == b && !EmptyContent(m.content);
    assert Init([m]) == [] && SignedOf([m]) == SignedOf([]) + [];
    forall id ensures Trace([m], id) == [] {
      TraceOne(m, id);
      assert Init([b]) == [] && TraceIn(User, [], id) == [];
    }
  }

  lemma PlaceholderIsNormal()
    ensures FixMessages([PLACEHOLDER]).issues == []
  {
    OneTextIsNormal(PLACEHOLDER, PLACEHOLDER.content[0]);
    FixIssuesIff([PLACEHOLDER]);
  }

  ghost predicate AllAlternate(ms: seq<Message>) {
    forall id :: Alternates(Trace(ms, id))
  }

  ghost predicate AllApart(ms: seq<Message>) {
    forall i :: 0 <= i < |ms| ==> NoAdjacentTexts(ms[i])
  }

  lemma ShapedNormalIff(r: seq<Message>)
    requires Shaped(r) && r != []
    ensures NormalForm(r) <==> AllApart(r) && NoneEmpty(r) && AllAlternate(r) && UserAtBothEnds(r)
  {
    TidyIff(r);
  }

  /** A second repair finds nothing exactly if what the ends leave is in normal form, or nothing was left. */
  lemma SecondRepairIff(ms: seq<Message>)
    ensures var r := TrimEnds(ms).messages;
            FixMessages(FixMessages(ms).messages).issues == []
            <==> r == [] || (AllApart(r) && NoneEmpty(r) && AllAlternate(r) && UserAtBothEnds(r))
  {
    var m7, r := Consolidate(ms).messages, TrimEnds(ms).messages;
    if r == [] {
      PlaceholderIsNormal();
    } else {
      ConsolidatedShape(ms);
      LeadTrailIs(m7);
      StretchShape(m7, Front(m7), Back(m7));
      ShapedNormalIff(r);
      FixIssuesIff(r);
    }
  }

  // ----- run by run -----

  function RoleOfRun(c: seq<Message>, p: nat): Role
    requires p < |Starts(c)|
  {
    c[Starts(c)[p]].role
  }

  /** The runs that the last two passes leave. */
  predicate Stays(c: seq<Message>, p: nat) {
    p < |Starts(c)| && (RoleOfRun(c, p) == User || 0 < p < |Starts(c)| - 1)
  }

  /** The texts of a run meet across the seams of its messages, or around thinking that is a repetition. */
  ghost predicate RunMeets(c: seq<Message>, p: nat)
    requires p < |Starts(c)|
  {
    RoleOfRun(c, p) == Assistant && TextsMeet(RunContent(c, p), SignedBefore(c, p))
  }

  /** A run of nothing but repeated thinking and empty texts. */
  predicate RunHollow(c: seq<Message>, p: nat)
    requires p < |Starts(c)|
  {
    RoleOfRun(c, p) == Assistant && Hollow(RunContent(c, p), SignedBefore(c, p))
  }

  /** The two first runs, or the two last, are both the assistant's, with different visibility or turn context. */
  predicate TwoLead(c: seq<Message>) {
    |Starts(c)| > 1 && RoleOfRun(c, 0) == Assistant && RoleOfRun(c, 1) == Assistant
  }

  predicate TwoTrail(c: seq<Message>) {
    var n := |Starts(c)|;
    n > 1 && RoleOfRun(c, n - 2) == Assistant && RoleOfRun(c, n - 1) == Assistant
  }

  /** A call of a leading assistant run is answered right behind that run. */
  ghost predicate LeadAnswered(c: seq<Message>) {
    c != [] && c[0].role == Assistant && exists id :: AnsweredBehind(c, id)
  }

  predicate AnsweredBehind(c: seq<Message>, id: string)
    requires c != []
  {
    var lead, rest := Trace(c[..LeadEnd(c)], id), Trace(c[LeadEnd(c)..], id);
    lead != [] && rest != [] && rest[0] == Response
  }

  /** The end of the first run. */
  function LeadEnd(c: seq<Message>): (r: nat)
    requires c != []
    ensures 0 < r <= |c|
  {
    RunBounds(c, 0);
    EndOf(c, 0)
  }

  /** What a run has become before the ends are trimmed. */
  lemma ConsolidatedRun(ms: seq<Message>, p: nat)
    requires p < |Starts(FixToolCalls(ms).messages)|
    ensures var c, m7 := FixToolCalls(ms).messages, Consolidate(ms).messages;
            && |m7| == |Starts(c)| && m7[p].role == RoleOfRun(c, p)
            && m7[p].content == if RoleOfRun(c, p) == Assistant
              then DedupeIn(RunContent(c, p), SignedBefore(c, p)).content
                                else RunContent(c, p)
  {
    var c := FixToolCalls(ms).messages;
    MergedAreRuns(c);
    SignedBeforeRun(c, p);
    DedupedAt(MergeRuns(c, false), p);
  }

  /** One message for every run, with its role. */
  ghost predicate Mirrors(m7: seq<Message>, c: seq<Message>) {
    |m7| == |Starts(c)| && forall p :: 0 <= p < |m7| ==> m7[p].role == RoleOfRun(c, p)
  }

  lemma AsManyRuns(ms: seq<Message>)
    ensures Mirrors(Consolidate(ms).messages, FixToolCalls(ms).messages)
  {
    var c, m7 := FixToolCalls(ms).messages, Consolidate(ms).messages;
    MergedAreRuns(c);
    DedupeKeepsPlaces(MergeRuns(c, false));
    forall p | 0 <= p < |m7| ensures m7[p].role == RoleOfRun(c, p) {
      ConsolidatedRun(ms, p);
    }
  }

  lemma StaysIff(m7: seq<Message>, c: seq<Message>, p: nat)
    requires Mirrors(m7, c)
    ensures Stays(c, p) <==> Front(m7) <= p < Back(m7)
  {
  }

  // ----- texts and empty messages -----

  lemma RunApartIff(ms: seq<Message>, p: nat)
    requires p < |Starts(FixToolCalls(ms).messages)|
    ensures p < |Consolidate(ms).messages|
    ensures NoAdjacentTexts(Consolidate(ms).messages[p]) <==> !RunMeets(FixToolCalls(ms).messages, p)
  {
    var c := FixToolCalls(ms).messages;
    ConsolidatedRun(ms, p);
    ApartIff(RunContent(c, p), SignedBefore(c, p));
  }

  lemma NonEmptyConcat(a: seq<Block>, b: seq<Block>)
    requires !EmptyContent(b)
    ensures !EmptyContent(a + b)
  {
    var i :| 0 <= i < |b| && !(b[i].Text? && b[i].text == "");
    assert (a + b)[|a| + i] == b[i];
  }

  lemma NonEmptyContents(ms: seq<Message>)
    requires ms != [] && NoneEmpty(ms)
    ensures !EmptyContent(Contents(ms))
  {
    NonEmptyConcat(Contents(Init(ms)), Last(ms).content);
  }

  lemma RunNotEmpty(c: seq<Message>, p: nat)
    requires p < |Starts(c)| && NoneEmpty(c)
    ensures !EmptyContent(RunContent(c, p))
  {
    RunBounds(c, p);
    NonEmptyContents(c[Starts(c)[p]..EndOf(c, p)]);
  }

  lemma RunEmptyIff(ms: seq<Message>, p: nat)
    requires p < |Starts(FixToolCalls(ms).messages)|
    ensures p < |Consolidate(ms).messages|
    ensures EmptyContent(Consolidate(ms).messages[p].content) <==> RunHollow(FixToolCalls(ms).messages, p)
  {
    var c := FixToolCalls(ms).messages;
    ConsolidatedRun(ms, p);
    EmptyIff(RunContent(c, p), SignedBefore(c, p));
    FixedWellPlaced(CleanUp(ms).messages);
    RunNotEmpty(c, p);
  }

  ghost predicate NoRunMeets(c: seq<Message>) {
    forall p: nat :: Stays(c, p) ==> !RunMeets(c, p)
  }

  ghost predicate NoRunHollow(c: seq<Message>) {
    forall p: nat :: Stays(c, p) ==> !RunHollow(c, p)
  }

  lemma StretchAll(ms: seq<Message>, lo: nat, hi: nat, p: Message -> bool)
    requires lo <= hi <= |ms|
    ensures (forall i :: 0 <= i < hi - lo ==> p(ms[lo..hi][i])) <==> forall k :: lo <= k < hi ==> p(ms[k])
  {
    var r := ms[lo..hi];
    if forall i :: 0 <= i < hi - lo ==> p(r[i]) {
      forall k | lo <= k < hi ensures p(ms[k]) {
        assert r[k - lo] == ms[k];
      }
    }
  }

  lemma StretchApartIff(m7: seq<Message>, c: seq<Message>)
    requires Mirrors(m7, c)
    requires forall p: nat :: p < |m7| ==> (NoAdjacentTexts(m7[p]) <==> !RunMeets(c, p))
    ensures AllApart(m7[Front(m7)..Back(m7)]) <==> NoRunMeets(c)
  {
    var lo, hi := Front(m7), Back(m7);
    StretchAll(m7, lo, hi, NoAdjacentTexts);
    forall p: nat ensures Stays(c, p) <==> lo <= p < hi {
      StaysIff(m7, c, p);
    }
  }

  lemma StretchNoneEmptyIff(m7: seq<Message>, c: seq<Message>)
    requires Mirrors(m7, c)
    requires forall p: nat :: p < |m7| ==> (EmptyContent(m7[p].content) <==> RunHollow(c, p))
    ensures NoneEmpty(m7[Front(m7)..Back(m7)]) <==> NoRunHollow(c)
  {
    var lo, hi := Front(m7), Back(m7);
    StretchAll(m7, lo, hi, (m: Message) => !EmptyContent(m.content));
    forall p: nat ensures Stays(c, p) <==> lo <= p < hi {
      StaysIff(m7, c, p);
    }
  }

  lemma ApartRunsIff(ms: seq<Message>)
    ensures AllApart(TrimEnds(ms).messages) <==> NoRunMeets(FixToolCalls(ms).messages)
  {
    var c, m7 := FixToolCalls(ms).messages, Consolidate(ms).messages;
    LeadTrailIs(m7);
    AsManyRuns(ms);
    forall p: nat | p < |m7| ensures NoAdjacentTexts(m7[p]) <==> !RunMeets(c, p) {
      RunApartIff(ms, p);
    }
    StretchApartIff(m7, c);
  }

  lemma NoneEmptyRunsIff(ms: seq<Message>)
    ensures NoneEmpty(TrimEnds(ms).messages) <==> NoRunHollow(FixToolCalls(ms).messages)
  {
    var c, m7 := FixToolCalls(ms).messages, Consolidate(ms).messages;
    LeadTrailIs(m7);
    AsManyRuns(ms);
    forall p: nat | p < |m7| ensures EmptyContent(m7[p].content) <==> RunHollow(c, p) {
      RunEmptyIff(ms, p);
    }
    StretchNoneEmptyIff(m7, c);
  }

  // ----- the ends -----

  lemma StretchEndsIff(m7: seq<Message>, c: seq<Message>)
    requires Mirrors(m7, c)
    ensures var r := m7[Front(m7)..Back(m7)];
            && (r == [] <==> forall p: nat :: !Stays(c, p))
            && (r != [] ==> (UserAtBothEnds(r) <==> !TwoLead(c) && !TwoTrail(c)))
  {
    var r := m7[Front(m7)..Back(m7)];
    if r == [] {
      forall p: nat ensures !Stays(c, p) {
        StaysIff(m7, c, p);
      }
    } else {
      StaysIff(m7, c, Front(m7));
      assert r[0] == m7[Front(m7)] && Last(r) == m7[Back(m7) - 1];
      TwoLeadIff(m7, c);
      TwoTrailIff(m7, c);
    }
  }

  lemma TwoLeadIff(m7: seq<Message>, c: seq<Message>)
    requires Mirrors(m7, c) && Front(m7) < |m7|
    ensures m7[Front(m7)].role == User <==> !TwoLead(c)
  {
  }

  lemma TwoTrailIff(m7: seq<Message>, c: seq<Message>)
    requires Mirrors(m7, c) && Front(m7) < Back(m7)
    ensures m7[Back(m7) - 1].role == User <==> !TwoTrail(c)
  {
    var n := |m7|;
    if n > 1 {
      assert m7[n - 1].role == RoleOfRun(c, n - 1) && m7[n - 2].role == RoleOfRun(c, n - 2);
    }
  }

  lemma EndsIff(ms: seq<Message>)
    ensures var c, r := FixToolCalls(ms).messages, TrimEnds(ms).messages;
            && (r == [] <==> forall p: nat :: !Stays(c, p))
            && (r != [] ==> (UserAtBothEnds(r) <==> !TwoLead(c) && !TwoTrail(c)))
  {
    LeadTrailIs(Consolidate(ms).messages);
    AsManyRuns(ms);
    StretchEndsIff(Consolidate(ms).messages, FixToolCalls(ms).messages);
  }

  // ----- tool calls -----

  lemma {:induction false} FixedIsClosed(t: seq<Event>)
    ensures !Open(FixedTrace(t))
  {
    if Open(t) {
      NoRequestsHasNone(Kept(t));
      LastIsIn(NoRequests(Kept(t)));
    } else {
      KeptTwice(t);
    }
  }

  lemma LastIsIn<T>(s: seq<T>)
    ensures s != [] ==> Last(s) in s
  {
  }

  lemma ConsolidatedTrace(ms: seq<Message>, id: string)
    ensures Trace(Consolidate(ms).messages, id) == Trace(FixToolCalls(ms).messages, id) == FixedTrace(Trace(ms, id))
  {
    CleanUpKeepsTrace(ms, id);
    FixedTraceOf(CleanUp(ms).messages, id);
    MergeKeepsTrace(FixToolCalls(ms).messages, false, id);
    DedupeKeepsTrace(MergeRuns(FixToolCalls(ms).messages, false), id);
  }

  lemma {:induction false} TraceOfContents(role: Role, ms: seq<Message>, id: string)
    requires forall i :: 0 <= i < |ms| ==> ms[i].role == role
    ensures TraceIn(role, Contents(ms), id) == Trace(ms, id)
  {
    if ms != [] {
      TraceOfContents(role, Init(ms), id);
      TraceInConcat(role, Contents(Init(ms)), Last(ms).content, id);
    }
  }

  lemma {:induction false} RunHasOneRole(c: seq<Message>, p: nat, i: nat)
    requires p < |Starts(c)| && Starts(c)[p] <= i < EndOf(c, p)
    ensures c[i].role == RoleOfRun(c, p)
  {
    var init := Init(c);
    StartsIncrease(c);
    if Starts(c) == Starts(init) {
      if i < |init| {
        RunHasOneRole(init, p, i);
      } else {
        RunHasOneRole(init, p, i - 1);
      }
    } else if p < |Starts(init)| {
      RunHasOneRole(init, p, i);
    }
  }

  lemma LeadContent(c: seq<Message>)
    requires c != []
    ensures RunContent(c, 0) == Contents(c[..LeadEnd(c)]) && RoleOfRun(c, 0) == c[0].role
    ensures forall i :: 0 <= i < LeadEnd(c) ==> c[i].role == c[0].role
  {
    StartsIncrease(c);
    assert c[0..EndOf(c, 0)] == c[..LeadEnd(c)];
    forall i | 0 <= i < LeadEnd(c) ensures c[i].role == c[0].role {
      RunHasOneRole(c, 0, i);
    }
  }

  /** The first message has the calls of the first run. */
  lemma LeadMessageTrace(ms: seq<Message>, id: string)
    requires FixToolCalls(ms).messages != []
    ensures var c, m7 := FixToolCalls(ms).messages, Consolidate(ms).messages;
            && m7 != [] && m7[0].role == c[0].role
            && TraceIn(m7[0].role, m7[0].content, id) == Trace(c[..LeadEnd(c)], id)
  {
    var c := FixToolCalls(ms).messages;
    LeadContent(c);
    ConsolidatedRun(ms, 0);
    TraceOfContents(c[0].role, c[..LeadEnd(c)], id);
    DedupeInTrace(c[0].role, RunContent(c, 0), SignedBefore(c, 0), id);
  }

  lemma CancelPrefix(a: seq<Event>, b: seq<Event>, c: seq<Event>)
    requires a + b == a + c
    ensures b == c
  {
    assert (a + b)[|a|..] == b && (a + c)[|a|..] == c;
  }

  /** The calls behind the first message are those behind the first run. */
  lemma RestTrace(ms: seq<Message>, id: string)
    requires FixToolCalls(ms).messages != []
    ensures var c, m7 := FixToolCalls(ms).messages, Consolidate(ms).messages;
            m7 != [] && Trace(m7[1..], id) == Trace(c[LeadEnd(c)..], id)
  {
    var c, m7 := FixToolCalls(ms).messages, Consolidate(ms).messages;
    ConsolidatedTrace(ms, id);
    LeadMessageTrace(ms, id);
    TraceOfHead(m7, id);
    SplitAt(c, LeadEnd(c));
    TraceConcat(c[..LeadEnd(c)], c[LeadEnd(c)..], id);
    CancelPrefix(Trace(c[..LeadEnd(c)], id), Trace(m7[1..], id), Trace(c[LeadEnd(c)..], id));
  }

  lemma SplitAt<T>(s: seq<T>, i: nat)
    requires i <= |s|
    ensures s == s[..i] + s[i..]
  {
  }

  lemma SuffixIsClosed(a: seq<Event>, b: seq<Event>)
    requires !Open(a + b)
    ensures !Open(b)
  {
    LastOfConcat(a, b);
  }

  /** Dropping an assistant message at the end drops no call, if every call was answered. */
  lemma LeadMatters(m7: seq<Message>, id: string)
    requires !Open(Trace(m7, id))
    ensures Trace(FixLeadTrail(m7).messages, id) == Trace(FixLead(m7).messages, id)
  {
    if m7 != [] && m7[0].role == Assistant {
      TraceOfHead(m7, id);
      SuffixIsClosed(TraceIn(m7[0].role, m7[0].content, id), Trace(m7[1..], id));
    }
    TrailTrace(FixLead(m7).messages, id);
  }

  /** What remains of one id when the ends are trimmed. */
  lemma TrimmedTrace(ms: seq<Message>, id: string)
    ensures var c := FixToolCalls(ms).messages;
            Trace(TrimEnds(ms).messages, id)
            == if c != [] && c[0].role == Assistant then Trace(c[LeadEnd(c)..], id) else Trace(c, id)
  {
    var c, m7 := FixToolCalls(ms).messages, Consolidate(ms).messages;
    ConsolidatedTrace(ms, id);
    FixedIsClosed(Trace(ms, id));
    LeadMatters(m7, id);
    AsManyRuns(ms);
    if c != [] {
      LeadMessageTrace(ms, id);
      RestTrace(ms, id);
    }
  }

  lemma {:induction false} AssistantsOnlyAsk(ms: seq<Message>, id: string)
    requires forall i :: 0 <= i < |ms| ==> ms[i].role == Assistant
    ensures Response !in Trace(ms, id)
  {
    if ms != [] {
      AssistantsOnlyAsk(Init(ms), id);
      OneKindOfEvent(Assistant, Last(ms).content, id);
    }
  }

  /** Dropping leading requests from a trace in order leaves it in order unless an answer follows at once. */
  lemma DropRequests(lead: seq<Event>, rest: seq<Event>)
    requires Alternates(lead + rest) && Response !in lead
    ensures Alternates(rest) <==> lead == [] || rest == [] || rest[0] == Request
  {
    var t := lead + rest;
    assert forall i :: 0 <= i < |rest| ==> t[|lead| + i] == rest[i];
    if rest != [] {
      assert Last(t) == Last(rest);
      forall i | 0 <= i < |rest| - 1 ensures rest[i] == Request || rest[i + 1] == Request {
        assert t[|lead| + i] == Request || t[|lead| + i + 1] == Request;
      }
      if lead == [] {
        assert t == rest;
      }
    }
  }

  /** A trace that starts with a request and is in order cannot come from an id that was left open after its answer. */
  lemma AlternatesFrom(t: seq<Event>)
    ensures Reasked(t) ==> FixedTrace(t) != [] && Request !in FixedTrace(t)
    ensures !Reasked(t) ==> Alternates(FixedTrace(t))
  {
    FixedAlternatesIff(t);
    if Reasked(t) {
      KeptHasResponseIff(t);
      NoRequestsKeepsResponses(Kept(t));
      NoRequestsHasNone(Kept(t));
    }
  }

  lemma SomeEvent(t: seq<Event>)
    ensures t != [] ==> Request in t || Response in t
  {
    if t != [] {
      match t[0] {
        case Request => assert t[0] in t;
        case Response => assert t[0] in t;
      }
    }
  }

  lemma NoLeadRequest(lead: seq<Event>, rest: seq<Event>)
    requires Request !in lead + rest && Response !in lead
    ensures lead == [] && lead + rest == rest
  {
    assert forall e :: e in lead ==> e in lead + rest;
    SomeEvent(lead);
    assert [] + rest == rest;
  }

  /** The trace t of an id, fixed, then without the requests that a first run makes. */
  lemma TraceSettlesIff(t: seq<Event>, lead: seq<Event>, rest: seq<Event>)
    requires FixedTrace(t) == lead + rest && Response !in lead
    ensures Alternates(rest) <==> !Reasked(t) && !(lead != [] && rest != [] && rest[0] == Response)
  {
    AlternatesFrom(t);
    FixedAlternatesIff(t);
    if Reasked(t) {
      NoLeadRequest(lead, rest);
    } else {
      DropRequests(lead, rest);
    }
  }

  lemma LeadAndRest(c: seq<Message>, id: string)
    requires c != [] && c[0].role == Assistant
    ensures Trace(c, id) == Trace(c[..LeadEnd(c)], id) + Trace(c[LeadEnd(c)..], id)
    ensures Response !in Trace(c[..LeadEnd(c)], id)
  {
    LeadContent(c);
    AssistantsOnlyAsk(c[..LeadEnd(c)], id);
    SplitAt(c, LeadEnd(c));
    TraceConcat(c[..LeadEnd(c)], c[LeadEnd(c)..], id);
  }

  lemma IdAlternatesIff(ms: seq<Message>, id: string)
    ensures var c := FixToolCalls(ms).messages;
            Alternates(Trace(TrimEnds(ms).messages, id))
            <==> !Reasked(Trace(ms, id)) && !(c != [] && c[0].role == Assistant && AnsweredBehind(c, id))
  {
    var c := FixToolCalls(ms).messages;
    ConsolidatedTrace(ms, id);
    TrimmedTrace(ms, id);
    if c != [] && c[0].role == Assistant {
      LeadAndRest(c, id);
      TraceSettlesIff(Trace(ms, id), Trace(c[..LeadEnd(c)], id), Trace(c[LeadEnd(c)..], id));
    } else {
      FixedAlternatesIff(Trace(ms, id));
    }
  }

  lemma CallsIff(ms: seq<Message>)
    ensures AllAlternate(TrimEnds(ms).messages)
            <==> NeverReasked(ms) && !LeadAnswered(FixToolCalls(ms).messages)
  {
    var c, r := FixToolCalls(ms).messages, TrimEnds(ms).messages;
    if AllAlternate(r) {
      forall id ensures !Reasked(Trace(ms, id)) && !(c != [] && c[0].role == Assistant && AnsweredBehind(c, id)) {
        IdAlternatesIff(ms, id);
        assert Alternates(Trace(r, id));
      }
    }
    if NeverReasked(ms) && !LeadAnswered(c) {
      forall id ensures Alternates(Trace(r, id)) {
        IdAlternatesIff(ms, id);
        assert !Reasked(Trace(ms, id));
      }
    }
  }

  // ----- the exact condition -----

  /** The four ways in which a first repair can leave work for a second, and the case in which nothing is left. */
  ghost predicate Settles(ms: seq<Message>, c: seq<Message>) {
    || (forall p: nat :: !Stays(c, p))
    || (NoRunMeets(c) && NoRunHollow(c) && NeverReasked(ms) && !LeadAnswered(c) && !TwoLead(c) && !TwoTrail(c))
  }

  /**
   One repair is enough exactly if, before merging, no run that stays has texts that meet or nothing
   but repetitions, no id is asked for again after its answer and left open, the first run is not an
   assistant's with calls answered behind it, and neither end has two assistant runs.
   */
  lemma RepairSettlesIff(ms: seq<Message>)
    ensures FixMessages(FixMessages(ms).messages).issues == [] <==> Settles(ms, FixToolCalls(ms).messages)
  {
    SecondRepairIff(ms);
    ApartRunsIff(ms);
    NoneEmptyRunsIff(ms);
    CallsIff(ms);
    EndsIff(ms);
  }

  /** If texts are tidy and calls in order already, the condition is one on the conversation itself. */
  lemma TidySettlesIff(ms: seq<Message>)
    requires Tidy(ms) && CallsInOrder(ms)
    ensures FixToolCalls(ms).messages == ms
    ensures FixMessages(FixMessages(ms).messages).issues == [] <==> Settles(ms, ms)
  {
    CleanUpCleanIff(ms);
    ToolCallingCleanIff(ms);
    RepairSettlesIff(ms);
  }

  // ----- pairing, read off the first run -----

  ghost predicate LeadRunAsks(c: seq<Message>) {
    c != [] && exists i, id :: 0 <= i < LeadEnd(c) && Asks(c[i], id)
  }

  lemma {:induction false} FindAsk(ms: seq<Message>, id: string) returns (i: nat)
    requires Request in Trace(ms, id)
    ensures i < |ms| && Asks(ms[i], id)
  {
    var m := Last(ms);
    if Request in TraceIn(m.role, m.content, id) {
      i := |ms| - 1;
      EventShows(m, id, Request);
    } else {
      i := FindAsk(Init(ms), id);
    }
  }

  lemma {:induction false} AskIsTraced(ms: seq<Message>, i: nat, id: string)
    requires i < |ms| && Asks(ms[i], id)
    ensures Request in Trace(ms, id)
  {
    if i == |ms| - 1 {
      AskedInHead(ms[i], id);
    } else {
      AskIsTraced(Init(ms), i, id);
    }
  }

  lemma AsksIffTraced(m: Message, id: string)
    ensures Asks(m, id) <==> Request in TraceIn(m.role, m.content, id)
  {
    if Asks(m, id) {
      AskedInHead(m, id);
    }
    if Request in TraceIn(m.role, m.content, id) {
      EventShows(m, id, Request);
    }
  }

  lemma LeadRunIsAsked(ms: seq<Message>, id: string)
    requires var m7 := Consolidate(ms).messages; m7 != [] && Asks(m7[0], id)
    ensures LeadRunAsks(FixToolCalls(ms).messages)
  {
    var c, m7 := FixToolCalls(ms).messages, Consolidate(ms).messages;
    AsManyRuns(ms);
    LeadMessageTrace(ms, id);
    AsksIffTraced(m7[0], id);
    var i := FindAsk(c[..LeadEnd(c)], id);
    assert Asks(c[i], id);
  }

  lemma LeadIsAsked(ms: seq<Message>, i: nat, id: string)
    requires var c := FixToolCalls(ms).messages; i < |c| && i < LeadEnd(c) && Asks(c[i], id)
    ensures LeadAsks(Consolidate(ms).messages)
  {
    var c, m7 := FixToolCalls(ms).messages, Consolidate(ms).messages;
    AsManyRuns(ms);
    LeadMessageTrace(ms, id);
    AskIsTraced(c[..LeadEnd(c)], i, id);
    AsksIffTraced(m7[0], id);
  }

  lemma LeadAsksIff(ms: seq<Message>)
    ensures LeadAsks(Consolidate(ms).messages) <==> LeadRunAsks(FixToolCalls(ms).messages)
  {
    var c, m7 := FixToolCalls(ms).messages, Consolidate(ms).messages;
    if LeadAsks(m7) {
      var id :| Asks(m7[0], id);
      LeadRunIsAsked(ms, id);
    }
    if LeadRunAsks(c) {
      var i: nat, id :| i < LeadEnd(c) && Asks(c[i], id);
      LeadIsAsked(ms, i, id);
    }
  }

  /** With distinct request ids every call stays paired exactly if the first run makes none, or is not dropped. */
  lemma FixedPairedIffLeadRun(ms: seq<Message>)
    requires DistinctRequests(ms)
    ensures Paired(FixMessages(ms).messages) <==> !LeadRunAsks(FixToolCalls(ms).messages)
  {
    FixedPairedIff(ms);
    LeadAsksIff(ms);
  }
}
