/** Pairing tool calls with their answers: removing requests nobody answered and answers nobody asked for. */
module ToolPairing {
  import opened Sequences
  import opened Messages
  import opened CleanPasses

  predicate Drops(role: Role, b: Block, pending: set<string>) {
    Misplaced(role, b) || (role == User && b.ToolResponse? && b.id !in pending)
  }

  function Pend(role: Role, b: Block, pending: set<string>): set<string> {
    if role == User && b.ToolResponse? then pending - {b.id}
    else if role == Assistant && b.ToolRequest? then pending + {b.id}
    else pending
  }

  datatype Sifted = Sifted(content: seq<Block>, pending: set<string>, issues: seq<Issue>)

  function Sift(role: Role, content: seq<Block>, pending: set<string>): Sifted {
    if content == [] then Sifted([], pending, [])
    else
      var s := Sift(role, Init(content), pending);
      var b := Last(content);
      if Drops(role, b, s.pending)
      then Sifted(s.content, Pend(role, b, s.pending), s.issues + [RemovedBlock(role, b)])
      else Sifted(s.content + [b], Pend(role, b, s.pending), s.issues)
  }

  datatype Sweep = Sweep(messages: seq<Message>, pending: set<string>, issues: seq<Issue>)

  function SiftAll(ms: seq<Message>): Sweep {
    if ms == [] then Sweep([], {}, [])
    else
      var w := SiftAll(Init(ms));
      var s := Sift(Last(ms).role, Last(ms).content, w.pending);
      Sweep(w.messages + [Last(ms).(content := s.content)], s.pending, w.issues + s.issues)
  }

  predicate OrphanRequest(role: Role, b: Block, pending: set<string>) {
    role == Assistant && b.ToolRequest? && b.id in pending
  }

  function Answered(role: Role, content: seq<Block>, pending: set<string>): seq<Block> {
    if content == [] then []
    else
      Answered(role, Init(content), pending)
      + if OrphanRequest(role, Last(content), pending) then [] else [Last(content)]
  }

  function OrphanIssues(role: Role, content: seq<Block>, pending: set<string>): seq<Issue> {
    if content == [] then []
    else OrphanIssues(role, Init(content), pending)
         + if OrphanRequest(role, Last(content), pending) then [RemovedOrphanRequest(Last(content).id)] else []
  }

  function DropOrphans(pending: set<string>): Message -> Fixed {
    (m: Message) => Fixed([m.(content := Answered(m.role, m.content, pending))],
                          OrphanIssues(m.role, m.content, pending))
  }

  function FixToolCalling(ms: seq<Message>): Fixed {
    var w := SiftAll(ms);
    var d := Each(w.messages, DropOrphans(w.pending));
    var e := RemoveEmptyMessages(d.messages);
    Fixed(e.messages, w.issues + d.issues + e.issues)
  }

  // ----- what happens to the trace of one id -----

  /** The id is asked for and not answered yet. */
  predicate Open(t: seq<Event>) {
    t != [] && Last(t) == Request
  }

  /** Drops every answer that does not answer anything. */
  function Kept(t: seq<Event>): seq<Event> {
    if t == [] then []
    else if Last(t) == Response && !Open(Init(t)) then Kept(Init(t))
    else Kept(Init(t)) + [Last(t)]
  }

  function NoRequests(t: seq<Event>): seq<Event> {
    if t == [] then [] else NoRequests(Init(t)) + if Last(t) == Request then [] else [Last(t)]
  }

  function FixedTrace(t: seq<Event>): seq<Event> {
    if Open(t) then NoRequests(Kept(t)) else Kept(t)
  }

  /** The traces (Request+ Response)*: requests, at least one, before every response, and a response at the end. */
  predicate Alternates(t: seq<Event>) {
    t != [] ==>
      t[0] == Request && Last(t) == Response && forall i :: 0 <= i < |t| - 1 ==> t[i] == Request || t[i + 1] == Request
  }

  lemma KeptStep(t: seq<Event>, e: Event)
    ensures Kept(t + [e]) == if e == Response && !Open(t) then Kept(t) else Kept(t) + [e]
    ensures Open(t + [e]) <==> e == Request
  {
    assert Init(t + [e]) == t;
  }

  lemma SiftEvent(role: Role, b: Block, pending: set<string>, id: string)
    ensures EventOf(role, b, id) == [Request] ==> !Drops(role, b, pending) && id in Pend(role, b, pending)
    ensures EventOf(role, b, id) == [Response] ==>
              (Drops(role, b, pending) <==> id !in pending) && id !in Pend(role, b, pending)
    ensures EventOf(role, b, id) == [] ==> (id in Pend(role, b, pending) <==> id in pending)
    ensures EventOf(role, b, id) in [[], [Request], [Response]]
  {
  }

  lemma TraceStep(t: seq<Event>, e: seq<Event>)
    requires e in [[], [Request], [Response]]
    ensures Kept(t + e) == if e == [Response] && !Open(t) then Kept(t) else Kept(t) + e
    ensures Open(t + e) <==> if e == [] then Open(t) else e == [Request]
  {
    if e == [] {
      WithEmpty(t);
      WithEmpty(Kept(t));
    } else {
      KeptStep(t, e[0]);
    }
  }

  lemma SiftStep(role: Role, b: Block, pending: set<string>, t: seq<Event>, id: string)
    requires id in pending <==> Open(t)
    ensures var kept := if Drops(role, b, pending) then [] else EventOf(role, b, id);
            Kept(t + EventOf(role, b, id)) == Kept(t) + kept
    ensures id in Pend(role, b, pending) <==> Open(t + EventOf(role, b, id))
  {
    SiftEvent(role, b, pending, id);
    TraceStep(t, EventOf(role, b, id));
    WithEmpty(Kept(t));
  }

  lemma {:induction false} SiftTrace(role: Role, content: seq<Block>, pending: set<string>, t: seq<Event>, id: string)
    requires id in pending <==> Open(t)
    ensures Kept(t + TraceIn(role, content, id)) == Kept(t) + TraceIn(role, Sift(role, content, pending).content, id)
    ensures id in Sift(role, content, pending).pending <==> Open(t + TraceIn(role, content, id))
  {
    if content == [] {
      assert t + [] == t && Kept(t) + [] == Kept(t);
    } else {
      var init, b := Init(content), Last(content);
      var s := Sift(role, init, pending);
      var before, kept, e := TraceIn(role, init, id), TraceIn(role, s.content, id), EventOf(role, b, id);
      SiftTrace(role, init, pending, t, id);
      SiftStep(role, b, s.pending, t + before, id);
      Assoc(t, before, e);
      Assoc(Kept(t), kept, e);
      TraceInStep(role, s.content, b, id);
      if Drops(role, b, s.pending) {
        assert Kept(t + before) + [] == Kept(t + before);
      }
    }
  }

  lemma {:induction false} SiftWellPlaced(role: Role, content: seq<Block>, pending: set<string>)
    ensures WellPlacedIn(role, Sift(role, content, pending).content)
  {
    if content != [] {
      SiftWellPlaced(role, Init(content), pending);
    }
  }

  /** The first sweep treats every id on its own. */
  lemma {:induction false} SiftAllTrace(ms: seq<Message>, id: string)
    ensures Trace(SiftAll(ms).messages, id) == Kept(Trace(ms, id))
    ensures id in SiftAll(ms).pending <==> Open(Trace(ms, id))
    ensures WellPlaced(SiftAll(ms).messages) && |SiftAll(ms).messages| == |ms|
  {
    if ms != [] {
      var w := SiftAll(Init(ms));
      var m := Last(ms).(content := Sift(Last(ms).role, Last(ms).content, w.pending).content);
      SiftAllTrace(Init(ms), id);
      SiftTrace(Last(ms).role, Last(ms).content, w.pending, Trace(Init(ms), id), id);
      SiftWellPlaced(Last(ms).role, Last(ms).content, w.pending);
      assert Init(w.messages + [m]) == w.messages;
    }
  }

  lemma AnsweredStep(role: Role, b: Block, pending: set<string>, id: string)
    ensures var e := EventOf(role, b, id);
            (if OrphanRequest(role, b, pending) then [] else e) == if id in pending then NoRequests(e) else e
  {
    var e := EventOf(role, b, id);
    assert e != [] ==> Init(e) == [] && NoRequests(e) == if e[0] == Request then [] else e;
  }

  lemma {:induction false} AnsweredTrace(role: Role, content: seq<Block>, pending: set<string>, id: string)
    ensures TraceIn(role, Answered(role, content, pending), id)
            == if id in pending then NoRequests(TraceIn(role, content, id)) else TraceIn(role, content, id)
  {
    if content != [] {
      var init, b := Init(content), Last(content);
      var kept := Answered(role, init, pending);
      AnsweredTrace(role, init, pending, id);
      AnsweredStep(role, b, pending, id);
      NoRequestsConcat(TraceIn(role, init, id), EventOf(role, b, id));
      TraceInStep(role, kept, b, id);
      assert kept + [] == kept;
    }
  }

  lemma {:induction false} AnsweredWellPlaced(role: Role, content: seq<Block>, pending: set<string>)
    requires WellPlacedIn(role, content)
    ensures WellPlacedIn(role, Answered(role, content, pending))
  {
    if content != [] {
      AnsweredWellPlaced(role, Init(content), pending);
    }
  }

  lemma {:induction false} NoRequestsConcat(a: seq<Event>, b: seq<Event>)
    ensures NoRequests(a + b) == NoRequests(a) + NoRequests(b)
  {
    if b == [] {
      assert a + b == a;
    } else {
      InitOfConcat(a, b);
      NoRequestsConcat(a, Init(b));
      Assoc(NoRequests(a), NoRequests(Init(b)), if Last(b) == Request then [] else [Last(b)]);
    }
  }

  lemma {:induction false} OrphanIssuesIff(role: Role, content: seq<Block>, pending: set<string>)
    ensures OrphanIssues(role, content, pending) == [] ==> Answered(role, content, pending) == content
  {
    if content != [] {
      OrphanIssuesIff(role, Init(content), pending);
      assert content == Init(content) + [Last(content)];
    }
  }

  lemma DropOrphansTame(pending: set<string>)
    ensures Tame(DropOrphans(pending))
  {
    var f := DropOrphans(pending);
    forall m ensures TameOn(f(m), m) {
      OrphanIssuesIff(m.role, m.content, pending);
      if WellPlacedIn(m.role, m.content) {
        AnsweredWellPlaced(m.role, m.content, pending);
      }
    }
  }

  lemma {:induction false} DropOrphansTrace(ms: seq<Message>, pending: set<string>, id: string)
    ensures Trace(Each(ms, DropOrphans(pending)).messages, id)
            == if id in pending then NoRequests(Trace(ms, id)) else Trace(ms, id)
  {
    if ms != [] {
      var f := DropOrphans(pending);
      var r, m := Each(Init(ms), f), f(Last(ms)).messages[0];
      DropOrphansTrace(Init(ms), pending, id);
      AnsweredTrace(Last(ms).role, Last(ms).content, pending, id);
      NoRequestsConcat(Trace(Init(ms), id), TraceIn(Last(ms).role, Last(ms).content, id));
      assert Init(r.messages + [m]) == r.messages;
    }
  }

  /** What the whole pass does to the trace of an id, for any conversation whatever. */
  lemma FixedTraceOf(ms: seq<Message>, id: string)
    ensures Trace(FixToolCalling(ms).messages, id) == FixedTrace(Trace(ms, id))
  {
    var w := SiftAll(ms);
    SiftAllTrace(ms, id);
    DropOrphansTrace(w.messages, w.pending, id);
    DropEmptyGentle();
    EachKeepsTrace(Each(w.messages, DropOrphans(w.pending)).messages, DropEmpty, id);
  }

  // ----- when there is nothing to complain about -----

  lemma {:induction false} KeptAtMost(t: seq<Event>)
    ensures |Kept(t)| <= |t|
  {
    if t != [] {
      KeptAtMost(Init(t));
    }
  }

  lemma {:induction false} KeptPrefix(t: seq<Event>, u: seq<Event>)
    requires Kept(t + u) == t + u
    ensures Kept(t) == t
  {
    if u == [] {
      assert t + u == t;
    } else {
      assert Init(t + u) == t + Init(u) && Last(t + u) == Last(u);
      KeptAtMost(t + Init(u));
      assert Kept(t + u)[..|t + u| - 1] == t + Init(u);
      KeptPrefix(t, Init(u));
    }
  }

  /** A trace in which every response answers a request. */
  predicate Answering(t: seq<Event>) {
    (t != [] ==> t[0] == Request) && forall i :: 0 <= i < |t| - 1 ==> t[i] == Request || t[i + 1] == Request
  }

  lemma AnsweringRequest(t: seq<Event>)
    ensures Answering(t + [Request]) <==> Answering(t)
  {
    var u := t + [Request];
    assert forall i :: 0 <= i < |t| ==> u[i] == t[i];
  }

  lemma AnsweringResponse(t: seq<Event>)
    ensures Answering(t + [Response]) <==> Answering(t) && Open(t)
  {
    var u := t + [Response];
    assert forall i :: 0 <= i < |t| ==> u[i] == t[i];
    if t != [] && Answering(u) {
      var k := |t| - 1;
      assert u[k + 1] == Response;
    }
  }

  lemma KeptWholeIff(t: seq<Event>, e: Event)
    ensures Kept(t + [e]) == t + [e] <==> Kept(t) == t && (e == Response ==> Open(t))
  {
    KeptStep(t, e);
    KeptAtMost(t);
    if Kept(t) + [e] == t + [e] {
      assert (Kept(t) + [e])[..|t|] == Kept(t) && (t + [e])[..|t|] == t;
    }
  }

  /** A trace that is left alone is one in which every response answers a request. */
  lemma {:induction false} KeptClosedIff(t: seq<Event>)
    ensures Kept(t) == t <==> Answering(t)
  {
    if t != [] {
      KeptClosedIff(Init(t));
      SplitLast(t);
      KeptWholeIff(Init(t), Last(t));
      if Last(t) == Request {
        AnsweringRequest(Init(t));
      } else {
        AnsweringResponse(Init(t));
      }
    }
  }

  lemma AlternatesIff(t: seq<Event>)
    ensures Alternates(t) <==> Kept(t) == t && !Open(t)
  {
    KeptClosedIff(t);
  }

  lemma SiftCleanStep(role: Role, content: seq<Block>, pending: set<string>)
    requires content != [] && Sift(role, content, pending).issues == []
    ensures var s := Sift(role, Init(content), pending);
            && s.issues == [] && !Drops(role, Last(content), s.pending)
            && Sift(role, content, pending).content == s.content + [Last(content)]
  {
    ConcatEmpty(Sift(role, Init(content), pending).issues, [RemovedBlock(role, Last(content))]);
  }

  lemma {:induction false} SiftCleanIsSame(role: Role, content: seq<Block>, pending: set<string>)
    requires Sift(role, content, pending).issues == []
    ensures Sift(role, content, pending).content == content && WellPlacedIn(role, content)
  {
    if content != [] {
      SiftCleanStep(role, content, pending);
      SiftCleanIsSame(role, Init(content), pending);
      WellPlacedStep(role, content);
      SplitLast(content);
    }
  }

  lemma {:induction false} SiftAllCleanIsSame(ms: seq<Message>)
    requires SiftAll(ms).issues == []
    ensures SiftAll(ms).messages == ms && WellPlaced(ms)
  {
    if ms != [] {
      var w, m := SiftAll(Init(ms)), Last(ms);
      ConcatEmpty(w.issues, Sift(m.role, m.content, w.pending).issues);
      SiftAllCleanIsSame(Init(ms));
      SiftCleanIsSame(m.role, m.content, w.pending);
      AllWellPlacedStep(ms);
      SplitLast(ms);
    }
  }

  /** An answer to nothing shows in the trace of its id. */
  lemma {:induction false} SiftClean(role: Role, content: seq<Block>, pending: set<string>, before: seq<Message>)
    requires WellPlacedIn(role, content)
    requires forall id :: id in pending <==> Open(Trace(before, id))
    requires forall id :: KeptWhole(Trace(before, id), TraceIn(role, content, id))
    ensures Sift(role, content, pending).issues == []
  {
    if content != [] {
      var init, b := Init(content), Last(content);
      forall id ensures KeptWhole(Trace(before, id), TraceIn(role, init, id)) {
        assert KeptWhole(Trace(before, id), TraceIn(role, content, id));
        Assoc(Trace(before, id), TraceIn(role, init, id), EventOf(role, b, id));
        KeptPrefix(Trace(before, id) + TraceIn(role, init, id), EventOf(role, b, id));
      }
      SiftClean(role, init, pending, before);
      if b.ToolResponse? && role == User {
        SiftTrace(role, init, pending, Trace(before, b.id), b.id);
        assert KeptWhole(Trace(before, b.id), TraceIn(role, content, b.id));
        AnswerIsKept(Trace(before, b.id), TraceIn(role, init, b.id));
      }
    }
  }

  predicate KeptWhole(t: seq<Event>, u: seq<Event>) {
    Kept(t + u) == t + u
  }

  lemma AnswerIsKept(t: seq<Event>, u: seq<Event>)
    requires KeptWhole(t, u + [Response])
    ensures Open(t + u)
  {
    Assoc(t, u, [Response]);
    KeptStep(t + u, Response);
    KeptAtMost(t + u);
  }

  lemma {:induction false} SiftAllClean(ms: seq<Message>)
    requires WellPlaced(ms) && forall id :: Kept(Trace(ms, id)) == Trace(ms, id)
    ensures SiftAll(ms).issues == []
  {
    if ms != [] {
      var init, m := Init(ms), Last(ms);
      forall id ensures KeptWhole(Trace(init, id), TraceIn(m.role, m.content, id))
                        && Kept(Trace(init, id)) == Trace(init, id)
                        && (id in SiftAll(init).pending <==> Open(Trace(init, id))) {
        assert Kept(Trace(ms, id)) == Trace(ms, id);
        KeptPrefix(Trace(init, id), TraceIn(m.role, m.content, id));
        SiftAllTrace(init, id);
      }
      SiftAllClean(init);
      SiftClean(m.role, m.content, SiftAll(init).pending, init);
    }
  }

  ghost predicate CallsInOrder(ms: seq<Message>) {
    WellPlaced(ms) && forall id :: Alternates(Trace(ms, id))
  }

  predicate NoneEmpty(ms: seq<Message>) {
    forall i :: 0 <= i < |ms| ==> !EmptyContent(ms[i].content)
  }

  lemma NoneEmptyIff(ms: seq<Message>)
    ensures RemoveEmptyMessages(ms).issues == [] <==> NoneEmpty(ms)
    ensures RemoveEmptyMessages(ms).issues == [] ==> RemoveEmptyMessages(ms).messages == ms
  {
    DropEmptyGentle();
    EachClean(ms, DropEmpty);
  }

  lemma {:induction false} RemovedNoneEmpty(ms: seq<Message>)
    ensures NoneEmpty(RemoveEmptyMessages(ms).messages)
  {
    if ms != [] {
      RemovedNoneEmpty(Init(ms));
    }
  }

  lemma {:induction false} NoRequestsHasNone(t: seq<Event>)
    ensures Request !in NoRequests(t)
  {
    if t != [] {
      NoRequestsHasNone(Init(t));
    }
  }

  lemma CleanMeansInOrder(ms: seq<Message>)
    requires FixToolCalling(ms).issues == []
    ensures CallsInOrder(ms) && NoneEmpty(ms) && FixToolCalling(ms).messages == ms
  {
    var w := SiftAll(ms);
    SiftAllCleanIsSame(ms);
    DropOrphansTame(w.pending);
    EachClean(ms, DropOrphans(w.pending));
    NoneEmptyIff(ms);
    forall id ensures Alternates(Trace(ms, id)) {
      var t := Trace(ms, id);
      SiftAllTrace(ms, id);
      DropOrphansTrace(ms, w.pending, id);
      NoRequestsHasNone(t);
      AlternatesIff(t);
    }
  }

  lemma InOrderMeansClean(ms: seq<Message>)
    requires CallsInOrder(ms) && NoneEmpty(ms)
    ensures FixToolCalling(ms).issues == []
  {
    var w := SiftAll(ms);
    forall id ensures Kept(Trace(ms, id)) == Trace(ms, id) && id !in w.pending {
      AlternatesIff(Trace(ms, id));
      SiftAllTrace(ms, id);
    }
    SiftAllClean(ms);
    SiftAllCleanIsSame(ms);
    assert w.pending == {};
    DropOrphansTame({});
    NothingPending(ms);
    NoneEmptyIff(ms);
  }

  lemma {:induction false} NothingPending(ms: seq<Message>)
    ensures Each(ms, DropOrphans({})).issues == [] && Each(ms, DropOrphans({})).messages == ms
  {
    DropOrphansTame({});
    forall i | 0 <= i < |ms| ensures DropOrphans({})(ms[i]).issues == [] {
      NoOrphans(ms[i].role, ms[i].content);
    }
    EachClean(ms, DropOrphans({}));
  }

  lemma {:induction false} NoOrphans(role: Role, content: seq<Block>)
    ensures OrphanIssues(role, content, {}) == []
  {
    if content != [] {
      NoOrphans(role, Init(content));
    }
  }

  /**
   The pass has nothing to report exactly if every call is in order and no message is empty; then it changes
   nothing.
   */
  lemma ToolCallingCleanIff(ms: seq<Message>)
    ensures FixToolCalling(ms).issues == [] <==> CallsInOrder(ms) && NoneEmpty(ms)
    ensures FixToolCalling(ms).issues == [] ==> FixToolCalling(ms).messages == ms
  {
    if FixToolCalling(ms).issues == [] {
      CleanMeansInOrder(ms);
    } else if CallsInOrder(ms) && NoneEmpty(ms) {
      InOrderMeansClean(ms);
    }
  }

  // ----- pairing -----

  /** Every id is asked for once and answered once, in this order, or not mentioned at all. */
  ghost predicate Paired(ms: seq<Message>) {
    WellPlaced(ms) && forall id :: PairTrace(Trace(ms, id))
  }

  predicate PairTrace(t: seq<Event>) {
    t == [] || t == [Request, Response]
  }

  function Requests(t: seq<Event>): nat {
    if t == [] then 0 else Requests(Init(t)) + if Last(t) == Request then 1 else 0
  }

  ghost predicate DistinctRequests(ms: seq<Message>) {
    forall id :: Requests(Trace(ms, id)) <= 1
  }

  lemma {:induction false} KeptOfOneRequest(t: seq<Event>)
    requires Requests(t) <= 1
    ensures Requests(t) == 0 ==> Kept(t) == []
    ensures Requests(t) == 1 ==> Kept(t) == if Open(t) then [Request] else [Request, Response]
  {
    if t != [] {
      KeptOfOneRequest(Init(t));
    }
  }

  lemma FixedIsPair(t: seq<Event>)
    requires Requests(t) <= 1
    ensures PairTrace(FixedTrace(t))
  {
    KeptOfOneRequest(t);
    NoRequestsOfOne();
  }

  lemma NoRequestsOfOne()
    ensures NoRequests([Request]) == []
  {
    assert Init([Request]) == [] && NoRequests([]) == [];
  }

  lemma FixedWellPlaced(ms: seq<Message>)
    ensures WellPlaced(FixToolCalling(ms).messages) && NoneEmpty(FixToolCalling(ms).messages)
  {
    var w := SiftAll(ms);
    SiftAllTrace(ms, "");
    DropOrphansTame(w.pending);
    EachStems(w.messages, DropOrphans(w.pending));
    var d := Each(w.messages, DropOrphans(w.pending)).messages;
    DropEmptyGentle();
    EachStems(d, DropEmpty);
    RemovedNoneEmpty(d);
  }

  /** If no two requests share an id, the pass leaves exactly the calls that were asked for and answered. */
  lemma PairedAfterFix(ms: seq<Message>)
    requires DistinctRequests(ms)
    ensures Paired(FixToolCalling(ms).messages)
  {
    FixedWellPlaced(ms);
    forall id ensures PairTrace(Trace(FixToolCalling(ms).messages, id)) {
      FixedTraceOf(ms, id);
      FixedIsPair(Trace(ms, id));
    }
  }

  predicate AnsweredOnce(t: seq<Event>) {
    exists i, j :: 0 <= i < j < |t| && t[i] == Request && t[j] == Response
  }

  /** An id that was answered and then asked for again, without an answer. */
  predicate Reasked(t: seq<Event>) {
    Open(t) && AnsweredOnce(t)
  }

  lemma AnsweredOnceRequest(t: seq<Event>)
    ensures AnsweredOnce(t + [Request]) <==> AnsweredOnce(t)
  {
    var u := t + [Request];
    if AnsweredOnce(t) {
      var i, j :| 0 <= i < j < |t| && t[i] == Request && t[j] == Response;
      assert u[i] == Request && u[j] == Response;
    }
  }

  lemma AnsweredOnceResponse(t: seq<Event>)
    ensures AnsweredOnce(t + [Response]) <==> Request in t
  {
    var u := t + [Response];
    if Request in t {
      var i :| 0 <= i < |t| && t[i] == Request;
      assert u[i] == Request && u[|t|] == Response;
    }
    if AnsweredOnce(u) {
      var i, j :| 0 <= i < j < |u| && u[i] == Request && u[j] == Response;
      assert t[i] == Request;
    }
  }

  /** After a response, or at the start, a request in the trace has been answered. */
  lemma ClosedIsAnswered(t: seq<Event>)
    requires !Open(t)
    ensures AnsweredOnce(t) <==> Request in t
  {
    if t != [] {
      SplitLast(t);
      AnsweredOnceResponse(Init(t));
    }
  }

  lemma {:induction false} KeptHasResponseIff(t: seq<Event>)
    ensures Response in Kept(t) <==> AnsweredOnce(t)
  {
    if t != [] {
      var init := Init(t);
      KeptHasResponseIff(init);
      SplitLast(t);
      KeptStep(init, Last(t));
      if Last(t) == Request {
        AnsweredOnceRequest(init);
      } else {
        AnsweredOnceResponse(init);
        if Open(init) {
          assert Last(init) in init;
        } else {
          ClosedIsAnswered(init);
        }
      }
    }
  }

  lemma {:induction false} KeptTwice(t: seq<Event>)
    ensures Kept(Kept(t)) == Kept(t) && (Open(Kept(t)) <==> Open(t))
  {
    if t != [] {
      KeptTwice(Init(t));
      KeptStep(Kept(Init(t)), Last(t));
      if Last(t) == Response && !Open(Init(t)) {
        assert !Open(Kept(Init(t)));
      }
    }
  }

  lemma {:induction false} NoRequestsKeepsResponses(t: seq<Event>)
    ensures Response in NoRequests(t) <==> Response in t
  {
    if t != [] {
      NoRequestsKeepsResponses(Init(t));
      assert t == Init(t) + [Last(t)];
    }
  }

  lemma NoRequestsAlternatesIff(t: seq<Event>)
    ensures Alternates(NoRequests(t)) <==> Response !in t
  {
    NoRequestsHasNone(t);
    NoRequestsKeepsResponses(t);
    var r := NoRequests(t);
    if r != [] {
      assert r[0] in r;
    }
  }

  lemma FixedAlternatesIff(t: seq<Event>)
    ensures Alternates(FixedTrace(t)) <==> !Reasked(t)
  {
    KeptHasResponseIff(t);
    if Open(t) {
      NoRequestsAlternatesIff(Kept(t));
    } else {
      KeptTwice(t);
      AlternatesIff(Kept(t));
    }
  }

  lemma TraceInOrderIff(ms: seq<Message>, id: string)
    ensures Alternates(Trace(FixToolCalling(ms).messages, id)) <==> !Reasked(Trace(ms, id))
  {
    FixedTraceOf(ms, id);
    FixedAlternatesIff(Trace(ms, id));
  }

  ghost predicate NeverReasked(ms: seq<Message>) {
    forall id :: !Reasked(Trace(ms, id))
  }

  lemma OrderRestoredIff(ms: seq<Message>)
    ensures CallsInOrder(FixToolCalling(ms).messages) <==> NeverReasked(ms)
  {
    var fixed := FixToolCalling(ms).messages;
    FixedWellPlaced(ms);
    if CallsInOrder(fixed) {
      forall id ensures !Reasked(Trace(ms, id)) {
        TraceInOrderIff(ms, id);
        assert Alternates(Trace(fixed, id));
      }
    }
    if NeverReasked(ms) {
      forall id ensures Alternates(Trace(fixed, id)) {
        TraceInOrderIff(ms, id);
      }
    }
  }

  /**
   Fixing once is enough exactly if no id is asked for again after its answer and then left open:
   removing its requests by id also removes the one that was answered.
   */
  lemma SecondRunCleanIff(ms: seq<Message>)
    ensures FixToolCalling(FixToolCalling(ms).messages).issues == [] <==> NeverReasked(ms)
  {
    OrderRestoredIff(ms);
    FixedWellPlaced(ms);
    ToolCallingCleanIff(FixToolCalling(ms).messages);
  }

  /** With distinct request ids a second run never reports anything. */
  lemma SecondRunClean(ms: seq<Message>)
    requires DistinctRequests(ms)
    ensures FixToolCalling(FixToolCalling(ms).messages).issues == []
    ensures FixToolCalling(FixToolCalling(ms).messages).messages == FixToolCalling(ms).messages
  {
    var fixed := FixToolCalling(ms).messages;
    PairedAfterFix(ms);
    FixedWellPlaced(ms);
    forall id ensures Alternates(Trace(fixed, id)) {
      assert PairTrace(Trace(fixed, id));
    }
    ToolCallingCleanIff(fixed);
  }

  // ----- pairs in different messages -----

  lemma {:induction false} OneKindOfEvent(role: Role, content: seq<Block>, id: string)
    ensures forall e :: e in TraceIn(role, content, id) ==> e == if role == Assistant then Request else Response
  {
    if content != [] {
      OneKindOfEvent(role, Init(content), id);
    }
  }

  ghost predicate Asks(m: Message, id: string) {
    m.role == Assistant && exists i :: 0 <= i < |m.content| && m.content[i].ToolRequest? && m.content[i].id == id
  }

  ghost predicate Answers(m: Message, id: string) {
    m.role == User && exists i :: 0 <= i < |m.content| && m.content[i].ToolResponse? && m.content[i].id == id
  }

  lemma EventShows(m: Message, id: string, e: Event)
    requires e in TraceIn(m.role, m.content, id)
    ensures if e == Request then Asks(m, id) else Answers(m, id)
  {
    var i := EventSource(m.role, m.content, id, e);
    assert EventOf(m.role, m.content[i], id) == [e];
  }

  lemma {:induction false} FindRequest(ms: seq<Message>, id: string) returns (i: nat)
    requires Trace(ms, id) == [Request]
    ensures i < |ms| && Asks(ms[i], id)
  {
    var here := TraceIn(Last(ms).role, Last(ms).content, id);
    if here == [] {
      assert Trace(Init(ms), id) + [] == Trace(Init(ms), id);
      i := FindRequest(Init(ms), id);
    } else {
      i := |ms| - 1;
      assert Last(Trace(ms, id)) == Last(here);
      assert Request in here;
      EventShows(Last(ms), id, Request);
    }
  }

  /** A paired call is asked for in a strictly earlier message than the one that answers it. */
  lemma {:induction false} RequestBeforeResponse(ms: seq<Message>, id: string) returns (i: nat, j: nat)
    requires Trace(ms, id) == [Request, Response]
    ensures i < j < |ms| && Asks(ms[i], id) && Answers(ms[j], id)
  {
    var before, here := Trace(Init(ms), id), TraceIn(Last(ms).role, Last(ms).content, id);
    if here == [] {
      assert before + [] == before;
      i, j := RequestBeforeResponse(Init(ms), id);
    } else {
      OneKindOfEvent(Last(ms).role, Last(ms).content, id);
      assert Last(Trace(ms, id)) == Last(here) && Last(here) in here;
      EventShows(Last(ms), id, Response);
      assert here[0] in here && Trace(ms, id)[|before|] == here[0];
      assert before == Trace(ms, id)[..|before|];
      i := FindRequest(Init(ms), id);
      j := |ms| - 1;
    }
  }
}
