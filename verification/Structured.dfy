/**
 Picking the JSON objects out of a model's reply that may be its structured answer.

 A reply may open with a scratchpad closed by a terminator; objects quoted in the scratchpad must
 never be taken for the answer. A candidate is a span of the reply.
 */
module Structured {
  import opened Wrappers
  import opened JsonScan
  import opened JsonSyntax
  import opened LeadingObject
  import opened Markers

  const TERMINATOR := "</analysis>"
  const FENCE := "```json"

  function Shift(span: Span, k: nat): Span {
    Span(span.start + k, span.end + k)
  }

  function Listed(o: Option<Span>): seq<Span> {
    match o case Some(s) => [s] case None => []
  }

  /** The object that starts at index at, white space aside. */
  function ObjectAt(text: string, at: nat): Option<Span>
    requires at <= |text|
  {
    match LeadingSpan(text[at..]) case Some(s) => Some(Shift(s, at)) case None => None
  }

  predicate FitIn(text: string, pat: string, ms: seq<nat>) {
    forall i :: 0 <= i < |ms| ==> ms[i] + |pat| <= |text|
  }

  /** The first k parts put together, last part first. */
  function Backwards(parts: seq<seq<Span>>, k: nat): seq<Span>
    requires k <= |parts|
  {
    if k == 0 then [] else parts[k - 1] + Backwards(parts, k - 1)
  }

  function AfterFences(tail: string, fences: seq<nat>): seq<seq<Span>>
    requires FitIn(tail, FENCE, fences)
  {
    seq(|fences|, i requires 0 <= i < |fences| => Listed(ObjectAt(tail, fences[i] + |FENCE|)))
  }

  /** The objects after the fences, last fence first. */
  function FencedBlocks(tail: string): seq<Span> {
    var fences := Matches(tail, FENCE, 0);
    Backwards(AfterFences(tail, fences), |fences|)
  }

  predicate InText(text: string, span: Span) {
    span.start < span.end <= |text|
  }

  /** The object holds every terminator that the tail still holds. */
  predicate Keeps(tail: string, span: Span) {
    InText(tail, span) && Count(tail[span.start..span.end], TERMINATOR) == Count(tail, TERMINATOR)
  }

  function Kept(tail: string, spans: seq<Span>): seq<Span> {
    if spans == [] then []
    else (if Keeps(tail, spans[0]) then [spans[0]] else []) + Kept(tail, spans[1..])
  }

  function ShiftAll(spans: seq<Span>, k: nat): seq<Span> {
    seq(|spans|, i requires 0 <= i < |spans| => Shift(spans[i], k))
  }

  function Proposed(tail: string): seq<Span> {
    FencedBlocks(tail) + Listed(LeadingSpan(tail))
  }

  /** The candidates that start at one cut of the text. */
  function AtCut(text: string, cut: nat): seq<Span>
    requires cut <= |text|
  {
    ShiftAll(Kept(text[cut..], Proposed(text[cut..])), cut)
  }

  predicate CutsIn(text: string, cuts: seq<nat>) {
    forall i :: 0 <= i < |cuts| ==> cuts[i] <= |text|
  }

  function AtCuts(text: string, cuts: seq<nat>): seq<seq<Span>>
    requires CutsIn(text, cuts)
  {
    seq(|cuts|, i requires 0 <= i < |cuts| => AtCut(text, cuts[i]))
  }

  /** The ends of the terminators, or the start of the text when there is none. */
  function Cuts(text: string): (cuts: seq<nat>)
    ensures CutsIn(text, cuts)
  {
    var ms := Matches(text, TERMINATOR, 0);
    if ms == [] then [0] else seq(|ms|, i requires 0 <= i < |ms| => ms[i] + |TERMINATOR|)
  }

  function TextAt(text: string, span: Span): string {
    if InText(text, span) then text[span.start..span.end] else ""
  }

  /** Drops every candidate with the same text as the one kept before it. */
  function Dedup(text: string, spans: seq<Span>): seq<Span>
    decreases |spans|
  {
    if |spans| < 2 then spans
    else if TextAt(text, spans[0]) == TextAt(text, spans[1]) then Dedup(text, [spans[0]] + spans[2..])
    else [spans[0]] + Dedup(text, spans[1..])
  }

  function AllProposed(text: string): seq<Span> {
    Backwards(AtCuts(text, Cuts(text)), |Cuts(text)|) + Listed(LeadingSpan(text))
  }

  function Candidates(text: string): seq<Span> {
    Dedup(text, AllProposed(text))
  }

  lemma NextPart(done: seq<Span>, parts: seq<seq<Span>>, k: nat)
    requires k < |parts|
    ensures done + Backwards(parts, k + 1) == (done + parts[k]) + Backwards(parts, k)
  {
  }

  method CollectAtCuts(text: string, cuts: seq<nat>) returns (candidates: seq<Span>)
    requires CutsIn(text, cuts)
    ensures candidates == Backwards(AtCuts(text, cuts), |cuts|)
  {
    ghost var parts := AtCuts(text, cuts);
    ghost var goal := Backwards(parts, |parts|);
    candidates := [];
    var k := |cuts|;
    while k > 0
      invariant 0 <= k <= |cuts|
      invariant candidates + Backwards(parts, k) == goal
    {
      k := k - 1;
      NextPart(candidates, parts, k);
      var here := AtCut(text, cuts[k]);
      assert parts[k] == here;
      candidates := candidates + here;
    }
    assert candidates + [] == candidates;
  }

  method JsonCandidates(text: string) returns (candidates: seq<Span>)
    ensures candidates == Candidates(text)
  {
    candidates := CollectAtCuts(text, Cuts(text));
    var whole := FindLeadingObject(text);
    candidates := Dedup(text, candidates + Listed(whole));
  }

  // ----- the markers -----

  lemma MarkersHaveNoBorder()
    ensures NoBorder(TERMINATOR) && NoBorder(FENCE)
  {
    forall k | 0 < k < |TERMINATOR| ensures Clash(TERMINATOR, k) {
      assert TERMINATOR[k + 0] != TERMINATOR[0];
    }
    forall k | 0 < k < |FENCE| ensures Clash(FENCE, k) {
      var j := if k == 1 then 2 else if k == 2 then 1 else 0;
      assert FENCE[k + j] != FENCE[j];
    }
  }

  lemma TerminatorMatches(text: string)
    ensures forall p :: p in Matches(text, TERMINATOR, 0) <==> 0 <= p && OccursAt(text, TERMINATOR, p)
  {
    MarkersHaveNoBorder();
    MatchesAreOccurrences(text, TERMINATOR, 0);
  }

  // ----- membership -----

  lemma {:induction false} DedupTakesFrom(text: string, spans: seq<Span>)
    ensures forall s :: s in Dedup(text, spans) ==> s in spans
    decreases |spans|
  {
    if |spans| >= 2 {
      if TextAt(text, spans[0]) == TextAt(text, spans[1]) {
        DedupTakesFrom(text, [spans[0]] + spans[2..]);
      } else {
        DedupTakesFrom(text, spans[1..]);
      }
    }
  }

  ghost predicate HasText(text: string, spans: seq<Span>, t: string) {
    exists d :: d in spans && TextAt(text, d) == t
  }

  lemma {:induction false} DedupKeepsTexts(text: string, spans: seq<Span>, t: string)
    requires HasText(text, spans, t)
    ensures HasText(text, Dedup(text, spans), t)
    decreases |spans|
  {
    if |spans| >= 2 {
      var s :| s in spans && TextAt(text, s) == t;
      if TextAt(text, spans[0]) == TextAt(text, spans[1]) {
        var shorter := [spans[0]] + spans[2..];
        assert (if s == spans[1] then spans[0] else s) in shorter;
        DedupKeepsTexts(text, shorter, t);
      } else if s == spans[0] {
        assert s in Dedup(text, spans);
      } else {
        assert s in spans[1..];
        DedupKeepsTexts(text, spans[1..], t);
      }
    }
  }

  lemma {:induction false} KeptKeeps(tail: string, spans: seq<Span>)
    ensures forall s :: s in Kept(tail, spans) <==> s in spans && Keeps(tail, s)
  {
    if spans != [] {
      KeptKeeps(tail, spans[1..]);
    }
  }

  lemma {:induction false} BackwardsFrom(parts: seq<seq<Span>>, k: nat, s: Span) returns (i: nat)
    requires k <= |parts| && s in Backwards(parts, k)
    ensures i < k && s in parts[i]
  {
    if s in parts[k - 1] {
      i := k - 1;
    } else {
      i := BackwardsFrom(parts, k - 1, s);
    }
  }

  lemma {:induction false} BackwardsHas(parts: seq<seq<Span>>, k: nat, i: nat, s: Span)
    requires i < k <= |parts| && s in parts[i]
    ensures s in Backwards(parts, k)
  {
    if i < k - 1 {
      BackwardsHas(parts, k - 1, i, s);
    }
  }

  // ----- safety -----

  /**
   Every terminator lies in front of the span or inside it, and at least one lies in front if
   there is any: what the span holds cannot be part of the scratchpad.
   */
  ghost predicate PastScratchpad(text: string, span: Span) {
    && InText(text, span)
    && (forall p :: OccursAt(text, TERMINATOR, p) ==>
          p + |TERMINATOR| <= span.start || (span.start <= p && p + |TERMINATOR| <= span.end))
    && ((exists p :: OccursAt(text, TERMINATOR, p)) ==>
          exists p :: OccursAt(text, TERMINATOR, p) && p + |TERMINATOR| <= span.start)
  }

  ghost predicate CutAfterTerminator(text: string, cut: int) {
    OccursAt(text, TERMINATOR, cut - |TERMINATOR|)
  }

  lemma CutCases(text: string, i: nat)
    requires i < |Cuts(text)|
    ensures CutAfterTerminator(text, Cuts(text)[i])
            || (Cuts(text)[i] == 0 && forall p :: !OccursAt(text, TERMINATOR, p))
  {
    TerminatorMatches(text);
    var ms := Matches(text, TERMINATOR, 0);
    if ms != [] {
      assert ms[i] in ms;
    } else {
      forall p ensures !OccursAt(text, TERMINATOR, p) {
        if 0 <= p {
          assert p !in ms;
        }
      }
    }
  }

  /** Behind a cut, a terminator is either wholly in front of it or wholly in the tail. */
  lemma TerminatorSide(text: string, cut: nat, p: int)
    requires cut <= |text| && OccursAt(text, TERMINATOR, p)
    requires CutAfterTerminator(text, cut) || cut == 0
    ensures p + |TERMINATOR| <= cut || OccursAt(text[cut..], TERMINATOR, p - cut)
  {
    if p + |TERMINATOR| > cut {
      if p < cut {
        MarkersHaveNoBorder();
        NoOverlap(text, TERMINATOR, cut - |TERMINATOR|, p);
      }
      assert text[cut..] == text[cut..|text|];
      PartOccurrence(text, TERMINATOR, cut, |text|, p - cut);
    }
  }

  lemma AtCutIsSafe(text: string, i: nat, span: Span)
    requires i < |Cuts(text)| && span in AtCut(text, Cuts(text)[i])
    ensures PastScratchpad(text, span)
  {
    var cut := Cuts(text)[i];
    var tail := text[cut..];
    var kept := Kept(tail, Proposed(tail));
    KeptKeeps(tail, Proposed(tail));
    var k :| 0 <= k < |kept| && span == Shift(kept[k], cut);
    assert kept[k] in kept;
    MarkersHaveNoBorder();
    PartHasAllIffSameCount(tail, TERMINATOR, kept[k].start, kept[k].end);
    CutCases(text, i);
    forall p | OccursAt(text, TERMINATOR, p)
      ensures p + |TERMINATOR| <= span.start || (span.start <= p && p + |TERMINATOR| <= span.end)
    {
      TerminatorSide(text, cut, p);
    }
  }

  /** No candidate comes from the scratchpad, unless the whole reply starts with it. */
  lemma CandidatesAreSafe(text: string, span: Span)
    requires span in Candidates(text)
    ensures LeadingSpan(text) == Some(span) || PastScratchpad(text, span)
  {
    DedupTakesFrom(text, AllProposed(text));
    if LeadingSpan(text) != Some(span) {
      var i := BackwardsFrom(AtCuts(text, Cuts(text)), |Cuts(text)|, span);
      AtCutIsSafe(text, i, span);
    }
  }

  // ----- completeness -----

  ghost predicate Free(c: string) {
    forall p :: !OccursAt(c, TERMINATOR, p)
  }

  lemma TerminatorChars(t: string, p: int, q: int)
    requires OccursAt(t, TERMINATOR, p) && p <= q < p + |TERMINATOR|
    ensures t[q] != '}' && t[p] == '<'
  {
    assert t[p..p + |TERMINATOR|][q - p] == t[q] && t[p..p + |TERMINATOR|][0] == t[p];
  }

  /** A terminator that avoids what stands around an object lies inside it. */
  lemma TerminatorsInside(t: string, start: nat, end: nat)
    requires start < end <= |t| && t[end - 1] == '}' && Free(t[end..])
    requires forall i :: 0 <= i < start ==> t[i] != '<'
    ensures AllWithin(t, TERMINATOR, start, end)
  {
    forall p | OccursAt(t, TERMINATOR, p) ensures start <= p && p + |TERMINATOR| <= end {
      TerminatorChars(t, p, p);
      if p >= end {
        assert t[end..] == t[end..|t|];
        PartOccurrence(t, TERMINATOR, end, |t|, p - end);
      } else if p + |TERMINATOR| > end {
        TerminatorChars(t, p, end - 1);
      }
    }
  }

  /** White space, a fence, white space: what a well-formed reply puts between terminator and object. */
  predicate FencePrefix(a: string, w1: string, w2: string) {
    IsJsonWs(w1) && IsJsonWs(w2) && a == w1 + (FENCE + w2)
  }

  lemma FenceIsFound(tail: string, w1: string, rest: string, s: Span)
    requires tail == w1 + (FENCE + rest) && LeadingSpan(rest) == Some(s)
    ensures Shift(s, |w1| + |FENCE|) in FencedBlocks(tail)
  {
    var fences := Matches(tail, FENCE, 0);
    var at := |w1| + |FENCE|;
    MarkersHaveNoBorder();
    MatchesAreOccurrences(tail, FENCE, 0);
    assert tail[|w1|..at] == FENCE && tail[at..] == rest;
    assert OccursAt(tail, FENCE, |w1|);
    var i :| 0 <= i < |fences| && fences[i] == |w1|;
    BackwardsHas(AfterFences(tail, fences), |fences|, i, Shift(s, at));
  }

  /** Where an object starts and ends between two other texts. */
  lemma Between(a: string, p: string, c: string)
    requires p != ""
    ensures var t := a + (p + c);
            t[|a| + |p|..] == c && t[|a| + |p| - 1] == p[|p| - 1] && t[|a|..|a| + |p|] == p
    ensures forall i :: 0 <= i < |a| ==> (a + (p + c))[i] == a[i]
  {
  }

  lemma ObjectHoldsTerminators(tail: string, a: string, p: string, c: string)
    requires tail == a + (p + c) && p != "" && p[|p| - 1] == '}' && Free(c) && '<' !in a
    ensures Keeps(tail, Span(|a|, |a| + |p|)) && tail[|a|..|a| + |p|] == p
  {
    Between(a, p, c);
    TerminatorsInside(tail, |a|, |a| + |p|);
    MarkersHaveNoBorder();
    PartHasAllIffSameCount(tail, TERMINATOR, |a|, |a| + |p|);
  }

  lemma Regroup(a: string, w1: string, w2: string, t: string)
    requires FencePrefix(a, w1, w2)
    ensures a + t == w1 + (FENCE + (w2 + t)) && '<' !in a && |a| == |w1| + |FENCE| + |w2|
  {
  }

  lemma ObjectEnds(o: Json)
    requires Valid(o) && o.Obj?
    ensures Print(o) != "" && Print(o)[|Print(o)| - 1] == '}'
  {
    ScanBody(o, START);
  }

  lemma BlockIsKept(tail: string, s: Span)
    requires s in FencedBlocks(tail) && Keeps(tail, s)
    ensures s in Kept(tail, Proposed(tail))
  {
    KeptKeeps(tail, Proposed(tail));
  }

  lemma FenceProposes(tail: string, a: string, w1: string, w2: string, t: string, n: nat)
    requires FencePrefix(a, w1, w2) && tail == a + t
    requires LeadingSpan(w2 + t) == Some(Span(|w2|, |w2| + n))
    ensures Span(|a|, |a| + n) in FencedBlocks(tail)
  {
    Regroup(a, w1, w2, t);
    FenceIsFound(tail, w1, w2 + t, Span(|w2|, |w2| + n));
  }

  lemma FencedObjectKept(tail: string, a: string, w1: string, w2: string, p: string, c: string)
    requires FencePrefix(a, w1, w2) && p != "" && p[|p| - 1] == '}' && Free(c) && tail == a + (p + c)
    requires LeadingSpan(w2 + (p + c)) == Some(Span(|w2|, |w2| + |p|))
    ensures Span(|a|, |a| + |p|) in Kept(tail, Proposed(tail)) && Keeps(tail, Span(|a|, |a| + |p|))
    ensures tail[|a|..|a| + |p|] == p
  {
    FenceProposes(tail, a, w1, w2, p + c, |p|);
    assert '<' !in a by {
      Regroup(a, w1, w2, p + c);
    }
    ObjectHoldsTerminators(tail, a, p, c);
    BlockIsKept(tail, Span(|a|, |a| + |p|));
  }

  lemma CutAtTerminator(text: string, prefix: string, tail: string)
    requires text == prefix + (TERMINATOR + tail)
    ensures (|prefix| + |TERMINATOR|) in Cuts(text) && text[|prefix| + |TERMINATOR|..] == tail
  {
    var ms := Matches(text, TERMINATOR, 0);
    TerminatorMatches(text);
    assert text[|prefix|..|prefix| + |TERMINATOR|] == TERMINATOR;
    assert OccursAt(text, TERMINATOR, |prefix|);
    var i :| 0 <= i < |ms| && ms[i] == |prefix|;
    assert Cuts(text)[i] == |prefix| + |TERMINATOR|;
  }

  lemma KeptIsProposed(text: string, cut: nat, inner: Span)
    requires cut in Cuts(text) && inner in Kept(text[cut..], Proposed(text[cut..]))
    ensures Shift(inner, cut) in AllProposed(text)
  {
    var kept := Kept(text[cut..], Proposed(text[cut..]));
    var i :| 0 <= i < |Cuts(text)| && Cuts(text)[i] == cut;
    var k :| 0 <= k < |kept| && kept[k] == inner;
    assert ShiftAll(kept, cut)[k] == Shift(inner, cut);
    BackwardsHas(AtCuts(text, Cuts(text)), |Cuts(text)|, i, Shift(inner, cut));
  }

  lemma TextShifts(text: string, cut: nat, inner: Span)
    requires cut <= |text| && InText(text[cut..], inner)
    ensures TextAt(text, Shift(inner, cut)) == text[cut..][inner.start..inner.end]
  {
  }

  lemma KeptHasText(text: string, cut: nat, inner: Span, t: string)
    requires cut in Cuts(text) && inner in Kept(text[cut..], Proposed(text[cut..]))
    requires InText(text[cut..], inner) && text[cut..][inner.start..inner.end] == t
    ensures HasText(text, AllProposed(text), t)
  {
    KeptIsProposed(text, cut, inner);
    TextShifts(text, cut, inner);
  }

  lemma TailTextIsCandidate(text: string, prefix: string, tail: string, s: Span, p: string)
    requires text == prefix + (TERMINATOR + tail) && s in Kept(tail, Proposed(tail))
    requires InText(tail, s) && tail[s.start..s.end] == p
    ensures HasText(text, Candidates(text), p)
  {
    CutAtTerminator(text, prefix, tail);
    KeptHasText(text, |prefix| + |TERMINATOR|, s, p);
    DedupKeepsTexts(text, AllProposed(text), p);
  }

  lemma FencedTextIsCandidate(prefix: string, a: string, w1: string, w2: string, p: string, c: string)
    requires FencePrefix(a, w1, w2) && p != "" && p[|p| - 1] == '}' && Free(c)
    requires LeadingSpan(w2 + (p + c)) == Some(Span(|w2|, |w2| + |p|))
    ensures var text := prefix + (TERMINATOR + (a + (p + c)));
            HasText(text, Candidates(text), p)
  {
    var tail := a + (p + c);
    FencedObjectKept(tail, a, w1, w2, p, c);
    TailTextIsCandidate(prefix + (TERMINATOR + tail), prefix, tail, Span(|a|, |a| + |p|), p);
  }

  /**
   A document that follows the terminator in a fence is always among the candidates, whatever the
   scratchpad in front of it holds and even if the document quotes fences or terminators.
   */
  lemma DocumentIsCandidate(prefix: string, a: string, w1: string, w2: string, o: Json, c: string)
    requires FencePrefix(a, w1, w2) && Valid(o) && o.Obj? && Free(c)
    ensures var text := prefix + (TERMINATOR + (a + (Print(o) + c)));
            HasText(text, Candidates(text), Print(o))
  {
    ObjectEnds(o);
    LeadingObjectFound(w2, o, c);
    FencedTextIsCandidate(prefix, a, w1, w2, Print(o), c);
  }
}
