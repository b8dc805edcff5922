/** More about the candidates of a structured reply: unfenced objects are among them, and later ones come first. */
module CandidateOrder {
  import opened Whitespace
  import opened Wrappers
  import opened JsonScan
  import opened JsonSyntax
  import opened LeadingObject
  import opened Markers
  import opened Structured

  // ----- objects without a fence -----

  predicate AllWhite(w: string) {
    forall i :: 0 <= i < |w| ==> IsWhite(w[i])
  }

  lemma LeadingIsKept(tail: string, s: Span)
    requires LeadingSpan(tail) == Some(s) && Keeps(tail, s)
    ensures s in Kept(tail, Proposed(tail))
  {
    KeptKeeps(tail, Proposed(tail));
    assert Proposed(tail)[|FencedBlocks(tail)|] == s;
  }

  lemma UnfencedKept(tail: string, w: string, p: string, c: string)
    requires AllWhite(w) && p != "" && p[|p| - 1] == '}' && Free(c) && tail == w + (p + c)
    requires LeadingSpan(tail) == Some(Span(|w|, |w| + |p|))
    ensures Span(|w|, |w| + |p|) in Kept(tail, Proposed(tail))
    ensures InText(tail, Span(|w|, |w| + |p|)) && tail[|w|..|w| + |p|] == p
  {
    ObjectHoldsTerminators(tail, w, p, c);
    LeadingIsKept(tail, Span(|w|, |w| + |p|));
  }

  lemma UnfencedTextIsCandidate(prefix: string, w: string, p: string, c: string)
    requires AllWhite(w) && p != "" && p[|p| - 1] == '}' && Free(c)
    requires LeadingSpan(w + (p + c)) == Some(Span(|w|, |w| + |p|))
    ensures var text := prefix + (TERMINATOR + (w + (p + c)));
            HasText(text, Candidates(text), p)
  {
    var tail := w + (p + c);
    UnfencedKept(tail, w, p, c);
    TailTextIsCandidate(prefix + (TERMINATOR + tail), prefix, tail, Span(|w|, |w| + |p|), p);
  }

  /** An object that follows the terminator without a fence is among the candidates, too. */
  lemma UnfencedDocumentIsCandidate(prefix: string, w: string, o: Json, c: string)
    requires AllWhite(w) && Valid(o) && o.Obj? && Free(c)
    ensures var text := prefix + (TERMINATOR + (w + (Print(o) + c)));
            HasText(text, Candidates(text), Print(o))
  {
    ObjectEnds(o);
    LeadingObjectFound(w, o, c);
    UnfencedTextIsCandidate(prefix, w, Print(o), c);
  }

  lemma LeadingIsCandidate(text: string, s: Span, t: string)
    requires LeadingSpan(text) == Some(s) && text[s.start..s.end] == t
    ensures HasText(text, Candidates(text), t)
  {
    assert AllProposed(text)[|AllProposed(text)| - 1] == s;
    assert TextAt(text, s) == t;
    DedupKeepsTexts(text, AllProposed(text), t);
  }

  /** And so is an object that the whole reply starts with, whatever follows it. */
  lemma OpeningDocumentIsCandidate(w: string, o: Json, c: string)
    requires AllWhite(w) && Valid(o) && o.Obj?
    ensures var text := w + (Print(o) + c); HasText(text, Candidates(text), Print(o))
  {
    var text := w + (Print(o) + c);
    ObjectEnds(o);
    LeadingObjectFound(w, o, c);
    Between(w, Print(o), c);
    LeadingIsCandidate(text, Span(|w|, |w| + |Print(o)|), Print(o));
  }

  lemma HasFirst(ms: seq<nat>)
    ensures ms == [] || ms[0] in ms
  {
  }

  lemma NoCutWithout(text: string)
    requires Free(text)
    ensures Cuts(text) == [0]
  {
    TerminatorMatches(text);
    var ms := Matches(text, TERMINATOR, 0);
    HasFirst(ms);
  }

  lemma FencedKept(text: string, x: string, rest: string, s: Span)
    requires Free(text) && text == x + (FENCE + rest) && LeadingSpan(rest) == Some(s)
    ensures Shift(s, |x| + |FENCE|) in Kept(text, Proposed(text))
  {
    var at := |x| + |FENCE|;
    FenceIsFound(text, x, rest, s);
    MarkersHaveNoBorder();
    PartHasAllIffSameCount(text, TERMINATOR, s.start + at, s.end + at);
    BlockIsKept(text, Shift(s, at));
  }

  lemma FencedSpan(text: string, x: string, rest: string, s: Span, t: string) returns (here: Span)
    requires Free(text) && text == x + (FENCE + rest) && LeadingSpan(rest) == Some(s) && rest[s.start..s.end] == t
    ensures here in Kept(text, Proposed(text)) && InText(text, here) && text[here.start..here.end] == t
  {
    here := Shift(s, |x| + |FENCE|);
    FencedKept(text, x, rest, s);
    BehindFence(text, x, rest, s);
  }

  lemma FencedTextFound(text: string, x: string, rest: string, s: Span, t: string)
    requires Free(text) && text == x + (FENCE + rest) && LeadingSpan(rest) == Some(s) && rest[s.start..s.end] == t
    ensures HasText(text, Candidates(text), t)
  {
    var here := FencedSpan(text, x, rest, s, t);
    KeptAtStart(text, here, t);
  }

  lemma BehindFence(text: string, x: string, rest: string, s: Span)
    requires text == x + (FENCE + rest) && InText(rest, s)
    ensures InText(text, Shift(s, |x| + |FENCE|))
    ensures text[s.start + |x| + |FENCE|..s.end + |x| + |FENCE|] == rest[s.start..s.end]
  {
    assert text[|x| + |FENCE|..] == rest;
  }

  lemma KeptAtStart(text: string, s: Span, t: string)
    requires Free(text) && s in Kept(text, Proposed(text)) && InText(text, s) && text[s.start..s.end] == t
    ensures HasText(text, Candidates(text), t)
  {
    NoCutWithout(text);
    assert text[0..] == text && Cuts(text)[0] == 0;
    KeptHasText(text, 0, s, t);
    DedupKeepsTexts(text, AllProposed(text), t);
  }

  /** Without any terminator, an object in a fence is a candidate wherever the fence stands. */
  lemma FencedWithoutTerminator(x: string, w: string, o: Json, c: string)
    requires AllWhite(w) && Valid(o) && o.Obj?
    requires Free(x + (FENCE + (w + (Print(o) + c))))
    ensures var text := x + (FENCE + (w + (Print(o) + c))); HasText(text, Candidates(text), Print(o))
  {
    var rest := w + (Print(o) + c);
    ObjectEnds(o);
    LeadingObjectFound(w, o, c);
    Between(w, Print(o), c);
    FencedTextFound(x + (FENCE + rest), x, rest, Span(|w|, |w| + |Print(o)|), Print(o));
  }

  // ----- where an object starts -----

  lemma {:induction false} SkippedIsWhite(s: string)
    ensures |TrimStart(s)| <= |s| && forall i :: 0 <= i < |s| - |TrimStart(s)| ==> IsWhite(s[i])
  {
    if s != "" && IsWhite(s[0]) {
      SkippedIsWhite(s[1..]);
      assert forall i :: 0 < i < |s| - |TrimStart(s)| ==> s[i] == s[1..][i - 1];
    }
  }

  /** The span is an object behind white space that starts at index at, and ends where its braces close. */
  predicate StartsAfter(text: string, at: nat, s: Span) {
    && at <= s.start < s.end <= |text| && text[s.start] == '{'
    && (forall i :: at <= i < s.start ==> IsWhite(text[i]))
    && BraceEnd(text[s.start..], OUTSIDE) == Some(s.end - s.start)
  }

  lemma LeadingStarts(text: string)
    requires LeadingSpan(text).Some?
    ensures StartsAfter(text, 0, LeadingSpan(text).value)
  {
    SkippedIsWhite(text);
    TrimStartSuffix(text);
  }

  lemma ObjectStarts(text: string, at: nat)
    requires at <= |text| && ObjectAt(text, at).Some?
    ensures StartsAfter(text, at, ObjectAt(text, at).value)
  {
    var inner, s := LeadingSpan(text[at..]).value, ObjectAt(text, at).value;
    LeadingStarts(text[at..]);
    assert text[at..][inner.start..] == text[s.start..];
    forall i | at <= i < s.start ensures IsWhite(text[i]) {
      assert text[i] == text[at..][i - at];
    }
  }

  /** An object starts no later than anything that is not white space. */
  lemma StartsBefore(text: string, at: nat, s: Span, i: nat)
    requires StartsAfter(text, at, s) && at <= i < |text| && !IsWhite(text[i])
    ensures s.start <= i
  {
  }

  // ----- order -----

  predicate Descends(spans: seq<Span>) {
    forall i, j :: 0 <= i < j < |spans| ==> spans[i].start > spans[j].start
  }

  ghost predicate AllFrom(spans: seq<Span>, n: nat) {
    forall s :: s in spans ==> s.start >= n
  }

  ghost predicate AllBefore(spans: seq<Span>, n: nat) {
    forall s :: s in spans ==> s.start < n
  }

  lemma DescendsConcat(a: seq<Span>, b: seq<Span>, n: nat)
    requires Descends(a) && Descends(b) && AllFrom(a, n) && AllBefore(b, n)
    ensures Descends(a + b)
  {
    var all := a + b;
    forall i, j | 0 <= i < j < |all| ensures all[i].start > all[j].start {
      if i < |a| <= j {
        assert all[i] in a && all[j] in b;
      }
    }
  }

  /** Part i lies between mark i and the next one. */
  ghost predicate Staged(parts: seq<seq<Span>>, marks: seq<nat>) {
    && |parts| == |marks|
    && (forall i :: 0 <= i < |parts| ==> Descends(parts[i]) && AllFrom(parts[i], marks[i]))
    && (forall i :: 0 <= i < |parts| - 1 ==> AllBefore(parts[i], marks[i + 1]) && marks[i] <= marks[i + 1])
  }

  lemma {:induction false} BackwardsDescends(parts: seq<seq<Span>>, marks: seq<nat>, k: nat)
    requires Staged(parts, marks) && k <= |parts|
    ensures Descends(Backwards(parts, k))
    ensures k < |parts| ==> AllBefore(Backwards(parts, k), marks[k])
  {
    if k > 0 {
      BackwardsDescends(parts, marks, k - 1);
      DescendsConcat(parts[k - 1], Backwards(parts, k - 1), marks[k - 1]);
    }
  }

  lemma ListedStarts(tail: string, at: nat)
    requires at <= |tail|
    ensures Descends(Listed(ObjectAt(tail, at))) && AllFrom(Listed(ObjectAt(tail, at)), at)
    ensures forall s :: s in Listed(ObjectAt(tail, at)) ==> StartsAfter(tail, at, s)
  {
    if ObjectAt(tail, at).Some? {
      ObjectStarts(tail, at);
    }
  }

  lemma ListedBefore(tail: string, at: nat, next: nat)
    requires at <= next < |tail| && !IsWhite(tail[next]) && tail[next] != '{'
    ensures AllBefore(Listed(ObjectAt(tail, at)), next)
  {
    ListedStarts(tail, at);
    forall s | s in Listed(ObjectAt(tail, at)) ensures s.start < next {
      StartsBefore(tail, at, s, next);
    }
  }

  lemma PartIs(tail: string, fences: seq<nat>, i: nat)
    requires fences == Matches(tail, FENCE, 0) && i < |fences|
    ensures AfterFences(tail, fences)[i] == Listed(ObjectAt(tail, fences[i] + |FENCE|))
  {
  }

  lemma FromEarlier(spans: seq<Span>, n: nat, m: nat)
    requires AllFrom(spans, n) && m <= n
    ensures AllFrom(spans, m)
  {
  }

  lemma PartDescends(tail: string, fences: seq<nat>, i: nat)
    requires fences == Matches(tail, FENCE, 0) && i < |fences|
    ensures var part := AfterFences(tail, fences)[i];
            && Descends(part) && AllFrom(part, fences[i])
            && (i < |fences| - 1 ==> AllBefore(part, fences[i + 1]) && fences[i] <= fences[i + 1])
  {
    var at := fences[i] + |FENCE|;
    PartIs(tail, fences, i);
    ListedStarts(tail, at);
    FromEarlier(Listed(ObjectAt(tail, at)), at, fences[i]);
    if i < |fences| - 1 {
      FenceApart(tail, fences, i);
      ListedBefore(tail, at, fences[i + 1]);
    }
  }

  lemma FencesStaged(tail: string, fences: seq<nat>)
    requires fences == Matches(tail, FENCE, 0)
    ensures Staged(AfterFences(tail, fences), fences)
  {
    var parts := AfterFences(tail, fences);
    forall i | 0 <= i < |fences|
      ensures Descends(parts[i]) && AllFrom(parts[i], fences[i])
      ensures i < |fences| - 1 ==> AllBefore(parts[i], fences[i + 1]) && fences[i] <= fences[i + 1]
    {
      PartDescends(tail, fences, i);
    }
  }

  /** The objects behind the fences come from the last to the first. */
  lemma FencesDescend(tail: string, fences: seq<nat>)
    requires fences == Matches(tail, FENCE, 0)
    ensures Descends(FencedBlocks(tail))
  {
    FencesStaged(tail, fences);
    BackwardsDescends(AfterFences(tail, fences), fences, |fences|);
  }

  lemma BlockStarts(tail: string, fences: seq<nat>, s: Span) returns (i: nat)
    requires fences == Matches(tail, FENCE, 0) && s in FencedBlocks(tail)
    ensures i < |fences| && StartsAfter(tail, fences[i] + |FENCE|, s)
  {
    i := BackwardsFrom(AfterFences(tail, fences), |fences|, s);
    ListedStarts(tail, fences[i] + |FENCE|);
  }

  lemma MarksApart(text: string, pat: string, ms: seq<nat>, i: nat)
    requires pat != "" && NoBorder(pat) && ms == Matches(text, pat, 0) && i < |ms| - 1
    ensures ms[i] + |pat| <= ms[i + 1] && OccursAt(text, pat, ms[i + 1])
  {
    MatchesAreOccurrences(text, pat, 0);
    assert ms[i] in ms && ms[i + 1] in ms;
    NoOverlap(text, pat, ms[i], ms[i + 1]);
  }

  lemma FenceApart(tail: string, fences: seq<nat>, i: nat)
    requires fences == Matches(tail, FENCE, 0) && i < |fences| - 1
    ensures fences[i] + |FENCE| <= fences[i + 1] < |tail| && tail[fences[i + 1]] == '`' && !IsWhite('`')
  {
    MarkersHaveNoBorder();
    MarksApart(tail, FENCE, fences, i);
    FenceStarts(tail, fences[i + 1]);
  }

  lemma FenceStarts(tail: string, f: nat)
    requires OccursAt(tail, FENCE, f)
    ensures f < |tail| && tail[f] == '`'
  {
    assert tail[f..f + |FENCE|][0] == tail[f];
  }

  lemma BlocksBehindLeading(tail: string, l: Span)
    requires LeadingSpan(tail) == Some(l)
    ensures AllFrom(FencedBlocks(tail), l.start + 1)
  {
    var fences := Matches(tail, FENCE, 0);
    LeadingStarts(tail);
    forall s | s in FencedBlocks(tail) ensures s.start >= l.start + 1 {
      var i := BlockStarts(tail, fences, s);
      FenceIsThere(tail, fences, i);
      StartsBefore(tail, 0, l, fences[i]);
    }
  }

  lemma FenceIsThere(tail: string, fences: seq<nat>, i: nat)
    requires fences == Matches(tail, FENCE, 0) && i < |fences|
    ensures fences[i] < |tail| && tail[fences[i]] == '`'
  {
    MarkersHaveNoBorder();
    MatchesAreOccurrences(tail, FENCE, 0);
    assert fences[i] in fences;
    FenceStarts(tail, fences[i]);
  }

  /** What is proposed for a tail comes from the last to the first. */
  lemma ProposedDescend(tail: string)
    ensures Descends(Proposed(tail))
  {
    var blocks, leading := FencedBlocks(tail), Listed(LeadingSpan(tail));
    FencesDescend(tail, Matches(tail, FENCE, 0));
    if leading != [] {
      BlocksBehindLeading(tail, leading[0]);
      DescendsConcat(blocks, leading, leading[0].start + 1);
    } else {
      assert blocks + leading == blocks;
    }
  }

  /** Every proposed span is an object. */
  lemma ProposedStarts(tail: string, s: Span) returns (at: nat)
    requires s in Proposed(tail)
    ensures StartsAfter(tail, at, s)
  {
    var fences := Matches(tail, FENCE, 0);
    if s in FencedBlocks(tail) {
      var i := BlockStarts(tail, fences, s);
      at := fences[i] + |FENCE|;
    } else {
      LeadingStarts(tail);
      at := 0;
    }
  }

  lemma {:induction false} KeptDescends(tail: string, spans: seq<Span>)
    requires Descends(spans)
    ensures Descends(Kept(tail, spans))
  {
    if spans != [] {
      KeptDescends(tail, spans[1..]);
      KeptKeeps(tail, spans[1..]);
      if Keeps(tail, spans[0]) {
        var kept := Kept(tail, spans[1..]);
        forall s | s in kept ensures s.start < spans[0].start {
          var i :| 0 <= i < |spans[1..]| && spans[1..][i] == s;
          assert spans[i + 1] == s;
        }
        DescendsConcat([spans[0]], kept, spans[0].start);
      }
    }
  }

  lemma ShiftDescends(spans: seq<Span>, k: nat)
    requires Descends(spans)
    ensures Descends(ShiftAll(spans, k)) && AllFrom(ShiftAll(spans, k), k)
  {
  }

  lemma AtCutDescends(text: string, cut: nat)
    requires cut <= |text|
    ensures Descends(AtCut(text, cut)) && AllFrom(AtCut(text, cut), cut)
  {
    var tail := text[cut..];
    ProposedDescend(tail);
    KeptDescends(tail, Proposed(tail));
    ShiftDescends(Kept(tail, Proposed(tail)), cut);
  }

  lemma AtCutStarts(text: string, cut: nat, s: Span) returns (at: nat)
    requires cut <= |text| && s in AtCut(text, cut)
    ensures StartsAfter(text, at, s)
  {
    var tail := text[cut..];
    var kept := Kept(tail, Proposed(tail));
    KeptKeeps(tail, Proposed(tail));
    var k :| 0 <= k < |kept| && s == Shift(kept[k], cut);
    assert kept[k] in kept;
    at := ProposedStarts(tail, kept[k]);
    StartsShift(text, cut, at, kept[k]);
    at := at + cut;
  }

  lemma StartsShift(text: string, cut: nat, at: nat, s: Span)
    requires cut <= |text| && StartsAfter(text[cut..], at, s)
    ensures StartsAfter(text, at + cut, Shift(s, cut))
  {
    assert text[cut..][s.start..] == text[s.start + cut..];
    forall i | at + cut <= i < s.start + cut ensures IsWhite(text[i]) {
      assert text[i] == text[cut..][i - cut];
    }
  }

  lemma FromCut(text: string, cut: nat, s: Span) returns (inner: Span)
    requires cut <= |text| && s in AtCut(text, cut)
    ensures Keeps(text[cut..], inner) && s == Shift(inner, cut)
  {
    var tail := text[cut..];
    var kept := Kept(tail, Proposed(tail));
    KeptKeeps(tail, Proposed(tail));
    var k :| 0 <= k < |kept| && s == Shift(kept[k], cut);
    assert kept[k] in kept;
    inner := kept[k];
  }

  lemma OccursInTail(text: string, cut: nat, p: nat)
    requires cut <= p && OccursAt(text, TERMINATOR, p)
    ensures OccursAt(text[cut..], TERMINATOR, p - cut)
  {
    assert text[cut..] == text[cut..|text|];
    PartOccurrence(text, TERMINATOR, cut, |text|, p - cut);
  }

  /** A candidate from one cut holds the next terminator, so it starts in front of the next cut. */
  lemma BeforeTerminator(text: string, cut: nat, p: nat)
    requires cut <= p && OccursAt(text, TERMINATOR, p)
    ensures AllBefore(AtCut(text, cut), p + |TERMINATOR|)
  {
    OccursInTail(text, cut, p);
    forall s | s in AtCut(text, cut) ensures s.start < p + |TERMINATOR| {
      var inner := FromCut(text, cut, s);
      KeptHolds(text[cut..], inner, p - cut);
    }
  }

  lemma KeptHolds(tail: string, s: Span, p: nat)
    requires Keeps(tail, s) && OccursAt(tail, TERMINATOR, p)
    ensures s.start <= p
  {
    MarkersHaveNoBorder();
    PartHasAllIffSameCount(tail, TERMINATOR, s.start, s.end);
  }

  lemma NextCut(text: string, i: nat)
    requires i < |Cuts(text)| - 1
    ensures Cuts(text)[i] <= Cuts(text)[i + 1] && AllBefore(AtCut(text, Cuts(text)[i]), Cuts(text)[i + 1])
  {
    var ms := Matches(text, TERMINATOR, 0);
    MarkersHaveNoBorder();
    MarksApart(text, TERMINATOR, ms, i);
    BeforeTerminator(text, Cuts(text)[i], ms[i + 1]);
  }

  lemma CutsStaged(text: string)
    ensures Staged(AtCuts(text, Cuts(text)), Cuts(text))
  {
    var cuts := Cuts(text);
    var parts := AtCuts(text, cuts);
    forall i | 0 <= i < |cuts|
      ensures Descends(parts[i]) && AllFrom(parts[i], cuts[i])
      ensures i < |cuts| - 1 ==> AllBefore(parts[i], cuts[i + 1]) && cuts[i] <= cuts[i + 1]
    {
      AtCutDescends(text, cuts[i]);
      if i < |cuts| - 1 {
        NextCut(text, i);
      }
    }
  }

  lemma CutStarts(text: string, s: Span) returns (at: nat)
    requires s in Backwards(AtCuts(text, Cuts(text)), |Cuts(text)|)
    ensures StartsAfter(text, at, s)
  {
    var i := BackwardsFrom(AtCuts(text, Cuts(text)), |Cuts(text)|, s);
    at := AtCutStarts(text, Cuts(text)[i], s);
  }

  /** Later starts first; what starts at the same place is the same. */
  predicate Sorted(spans: seq<Span>) {
    forall i, j :: 0 <= i < j < |spans| ==> spans[i].start > spans[j].start || spans[i] == spans[j]
  }

  lemma {:induction false} DedupDescends(text: string, spans: seq<Span>)
    requires Sorted(spans)
    ensures Descends(Dedup(text, spans))
    decreases |spans|
  {
    if |spans| >= 2 {
      if TextAt(text, spans[0]) == TextAt(text, spans[1]) {
        DedupDescends(text, [spans[0]] + spans[2..]);
      } else {
        DedupDescends(text, spans[1..]);
        DedupTakesFrom(text, spans[1..]);
        assert spans[0].start > spans[1].start;
        forall s | s in Dedup(text, spans[1..]) ensures s.start < spans[0].start {
          var i :| 0 <= i < |spans[1..]| && spans[1..][i] == s;
          assert spans[i + 1] == s && spans[1].start >= s.start;
        }
        DescendsConcat([spans[0]], Dedup(text, spans[1..]), spans[0].start);
      }
    }
  }

  lemma LeadingIsLast(text: string, l: Span)
    requires LeadingSpan(text) == Some(l)
    ensures forall s :: s in Backwards(AtCuts(text, Cuts(text)), |Cuts(text)|) ==> s.start > l.start || s == l
  {
    LeadingStarts(text);
    forall s | s in Backwards(AtCuts(text, Cuts(text)), |Cuts(text)|) ensures s.start > l.start || s == l {
      var at := CutStarts(text, s);
      StartsBefore(text, 0, l, s.start);
    }
  }

  lemma SortedWithLast(spans: seq<Span>, l: Span)
    requires Descends(spans) && forall s :: s in spans ==> s.start > l.start || s == l
    ensures Sorted(spans + [l])
  {
    assert forall i :: 0 <= i < |spans| ==> spans[i] in spans;
  }

  /** The candidates are tried from the last to the first: each starts in front of the one before it. */
  lemma CandidatesDescend(text: string)
    ensures Descends(Candidates(text))
  {
    var spans := Backwards(AtCuts(text, Cuts(text)), |Cuts(text)|);
    CutsStaged(text);
    BackwardsDescends(AtCuts(text, Cuts(text)), Cuts(text), |Cuts(text)|);
    if LeadingSpan(text).Some? {
      LeadingIsLast(text, LeadingSpan(text).value);
      SortedWithLast(spans, LeadingSpan(text).value);
    } else {
      assert AllProposed(text) == spans;
    }
    DedupDescends(text, AllProposed(text));
  }
}
