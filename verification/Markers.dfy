/** Occurrences of a marker in a text: where they are and how they are counted. */
module Markers {
  import opened FiniteSets

  predicate OccursAt(text: string, pat: string, i: int) {
    0 <= i && i + |pat| <= |text| && text[i..i + |pat|] == pat
  }

  /** Left to right, not overlapping, as `match_indices` finds them. */
  function Matches(text: string, pat: string, from: nat): (ms: seq<nat>)
    requires pat != "" && from <= |text|
    ensures forall i :: 0 <= i < |ms| ==> from <= ms[i] && ms[i] + |pat| <= |text|
    decreases |text| - from
  {
    if from + |pat| > |text| then []
    else if text[from..from + |pat|] == pat then [from] + Matches(text, pat, from + |pat|)
    else Matches(text, pat, from + 1)
  }

  function Count(text: string, pat: string): nat
    requires pat != ""
  {
    |Matches(text, pat, 0)|
  }

  /** The marker shifted by k disagrees with itself somewhere. */
  ghost predicate Clash(pat: string, k: nat) {
    exists j :: 0 <= j < |pat| - k && pat[k + j] != pat[j]
  }

  /** No proper suffix of the marker is also a prefix of it, so occurrences never overlap. */
  ghost predicate NoBorder(pat: string) {
    forall k :: 0 < k < |pat| ==> Clash(pat, k)
  }

  /** Two overlapping occurrences make the marker agree with itself shifted. */
  lemma OverlapAgrees(text: string, pat: string, i: int, k: nat)
    requires k < |pat| && OccursAt(text, pat, i) && OccursAt(text, pat, i + k)
    ensures !Clash(pat, k)
  {
    forall j | 0 <= j < |pat| - k ensures pat[k + j] == pat[j] {
      assert text[i..i + |pat|][k + j] == text[i + k + j];
      assert text[i + k..i + k + |pat|][j] == text[i + k + j];
    }
  }

  lemma NoOverlap(text: string, pat: string, i: int, j: int)
    requires NoBorder(pat) && OccursAt(text, pat, i) && OccursAt(text, pat, j) && i < j
    ensures i + |pat| <= j
  {
    if j < i + |pat| {
      OverlapAgrees(text, pat, i, j - i);
    }
  }

  ghost predicate Increasing(ms: seq<nat>) {
    forall i, j :: 0 <= i < j < |ms| ==> ms[i] < ms[j]
  }

  /** The matches are exactly the occurrences, in order. */
  lemma {:induction false} MatchesAreOccurrences(text: string, pat: string, from: nat)
    requires pat != "" && from <= |text| && NoBorder(pat)
    ensures forall i :: i in Matches(text, pat, from) <==> from <= i && OccursAt(text, pat, i)
    ensures Increasing(Matches(text, pat, from))
    decreases |text| - from
  {
    if from + |pat| <= |text| {
      if OccursAt(text, pat, from) {
        MatchesAreOccurrences(text, pat, from + |pat|);
        forall i | from < i && OccursAt(text, pat, i) ensures from + |pat| <= i {
          NoOverlap(text, pat, from, i);
        }
      } else {
        MatchesAreOccurrences(text, pat, from + 1);
      }
    }
  }

  function Elements(ms: seq<nat>): set<nat> {
    set i | i in ms
  }

  lemma {:induction false} IncreasingSize(ms: seq<nat>)
    requires Increasing(ms)
    ensures |Elements(ms)| == |ms|
  {
    if ms != [] {
      var last := ms[|ms| - 1];
      var init := ms[..|ms| - 1];
      IncreasingSize(init);
      assert ms == init + [last];
      assert Elements(ms) == Elements(init) + {last};
      assert last !in init;
    }
  }

  function Moved(s: set<nat>, k: nat): set<nat> {
    set i | i in s :: i + k
  }

  lemma {:induction false} MovedSize(s: set<nat>, k: nat)
    ensures |Moved(s, k)| == |s|
  {
    if s != {} {
      var x :| x in s;
      MovedSize(s - {x}, k);
      forall y ensures y in Moved(s, k) <==> y in Moved(s - {x}, k) + {x + k} {
        if y in Moved(s, k) {
          var i :| i in s && y == i + k;
          assert i == x || i in s - {x};
        }
      }
      assert Moved(s, k) == Moved(s - {x}, k) + {x + k};
      assert x + k !in Moved(s - {x}, k);
    }
  }

  function Occurrences(text: string, pat: string): set<nat>
    requires pat != ""
  {
    Elements(Matches(text, pat, 0))
  }

  lemma OccurrencesCount(text: string, pat: string)
    requires pat != "" && NoBorder(pat)
    ensures |Occurrences(text, pat)| == Count(text, pat)
    ensures forall i: nat :: i in Occurrences(text, pat) <==> OccursAt(text, pat, i)
  {
    MatchesAreOccurrences(text, pat, 0);
    IncreasingSize(Matches(text, pat, 0));
  }

  /** Occurrences in a part are occurrences in the whole, shifted. */
  lemma PartOccurrence(text: string, pat: string, start: nat, end: nat, p: int)
    requires start <= end <= |text|
    ensures OccursAt(text[start..end], pat, p) <==> 0 <= p && p + start + |pat| <= end && OccursAt(text, pat, p + start)
  {
    if 0 <= p && p + start + |pat| <= end {
      var outer, inner := text[p + start..p + start + |pat|], text[start..end][p..p + |pat|];
      assert |outer| == |inner| && forall k :: 0 <= k < |inner| ==> outer[k] == inner[k];
    }
  }

  ghost predicate AllWithin(text: string, pat: string, start: nat, end: nat) {
    forall p :: OccursAt(text, pat, p) ==> start <= p && p + |pat| <= end
  }

  lemma MovedOccurrence(text: string, pat: string, start: nat, end: nat, p: nat)
    requires pat != "" && NoBorder(pat) && start <= end <= |text|
    ensures p in Moved(Occurrences(text[start..end], pat), start)
            <==> start <= p && p + |pat| <= end && OccursAt(text, pat, p)
  {
    var here := Occurrences(text[start..end], pat);
    OccurrencesCount(text[start..end], pat);
    PartOccurrence(text, pat, start, end, p - start);
    if start <= p {
      var i: nat := p - start;
      assert i in here <==> p in Moved(here, start);
    }
  }

  /** A part of the text counts as many markers as the whole exactly if it contains all of them. */
  lemma PartHasAllIffSameCount(text: string, pat: string, start: nat, end: nat)
    requires pat != "" && NoBorder(pat) && start <= end <= |text|
    ensures Count(text[start..end], pat) == Count(text, pat) <==> AllWithin(text, pat, start, end)
  {
    var here, all := Occurrences(text[start..end], pat), Occurrences(text, pat);
    var moved := Moved(here, start);
    OccurrencesCount(text, pat);
    OccurrencesCount(text[start..end], pat);
    MovedSize(here, start);
    forall p: nat ensures p in moved <==> start <= p && p + |pat| <= end && OccursAt(text, pat, p) {
      MovedOccurrence(text, pat, start, end, p);
    }
    MovedWithin(text, pat, start, end, moved, all);
  }

  lemma MovedWithin(text: string, pat: string, start: nat, end: nat, moved: set<nat>, all: set<nat>)
    requires forall p: nat :: p in all <==> OccursAt(text, pat, p)
    requires forall p: nat :: p in moved <==> start <= p && p + |pat| <= end && OccursAt(text, pat, p)
    ensures |moved| == |all| <==> AllWithin(text, pat, start, end)
  {
    assert moved <= all;
    if |moved| == |all| {
      SubsetOfSameSize(moved, all);
      forall p | OccursAt(text, pat, p) ensures start <= p && p + |pat| <= end {
        assert (p as nat) in all;
      }
    }
    if AllWithin(text, pat, start, end) {
      assert moved == all;
    }
  }
}
