/** Making a history fit by leaving out tool responses, from the middle outwards. */
module MiddleOut {
  import opened Sequences
  import opened Messages

  const REMOVAL_PERCENTAGES := [0, 10, 20, 50, 100]

  function ToolIndices(ms: seq<Message>): (r: seq<nat>)
    ensures forall i :: 0 <= i < |r| ==> r[i] < |ms|
  {
    if ms == [] then []
    else ToolIndices(Init(ms)) + if HasToolResponse(Last(ms).content) then [|ms| - 1] else []
  }

  function Max(a: nat, b: nat): nat {
    if a < b then b else a
  }

  function NumToRemove(n: nat, percent: nat): nat {
    if n == 0 || percent == 0 then 0 else Max(n * percent / 100, 1)
  }

  /** After k steps from the middle, the window reaches so far to the left and to the right. */
  function WindowStart(n: nat, k: nat): nat {
    n / 2 - Min((k + 1) / 2, n / 2)
  }

  function WindowEnd(n: nat, k: nat): nat {
    n / 2 + Min(k / 2, n - n / 2)
  }

  function Window(tools: seq<nat>, k: nat): seq<nat> {
    tools[WindowStart(|tools|, k)..WindowEnd(|tools|, k)]
  }

  lemma WindowInRange(n: nat, k: nat)
    ensures WindowStart(n, k) <= n / 2 <= WindowEnd(n, k) <= n
  {
  }

  lemma HalfUp(i: nat)
    ensures (i + 1) / 2 == i / 2 + i % 2 && (i + 2) / 2 == i / 2 + 1
  {
  }

  /** Each step extends the window by one, to the left or to the right, unless it has reached that end. */
  lemma WindowStep(n: nat, i: nat)
    ensures var middle, offset := n / 2, i / 2;
            var lo, hi := WindowStart(n, i), WindowEnd(n, i);
            if i % 2 == 0 then
              WindowEnd(n, i + 1) == hi
              && (if middle > offset then middle - offset == lo && WindowStart(n, i + 1) == lo - 1
                  else WindowStart(n, i + 1) == lo)
            else
              WindowStart(n, i + 1) == lo
              && (if middle + offset < n then middle + offset == hi && WindowEnd(n, i + 1) == hi + 1
                  else WindowEnd(n, i + 1) == hi)
  {
    HalfUp(i);
    HalfUp(i + 1);
  }

  predicate SameElements(a: seq<nat>, b: seq<nat>) {
    (forall x :: x in a ==> x in b) && (forall x :: x in b ==> x in a)
  }

  lemma GrowLeft(tools: seq<nat>, lo: nat, hi: nat, indices: seq<nat>)
    requires 0 < lo <= hi <= |tools| && SameElements(indices, tools[lo..hi])
    ensures SameElements(indices + [tools[lo - 1]], tools[lo - 1..hi])
  {
    assert tools[lo - 1..hi] == [tools[lo - 1]] + tools[lo..hi];
  }

  lemma GrowRight(tools: seq<nat>, lo: nat, hi: nat, indices: seq<nat>)
    requires lo <= hi < |tools| && SameElements(indices, tools[lo..hi])
    ensures SameElements(indices + [tools[hi]], tools[lo..hi + 1])
  {
    assert tools[lo..hi + 1] == tools[lo..hi] + [tools[hi]];
  }

  method CollectFromMiddle(toolIndices: seq<nat>, numToRemove: nat) returns (indicesToRemove: seq<nat>)
    ensures SameElements(indicesToRemove, Window(toolIndices, numToRemove))
  {
    var middle := |toolIndices| / 2;
    indicesToRemove := [];
    ghost var lo, hi := middle, middle;
    for i := 0 to numToRemove
      invariant lo == WindowStart(|toolIndices|, i) && hi == WindowEnd(|toolIndices|, i)
      invariant lo <= middle <= hi <= |toolIndices|
      invariant SameElements(indicesToRemove, toolIndices[lo..hi])
    {
      var offset := i / 2;
      WindowStep(|toolIndices|, i);
      if i % 2 == 0 {
        if middle > offset {
          GrowLeft(toolIndices, lo, hi, indicesToRemove);
          indicesToRemove := indicesToRemove + [toolIndices[middle - offset - 1]];
          lo := lo - 1;
        }
      } else if middle + offset < |toolIndices| {
        GrowRight(toolIndices, lo, hi, indicesToRemove);
        indicesToRemove := indicesToRemove + [toolIndices[middle + offset]];
        hi := hi + 1;
      }
    }
  }

  lemma NothingToRemove(ms: seq<Message>, tools: seq<nat>)
    ensures Without(ms, Window(tools, 0)) == ms
  {
    assert WindowStart(|tools|, 0) == |tools| / 2 == WindowEnd(|tools|, 0);
    assert Window(tools, 0) == [];
    WithoutNone(ms);
  }

  function Filtered(ms: seq<Message>, percent: nat): seq<Message> {
    Without(ms, Window(ToolIndices(ms), NumToRemove(|ToolIndices(ms)|, percent)))
  }

  method FilterToolResponses(ms: seq<Message>, removePercent: nat) returns (kept: seq<Message>)
    ensures kept == Filtered(ms, removePercent)
  {
    var toolIndices := ToolIndices(ms);
    if removePercent == 0 || toolIndices == [] {
      NothingToRemove(ms, toolIndices);
      return ms;
    }
    var numToRemove := Max(|toolIndices| * removePercent / 100, 1);
    var indicesToRemove := CollectFromMiddle(toolIndices, numToRemove);
    WithoutSame(ms, indicesToRemove, Window(toolIndices, numToRemove));
    kept := Without(ms, indicesToRemove);
  }

  // ----- the closed form -----

  /** The window has the size asked for, but one less if an odd number is to be removed altogether. */
  lemma WindowSize(n: nat, k: nat)
    ensures WindowEnd(n, k) - WindowStart(n, k) == if k == n && n % 2 == 1 then n - 1 else Min(k, n)
  {
  }

  lemma NumToRemoveGrows(n: nat, p: nat, q: nat)
    requires p <= q
    ensures NumToRemove(n, p) <= NumToRemove(n, q)
  {
    if n > 0 && p > 0 {
      assert n * p <= n * q;
      assert n * p / 100 <= n * q / 100;
    }
  }

  /** A higher percentage removes all that a lower one removes. */
  lemma WindowsNested(n: nat, p: nat, q: nat)
    requires p <= q
    ensures WindowStart(n, NumToRemove(n, q)) <= WindowStart(n, NumToRemove(n, p))
    ensures WindowEnd(n, NumToRemove(n, p)) <= WindowEnd(n, NumToRemove(n, q))
  {
    NumToRemoveGrows(n, p, q);
  }

  lemma InWiderStretch(tools: seq<nat>, a: nat, b: nat, c: nat, d: nat, x: nat)
    requires c <= a <= b <= d <= |tools| && x in tools[a..b]
    ensures x in tools[c..d]
  {
    var k :| 0 <= k < b - a && tools[a..b][k] == x;
    assert tools[c..d][a + k - c] == x;
  }

  /** The attempts of a summary remove more and more. */
  lemma AttemptsNested(tools: seq<nat>, i: nat, j: nat, x: nat)
    requires i <= j < |REMOVAL_PERCENTAGES|
    requires x in Window(tools, NumToRemove(|tools|, REMOVAL_PERCENTAGES[i]))
    ensures x in Window(tools, NumToRemove(|tools|, REMOVAL_PERCENTAGES[j]))
  {
    var n := |tools|;
    var k, l := NumToRemove(n, REMOVAL_PERCENTAGES[i]), NumToRemove(n, REMOVAL_PERCENTAGES[j]);
    WindowsNested(n, REMOVAL_PERCENTAGES[i], REMOVAL_PERCENTAGES[j]);
    WindowInRange(n, k);
    WindowInRange(n, l);
    InWiderStretch(tools, WindowStart(n, k), WindowEnd(n, k), WindowStart(n, l), WindowEnd(n, l), x);
  }

  // ----- what the result consists of -----

  function ToolMessages(ms: seq<Message>): seq<Message> {
    if ms == [] then [] else ToolMessages(Init(ms)) + if HasToolResponse(Last(ms).content) then [Last(ms)] else []
  }

  function OtherMessages(ms: seq<Message>): seq<Message> {
    if ms == [] then [] else OtherMessages(Init(ms)) + if HasToolResponse(Last(ms).content) then [] else [Last(ms)]
  }

  lemma {:induction false} AsManyTools(ms: seq<Message>)
    ensures |ToolMessages(ms)| == |ToolIndices(ms)|
  {
    if ms != [] {
      AsManyTools(Init(ms));
    }
  }

  lemma PartsStep(ms: seq<Message>, m: Message)
    ensures ToolMessages(ms + [m]) == ToolMessages(ms) + if HasToolResponse(m.content) then [m] else []
    ensures OtherMessages(ms + [m]) == OtherMessages(ms) + if HasToolResponse(m.content) then [] else [m]
  {
    assert Init(ms + [m]) == ms;
  }

  /** One more message, which is not in the stretch. */
  lemma {:induction false} StretchMisses(ms: seq<Message>, lo: nat, hi: nat)
    requires ms != [] && lo <= hi <= |ToolIndices(Init(ms))|
    ensures ToolIndices(ms)[lo..hi] == ToolIndices(Init(ms))[lo..hi] && |ms| - 1 !in ToolIndices(ms)[lo..hi]
  {
    var tools, stretch := ToolIndices(Init(ms)), ToolIndices(ms)[lo..hi];
    assert stretch == tools[lo..hi];
    assert forall i :: 0 <= i < |stretch| ==> stretch[i] == tools[lo + i];
  }

  /** One more message, which is the last of the stretch. */
  lemma StretchEnds(ms: seq<Message>, lo: nat)
    requires ms != [] && HasToolResponse(Last(ms).content) && lo <= |ToolIndices(Init(ms))|
    ensures ToolIndices(ms)[lo..|ToolIndices(ms)|] == ToolIndices(Init(ms))[lo..|ToolIndices(Init(ms))|] + [|ms| - 1]
    ensures |ms| - 1 in ToolIndices(ms)[lo..|ToolIndices(ms)|]
  {
    var tools := ToolIndices(Init(ms));
    assert ToolIndices(ms) == tools + [|ms| - 1];
    assert (tools + [|ms| - 1])[lo..|tools| + 1] == tools[lo..|tools|] + [|ms| - 1];
  }

  lemma WithoutMore(ms: seq<Message>, gone: seq<nat>, more: seq<nat>)
    requires ms != [] && more == gone + [|ms| - 1] && Below(gone, |ms| - 1)
    ensures Without(ms, more) == Without(Init(ms), gone)
  {
    assert |ms| - 1 in more;
    WithoutSame(Init(ms), more, gone);
  }

  lemma StretchBelow(ms: seq<Message>, lo: nat, hi: nat)
    requires lo <= hi <= |ToolIndices(ms)|
    ensures Below(ToolIndices(ms)[lo..hi], |ms|)
  {
    var tools := ToolIndices(ms);
    assert forall i :: 0 <= i < hi - lo ==> tools[lo..hi][i] == tools[lo + i];
  }

  /** What it means to take out a stretch of the tool messages, and nothing else. */
  ghost predicate TakesOut(ms: seq<Message>, lo: nat, hi: nat) {
    && lo <= hi <= |ToolIndices(ms)| == |ToolMessages(ms)|
    && ToolMessages(Without(ms, ToolIndices(ms)[lo..hi])) == ToolMessages(ms)[..lo] + ToolMessages(ms)[hi..]
    && OtherMessages(Without(ms, ToolIndices(ms)[lo..hi])) == OtherMessages(ms)
  }

  lemma StretchBefore(ms: seq<Message>, lo: nat, hi: nat)
    requires ms != [] && TakesOut(Init(ms), lo, hi) && |ToolMessages(ms)| == |ToolIndices(ms)|
    ensures TakesOut(ms, lo, hi)
  {
    var init, m := Init(ms), Last(ms);
    StretchMisses(ms, lo, hi);
    PartsStep(Without(init, ToolIndices(init)[lo..hi]), m);
    MoreBehind(ToolMessages(init), if HasToolResponse(m.content) then [m] else [], lo, hi);
  }

  lemma NoStretch(ms: seq<Message>, lo: nat)
    requires lo <= |ToolIndices(ms)| == |ToolMessages(ms)|
    ensures TakesOut(ms, lo, lo)
  {
    assert ToolIndices(ms)[lo..lo] == [];
    WithoutNone(ms);
    AllAround(ToolMessages(ms), lo);
  }

  lemma StretchToEnd(ms: seq<Message>, lo: nat, hi: nat)
    requires ms != [] && HasToolResponse(Last(ms).content) && hi == |ToolIndices(ms)| == |ToolMessages(ms)|
    requires lo < hi && TakesOut(Init(ms), lo, hi - 1)
    ensures TakesOut(ms, lo, hi)
  {
    var init, m, n := Init(ms), Last(ms), hi - 1;
    StretchEnds(ms, lo);
    StretchBelow(init, lo, n);
    WithoutMore(ms, ToolIndices(init)[lo..n], ToolIndices(ms)[lo..hi]);
    LastGone(ToolMessages(init), m, lo);
  }

  /** Taking out a stretch of the tool messages takes out nothing else. */
  lemma {:induction false} WithoutStretch(ms: seq<Message>, lo: nat, hi: nat)
    requires lo <= hi <= |ToolIndices(ms)|
    ensures TakesOut(ms, lo, hi)
  {
    AsManyTools(ms);
    if lo == hi {
      NoStretch(ms, lo);
    } else if hi <= |ToolIndices(Init(ms))| {
      WithoutStretch(Init(ms), lo, hi);
      StretchBefore(ms, lo, hi);
    } else {
      WithoutStretch(Init(ms), lo, hi - 1);
      StretchToEnd(ms, lo, hi);
    }
  }

  lemma MoreBehind(t: seq<Message>, more: seq<Message>, lo: nat, hi: nat)
    requires lo <= hi <= |t|
    ensures (t + more)[..lo] + (t + more)[hi..] == (t[..lo] + t[hi..]) + more
  {
  }

  lemma LastGone(t: seq<Message>, m: Message, lo: nat)
    requires lo <= |t|
    ensures (t + [m])[..lo] + (t + [m])[|t| + 1..] == t[..lo] + t[|t|..]
  {
  }

  lemma AllAround(t: seq<Message>, lo: nat)
    requires lo <= |t|
    ensures t[..lo] + t[lo..] == t
  {
  }

  /** Everything but the window in the middle. */
  function Outside(t: seq<Message>, k: nat): seq<Message> {
    WindowInRange(|t|, k);
    t[..WindowStart(|t|, k)] + t[WindowEnd(|t|, k)..]
  }

  /**
   The tool messages that remain are those before and those behind one window in the middle; all
   other messages remain, in order.
   */
  lemma FilteredParts(ms: seq<Message>, percent: nat)
    ensures var n := |ToolMessages(ms)|;
            ToolMessages(Filtered(ms, percent)) == Outside(ToolMessages(ms), NumToRemove(n, percent))
    ensures OtherMessages(Filtered(ms, percent)) == OtherMessages(ms)
  {
    AsManyTools(ms);
    var k := NumToRemove(|ToolIndices(ms)|, percent);
    WindowInRange(|ToolIndices(ms)|, k);
    WithoutStretch(ms, WindowStart(|ToolIndices(ms)|, k), WindowEnd(|ToolIndices(ms)|, k));
  }

  lemma FullWindow(n: nat)
    ensures NumToRemove(n, 100) == n && WindowStart(n, n) == 0 && WindowEnd(n, n) == n - n % 2
  {
    WindowSize(n, n);
    WindowInRange(n, n);
  }

  lemma OutsideAll(t: seq<Message>)
    ensures Outside(t, |t|) == if |t| % 2 == 0 then [] else [Last(t)]
  {
    FullWindow(|t|);
  }

  /** Removing 100 percent removes every tool response exactly if their number is even; otherwise the last one stays. */
  lemma AllRemovedIffEven(ms: seq<Message>)
    ensures var t, left := ToolMessages(ms), ToolMessages(Filtered(ms, 100));
            (left == [] <==> |t| % 2 == 0) && (|t| % 2 == 1 ==> left == [Last(t)])
  {
    FilteredParts(ms, 100);
    FullWindow(|ToolMessages(ms)|);
    OutsideAll(ToolMessages(ms));
  }

  // ----- how many are removed, and from where -----

  /** A stretch in the middle of n, give or take two, that is the given part of them. */
  predicate FairShare(n: nat, percent: nat, lo: nat, hi: nat) {
    && lo <= hi <= n && 0 <= (n - hi) - lo <= 2
    && (percent == 0 || n <= 1 ==> lo == hi)
    && (percent > 0 && n > 1 ==> hi - lo >= 1)
    && (n * percent >= 100 ==> 100 * (hi - lo) <= n * percent)
    && (percent < 100 && n > 1 ==> n * percent < 100 * (hi - lo + 1))
    && (percent == 100 ==> hi - lo == n - n % 2)
  }

  lemma PartOf(n: nat, percent: nat, total: nat)
    requires n > 0 && 0 < percent <= 100 && total == n * percent
    ensures 0 < total <= 100 * n && (percent == 100 ==> total == 100 * n) && (percent < 100 ==> total < 100 * n)
  {
    assert total == 100 * n - n * (100 - percent);
    if percent < 100 {
      assert n * (100 - percent) >= n;
    }
  }

  /** What the hundredth part q of total, or one, comes to, odd being n modulo 2. */
  lemma ShareBounds(n: nat, total: nat, q: nat, k: nat, odd: nat, width: int)
    requires 0 < total <= 100 * n && 100 * q <= total < 100 * q + 100 && k == Max(q, 1)
    requires odd <= 1 && (n <= 1 ==> odd == n) && width == if k == n then n - odd else k
    ensures k <= n && (n <= 1 ==> width == 0) && (n > 1 ==> width >= 1)
    ensures total >= 100 ==> 100 * width <= total
    ensures total < 100 * n && n > 1 ==> total < 100 * (width + 1)
    ensures total == 100 * n ==> width == n - odd
  {
    assert q <= n;
  }

  lemma WindowFits(n: nat, total: nat, k: nat, lo: nat, hi: nat)
    requires 0 < total <= 100 * n && k == Max(total / 100, 1) && lo == WindowStart(n, k) && hi == WindowEnd(n, k)
    ensures lo <= hi <= n && 0 <= (n - hi) - lo <= 2 && (n <= 1 ==> lo == hi) && (n > 1 ==> hi - lo >= 1)
    ensures total >= 100 ==> 100 * (hi - lo) <= total
    ensures total < 100 * n && n > 1 ==> total < 100 * (hi - lo + 1)
    ensures total == 100 * n ==> hi - lo == n - n % 2
  {
    ShareBounds(n, total, total / 100, k, n % 2, if k == n then n - n % 2 else k);
    WindowSize(n, k);
    WindowInRange(n, k);
    WindowIsCentred(n, k);
  }

  /** The window for k of n, k being the hundredth part of total, or one. */
  lemma WindowIsFair(n: nat, percent: nat, total: nat, k: nat)
    requires n > 0 && 0 < percent <= 100 && total == n * percent && k == Max(total / 100, 1)
    ensures FairShare(n, percent, WindowStart(n, k), WindowEnd(n, k))
  {
    PartOf(n, percent, total);
    WindowFits(n, total, k, WindowStart(n, k), WindowEnd(n, k));
  }

  lemma WindowIsCentred(n: nat, k: nat)
    requires k <= n
    ensures 0 <= (n - WindowEnd(n, k)) - WindowStart(n, k) <= 2
  {
  }

  lemma NoWindow(n: nat, percent: nat)
    requires n == 0 || percent == 0
    ensures FairShare(n, percent, WindowStart(n, 0), WindowEnd(n, 0))
  {
    WindowIsCentred(n, 0);
    assert n * percent == 0;
  }

  lemma ShareOf(n: nat, percent: nat) returns (lo: nat, hi: nat)
    requires percent <= 100
    ensures FairShare(n, percent, lo, hi)
    ensures forall t :: |t| == n ==> Outside(t, NumToRemove(n, percent)) == t[..lo] + t[hi..]
  {
    var k := NumToRemove(n, percent);
    lo, hi := WindowStart(n, k), WindowEnd(n, k);
    if n == 0 || percent == 0 {
      NoWindow(n, percent);
    } else {
      WindowIsFair(n, percent, n * percent, k);
    }
  }

  /**
   The tool messages that go are a stretch in the middle: the given part of them, rounded down, but
   one at least. If there is only one it stays, and so does the last of an odd number when all are to go.
   */
  lemma RemovedFromTheMiddle(ms: seq<Message>, percent: nat) returns (lo: nat, hi: nat)
    requires percent <= 100
    ensures FairShare(|ToolMessages(ms)|, percent, lo, hi)
    ensures ToolMessages(Filtered(ms, percent)) == ToolMessages(ms)[..lo] + ToolMessages(ms)[hi..]
  {
    var n := |ToolMessages(ms)|;
    FilteredParts(ms, percent);
    lo, hi := ShareOf(n, percent);
  }

  /** The first attempt removes nothing, the last one everything it can. */
  lemma AttemptsSpanAll()
    ensures REMOVAL_PERCENTAGES[0] == 0 && REMOVAL_PERCENTAGES[|REMOVAL_PERCENTAGES| - 1] == 100
    ensures forall ms :: Filtered(ms, REMOVAL_PERCENTAGES[0]) == ms
  {
    forall ms ensures Filtered(ms, 0) == ms {
      NothingToRemove(ms, ToolIndices(ms));
    }
  }
}
