/** What the think filter decides about a text, and about the same text with more behind it. */
module LongerText {
  import opened Wrappers
  import opened ThinkLexer

  // ----- looking at a longer text -----

  lemma AlphaEndExt(s: string, x: string, i: nat)
    requires i <= |s|
    ensures AlphaEnd(s, i) < |s| ==> AlphaEnd(s + x, i) == AlphaEnd(s, i)
    ensures AlphaEnd(s, i) == |s| ==> AlphaEnd(s + x, i) >= |s|
  {
    var e, e' := AlphaEnd(s, i), AlphaEnd(s + x, i);
    assert forall j :: 0 <= j < |s| ==> (s + x)[j] == s[j];
  }

  lemma SpaceEndExt(s: string, x: string, i: nat)
    requires i <= |s|
    ensures SpaceEnd(s, i) < |s| ==> SpaceEnd(s + x, i) == SpaceEnd(s, i)
    ensures SpaceEnd(s, i) == |s| ==> SpaceEnd(s + x, i) >= |s|
  {
    assert forall j :: 0 <= j < |s| ==> (s + x)[j] == s[j];
  }

  lemma {:induction false} ScanOpenExt(s: string, x: string, i: nat, quote: Option<char>, last: Option<char>)
    requires i <= |s|
    ensures ScanOpen(s, i, quote, last).Some? ==> ScanOpen(s + x, i, quote, last) == ScanOpen(s, i, quote, last)
    ensures var r := ScanOpen(s + x, i, quote, last);
            r.Some? && r.value.1 <= |s| ==> ScanOpen(s, i, quote, last) == r
    decreases |s| - i
  {
    if i < |s| {
      assert (s + x)[i] == s[i];
      if quote.Some? {
        ScanOpenExt(s, x, i + 1, if s[i] == quote.value then None else quote, last);
      } else if IsQuote(s[i]) {
        ScanOpenExt(s, x, i + 1, Some(s[i]), Some(s[i]));
      } else if s[i] != '>' {
        ScanOpenExt(s, x, i + 1, None, if IsSpace(s[i]) then last else Some(s[i]));
      }
    }
  }

  lemma {:induction false} ScanOpenFindsGt(s: string, i: nat, quote: Option<char>, last: Option<char>)
    requires i <= |s|
    ensures ScanOpen(s, i, quote, last).Some? <==> HasGt(s, i, quote)
    decreases |s| - i
  {
    if i < |s| {
      if quote.Some? {
        ScanOpenFindsGt(s, i + 1, if s[i] == quote.value then None else quote, last);
      } else if IsQuote(s[i]) {
        ScanOpenFindsGt(s, i + 1, Some(s[i]), Some(s[i]));
      } else if s[i] != '>' {
        ScanOpenFindsGt(s, i + 1, None, if IsSpace(s[i]) then last else Some(s[i]));
      }
    }
  }

  lemma {:induction false} HasGtSkip(s: string, i: nat, j: nat)
    requires i <= j <= |s|
    requires forall k :: i <= k < j ==> !IsQuote(s[k]) && s[k] != '>'
    ensures HasGt(s, i, None) == HasGt(s, j, None)
    decreases j - i
  {
    if i < j {
      HasGtSkip(s, i + 1, j);
    }
  }

  lemma HasGtExt(s: string, x: string)
    requires HasGt(s, 0, None)
    ensures HasGt(s + x, 0, None)
  {
    ScanOpenFindsGt(s, 0, None, None);
    ScanOpenExt(s, x, 0, None, None);
    ScanOpenFindsGt(s + x, 0, None, None);
  }

  /** In front of the attributes there is neither a quote nor a `>`. */
  lemma HeadSkip(s: string, e: nat)
    requires |s| > 0 && s[0] == '<' && NameStart(s) <= |s| && e == AlphaEnd(s, NameStart(s))
    ensures HasGt(s, 0, None) == HasGt(s, e, None)
  {
    HasGtSkip(s, 0, e);
  }

  lemma NameExt(s: string, x: string, n: nat)
    requires n <= |s|
    ensures AlphaEnd(s, n) < |s| ==>
              AlphaEnd(s + x, n) == AlphaEnd(s, n) && (s + x)[n..AlphaEnd(s, n)] == s[n..AlphaEnd(s, n)]
    ensures AlphaEnd(s, n) == |s| ==> AlphaEnd(s + x, n) >= |s| && (s + x)[n..AlphaEnd(s + x, n)][..|s| - n] == s[n..]
  {
    AlphaEndExt(s, x, n);
  }

  /** A tag is recognised from its own bytes, whatever follows. */
  lemma ParseTagExt(s: string, x: string)
    requires |s| > 0
    ensures ParseTag(s).Some? ==> ParseTag(s + x) == ParseTag(s)
  {
    if ParseTag(s).Some? {
      var n := NameStart(s);
      assert NameStart(s + x) == n;
      var e := AlphaEnd(s, n);
      NameExt(s, x, n);
      if n == 2 {
        SpaceEndExt(s, x, e);
      } else {
        ScanOpenExt(s, x, e, None, None);
      }
    }
  }

  lemma ParseTagCut(s: string, x: string)
    requires ParseTag(s + x).Some? && ParseTag(s + x).value.1 <= |s|
    ensures ParseTag(s) == ParseTag(s + x)
  {
    var n := NameStart(s + x);
    assert |s| >= 2;
    assert NameStart(s) == n;
    NameExt(s, x, n);
    var e := AlphaEnd(s + x, n);
    if n == 2 {
      var w := SpaceEnd(s + x, e);
      assert e <= w < |s|;
      assert AlphaEnd(s, n) == e;
      SpaceEndExt(s, x, e);
    } else {
      assert e < ParseTag(s + x).value.1;
      assert AlphaEnd(s, n) == e;
      ScanOpenExt(s, x, e, None, None);
    }
  }

  // ----- the prefixes the hold-back patterns miss -----

  /** `<think/` or `<thinking/` with more text and no `>` yet. */
  predicate OpenSlash(s: string) {
    |s| > 1 && s[0] == '<' && s[1] != '/' && !HasGt(s, 0, None) &&
    var e := AlphaEnd(s, 1);
    IsThinkName(s[1..e]) && e + 1 < |s| && s[e] == '/'
  }

  /** A text the filter lets through although more text can still make it a tag. */
  predicate Leaks(s: string, inside: bool) {
    s == "<" || (inside && s == "</") || OpenSlash(s)
  }

  lemma NamePrefixExt(a: string, b: string)
    requires a <= b && (IsNamePrefix(b) || IsThinkName(b)) && a != ""
    ensures IsNamePrefix(a)
  {
    assert THINK == THINKING[..5];
    assert forall i :: 0 <= i < |a| ==> a[i] == b[i];
    assert EqIgnoreCase(a, THINKING[..|a|]);
  }

  lemma PartialOpenExt(s: string, x: string)
    requires |s| > 1 && PartialOpen(s + x)
    ensures PartialOpen(s)
  {
    NameExt(s, x, 1);
    var e := AlphaEnd(s, 1);
    var e' := AlphaEnd(s + x, 1);
    assert IsNamePrefix((s + x)[1..e']);
    if e == |s| {
      NamePrefixExt(s[1..], (s + x)[1..e']);
    } else {
      assert (s + x)[e] == s[e];
    }
  }

  lemma PartialCloseExt(s: string, x: string)
    requires |s| > 2 && PartialClose(s + x)
    ensures PartialClose(s)
  {
    NameExt(s, x, 2);
    var e := AlphaEnd(s, 2);
    var e' := AlphaEnd(s + x, 2);
    assert forall j :: 0 <= j < |s| ==> (s + x)[j] == s[j];
    if e == |s| {
      NamePrefixExt(s[2..], (s + x)[2..e']);
    }
  }

  lemma NoOpenLater(s: string, x: string)
    requires |s| > 1 && s[0] == '<' && s[1] != '/' && ParseTag(s) == None && !IsPartial(s) && !OpenSlash(s)
    ensures ParseTag(s + x) == None
  {
    assert (s + x)[1] == s[1];
    var e, e' := AlphaEnd(s, 1), AlphaEnd(s + x, 1);
    NameExt(s, x, 1);
    HeadSkip(s, e);
    if e == |s| {
      if e > 1 && IsThinkName((s + x)[1..e']) {
        NamePrefixExt(s[1..], (s + x)[1..e']);
      }
    } else if IsThinkName(s[1..e]) {
      assert (s + x)[e] == s[e];
      NamePrefixExt(s[1..e], s[1..e]);
      ScanOpenFindsGt(s, e, None, None);
    }
  }

  lemma NoCloseLater(s: string, x: string)
    requires |s| > 2 && s[0] == '<' && s[1] == '/' && ParseTag(s) == None && !IsPartial(s)
    ensures ParseTag(s + x) == None
  {
    assert (s + x)[1] == s[1];
    var e, e' := AlphaEnd(s, 2), AlphaEnd(s + x, 2);
    NameExt(s, x, 2);
    HeadSkip(s, e);
    if e == |s| {
      if IsThinkName((s + x)[2..e']) {
        NamePrefixExt(s[2..], (s + x)[2..e']);
      }
    } else if IsThinkName(s[2..e]) {
      NamePrefixExt(s[2..e], s[2..e]);
      SpaceEndExt(s, x, e);
      var w := SpaceEnd(s, e);
      if w == |s| {
        HasGtSkip(s, e, w);
      } else {
        assert (s + x)[w] == s[w];
      }
    }
  }

  /** Text that is let through without leaking never turns into a tag the filter acts on. */
  lemma NoTagLater(s: string, x: string, inside: bool)
    requires |s| > 0 && s[0] == '<' && LookAt(s, inside) == Pass && !Leaks(s, inside)
    ensures var r := ParseTag(s + x); r.Some? ==> r.value.0 == Close && !inside
  {
    if ParseTag(s).Some? {
      ParseTagExt(s, x);
    } else if s == "</" {
      assert (s + x)[1] == '/';
    } else if s[1] == '/' {
      NoCloseLater(s, x);
    } else {
      NoOpenLater(s, x);
    }
  }

  /** Nor does it become a text the filter holds back, but for `</` outside a block. */
  lemma NoHoldLater(s: string, x: string, inside: bool)
    requires |s| > 0 && s[0] == '<' && LookAt(s, inside) == Pass && !Leaks(s, inside) && s != "</"
    ensures !IsPartial(s + x)
  {
    if ParseTag(s).Some? {
      TagHasGt(s);
      HasGtExt(s, x);
    } else if HasGt(s, 0, None) {
      HasGtExt(s, x);
    } else {
      if PartialOpen(s + x) {
        PartialOpenExt(s, x);
      }
      if PartialClose(s + x) {
        assert (s + x)[1] == s[1];
        PartialCloseExt(s, x);
      }
    }
  }

  lemma TagHasGt(s: string)
    requires ParseTag(s).Some?
    ensures HasGt(s, 0, None)
  {
    var n := NameStart(s);
    var e := AlphaEnd(s, n);
    HeadSkip(s, e);
    if n == 2 {
      HasGtSkip(s, e, SpaceEnd(s, e));
    } else {
      ScanOpenFindsGt(s, e, None, None);
    }
  }

  // ----- the next decision in a longer text -----

  /** A stretch that is one whole tag or would be held back in full. */
  predicate Candidate(s: string) {
    (|s| > 0 && ParseTag(s).Some? && ParseTag(s).value.1 == |s|) || IsPartial(s)
  }

  /** No tag and no held-back stretch of the text is longer than the buffer bound. */
  ghost predicate Bounded(t: string) {
    forall p, q :: 0 <= p <= q <= |t| && q - p > MAX_BUFFERED_THINK_TAG_BYTES ==> !Candidate(t[p..q])
  }

  lemma ShortIsBounded(t: string)
    requires |t| <= MAX_BUFFERED_THINK_TAG_BYTES
    ensures Bounded(t)
  {
  }

  lemma BoundedSuffix(t: string, k: nat)
    requires k <= |t| && Bounded(t)
    ensures Bounded(t[k..])
  {
    forall p, q | 0 <= p <= q <= |t[k..]| && q - p > MAX_BUFFERED_THINK_TAG_BYTES
      ensures !Candidate(t[k..][p..q])
    {
      assert t[k..][p..q] == t[p + k..q + k];
    }
  }

  lemma BoundedPrefix(t: string, x: string)
    requires Bounded(t + x)
    ensures Bounded(t)
  {
    forall p, q | 0 <= p <= q <= |t| && q - p > MAX_BUFFERED_THINK_TAG_BYTES
      ensures !Candidate(t[p..q])
    {
      assert t[p..q] == (t + x)[p..q];
    }
  }

  lemma BoundedLook(t: string, i: nat, inside: bool)
    requires i < |t| && Bounded(t)
    ensures !LookAt(t[i..], inside).TooLong?
    ensures LookAt(t[i..], inside).Hold? ==> |t| - i <= MAX_BUFFERED_THINK_TAG_BYTES
  {
    var s := t[i..];
    var r := ParseTag(s);
    if r.Some? {
      var n := r.value.1;
      assert s == s[..n] + s[n..];
      ParseTagCut(s[..n], s[n..]);
      assert s[..n] == t[i..i + n];
    }
    assert s == t[i..|t|];
  }

  lemma LookExt(s: string, x: string, inside: bool)
    requires |s| > 0 && s[0] == '<' && !LookAt(s + x, inside).TooLong?
    ensures LookAt(s, inside).IsTag? ==> LookAt(s + x, inside) == LookAt(s, inside)
    ensures LookAt(s, inside).Pass? && !Leaks(s, inside) && s != "</" ==> LookAt(s + x, inside) == Pass
    ensures LookAt(s, inside).Pass? && !Leaks(s, inside) ==> !LookAt(s + x, inside).IsTag?
  {
    ParseTagExt(s, x);
    if LookAt(s, inside).Pass? && !Leaks(s, inside) {
      NoTagLater(s, x, inside);
      if s != "</" {
        NoHoldLater(s, x, inside);
      }
    }
  }

  /** No position let through before the next decision leaks. */
  predicate ScanClean(b: string, i: nat, inside: bool)
    requires i <= |b|
    decreases |b| - i
  {
    if i == |b| then true
    else if b[i] != '<' then ScanClean(b, i + 1, inside)
    else LookAt(b[i..], inside).Pass? ==> !Leaks(b[i..], inside) && ScanClean(b, i + 1, inside)
  }

  /** A lone `</` at the end, outside a block, that further text x makes look like a closing tag. */
  predicate TailHeld(b: string, x: string, inside: bool) {
    |b| >= 2 && b[|b| - 2..] == "</" && !inside && LookAt("</" + x, inside) == Hold
  }

  lemma LookStep(b: string, x: string, i: nat, inside: bool)
    requires i < |b| && b[i] == '<' && Bounded(b + x)
    requires LookAt(b[i..], inside).Pass? ==> !Leaks(b[i..], inside)
    ensures (b + x)[i] == '<'
    ensures match LookAt(b[i..], inside)
            case IsTag(_, _) => LookAt((b + x)[i..], inside) == LookAt(b[i..], inside)
            case TooLong(_) => false
            case Hold => true
            case Pass =>
              LookAt((b + x)[i..], inside) == if TailHeld(b, x, inside) && b[i..] == "</" then Hold else Pass
  {
    assert (b + x)[i..] == b[i..] + x;
    BoundedLook(b + x, i, inside);
    BoundedPrefix(b, x);
    BoundedLook(b, i, inside);
    LookExt(b[i..], x, inside);
  }

  lemma {:induction false} NextEventExt(b: string, x: string, i: nat, inside: bool)
    requires i <= |b| && Bounded(b + x) && ScanClean(b, i, inside)
    ensures var r, r' := NextEvent(b, i, inside), NextEvent(b + x, i, inside);
            match r
            case TagAt(_, _, _) => r' == r
            case Oversized(_) => false
            case Partial(pos) => r' == NextEvent(b + x, pos, inside)
            case NoEvent => r' == NextEvent(b + x, |b|, inside) || (TailHeld(b, x, inside) && r' == Partial(|b| - 2))
    decreases |b| - i
  {
    if i < |b| {
      if b[i] == '<' {
        LookStep(b, x, i, inside);
      }
      if b[i] != '<' || LookAt(b[i..], inside).Pass? {
        NextEventExt(b, x, i + 1, inside);
      }
    }
  }

  function Shift(k: nat, e: Event): Event {
    match e
    case TagAt(pos, end, kind) => TagAt(pos + k, end + k, kind)
    case Oversized(end) => Oversized(end + k)
    case Partial(pos) => Partial(pos + k)
    case NoEvent => NoEvent
  }

  lemma {:induction false} NextEventShift(p: string, y: string, i: nat, inside: bool)
    requires i <= |y|
    ensures NextEvent(p + y, |p| + i, inside) == Shift(|p|, NextEvent(y, i, inside))
    decreases |y| - i
  {
    if i < |y| {
      assert (p + y)[|p| + i..] == y[i..];
      NextEventShift(p, y, i + 1, inside);
    }
  }

  // ----- draining a longer text -----

  /** Everything emitted for b and its end of stream. */
  function Finish(b: string, depth: nat): FilterOut {
    var r := Drain(b, depth);
    Join(Out(r.segs), OutOne(Say(r.rest, r.depth)))
  }

  /** Every stage of draining b scans clean: what the filter has let through can no longer matter. */
  predicate Clean(b: string, depth: nat)
    decreases |b|
  {
    ScanClean(b, 0, depth > 0) &&
    match NextEvent(b, 0, depth > 0)
    case TagAt(pos, end, kind) => Clean(b[end..], NewDepth(depth, kind))
    case Oversized(end) => Clean(b[end..], depth)
    case _ => true
  }

  lemma SayConcat(p: string, y: string, depth: nat)
    ensures OutOne(Say(p + y, depth)) == Join(OutOne(Say(p, depth)), OutOne(Say(y, depth)))
  {
    assert "" + "" == "";
  }

  /** The halves u and v of b around a tag are parameters: they keep slices of concatenations out of the proofs. */
  lemma FinishTag(b: string, u: string, v: string, depth: nat, pos: nat, end: nat, kind: ThinkTag)
    requires NextEvent(b, 0, depth > 0) == TagAt(pos, end, kind) && u == b[..pos] && v == b[end..]
    ensures Finish(b, depth) == Join(OutOne(Say(u, depth)), Finish(v, NewDepth(depth, kind)))
    ensures Out(Drain(b, depth).segs) == Join(OutOne(Say(u, depth)), Out(Drain(v, NewDepth(depth, kind)).segs))
  {
    var r := Drain(v, NewDepth(depth, kind));
    OutTag(NOTHING, u, depth, b[pos..end], r.segs);
    JoinNothing(Out(Drain(b, depth).segs));
    JoinNothing(OutOne(Say(u, depth)));
    JoinAssoc(OutOne(Say(u, depth)), Out(r.segs), OutOne(Say(r.rest, r.depth)));
  }

  lemma Slices(p: string, y: string, pos: nat, end: nat)
    requires pos <= |y| && end <= |y|
    ensures (p + y)[..|p| + pos] == p + y[..pos] && (p + y)[|p| + end..] == y[end..]
  {
  }

  lemma FinishWhole(b: string, depth: nat)
    requires Drain(b, depth) == Drained([Say(b, depth)], "", depth)
    ensures Finish(b, depth) == OutOne(Say(b, depth))
  {
    OutCons(Say(b, depth), []);
    JoinNothing(OutOne(Say(b, depth)));
  }

  lemma FinishHeld(b: string, depth: nat, pos: nat)
    requires pos <= |b| && Drain(b, depth) == Drained([Say(b[..pos], depth)], b[pos..], depth)
    ensures Finish(b, depth) == OutOne(Say(b, depth))
  {
    OutCons(Say(b[..pos], depth), []);
    SayConcat(b[..pos], b[pos..], depth);
    assert b == b[..pos] + b[pos..];
  }

  lemma FinishPlain(b: string, depth: nat)
    requires NextEvent(b, 0, depth > 0).Partial? || NextEvent(b, 0, depth > 0).NoEvent?
    ensures Finish(b, depth) == OutOne(Say(b, depth))
  {
    var e := NextEvent(b, 0, depth > 0);
    if e.Partial? && |b| - e.pos <= MAX_BUFFERED_THINK_TAG_BYTES {
      FinishHeld(b, depth, e.pos);
    } else {
      FinishWhole(b, depth);
    }
  }

  lemma PrefixSkipTag(p: string, y: string, depth: nat, pos: nat, end: nat, kind: ThinkTag)
    requires NextEvent(y, 0, depth > 0) == TagAt(pos, end, kind)
    requires NextEvent(p + y, 0, depth > 0) == TagAt(|p| + pos, |p| + end, kind)
    ensures Finish(p + y, depth) == Join(OutOne(Say(p, depth)), Finish(y, depth))
  {
    var u, v := y[..pos], y[end..];
    Slices(p, y, pos, end);
    FinishTag(p + y, p + u, v, depth, |p| + pos, |p| + end, kind);
    FinishTag(y, u, v, depth, pos, end, kind);
    SayConcat(p, u, depth);
    JoinAssoc(OutOne(Say(p, depth)), OutOne(Say(u, depth)), Finish(v, NewDepth(depth, kind)));
  }

  lemma FinishOversized(b: string, u: string, v: string, depth: nat, end: nat)
    requires NextEvent(b, 0, depth > 0) == Oversized(end) && u == b[..end] && v == b[end..]
    ensures Finish(b, depth) == Join(OutOne(Say(u, depth)), Finish(v, depth))
  {
    var r := Drain(v, depth);
    OutSay(NOTHING, u, depth, r.segs);
    JoinNothing(Out(Drain(b, depth).segs));
    JoinNothing(OutOne(Say(u, depth)));
    JoinAssoc(OutOne(Say(u, depth)), Out(r.segs), OutOne(Say(r.rest, r.depth)));
  }

  lemma PrefixSkipOversized(p: string, y: string, depth: nat, end: nat)
    requires NextEvent(y, 0, depth > 0) == Oversized(end)
    requires NextEvent(p + y, 0, depth > 0) == Oversized(|p| + end)
    ensures Finish(p + y, depth) == Join(OutOne(Say(p, depth)), Finish(y, depth))
  {
    var u, v := y[..end], y[end..];
    Slices(p, y, end, end);
    FinishOversized(p + y, p + u, v, depth, |p| + end);
    FinishOversized(y, u, v, depth, end);
    SayConcat(p, u, depth);
    JoinAssoc(OutOne(Say(p, depth)), OutOne(Say(u, depth)), Finish(v, depth));
  }

  /** A prefix in which nothing is decided is emitted in front of the rest. */
  lemma PrefixSkip(p: string, y: string, depth: nat)
    requires NextEvent(p + y, 0, depth > 0) == Shift(|p|, NextEvent(y, 0, depth > 0))
    ensures Finish(p + y, depth) == Join(OutOne(Say(p, depth)), Finish(y, depth))
  {
    var e := NextEvent(y, 0, depth > 0);
    if e.TagAt? {
      PrefixSkipTag(p, y, depth, e.pos, e.end, e.kind);
    } else if e.Oversized? {
      PrefixSkipOversized(p, y, depth, e.end);
    } else {
      FinishPlain(p + y, depth);
      FinishPlain(y, depth);
      SayConcat(p, y, depth);
    }
  }

  lemma BoundedEvent(t: string, i: nat, inside: bool)
    requires i <= |t| && Bounded(t)
    ensures !NextEvent(t, i, inside).Oversized?
    ensures NextEvent(t, i, inside).Partial? ==> |t| - NextEvent(t, i, inside).pos <= MAX_BUFFERED_THINK_TAG_BYTES
    decreases |t| - i
  {
    if i < |t| {
      BoundedLook(t, i, inside);
    }
  }

  lemma {:induction false} NoBracketNoEvent(x: string, i: nat, inside: bool)
    requires i <= |x| && forall j :: i <= j < |x| ==> x[j] != '<'
    ensures NextEvent(x, i, inside) == NoEvent
    decreases |x| - i
  {
    if i < |x| {
      NoBracketNoEvent(x, i + 1, inside);
    }
  }

  /** Outside a block, `</` and what may follow it in a held-back closing tag contain no further `<`. */
  lemma TailHeldPlain(b: string, x: string, inside: bool)
    requires TailHeld(b, x, inside)
    ensures NextEvent(x, 0, inside) == NoEvent
  {
    var s := "</" + x;
    assert s[1] == '/' && AlphaEnd(s, 1) == 1;
    assert PartialClose(s);
    forall j | 0 <= j < |x| ensures x[j] != '<' {
      assert x[j] == s[j + 2];
    }
    NoBracketNoEvent(x, 0, inside);
  }

  /**
   Draining a prefix first, emitting what it decides and carrying the held-back rest over, gives
   in the end what draining everything at once gives.
   */
  ghost predicate Splits(b: string, x: string, depth: nat) {
    var r := Drain(b, depth);
    Finish(b + x, depth) == Join(Out(r.segs), Finish(r.rest + x, r.depth))
  }

  lemma SplitHeld(b: string, x: string, depth: nat, p: string, h: string, y: string)
    requires y == h + x && b + x == p + y && Bounded(p + y)
    requires Drain(b, depth) == Drained([Say(p, depth)], h, depth)
    requires NextEvent(p + y, 0, depth > 0) == NextEvent(p + y, |p|, depth > 0)
    ensures Splits(b, x, depth)
  {
    NextEventShift(p, y, 0, depth > 0);
    BoundedEvent(p + y, 0, depth > 0);
    PrefixSkip(p, y, depth);
    OutCons(Say(p, depth), []);
  }

  lemma SplitTail(b: string, x: string, depth: nat)
    requires TailHeld(b, x, depth > 0) && NextEvent(b, 0, depth > 0) == NoEvent
    requires NextEvent(b + x, 0, depth > 0) == Partial(|b| - 2)
    ensures Splits(b, x, depth)
  {
    TailHeldPlain(b, x, depth > 0);
    FinishPlain(b + x, depth);
    FinishPlain(x, depth);
    SayConcat(b, x, depth);
    OutCons(Say(b, depth), []);
    assert "" + x == x;
  }

  lemma SplitTag(b: string, x: string, depth: nat, pos: nat, end: nat, kind: ThinkTag)
    requires NextEvent(b, 0, depth > 0) == NextEvent(b + x, 0, depth > 0) == TagAt(pos, end, kind)
    requires Splits(b[end..], x, NewDepth(depth, kind))
    ensures Splits(b, x, depth)
  {
    var u, v := b[..pos], b[end..];
    TakeDrop(b, x, pos, end);
    FinishTag(b + x, u, v + x, depth, pos, end, kind);
    FinishTag(b, u, v, depth, pos, end, kind);
    var later := Drain(v, NewDepth(depth, kind));
    JoinAssoc(OutOne(Say(u, depth)), Out(later.segs), Finish(later.rest + x, later.depth));
  }

  lemma TakeDrop(b: string, x: string, pos: nat, end: nat)
    requires pos <= |b| && end <= |b|
    ensures (b + x)[..pos] == b[..pos] && (b + x)[end..] == b[end..] + x && b + x == b[..pos] + (b[pos..] + x)
    ensures b == b[..pos] + b[pos..]
  {
  }

  lemma {:induction false} DrainSplit(b: string, x: string, depth: nat)
    requires Clean(b, depth) && Bounded(b + x)
    ensures Splits(b, x, depth)
    decreases |b|
  {
    NextEventExt(b, x, 0, depth > 0);
    match NextEvent(b, 0, depth > 0) {
      case TagAt(pos, end, kind) =>
        TakeDrop(b, x, pos, end);
        BoundedSuffix(b + x, end);
        DrainSplit(b[end..], x, NewDepth(depth, kind));
        SplitTag(b, x, depth, pos, end, kind);
      case Partial(pos) =>
        BoundedPrefix(b, x);
        BoundedEvent(b, 0, depth > 0);
        TakeDrop(b, x, pos, pos);
        SplitHeld(b, x, depth, b[..pos], b[pos..], b[pos..] + x);
      case NoEvent =>
        if NextEvent(b + x, 0, depth > 0) == NextEvent(b + x, |b|, depth > 0) {
          TakeDrop(b, x, |b|, |b|);
          SplitHeld(b, x, depth, b, "", "" + x);
        } else {
          SplitTail(b, x, depth);
        }
    }
  }
}
