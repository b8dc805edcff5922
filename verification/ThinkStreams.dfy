/**
 How a text is cut into chunks cannot be observed, unless a cut leaves the filter at one of the few
 prefixes that its hold-back patterns do not cover.
 */
module ThinkStreams {
  import opened Wrappers
  import opened ThinkLexer
  import opened LongerText

  // ----- streams of chunks -----

  function Flatten(chunks: seq<string>): string {
    if chunks == [] then "" else chunks[0] + Flatten(chunks[1..])
  }

  /** All that a filter holding b at the given depth emits for the chunks and the end of the stream. */
  function Feed(b: string, depth: nat, chunks: seq<string>): FilterOut
    decreases |chunks|
  {
    if chunks == [] then Finish(b, depth)
    else
      var r := Drain(b + chunks[0], depth);
      Join(Out(r.segs), Feed(r.rest, r.depth, chunks[1..]))
  }

  /** After every chunk but the last the filter is in a state in which nothing it let through leaks. */
  predicate CleanCuts(b: string, depth: nat, chunks: seq<string>)
    decreases |chunks|
  {
    |chunks| > 1 ==>
      var r := Drain(b + chunks[0], depth);
      Clean(b + chunks[0], depth) && CleanCuts(r.rest, r.depth, chunks[1..])
  }

  lemma {:induction false} FeedIsFinish(b: string, depth: nat, chunks: seq<string>)
    requires CleanCuts(b, depth, chunks) && Bounded(b + Flatten(chunks))
    ensures Feed(b, depth, chunks) == Finish(b + Flatten(chunks), depth)
    decreases |chunks|
  {
    if chunks == [] {
      assert b + "" == b;
    } else {
      var c, x := b + chunks[0], Flatten(chunks[1..]);
      assert b + Flatten(chunks) == c + x by {
        assert b + (chunks[0] + x) == (b + chunks[0]) + x;
      }
      var r := Drain(c, depth);
      if |chunks| == 1 {
        assert x == "" && c + x == c;
        DrainAgain(c, depth);
      } else {
        DrainSplit(c, x, depth);
        RestIsSuffix(c, depth);
        BoundedTail(c, r.rest, x);
        FeedIsFinish(r.rest, r.depth, chunks[1..]);
      }
    }
  }

  predicate IsSuffix(rest: string, b: string) {
    |rest| <= |b| && b[|b| - |rest|..] == rest
  }

  lemma SuffixOfSuffix(rest: string, b: string, k: nat)
    requires k <= |b| && IsSuffix(rest, b[k..])
    ensures IsSuffix(rest, b)
  {
  }

  lemma {:induction false} RestIsSuffix(b: string, depth: nat)
    ensures IsSuffix(Drain(b, depth).rest, b)
    decreases |b|
  {
    match NextEvent(b, 0, depth > 0) {
      case TagAt(_, end, kind) =>
        RestIsSuffix(b[end..], NewDepth(depth, kind));
        SuffixOfSuffix(Drain(b, depth).rest, b, end);
      case Oversized(end) =>
        RestIsSuffix(b[end..], depth);
        SuffixOfSuffix(Drain(b, depth).rest, b, end);
      case _ =>
    }
  }

  lemma BoundedTail(c: string, rest: string, x: string)
    requires IsSuffix(rest, c) && Bounded(c + x)
    ensures Bounded(rest + x)
  {
    BoundedSuffix(c + x, |c| - |rest|);
    assert (c + x)[|c| - |rest|..] == rest + x;
  }

  /** Draining what is held back once more decides nothing new. */
  lemma {:induction false} DrainAgain(b: string, depth: nat)
    ensures var r := Drain(b, depth); Join(Out(r.segs), Finish(r.rest, r.depth)) == Finish(b, depth)
    decreases |b|
  {
    var r := Drain(b, depth);
    HeldStaysHeld(b, depth);
    if r.rest == "" {
      assert NextEvent("", 0, r.depth > 0) == NoEvent;
    }
    FinishPlain(r.rest, r.depth);
  }

  lemma {:induction false} HeldStaysHeld(b: string, depth: nat)
    ensures var r := Drain(b, depth); r.rest == "" || NextEvent(r.rest, 0, r.depth > 0) == Partial(0)
    decreases |b|
  {
    match NextEvent(b, 0, depth > 0) {
      case TagAt(_, end, kind) => HeldStaysHeld(b[end..], NewDepth(depth, kind));
      case Oversized(end) => HeldStaysHeld(b[end..], depth);
      case Partial(pos) =>
        HoldAt(b, 0, depth > 0);
        assert b[pos..][0..] == b[pos..];
      case NoEvent =>
    }
  }

  lemma {:induction false} HoldAt(b: string, i: nat, inside: bool)
    requires i <= |b| && NextEvent(b, i, inside).Partial?
    ensures var pos := NextEvent(b, i, inside).pos; b[pos] == '<' && LookAt(b[pos..], inside) == Hold
    decreases |b| - i
  {
    if b[i] != '<' || LookAt(b[i..], inside).Pass? {
      HoldAt(b, i + 1, inside);
    }
  }

  /**
   Chunk independence: cutting a text at clean cuts gives the same content and the same thinking
   as giving it to the filter whole. The text may be of any length as long as no tag in it
   exceeds the buffer bound; a text of at most that many bytes always qualifies (ShortIsBounded).
   */
  lemma ChunkIndependence(chunks: seq<string>)
    requires CleanCuts("", 0, chunks) && Bounded(Flatten(chunks))
    ensures Feed("", 0, chunks) == Feed("", 0, [Flatten(chunks)])
  {
    var t := Flatten(chunks);
    assert "" + t == t;
    assert Flatten([t]) == t by {
      assert [t][1..] == [];
      assert t + "" == t;
    }
    FeedIsFinish("", 0, chunks);
    FeedIsFinish("", 0, [t]);
  }

  // ----- clean cuts by looking at the text -----

  /** No end of the text is one of the prefixes that the hold-back patterns miss. */
  predicate EndsPlainly(t: string) {
    forall k :: 0 <= k < |t| ==> !Leaks(t[k..], true)
  }

  /** At every cut, the text up to the cut ends plainly. */
  predicate PlainCuts(chunks: seq<string>) {
    forall n :: 0 < n < |chunks| ==> EndsPlainly(Flatten(chunks[..n]))
  }

  lemma PlainSuffix(rest: string, t: string)
    requires IsSuffix(rest, t) && EndsPlainly(t)
    ensures EndsPlainly(rest)
  {
    var j := |t| - |rest|;
    forall k | 0 <= k < |rest| ensures !Leaks(rest[k..], true) {
      assert t[j + k..] == rest[k..];
    }
  }

  lemma {:induction false} PlainIsScanClean(b: string, i: nat, inside: bool)
    requires i <= |b| && EndsPlainly(b)
    ensures ScanClean(b, i, inside)
    decreases |b| - i
  {
    if i < |b| {
      assert !Leaks(b[i..], true);
      PlainIsScanClean(b, i + 1, inside);
    }
  }

  lemma {:induction false} PlainIsClean(b: string, depth: nat)
    requires EndsPlainly(b)
    ensures Clean(b, depth)
    decreases |b|
  {
    PlainIsScanClean(b, 0, depth > 0);
    match NextEvent(b, 0, depth > 0) {
      case TagAt(_, end, kind) =>
        PlainSuffix(b[end..], b);
        PlainIsClean(b[end..], NewDepth(depth, kind));
      case Oversized(end) =>
        PlainSuffix(b[end..], b);
        PlainIsClean(b[end..], depth);
      case _ =>
    }
  }

  lemma SuffixGrows(rest: string, t: string, chunk: string)
    requires IsSuffix(rest, t)
    ensures IsSuffix(rest + chunk, t + chunk)
  {
  }

  lemma SuffixTrans(a: string, b: string, c: string)
    requires IsSuffix(a, b) && IsSuffix(b, c)
    ensures IsSuffix(a, c)
  {
    assert c[|c| - |b|..][|b| - |a|..] == c[|c| - |a|..];
  }

  lemma FlattenTake(chunks: seq<string>, n: nat)
    requires 0 < n <= |chunks|
    ensures Flatten(chunks[..n]) == chunks[0] + Flatten(chunks[1..][..n - 1])
  {
    assert chunks[..n][1..] == chunks[1..][..n - 1];
  }

  /** The filter holds some end of the text before, so what is plain for the text is plain for the filter. */
  lemma {:induction false} PlainIsCleanFrom(before: string, b: string, depth: nat, chunks: seq<string>)
    requires IsSuffix(b, before)
    requires forall n :: 0 < n < |chunks| ==> EndsPlainly(before + Flatten(chunks[..n]))
    ensures CleanCuts(b, depth, chunks)
    decreases |chunks|
  {
    if |chunks| > 1 {
      var c, t := b + chunks[0], before + chunks[0];
      SuffixGrows(b, before, chunks[0]);
      forall n | 0 <= n < |chunks| - 1 ensures EndsPlainly(t + Flatten(chunks[1..][..n])) {
        FlattenTake(chunks, n + 1);
        assert t + Flatten(chunks[1..][..n]) == before + Flatten(chunks[..n + 1]);
      }
      assert t + Flatten(chunks[1..][..0]) == t;
      PlainSuffix(c, t);
      PlainIsClean(c, depth);
      RestIsSuffix(c, depth);
      SuffixTrans(Drain(c, depth).rest, c, t);
      PlainIsCleanFrom(t, Drain(c, depth).rest, Drain(c, depth).depth, chunks[1..]);
    }
  }

  /** A caller can tell from the text alone that its cuts will not be seen. */
  lemma PlainCutsIndependence(chunks: seq<string>)
    requires PlainCuts(chunks) && Bounded(Flatten(chunks))
    ensures CleanCuts("", 0, chunks) && Feed("", 0, chunks) == Feed("", 0, [Flatten(chunks)])
  {
    forall n | 0 < n < |chunks| ensures EndsPlainly("" + Flatten(chunks[..n])) {
      assert "" + Flatten(chunks[..n]) == Flatten(chunks[..n]);
    }
    PlainIsCleanFrom("", "", 0, chunks);
    ChunkIndependence(chunks);
  }

  // ----- clean cuts are exactly the harmless ones -----

  function QuoteAfter(s: string, i: nat, quote: Option<char>): Option<char>
    requires i <= |s|
    decreases |s| - i
  {
    if i == |s| then quote
    else if quote.Some? then QuoteAfter(s, i + 1, if s[i] == quote.value then None else quote)
    else QuoteAfter(s, i + 1, if IsQuote(s[i]) then Some(s[i]) else None)
  }

  /** Text that turns a leaked prefix into a complete tag. */
  function Completion(s: string): string {
    if s == "<" || s == "</" then "think>"
    else match QuoteAfter(s, 0, None) case Some(c) => [c, '>'] case None => ">"
  }

  lemma {:induction false} ScanOpenCompletes(s: string, x: string, i: nat, quote: Option<char>, last: Option<char>)
    requires i <= |s| && !HasGt(s, i, quote)
    requires x == match QuoteAfter(s, i, quote) case Some(c) => [c, '>'] case None => ">"
    ensures ScanOpen(s + x, i, quote, last).Some? && ScanOpen(s + x, i, quote, last).value.1 == |s + x|
    decreases |s| - i
  {
    if i < |s| {
      assert (s + x)[i] == s[i];
      if quote.Some? {
        ScanOpenCompletes(s, x, i + 1, if s[i] == quote.value then None else quote, last);
      } else if IsQuote(s[i]) {
        ScanOpenCompletes(s, x, i + 1, Some(s[i]), Some(s[i]));
      } else {
        ScanOpenCompletes(s, x, i + 1, None, if IsSpace(s[i]) then last else Some(s[i]));
      }
    } else {
      assert (s + x)[i] == x[0];
      if quote.Some? {
        assert (s + x)[i + 1] == '>';
        assert ScanOpen(s + x, i + 1, None, last) == Some((if last == Some('/') then SelfClosing else Open, i + 2));
      }
    }
  }

  lemma {:induction false} QuoteAfterSkip(s: string, i: nat, j: nat)
    requires i <= j <= |s|
    requires forall k :: i <= k < j ==> !IsQuote(s[k])
    ensures QuoteAfter(s, i, None) == QuoteAfter(s, j, None)
    decreases j - i
  {
    if i < j {
      QuoteAfterSkip(s, i + 1, j);
    }
  }

  lemma LoneTags()
    ensures ParseTag("<think>") == Some((Open, 7))
    ensures ParseTag("</think>") == Some((Close, 8))
  {
    var o, c := "<think>", "</think>";
    assert AlphaEnd(o, 1) == 6 && o[1..6] == THINK;
    assert ScanOpen(o, 6, None, None) == Some((Open, 7));
    assert NameStart(c) == 2 && AlphaEnd(c, 2) == 7 && c[2..7] == THINK;
    assert SpaceEnd(c, 7) == 7;
  }

  lemma SlashCompletes(s: string)
    requires OpenSlash(s)
    ensures var r := ParseTag(s + Completion(s)); r.Some? && r.value.0 != Close && r.value.1 == |s + Completion(s)|
  {
    var x := Completion(s);
    var e := AlphaEnd(s, 1);
    NameExt(s, x, 1);
    assert (s + x)[1] == s[1] && (s + x)[e] == s[e];
    HeadSkip(s, e);
    QuoteAfterSkip(s, 0, e);
    ScanOpenCompletes(s, x, e, None, None);
  }

  lemma LeakCompletes(s: string, inside: bool)
    requires Leaks(s, inside) && |s| + 6 <= MAX_BUFFERED_THINK_TAG_BYTES
    ensures |Completion(s)| <= 6
    ensures LookAt(s + Completion(s), inside).IsTag?
    ensures LookAt(s + Completion(s), inside).len == |s + Completion(s)|
  {
    if s == "<" || s == "</" {
      LoneTags();
      assert "<" + "think>" == "<think>" && "</" + "think>" == "</think>";
    } else {
      SlashCompletes(s);
    }
  }

  lemma LeakHere(b: string, i: nat, inside: bool, x: string)
    requires i < |b| && |b| + 6 <= MAX_BUFFERED_THINK_TAG_BYTES
    requires b[i] == '<' && Leaks(b[i..], inside) && x == Completion(b[i..])
    ensures |x| <= 6
    ensures NextEvent(b + x, i, inside).TagAt? && NextEvent(b + x, i, inside).pos == i
    ensures NextEvent(b + x, i, inside).end == |b + x|
  {
    LeakCompletes(b[i..], inside);
    assert (b + x)[i..] == b[i..] + x;
    assert (b + x)[i] == '<';
  }

  /** The first leak of a scan, and the text that shows it. */
  lemma {:induction false} LeakShows(b: string, i: nat, inside: bool) returns (p: nat, x: string)
    requires i <= |b| && |b| + 6 <= MAX_BUFFERED_THINK_TAG_BYTES && !ScanClean(b, i, inside)
    ensures i <= p < |b| && |x| <= 6
    ensures NextEvent(b + x, i, inside).TagAt? && NextEvent(b + x, i, inside).pos == p
    ensures NextEvent(b + x, i, inside).end == |b + x|
    ensures var e := NextEvent(b, i, inside); e.NoEvent? || (e.TagAt? && e.pos > p) || (e.Partial? && e.pos > p)
    decreases |b| - i
  {
    if b[i] == '<' && Leaks(b[i..], inside) {
      p, x := i, Completion(b[i..]);
      LeakHere(b, i, inside, x);
      ShortIsBounded(b);
      BoundedEvent(b, i, inside);
    } else {
      p, x := LeakShows(b, i + 1, inside);
      ShortIsBounded(b + x);
      if b[i] == '<' {
        LookStep(b, x, i, inside);
      }
    }
  }

  function Len(out: FilterOut): nat { |out.content| + |out.thinking| }

  lemma EmittedBefore(b: string, depth: nat, p: nat)
    requires |b| <= MAX_BUFFERED_THINK_TAG_BYTES && p < |b|
    requires var e := NextEvent(b, 0, depth > 0); e.NoEvent? || (e.TagAt? && e.pos > p) || (e.Partial? && e.pos > p)
    ensures Len(Out(Drain(b, depth).segs)) > p
  {
    match NextEvent(b, 0, depth > 0) {
      case TagAt(pos, end, kind) => FinishTag(b, b[..pos], b[end..], depth, pos, end, kind);
      case Partial(pos) => OutCons(Say(b[..pos], depth), []);
      case NoEvent => OutCons(Say(b, depth), []);
    }
  }

  lemma LeaksHere(b: string, depth: nat) returns (x: string)
    requires !ScanClean(b, 0, depth > 0) && |b| + 6 <= MAX_BUFFERED_THINK_TAG_BYTES
    ensures |x| <= 6
    ensures var r := Drain(b, depth); Len(Finish(b + x, depth)) < Len(Join(Out(r.segs), Finish(r.rest + x, r.depth)))
  {
    var p;
    p, x := LeakShows(b, 0, depth > 0);
    var e := NextEvent(b + x, 0, depth > 0);
    TakeDrop(b, x, p, p);
    FinishTag(b + x, b[..p], "", depth, p, |b + x|, e.kind);
    assert NextEvent("", 0, NewDepth(depth, e.kind) > 0) == NoEvent;
    FinishPlain("", NewDepth(depth, e.kind));
    EmittedBefore(b, depth, p);
  }

  /** If the filter leaks, some continuation makes it emit more than it does for the uncut text. */
  lemma {:induction false} LeakIsVisible(b: string, depth: nat) returns (x: string)
    requires !Clean(b, depth) && |b| + 6 <= MAX_BUFFERED_THINK_TAG_BYTES
    ensures |x| <= 6
    ensures var r := Drain(b, depth); Len(Finish(b + x, depth)) < Len(Join(Out(r.segs), Finish(r.rest + x, r.depth)))
    decreases |b|
  {
    if !ScanClean(b, 0, depth > 0) {
      x := LeaksHere(b, depth);
    } else {
      ShortIsBounded(b);
      BoundedEvent(b, 0, depth > 0);
      var e := NextEvent(b, 0, depth > 0);
      x := LeakIsVisible(b[e.end..], NewDepth(depth, e.kind));
      ShortIsBounded(b + x);
      NextEventExt(b, x, 0, depth > 0);
      TakeDrop(b, x, e.pos, e.end);
      FinishTag(b, b[..e.pos], b[e.end..], depth, e.pos, e.end, e.kind);
      FinishTag(b + x, b[..e.pos], b[e.end..] + x, depth, e.pos, e.end, e.kind);
    }
  }

  /**
   The exact condition under which a cut cannot be observed: a filter that has drained b behaves
   on every continuation as if there had been no cut if and only if nothing it let through leaks.
   */
  lemma CleanIffUnobservable(b: string, depth: nat)
    requires |b| + 6 <= MAX_BUFFERED_THINK_TAG_BYTES
    ensures Clean(b, depth) <==>
            forall x :: |b| + |x| <= MAX_BUFFERED_THINK_TAG_BYTES ==> Splits(b, x, depth)
  {
    if Clean(b, depth) {
      forall x | |b| + |x| <= MAX_BUFFERED_THINK_TAG_BYTES ensures Splits(b, x, depth) {
        ShortIsBounded(b + x);
        DrainSplit(b, x, depth);
      }
    } else {
      var x := LeakIsVisible(b, depth);
      assert !Splits(b, x, depth);
    }
  }

  /** The same for two pushes into a fresh filter. */
  lemma TwoChunks(p: string, x: string)
    ensures Feed("", 0, [p, x]) == Feed("", 0, [p + x]) <==> Splits(p, x, 0)
  {
    var r := Drain(p, 0);
    assert "" + p == p && "" + (p + x) == p + x;
    assert [p, x][1..] == [x] && [x][1..] == [] && [p + x][1..] == [];
    DrainAgain(r.rest + x, r.depth);
    DrainAgain(p + x, 0);
    var two := Drain(r.rest + x, r.depth);
    assert Feed(r.rest, r.depth, [x]) == Join(Out(two.segs), Feed(two.rest, two.depth, []));
    var one := Drain(p + x, 0);
    assert Feed("", 0, [p + x]) == Join(Out(one.segs), Feed(one.rest, one.depth, []));
  }

  /** What one push of p must leave behind for the cut after it never to be seen. */
  lemma CutIsUnobservableIffClean(p: string)
    requires |p| + 6 <= MAX_BUFFERED_THINK_TAG_BYTES
    ensures Clean(p, 0) <==>
            forall x :: |p| + |x| <= MAX_BUFFERED_THINK_TAG_BYTES ==> Feed("", 0, [p, x]) == Feed("", 0, [p + x])
  {
    CleanIffUnobservable(p, 0);
    forall x ensures Feed("", 0, [p, x]) == Feed("", 0, [p + x]) <==> Splits(p, x, 0) {
      TwoChunks(p, x);
    }
  }

  lemma BracketIsNotClean()
    ensures !Clean("<", 0)
  {
    assert "<"[0..] == "<" && Leaks("<", false);
    assert ParseTag("<") == None && !IsPartial("<");
  }

  /** A cut right behind a bracket is seen: the bracket is shown, and the tag it began never recognised. */
  lemma CutBehindBracketShows()
    ensures !Clean("<", 0)
    ensures Feed("", 0, ["<", "think>"]) != Feed("", 0, ["<" + "think>"])
  {
    var b, x := "<", "think>";
    BracketIsNotClean();
    assert b[0..] == "<" && Completion("<") == x;
    LeakHere(b, 0, false, x);
    var e := NextEvent(b + x, 0, false);
    FinishTag(b + x, "", "", 0, 0, |b + x|, e.kind);
    assert NextEvent("", 0, NewDepth(0, e.kind) > 0) == NoEvent;
    FinishPlain("", NewDepth(0, e.kind));
    assert NextEvent(b, 0, false) == NextEvent(b, 1, false) == NoEvent;
    EmittedBefore(b, 0, 0);
    TwoChunks(b, x);
  }
}
