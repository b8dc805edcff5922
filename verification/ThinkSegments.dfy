/** No byte of a stream is lost: what is not emitted is dropped as complete think tags. */
module ThinkSegments {
  import opened Sequences
  import opened ThinkLexer
  import opened LongerText
  import opened ThinkStreams

  // ----- nothing is lost -----

  function TextOf(segs: seq<Seg>): string {
    if segs == [] then "" else segs[0].text + TextOf(segs[1..])
  }

  /** What is dropped is one complete think tag within the bound. */
  ghost predicate DropsOnlyTags(segs: seq<Seg>) {
    forall i :: 0 <= i < |segs| && segs[i].mark == Dropped ==> CompleteTag(segs[i].text)
  }

  function StreamSegs(b: string, depth: nat, chunks: seq<string>): seq<Seg>
    decreases |chunks|
  {
    var r := if chunks == [] then Drain(b, depth) else Drain(b + chunks[0], depth);
    if chunks == [] then r.segs + [Say(r.rest, r.depth)] else r.segs + StreamSegs(r.rest, r.depth, chunks[1..])
  }

  lemma {:induction false} TextConcat(a: seq<Seg>, b: seq<Seg>)
    ensures TextOf(a + b) == TextOf(a) + TextOf(b)
  {
    if a == [] {
      assert a + b == b;
    } else {
      TextConcat(a[1..], b);
      assert (a + b)[1..] == a[1..] + b;
      Assoc(a[0].text, TextOf(a[1..]), TextOf(b));
    }
  }

  lemma {:induction false} OutConcat(a: seq<Seg>, b: seq<Seg>)
    ensures Out(a + b) == Join(Out(a), Out(b))
  {
    if a == [] {
      assert a + b == b;
      JoinNothing(Out(b));
    } else {
      OutConcat(a[1..], b);
      assert a + b == [a[0]] + (a[1..] + b) && a == [a[0]] + a[1..];
      OutCons(a[0], a[1..] + b);
      OutCons(a[0], a[1..]);
      JoinAssoc(OutOne(a[0]), Out(a[1..]), Out(b));
    }
  }

  predicate CompleteTag(tag: string) {
    0 < |tag| <= MAX_BUFFERED_THINK_TAG_BYTES && ParseTag(tag).Some? && ParseTag(tag).value.1 == |tag|
  }

  lemma LookTagIsTag(s: string, inside: bool)
    requires s != "" && LookAt(s, inside).IsTag?
    ensures CompleteTag(s[..LookAt(s, inside).len])
  {
    var n := LookAt(s, inside).len;
    assert s == s[..n] + s[n..];
    ParseTagCut(s[..n], s[n..]);
  }

  lemma {:induction false} TagAtIsTag(b: string, i: nat, inside: bool)
    requires i <= |b| && NextEvent(b, i, inside).TagAt?
    ensures var e := NextEvent(b, i, inside); CompleteTag(b[e.pos..e.end])
    decreases |b| - i
  {
    if b[i] != '<' || LookAt(b[i..], inside).Pass? {
      TagAtIsTag(b, i + 1, inside);
    } else {
      LookTagIsTag(b[i..], inside);
      SliceOfTail(b, i, LookAt(b[i..], inside).len);
    }
  }

  lemma SliceOfTail(b: string, i: nat, n: nat)
    requires i + n <= |b|
    ensures b[i..][..n] == b[i..i + n]
  {
  }

  /** r accounts for every byte of b. */
  ghost predicate Accounts(r: Drained, b: string) {
    TextOf(r.segs) + r.rest == b && DropsOnlyTags(r.segs) && |r.rest| <= MAX_BUFFERED_THINK_TAG_BYTES
  }

  lemma AccountsBefore(seg: Seg, r: Drained, b: string, c: string)
    requires Accounts(r, b) && c == seg.text + b && (seg.mark == Dropped ==> CompleteTag(seg.text))
    ensures Accounts(Before(seg, r), c)
  {
    assert ([seg] + r.segs)[1..] == r.segs;
    Assoc(seg.text, TextOf(r.segs), r.rest);
  }

  lemma CutApart(b: string, pos: nat, end: nat)
    requires pos <= end <= |b|
    ensures b[pos..] == b[pos..end] + b[end..] && b == b[..pos] + b[pos..] && b == b[..end] + b[end..] && b == b + ""
  {
  }

  lemma AccountsTag(u: string, tag: string, later: Drained, v: string, depth: nat, tail: string, b: string)
    requires Accounts(later, v) && CompleteTag(tag) && tail == tag + v && b == u + tail
    ensures Accounts(Before(Say(u, depth), Before(Seg(Dropped, tag), later)), b)
  {
    AccountsBefore(Seg(Dropped, tag), later, v, tail);
    AccountsBefore(Say(u, depth), Before(Seg(Dropped, tag), later), tail, b);
  }

  lemma AccountsLast(u: string, rest: string, depth: nat, b: string)
    requires b == u + rest
    ensures |rest| <= MAX_BUFFERED_THINK_TAG_BYTES ==> Accounts(Drained([Say(u, depth)], rest, depth), b)
  {
    assert [Say(u, depth)][1..] == [];
    WithEmpty(u);
  }

  lemma {:induction false} DrainLosesNothing(b: string, depth: nat)
    ensures Accounts(Drain(b, depth), b)
    decreases |b|
  {
    match NextEvent(b, 0, depth > 0) {
      case TagAt(pos, end, kind) =>
        CutApart(b, pos, end);
        DrainLosesNothing(b[end..], NewDepth(depth, kind));
        TagAtIsTag(b, 0, depth > 0);
        AccountsTag(b[..pos], b[pos..end], Drain(b[end..], NewDepth(depth, kind)), b[end..], depth, b[pos..], b);
      case Oversized(end) =>
        CutApart(b, 0, end);
        DrainLosesNothing(b[end..], depth);
        AccountsBefore(Say(b[..end], depth), Drain(b[end..], depth), b[end..], b);
      case Partial(pos) =>
        CutApart(b, pos, pos);
        AccountsLast(b[..pos], b[pos..], depth, b);
        AccountsLast(b, "", depth, b);
      case NoEvent =>
        CutApart(b, 0, 0);
        AccountsLast(b, "", depth, b);
    }
  }

  lemma Accounted(r: Drained, b: string, x: string, later: seq<Seg>)
    requires Accounts(r, b) && TextOf(later) == r.rest + x && DropsOnlyTags(later)
    ensures TextOf(r.segs + later) == b + x && DropsOnlyTags(r.segs + later)
    ensures Out(r.segs + later) == Join(Out(r.segs), Out(later))
  {
    TextConcat(r.segs, later);
    OutConcat(r.segs, later);
    Assoc(TextOf(r.segs), r.rest, x);
  }

  /**
   Lossless segmentation: every stream, however it is cut, is the in-order concatenation of what
   is shown, what is kept as thinking and what is dropped; only complete think tags are dropped;
   and the two outputs are the shown and the thought segments.
   */
  lemma {:induction false} StreamLosesNothing(b: string, depth: nat, chunks: seq<string>)
    ensures TextOf(StreamSegs(b, depth, chunks)) == b + Flatten(chunks)
    ensures DropsOnlyTags(StreamSegs(b, depth, chunks))
    ensures Feed(b, depth, chunks) == Out(StreamSegs(b, depth, chunks))
    decreases |chunks|, 0
  {
    if chunks == [] {
      var r := Drain(b, depth);
      DrainLosesNothing(b, depth);
      OutCons(Say(r.rest, r.depth), []);
      assert [Say(r.rest, r.depth)][1..] == [];
      WithEmpty(r.rest);
      Accounted(r, b, "", [Say(r.rest, r.depth)]);
      WithEmpty(b);
    } else {
      var c := b + chunks[0];
      StreamStep(Drain(c, depth), b, chunks[0], Flatten(chunks[1..]), depth, chunks[1..]);
    }
  }

  lemma StreamStep(r: Drained, b: string, chunk: string, x: string, depth: nat, more: seq<string>)
    requires r == Drain(b + chunk, depth) && x == Flatten(more)
    ensures var later := StreamSegs(r.rest, r.depth, more);
            TextOf(r.segs + later) == b + (chunk + x) && DropsOnlyTags(r.segs + later)
            && Join(Out(r.segs), Feed(r.rest, r.depth, more)) == Out(r.segs + later)
    decreases |more|, 1
  {
    DrainLosesNothing(b + chunk, depth);
    StreamLosesNothing(r.rest, r.depth, more);
    Accounted(r, b + chunk, x, StreamSegs(r.rest, r.depth, more));
    Assoc(b, chunk, x);
  }

  // ----- the callers -----

  method SplitThinkBlocks(text: string) returns (content: string, thinking: string)
    ensures FilterOut(content, thinking) == Feed("", 0, [text])
  {
    var filter := new ThinkFilter();
    var out := filter.Push(text);
    var last := filter.Finish();
    assert "" + text == text && [text][1..] == [];
    content, thinking := out.content + last.content, out.thinking + last.thinking;
  }

  /** A consumer of a stream: pushes the chunks as they come and collects what the filter emits. */
  method FilterStream(chunks: seq<string>) returns (out: FilterOut)
    ensures out == Feed("", 0, chunks)
  {
    var filter := new ThinkFilter();
    out := NOTHING;
    JoinNothing(Feed("", 0, chunks));
    for i := 0 to |chunks|
      invariant filter.Valid() && fresh(filter)
      invariant Join(out, Feed(filter.buffer, filter.thinkDepth, chunks[i..])) == Feed("", 0, chunks)
    {
      ghost var r := Drain(filter.buffer + chunks[i], filter.thinkDepth);
      JoinAssoc(out, Out(r.segs), Feed(r.rest, r.depth, chunks[i..][1..]));
      assert chunks[i..][1..] == chunks[i + 1..];
      var step := filter.Push(chunks[i]);
      out := Join(out, step);
    }
    var last := filter.Finish();
    out := Join(out, last);
  }
}
