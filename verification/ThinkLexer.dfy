/**
 The streaming filter that separates `<think>` reasoning from visible text.

 A text is the sequence of its UTF-8 bytes, each byte written as the character with that code;
 every comparison of the program is with an ASCII byte, so bytes above 0x7F only pass through.

 The first part states what a tag is, what one look at a `<` decides, and what draining a whole
 buffer yields (`Drain`). The methods and the class are proved against it. The theorems about
 streams are in module ThinkStreams.
 */
module ThinkLexer {
  import opened Wrappers

  const MAX_BUFFERED_THINK_TAG_BYTES: nat := 8192

  datatype ThinkTag = Open | Close | SelfClosing

  // ----- characters -----

  predicate IsAlpha(c: char) {
    'a' <= c <= 'z' || 'A' <= c <= 'Z'
  }

  /** ASCII white space as the byte tests of the tag parser see it. */
  predicate IsSpace(c: char) {
    c == ' ' || c == '\t' || c == '\n' || c == '\r' || c as int == 12
  }

  /** White space as the partial-tag patterns see it: they also accept the vertical tab. */
  predicate IsPatternSpace(c: char) {
    IsSpace(c) || c as int == 11
  }

  function Lower(c: char): char {
    if 'A' <= c <= 'Z' then ((c as int) + 32) as char else c
  }

  predicate EqIgnoreCase(a: string, b: string) {
    |a| == |b| && forall i :: 0 <= i < |a| ==> Lower(a[i]) == Lower(b[i])
  }

  const THINK := "think"
  const THINKING := "thinking"

  predicate IsThinkName(name: string) {
    EqIgnoreCase(name, THINK) || EqIgnoreCase(name, THINKING)
  }

  /** A non-empty prefix of `thinking`, in any case. */
  predicate IsNamePrefix(name: string) {
    0 < |name| <= |THINKING| && EqIgnoreCase(name, THINKING[..|name|])
  }

  // ----- what a tag is -----

  /** The end of the run of letters of s that starts at i. */
  function AlphaEnd(s: string, i: nat): (e: nat)
    requires i <= |s|
    ensures i <= e <= |s|
    ensures forall j :: i <= j < e ==> IsAlpha(s[j])
    ensures e < |s| ==> !IsAlpha(s[e])
    decreases |s| - i
  {
    if i < |s| && IsAlpha(s[i]) then AlphaEnd(s, i + 1) else i
  }

  /** The end of the run of white space of s that starts at i. */
  function SpaceEnd(s: string, i: nat): (e: nat)
    requires i <= |s|
    ensures i <= e <= |s|
    ensures forall j :: i <= j < e ==> IsSpace(s[j])
    ensures e < |s| ==> !IsSpace(s[e])
    decreases |s| - i
  {
    if i < |s| && IsSpace(s[i]) then SpaceEnd(s, i + 1) else i
  }

  predicate IsQuote(c: char) {
    c == '"' || c == '\''
  }

  /** Is there a `>` outside quotes in s from i on, `quote` being the quote open at i? */
  predicate HasGt(s: string, i: nat, quote: Option<char>)
    requires i <= |s|
    decreases |s| - i
  {
    i < |s| &&
    if quote.Some? then HasGt(s, i + 1, if s[i] == quote.value then None else quote)
    else if IsQuote(s[i]) then HasGt(s, i + 1, Some(s[i]))
    else s[i] == '>' || HasGt(s, i + 1, None)
  }

  /** The first `>` outside quotes from i on ends an opening tag; a `/` before it makes it self-closing. */
  function ScanOpen(s: string, i: nat, quote: Option<char>, last: Option<char>): (r: Option<(ThinkTag, nat)>)
    requires i <= |s|
    ensures r.Some? ==> r.value.0 != Close && i < r.value.1 <= |s|
    decreases |s| - i
  {
    if i == |s| then None
    else if quote.Some? then ScanOpen(s, i + 1, if s[i] == quote.value then None else quote, last)
    else if IsQuote(s[i]) then ScanOpen(s, i + 1, Some(s[i]), Some(s[i]))
    else if s[i] == '>' then Some((if last == Some('/') then SelfClosing else Open, i + 1))
    else ScanOpen(s, i + 1, None, if IsSpace(s[i]) then last else Some(s[i]))
  }

  function NameStart(s: string): nat {
    if |s| > 1 && s[1] == '/' then 2 else 1
  }

  /** The think tag at the start of s, with its length. */
  function ParseTag(s: string): (r: Option<(ThinkTag, nat)>)
    ensures r.Some? ==> 0 < r.value.1 <= |s| && s[0] == '<'
  {
    if s == "" || s[0] != '<' then None
    else
      var n := NameStart(s);
      var e := AlphaEnd(s, n);
      if !IsThinkName(s[n..e]) then None
      else if n == 2 then
        var w := SpaceEnd(s, e);
        if w < |s| && s[w] == '>' then Some((Close, w + 1)) else None
      else if e < |s| && (s[e] == '>' || s[e] == '/' || IsSpace(s[e])) then ScanOpen(s, e, None, None)
      else None
  }

  // ----- what may still become a tag -----

  predicate PartialOpen(s: string) {
    |s| > 0 && s[0] == '<' &&
    var e := AlphaEnd(s, 1);
    IsNamePrefix(s[1..e]) && (e == |s| || (s[e] == '/' && e + 1 == |s|) || IsPatternSpace(s[e]))
  }

  predicate PartialClose(s: string) {
    |s| > 1 && s[0] == '<' && s[1] == '/' &&
    var e := AlphaEnd(s, 2);
    IsNamePrefix(s[2..e]) && forall j :: e <= j < |s| ==> IsPatternSpace(s[j])
  }

  predicate IsPartial(s: string) {
    !HasGt(s, 0, None) && (PartialOpen(s) || PartialClose(s))
  }

  // ----- what one look at a `<` decides -----

  datatype Look =
    | IsTag(kind: ThinkTag, len: nat)
    | TooLong(len: nat)
    | Hold
    | Pass

  function LookAt(s: string, inside: bool): (r: Look)
    requires |s| > 0
    ensures r.IsTag? ==> 0 < r.len <= |s|
    ensures r.TooLong? ==> MAX_BUFFERED_THINK_TAG_BYTES < r.len <= |s|
  {
    var p := ParseTag(s);
    if p.Some? then
      if p.value.1 > MAX_BUFFERED_THINK_TAG_BYTES then TooLong(p.value.1)
      else if inside || p.value.0 != Close then IsTag(p.value.0, p.value.1)
      else Pass
    else if IsPartial(s) then Hold
    else Pass
  }

  datatype Event =
    | TagAt(pos: nat, end: nat, kind: ThinkTag)
    | Oversized(end: nat)
    | Partial(pos: nat)
    | NoEvent

  /** The first decision from index i on. */
  function NextEvent(b: string, i: nat, inside: bool): (r: Event)
    requires i <= |b|
    ensures r.TagAt? ==> i <= r.pos < r.end <= |b|
    ensures r.Oversized? ==> i < r.end <= |b|
    ensures r.Partial? ==> i <= r.pos < |b|
    decreases |b| - i
  {
    if i == |b| then NoEvent
    else if b[i] != '<' then NextEvent(b, i + 1, inside)
    else
      match LookAt(b[i..], inside)
      case IsTag(kind, len) => TagAt(i, i + len, kind)
      case TooLong(len) => Oversized(i + len)
      case Hold => Partial(i)
      case Pass => NextEvent(b, i + 1, inside)
  }

  // ----- draining a buffer -----

  /** Where a piece of the input goes. */
  datatype Mark = Shown | Thought | Dropped

  datatype Seg = Seg(mark: Mark, text: string)

  function Say(text: string, depth: nat): Seg {
    Seg(if depth > 0 then Thought else Shown, text)
  }

  function NewDepth(depth: nat, kind: ThinkTag): nat {
    match kind
    case Open => depth + 1
    case Close => if depth > 0 then depth - 1 else 0
    case SelfClosing => depth
  }

  datatype Drained = Drained(segs: seq<Seg>, rest: string, depth: nat)

  function Before(seg: Seg, r: Drained): Drained {
    r.(segs := [seg] + r.segs)
  }

  function Drain(b: string, depth: nat): (r: Drained)
    decreases |b|
  {
    match NextEvent(b, 0, depth > 0)
    case TagAt(pos, end, kind) =>
      Before(Say(b[..pos], depth), Before(Seg(Dropped, b[pos..end]), Drain(b[end..], NewDepth(depth, kind))))
    case Oversized(end) => Before(Say(b[..end], depth), Drain(b[end..], depth))
    case Partial(pos) =>
      if |b| - pos > MAX_BUFFERED_THINK_TAG_BYTES then Drained([Say(b, depth)], "", depth)
      else Drained([Say(b[..pos], depth)], b[pos..], depth)
    case NoEvent => Drained([Say(b, depth)], "", depth)
  }

  function Part(seg: Seg, m: Mark): string {
    if seg.mark == m then seg.text else ""
  }

  /** The concatenated text of the segments with mark m. */
  function Gather(segs: seq<Seg>, m: Mark): string {
    if segs == [] then "" else Part(segs[0], m) + Gather(segs[1..], m)
  }

  datatype FilterOut = FilterOut(content: string, thinking: string)

  const NOTHING := FilterOut("", "")

  /** What the caller sees of a segment, and of a sequence of segments. */
  function OutOne(seg: Seg): FilterOut {
    FilterOut(Part(seg, Shown), Part(seg, Thought))
  }

  function Out(segs: seq<Seg>): FilterOut {
    FilterOut(Gather(segs, Shown), Gather(segs, Thought))
  }

  function Join(a: FilterOut, b: FilterOut): FilterOut {
    FilterOut(a.content + b.content, a.thinking + b.thinking)
  }

  lemma JoinAssoc(a: FilterOut, b: FilterOut, c: FilterOut)
    ensures Join(Join(a, b), c) == Join(a, Join(b, c))
  {
    assert (a.content + b.content) + c.content == a.content + (b.content + c.content);
    assert (a.thinking + b.thinking) + c.thinking == a.thinking + (b.thinking + c.thinking);
  }

  lemma JoinNothing(a: FilterOut)
    ensures Join(a, NOTHING) == a == Join(NOTHING, a)
  {
    assert a.content + "" == a.content && a.thinking + "" == a.thinking;
    assert "" + a.content == a.content && "" + a.thinking == a.thinking;
  }

  lemma OutCons(seg: Seg, segs: seq<Seg>)
    ensures Out([seg] + segs) == Join(OutOne(seg), Out(segs))
    ensures Out([seg]) == OutOne(seg)
  {
    assert ([seg] + segs)[1..] == segs;
    var one := [seg];
    assert one[1..] == [] && Out(one[1..]) == NOTHING;
    JoinNothing(OutOne(seg));
  }

  lemma OutSay(out: FilterOut, text: string, depth: nat, later: seq<Seg>)
    ensures Join(out, Out([Say(text, depth)] + later)) == Join(Join(out, OutOne(Say(text, depth))), Out(later))
  {
    OutCons(Say(text, depth), later);
    JoinAssoc(out, OutOne(Say(text, depth)), Out(later));
  }

  lemma OutTag(out: FilterOut, text: string, depth: nat, tag: string, later: seq<Seg>)
    ensures Join(out, Out([Say(text, depth)] + ([Seg(Dropped, tag)] + later)))
         == Join(Join(out, OutOne(Say(text, depth))), Out(later))
  {
    OutSay(out, text, depth, [Seg(Dropped, tag)] + later);
    OutCons(Seg(Dropped, tag), later);
    JoinNothing(Out(later));
  }

  lemma OutSplit(out: FilterOut, b: string, pos: nat, depth: nat)
    requires pos <= |b|
    ensures Join(out, Out([Say(b[..pos], depth)])) == Join(out, OutOne(Say(b[..pos], depth)))
    ensures Join(out, Out([Say(b, depth)]))
         == Join(out, OutOne(Say(b, depth)))
         == Join(Join(out, OutOne(Say(b[..pos], depth))), OutOne(Say(b[pos..], depth)))
  {
    OutCons(Say(b, depth), []);
    OutCons(Say(b[..pos], depth), []);
    assert b == b[..pos] + b[pos..];
    JoinAssoc(out, OutOne(Say(b[..pos], depth)), OutOne(Say(b[pos..], depth)));
  }

  /** After emitting `out`, draining b is the same as draining b' after emitting out'. */
  ghost predicate SameDrain(out: FilterOut, b: string, depth: nat, out': FilterOut, b': string, depth': nat) {
    var r, r' := Drain(b, depth), Drain(b', depth');
    Join(out, Out(r.segs)) == Join(out', Out(r'.segs)) && r.rest == r'.rest && r.depth == r'.depth
  }

  /** After emitting `out`, draining b emits `total` in all and holds back `rest`. */
  ghost predicate EndDrain(out: FilterOut, b: string, depth: nat, total: FilterOut, rest: string) {
    var r := Drain(b, depth);
    Join(out, Out(r.segs)) == total && r.rest == rest && r.depth == depth
  }

  /** One round of the drain loop, in terms of what has been emitted. */
  ghost predicate Round(out: FilterOut, b: string, depth: nat) {
    match NextEvent(b, 0, depth > 0)
    case TagAt(pos, end, kind) =>
      SameDrain(out, b, depth, Join(out, OutOne(Say(b[..pos], depth))), b[end..], NewDepth(depth, kind))
    case Oversized(end) =>
      SameDrain(out, b, depth, Join(out, OutOne(Say(b[..end], depth))), b[end..], depth)
    case Partial(pos) =>
      if |b| - pos > MAX_BUFFERED_THINK_TAG_BYTES
      then EndDrain(out, b, depth, Join(Join(out, OutOne(Say(b[..pos], depth))), OutOne(Say(b[pos..], depth))), "")
      else EndDrain(out, b, depth, Join(out, OutOne(Say(b[..pos], depth))), b[pos..])
    case NoEvent => EndDrain(out, b, depth, Join(out, OutOne(Say(b, depth))), "")
  }

  lemma DrainRound(out: FilterOut, b: string, depth: nat)
    ensures Round(out, b, depth)
  {
    match NextEvent(b, 0, depth > 0)
    case TagAt(pos, end, kind) =>
      OutTag(out, b[..pos], depth, b[pos..end], Drain(b[end..], NewDepth(depth, kind)).segs);
    case Oversized(end) => OutSay(out, b[..end], depth, Drain(b[end..], depth).segs);
    case Partial(pos) => OutSplit(out, b, pos, depth);
    case NoEvent => OutSplit(out, b, |b|, depth);
  }

  // ----- the program -----

  /** The parser, given the text from the candidate `<` on. */
  method ParseThinkTag(s: string) returns (r: Option<(ThinkTag, nat)>)
    ensures r == ParseTag(s)
  {
    if s == "" || s[0] != '<' {
      return None;
    }
    var idx := 1;
    var isClose := false;
    if idx < |s| && s[idx] == '/' {
      idx := idx + 1;
      isClose := true;
    }
    var nameStart := idx;
    while idx < |s| && IsAlpha(s[idx])
      invariant nameStart <= idx <= |s|
      invariant AlphaEnd(s, idx) == AlphaEnd(s, nameStart)
    {
      idx := idx + 1;
    }
    if idx == nameStart || !IsThinkName(s[nameStart..idx]) {
      return None;
    }
    if isClose {
      r := ParseCloseEnd(s, idx);
    } else if idx < |s| && (s[idx] == '>' || s[idx] == '/' || IsSpace(s[idx])) {
      r := ParseOpenEnd(s, idx);
    } else {
      r := None;
    }
  }

  method ParseCloseEnd(s: string, start: nat) returns (r: Option<(ThinkTag, nat)>)
    requires start <= |s|
    ensures var w := SpaceEnd(s, start); r == if w < |s| && s[w] == '>' then Some((Close, w + 1)) else None
  {
    var idx := start;
    while idx < |s| && IsSpace(s[idx])
      invariant start <= idx <= |s|
      invariant SpaceEnd(s, idx) == SpaceEnd(s, start)
    {
      idx := idx + 1;
    }
    return if idx < |s| && s[idx] == '>' then Some((Close, idx + 1)) else None;
  }

  method ParseOpenEnd(s: string, start: nat) returns (r: Option<(ThinkTag, nat)>)
    requires start <= |s|
    ensures r == ScanOpen(s, start, None, None)
  {
    var quote: Option<char> := None;
    var last: Option<char> := None;
    var idx := start;
    while idx < |s|
      invariant start <= idx <= |s|
      invariant ScanOpen(s, start, None, None) == ScanOpen(s, idx, quote, last)
    {
      if quote.Some? {
        if s[idx] == quote.value {
          quote := None;
        }
      } else if IsQuote(s[idx]) {
        quote, last := Some(s[idx]), Some(s[idx]);
      } else if s[idx] == '>' {
        return Some((if last == Some('/') then SelfClosing else Open, idx + 1));
      } else if !IsSpace(s[idx]) {
        last := Some(s[idx]);
      }
      idx := idx + 1;
    }
    return None;
  }

  method ContainsUnquotedGt(text: string) returns (r: bool)
    ensures r == HasGt(text, 0, None)
  {
    var quote: Option<char> := None;
    for i := 0 to |text|
      invariant HasGt(text, 0, None) == HasGt(text, i, quote)
    {
      if quote.Some? {
        if text[i] == quote.value {
          quote := None;
        }
      } else if IsQuote(text[i]) {
        quote := Some(text[i]);
      } else if text[i] == '>' {
        return true;
      }
    }
    return false;
  }

  method NextBufferEvent(buffer: string, insideThink: bool) returns (r: Event)
    ensures r == NextEvent(buffer, 0, insideThink)
  {
    var from := 0;
    while from < |buffer|
      invariant 0 <= from <= |buffer|
      invariant NextEvent(buffer, 0, insideThink) == NextEvent(buffer, from, insideThink)
    {
      if buffer[from] == '<' {
        var suffix := buffer[from..];
        var p := ParseThinkTag(suffix);
        match p {
          case Some((kind, len)) =>
            if len > MAX_BUFFERED_THINK_TAG_BYTES {
              return Oversized(from + len);
            }
            if insideThink || kind != Close {
              return TagAt(from, from + len, kind);
            }
          case None =>
            var closed := ContainsUnquotedGt(suffix);
            if !closed && IsPartial(suffix) {
              return Partial(from);
            }
        }
      }
      from := from + 1;
    }
    return NoEvent;
  }

  class ThinkFilter {
    var buffer: string
    var insideThink: bool
    var thinkDepth: nat

    ghost predicate Valid()
      reads this
    {
      && (insideThink <==> thinkDepth > 0)
      && |buffer| <= MAX_BUFFERED_THINK_TAG_BYTES
    }

    constructor ()
      ensures Valid() && buffer == "" && thinkDepth == 0
    {
      buffer, insideThink, thinkDepth := "", false, 0;
    }

    method Push(chunk: string) returns (out: FilterOut)
      requires Valid()
      modifies this
      ensures Valid()
      ensures var r := Drain(old(buffer) + chunk, old(thinkDepth));
              out == Out(r.segs) && buffer == r.rest && thinkDepth == r.depth
    {
      buffer := buffer + chunk;
      out := ProcessBuffer();
    }

    /** Emits what is still held back, as text of the current mode. */
    method Finish() returns (out: FilterOut)
      requires Valid()
      modifies this
      ensures Valid() && buffer == ""
      ensures var r := Drain(old(buffer), old(thinkDepth));
              out == Join(Out(r.segs), OutOne(Say(r.rest, r.depth)))
    {
      out := ProcessBuffer();
      JoinNothing(out);
      if buffer != "" {
        out := Emit(out, insideThink, buffer);
        buffer := "";
      }
    }

    /** Moves the nesting depth past a tag. */
    method Enter(kind: ThinkTag)
      requires insideThink <==> thinkDepth > 0
      modifies this`thinkDepth, this`insideThink
      ensures thinkDepth == NewDepth(old(thinkDepth), kind)
      ensures insideThink <==> thinkDepth > 0
    {
      match kind {
        case Open =>
          thinkDepth := thinkDepth + 1;
          insideThink := true;
        case Close =>
          thinkDepth := if thinkDepth > 0 then thinkDepth - 1 else 0;
          insideThink := thinkDepth > 0;
        case SelfClosing =>
      }
    }

    method ProcessBuffer() returns (out: FilterOut)
      requires insideThink <==> thinkDepth > 0
      modifies this
      ensures Valid()
      ensures var r := Drain(old(buffer), old(thinkDepth));
              out == Out(r.segs) && buffer == r.rest && thinkDepth == r.depth
    {
      ghost var b0, depth0 := buffer, thinkDepth;
      JoinNothing(Out(Drain(b0, depth0).segs));
      out := FilterOut("", "");
      while true
        invariant insideThink <==> thinkDepth > 0
        invariant SameDrain(NOTHING, b0, depth0, out, buffer, thinkDepth)
        decreases |buffer|
      {
        var event := NextBufferEvent(buffer, insideThink);
        DrainRound(out, buffer, thinkDepth);
        match event {
          case TagAt(pos, end, kind) =>
            out := Emit(out, insideThink, buffer[..pos]);
            buffer := buffer[end..];
            Enter(kind);
          case Oversized(end) =>
            out := Emit(out, insideThink, buffer[..end]);
            buffer := buffer[end..];
          case Partial(pos) =>
            out := Emit(out, insideThink, buffer[..pos]);
            buffer := buffer[pos..];
            if |buffer| > MAX_BUFFERED_THINK_TAG_BYTES {
              out := Emit(out, insideThink, buffer);
              buffer := "";
            }
            return;
          case NoEvent =>
            out := Emit(out, insideThink, buffer);
            buffer := "";
            return;
        }
      }
    }
  }

  /** Appends text to the output of the current mode. */
  function Emit(out: FilterOut, inside: bool, text: string): (r: FilterOut)
    ensures forall depth: nat :: (inside <==> depth > 0) ==> r == Join(out, OutOne(Say(text, depth)))
  {
    assert out.content + "" == out.content && out.thinking + "" == out.thinking;
    if inside then out.(thinking := out.thinking + text) else out.(content := out.content + text)
  }
}
