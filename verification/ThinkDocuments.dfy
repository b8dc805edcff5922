/**
 What the think filter makes of a text that is written as a document: plain text, tags that count as
 text, self-closing think tags, and think blocks, which may nest.
 */
module ThinkDocuments {
  import opened Wrappers
  import opened Sequences
  import opened ThinkLexer
  import opened LongerText
  import opened ThinkStreams

  // ----- tags as they are written -----

  datatype Quoted = Quoted(quote: char, text: string)

  /** White space, some text without quotes, and perhaps a quoted value. */
  datatype Attr = Attr(space: string, bare: string, value: Option<Quoted>)

  /** A head is an opening tag, or a self-closing one if it has a slash, with white space behind the slash. */
  datatype Markup =
    | Head(name: string, attrs: seq<Attr>, space: string, slash: Option<string>)
    | Tail(name: string, space: string)

  function PrintValue(v: Option<Quoted>): string {
    match v case None => "" case Some(q) => [q.quote] + (q.text + [q.quote])
  }

  function PrintAttr(a: Attr): string {
    a.space + (a.bare + PrintValue(a.value))
  }

  function PrintAttrs(attrs: seq<Attr>): string {
    if attrs == [] then "" else PrintAttr(attrs[0]) + PrintAttrs(attrs[1..])
  }

  function PrintSlash(slash: Option<string>): string {
    match slash case None => "" case Some(space) => "/" + space
  }

  function PrintMarkup(m: Markup): string {
    match m
    case Head(name, attrs, space, slash) => "<" + (name + (PrintAttrs(attrs) + (space + (PrintSlash(slash) + ">"))))
    case Tail(name, space) => "</" + (name + (space + ">"))
  }

  predicate Blank(c: char) {
    c == ' ' || c == '\t' || c == '\n' || c == '\r' || c as int == 12
  }

  predicate AllBlank(s: string) {
    forall i :: 0 <= i < |s| ==> Blank(s[i])
  }

  /** A beginning of `thinking` in small and capital letters. */
  predicate Spelled(name: string) {
    |name| <= 8 && forall i :: 0 <= i < |name| ==> name[i] == "thinking"[i] || name[i] == "THINKING"[i]
  }

  predicate Named(name: string) {
    Spelled(name) && (|name| == 5 || |name| == 8)
  }

  predicate ValidAttr(a: Attr) {
    && a.space != "" && AllBlank(a.space) && a.bare != ""
    && (forall i :: 0 <= i < |a.bare| ==> !Blank(a.bare[i]) && a.bare[i] !in {'"', '\'', '>'})
    && match a.value
       case None => a.bare[|a.bare| - 1] != '/'
       case Some(q) => q.quote in {'"', '\''} && q.quote !in q.text
  }

  predicate ValidMarkup(m: Markup) {
    Named(m.name) && AllBlank(m.space) &&
    match m
    case Head(_, attrs, _, slash) =>
      (forall i :: 0 <= i < |attrs| ==> ValidAttr(attrs[i])) && (slash.Some? ==> AllBlank(slash.value))
    case Tail(_, _) => true
  }

  function Kind(m: Markup): ThinkTag {
    match m
    case Head(_, _, _, slash) => if slash.Some? then SelfClosing else Open
    case Tail(_, _) => Close
  }

  // ----- documents -----

  datatype Doc =
    | End
    | Plain(text: string, rest: Doc)
    | Literal(tag: Markup, rest: Doc)   // a tag that counts as text
    | Lone(tag: Markup, rest: Doc)
    | Block(open: Markup, body: Doc, close: Markup, rest: Doc)

  function Print(d: Doc): string {
    match d
    case End => ""
    case Plain(text, rest) => text + Print(rest)
    case Literal(tag, rest) => PrintMarkup(tag) + Print(rest)
    case Lone(tag, rest) => PrintMarkup(tag) + Print(rest)
    case Block(open, body, close, rest) => PrintMarkup(open) + (Print(body) + (PrintMarkup(close) + Print(rest)))
  }

  /** A name, and the character behind it, that neither make a think tag nor begin one. */
  predicate IsOther(name: string, c: char) {
    name == "" || !Spelled(name) || (c != '/' && !Blank(c) && c as int != 11 && !(Named(name) && c == '>'))
  }

  /** The bracket at i is followed by such a name. */
  predicate NoTagAt(text: string, i: nat)
    requires i < |text|
  {
    var n := if i + 1 < |text| && text[i + 1] == '/' then i + 2 else i + 1;
    var e := AlphaEnd(text, n);
    e < |text| && IsOther(text[n..e], text[e])
  }

  predicate PlainText(text: string) {
    forall i :: 0 <= i < |text| && text[i] == '<' ==> NoTagAt(text, i)
  }

  predicate Fits(m: Markup) {
    ValidMarkup(m) && |PrintMarkup(m)| <= 8192
  }

  /** A tag counts as text if it is too long, or if it closes no block. */
  predicate IsLiteral(m: Markup, inside: bool) {
    ValidMarkup(m) && (|PrintMarkup(m)| > 8192 || (m.Tail? && !inside))
  }

  predicate Opens(m: Markup) {
    Fits(m) && m.Head? && m.slash.None?
  }

  predicate Valid(d: Doc, inside: bool) {
    match d
    case End => true
    case Plain(text, rest) => PlainText(text) && Valid(rest, inside)
    case Literal(tag, rest) => IsLiteral(tag, inside) && Valid(rest, inside)
    case Lone(tag, rest) => Fits(tag) && tag.Head? && tag.slash.Some? && Valid(rest, inside)
    case Block(open, body, close, rest) =>
      Opens(open) && Valid(body, true) && Fits(close) && close.Tail? && Valid(rest, inside)
  }

  /** All text of a document, in order, and what of it stands outside and inside its blocks. */
  function AllText(d: Doc): string {
    match d
    case End => ""
    case Plain(text, rest) => text + AllText(rest)
    case Literal(tag, rest) => PrintMarkup(tag) + AllText(rest)
    case Lone(_, rest) => AllText(rest)
    case Block(_, body, _, rest) => AllText(body) + AllText(rest)
  }

  function Outside(d: Doc): string {
    match d
    case End => ""
    case Plain(text, rest) => text + Outside(rest)
    case Literal(tag, rest) => PrintMarkup(tag) + Outside(rest)
    case Lone(_, rest) => Outside(rest)
    case Block(_, _, _, rest) => Outside(rest)
  }

  function Inside(d: Doc): string {
    match d
    case End => ""
    case Plain(_, rest) => Inside(rest)
    case Literal(_, rest) => Inside(rest)
    case Lone(_, rest) => Inside(rest)
    case Block(_, body, _, rest) => AllText(body) + Inside(rest)
  }

  // ----- tags are parsed as they are written -----

  function Plus(n: nat, r: Option<(ThinkTag, nat)>): Option<(ThinkTag, nat)> {
    match r case None => None case Some(p) => Some((p.0, n + p.1))
  }

  lemma {:induction false} ScanShift(p: string, y: string, i: nat, quote: Option<char>, last: Option<char>)
    requires i <= |y|
    ensures ScanOpen(p + y, |p| + i, quote, last) == Plus(|p|, ScanOpen(y, i, quote, last))
    decreases |y| - i
  {
    if i < |y| {
      assert (p + y)[|p| + i] == y[i];
      if quote.Some? {
        ScanShift(p, y, i + 1, if y[i] == quote.value then None else quote, last);
      } else if IsQuote(y[i]) {
        ScanShift(p, y, i + 1, Some(y[i]), Some(y[i]));
      } else {
        ScanShift(p, y, i + 1, None, if IsSpace(y[i]) then last else Some(y[i]));
      }
    }
  }

  /** One character of a tag. */
  lemma ScanOne(c: char, y: string, quote: Option<char>, last: Option<char>)
    ensures ScanOpen([c] + y, 0, quote, last) ==
      if quote.Some? then Plus(1, ScanOpen(y, 0, if c == quote.value then None else quote, last))
      else if IsQuote(c) then Plus(1, ScanOpen(y, 0, Some(c), Some(c)))
      else if c == '>' then Some((if last == Some('/') then SelfClosing else Open, 1))
      else Plus(1, ScanOpen(y, 0, None, if IsSpace(c) then last else Some(c)))
  {
    assert ([c] + y)[0] == c;
    ScanShift([c], y, 0, if quote.Some? && c == quote.value then None else quote, last);
    ScanShift([c], y, 0, Some(c), Some(c));
    ScanShift([c], y, 0, None, if IsSpace(c) then last else Some(c));
  }

  lemma Uncons(s: string, y: string)
    requires s != ""
    ensures s + y == [s[0]] + (s[1..] + y)
  {
  }

  lemma {:induction false} ScanBlank(w: string, y: string, last: Option<char>)
    requires AllBlank(w)
    ensures ScanOpen(w + y, 0, None, last) == Plus(|w|, ScanOpen(y, 0, None, last))
  {
    if w == "" {
      assert w + y == y;
    } else {
      Uncons(w, y);
      ScanOne(w[0], w[1..] + y, None, last);
      ScanBlank(w[1..], y, last);
    }
  }

  lemma {:induction false} ScanBare(b: string, y: string, last: Option<char>)
    requires b != "" && forall i :: 0 <= i < |b| ==> !Blank(b[i]) && b[i] !in {'"', '\'', '>'}
    ensures ScanOpen(b + y, 0, None, last) == Plus(|b|, ScanOpen(y, 0, None, Some(b[|b| - 1])))
  {
    Uncons(b, y);
    ScanOne(b[0], b[1..] + y, None, last);
    if |b| == 1 {
      assert b[1..] + y == y;
    } else {
      ScanBare(b[1..], y, Some(b[0]));
    }
  }

  lemma {:induction false} ScanInQuotes(t: string, y: string, quote: char, last: Option<char>)
    requires quote !in t
    ensures ScanOpen(t + ([quote] + y), 0, Some(quote), last) == Plus(|t| + 1, ScanOpen(y, 0, None, last))
  {
    if t == "" {
      assert t + ([quote] + y) == [quote] + y;
      ScanOne(quote, y, Some(quote), last);
    } else {
      Uncons(t, [quote] + y);
      ScanOne(t[0], t[1..] + ([quote] + y), Some(quote), last);
      ScanInQuotes(t[1..], y, quote, last);
    }
  }

  lemma ScanValue(v: Option<Quoted>, y: string, last: Option<char>)
    requires v.Some? ==> v.value.quote in {'"', '\''} && v.value.quote !in v.value.text
    ensures ScanOpen(PrintValue(v) + y, 0, None, last)
         == Plus(|PrintValue(v)|, ScanOpen(y, 0, None, if v.Some? then Some(v.value.quote) else last))
  {
    match v {
      case None => assert PrintValue(v) + y == y;
      case Some(q) =>
        assert PrintValue(v) + y == [q.quote] + (q.text + ([q.quote] + y));
        ScanOne(q.quote, q.text + ([q.quote] + y), None, last);
        ScanInQuotes(q.text, y, q.quote, Some(q.quote));
    }
  }

  lemma ScanAttr(a: Attr, y: string, last: Option<char>) returns (after: Option<char>)
    requires ValidAttr(a)
    ensures after != Some('/')
    ensures ScanOpen(PrintAttr(a) + y, 0, None, last) == Plus(|PrintAttr(a)|, ScanOpen(y, 0, None, after))
  {
    var v := PrintValue(a.value) + y;
    assert PrintAttr(a) + y == a.space + (a.bare + v);
    ScanBlank(a.space, a.bare + v, last);
    var end := a.bare[|a.bare| - 1];
    ScanBare(a.bare, v, last);
    ScanValue(a.value, y, Some(end));
    after := if a.value.Some? then Some(a.value.value.quote) else Some(end);
  }

  lemma {:induction false} ScanAttrs(attrs: seq<Attr>, y: string, last: Option<char>) returns (after: Option<char>)
    requires (forall i :: 0 <= i < |attrs| ==> ValidAttr(attrs[i])) && last != Some('/')
    ensures after != Some('/')
    ensures ScanOpen(PrintAttrs(attrs) + y, 0, None, last) == Plus(|PrintAttrs(attrs)|, ScanOpen(y, 0, None, after))
  {
    if attrs == [] {
      assert PrintAttrs(attrs) + y == y;
      after := last;
    } else {
      var more := PrintAttrs(attrs[1..]);
      assert PrintAttrs(attrs) + y == PrintAttr(attrs[0]) + (more + y);
      after := ScanAttr(attrs[0], more + y, last);
      after := ScanAttrs(attrs[1..], y, after);
    }
  }

  lemma ScanEnd(space: string, slash: Option<string>, last: Option<char>)
    requires AllBlank(space) && (slash.Some? ==> AllBlank(slash.value)) && last != Some('/')
    ensures var s := space + (PrintSlash(slash) + ">");
            ScanOpen(s, 0, None, last) == Some((if slash.Some? then SelfClosing else Open, |s|))
  {
    var end := PrintSlash(slash) + ">";
    ScanBlank(space, end, last);
    assert ">" == ['>'] + "";
    match slash {
      case None =>
        assert end == ['>'] + "";
        ScanOne('>', "", None, last);
      case Some(w) =>
        assert end == ['/'] + (w + ">");
        ScanOne('/', w + ">", None, last);
        ScanBlank(w, ">", Some('/'));
        ScanOne('>', "", None, Some('/'));
    }
  }

  lemma NameIsName(name: string)
    requires Named(name)
    ensures IsThinkName(name) && forall i :: 0 <= i < |name| ==> IsAlpha(name[i])
  {
    assert forall i :: 0 <= i < |name| ==> Lower(name[i]) == THINKING[i];
    assert THINKING[..5] == THINK;
  }

  /** A name is read up to the character behind it. */
  lemma NameRead(s: string, n: nat, name: string, y: string)
    requires n <= |s| && s[n..] == name + y && y != "" && !IsAlpha(y[0])
    requires forall i :: 0 <= i < |name| ==> IsAlpha(name[i])
    ensures AlphaEnd(s, n) == n + |name| && s[n..n + |name|] == name
  {
    var e := AlphaEnd(s, n);
    assert forall i :: 0 <= i < |name| ==> s[n..][i] == name[i];
    assert s[n..][|name|] == y[0];
    assert s[n..n + |name|] == s[n..][..|name|];
  }

  lemma HeadNamed(s: string, name: string, y: string)
    requires s == "<" + (name + y) && Named(name) && y != "" && !IsAlpha(y[0])
    ensures NameStart(s) == 1 && AlphaEnd(s, 1) == 1 + |name| && s[1..1 + |name|] == name && IsThinkName(name)
  {
    NameIsName(name);
    assert s[1..] == name + y && s[1] == name[0];
    NameRead(s, 1, name, y);
  }

  lemma OpenParses(s: string, e: nat)
    requires s != "" && s[0] == '<' && NameStart(s) == 1 <= e < |s| && AlphaEnd(s, 1) == e && IsThinkName(s[1..e])
    requires s[e] == '>' || s[e] == '/' || IsSpace(s[e])
    ensures ParseTag(s) == ScanOpen(s, e, None, None)
  {
  }

  lemma HeadParses(s: string, name: string, y: string)
    requires s == "<" + (name + y) && Named(name) && y != "" && (y[0] == '>' || y[0] == '/' || Blank(y[0]))
    ensures ParseTag(s) == ScanOpen(s, 1 + |name|, None, None)
  {
    HeadNamed(s, name, y);
    assert s[1 + |name|] == y[0];
    OpenParses(s, 1 + |name|);
  }

  lemma ScanBehind(s: string, p: string, y: string, r: Option<(ThinkTag, nat)>)
    requires s == p + y && ScanOpen(y, 0, None, None) == r
    ensures ScanOpen(s, |p|, None, None) == Plus(|p|, r)
  {
    ScanShift(p, y, 0, None, None);
  }

  lemma PlusSome(n: nat, kind: ThinkTag, e: nat)
    ensures Plus(n, Some((kind, e))) == Some((kind, n + e))
  {
  }

  lemma FirstOf(a: string, b: string)
    requires a != ""
    ensures a + b != "" && (a + b)[0] == a[0]
  {
  }

  lemma AttrStarts(a: Attr)
    requires ValidAttr(a)
    ensures PrintAttr(a) != "" && Blank(PrintAttr(a)[0])
  {
    FirstOf(a.space, a.bare + PrintValue(a.value));
  }

  lemma EndStarts(space: string, slash: Option<string>)
    requires AllBlank(space)
    ensures var y := space + (PrintSlash(slash) + ">"); y != "" && (y[0] == '>' || y[0] == '/' || Blank(y[0]))
  {
    var end := PrintSlash(slash) + ">";
    assert end[0] == if slash.Some? then '/' else '>';
    if space == "" {
      assert space + end == end;
    } else {
      FirstOf(space, end);
    }
  }

  lemma BlankFirst(a: string, b: string, c: string)
    requires a != "" && Blank(a[0])
    ensures (a + b) + c != "" && Blank(((a + b) + c)[0])
  {
    FirstOf(a, b);
    FirstOf(a + b, c);
  }

  /** Behind the name of a head stands white space, a slash or a bracket. */
  lemma HeadStarts(attrs: seq<Attr>, end: string)
    requires forall i :: 0 <= i < |attrs| ==> ValidAttr(attrs[i])
    requires end != "" && (end[0] == '>' || end[0] == '/' || Blank(end[0]))
    ensures var y := PrintAttrs(attrs) + end; y != "" && (y[0] == '>' || y[0] == '/' || Blank(y[0]))
  {
    if attrs == [] {
      assert PrintAttrs(attrs) + end == end;
    } else {
      AttrStarts(attrs[0]);
      BlankFirst(PrintAttr(attrs[0]), PrintAttrs(attrs[1..]), end);
    }
  }

  lemma HeadEnds(m: Markup, end: string)
    requires ValidMarkup(m) && m.Head? && end == m.space + (PrintSlash(m.slash) + ">")
    ensures ScanOpen(PrintAttrs(m.attrs) + end, 0, None, None) == Some((Kind(m), |PrintAttrs(m.attrs) + end|))
  {
    var after := ScanAttrs(m.attrs, end, None);
    ScanEnd(m.space, m.slash, after);
  }

  lemma HeadTagged(s: string, name: string, y: string, r: Option<(ThinkTag, nat)>)
    requires s == "<" + (name + y) && Named(name) && y != "" && (y[0] == '>' || y[0] == '/' || Blank(y[0]))
    requires ScanOpen(y, 0, None, None) == r
    ensures ParseTag(s) == Plus(1 + |name|, r)
  {
    HeadParses(s, name, y);
    var p := "<" + name;
    assert s == p + y;
    ScanBehind(s, p, y, r);
  }

  lemma HeadBody(m: Markup, y: string)
    requires ValidMarkup(m) && m.Head? && y == PrintAttrs(m.attrs) + (m.space + (PrintSlash(m.slash) + ">"))
    ensures y != "" && (y[0] == '>' || y[0] == '/' || Blank(y[0]))
    ensures ScanOpen(y, 0, None, None) == Some((Kind(m), |y|))
  {
    var end := m.space + (PrintSlash(m.slash) + ">");
    EndStarts(m.space, m.slash);
    HeadStarts(m.attrs, end);
    HeadEnds(m, end);
  }

  lemma HeadIsTag(m: Markup)
    requires ValidMarkup(m) && m.Head?
    ensures ParseTag(PrintMarkup(m)) == Some((Kind(m), |PrintMarkup(m)|))
  {
    var y := PrintAttrs(m.attrs) + (m.space + (PrintSlash(m.slash) + ">"));
    HeadBody(m, y);
    HeadTagged(PrintMarkup(m), m.name, y, Some((Kind(m), |y|)));
    PlusSome(1 + |m.name|, Kind(m), |y|);
  }

  lemma {:induction false} BlankRead(s: string, i: nat, w: string, y: string)
    requires i <= |s| && s[i..] == w + y && AllBlank(w) && y != "" && !IsSpace(y[0])
    ensures SpaceEnd(s, i) == i + |w|
  {
    var e := SpaceEnd(s, i);
    assert forall j :: 0 <= j < |w| ==> s[i..][j] == w[j];
    assert s[i..][|w|] == y[0];
  }

  lemma TailNameRead(s: string, name: string, y: string)
    requires s == "</" + (name + y) && Named(name) && y != "" && (y[0] == '>' || Blank(y[0]))
    ensures NameStart(s) == 2 && AlphaEnd(s, 2) == 2 + |name| && s[2..2 + |name|] == name && s[2 + |name|..] == y
  {
    NameIsName(name);
    assert s[2..] == name + y;
    NameRead(s, 2, name, y);
  }

  lemma TailTagged(s: string, e: nat, w: nat)
    requires s != "" && s[0] == '<' && NameStart(s) == 2 <= e <= |s| && AlphaEnd(s, 2) == e && IsThinkName(s[2..e])
    requires SpaceEnd(s, e) == w < |s| && s[w] == '>'
    ensures ParseTag(s) == Some((Close, w + 1))
  {
  }

  lemma TailIsTag(m: Markup)
    requires ValidMarkup(m) && m.Tail?
    ensures ParseTag(PrintMarkup(m)) == Some((Close, |PrintMarkup(m)|))
  {
    var s, y := PrintMarkup(m), m.space + ">";
    assert y[0] == if m.space == "" then '>' else m.space[0];
    NameIsName(m.name);
    TailNameRead(s, m.name, y);
    var e := 2 + |m.name|;
    BlankRead(s, e, m.space, ">");
    assert s[e..][|m.space|] == '>';
    TailTagged(s, e, e + |m.space|);
  }

  lemma MarkupIsTag(m: Markup)
    requires ValidMarkup(m)
    ensures PrintMarkup(m) != "" && PrintMarkup(m)[0] == '<'
    ensures ParseTag(PrintMarkup(m)) == Some((Kind(m), |PrintMarkup(m)|))
  {
    if m.Head? {
      HeadIsTag(m);
    } else {
      TailIsTag(m);
    }
  }

  // ----- one piece in front of a text -----

  lemma LookAtMarkup(m: Markup, x: string, inside: bool)
    requires ValidMarkup(m)
    ensures var tag := PrintMarkup(m);
            LookAt(tag + x, inside) ==
              if |tag| > MAX_BUFFERED_THINK_TAG_BYTES then TooLong(|tag|)
              else if inside || m.Head? then IsTag(Kind(m), |tag|)
              else Pass
  {
    MarkupIsTag(m);
    ParseTagExt(PrintMarkup(m), x);
  }

  lemma FirstLook(tag: string, x: string, inside: bool)
    requires tag != "" && tag[0] == '<'
    ensures NextEvent(tag + x, 0, inside) ==
      match LookAt(tag + x, inside)
      case IsTag(kind, len) => TagAt(0, len, kind)
      case TooLong(len) => Oversized(len)
      case Hold => Partial(0)
      case Pass => NextEvent(tag + x, 1, inside)
  {
    assert (tag + x)[0..] == tag + x;
  }

  /** A tag that acts says nothing and moves the depth. */
  lemma ActsThrough(m: Markup, x: string, depth: nat)
    requires Fits(m) && (m.Head? || depth > 0)
    ensures Finish(PrintMarkup(m) + x, depth) == Finish(x, NewDepth(depth, Kind(m)))
  {
    var tag := PrintMarkup(m);
    LookAtMarkup(m, x, depth > 0);
    MarkupIsTag(m);
    FirstLook(tag, x, depth > 0);
    assert (tag + x)[..0] == "" && (tag + x)[|tag|..] == x;
    FinishTag(tag + x, "", x, depth, 0, |tag|, Kind(m));
    JoinNothing(Finish(x, NewDepth(depth, Kind(m))));
  }

  lemma NoBracketInside(m: Markup, i: nat)
    requires ValidMarkup(m) && m.Tail? && 0 < i < |PrintMarkup(m)|
    ensures PrintMarkup(m)[i] != '<'
  {
    var n := 2 + |m.name|;
    NameIsName(m.name);
    if 2 <= i < n {
      assert PrintMarkup(m)[i] == m.name[i - 2];
    } else if n <= i < n + |m.space| {
      assert PrintMarkup(m)[i] == m.space[i - n];
    }
  }

  lemma {:induction false} SkipNoBracket(tag: string, x: string, i: nat, inside: bool)
    requires i <= |tag| && forall j :: i <= j < |tag| ==> tag[j] != '<'
    ensures NextEvent(tag + x, i, inside) == NextEvent(tag + x, |tag|, inside)
    decreases |tag| - i
  {
    if i < |tag| {
      assert (tag + x)[i] == tag[i];
      SkipNoBracket(tag, x, i + 1, inside);
    }
  }

  lemma LiteralThrough(m: Markup, x: string, depth: nat)
    requires IsLiteral(m, depth > 0)
    ensures Finish(PrintMarkup(m) + x, depth) == Join(OutOne(Say(PrintMarkup(m), depth)), Finish(x, depth))
  {
    var tag := PrintMarkup(m);
    LookAtMarkup(m, x, depth > 0);
    MarkupIsTag(m);
    FirstLook(tag, x, depth > 0);
    if |tag| > MAX_BUFFERED_THINK_TAG_BYTES {
      assert (tag + x)[..|tag|] == tag && (tag + x)[|tag|..] == x;
      FinishOversized(tag + x, tag, x, depth, |tag|);
    } else {
      forall j | 1 <= j < |tag| ensures tag[j] != '<' {
        NoBracketInside(m, j);
      }
      SkipNoBracket(tag, x, 1, depth > 0);
      NextEventShift(tag, x, 0, depth > 0);
      PrefixSkip(tag, x, depth);
    }
  }

  lemma NameInTail(text: string, i: nat, n: nat, e: nat)
    requires i <= n <= |text| && e == AlphaEnd(text, n) && e < |text|
    ensures AlphaEnd(text[i..], n - i) == e - i && text[i..][n - i..e - i] == text[n..e]
  {
    assert text[i..][n - i..] == text[n..e] + text[e..];
    NameRead(text[i..], n - i, text[n..e], text[e..]);
  }

  /** A bracket that makes no tag makes none whatever follows, and is not held back either. */
  lemma NoTagPasses(text: string, i: nat, x: string, inside: bool)
    requires i < |text| && text[i] == '<' && NoTagAt(text, i)
    ensures LookAt((text + x)[i..], inside) == Pass
  {
    var s := text[i..];
    var n := if i + 1 < |text| && text[i + 1] == '/' then i + 2 else i + 1;
    var e := AlphaEnd(text, n);
    assert (text + x)[i..] == s + x;
    NameInTail(text, i, n, e);
    HeadPasses(s, x, n - i, e - i, text[n..e], inside);
  }

  lemma HeadPasses(s: string, x: string, n: nat, e: nat, name: string, inside: bool)
    requires |s| > 1 && s[0] == '<' && n == NameStart(s) && n <= e < |s| && e == AlphaEnd(s, n) && name == s[n..e]
    requires IsOther(name, s[e])
    ensures LookAt(s + x, inside) == Pass
  {
    NameExt(s, x, n);
    assert (s + x)[0] == s[0] && (s + x)[1] == s[1] && (s + x)[e] == s[e];
    SpelledIff(name);
    NotSpelledPasses(s + x, n, e, name);
  }

  lemma SpelledIff(name: string)
    ensures IsThinkName(name) ==> Named(name)
    ensures IsNamePrefix(name) ==> name != "" && Spelled(name)
  {
    assert THINK == THINKING[..5];
    forall i | 0 <= i < |name| <= 8 && Lower(name[i]) == Lower(THINKING[i])
      ensures name[i] == "thinking"[i] || name[i] == "THINKING"[i]
    {
      LowerLetter(name[i], i);
    }
  }

  lemma LowerLetter(c: char, i: nat)
    requires i < 8 && Lower(c) == Lower(THINKING[i])
    ensures c == "thinking"[i] || c == "THINKING"[i]
  {
  }

  lemma NotSpelledPasses(t: string, n: nat, e: nat, name: string)
    requires |t| > 1 && t[0] == '<' && n == NameStart(t) && n <= e < |t| && e == AlphaEnd(t, n) && name == t[n..e]
    requires (IsThinkName(name) ==> Named(name)) && (IsNamePrefix(name) ==> name != "" && Spelled(name))
    requires IsOther(name, t[e])
    ensures forall inside :: LookAt(t, inside) == Pass
  {
    if n == 2 {
      assert AlphaEnd(t, 1) == 1 && t[1..1] == "";
      assert !PartialOpen(t);
      assert SpaceEnd(t, e) == e || name == "" || !Spelled(name);
    } else {
      assert !PartialClose(t);
    }
    assert ParseTag(t) == None && !IsPartial(t);
  }

  lemma {:induction false} PlainScan(text: string, x: string, i: nat, inside: bool)
    requires PlainText(text) && i <= |text|
    ensures NextEvent(text + x, i, inside) == NextEvent(text + x, |text|, inside)
    decreases |text| - i
  {
    if i < |text| {
      assert (text + x)[i] == text[i];
      if text[i] == '<' {
        NoTagPasses(text, i, x, inside);
      }
      PlainScan(text, x, i + 1, inside);
    }
  }

  lemma PlainThrough(text: string, x: string, depth: nat)
    requires PlainText(text)
    ensures Finish(text + x, depth) == Join(OutOne(Say(text, depth)), Finish(x, depth))
  {
    PlainScan(text, x, 0, depth > 0);
    NextEventShift(text, x, 0, depth > 0);
    PrefixSkip(text, x, depth);
  }

  /** Plain text is shown at once: nothing of it is held back. */
  lemma PlainIsNotHeld(text: string, depth: nat)
    requires PlainText(text)
    ensures Drain(text, depth).rest == "" && Out(Drain(text, depth).segs) == OutOne(Say(text, depth))
  {
    PlainScan(text, "", 0, depth > 0);
    assert text + "" == text;
    OutCons(Say(text, depth), []);
  }

  // ----- documents -----

  /** What a document says at some depth. */
  function Says(d: Doc, depth: nat): FilterOut {
    if depth > 0 then FilterOut("", AllText(d)) else FilterOut(Outside(d), Inside(d))
  }

  lemma TextSays(text: string, depth: nat)
    ensures OutOne(Say(text, depth)) == if depth > 0 then FilterOut("", text) else FilterOut(text, "")
  {
  }

  lemma Assoc4(a: string, b: string, c: string, r: string, x: string)
    ensures (a + (b + (c + r))) + x == a + (b + (c + (r + x)))
  {
    Assoc(c, r, x);
    Assoc(b, c + r, x);
    Assoc(a, b + (c + r), x);
  }

  lemma BlockThrough(open: Markup, body: Doc, close: Markup, more: string, depth: nat)
    requires Opens(open) && Fits(close) && close.Tail?
    requires Finish(Print(body) + (PrintMarkup(close) + more), depth + 1)
          == Join(Says(body, depth + 1), Finish(PrintMarkup(close) + more, depth + 1))
    ensures Finish(PrintMarkup(open) + (Print(body) + (PrintMarkup(close) + more)), depth)
         == Join(FilterOut("", AllText(body)), Finish(more, depth))
  {
    ActsThrough(open, Print(body) + (PrintMarkup(close) + more), depth);
    ActsThrough(close, more, depth + 1);
  }

  lemma SaysMore(text: string, rest: FilterOut, depth: nat, later: FilterOut, all: FilterOut)
    requires all == Join(OutOne(Say(text, depth)), Join(rest, later))
    ensures depth > 0 && rest.content == "" ==> all == Join(FilterOut("", text + rest.thinking), later)
    ensures depth == 0 ==> all == Join(FilterOut(text + rest.content, rest.thinking), later)
  {
    TextSays(text, depth);
    JoinAssoc(OutOne(Say(text, depth)), rest, later);
    assert "" + "" == "" && "" + rest.thinking == rest.thinking;
  }

  /** In front of any text, a document says what it says, and leaves the depth as it was. */
  ghost predicate Through(d: Doc, x: string, depth: nat) {
    Finish(Print(d) + x, depth) == Join(Says(d, depth), Finish(x, depth))
  }

  lemma PlainCase(d: Doc, x: string, depth: nat)
    requires d.Plain? && PlainText(d.text) && Through(d.rest, x, depth)
    ensures Through(d, x, depth)
  {
    Assoc(d.text, Print(d.rest), x);
    PlainThrough(d.text, Print(d.rest) + x, depth);
    SaysMore(d.text, Says(d.rest, depth), depth, Finish(x, depth), Finish(Print(d) + x, depth));
  }

  lemma LiteralCase(d: Doc, x: string, depth: nat)
    requires d.Literal? && IsLiteral(d.tag, depth > 0) && Through(d.rest, x, depth)
    ensures Through(d, x, depth)
  {
    Assoc(PrintMarkup(d.tag), Print(d.rest), x);
    LiteralThrough(d.tag, Print(d.rest) + x, depth);
    SaysMore(PrintMarkup(d.tag), Says(d.rest, depth), depth, Finish(x, depth), Finish(Print(d) + x, depth));
  }

  lemma LoneCase(d: Doc, x: string, depth: nat)
    requires d.Lone? && Fits(d.tag) && d.tag.Head? && d.tag.slash.Some? && Through(d.rest, x, depth)
    ensures Through(d, x, depth)
  {
    Assoc(PrintMarkup(d.tag), Print(d.rest), x);
    ActsThrough(d.tag, Print(d.rest) + x, depth);
  }

  lemma BlockCase(d: Doc, x: string, depth: nat, more: string)
    requires d.Block? && Opens(d.open) && Fits(d.close) && d.close.Tail? && more == Print(d.rest) + x
    requires Through(d.body, PrintMarkup(d.close) + more, depth + 1) && Through(d.rest, x, depth)
    ensures Through(d, x, depth)
  {
    Assoc4(PrintMarkup(d.open), Print(d.body), PrintMarkup(d.close), Print(d.rest), x);
    BlockThrough(d.open, d.body, d.close, more, depth);
    BlockSays(AllText(d.body), Says(d.rest, depth), Finish(x, depth));
  }

  lemma {:induction false} DocThrough(d: Doc, x: string, depth: nat)
    requires Valid(d, depth > 0)
    ensures Through(d, x, depth)
    decreases d
  {
    match d {
      case End =>
        EndThrough(x, depth);
      case Plain(text, rest) =>
        DocThrough(rest, x, depth);
        PlainCase(d, x, depth);
      case Literal(tag, rest) =>
        DocThrough(rest, x, depth);
        LiteralCase(d, x, depth);
      case Lone(tag, rest) =>
        DocThrough(rest, x, depth);
        LoneCase(d, x, depth);
      case Block(open, body, close, rest) =>
        DocThrough(body, PrintMarkup(close) + (Print(rest) + x), depth + 1);
        DocThrough(rest, x, depth);
        BlockCase(d, x, depth, Print(rest) + x);
    }
  }

  lemma EndThrough(x: string, depth: nat)
    ensures Through(End, x, depth)
  {
    WithEmpty(x);
    JoinNothing(Finish(x, depth));
  }

  lemma BlockSays(text: string, rest: FilterOut, later: FilterOut)
    ensures Join(FilterOut("", text), Join(rest, later))
         == Join(FilterOut(rest.content, text + rest.thinking), later)
  {
    JoinAssoc(FilterOut("", text), rest, later);
    assert "" + rest.content == rest.content;
  }

  lemma FeedOne(t: string)
    ensures Feed("", 0, [t]) == Finish(t, 0)
  {
    assert "" + t == t && [t][1..] == [];
    DrainAgain(t, 0);
  }

  lemma FinishNothing(depth: nat)
    ensures Finish("", depth) == NOTHING
  {
    assert NextEvent("", 0, depth > 0) == NoEvent;
    FinishPlain("", depth);
  }

  lemma DocWhole(d: Doc, depth: nat)
    requires Valid(d, depth > 0)
    ensures Finish(Print(d), depth) == Says(d, depth)
  {
    DocThrough(d, "", depth);
    WithEmpty(Print(d));
    FinishNothing(depth);
    JoinNothing(Says(d, depth));
  }

  /** Plain text comes out at once, as content outside a block and as thinking inside one. */
  lemma PlainComesOut(text: string)
    requires PlainText(text)
    ensures Drain(text, 0).rest == "" && Out(Drain(text, 0).segs) == FilterOut(text, "")
    ensures Drain(text, 1).rest == "" && Out(Drain(text, 1).segs) == FilterOut("", text)
  {
    PlainIsNotHeld(text, 0);
    PlainIsNotHeld(text, 1);
  }

  /** The content of a document is its text outside blocks; its thinking is the text inside them. */
  lemma DocumentSplits(d: Doc)
    requires Valid(d, false)
    ensures Feed("", 0, [Print(d)]) == FilterOut(Outside(d), Inside(d))
  {
    FeedOne(Print(d));
    DocWhole(d, 0);
  }

  /** If the last block is never closed, all that follows its opening tag is thinking. */
  lemma UnclosedSplits(d: Doc, open: Markup, body: Doc)
    requires Valid(d, false) && Opens(open) && Valid(body, true)
    ensures Feed("", 0, [Print(d) + (PrintMarkup(open) + Print(body))])
         == FilterOut(Outside(d), Inside(d) + AllText(body))
  {
    var t := PrintMarkup(open) + Print(body);
    FeedOne(Print(d) + t);
    DocThrough(d, t, 0);
    ActsThrough(open, Print(body), 0);
    DocWhole(body, 1);
  }

  /** The same however a document is cut, if no cut leaves a prefix that the hold-back patterns miss. */
  lemma StreamedDocumentSplits(d: Doc, chunks: seq<string>)
    requires Valid(d, false) && Flatten(chunks) == Print(d) && PlainCuts(chunks) && Bounded(Print(d))
    ensures Feed("", 0, chunks) == FilterOut(Outside(d), Inside(d))
  {
    PlainCutsIndependence(chunks);
    DocumentSplits(d);
  }
}
