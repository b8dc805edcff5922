/**
 The texts of JSON values (RFC 8259, sections 2, 4, 5 and 7) and what the scanners make of them.

 A `Json` is a concrete syntax tree: it records the white space and the way every string is
 escaped, so `Print` reaches every text of every value and not only one serializer's.
 */
module JsonSyntax {
  import opened Wrappers
  import opened JsonScan

  /** One element of a string between its quotes. */
  datatype StrItem = Plain(c: char) | Short(c: char) | Hex(digits: string)

  datatype Json =
    | Atom(text: string)             // a number or one of the three literal names
    | Str(items: seq<StrItem>)
    | Arr(elems: Elems)
    | Obj(members: Members)

  datatype Elems = NoElem(ws: string) | Elem(before: string, value: Json, after: string, more: Elems)

  datatype Members =
    | NoMember(ws: string)
    | Member(before: string, key: seq<StrItem>, mid: string, pre: string, value: Json, after: string, more: Members)

  // ----- well-formedness -----

  predicate IsJsonWs(s: string) {
    forall i :: 0 <= i < |s| ==> s[i] == ' ' || s[i] == '\t' || s[i] == '\n' || s[i] == '\r'
  }

  /** Letters, digits, sign and point: more than the literal names and the numbers. */
  predicate IsAtomChar(c: char) {
    'a' <= c <= 'z' || 'A' <= c <= 'Z' || '0' <= c <= '9' || c == '+' || c == '-' || c == '.'
  }

  predicate IsAtom(s: string) {
    s != "" && forall i :: 0 <= i < |s| ==> IsAtomChar(s[i])
  }

  predicate IsHexDigit(c: char) {
    '0' <= c <= '9' || 'a' <= c <= 'f' || 'A' <= c <= 'F'
  }

  predicate ValidItem(it: StrItem) {
    match it
    case Plain(c) => c != '"' && c != '\\' && !IsControl(c)
    case Short(c) => c in {'"', '\\', '/', 'b', 'f', 'n', 'r', 't'}
    case Hex(d) => |d| == 4 && forall i :: 0 <= i < 4 ==> IsHexDigit(d[i])
  }

  predicate ValidItems(items: seq<StrItem>) {
    forall i :: 0 <= i < |items| ==> ValidItem(items[i])
  }

  predicate Valid(v: Json) {
    match v
    case Atom(text) => IsAtom(text)
    case Str(items) => ValidItems(items)
    case Arr(elems) => ValidElems(elems)
    case Obj(members) => ValidMembers(members)
  }

  predicate ValidElems(e: Elems) {
    match e
    case NoElem(ws) => IsJsonWs(ws)
    case Elem(before, value, after, more) => IsJsonWs(before) && Valid(value) && IsJsonWs(after) && ValidElems(more)
  }

  predicate ValidMembers(m: Members) {
    match m
    case NoMember(ws) => IsJsonWs(ws)
    case Member(before, key, mid, pre, value, after, more) =>
      && IsJsonWs(before) && ValidItems(key) && IsJsonWs(mid) && IsJsonWs(pre)
      && Valid(value) && IsJsonWs(after) && ValidMembers(more)
  }

  // ----- printing -----

  function PrintItem(it: StrItem): string {
    match it
    case Plain(c) => [c]
    case Short(c) => ['\\', c]
    case Hex(d) => "\\u" + d
  }

  function PrintItems(items: seq<StrItem>): string {
    if items == [] then "" else PrintItem(items[0]) + PrintItems(items[1..])
  }

  function Quoted(items: seq<StrItem>): string {
    "\"" + (PrintItems(items) + "\"")
  }

  function Print(v: Json): string {
    match v
    case Atom(text) => text
    case Str(items) => Quoted(items)
    case Arr(elems) => "[" + (PrintElems(elems, true) + "]")
    case Obj(members) => "{" + (PrintMembers(members, true) + "}")
  }

  function Comma(first: bool): string {
    if first then "" else ","
  }

  function PrintElems(e: Elems, first: bool): string {
    match e
    case NoElem(ws) => ws
    case Elem(before, value, after, more) =>
      (Comma(first) + before) + (Print(value) + (after + PrintElems(more, false)))
  }

  function PrintMembers(m: Members, first: bool): string {
    match m
    case NoMember(ws) => ws
    case Member(before, key, mid, pre, value, after, more) =>
      (Comma(first) + before)
      + (Quoted(key) + ((mid + ":" + pre) + (Print(value) + (after + PrintMembers(more, false)))))
  }

  // ----- scanning printed values -----

  predicate Outside(st: Scan) {
    !st.inString && !st.escaped
  }

  lemma ScanItem(it: StrItem, st: Scan)
    requires ValidItem(it) && st.inString && !st.escaped
    ensures RunStrict(PrintItem(it), st) == Some(st)
  {
    var s := PrintItem(it);
    match it {
      case Plain(c) =>
        assert s[1..] == "" && RunStrict("", st) == Some(st);
      case Short(c) =>
        var esc := st.(escaped := true);
        assert s[1..] == [c] && [c][1..] == "" && RunStrict("", st) == Some(st);
        assert RunStrict([c], esc) == Some(st);
      case Hex(d) =>
        var esc := st.(escaped := true);
        assert s[1..][1..] == d;
        InertRun(d, st);
        assert RunStrict(s[1..], esc) == RunStrict(d, st);
    }
  }

  lemma {:induction false} ScanItems(items: seq<StrItem>, st: Scan)
    requires ValidItems(items) && st.inString && !st.escaped
    ensures RunStrict(PrintItems(items), st) == Some(st)
  {
    if items != [] {
      RunStrictConcat(PrintItem(items[0]), PrintItems(items[1..]), st);
      ScanItem(items[0], st);
      ScanItems(items[1..], st);
    }
  }

  lemma OneChar(c: char, st: Scan)
    ensures RunStrict([c], st) == if Mismatch(st, c) then None else Some(Step(st, c))
  {
    assert [c][1..] == "" && RunStrict("", Step(st, c)) == Some(Step(st, c));
  }

  lemma ScanQuoted(items: seq<StrItem>, st: Scan)
    requires ValidItems(items) && Outside(st)
    ensures RunStrict(Quoted(items), st) == Some(st)
  {
    var inside := st.(inString := true);
    RunStrictConcat("\"", PrintItems(items) + "\"", st);
    RunStrictConcat(PrintItems(items), "\"", inside);
    OneChar('"', st);
    ScanItems(items, inside);
    OneChar('"', inside);
  }

  lemma ScanBracketed(open: char, body: string, close: char, st: Scan)
    requires (open == '[' && close == ']') || (open == '{' && close == '}')
    requires var inner := st.(closers := st.closers + [close]);
             Outside(st) && RunStrict(body, inner) == Some(inner)
    ensures RunStrict([open] + (body + [close]), st) == Some(st)
  {
    var inner := st.(closers := st.closers + [close]);
    RunStrictConcat([open], body + [close], st);
    RunStrictConcat(body, [close], inner);
    OneChar(open, st);
    OneChar(close, inner);
    assert inner.closers[..|inner.closers| - 1] == st.closers;
  }

  lemma ScanThen(a: string, b: string, st: Scan)
    requires RunStrict(a, st) == Some(st)
    ensures RunStrict(a + b, st) == RunStrict(b, st)
  {
    RunStrictConcat(a, b, st);
  }

  /** Scanning a whole value leaves the scanner where it was. */
  lemma {:induction false} ScanValue(v: Json, st: Scan)
    requires Valid(v) && Outside(st)
    ensures RunStrict(Print(v), st) == Some(st)
    decreases v
  {
    match v {
      case Atom(text) => InertRun(text, st);
      case Str(items) => ScanQuoted(items, st);
      case Arr(elems) =>
        ScanElems(elems, true, st.(closers := st.closers + [']']));
        ScanBracketed('[', PrintElems(elems, true), ']', st);
      case Obj(members) =>
        ScanMembers(members, true, st.(closers := st.closers + ['}']));
        ScanBracketed('{', PrintMembers(members, true), '}', st);
    }
  }

  lemma {:induction false} ScanElems(e: Elems, first: bool, st: Scan)
    requires ValidElems(e) && Outside(st)
    ensures RunStrict(PrintElems(e, first), st) == Some(st)
    decreases e
  {
    match e {
      case NoElem(ws) => InertRun(ws, st);
      case Elem(before, value, after, more) =>
        InertRun(Comma(first) + before, st);
        ScanValue(value, st);
        InertRun(after, st);
        ScanElems(more, false, st);
        ScanThen(Comma(first) + before, Print(value) + (after + PrintElems(more, false)), st);
        ScanThen(Print(value), after + PrintElems(more, false), st);
        ScanThen(after, PrintElems(more, false), st);
    }
  }

  lemma {:induction false} ScanMembers(m: Members, first: bool, st: Scan)
    requires ValidMembers(m) && Outside(st)
    ensures RunStrict(PrintMembers(m, first), st) == Some(st)
    decreases m
  {
    match m {
      case NoMember(ws) => InertRun(ws, st);
      case Member(before, key, mid, pre, value, after, more) =>
        var last := PrintMembers(more, false);
        InertRun(Comma(first) + before, st);
        ScanQuoted(key, st);
        InertRun(mid + ":" + pre, st);
        ScanValue(value, st);
        InertRun(after, st);
        ScanMembers(more, false, st);
        ScanThen(Comma(first) + before, Quoted(key) + ((mid + ":" + pre) + (Print(value) + (after + last))), st);
        ScanThen(Quoted(key), (mid + ":" + pre) + (Print(value) + (after + last)), st);
        ScanThen(mid + ":" + pre, Print(value) + (after + last), st);
        ScanThen(Print(value), after + last, st);
        ScanThen(after, last, st);
    }
  }

  /** Brackets already open below do not matter to a scan that never needs them. */
  lemma {:induction false} Frame(p: string, st: Scan, below: seq<char>)
    requires RunStrict(p, st).Some?
    ensures var r := RunStrict(p, st).value;
            RunStrict(p, st.(closers := below + st.closers)) == Some(r.(closers := below + r.closers))
  {
    if p != "" {
      var big := st.(closers := below + st.closers);
      assert Step(big, p[0]) == Step(st, p[0]).(closers := below + Step(st, p[0]).closers);
      Frame(p[1..], Step(st, p[0]), below);
    }
  }

  predicate IsContainer(v: Json) {
    v.Arr? || v.Obj?
  }

  function Body(v: Json): string
    requires IsContainer(v)
  {
    if v.Arr? then PrintElems(v.elems, true) else PrintMembers(v.members, true)
  }

  function OpenOf(v: Json): char
    requires IsContainer(v)
  {
    if v.Arr? then '[' else '{'
  }

  function CloseOf(v: Json): char
    requires IsContainer(v)
  {
    if v.Arr? then ']' else '}'
  }

  lemma ScanBody(v: Json, st: Scan)
    requires Valid(v) && IsContainer(v) && Outside(st)
    ensures Print(v) == [OpenOf(v)] + (Body(v) + [CloseOf(v)])
    ensures RunStrict(Body(v), st) == Some(st)
  {
    if v.Arr? {
      ScanElems(v.elems, true, st);
    } else {
      ScanMembers(v.members, true, st);
    }
  }

  /** A complete JSON text is never taken for a truncated one, and repair leaves it alone. */
  lemma CompleteIsNotTruncated(before: string, v: Json, after: string)
    requires IsJsonWs(before) && Valid(v) && IsJsonWs(after)
    ensures !Truncated(before + (Print(v) + after))
        && Repair(before + (Print(v) + after)) == before + (Print(v) + after)
  {
    var t := before + (Print(v) + after);
    InertRun(before, START);
    InertRun(after, START);
    ScanValue(v, START);
    ScanThen(before, Print(v) + after, START);
    ScanThen(Print(v), after, START);
    StrictIsRun(t, START);
    assert t + "" == t;
  }

  lemma PrefixParts(open: char, body: string, close: char, p: string)
    requires p != "" && p < [open] + (body + [close])
    ensures |p| - 1 <= |body| && p == [open] + body[..|p| - 1] && body == body[..|p| - 1] + body[|p| - 1..]
  {
  }

  lemma ScanCut(open: char, body: string, close: char, q: string, rest: string)
    requires (open == '[' && close == ']') || (open == '{' && close == '}')
    requires body == q + rest && RunStrict(body, START) == Some(START)
    ensures Truncated([open] + q)
  {
    RunStrictConcat(q, rest, START);
    Frame(q, START, [close]);
    assert [close] + START.closers == [close];
    OneChar(open, START);
    RunStrictConcat([open], q, START);
    assert Step(START, open) == Scan(false, false, [close]);
  }

  /** Every cut through the text of an object or an array is noticed, whatever white space precedes it. */
  lemma PrefixIsTruncated(before: string, v: Json, p: string)
    requires IsJsonWs(before) && Valid(v) && IsContainer(v) && p != "" && p < Print(v)
    ensures Truncated(before + p)
  {
    ScanBody(v, START);
    PrefixParts(OpenOf(v), Body(v), CloseOf(v), p);
    ScanCut(OpenOf(v), Body(v), CloseOf(v), Body(v)[..|p| - 1], Body(v)[|p| - 1..]);
    InertRun(before, START);
    ScanThen(before, p, START);
  }
}
