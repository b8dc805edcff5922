/**
 The bracket and string scanners for JSON text that a model may have cut off or garbled:
 minimal repair, truncation detection and escaping of raw control characters.

 A text is a sequence of Unicode scalar values.
 */
module JsonScan {
  import opened Whitespace
  import opened Wrappers

  // ----- scanning -----

  /** Inside a string? After a backslash? Which closers are still owed, innermost last? */
  datatype Scan = Scan(inString: bool, escaped: bool, closers: seq<char>)

  const START := Scan(false, false, [])

  predicate Closes(st: Scan, c: char) {
    |st.closers| > 0 && st.closers[|st.closers| - 1] == c
  }

  /** A closer that does not match the innermost open bracket. */
  predicate Mismatch(st: Scan, c: char) {
    !st.inString && (c == '}' || c == ']') && !Closes(st, c)
  }

  /** One character of the scan; a mismatched closer is ignored. */
  function Step(st: Scan, c: char): Scan {
    if st.inString then
      if st.escaped then st.(escaped := false)
      else if c == '\\' then st.(escaped := true)
      else if c == '"' then st.(inString := false)
      else st
    else if c == '"' then st.(inString := true)
    else if c == '{' then st.(closers := st.closers + ['}'])
    else if c == '[' then st.(closers := st.closers + [']'])
    else if (c == '}' || c == ']') && Closes(st, c) then st.(closers := st.closers[..|st.closers| - 1])
    else st
  }

  function Run(s: string, st: Scan): Scan {
    if s == "" then st else Run(s[1..], Step(st, s[0]))
  }

  /** The same scan, stopped by the first mismatched closer. */
  function RunStrict(s: string, st: Scan): Option<Scan> {
    if s == "" then Some(st)
    else if Mismatch(st, s[0]) then None
    else RunStrict(s[1..], Step(st, s[0]))
  }

  /** Every bracket and string of s is closed, in the right order. */
  predicate Balanced(s: string) {
    RunStrict(s, START) == Some(START)
  }

  lemma {:induction false} RunConcat(a: string, b: string, st: Scan)
    ensures Run(a + b, st) == Run(b, Run(a, st))
  {
    if a == "" {
      assert a + b == b;
    } else {
      assert (a + b)[1..] == a[1..] + b;
      RunConcat(a[1..], b, Step(st, a[0]));
    }
  }

  lemma {:induction false} RunStrictConcat(a: string, b: string, st: Scan)
    ensures RunStrict(a + b, st) ==
            if RunStrict(a, st).Some? then RunStrict(b, RunStrict(a, st).value) else None
  {
    if a == "" {
      assert a + b == b;
    } else {
      assert (a + b)[1..] == a[1..] + b;
      RunStrictConcat(a[1..], b, Step(st, a[0]));
    }
  }

  lemma {:induction false} StrictIsRun(s: string, st: Scan)
    ensures RunStrict(s, st).Some? ==> RunStrict(s, st).value == Run(s, st)
  {
    if s != "" {
      StrictIsRun(s[1..], Step(st, s[0]));
    }
  }

  /** Outside strings the scan never remembers a backslash. */
  predicate Sane(st: Scan) {
    st.escaped ==> st.inString
  }

  lemma {:induction false} RunSane(s: string, st: Scan)
    requires Sane(st)
    ensures Sane(Run(s, st))
  {
    if s != "" {
      RunSane(s[1..], Step(st, s[0]));
    }
  }

  // ----- repair -----

  function Reverse(s: string): string {
    if s == "" then "" else [s[|s| - 1]] + Reverse(s[..|s| - 1])
  }

  /** The text that closes everything still open. */
  function CloseOff(st: Scan): string {
    (if st.inString then (if st.escaped then "\\" else "") + "\"" else "") + Reverse(st.closers)
  }

  function Repair(s: string): string {
    s + CloseOff(Run(s, START))
  }

  method RepairTruncatedJson(s: string) returns (repaired: string)
    ensures repaired == Repair(s)
  {
    repaired := "";
    var inString, escapeNext := false, false;
    var closers: seq<char> := [];
    for i := 0 to |s|
      invariant repaired == s[..i]
      invariant Sane(Scan(inString, escapeNext, closers))
      invariant Run(s, START) == Run(s[i..], Scan(inString, escapeNext, closers))
    {
      var c := s[i];
      repaired := repaired + [c];
      assert s[i..][1..] == s[i + 1..];
      if inString {
        if escapeNext {
          escapeNext := false;
        } else if c == '\\' {
          escapeNext := true;
        } else if c == '"' {
          inString := false;
        }
      } else if c == '"' {
        inString := true;
      } else if c == '{' {
        closers := closers + ['}'];
      } else if c == '[' {
        closers := closers + [']'];
      } else if (c == '}' || c == ']') && |closers| > 0 && closers[|closers| - 1] == c {
        closers := closers[..|closers| - 1];
      }
    }
    assert s[..|s|] == s && s[|s|..] == "";
    if inString {
      if escapeNext {
        repaired := repaired + "\\";
      }
      repaired := repaired + "\"";
    }
    while closers != []
      invariant repaired + Reverse(closers) == Repair(s)
    {
      repaired := repaired + [closers[|closers| - 1]];
      closers := closers[..|closers| - 1];
    }
    assert repaired + "" == repaired;
  }

  lemma {:induction false} ClosersClose(closers: seq<char>)
    requires forall i :: 0 <= i < |closers| ==> closers[i] == '}' || closers[i] == ']'
    ensures RunStrict(Reverse(closers), Scan(false, false, closers)) == Some(START)
  {
    if closers != [] {
      var last := closers[|closers| - 1];
      assert Reverse(closers)[0] == last && Reverse(closers)[1..] == Reverse(closers[..|closers| - 1]);
      ClosersClose(closers[..|closers| - 1]);
    }
  }

  predicate OnlyClosers(st: Scan) {
    forall i :: 0 <= i < |st.closers| ==> st.closers[i] == '}' || st.closers[i] == ']'
  }

  lemma {:induction false} RunOnlyClosers(s: string, st: Scan)
    requires OnlyClosers(st)
    ensures OnlyClosers(Run(s, st))
  {
    if s != "" {
      RunOnlyClosers(s[1..], Step(st, s[0]));
    }
  }

  /** Whatever is open, the closing text closes it without a mismatch. */
  lemma CloseOffCloses(st: Scan)
    requires Sane(st) && OnlyClosers(st)
    ensures RunStrict(CloseOff(st), st) == Some(START)
  {
    var quote := if st.inString then (if st.escaped then "\\" else "") + "\"" else "";
    RunStrictConcat(quote, Reverse(st.closers), st);
    ClosersClose(st.closers);
    if st.inString {
      var open := st.(escaped := false);
      assert "" + "\"" == "\"" && "\\" + "\"" == "\\\"";
      assert "\\\""[1..] == "\"" && "\""[1..] == "";
      assert RunStrict("\"", open) == Some(Scan(false, false, st.closers)) by {
        assert RunStrict("", Step(open, '"')) == Some(Step(open, '"'));
      }
    }
  }

  /** Repaired text has nothing open, so repairing it again changes nothing. */
  lemma RepairIdempotent(s: string)
    ensures Run(Repair(s), START) == START
    ensures Repair(Repair(s)) == Repair(s)
  {
    var st := Run(s, START);
    RunSane(s, START);
    RunOnlyClosers(s, START);
    CloseOffCloses(st);
    StrictIsRun(CloseOff(st), st);
    RunConcat(s, CloseOff(st), START);
    assert CloseOff(START) == "";
    assert Repair(s) + "" == Repair(s);
  }

  /** Repair balances exactly the texts that have no mismatched closer. */
  lemma RepairBalances(s: string)
    ensures Balanced(Repair(s)) <==> RunStrict(s, START).Some?
  {
    var st := Run(s, START);
    RunSane(s, START);
    RunOnlyClosers(s, START);
    CloseOffCloses(st);
    StrictIsRun(s, START);
    RunStrictConcat(s, CloseOff(st), START);
  }

  /** What is still owed: every character pays at most one unit of it. */
  function Owed(st: Scan): nat {
    (if st.inString then 1 else 0) + (if st.escaped then 1 else 0) + |st.closers|
  }

  lemma {:induction false} PayOff(u: string, st: Scan)
    requires RunStrict(u, st) == Some(START)
    ensures |u| >= Owed(st)
  {
    if u != "" {
      PayOff(u[1..], Step(st, u[0]));
    }
  }

  lemma {:induction false} ReverseLength(s: string)
    ensures |Reverse(s)| == |s|
  {
    if s != "" {
      ReverseLength(s[..|s| - 1]);
    }
  }

  /** No shorter suffix balances s than the one repair appends. */
  lemma RepairIsMinimal(s: string, u: string)
    requires Balanced(s + u)
    ensures Balanced(Repair(s)) && |Repair(s)| <= |s + u|
  {
    RunStrictConcat(s, u, START);
    StrictIsRun(s, START);
    RepairBalances(s);
    RunSane(s, START);
    PayOff(u, Run(s, START));
    ReverseLength(Run(s, START).closers);
  }

  // ----- truncation -----

  predicate Open(st: Option<Scan>) {
    st.None? || st.value.inString || st.value.escaped || st.value.closers != []
  }

  /** Something in s is unclosed or mismatched. */
  predicate Truncated(s: string) {
    Open(RunStrict(s, START))
  }

  lemma TruncatedIsUnbalanced(s: string)
    ensures Truncated(s) <==> !Balanced(s)
  {
  }

  lemma OneWhite(st: Scan, c: char)
    requires IsWhite(c) && Sane(st)
    ensures !Mismatch(st, c) && Open(Some(Step(st, c))) == Open(Some(st))
  {
  }

  /** White space at the end never changes the verdict. */
  lemma {:induction false} TrimKeepsTruncated(s: string)
    ensures Truncated(TrimEnd(s)) == Truncated(s)
  {
    if s != "" && IsWhite(s[|s| - 1]) {
      var t, c := s[..|s| - 1], s[|s| - 1];
      TrimKeepsTruncated(t);
      assert s == t + [c];
      RunStrictConcat(t, [c], START);
      if RunStrict(t, START).Some? {
        StrictIsRun(t, START);
        RunSane(t, START);
        var st := RunStrict(t, START).value;
        OneWhite(st, c);
        assert [c][1..] == "";
        assert RunStrict([c], st) == RunStrict("", Step(st, c));
      }
    }
  }

  method LooksTruncated(args: string) returns (r: bool)
    ensures r == Truncated(args)
  {
    var trimmed := TrimEnd(args);
    TrimKeepsTruncated(args);
    if trimmed == "" {
      return false;
    }
    var inString, escapeNext := false, false;
    var depth: seq<char> := [];
    for i := 0 to |trimmed|
      invariant Sane(Scan(inString, escapeNext, depth))
      invariant RunStrict(trimmed, START) == RunStrict(trimmed[i..], Scan(inString, escapeNext, depth))
    {
      var c := trimmed[i];
      assert trimmed[i..][1..] == trimmed[i + 1..];
      if inString {
        if escapeNext {
          escapeNext := false;
        } else if c == '\\' {
          escapeNext := true;
        } else if c == '"' {
          inString := false;
        }
      } else if c == '"' {
        inString := true;
      } else if c == '{' {
        depth := depth + ['}'];
      } else if c == '[' {
        depth := depth + [']'];
      } else if c == '}' || c == ']' {
        if |depth| > 0 && depth[|depth| - 1] == c {
          depth := depth[..|depth| - 1];
        } else {
          return true;
        }
      }
    }
    return inString || escapeNext || depth != [];
  }

  // ----- escaping -----

  predicate IsControl(c: char) {
    c as int <= 0x1F
  }

  function HexDigit(n: nat): char
    requires n < 16
  {
    if n < 10 then (n + '0' as int) as char else (n - 10 + 'a' as int) as char
  }

  function EscapeChar(c: char): string {
    if !IsControl(c) then [c]
    else if c as int == 8 then "\\b"
    else if c as int == 12 then "\\f"
    else if c == '\n' then "\\n"
    else if c == '\r' then "\\r"
    else if c == '\t' then "\\t"
    else ['\\', 'u', '0', '0', HexDigit(c as int / 16), HexDigit(c as int % 16)]
  }

  function Escape(s: string): string {
    if s == "" then "" else EscapeChar(s[0]) + Escape(s[1..])
  }

  method JsonEscapeControlCharsInString(s: string) returns (r: string)
    ensures r == Escape(s)
  {
    r := "";
    for i := 0 to |s|
      invariant r + Escape(s[i..]) == Escape(s)
    {
      assert s[i..][0] == s[i] && s[i..][1..] == s[i + 1..];
      r := r + EscapeChar(s[i]);
    }
    assert r + "" == r;
  }

  lemma {:induction false} EscapeConcat(a: string, b: string)
    ensures Escape(a + b) == Escape(a) + Escape(b)
  {
    if a == "" {
      assert a + b == b;
    } else {
      assert (a + b)[1..] == a[1..] + b;
      EscapeConcat(a[1..], b);
    }
  }

  predicate Inert(c: char) {
    c != '"' && c != '\\' && c != '{' && c != '}' && c != '[' && c != ']'
  }

  lemma {:induction false} InertRun(s: string, st: Scan)
    requires (forall i :: 0 <= i < |s| ==> Inert(s[i])) && !st.escaped
    ensures RunStrict(s, st) == Some(st)
  {
    if s != "" {
      InertRun(s[1..], st);
    }
  }

  /** An escaped control character moves the scan exactly as the raw one does. */
  lemma EscapeCharRun(c: char, st: Scan)
    requires Sane(st)
    ensures RunStrict(EscapeChar(c), st) == if Mismatch(st, c) then None else Some(Step(st, c))
  {
    var e := EscapeChar(c);
    if IsControl(c) {
      assert e[0] == '\\';
      var rest := e[1..];
      assert forall i :: 0 <= i < |rest| ==> Inert(rest[i]);
      var st1 := Step(st, '\\');
      if st1.escaped {
        assert RunStrict(rest, st1) == RunStrict(rest[1..], Step(st1, rest[0]));
        InertRun(rest[1..], Step(st1, rest[0]));
      } else {
        InertRun(rest, st1);
      }
    } else {
      assert [c][1..] == "";
      assert RunStrict("", Step(st, c)) == Some(Step(st, c));
    }
  }

  lemma {:induction false} EscapeRun(s: string, st: Scan)
    requires Sane(st)
    ensures RunStrict(Escape(s), st) == RunStrict(s, st)
  {
    if s != "" {
      RunStrictConcat(EscapeChar(s[0]), Escape(s[1..]), st);
      EscapeCharRun(s[0], st);
      EscapeRun(s[1..], Step(st, s[0]));
    }
  }

  lemma {:induction false} EscapeRunLoose(s: string, st: Scan)
    requires Sane(st)
    ensures Run(Escape(s), st) == Run(s, st)
  {
    if s != "" {
      RunConcat(EscapeChar(s[0]), Escape(s[1..]), st);
      if Mismatch(st, s[0]) {
        assert [s[0]][1..] == "" && Run("", st) == st;
      } else {
        EscapeCharRun(s[0], st);
        StrictIsRun(EscapeChar(s[0]), st);
      }
      EscapeRunLoose(s[1..], Step(st, s[0]));
    }
  }

  /** Escaping raw control characters never changes whether a text looks truncated. */
  lemma EscapeKeepsTruncated(s: string)
    ensures Truncated(Escape(s)) == Truncated(s)
  {
    EscapeRun(s, START);
  }

  lemma {:induction false} EscapePlain(s: string)
    requires forall i :: 0 <= i < |s| ==> !IsControl(s[i])
    ensures Escape(s) == s
  {
    if s != "" {
      EscapePlain(s[1..]);
    }
  }

  lemma {:induction false} ReverseMembers(s: string)
    ensures forall i :: 0 <= i < |Reverse(s)| ==> Reverse(s)[i] in s
  {
    if s != "" {
      ReverseMembers(s[..|s| - 1]);
    }
  }

  /** Repairing and escaping commute. */
  lemma RepairEscapeCommute(s: string)
    ensures Repair(Escape(s)) == Escape(Repair(s))
  {
    var st := Run(s, START);
    EscapeRunLoose(s, START);
    EscapeConcat(s, CloseOff(st));
    RunOnlyClosers(s, START);
    ReverseMembers(st.closers);
    EscapePlain(CloseOff(st));
  }
}
