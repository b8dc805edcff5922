/** Cutting the object at the start of a text out of whatever follows it, by counting braces. */
module LeadingObject {
  import opened Whitespace
  import opened Wrappers
  import opened JsonScan
  import opened JsonSyntax

  // ----- a leading object -----

  /** The state of the brace counter; strings are skipped. */
  datatype Braces = Braces(inString: bool, escaped: bool, depth: nat)

  function BraceStep(st: Braces, c: char): Braces {
    if st.inString then
      if st.escaped then st.(escaped := false)
      else if c == '\\' then st.(escaped := true)
      else if c == '"' then st.(inString := false)
      else st
    else if c == '"' then st.(inString := true)
    else if c == '{' then st.(depth := st.depth + 1)
    else if c == '}' && st.depth > 0 then st.(depth := st.depth - 1)
    else st
  }

  predicate ClosesLast(st: Braces, c: char) {
    !st.inString && c == '}' && st.depth <= 1
  }

  /** The length of the shortest prefix of t that brings the depth back to zero. */
  function BraceEnd(t: string, st: Braces): (r: Option<nat>)
    ensures r.Some? ==> 0 < r.value <= |t|
  {
    if t == "" then None
    else if ClosesLast(st, t[0]) then Some(1)
    else Plus(BraceEnd(t[1..], BraceStep(st, t[0])), 1)
  }

  const OUTSIDE := Braces(false, false, 0)

  datatype Span = Span(start: nat, end: nat)

  /** The object at the start of text, white space aside, up to the brace that closes it. */
  function LeadingSpan(text: string): (r: Option<Span>)
    ensures r.Some? ==> r.value.start < r.value.end <= |text|
  {
    var t := TrimStart(text);
    var skipped := |text| - |t|;
    if t == "" || t[0] != '{' then None
    else
      match BraceEnd(t, OUTSIDE)
      case Some(n) => TrimStartSuffix(text); Some(Span(skipped, skipped + n))
      case None => None
  }

  function Plus(o: Option<nat>, k: nat): Option<nat> {
    match o case Some(n) => Some(n + k) case None => None
  }

  lemma BraceEndStep(t: string, idx: nat, st: Braces)
    requires idx < |t|
    ensures BraceEnd(t[idx..], st) ==
            if ClosesLast(st, t[idx]) then Some(1) else Plus(BraceEnd(t[idx + 1..], BraceStep(st, t[idx])), 1)
  {
    assert t[idx..][1..] == t[idx + 1..];
  }

  /** The scanner of the program: its depth counter never goes below zero. */
  method FindBraceEnd(t: string) returns (n: Option<nat>)
    requires t != "" && t[0] == '{'
    ensures n == BraceEnd(t, OUTSIDE)
  {
    var depth: nat := 0;
    var inString, escaped := false, false;
    for idx := 0 to |t|
      invariant idx == 0 ==> depth == 0 && !inString
      invariant idx > 0 ==> depth > 0
      invariant BraceEnd(t, OUTSIDE) == Plus(BraceEnd(t[idx..], Braces(inString, escaped, depth)), idx)
    {
      var ch := t[idx];
      BraceEndStep(t, idx, Braces(inString, escaped, depth));
      if inString {
        if escaped {
          escaped := false;
        } else if ch == '\\' {
          escaped := true;
        } else if ch == '"' {
          inString := false;
        }
      } else if ch == '"' {
        inString := true;
      } else if ch == '{' {
        depth := depth + 1;
      } else if ch == '}' {
        depth := depth - 1;
        if depth == 0 {
          return Some(idx + 1);
        }
      }
    }
    return None;
  }

  method FindLeadingObject(text: string) returns (r: Option<Span>)
    ensures r == LeadingSpan(text)
  {
    var t := TrimStart(text);
    TrimStartSuffix(text);
    var skipped := |text| - |t|;
    if t == "" || t[0] != '{' {
      return None;
    }
    var n := FindBraceEnd(t);
    return match n case Some(m) => Some(Span(skipped, skipped + m)) case None => None;
  }

  function CountBraces(closers: seq<char>): nat {
    if closers == [] then 0
    else CountBraces(closers[..|closers| - 1]) + if closers[|closers| - 1] == '}' then 1 else 0
  }

  /** The brace counter forgets square brackets. */
  function Forget(st: Scan, base: nat): Braces {
    Braces(st.inString, st.escaped, base + CountBraces(st.closers))
  }

  lemma ForgetStep(st: Scan, c: char, base: nat)
    requires base > 0 && !Mismatch(st, c)
    ensures !ClosesLast(Forget(st, base), c)
    ensures Forget(Step(st, c), base) == BraceStep(Forget(st, base), c)
  {
    assert (st.closers + ['}'])[..|st.closers|] == st.closers;
    assert (st.closers + [']'])[..|st.closers|] == st.closers;
  }

  /** While the full scan never needs what is open below, the brace counter stays above zero. */
  lemma {:induction false} BraceThrough(q: string, x: string, st: Scan, base: nat)
    requires base > 0 && RunStrict(q, st).Some?
    ensures BraceEnd(q + x, Forget(st, base)) ==
            Plus(BraceEnd(x, Forget(RunStrict(q, st).value, base)), |q|)
  {
    if q == "" {
      assert q + x == x;
    } else {
      ForgetStep(st, q[0], base);
      assert (q + x)[1..] == q[1..] + x;
      BraceThrough(q[1..], x, Step(st, q[0]), base);
    }
  }

  /** In front of anything, the text of an object is found whole. */
  lemma ObjectIsFound(o: Json, x: string)
    requires Valid(o) && o.Obj?
    ensures BraceEnd(Print(o) + x, OUTSIDE) == Some(|Print(o)|)
  {
    var body := Body(o);
    ScanBody(o, START);
    var rest := body + ("}" + x);
    assert Print(o) + x == "{" + rest;
    assert ("{" + rest)[1..] == rest;
    BraceThrough(body, "}" + x, START, 1);
    assert Forget(START, 1) == BraceStep(OUTSIDE, '{');
    assert BraceEnd("}" + x, Forget(START, 1)) == Some(1);
  }

  lemma LeadingObjectFound(ws: string, o: Json, x: string)
    requires Valid(o) && o.Obj? && forall i :: 0 <= i < |ws| ==> IsWhite(ws[i])
    ensures LeadingSpan(ws + (Print(o) + x)) == Some(Span(|ws|, |ws| + |Print(o)|))
  {
    ObjectIsFound(o, x);
    ScanBody(o, START);
    assert (Print(o) + x)[0] == '{';
    TrimStartSkips(ws, Print(o) + x);
  }
}
