/** Trimming, as the standard library of the program does it. */
module Whitespace {
  /** White space in the sense of the Unicode White_Space property. */
  predicate IsWhite(c: char) {
    var n := c as int;
    9 <= n <= 13 || n == 32 || n == 0x85 || n == 0xA0 || n == 0x1680 || 0x2000 <= n <= 0x200A
    || n == 0x2028 || n == 0x2029 || n == 0x202F || n == 0x205F || n == 0x3000
  }

  /** The white space among the characters of ASCII. */
  lemma AsciiWhite(c: char)
    requires c as int < 0x80
    ensures IsWhite(c) <==> c in {' ', '\t', '\n', '\r'} || c as int == 11 || c as int == 12
  {
  }

  function TrimEnd(s: string): string {
    if s != "" && IsWhite(s[|s| - 1]) then TrimEnd(s[..|s| - 1]) else s
  }

  function TrimStart(s: string): string {
    if s != "" && IsWhite(s[0]) then TrimStart(s[1..]) else s
  }

  function Trim(s: string): string {
    TrimEnd(TrimStart(s))
  }

  lemma {:induction false} TrimStartSuffix(s: string)
    ensures |TrimStart(s)| <= |s| && TrimStart(s) == s[|s| - |TrimStart(s)|..]
  {
    if s != "" && IsWhite(s[0]) {
      TrimStartSuffix(s[1..]);
    }
  }

  lemma {:induction false} TrimStartSkips(ws: string, t: string)
    requires (forall i :: 0 <= i < |ws| ==> IsWhite(ws[i])) && t != "" && !IsWhite(t[0])
    ensures TrimStart(ws + t) == t
  {
    if ws == "" {
      assert ws + t == t;
    } else {
      assert (ws + t)[1..] == ws[1..] + t;
      TrimStartSkips(ws[1..], t);
    }
  }
}
