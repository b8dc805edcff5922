/** What the escapes of JSON strings stand for (RFC 8259, section 7): escaping control characters keeps every string. */
module JsonDecoding {
  import opened Wrappers
  import opened JsonScan

  function HexValue(c: char): Option<nat> {
    if '0' <= c <= '9' then Some(c as int - '0' as int)
    else if 'a' <= c <= 'f' then Some(c as int - 'a' as int + 10)
    else if 'A' <= c <= 'F' then Some(c as int - 'A' as int + 10)
    else None
  }

  /** The character of four hexadecimal digits; the halves of a surrogate pair are no characters. */
  function HexChar(digits: string): Option<char>
    requires |digits| == 4
  {
    match (HexValue(digits[0]), HexValue(digits[1]), HexValue(digits[2]), HexValue(digits[3]))
    case (Some(a), Some(b), Some(c), Some(d)) =>
      var n := ((a * 16 + b) * 16 + c) * 16 + d;
      if n < 0xD800 || 0xE000 <= n < 0x10000 then Some(n as char) else None
    case _ => None
  }

  /** What one character behind a backslash stands for. */
  function ShortChar(c: char): Option<char> {
    if c == '"' || c == '\\' || c == '/' then Some(c)
    else if c == 'b' then Some(8 as char)
    else if c == 'f' then Some(12 as char)
    else if c == 'n' then Some(10 as char)
    else if c == 'r' then Some(13 as char)
    else if c == 't' then Some(9 as char)
    else None
  }

  function Behind(c: char, rest: Option<string>): Option<string> {
    match rest case Some(s) => Some([c] + s) case None => None
  }

  /** The string that the inside of a quoted text stands for, raw control characters standing for themselves. */
  function Decode(s: string): Option<string> {
    if s == "" then Some("")
    else if s[0] != '\\' then Behind(s[0], Decode(s[1..]))
    else if |s| > 1 && ShortChar(s[1]).Some? then Behind(ShortChar(s[1]).value, Decode(s[2..]))
    else if |s| > 5 && s[1] == 'u' && HexChar(s[2..6]).Some? then Behind(HexChar(s[2..6]).value, Decode(s[6..]))
    else None
  }

  lemma DecodeShort(c: char, y: string)
    requires ShortChar(c).Some?
    ensures Decode(['\\', c] + y) == Behind(ShortChar(c).value, Decode(y))
  {
    assert (['\\', c] + y)[2..] == y;
  }

  lemma DecodeHex(d: string, y: string)
    requires |d| == 4 && HexChar(d).Some?
    ensures Decode("\\u" + d + y) == Behind(HexChar(d).value, Decode(y))
  {
    var s := "\\u" + d + y;
    assert s[2..6] == d && s[6..] == y;
  }

  lemma HexDecodes(n: nat)
    requires n <= 0x1F
    ensures HexChar(['0', '0', HexDigit(n / 16), HexDigit(n % 16)]) == Some(n as char)
  {
    assert HexValue(HexDigit(n / 16)) == Some(n / 16) && HexValue(HexDigit(n % 16)) == Some(n % 16);
  }

  lemma ShortDecodes(c: char, y: string)
    requires c as int in {8, 9, 10, 12, 13}
    ensures Decode(EscapeChar(c) + y) == Behind(c, Decode(y))
  {
    var n := c as int;
    var e := if n == 8 then 'b' else if n == 12 then 'f' else if n == 10 then 'n' else if n == 13 then 'r' else 't';
    assert EscapeChar(c) == ['\\', e];
    DecodeShort(e, y);
  }

  /** An escaped control character stands for itself. */
  lemma EscapeCharDecodes(c: char, y: string)
    requires c as int <= 0x1F
    ensures Decode(EscapeChar(c) + y) == Behind(c, Decode(y))
  {
    var n := c as int;
    if n in {8, 9, 10, 12, 13} {
      ShortDecodes(c, y);
    } else {
      var d := ['0', '0', HexDigit(n / 16), HexDigit(n % 16)];
      assert EscapeChar(c) == "\\u" + d;
      HexDecodes(n);
      DecodeHex(d, y);
    }
  }

  lemma EscapePrefix(p: string, s: string)
    requires p <= s && forall i :: 0 <= i < |p| ==> !IsControl(p[i])
    ensures Escape(s) == p + Escape(s[|p|..])
  {
    assert s == p + s[|p|..];
    EscapeConcat(p, s[|p|..]);
    EscapePlain(p);
  }

  lemma HexIsPlain(digits: string)
    requires |digits| == 4 && HexChar(digits).Some?
    ensures forall i :: 0 <= i < 4 ==> !IsControl(digits[i])
  {
  }

  lemma DecodeFirst(c: char, rest: string)
    requires c != '\\'
    ensures Decode([c] + Escape(rest)) == Behind(c, Decode(Escape(rest)))
  {
    assert ([c] + Escape(rest))[1..] == Escape(rest);
  }

  lemma OneKeepsMeaning(s: string)
    requires s != "" && s[0] != '\\'
    ensures Decode(Escape(s)) == Behind(s[0], Decode(Escape(s[1..])))
  {
    if IsControl(s[0]) {
      EscapeCharDecodes(s[0], Escape(s[1..]));
    } else {
      DecodeFirst(s[0], s[1..]);
    }
  }

  lemma ShortEscaped(s: string, p: string)
    requires p <= s && |p| == 2 && p[0] == '\\' && ShortChar(p[1]).Some?
    ensures Escape(s) == p + Escape(s[2..])
  {
    assert !IsControl(p[0]) && !IsControl(p[1]);
    EscapePrefix(p, s);
  }

  lemma ShortKeepsMeaning(s: string)
    requires |s| > 1 && s[0] == '\\' && ShortChar(s[1]).Some?
    ensures Decode(Escape(s)) == Behind(ShortChar(s[1]).value, Decode(Escape(s[2..])))
  {
    var p := ['\\', s[1]];
    assert s[..2] == p;
    ShortEscaped(s, p);
    DecodeShort(s[1], Escape(s[2..]));
  }

  lemma HexEscaped(s: string, d: string)
    requires |s| > 5 && s[0] == '\\' && s[1] == 'u' && s[2..6] == d && HexChar(d).Some?
    ensures Escape(s) == "\\u" + d + Escape(s[6..])
  {
    var p := "\\u" + d;
    assert s[..6] == p;
    assert forall i :: 0 <= i < |p| ==> !IsControl(p[i]) by {
      HexIsPlain(d);
    }
    EscapePrefix(p, s);
  }

  lemma HexKeepsMeaning(s: string)
    requires |s| > 5 && s[0] == '\\' && s[1] == 'u' && HexChar(s[2..6]).Some?
    ensures Decode(Escape(s)) == Behind(HexChar(s[2..6]).value, Decode(Escape(s[6..])))
  {
    HexEscaped(s, s[2..6]);
    DecodeHex(s[2..6], Escape(s[6..]));
  }

  /** Escaping the control characters of a string that can be read changes nothing about what it stands for. */
  lemma {:induction false} EscapeKeepsMeaning(s: string)
    requires Decode(s).Some?
    ensures Decode(Escape(s)) == Decode(s)
    decreases |s|
  {
    if s != "" {
      if s[0] != '\\' {
        EscapeKeepsMeaning(s[1..]);
        OneKeepsMeaning(s);
      } else if |s| > 1 && ShortChar(s[1]).Some? {
        EscapeKeepsMeaning(s[2..]);
        ShortKeepsMeaning(s);
      } else {
        EscapeKeepsMeaning(s[6..]);
        HexKeepsMeaning(s);
      }
    }
  }

  /** In particular a raw string without backslashes is what its escaped form stands for. */
  lemma {:induction false} RawDecodes(s: string)
    requires '\\' !in s
    ensures Decode(s) == Some(s) && Decode(Escape(s)) == Some(s)
  {
    if s != "" {
      RawDecodes(s[1..]);
      assert s == [s[0]] + s[1..];
      assert Decode(s) == Some(s);
      EscapeKeepsMeaning(s);
    }
  }

  /** No raw control character is left. */
  lemma {:induction false} NoControlLeft(s: string)
    ensures forall i :: 0 <= i < |Escape(s)| ==> Escape(s)[i] as int >= 0x20
  {
    if s != "" {
      NoControlLeft(s[1..]);
    }
  }
}
