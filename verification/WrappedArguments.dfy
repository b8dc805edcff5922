/** Tool arguments inside a Markdown fence or a pair of tags: found when they are whole, rejected when they are cut. */
module WrappedArguments {
  import opened Whitespace
  import opened Wrappers
  import opened Sequences
  import opened JsonScan
  import opened JsonSyntax
  import opened ToolArguments

  /** No arguments are the empty object. */
  lemma NothingIsEmptyObject<V>(parse: Parser<V>, unwrap: V -> V, emptyObject: V)
    ensures ParseToolArguments("", parse, unwrap, emptyObject) == Some(emptyObject)
  {
  }

  // ----- trimming -----

  predicate AllWhite(s: string) {
    forall i :: 0 <= i < |s| ==> IsWhite(s[i])
  }

  predicate Solid(s: string) {
    s != "" && !IsWhite(s[0]) && !IsWhite(s[|s| - 1])
  }

  lemma {:induction false} TrimEndOff(x: string, w: string)
    requires AllWhite(w) && (x == "" || !IsWhite(x[|x| - 1]))
    ensures TrimEnd(x + w) == x
  {
    if w == "" {
      assert x + w == x;
    } else {
      assert (x + w)[..|x + w| - 1] == x + w[..|w| - 1];
      TrimEndOff(x, w[..|w| - 1]);
    }
  }

  lemma TrimAround(w: string, x: string, w2: string)
    requires AllWhite(w) && AllWhite(w2) && Solid(x)
    ensures Trim(w + (x + w2)) == x
  {
    TrimStartSkips(w, x + w2);
    TrimEndOff(x, w2);
  }

  /** Trimming the end of a text whose last part has something to keep trims that part. */
  lemma {:induction false} TrimEndOfLast(a: string, p: string)
    requires p != "" && !IsWhite(p[0])
    ensures TrimEnd(a + p) == a + TrimEnd(p) && TrimEnd(p) != "" && TrimEnd(p) <= p
    ensures !IsWhite(TrimEnd(p)[|TrimEnd(p)| - 1])
  {
    if IsWhite(p[|p| - 1]) {
      assert (a + p)[..|a + p| - 1] == a + p[..|p| - 1];
      TrimEndOfLast(a, p[..|p| - 1]);
    }
  }

  lemma {:induction false} TrimEndSolid(p: string)
    requires p != "" && !IsWhite(p[0])
    ensures TrimEnd(p) != "" && TrimEnd(p) <= p && !IsWhite(TrimEnd(p)[|TrimEnd(p)| - 1])
  {
    if IsWhite(p[|p| - 1]) {
      TrimEndSolid(p[..|p| - 1]);
    }
  }

  lemma TrimOpen(w: string, x: string, p: string)
    requires AllWhite(w) && x != "" && !IsWhite(x[0]) && p != "" && !IsWhite(p[0])
    ensures Trim(w + (x + p)) == x + TrimEnd(p)
  {
    TrimStartSkips(w, x + p);
    TrimEndOfLast(x, p);
  }

  // ----- fences -----

  predicate Language(lang: string) {
    lang == "" || lang == "json" || lang == "JSON"
  }

  /** What may stand between a fence and an object: a language with white space around it. */
  predicate FenceHead(h: string, w: string, lang: string, w1: string) {
    h == w + (lang + w1) && AllWhite(w) && AllWhite(w1) && Language(lang)
  }

  /** What remains of the inside of a fence without the name of a language. */
  function Bare(body: string): string {
    if StripPrefix(body, "json").Some? then StripPrefix(body, "json").value
    else if StripPrefix(body, "JSON").Some? then StripPrefix(body, "JSON").value
    else body
  }

  lemma BareIsBehind(lang: string, rest: string)
    requires lang == "json" || lang == "JSON"
    ensures Bare(lang + rest) == rest
  {
    var body := lang + rest;
    assert body[..4] == lang && body[4..] == rest;
    assert "json"[0] != "JSON"[0];
    assert body[0] == lang[0];
  }

  lemma BareIsAll(p: string)
    requires p != "" && (p[0] == '{' || p[0] == '[')
    ensures Bare(p) == p
  {
    assert "json"[0] != p[0] && "JSON"[0] != p[0];
  }

  lemma StartsBehind(s: string, w: string, t: string)
    requires s == w + t && AllWhite(w) && t != "" && !IsWhite(t[0])
    ensures TrimStart(s) == t
  {
    TrimStartSkips(w, t);
  }

  lemma TrimStarted(w1: string, p: string)
    requires AllWhite(w1) && p != "" && !IsWhite(p[0])
    ensures Trim(w1 + p) == TrimEnd(p) == Trim(p)
  {
    StartsBehind(w1 + p, w1, p);
    StartsBehind(p, "", p);
  }

  lemma BehindLanguage(s: string, w: string, lang: string, rest: string)
    requires s == w + (lang + rest) && AllWhite(w) && (lang == "json" || lang == "JSON")
    ensures Bare(TrimStart(s)) == rest
  {
    assert (lang + rest)[0] == lang[0];
    StartsBehind(s, w, lang + rest);
    BareIsBehind(lang, rest);
  }

  lemma BehindNoLanguage(s: string, w: string, p: string)
    requires s == w + p && AllWhite(w) && p != "" && (p[0] == '{' || p[0] == '[')
    ensures Bare(TrimStart(s)) == p
  {
    StartsBehind(s, w, p);
    BareIsAll(p);
  }

  lemma NoLanguage(h: string, w: string, lang: string, w1: string)
    requires FenceHead(h, w, lang, w1) && lang == ""
    ensures AllWhite(h)
  {
    WithEmpty(w1);
    forall i | 0 <= i < |h| ensures IsWhite(h[i]) {
      assert h[i] == if i < |w| then w[i] else w1[i - |w|];
    }
  }

  lemma HeadParts(h: string, w: string, lang: string, w1: string, p: string)
    requires h == w + (lang + w1)
    ensures h + p == w + (lang + (w1 + p))
  {
    Assoc(w, lang + w1, p);
    Assoc(lang, w1, p);
  }

  /** What is read behind the head of a fence. */
  lemma BehindHead(h: string, w: string, lang: string, w1: string, p: string)
    requires FenceHead(h, w, lang, w1) && p != "" && (p[0] == '{' || p[0] == '[')
    ensures Trim(Bare(TrimStart(h + p))) == TrimEnd(p)
  {
    TrimStarted(w1, p);
    if lang == "" {
      NoLanguage(h, w, lang, w1);
      BehindNoLanguage(h + p, h, p);
    } else {
      HeadParts(h, w, lang, w1, p);
      BehindLanguage(h + p, w, lang, w1 + p);
    }
  }

  lemma FenceHolds(x: string, h: string, w: string, lang: string, w1: string, p: string, w2: string)
    requires FenceHead(h, w, lang, w1) && AllWhite(w2) && Solid(p) && (p[0] == '{' || p[0] == '[')
    requires "```" <= x && x[3..] == (h + (p + w2)) + "```"
    ensures StripFence(x) == Some(p)
  {
    assert StripSuffix(x[3..], "```") == Some(h + (p + w2));
    BehindHead(h, w, lang, w1, p + w2);
    TrimEndOff(p, w2);
  }

  /** A whole object or array in a fence is what the fence is stripped to. */
  lemma FenceStripped(w0: string, h: string, w: string, lang: string, w1: string, v: Json, w2: string, w3: string)
    requires AllWhite(w0) && FenceHead(h, w, lang, w1) && Valid(v) && IsContainer(v) && AllWhite(w2) && AllWhite(w3)
    ensures StripJsonWrapper(w0 + (("```" + ((h + (Print(v) + w2)) + "```")) + w3)) == Some(Print(v))
  {
    ScanBody(v, START);
    var mid := h + (Print(v) + w2);
    var x := "```" + (mid + "```");
    assert x[0] == '`' && x[|x| - 1] == '`';
    TrimAround(w0, x, w3);
    FenceHolds(x, h, w, lang, w1, Print(v), w2);
  }

  // ----- tags -----

  /** Letters, digits, the underscore and the hyphen of ASCII. */
  predicate NameChar(c: char) {
    var n := c as int;
    97 <= n < 123 || 65 <= n < 91 || 48 <= n < 58 || n == 95 || n == 45
  }

  predicate TagName(name: string) {
    name != "" && forall i :: 0 <= i < |name| ==> NameChar(name[i])
  }

  /** Attributes of a tag: nothing, or white space and anything but a bracket. */
  predicate Attributes(attrs: string) {
    attrs == "" || (IsWhite(attrs[0]) && '>' !in attrs)
  }

  lemma {:induction false} WordIs(name: string, rest: string)
    requires (forall i :: 0 <= i < |name| ==> !IsWhite(name[i])) && (rest == "" || IsWhite(rest[0]))
    ensures Word(name + rest) == name
  {
    if name == "" {
      assert name + rest == rest;
    } else {
      assert (name + rest)[1..] == name[1..] + rest;
      WordIs(name[1..], rest);
    }
  }

  lemma {:induction false} FindIs(a: string, c: char, rest: string)
    requires c !in a
    ensures Find(a + ([c] + rest), c) == Some(|a|)
  {
    if a == "" {
      assert a + ([c] + rest) == [c] + rest;
    } else {
      assert (a + ([c] + rest))[1..] == a[1..] + ([c] + rest);
      FindIs(a[1..], c, rest);
    }
  }

  /** A tag in front of some text, as it is taken apart. */
  lemma TagRead(t: string, name: string, attrs: string, rest: string)
    requires TagName(name) && Attributes(attrs) && t == "<" + (name + attrs) + (">" + rest)
    ensures "<" <= t && !("</" <= t)
    ensures Find(t, '>') == Some(1 + |name + attrs|) && t[1..1 + |name + attrs|] == name + attrs
    ensures t[2 + |name + attrs|..] == rest
  {
    assert t[1] == name[0];
    FindIs("<" + (name + attrs), '>', rest);
    assert t == ("<" + (name + attrs)) + (['>'] + rest);
  }

  lemma NameRead(name: string, attrs: string)
    requires TagName(name) && Attributes(attrs)
    ensures Word(TrimStart(name + attrs)) == name
  {
    TrimStartSkips("", name + attrs);
    assert "" + (name + attrs) == name + attrs;
    WordIs(name, attrs);
  }

  lemma TagStrips(t: string, name: string, attrs: string, rest: string)
    requires TagName(name) && Attributes(attrs) && t == "<" + (name + attrs) + (">" + rest)
    ensures "<" <= t && !("</" <= t)
    ensures StripTag(t) == match StripSuffix(TrimEnd(rest), "</" + name + ">")
                           case Some(inner) => Some(Trim(inner))
                           case None => None
  {
    TagRead(t, name, attrs, rest);
    NameRead(name, attrs);
  }

  lemma TagHolds(t: string, name: string, attrs: string, w1: string, v: Json, w2: string)
    requires TagName(name) && Attributes(attrs) && AllWhite(w1) && Valid(v) && IsContainer(v) && AllWhite(w2)
    requires t == "<" + (name + attrs) + (">" + (w1 + (Print(v) + w2) + ("</" + name + ">")))
    ensures "<" <= t && !("</" <= t) && StripTag(t) == Some(Print(v))
  {
    var mid, close := w1 + (Print(v) + w2), "</" + name + ">";
    ScanBody(v, START);
    TagStrips(t, name, attrs, mid + close);
    TrimEndOff(mid + close, "");
    assert (mid + close) + "" == mid + close;
    assert StripSuffix(mid + close, close) == Some(mid);
    TrimAround(w1, Print(v), w2);
  }

  /** A whole object or array between tags is what they are stripped to. */
  lemma TagsStripped(w0: string, name: string, attrs: string, w1: string, v: Json, w2: string, w3: string)
    requires AllWhite(w0) && TagName(name) && Attributes(attrs) && AllWhite(w1) && Valid(v) && IsContainer(v)
    requires AllWhite(w2) && AllWhite(w3)
    ensures var tagged := "<" + (name + attrs) + (">" + (w1 + (Print(v) + w2) + ("</" + name + ">")));
            StripJsonWrapper(w0 + (tagged + w3)) == Some(Print(v))
  {
    var x := "<" + (name + attrs) + (">" + (w1 + (Print(v) + w2) + ("</" + name + ">")));
    assert x[0] == '<' && x[|x| - 1] == '>';
    TrimAround(w0, x, w3);
    TagHolds(x, name, attrs, w1, v, w2);
  }

  lemma OtherNameNotStripped(t: string, name: string, attrs: string, rest: string)
    requires Attributes(attrs) && t == "<" + (name + attrs) + (">" + rest)
    requires (forall i :: 0 <= i < |name| ==> !IsWhite(name[i]) && name[i] != '>')
    requires exists i :: 0 <= i < |name| && !NameChar(name[i])
    ensures StripTag(t) == None
  {
    FindIs("<" + (name + attrs), '>', rest);
    assert t == ("<" + (name + attrs)) + (['>'] + rest);
    assert t[1..1 + |name + attrs|] == name + attrs;
    StartsBehind(name + attrs, "", name + attrs);
    WordIs(name, attrs);
  }

  /** A tag whose name has any other character in it wraps nothing. */
  lemma OtherTagsStay(w0: string, name: string, attrs: string, rest: string, w3: string)
    requires AllWhite(w0) && Attributes(attrs) && AllWhite(w3) && Solid("<" + (name + attrs) + (">" + rest))
    requires (forall i :: 0 <= i < |name| ==> !IsWhite(name[i]) && name[i] != '>')
    requires exists i :: 0 <= i < |name| && !NameChar(name[i])
    ensures StripJsonWrapper(w0 + ("<" + (name + attrs) + (">" + rest) + w3)) == None
  {
    var x := "<" + (name + attrs) + (">" + rest);
    TrimAround(w0, x, w3);
    OtherNameNotStripped(x, name, attrs, rest);
    assert x[0] == '<';
  }

  // ----- whole arguments are parsed -----

  /** What parses is taken as it is. */
  lemma ParsedAsIs<V>(t: string, parse: Parser<V>, unwrap: V -> V, emptyObject: V)
    requires t != "" && parse(t).Some?
    ensures ParseToolArguments(t, parse, unwrap, emptyObject) == Some(unwrap(parse(t).value))
  {
  }

  /** The safe parser takes the text as it is, else repaired, else escaped, else both. */
  lemma SafelyParsed<V>(s: string, parse: Parser<V>)
    ensures parse(s).Some? ==> SafelyParseJson(s, parse) == parse(s)
    ensures parse(s).None? && parse(Repair(s)).Some? ==> SafelyParseJson(s, parse) == parse(Repair(s))
    ensures parse(s).None? && parse(Repair(s)).None? && parse(Escape(s)).Some? ==>
              SafelyParseJson(s, parse) == parse(Escape(s))
    ensures SafelyParseJson(s, parse).None? <==>
              parse(s).None? && parse(Repair(s)).None? && parse(Escape(s)).None? && parse(Repair(Escape(s))).None?
  {
  }

  /** What a wrapper is stripped to is parsed, and tried again escaped, unless the text can be parsed as it is. */
  lemma WrappedArgumentsParsed<V>(t: string, v: Json, parse: Parser<V>, unwrap: V -> V, emptyObject: V)
    requires t != "" && parse(t) == None && Valid(v) && IsContainer(v) && StripJsonWrapper(t) == Some(Print(v))
    ensures parse(Print(v)).Some? ==>
              ParseToolArguments(t, parse, unwrap, emptyObject) == Some(unwrap(parse(Print(v)).value))
    ensures parse(Print(v)) == None && parse(Escape(Print(v))).Some? ==>
              ParseToolArguments(t, parse, unwrap, emptyObject) == Some(unwrap(parse(Escape(Print(v))).value))
  {
    CompleteIsNotTruncated("", v, "");
    assert "" + (Print(v) + "") == Print(v);
  }

  // ----- cut arguments are rejected -----

  /** An object or an array of which no part passes for complete. */
  ghost predicate Whole(whole: string) {
    && whole != "" && (whole[0] == '{' || whole[0] == '[')
    && forall q :: q != "" && q < whole ==> Truncated(q)
  }

  lemma ContainerIsWhole(v: Json)
    requires Valid(v) && IsContainer(v)
    ensures Whole(Print(v))
  {
    ScanBody(v, START);
    forall q | q != "" && q < Print(v) ensures Truncated(q) {
      PrefixIsTruncated("", v, q);
      assert "" + q == q;
    }
  }

  ghost predicate Cut(p: string, whole: string) {
    Whole(whole) && p != "" && p < whole
  }

  lemma CutStarts(p: string, whole: string)
    requires Cut(p, whole)
    ensures Truncated(p) && (p[0] == '{' || p[0] == '[') && !IsWhite(p[0])
  {
    assert p[0] == whole[0];
  }

  lemma TrimmedIsCut(p: string, whole: string)
    requires Cut(p, whole)
    ensures Cut(TrimEnd(p), whole) && !IsWhite(TrimEnd(p)[|TrimEnd(p)| - 1]) && TrimEnd(TrimEnd(p)) == TrimEnd(p)
  {
    CutStarts(p, whole);
    TrimEndSolid(p);
    TrimEndOff(TrimEnd(p), "");
    assert TrimEnd(p) + "" == TrimEnd(p);
  }

  lemma InertHead(h: string, p: string, whole: string)
    requires (forall i :: 0 <= i < |h| ==> Inert(h[i])) && Cut(p, whole)
    ensures Truncated(h + p)
  {
    CutStarts(p, whole);
    InertRun(h, START);
    ScanThen(h, p, START);
  }

  /** Cut arguments with a marker stripped off their end are still cut. */
  lemma StrippedBehind(h: string, p: string, whole: string, suffix: string, inner: string) returns (q: string)
    requires Cut(p, whole) && StripSuffix(h + p, suffix) == Some(inner)
    requires suffix != "" && (forall i :: 0 <= i < |suffix| ==> suffix[i] != '{' && suffix[i] != '[')
    ensures Cut(q, whole) && inner == h + q
  {
    CutStarts(p, whole);
    var s := h + p;
    assert s[|h|] == p[0];
    var tail := s[|s| - |suffix|..];
    assert forall i :: |s| - |suffix| <= i < |s| ==> s[i] == tail[i - (|s| - |suffix|)];
    q := p[..|p| - |suffix|];
    assert inner == h + q;
  }

  lemma RejectedIfCut<V>(t: string, parse: Parser<V>, unwrap: V -> V, emptyObject: V)
    requires Strict(parse) && Truncated(t)
    requires StripJsonWrapper(t).Some? ==> Truncated(StripJsonWrapper(t).value)
    ensures ParseToolArguments(t, parse, unwrap, emptyObject) == None
  {
    assert RunStrict("", START) == Some(START);
    TruncatedIsUnbalanced(t);
    if StripJsonWrapper(t).Some? {
      TruncatedIsUnbalanced(StripJsonWrapper(t).value);
    }
  }

  lemma HeadIsInert(s: string)
    requires forall i :: 0 <= i < |s| ==> IsWhite(s[i]) || IsTagChar(s[i]) || s[i] in {'`', '<', '>', '/'}
    ensures forall i :: 0 <= i < |s| ==> Inert(s[i])
  {
  }

  lemma FenceCut(x: string, h: string, w: string, lang: string, w1: string, p: string, whole: string)
    requires FenceHead(h, w, lang, w1) && Cut(p, whole) && "```" <= x && x[3..] == h + p
    ensures StripFence(x).Some? ==> Truncated(StripFence(x).value)
  {
    var inner := StripSuffix(h + p, "```");
    if inner.Some? {
      var q := StrippedBehind(h, p, whole, "```", inner.value);
      CutStarts(q, whole);
      TrimmedIsCut(q, whole);
      BehindHead(h, w, lang, w1, q);
    }
  }

  lemma FenceStrippedIsCut(w0: string, h: string, w: string, lang: string, w1: string, p: string, whole: string)
    requires AllWhite(w0) && FenceHead(h, w, lang, w1) && Cut(p, whole)
    ensures var r := StripJsonWrapper(w0 + (("```" + h) + p)); r.Some? ==> Truncated(r.value)
  {
    CutStarts(p, whole);
    TrimOpen(w0, "```" + h, p);
    TrimmedIsCut(p, whole);
    var x := ("```" + h) + TrimEnd(p);
    assert "```" <= x && x[3..] == h + TrimEnd(p);
    FenceCut(x, h, w, lang, w1, TrimEnd(p), whole);
  }

  /** No tool runs on half its arguments when the model opened a fence before them. */
  lemma CutInFenceRejected<V>(w0: string, h: string, w: string, lang: string, w1: string, v: Json, p: string,
      parse: Parser<V>, unwrap: V -> V, emptyObject: V)
    requires Strict(parse) && AllWhite(w0) && FenceHead(h, w, lang, w1)
    requires Valid(v) && IsContainer(v) && p != "" && p < Print(v)
    ensures ParseToolArguments(w0 + (("```" + h) + p), parse, unwrap, emptyObject) == None
  {
    var t := w0 + (("```" + h) + p);
    ContainerIsWhole(v);
    FenceStrippedIsCut(w0, h, w, lang, w1, p, Print(v));
    HeadIsInert(w0 + ("```" + h));
    assert t == (w0 + ("```" + h)) + p;
    InertHead(w0 + ("```" + h), p, Print(v));
    RejectedIfCut(t, parse, unwrap, emptyObject);
  }

  lemma InsideIsCut(w1: string, p: string, whole: string, close: string, inner: string)
    requires AllWhite(w1) && Cut(p, whole) && StripSuffix(w1 + p, close) == Some(inner)
    requires close != "" && (forall i :: 0 <= i < |close| ==> close[i] != '{' && close[i] != '[')
    ensures Truncated(Trim(inner))
  {
    var q := StrippedBehind(w1, p, whole, close, inner);
    CutStarts(q, whole);
    TrimmedIsCut(q, whole);
    TrimStarted(w1, q);
    CutStarts(TrimEnd(q), whole);
  }

  lemma TrimEndKeeps(w1: string, p: string)
    requires p != "" && !IsWhite(p[|p| - 1])
    ensures TrimEnd(w1 + p) == w1 + p
  {
    TrimEndOff(w1 + p, "");
    WithEmpty(w1 + p);
  }

  lemma TagCut(x: string, name: string, body: string)
    requires TagName(name) && x == "<" + (name + "") + (">" + body) && TrimEnd(body) == body
    requires var inner := StripSuffix(body, "</" + name + ">"); inner.Some? ==> Truncated(Trim(inner.value))
    ensures "<" <= x && !("</" <= x) && (StripTag(x).Some? ==> Truncated(StripTag(x).value))
  {
    TagStrips(x, name, "", body);
  }

  lemma BodyIsCut(name: string, w1: string, p: string, whole: string)
    requires TagName(name) && AllWhite(w1) && Cut(p, whole) && !IsWhite(p[|p| - 1])
    ensures TrimEnd(w1 + p) == w1 + p
    ensures var inner := StripSuffix(w1 + p, "</" + name + ">"); inner.Some? ==> Truncated(Trim(inner.value))
  {
    TrimEndKeeps(w1, p);
    var inner := StripSuffix(w1 + p, "</" + name + ">");
    if inner.Some? {
      InsideIsCut(w1, p, whole, "</" + name + ">", inner.value);
    }
  }

  lemma TagStrippedIsCut(w0: string, name: string, head: string, w1: string, p: string, whole: string)
    requires AllWhite(w0) && TagName(name) && AllWhite(w1) && Cut(p, whole) && head == "<" + name + ">" + w1
    ensures var r := StripJsonWrapper(w0 + (head + p)); r.Some? ==> Truncated(r.value)
  {
    CutStarts(p, whole);
    TrimOpen(w0, head, p);
    TrimmedIsCut(p, whole);
    BodyIsCut(name, w1, TrimEnd(p), whole);
    var x := head + TrimEnd(p);
    assert x == "<" + (name + "") + (">" + (w1 + TrimEnd(p)));
    TagCut(x, name, w1 + TrimEnd(p));
    assert x[0] == '<';
  }

  /** Nor when it opened a tag. */
  lemma CutInTagRejected<V>(w0: string, name: string, w1: string, v: Json, p: string,
      parse: Parser<V>, unwrap: V -> V, emptyObject: V)
    requires Strict(parse) && AllWhite(w0) && TagName(name) && AllWhite(w1)
    requires Valid(v) && IsContainer(v) && p != "" && p < Print(v)
    ensures ParseToolArguments(w0 + (("<" + name + ">" + w1) + p), parse, unwrap, emptyObject) == None
  {
    var head := "<" + name + ">" + w1;
    ContainerIsWhole(v);
    TagStrippedIsCut(w0, name, head, w1, p, Print(v));
    HeadIsInert(w0 + head);
    assert w0 + (head + p) == (w0 + head) + p;
    InertHead(w0 + head, p, Print(v));
    RejectedIfCut(w0 + (head + p), parse, unwrap, emptyObject);
  }
}
