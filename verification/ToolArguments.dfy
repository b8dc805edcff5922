/**
 Parsing the arguments of a tool call that a model may have cut off, wrapped or garbled.

 The strict JSON parser is a parameter. All that is assumed of it, and only where a lemma says
 so, is that it accepts nothing unbalanced.
 */
module ToolArguments {
  import opened Whitespace
  import opened Wrappers
  import opened JsonScan
  import opened JsonSyntax

  type Parser<!V> = string -> Option<V>

  /** As is, repaired, escaped, and at last both. */
  function SafelyParseJson<V>(s: string, parse: Parser<V>): Option<V> {
    if parse(s).Some? then parse(s)
    else if parse(Repair(s)).Some? then parse(Repair(s))
    else if parse(Escape(s)).Some? then parse(Escape(s))
    else parse(Repair(Escape(s)))
  }

  function StripPrefix(s: string, prefix: string): Option<string> {
    if prefix <= s then Some(s[|prefix|..]) else None
  }

  function StripSuffix(s: string, suffix: string): Option<string> {
    if |suffix| <= |s| && s[|s| - |suffix|..] == suffix then Some(s[..|s| - |suffix|]) else None
  }

  function Find(s: string, c: char): Option<nat> {
    if s == "" then None
    else if s[0] == c then Some(0)
    else match Find(s[1..], c) case Some(i) => Some(i + 1) case None => None
  }

  /** The longest prefix of s without white space. */
  function Word(s: string): string {
    if s == "" || IsWhite(s[0]) then "" else [s[0]] + Word(s[1..])
  }

  predicate IsTagChar(c: char) {
    'a' <= c <= 'z' || 'A' <= c <= 'Z' || '0' <= c <= '9' || c == '_' || c == '-'
  }

  function StripFence(trimmed: string): Option<string>
    requires "```" <= trimmed
  {
    var inner := StripSuffix(trimmed[3..], "```");
    if inner.None? then None
    else
      var body := TrimStart(inner.value);
      var bare :=
        if StripPrefix(body, "json").Some? then StripPrefix(body, "json").value
        else if StripPrefix(body, "JSON").Some? then StripPrefix(body, "JSON").value
        else body;
      Some(Trim(bare))
  }

  function StripTag(trimmed: string): Option<string>
    requires "<" <= trimmed
  {
    var openEnd := Find(trimmed, '>');
    if openEnd.None? || openEnd.value == 0 || openEnd.value >= |trimmed| then None
    else
      var name := Word(TrimStart(trimmed[1..openEnd.value]));
      if name == "" || exists i :: 0 <= i < |name| && !IsTagChar(name[i]) then None
      else
        var inner := StripSuffix(TrimEnd(trimmed[openEnd.value + 1..]), "</" + name + ">");
        if inner.None? then None else Some(Trim(inner.value))
  }

  /** The text inside a Markdown fence or a pair of XML-like tags around the whole of args. */
  function StripJsonWrapper(args: string): Option<string> {
    var trimmed := Trim(args);
    if "```" <= trimmed then StripFence(trimmed)
    else if "<" <= trimmed && !("</" <= trimmed) then StripTag(trimmed)
    else None
  }

  function ParseToolArguments<V>(args: string, parse: Parser<V>, unwrap: V -> V, emptyObject: V): Option<V> {
    if args == "" then Some(emptyObject)
    else if parse(args).Some? then Some(unwrap(parse(args).value))
    else
      var inner := StripJsonWrapper(args);
      if inner.Some? && parse(inner.value).Some? then Some(unwrap(parse(inner.value).value))
      else if inner.Some? && !Truncated(inner.value) && SafelyParseJson(inner.value, parse).Some? then
        Some(unwrap(SafelyParseJson(inner.value, parse).value))
      else if !Truncated(args) && SafelyParseJson(args, parse).Some? then
        Some(unwrap(SafelyParseJson(args, parse).value))
      else None
  }

  /** A strict parser accepts only balanced text. */
  ghost predicate Strict<V>(parse: Parser<V>) {
    forall s :: parse(s).Some? ==> Balanced(s)
  }

  lemma {:induction false} TrimEndPrefix(s: string)
    ensures TrimEnd(s) <= s
    ensures s != "" && !IsWhite(s[0]) ==> TrimEnd(s) != "" && TrimEnd(s)[0] == s[0]
  {
    if s != "" && IsWhite(s[|s| - 1]) {
      TrimEndPrefix(s[..|s| - 1]);
    }
  }

  lemma NoWrapper(before: string, p: string)
    requires IsJsonWs(before) && p != "" && (p[0] == '{' || p[0] == '[')
    ensures StripJsonWrapper(before + p) == None
  {
    TrimStartSkips(before, p);
    TrimEndPrefix(p);
  }

  /**
   No tool runs on half its arguments: whatever part of an object or array the model managed to
   emit, unless it is the whole of it, parsing gives up. No repair is tried on it.
   */
  lemma TruncatedArgumentsRejected<V>(before: string, v: Json, p: string, parse: Parser<V>, unwrap: V -> V,
      emptyObject: V)
    requires Strict(parse) && IsJsonWs(before) && Valid(v) && IsContainer(v) && p != "" && p < Print(v)
    ensures ParseToolArguments(before + p, parse, unwrap, emptyObject) == None
  {
    PrefixIsTruncated(before, v, p);
    assert p[0] == Print(v)[0] == OpenOf(v) by {
      ScanBody(v, START);
    }
    NoWrapper(before, p);
    TruncatedIsUnbalanced(before + p);
  }

  /** Conversely a complete text the parser rejects is still offered to it escaped and repaired. */
  lemma CompleteArgumentsRepaired<V>(before: string, v: Json, after: string, parse: Parser<V>, unwrap: V -> V,
      emptyObject: V)
    requires IsJsonWs(before) && Valid(v) && IsContainer(v) && IsJsonWs(after)
    ensures var t := before + (Print(v) + after);
            ParseToolArguments(t, parse, unwrap, emptyObject) ==
            if parse(t).Some? then Some(unwrap(parse(t).value))
            else if parse(Escape(t)).Some? then Some(unwrap(parse(Escape(t)).value))
            else None
  {
    var t := before + (Print(v) + after);
    CompleteIsNotTruncated(before, v, after);
    assert (Print(v) + after)[0] == OpenOf(v) by {
      ScanBody(v, START);
    }
    NoWrapper(before, Print(v) + after);
    RepairEscapeCommute(t);
  }
}
