/** The passes that look at one message at a time: joining, trimming and removing empty text, filling empty results. */
module CleanPasses {
  import opened Wrappers
  import opened Whitespace
  import opened Sequences
  import opened Messages

  datatype Issue =
    | MergedText
    | TrimmedText
    | RemovedEmpty
    | FilledResult(id: string)
    | RemovedBlock(role: Role, block: Block)
    | RemovedOrphanRequest(id: string)
    | MergedRun(effective: EffectiveRole)
    | RemovedDuplicateThinking
    | RemovedLeading
    | RemovedTrailing
    | AddedPlaceholder

  datatype Fixed = Fixed(messages: seq<Message>, issues: seq<Issue>)

  /** Replaces every message by what f makes of it. */
  function Each(ms: seq<Message>, f: Message -> Fixed): Fixed {
    if ms == [] then Fixed([], [])
    else var r := Each(Init(ms), f); Fixed(r.messages + f(Last(ms)).messages, r.issues + f(Last(ms)).issues)
  }

  // ----- joining adjacent texts -----

  predicate SameAudience(a: Block, b: Block) {
    a.Text? && b.Text? && a.audience == b.audience
  }

  function Absorb(content: seq<Block>, b: Block): seq<Block> {
    if content != [] && SameAudience(Last(content), b)
    then Init(content) + [Last(content).(text := Last(content).text + b.text)]
    else content + [b]
  }

  function JoinTexts(content: seq<Block>): seq<Block> {
    if content == [] then [] else Absorb(JoinTexts(Init(content)), Last(content))
  }

  function JoinTextsIn(m: Message): Fixed {
    if m.role != Assistant then Fixed([m], [])
    else var joined := JoinTexts(m.content);
         Fixed([m.(content := joined)], if |joined| != |m.content| then [MergedText] else [])
  }

  predicate NoAdjacentTexts(m: Message) {
    m.role == Assistant ==> forall i :: 0 <= i < |m.content| - 1 ==> !SameAudience(m.content[i], m.content[i + 1])
  }

  // ----- trimming -----

  function TrimBlock(b: Block): Block {
    if b.Text? then b.(text := TrimEnd(b.text)) else b
  }

  function TrimBlocks(content: seq<Block>): seq<Block> {
    seq(|content|, i requires 0 <= i < |content| => TrimBlock(content[i]))
  }

  function TrimIssues(content: seq<Block>): seq<Issue> {
    if content == [] then []
    else TrimIssues(Init(content)) + if TrimBlock(Last(content)) != Last(content) then [TrimmedText] else []
  }

  function TrimIn(m: Message): Fixed {
    if m.role != Assistant then Fixed([m], [])
    else Fixed([m.(content := TrimBlocks(m.content))], TrimIssues(m.content))
  }

  predicate Trimmed(m: Message) {
    m.role == Assistant ==> forall i :: 0 <= i < |m.content| && m.content[i].Text? ==>
      m.content[i].text == "" || !IsWhite(m.content[i].text[|m.content[i].text| - 1])
  }

  // ----- empty messages -----

  predicate EmptyContent(content: seq<Block>) {
    forall i :: 0 <= i < |content| ==> content[i].Text? && content[i].text == ""
  }

  function DropEmpty(m: Message): Fixed {
    if EmptyContent(m.content) then Fixed([], [RemovedEmpty]) else Fixed([m], [])
  }

  // ----- empty tool results -----

  predicate Meaningful(item: ResultItem) {
    match item
    case PlainText(text) => text != ""
    case Resource(extracted) => extracted != ""
    case Picture => true
    case OtherItem => false
  }

  predicate HasResultContent(content: seq<ResultItem>) {
    exists i :: 0 <= i < |content| && Meaningful(content[i])
  }

  predicate EmptyResult(b: Block) {
    b.ToolResponse? && b.result.Answer? && !HasResultContent(b.result.content)
  }

  function FillBlock(b: Block): Block {
    if EmptyResult(b) then b.(result := Answer(b.result.content + [PlainText("(empty result)")])) else b
  }

  function FillBlocks(content: seq<Block>): seq<Block> {
    seq(|content|, i requires 0 <= i < |content| => FillBlock(content[i]))
  }

  function FillIssues(content: seq<Block>): seq<Issue> {
    if content == [] then []
    else FillIssues(Init(content)) + if EmptyResult(Last(content)) then [FilledResult(Last(content).id)] else []
  }

  function FillIn(m: Message): Fixed {
    Fixed([m.(content := FillBlocks(m.content))], FillIssues(m.content))
  }

  predicate NoEmptyResult(m: Message) {
    forall i :: 0 <= i < |m.content| ==> !EmptyResult(m.content[i])
  }

  // ----- the passes -----

  function MergeTextContentItems(ms: seq<Message>): Fixed {
    Each(ms, JoinTextsIn)
  }

  function TrimAssistantTextWhitespace(ms: seq<Message>): Fixed {
    Each(ms, TrimIn)
  }

  function RemoveEmptyMessages(ms: seq<Message>): Fixed {
    Each(ms, DropEmpty)
  }

  function FixEmptyToolResults(ms: seq<Message>): Fixed {
    Each(ms, FillIn)
  }

  // ----- what all four have in common -----

  /** A pass over single messages that complains if it changes one. */
  ghost predicate Tame(f: Message -> Fixed) {
    forall m :: TameOn(f(m), m)
  }

  ghost predicate TameOn(r: Fixed, m: Message) {
    && |r.messages| <= 1
    && (r.issues == [] ==> r.messages == [m])
    && (r.messages != [] ==> r.messages[0].role == m.role && r.messages[0].metadata == m.metadata)
    && (WellPlacedIn(m.role, m.content) && r.messages != [] ==> WellPlacedIn(r.messages[0].role, r.messages[0].content))
  }

  /** One that also leaves tool calls alone. */
  ghost predicate Gentle(f: Message -> Fixed) {
    Tame(f) && forall m :: SameCalls(f(m).messages, m)
  }

  ghost predicate SameCalls(ms: seq<Message>, m: Message) {
    forall id :: Trace(ms, id) == TraceIn(m.role, m.content, id)
  }

  ghost predicate CleanFor(ms: seq<Message>, f: Message -> Fixed) {
    forall i :: 0 <= i < |ms| ==> f(ms[i]).issues == []
  }

  lemma CleanForStep(ms: seq<Message>, f: Message -> Fixed)
    requires ms != []
    ensures CleanFor(ms, f) <==> CleanFor(Init(ms), f) && f(Last(ms)).issues == []
  {
    assert ms == Init(ms) + [Last(ms)];
    if CleanFor(Init(ms), f) && f(Last(ms)).issues == [] {
      forall i | 0 <= i < |ms| ensures f(ms[i]).issues == [] {
        assert i < |ms| - 1 ==> Init(ms)[i] == ms[i];
      }
    }
  }

  lemma {:induction false} EachClean(ms: seq<Message>, f: Message -> Fixed)
    requires Tame(f)
    ensures Each(ms, f).issues == [] <==> CleanFor(ms, f)
    ensures Each(ms, f).issues == [] ==> Each(ms, f).messages == ms
  {
    if ms != [] {
      var init, last := Init(ms), Last(ms);
      EachClean(init, f);
      CleanForStep(ms, f);
      assert TameOn(f(last), last);
      ConcatEmpty(Each(init, f).issues, f(last).issues);
      SplitLast(ms);
    }
  }

  lemma {:induction false} EachKeepsTrace(ms: seq<Message>, f: Message -> Fixed, id: string)
    requires Gentle(f)
    ensures Trace(Each(ms, f).messages, id) == Trace(ms, id)
  {
    if ms != [] {
      EachKeepsTrace(Init(ms), f, id);
      assert SameCalls(f(Last(ms)).messages, Last(ms));
      TraceConcat(Each(Init(ms), f).messages, f(Last(ms)).messages, id);
    }
  }

  /** Every message of after stems from one of before, with the same role and metadata. */
  ghost predicate Stems(after: seq<Message>, before: seq<Message>) {
    && |after| <= |before|
    && forall i :: 0 <= i < |after| ==> StemsFrom(after[i], before)
  }

  ghost predicate StemsFrom(m: Message, before: seq<Message>) {
    exists j :: 0 <= j < |before| && before[j].role == m.role && before[j].metadata == m.metadata
  }

  lemma StemsStep(a: seq<Message>, b: seq<Message>, x: seq<Message>, m: Message)
    requires Stems(a, b) && |x| <= 1 && (x != [] ==> x[0].role == m.role && x[0].metadata == m.metadata)
    ensures Stems(a + x, b + [m])
  {
    forall i | 0 <= i < |a + x| ensures StemsFrom((a + x)[i], b + [m]) {
      if i < |a| {
        assert StemsFrom(a[i], b);
        var j :| 0 <= j < |b| && b[j].role == a[i].role && b[j].metadata == a[i].metadata;
        assert (b + [m])[j] == b[j];
      } else {
        assert (b + [m])[|b|] == m;
      }
    }
  }

  lemma {:induction false} EachStems(ms: seq<Message>, f: Message -> Fixed)
    requires Tame(f)
    ensures Stems(Each(ms, f).messages, ms)
    ensures WellPlaced(ms) ==> WellPlaced(Each(ms, f).messages)
  {
    if ms != [] {
      EachStems(Init(ms), f);
      assert TameOn(f(Last(ms)), Last(ms));
      StemsStep(Each(Init(ms), f).messages, Init(ms), f(Last(ms)).messages, Last(ms));
      assert ms == Init(ms) + [Last(ms)];
      if WellPlaced(ms) {
        assert WellPlaced(Init(ms)) && WellPlacedIn(Last(ms).role, Last(ms).content);
      }
    }
  }

  // ----- each of the four -----

  predicate Apart(content: seq<Block>) {
    forall i :: 0 <= i < |content| - 1 ==> !SameAudience(content[i], content[i + 1])
  }

  lemma {:induction false} JoinTextsLength(content: seq<Block>)
    ensures |JoinTexts(content)| <= |content| && (content != [] ==> JoinTexts(content) != [])
    ensures |JoinTexts(content)| == |content| <==> Apart(content)
    ensures Apart(content) ==> JoinTexts(content) == content
  {
    if content != [] {
      var init := Init(content);
      JoinTextsLength(init);
      assert content == init + [Last(content)];
      if |content| > 1 {
        assert Last(init) == content[|content| - 2];
        assert Apart(content) <==> Apart(init) && !SameAudience(Last(init), Last(content));
      }
    }
  }

  lemma AbsorbKeeps(role: Role, content: seq<Block>, b: Block, id: string)
    ensures TraceIn(role, Absorb(content, b), id) == TraceIn(role, content + [b], id)
    ensures WellPlacedIn(role, content) && !Misplaced(role, b) ==> WellPlacedIn(role, Absorb(content, b))
  {
    if content != [] && SameAudience(Last(content), b) {
      var merged := Absorb(content, b);
      assert Init(merged) == Init(content) && Init(content + [b]) == content;
    }
  }

  lemma {:induction false} JoinTextsKeeps(role: Role, content: seq<Block>, id: string)
    ensures TraceIn(role, JoinTexts(content), id) == TraceIn(role, content, id)
    ensures WellPlacedIn(role, content) ==> WellPlacedIn(role, JoinTexts(content))
  {
    if content != [] {
      var init, b := Init(content), Last(content);
      JoinTextsKeeps(role, init, id);
      AbsorbKeeps(role, JoinTexts(init), b, id);
      assert Init(JoinTexts(init) + [b]) == JoinTexts(init);
      if WellPlacedIn(role, content) {
        assert forall i :: 0 <= i < |init| ==> init[i] == content[i];
      }
    }
  }

  lemma JoinTextsOn(m: Message)
    ensures TameOn(JoinTextsIn(m), m) && SameCalls(JoinTextsIn(m).messages, m)
    ensures JoinTextsIn(m).issues == [] <==> NoAdjacentTexts(m)
  {
    JoinTextsLength(m.content);
    JoinTextsKeeps(m.role, m.content, "");
    forall id ensures Trace(JoinTextsIn(m).messages, id) == TraceIn(m.role, m.content, id) {
      TraceOne(JoinTextsIn(m).messages[0], id);
      JoinTextsKeeps(m.role, m.content, id);
    }
  }

  lemma JoinTextsGentle()
    ensures Gentle(JoinTextsIn)
    ensures forall m :: JoinTextsIn(m).issues == [] <==> NoAdjacentTexts(m)
  {
    forall m ensures TameOn(JoinTextsIn(m), m) && SameCalls(JoinTextsIn(m).messages, m)
                     && (JoinTextsIn(m).issues == [] <==> NoAdjacentTexts(m)) {
      JoinTextsOn(m);
    }
  }

  /** Replacing blocks one by one, without touching what kind of tool event they are. */
  lemma {:induction false} TraceOfSimilar(role: Role, a: seq<Block>, b: seq<Block>, id: string)
    requires |a| == |b| && forall i :: 0 <= i < |a| ==> EventOf(role, a[i], id) == EventOf(role, b[i], id)
    ensures TraceIn(role, a, id) == TraceIn(role, b, id)
  {
    if a != [] {
      TraceOfSimilar(role, Init(a), Init(b), id);
    }
  }

  lemma {:induction false} TrimIssuesIff(content: seq<Block>)
    ensures TrimIssues(content) == [] <==> forall i :: 0 <= i < |content| ==> TrimBlock(content[i]) == content[i]
  {
    if content != [] {
      TrimIssuesIff(Init(content));
      assert content == Init(content) + [Last(content)];
    }
  }

  lemma TrimEndFixed(s: string)
    ensures |TrimEnd(s)| <= |s|
    ensures TrimEnd(s) == s <==> s == "" || !IsWhite(s[|s| - 1])
  {
    if s != "" && IsWhite(s[|s| - 1]) {
      TrimEndFixed(s[..|s| - 1]);
    }
  }

  lemma TrimOn(m: Message)
    ensures TameOn(TrimIn(m), m) && SameCalls(TrimIn(m).messages, m)
    ensures TrimIn(m).issues == [] <==> Trimmed(m)
  {
    TrimIssuesIff(m.content);
    forall i | 0 <= i < |m.content| && m.content[i].Text?
      ensures TrimBlock(m.content[i]) == m.content[i]
              <==> m.content[i].text == "" || !IsWhite(m.content[i].text[|m.content[i].text| - 1])
    {
      TrimEndFixed(m.content[i].text);
    }
    if TrimIssues(m.content) == [] {
      assert TrimBlocks(m.content) == m.content;
    }
    forall id ensures Trace(TrimIn(m).messages, id) == TraceIn(m.role, m.content, id) {
      TraceOne(TrimIn(m).messages[0], id);
      TraceOfSimilar(m.role, m.content, TrimBlocks(m.content), id);
    }
  }

  lemma TrimGentle()
    ensures Gentle(TrimIn)
    ensures forall m :: TrimIn(m).issues == [] <==> Trimmed(m)
  {
    forall m ensures TameOn(TrimIn(m), m) && SameCalls(TrimIn(m).messages, m)
                     && (TrimIn(m).issues == [] <==> Trimmed(m)) {
      TrimOn(m);
    }
  }

  lemma {:induction false} EmptyHasNoTrace(role: Role, content: seq<Block>, id: string)
    requires EmptyContent(content)
    ensures TraceIn(role, content, id) == []
  {
    if content != [] {
      EmptyHasNoTrace(role, Init(content), id);
    }
  }

  lemma DropEmptyGentle()
    ensures Gentle(DropEmpty)
  {
    forall m ensures TameOn(DropEmpty(m), m) && SameCalls(DropEmpty(m).messages, m) {
      forall id ensures Trace(DropEmpty(m).messages, id) == TraceIn(m.role, m.content, id) {
        TraceOne(m, id);
        if EmptyContent(m.content) {
          EmptyHasNoTrace(m.role, m.content, id);
        }
      }
    }
  }

  lemma {:induction false} FillIssuesIff(content: seq<Block>)
    ensures FillIssues(content) == [] <==> forall i :: 0 <= i < |content| ==> !EmptyResult(content[i])
  {
    if content != [] {
      FillIssuesIff(Init(content));
      assert content == Init(content) + [Last(content)];
    }
  }

  lemma FillGentle()
    ensures Gentle(FillIn)
    ensures forall m :: FillIn(m).issues == [] <==> NoEmptyResult(m)
  {
    forall m ensures TameOn(FillIn(m), m) && SameCalls(FillIn(m).messages, m)
                     && (FillIn(m).issues == [] <==> NoEmptyResult(m)) {
      FillIssuesIff(m.content);
      if FillIssues(m.content) == [] {
        assert FillBlocks(m.content) == m.content;
      }
      forall id ensures Trace(FillIn(m).messages, id) == TraceIn(m.role, m.content, id) {
        TraceOne(FillIn(m).messages[0], id);
        TraceOfSimilar(m.role, m.content, FillBlocks(m.content), id);
      }
    }
  }

  // ----- what each of them keeps -----

  /** The text shown to one audience, in order. */
  function TextFor(content: seq<Block>, audience: Option<seq<Role>>): string {
    if content == [] then ""
    else TextFor(Init(content), audience)
         + if Last(content).Text? && Last(content).audience == audience then Last(content).text else ""
  }

  function OtherBlocks(content: seq<Block>): seq<Block> {
    if content == [] then [] else OtherBlocks(Init(content)) + if Last(content).Text? then [] else [Last(content)]
  }

  lemma AbsorbKeepsText(content: seq<Block>, b: Block, audience: Option<seq<Role>>)
    ensures TextFor(Absorb(content, b), audience)
            == TextFor(content, audience) + if b.Text? && b.audience == audience then b.text else ""
    ensures OtherBlocks(Absorb(content, b)) == OtherBlocks(content) + if b.Text? then [] else [b]
  {
    var after := Absorb(content, b);
    if content != [] && SameAudience(Last(content), b) {
      assert Init(after) == Init(content);
      if b.audience == audience {
        Assoc(TextFor(Init(content), audience), Last(content).text, b.text);
      } else {
        assert TextFor(Init(content), audience) + "" == TextFor(Init(content), audience);
      }
    } else {
      assert Init(after) == content;
    }
  }

  /** Joining texts keeps what every audience reads, and every other block. */
  lemma {:induction false} JoinTextsKeepsText(content: seq<Block>, audience: Option<seq<Role>>)
    ensures TextFor(JoinTexts(content), audience) == TextFor(content, audience)
    ensures OtherBlocks(JoinTexts(content)) == OtherBlocks(content)
  {
    if content != [] {
      JoinTextsKeepsText(Init(content), audience);
      AbsorbKeepsText(JoinTexts(Init(content)), Last(content), audience);
    }
  }

  /** Once joined, there is nothing more to join. */
  lemma {:induction false} JoinedIsApart(content: seq<Block>)
    ensures Apart(JoinTexts(content))
  {
    if content != [] {
      var joined, b := JoinTexts(Init(content)), Last(content);
      JoinedIsApart(Init(content));
      if joined != [] && SameAudience(Last(joined), b) {
        var after := JoinTexts(content);
        assert Init(after) == Init(joined) && SameAudience(Last(after), Last(joined));
        assert forall i :: 0 <= i < |joined| - 1 ==> !SameAudience(joined[i], joined[i + 1]) && after[i] == joined[i];
      }
    }
  }

  /** Trimming cuts off white space at the end and nothing else. */
  lemma {:induction false} TrimEndCuts(s: string)
    ensures TrimEnd(s) <= s && forall i :: |TrimEnd(s)| <= i < |s| ==> IsWhite(s[i])
    ensures TrimEnd(s) == "" || !IsWhite(TrimEnd(s)[|TrimEnd(s)| - 1])
  {
    if s != "" && IsWhite(s[|s| - 1]) {
      TrimEndCuts(s[..|s| - 1]);
    }
  }

  /** After the pass every tool result says something; what it said before is still there. */
  lemma FillKeepsResults(b: Block)
    ensures !EmptyResult(FillBlock(b))
    ensures !EmptyResult(b) ==> FillBlock(b) == b
    ensures EmptyResult(b) ==> FillBlock(b).ToolResponse? && FillBlock(b).id == b.id && FillBlock(b).result.Answer?
                               && b.result.content < FillBlock(b).result.content
  {
    if EmptyResult(b) {
      var content := FillBlock(b).result.content;
      assert Meaningful(content[|content| - 1]);
    }
  }
}
