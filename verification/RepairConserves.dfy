/**
 What repair accepts, makes and keeps, told by the kinds of blocks and characters alone: an independent
 account of the normal form, of what every repaired conversation looks like, and of what is never lost.
 */
module RepairConserves {
  import opened Whitespace
  import opened Sequences
  import opened Messages
  import opened CleanPasses
  import opened ToolPairing
  import opened RunMerging
  import opened SignedThinking
  import opened DedupedContent
  import opened Normalizer
  import opened RepairedShape
  import opened RepairAgain
  import opened SignedCopies

  // ----- what a message may hold -----

  predicate MayHold(role: Role, b: Block) {
    match b
    case ToolRequest(_, _) => role == Assistant
    case ToolConfirmationRequest(_) => role == Assistant
    case Thinking(_, _) => role == Assistant
    case RedactedThinking(_) => role == Assistant
    case ToolResponse(_, _) => role == User
    case FrontendToolRequest(_) => role == User
    case Text(_, _) => true
    case Image(_) => true
    case ActionRequired(_) => true
    case SystemNotification(_) => true
    case Error(_) => true
  }

  predicate SaysSomething(item: ResultItem) {
    match item
    case PlainText(text) => |text| > 0
    case Resource(extracted) => |extracted| > 0
    case Picture => true
    case OtherItem => false
  }

  /** A result that an assistant can be shown: an error, or something in it. */
  predicate FullResult(b: Block) {
    b.ToolResponse? && b.result.Answer? ==>
      exists i :: 0 <= i < |b.result.content| && SaysSomething(b.result.content[i])
  }

  predicate NoSpaceBehind(role: Role, b: Block) {
    role == Assistant && b.Text? && |b.text| > 0 ==> !IsWhite(b.text[|b.text| - 1])
  }

  predicate GoodBlock(role: Role, b: Block) {
    MayHold(role, b) && FullResult(b) && NoSpaceBehind(role, b)
  }

  predicate AnswersTools(m: Message) {
    exists i :: 0 <= i < |m.content| && m.content[i].ToolResponse?
  }

  /** Neighbours that belong to one turn: one role, both or neither with answers of tools, one visibility. */
  predicate OneTurn(a: Message, b: Message) {
    && a.role == b.role && (a.role == User ==> (AnswersTools(a) <==> AnswersTools(b)))
    && a.metadata.userVisible == b.metadata.userVisible && a.metadata.turnContext == b.metadata.turnContext
  }

  /** No signed thinking occurs twice in the messages of the assistant. */
  ghost predicate NoReplay(ms: seq<Message>) {
    && (forall t, s :: s != "" ==> Copies(ms, Assistant, Thinking(t, s)) <= 1)
    && (forall d :: Copies(ms, Assistant, RedactedThinking(d)) <= 1)
  }

  ghost predicate GoodBlocks(ms: seq<Message>) {
    forall i, k :: 0 <= i < |ms| && 0 <= k < |ms[i].content| ==> GoodBlock(ms[i].role, ms[i].content[k])
  }

  ghost predicate TurnsApart(ms: seq<Message>) {
    forall i :: 0 <= i < |ms| - 1 ==> !OneTurn(ms[i], ms[i + 1])
  }

  // ----- the same in the words of the passes -----

  lemma GoodBlockIff(role: Role, b: Block)
    ensures GoodBlock(role, b) <==> !Misplaced(role, b) && !Untidy(role, b)
  {
    if b.ToolResponse? && b.result.Answer? {
      var content := b.result.content;
      assert forall i :: 0 <= i < |content| ==> (SaysSomething(content[i]) <==> Meaningful(content[i]));
    }
  }

  lemma GoodBlocksIff(ms: seq<Message>)
    ensures GoodBlocks(ms) <==> WellPlaced(ms) && AllTidy(ms)
  {
    forall role, b ensures GoodBlock(role, b) <==> !Misplaced(role, b) && !Untidy(role, b) {
      GoodBlockIff(role, b);
    }
    if GoodBlocks(ms) {
      forall i | 0 <= i < |ms| ensures TidyMessage(ms[i]) && WellPlacedIn(ms[i].role, ms[i].content) {
        forall b | b in ms[i].content ensures !Untidy(ms[i].role, b) {
          var k :| 0 <= k < |ms[i].content| && ms[i].content[k] == b;
        }
      }
    }
    if WellPlaced(ms) && AllTidy(ms) {
      forall i, k | 0 <= i < |ms| && 0 <= k < |ms[i].content| ensures GoodBlock(ms[i].role, ms[i].content[k]) {
        assert WellPlacedIn(ms[i].role, ms[i].content) && TidyMessage(ms[i]) && ms[i].content[k] in ms[i].content;
      }
    }
  }

  lemma OneTurnIff(a: Message, b: Message)
    ensures OneTurn(a, b) <==> Joins(a, b, false)
  {
  }

  lemma TurnsApartIff(ms: seq<Message>)
    ensures TurnsApart(ms) <==> NoJoins(ms, false)
  {
    forall i | 0 <= i < |ms| - 1 ensures OneTurn(ms[i], ms[i + 1]) <==> Joins(ms[i], ms[i + 1], false) {
      OneTurnIff(ms[i], ms[i + 1]);
    }
  }

  lemma {:induction false} SignedCopied(content: seq<Block>, b: Block)
    ensures CopiesIn(SignedIn(content), b) == if Signed(b) then CopiesIn(content, b) else 0
  {
    if content != [] {
      SignedCopied(Init(content), b);
      NextBlock(SignedIn(Init(content)), Last(content), b);
      WithEmpty(SignedIn(Init(content)));
    }
  }

  lemma {:induction false} CopiesInConcat(x: seq<Block>, y: seq<Block>, b: Block)
    ensures CopiesIn(x + y, b) == CopiesIn(x, b) + CopiesIn(y, b)
  {
    if y == [] {
      WithEmpty(x);
    } else {
      InitOfConcat(x, y);
      CopiesInConcat(x, Init(y), b);
    }
  }

  lemma {:induction false} AllSignedCopied(ms: seq<Message>, b: Block)
    requires Signed(b)
    ensures CopiesIn(SignedOf(ms), b) == Copies(ms, Assistant, b)
  {
    if ms != [] {
      AllSignedCopied(Init(ms), b);
      SignedCopied(Last(ms).content, b);
      CopiesInConcat(SignedOf(Init(ms)), if Last(ms).role == Assistant then SignedIn(Last(ms).content) else [], b);
    }
  }

  lemma {:induction false} CopiedIffIn(content: seq<Block>, b: Block)
    ensures CopiesIn(content, b) > 0 <==> b in content
  {
    if content != [] {
      CopiedIffIn(Init(content), b);
      SplitLast(content);
    }
  }

  ghost predicate EachOnce(bs: seq<Block>) {
    forall b :: CopiesIn(bs, b) <= 1
  }

  lemma OnceMore(bs: seq<Block>, x: Block)
    ensures EachOnce(bs + [x]) <==> EachOnce(bs) && x !in bs
  {
    CopiedIffIn(bs, x);
    forall b ensures CopiesIn(bs + [x], b) == CopiesIn(bs, b) + if x == b then 1 else 0 {
      NextBlock(bs, x, b);
    }
    assert CopiesIn(bs + [x], x) == CopiesIn(bs, x) + 1;
  }

  lemma {:induction false} NoDupIff(bs: seq<Block>)
    ensures NoDup(bs) <==> EachOnce(bs)
  {
    if bs != [] {
      NoDupIff(Init(bs));
      SplitLast(bs);
      NoDupStep(Init(bs), Last(bs));
      OnceMore(Init(bs), Last(bs));
    }
  }

  lemma {:induction false} OnlySignedIn(ms: seq<Message>, b: Block)
    requires !Signed(b)
    ensures CopiesIn(SignedOf(ms), b) == 0
  {
    if ms != [] {
      OnlySignedIn(Init(ms), b);
      SignedCopied(Last(ms).content, b);
      CopiesInConcat(SignedOf(Init(ms)), if Last(ms).role == Assistant then SignedIn(Last(ms).content) else [], b);
    }
  }

  lemma NoReplayIff(ms: seq<Message>)
    ensures NoReplay(ms) <==> NoDup(SignedOf(ms))
  {
    NoDupIff(SignedOf(ms));
    forall b ensures CopiesIn(SignedOf(ms), b) == if Signed(b) then Copies(ms, Assistant, b) else 0 {
      if Signed(b) {
        AllSignedCopied(ms, b);
      } else {
        OnlySignedIn(ms, b);
      }
    }
    if NoReplay(ms) {
      forall b ensures CopiesIn(SignedOf(ms), b) <= 1 {
        match b {
          case Thinking(t, s) => assert s != "" ==> Copies(ms, Assistant, Thinking(t, s)) <= 1;
          case RedactedThinking(d) => assert Copies(ms, Assistant, RedactedThinking(d)) <= 1;
          case _ =>
        }
      }
    }
    if NoDup(SignedOf(ms)) {
      forall t, s | s != "" ensures Copies(ms, Assistant, Thinking(t, s)) <= 1 {
        assert CopiesIn(SignedOf(ms), Thinking(t, s)) <= 1;
      }
      forall d ensures Copies(ms, Assistant, RedactedThinking(d)) <= 1 {
        assert CopiesIn(SignedOf(ms), RedactedThinking(d)) <= 1;
      }
    }
  }

  // ----- what is accepted -----

  predicate TextsJoin(a: Block, b: Block) {
    match (a, b)
    case (Text(_, audience), Text(_, other)) => audience == other
    case (_, _) => false
  }

  /** A message with something in it, and no texts of the assistant for one audience side by side. */
  ghost predicate GoodMessage(m: Message) {
    && (exists k :: 0 <= k < |m.content| && !(m.content[k].Text? && |m.content[k].text| == 0))
    && (m.role == Assistant ==>
          forall k :: 0 <= k < |m.content| - 1 ==> !TextsJoin(m.content[k], m.content[k + 1]))
  }

  lemma GoodMessageIff(m: Message)
    ensures GoodMessage(m) <==> !EmptyContent(m.content) && NoAdjacentTexts(m)
  {
    forall k | 0 <= k < |m.content| - 1
      ensures TextsJoin(m.content[k], m.content[k + 1]) <==> SameAudience(m.content[k], m.content[k + 1])
    {
    }
  }

  /** Every request is answered later, and every answer follows a request that was not answered before. */
  ghost predicate CallsAnswered(ms: seq<Message>) {
    forall id :: Alternates(Trace(ms, id))
  }

  /** A conversation is accepted as it is exactly if all of this holds of it. */
  ghost predicate Acceptable(ms: seq<Message>) {
    && |ms| > 0 && ms[0].role == User && ms[|ms| - 1].role == User
    && (forall i :: 0 <= i < |ms| ==> GoodMessage(ms[i]))
    && GoodBlocks(ms) && CallsAnswered(ms) && TurnsApart(ms) && NoReplay(ms)
  }

  lemma GoodMessagesIff(ms: seq<Message>)
    requires AllTidy(ms)
    ensures Tidy(ms) <==> forall i :: 0 <= i < |ms| ==> GoodMessage(ms[i])
  {
    TidyIff(ms);
    forall i | 0 <= i < |ms| ensures GoodMessage(ms[i]) <==> !EmptyContent(ms[i].content) && NoAdjacentTexts(ms[i]) {
      GoodMessageIff(ms[i]);
    }
  }

  lemma TidyIsAllTidy(ms: seq<Message>)
    requires Tidy(ms)
    ensures AllTidy(ms)
  {
    forall i | 0 <= i < |ms| ensures TidyMessage(ms[i]) {
      TidyMessageIff(ms[i]);
    }
  }

  lemma TidyIffGood(ms: seq<Message>)
    ensures Tidy(ms) <==> AllTidy(ms) && forall i :: 0 <= i < |ms| ==> GoodMessage(ms[i])
  {
    if AllTidy(ms) {
      GoodMessagesIff(ms);
    } else if Tidy(ms) {
      TidyIsAllTidy(ms);
    }
  }

  lemma AcceptedIff(ms: seq<Message>)
    ensures FixMessages(ms).issues == [] <==> Acceptable(ms)
  {
    FixIssuesIff(ms);
    GoodBlocksIff(ms);
    TurnsApartIff(ms);
    NoReplayIff(ms);
    TidyIffGood(ms);
  }

  // ----- what repair makes -----

  /**
   Every repaired conversation: blocks stand in messages of the right role, results say something,
   no text of the assistant ends in white space, turns are merged, and no signed thinking is replayed.
   */
  lemma RepairedIsGood(ms: seq<Message>)
    ensures var out := FixMessages(ms).messages;
            out != [] && GoodBlocks(out) && TurnsApart(out) && NoReplay(out)
  {
    var m7, r := Consolidate(ms).messages, TrimEnds(ms).messages;
    var out := FixMessages(ms).messages;
    ConsolidatedShape(ms);
    LeadTrailIs(m7);
    StretchShape(m7, Front(m7), Back(m7));
    if r == [] {
      PlaceholderIsNormal();
      FixIssuesIff(out);
      AcceptedIff(out);
    } else {
      GoodBlocksIff(out);
      TurnsApartIff(out);
      NoReplayIff(out);
    }
  }

  /** The roles that complaints about merged runs name. */
  lemma EffectiveRoleIs(m: Message)
    ensures EffectiveRoleOf(m) == AsAssistant <==> m.role == Assistant
    ensures EffectiveRoleOf(m) == AsTool <==> m.role == User && AnswersTools(m)
    ensures EffectiveRoleOf(m) == AsUser <==> m.role == User && !AnswersTools(m)
  {
    assert AnswersTools(m) <==> HasToolResponse(m.content);
  }

  predicate OneVoice(a: Message, b: Message) {
    a.role == b.role && (a.role == User ==> (AnswersTools(a) <==> AnswersTools(b)))
  }

  /** In the request form, where visibility does not matter, neighbours differ in role or in answering tools. */
  lemma RequestTurnsApart(ms: seq<Message>)
    ensures var out := ForRequest(ms); forall i :: 0 <= i < |out| - 1 ==> !OneVoice(out[i], out[i + 1])
  {
    var out := ForRequest(ms);
    MergedHasNoJoins(ms, true);
    assert forall i :: 0 <= i < |out| - 1 ==> !Joins(out[i], out[i + 1], true);
    assert forall m: Message :: AnswersTools(m) <==> HasToolResponse(m.content);
  }

  // ----- which copy of signed thinking stays -----

  /** Of several copies of signed thinking the first one stays, where it is. */
  lemma FirstCopyStays(ms: seq<Message>, p: nat, b: Block)
    requires (b.Thinking? && b.signature != "") || b.RedactedThinking?
    requires p < |ms| && CopiesOf(ms[p], Assistant, b) > 0 && Copies(ms[..p], Assistant, b) == 0
    ensures p < |DedupeAll(ms).messages| && CopiesOf(DedupeAll(ms).messages[p], Assistant, b) == 1
  {
    DedupedAt(ms, p);
    AllSignedCopied(ms[..p], b);
    CopiedIffIn(SignedOf(ms[..p]), b);
    SignedInCopies(ms[p].content, SignedOf(ms[..p]), b);
  }

  // ----- what repair keeps -----

  /** Blocks that no pass has a reason to touch in messages of the role. */
  predicate Neutral(role: Role, b: Block) {
    match b
    case Image(_) => true
    case ActionRequired(_) => true
    case SystemNotification(_) => true
    case Error(_) => true
    case Text(text, _) => role == User && |text| > 0
    case FrontendToolRequest(_) => role == User
    case ToolConfirmationRequest(_) => role == Assistant
    case Thinking(_, signature) => role == Assistant && signature == ""
    case _ => false
  }

  ghost predicate KeepsCopies(f: Message -> Fixed, role: Role, b: Block) {
    forall m :: Copies(f(m).messages, role, b) == CopiesOf(m, role, b)
  }

  lemma {:induction false} EachKeepsCopies(ms: seq<Message>, f: Message -> Fixed, role: Role, b: Block)
    requires KeepsCopies(f, role, b)
    ensures Copies(Each(ms, f).messages, role, b) == Copies(ms, role, b)
  {
    if ms != [] {
      EachKeepsCopies(Init(ms), f, role, b);
      CopiesConcat(Each(Init(ms), f).messages, f(Last(ms)).messages, role, b);
    }
  }

  lemma OneCopies(m: Message, role: Role, b: Block)
    ensures Copies([m], role, b) == CopiesOf(m, role, b) && Copies([], role, b) == 0
  {
    assert Init([m]) == [];
  }

  /** Blocks that are replaced one by one, none of them the block in question before or after. */
  lemma {:induction false} SimilarCopies(x: seq<Block>, y: seq<Block>, b: Block)
    requires |x| == |y| && forall k :: 0 <= k < |x| ==> (x[k] == b <==> y[k] == b)
    ensures CopiesIn(x, b) == CopiesIn(y, b)
  {
    if x != [] {
      SimilarCopies(Init(x), Init(y), b);
    }
  }

  lemma AbsorbCopies(content: seq<Block>, x: Block, b: Block)
    requires !b.Text?
    ensures CopiesIn(Absorb(content, x), b) == CopiesIn(content, b) + if x == b then 1 else 0
  {
    if content != [] && SameAudience(Last(content), x) {
      NextBlock(Init(content), Last(content).(text := Last(content).text + x.text), b);
    } else {
      NextBlock(content, x, b);
    }
  }

  lemma {:induction false} JoinKeepsCopies(content: seq<Block>, b: Block)
    requires !b.Text?
    ensures CopiesIn(JoinTexts(content), b) == CopiesIn(content, b)
  {
    if content != [] {
      JoinKeepsCopies(Init(content), b);
      AbsorbCopies(JoinTexts(Init(content)), Last(content), b);
    }
  }

  lemma JoinTextsCopies(role: Role, b: Block)
    requires Neutral(role, b)
    ensures KeepsCopies(JoinTextsIn, role, b)
  {
    forall m ensures Copies(JoinTextsIn(m).messages, role, b) == CopiesOf(m, role, b) {
      OneCopies(JoinTextsIn(m).messages[0], role, b);
      if m.role == Assistant == role {
        JoinKeepsCopies(m.content, b);
      }
    }
  }

  lemma TrimCopies(role: Role, b: Block)
    requires Neutral(role, b)
    ensures KeepsCopies(TrimIn, role, b)
  {
    forall m ensures Copies(TrimIn(m).messages, role, b) == CopiesOf(m, role, b) {
      OneCopies(TrimIn(m).messages[0], role, b);
      if m.role == Assistant == role {
        SimilarCopies(m.content, TrimBlocks(m.content), b);
      }
    }
  }

  lemma {:induction false} EmptyHasNone(content: seq<Block>, role: Role, b: Block)
    requires EmptyContent(content) && Neutral(role, b)
    ensures CopiesIn(content, b) == 0
  {
    if content != [] {
      EmptyHasNone(Init(content), role, b);
    }
  }

  lemma DropEmptyCopies(role: Role, b: Block)
    requires Neutral(role, b)
    ensures KeepsCopies(DropEmpty, role, b)
  {
    forall m ensures Copies(DropEmpty(m).messages, role, b) == CopiesOf(m, role, b) {
      OneCopies(m, role, b);
      if EmptyContent(m.content) {
        EmptyHasNone(m.content, role, b);
      }
    }
  }

  lemma FillCopies(role: Role, b: Block)
    requires Neutral(role, b)
    ensures KeepsCopies(FillIn, role, b)
  {
    forall m ensures Copies(FillIn(m).messages, role, b) == CopiesOf(m, role, b) {
      OneCopies(FillIn(m).messages[0], role, b);
      SimilarCopies(m.content, FillBlocks(m.content), b);
    }
  }

  lemma NeutralStays(role: Role, b: Block, pending: set<string>)
    requires Neutral(role, b)
    ensures !Drops(role, b, pending)
  {
  }

  lemma {:induction false} SiftCopies(role: Role, content: seq<Block>, pending: set<string>, b: Block)
    requires Neutral(role, b)
    ensures CopiesIn(Sift(role, content, pending).content, b) == CopiesIn(content, b)
  {
    if content != [] {
      SiftCopies(role, Init(content), pending, b);
      var s := Sift(role, Init(content), pending);
      NeutralStays(role, b, s.pending);
      NextBlock(s.content, Last(content), b);
    }
  }

  function SiftedMessage(m: Message, pending: set<string>): Message {
    m.(content := Sift(m.role, m.content, pending).content)
  }

  lemma SiftedCopies(m: Message, pending: set<string>, role: Role, b: Block)
    requires Neutral(role, b)
    ensures CopiesOf(SiftedMessage(m, pending), role, b) == CopiesOf(m, role, b)
  {
    if m.role == role {
      SiftCopies(role, m.content, pending, b);
    }
  }

  lemma {:induction false} SiftAllCopies(ms: seq<Message>, role: Role, b: Block)
    requires Neutral(role, b)
    ensures Copies(SiftAll(ms).messages, role, b) == Copies(ms, role, b)
  {
    if ms != [] {
      SiftAllCopies(Init(ms), role, b);
      var w, m := SiftAll(Init(ms)), Last(ms);
      SiftedCopies(m, w.pending, role, b);
      NextMessage(w.messages, SiftedMessage(m, w.pending), role, b);
    }
  }

  lemma {:induction false} AnsweredCopies(role: Role, content: seq<Block>, pending: set<string>, b: Block)
    requires !b.ToolRequest?
    ensures CopiesIn(Answered(role, content, pending), b) == CopiesIn(content, b)
  {
    if content != [] {
      AnsweredCopies(role, Init(content), pending, b);
      NextBlock(Answered(role, Init(content), pending), Last(content), b);
      WithEmpty(Answered(role, Init(content), pending));
    }
  }

  lemma DropOrphansCopies(pending: set<string>, role: Role, b: Block)
    requires Neutral(role, b)
    ensures KeepsCopies(DropOrphans(pending), role, b)
  {
    forall m ensures Copies(DropOrphans(pending)(m).messages, role, b) == CopiesOf(m, role, b) {
      OneCopies(DropOrphans(pending)(m).messages[0], role, b);
      AnsweredCopies(m.role, m.content, pending, b);
    }
  }

  lemma ToolCallingCopies(ms: seq<Message>, role: Role, b: Block)
    requires Neutral(role, b)
    ensures Copies(FixToolCalling(ms).messages, role, b) == Copies(ms, role, b)
  {
    var w := SiftAll(ms);
    SiftAllCopies(ms, role, b);
    DropOrphansCopies(w.pending, role, b);
    EachKeepsCopies(w.messages, DropOrphans(w.pending), role, b);
    DropEmptyCopies(role, b);
    EachKeepsCopies(Each(w.messages, DropOrphans(w.pending)).messages, DropEmpty, role, b);
  }

  lemma AddCopies(merged: seq<Message>, m: Message, role: Role, b: Block)
    ensures Copies(Add(merged, m, false), role, b) == Copies(merged, role, b) + CopiesOf(m, role, b)
  {
    if merged != [] && Joins(Last(merged), m, false) {
      var last := Last(merged);
      NextMessage(Init(merged), Extend(last, m), role, b);
      CopiesInConcat(last.content, m.content, b);
    } else {
      NextMessage(merged, m, role, b);
    }
  }

  lemma {:induction false} MergeCopies(ms: seq<Message>, role: Role, b: Block)
    ensures Copies(MergeRuns(ms, false), role, b) == Copies(ms, role, b)
  {
    if ms != [] {
      MergeCopies(Init(ms), role, b);
      AddCopies(MergeRuns(Init(ms), false), Last(ms), role, b);
    }
  }

  lemma CleanUpCopies(ms: seq<Message>, role: Role, b: Block)
    requires Neutral(role, b)
    ensures Copies(CleanUp(ms).messages, role, b) == Copies(ms, role, b)
  {
    JoinTextsCopies(role, b);
    EachKeepsCopies(ms, JoinTextsIn, role, b);
    var m1 := MergeTextContentItems(ms).messages;
    TrimCopies(role, b);
    EachKeepsCopies(m1, TrimIn, role, b);
    var m2 := TrimAssistantTextWhitespace(m1).messages;
    DropEmptyCopies(role, b);
    EachKeepsCopies(m2, DropEmpty, role, b);
    FillCopies(role, b);
    EachKeepsCopies(RemoveEmptyMessages(m2).messages, FillIn, role, b);
  }

  /** Up to the seventh pass every copy of a neutral block stays in messages of its role. */
  lemma ConsolidateKeepsNeutral(ms: seq<Message>, role: Role, b: Block)
    requires Neutral(role, b)
    ensures Copies(Consolidate(ms).messages, role, b) == Copies(ms, role, b)
  {
    CleanUpCopies(ms, role, b);
    ToolCallingCopies(CleanUp(ms).messages, role, b);
    MergeCopies(FixToolCalls(ms).messages, role, b);
    var merged := MergeAll(ms).messages;
    if role == User {
      UserCopies(merged, b);
    } else {
      UnsignedAllCopies(merged, b);
    }
  }

  lemma EndsKeepUsers(ms: seq<Message>, b: Block)
    ensures Copies(FixLeadTrail(ms).messages, User, b) == Copies(ms, User, b)
  {
    var lead := FixLead(ms).messages;
    if ms != [] {
      assert ms == [ms[0]] + ms[1..];
      CopiesConcat([ms[0]], ms[1..], User, b);
      OneCopies(ms[0], User, b);
    }
    if lead != [] {
      SplitLast(lead);
      NextMessage(Init(lead), Last(lead), User, b);
    }
  }

  /**
   Whatever the user said, showed or was asked for arrives: repair loses no copy of a text that is not
   empty, an image, a notification or a frontend request in messages of the user.
   */
  lemma RepairKeepsUserBlocks(ms: seq<Message>, b: Block)
    requires Neutral(User, b) && FixMessages(ms).messages != [PLACEHOLDER]
    ensures Copies(FixMessages(ms).messages, User, b) == Copies(ms, User, b)
  {
    ConsolidateKeepsNeutral(ms, User, b);
    EndsKeepUsers(Consolidate(ms).messages, b);
  }
}
