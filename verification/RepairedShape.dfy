/** What the passes up to the seventh always leave in order, so that a second repair need not look at it. */
module RepairedShape {
  import opened Whitespace
  import opened Sequences
  import opened Messages
  import opened CleanPasses
  import opened ToolPairing
  import opened RunMerging
  import opened SignedThinking
  import opened DedupedContent
  import opened Normalizer

  /** A block that trimming or filling would change. */
  predicate Untidy(role: Role, b: Block) {
    || (role == Assistant && b.Text? && b.text != "" && IsWhite(b.text[|b.text| - 1]))
    || EmptyResult(b)
  }

  predicate TidyContent(role: Role, content: seq<Block>) {
    forall b :: b in content ==> !Untidy(role, b)
  }

  predicate TidyMessage(m: Message) {
    TidyContent(m.role, m.content)
  }

  predicate AllTidy(ms: seq<Message>) {
    forall i :: 0 <= i < |ms| ==> TidyMessage(ms[i])
  }

  lemma TidyMessageIff(m: Message)
    ensures TidyMessage(m) <==> Trimmed(m) && NoEmptyResult(m)
  {
    if Trimmed(m) && NoEmptyResult(m) {
      forall b | b in m.content ensures !Untidy(m.role, b) {
        var i :| 0 <= i < |m.content| && m.content[i] == b;
      }
    }
    if TidyMessage(m) {
      forall i | 0 <= i < |m.content| ensures !Untidy(m.role, m.content[i]) {
        assert m.content[i] in m.content;
      }
    }
  }

  lemma TidyPart(role: Role, part: seq<Block>, content: seq<Block>)
    requires TidyContent(role, content) && forall b :: b in part ==> b in content
    ensures TidyContent(role, part)
  {
  }

  // ----- the passes over single messages -----

  /** Whatever a pass makes of messages with one property has another. */
  lemma {:induction false} EachMakes(ms: seq<Message>, f: Message -> Fixed, p: Message -> bool, q: Message -> bool)
    requires forall m, x :: p(m) && x in f(m).messages ==> q(x)
    requires forall i :: 0 <= i < |ms| ==> p(ms[i])
    ensures forall i :: 0 <= i < |Each(ms, f).messages| ==> q(Each(ms, f).messages[i])
  {
    if ms != [] {
      EachMakes(Init(ms), f, p, q);
      var before, made := Each(Init(ms), f).messages, f(Last(ms)).messages;
      forall i | 0 <= i < |before + made| ensures q((before + made)[i]) {
        if i >= |before| {
          assert made[i - |before|] in made;
        }
      }
    }
  }

  lemma TrimMakesTrimmed(m: Message, x: Message)
    requires x in TrimIn(m).messages
    ensures Trimmed(x)
  {
    if m.role == Assistant {
      forall i | 0 <= i < |x.content| && x.content[i].Text?
        ensures x.content[i].text == "" || !IsWhite(x.content[i].text[|x.content[i].text| - 1])
      {
        assert x.content[i] == TrimBlock(m.content[i]);
        TrimEndCuts(m.content[i].text);
      }
    }
  }

  lemma FillMakesTidy(m: Message, x: Message)
    requires Trimmed(m) && x in FillIn(m).messages
    ensures TidyMessage(x)
  {
    forall i | 0 <= i < |x.content|
      ensures !EmptyResult(x.content[i]) && (x.content[i].Text? ==> x.content[i] == m.content[i])
    {
      FillKeepsResults(m.content[i]);
    }
    TidyMessageIff(x);
  }

  lemma CleanedIsTidy(ms: seq<Message>)
    ensures AllTidy(CleanUp(ms).messages)
  {
    var m1 := MergeTextContentItems(ms).messages;
    var m2 := TrimAssistantTextWhitespace(m1).messages;
    var m3 := RemoveEmptyMessages(m2).messages;
    forall m, x | x in TrimIn(m).messages ensures Trimmed(x) {
      TrimMakesTrimmed(m, x);
    }
    EachMakes(m1, TrimIn, m => true, Trimmed);
    EachMakes(m2, DropEmpty, Trimmed, Trimmed);
    forall m, x | Trimmed(m) && x in FillIn(m).messages ensures TidyMessage(x) {
      FillMakesTidy(m, x);
    }
    EachMakes(m3, FillIn, Trimmed, TidyMessage);
  }

  // ----- the passes that only remove and merge -----

  lemma {:induction false} SiftTakesFrom(role: Role, content: seq<Block>, pending: set<string>)
    ensures forall b :: b in Sift(role, content, pending).content ==> b in content
  {
    if content != [] {
      SiftTakesFrom(role, Init(content), pending);
      SplitLast(content);
    }
  }

  lemma {:induction false} AnsweredTakesFrom(role: Role, content: seq<Block>, pending: set<string>)
    ensures forall b :: b in Answered(role, content, pending) ==> b in content
  {
    if content != [] {
      AnsweredTakesFrom(role, Init(content), pending);
      SplitLast(content);
    }
  }

  lemma {:induction false} DedupeTakesFrom(content: seq<Block>, seen: seq<Block>)
    ensures forall b :: b in DedupeIn(content, seen).content ==> b in content
  {
    if content != [] {
      DedupeTakesFrom(Init(content), seen);
      SplitLast(content);
    }
  }

  lemma AllTidyStep(ms: seq<Message>)
    requires ms != []
    ensures AllTidy(ms) <==> AllTidy(Init(ms)) && TidyMessage(Last(ms))
  {
    if AllTidy(Init(ms)) && TidyMessage(Last(ms)) {
      forall i | 0 <= i < |ms| ensures TidyMessage(ms[i]) {
        assert i < |ms| - 1 ==> Init(ms)[i] == ms[i];
      }
    }
  }

  lemma {:induction false} SiftedIsTidy(ms: seq<Message>)
    requires AllTidy(ms)
    ensures AllTidy(SiftAll(ms).messages)
  {
    if ms != [] {
      AllTidyStep(ms);
      SiftedIsTidy(Init(ms));
      var w, m := SiftAll(Init(ms)), Last(ms);
      SiftTakesFrom(m.role, m.content, w.pending);
      TidyPart(m.role, Sift(m.role, m.content, w.pending).content, m.content);
      AllTidyStep(SiftAll(ms).messages);
      assert Init(SiftAll(ms).messages) == w.messages;
    }
  }

  lemma CalledIsTidy(ms: seq<Message>)
    requires AllTidy(ms)
    ensures AllTidy(FixToolCalling(ms).messages)
  {
    var w := SiftAll(ms);
    SiftedIsTidy(ms);
    var f := DropOrphans(w.pending);
    forall m, x | TidyMessage(m) && x in f(m).messages ensures TidyMessage(x) {
      AnsweredTakesFrom(m.role, m.content, w.pending);
      TidyPart(m.role, x.content, m.content);
    }
    EachMakes(w.messages, f, TidyMessage, TidyMessage);
    EachMakes(Each(w.messages, f).messages, DropEmpty, TidyMessage, TidyMessage);
  }

  lemma AddIsTidy(merged: seq<Message>, m: Message)
    requires AllTidy(merged) && TidyMessage(m)
    ensures AllTidy(Add(merged, m, false))
  {
    var after := Add(merged, m, false);
    if merged != [] && Joins(Last(merged), m, false) {
      AllTidyStep(merged);
      assert Init(after) == Init(merged) && Last(after).content == Last(merged).content + m.content;
    } else {
      assert Init(after) == merged;
    }
    AllTidyStep(after);
  }

  lemma {:induction false} MergedIsTidy(ms: seq<Message>)
    requires AllTidy(ms)
    ensures AllTidy(MergeRuns(ms, false))
  {
    if ms != [] {
      AllTidyStep(ms);
      MergedIsTidy(Init(ms));
      AddIsTidy(MergeRuns(Init(ms), false), Last(ms));
    }
  }

  lemma DedupedIsTidy(ms: seq<Message>)
    requires AllTidy(ms)
    ensures AllTidy(DedupeAll(ms).messages)
  {
    DedupeKeepsPlaces(ms);
    forall i | 0 <= i < |ms| ensures TidyMessage(DedupeAll(ms).messages[i]) {
      DedupedAt(ms, i);
      assert TidyMessage(ms[i]);
      DedupeTakesFrom(ms[i].content, SignedOf(ms[..i]));
      TidyPart(ms[i].role, DedupedIn(ms, i).content, ms[i].content);
    }
  }

  /** The shape that no later pass disturbs. */
  ghost predicate Shaped(ms: seq<Message>) {
    AllTidy(ms) && WellPlaced(ms) && NoJoins(ms, false) && NoDup(SignedOf(ms))
  }

  lemma PlacesKeepNoJoins(a: seq<Message>, b: seq<Message>)
    requires |a| == |b| && NoJoins(b, false) && forall i :: 0 <= i < |a| ==> SamePlace(a[i], b[i])
    ensures NoJoins(a, false)
  {
    forall i | 0 <= i < |a| - 1 ensures !Joins(a[i], a[i + 1], false) {
      assert !Joins(b[i], b[i + 1], false) && SamePlace(a[i], b[i]) && SamePlace(a[i + 1], b[i + 1]);
    }
  }

  lemma ConsolidatedShape(ms: seq<Message>)
    ensures Shaped(Consolidate(ms).messages)
  {
    var m4 := CleanUp(ms).messages;
    var m5 := FixToolCalling(m4).messages;
    var m6 := MergeRuns(m5, false);
    CleanedIsTidy(ms);
    CalledIsTidy(m4);
    MergedIsTidy(m5);
    DedupedIsTidy(m6);
    FixedWellPlaced(m4);
    MergeWellPlaced(m5, false);
    DedupeWellPlaced(m6);
    MergedHasNoJoins(m5, false);
    DedupeKeepsPlaces(m6);
    PlacesKeepNoJoins(DedupeAll(m6).messages, m6);
    DedupeAllKeeps(m6);
  }

  /** Any stretch of a conversation keeps the shape. */
  lemma StretchShape(ms: seq<Message>, lo: nat, hi: nat)
    requires Shaped(ms) && lo <= hi <= |ms|
    ensures Shaped(ms[lo..hi])
  {
    var r := ms[lo..hi];
    forall i | 0 <= i < |r| ensures TidyMessage(r[i]) && WellPlacedIn(r[i].role, r[i].content) {
      assert r[i] == ms[lo + i];
    }
    forall i | 0 <= i < |r| - 1 ensures !Joins(r[i], r[i + 1], false) {
      assert r[i] == ms[lo + i] && r[i + 1] == ms[lo + i + 1];
    }
    assert ms == ms[..lo] + (r + ms[hi..]);
    NoDupPart(ms[..lo], r + ms[hi..]);
    NoDupPart(r, ms[hi..]);
  }
}
