/** Which messages are merged into one: the runs of a conversation, read off its messages. */
module RunStructure {
  import opened Sequences
  import opened Messages
  import opened RunMerging
  import opened SignedThinking

  /** Messages merge, whatever is between them, if they agree in effective role, visibility and turn context. */
  predicate SameKey(a: Message, b: Message) {
    Joins(a, b, false)
  }

  /** A run starts at a message that does not agree with the one before it. */
  function Starts(ms: seq<Message>): (r: seq<nat>)
    ensures |r| <= |ms| && (r == [] <==> ms == [])
    ensures forall p :: 0 <= p < |r| ==> r[p] < |ms|
  {
    if ms == [] then []
    else if |ms| > 1 && SameKey(Last(Init(ms)), Last(ms)) then Starts(Init(ms))
    else Starts(Init(ms)) + [|ms| - 1]
  }

  function EndOf(ms: seq<Message>, p: nat): nat
    requires p < |Starts(ms)|
  {
    if p + 1 < |Starts(ms)| then Starts(ms)[p + 1] else |ms|
  }

  lemma {:induction false} StartsIncrease(ms: seq<Message>)
    ensures forall p, q :: 0 <= p < q < |Starts(ms)| ==> Starts(ms)[p] < Starts(ms)[q]
    ensures ms != [] ==> Starts(ms)[0] == 0
  {
    if ms != [] {
      StartsIncrease(Init(ms));
    }
  }

  lemma RunBounds(ms: seq<Message>, p: nat)
    requires p < |Starts(ms)|
    ensures Starts(ms)[p] < EndOf(ms, p) <= |ms|
  {
    StartsIncrease(ms);
  }

  function RunContent(ms: seq<Message>, p: nat): seq<Block>
    requires p < |Starts(ms)|
  {
    RunBounds(ms, p);
    Contents(ms[Starts(ms)[p]..EndOf(ms, p)])
  }

  /** The message that the p-th run becomes. */
  function RunMessage(ms: seq<Message>, p: nat): Message
    requires p < |Starts(ms)|
  {
    ms[Starts(ms)[p]].(content := RunContent(ms, p))
  }

  lemma ContentsNext(ms: seq<Message>, m: Message)
    ensures Contents(ms + [m]) == Contents(ms) + m.content
  {
    assert Init(ms + [m]) == ms;
  }

  lemma SliceOfInit(ms: seq<Message>, a: nat, b: nat)
    requires ms != [] && a <= b < |ms|
    ensures ms[a..b] == Init(ms)[a..b]
  {
  }

  lemma TailGrows(ms: seq<Message>, s: nat)
    requires ms != [] && s < |ms|
    ensures Contents(ms[s..|ms|]) == Contents(Init(ms)[s..|ms| - 1]) + Last(ms).content
  {
    assert ms[s..|ms|] == Init(ms)[s..|ms| - 1] + [Last(ms)];
    ContentsNext(Init(ms)[s..|ms| - 1], Last(ms));
  }

  lemma GrowsBefore(ms: seq<Message>, p: nat)
    requires |ms| > 1 && Starts(ms) == Starts(Init(ms)) && p + 1 < |Starts(ms)|
    ensures RunMessage(ms, p) == RunMessage(Init(ms), p)
  {
    RunBounds(Init(ms), p);
    SliceOfInit(ms, Starts(ms)[p], EndOf(ms, p));
  }

  lemma GrowsLast(ms: seq<Message>, p: nat)
    requires |ms| > 1 && Starts(ms) == Starts(Init(ms)) && p + 1 == |Starts(ms)|
    ensures RunMessage(ms, p) == Extend(RunMessage(Init(ms), p), Last(ms))
  {
    RunBounds(Init(ms), p);
    TailGrows(ms, Starts(ms)[p]);
  }

  /** A message that joins the last run. */
  lemma RunsGrow(ms: seq<Message>, p: nat)
    requires |ms| > 1 && SameKey(Last(Init(ms)), Last(ms)) && p < |Starts(ms)|
    ensures Starts(ms) == Starts(Init(ms))
    ensures RunMessage(ms, p) == if p + 1 < |Starts(ms)| then RunMessage(Init(ms), p)
                                 else Extend(RunMessage(Init(ms), p), Last(ms))
  {
    if p + 1 < |Starts(ms)| {
      GrowsBefore(ms, p);
    } else {
      GrowsLast(ms, p);
    }
  }

  /** A message that starts a new run. */
  lemma RunsStart(ms: seq<Message>, p: nat)
    requires ms != [] && (|ms| > 1 ==> !SameKey(Last(Init(ms)), Last(ms))) && p < |Starts(ms)|
    ensures Starts(ms) == Starts(Init(ms)) + [|ms| - 1]
    ensures RunMessage(ms, p) == if p + 1 < |Starts(ms)| then RunMessage(Init(ms), p) else Last(ms)
  {
    var init, s := Init(ms), Starts(ms)[p];
    if p + 1 < |Starts(ms)| {
      RunBounds(init, p);
      SliceOfInit(ms, s, EndOf(init, p));
      LastRunEnds(ms, p);
    } else {
      assert ms[s..|ms|] == [] + [Last(ms)];
      ContentsNext([], Last(ms));
      assert [] + Last(ms).content == Last(ms).content;
    }
  }

  lemma LastRunEnds(ms: seq<Message>, p: nat)
    requires ms != [] && Starts(ms) == Starts(Init(ms)) + [|ms| - 1] && p < |Starts(Init(ms))|
    ensures EndOf(ms, p) == EndOf(Init(ms), p)
  {
  }

  predicate Agree(a: Message, b: Message) {
    && EffectiveRoleOf(a) == EffectiveRoleOf(b) && a.role == b.role
    && a.metadata.userVisible == b.metadata.userVisible && a.metadata.turnContext == b.metadata.turnContext
  }

  lemma {:induction false} LastAgrees(ms: seq<Message>)
    requires ms != []
    ensures MergeRuns(ms, false) != [] && Agree(Last(MergeRuns(ms, false)), Last(ms))
  {
    var merged := MergeRuns(Init(ms), false);
    if merged != [] && Joins(Last(merged), Last(ms), false) {
      ExtendKeepsEffective(Last(merged), Last(ms));
    }
  }

  ghost predicate RunsAre(merged: seq<Message>, ms: seq<Message>) {
    |merged| == |Starts(ms)| && forall p :: 0 <= p < |merged| ==> merged[p] == RunMessage(ms, p)
  }

  lemma AddGrows(merged: seq<Message>, ms: seq<Message>)
    requires |ms| > 1 && SameKey(Last(Init(ms)), Last(ms)) && RunsAre(merged, Init(ms)) && merged != []
    ensures RunsAre(Init(merged) + [Extend(Last(merged), Last(ms))], ms)
  {
    var after := Init(merged) + [Extend(Last(merged), Last(ms))];
    forall p | 0 <= p < |after| ensures after[p] == RunMessage(ms, p) {
      RunsGrow(ms, p);
    }
  }

  lemma AddStarts(merged: seq<Message>, ms: seq<Message>)
    requires ms != [] && (|ms| > 1 ==> !SameKey(Last(Init(ms)), Last(ms))) && RunsAre(merged, Init(ms))
    ensures RunsAre(merged + [Last(ms)], ms)
  {
    var after := merged + [Last(ms)];
    forall p | 0 <= p < |after| ensures after[p] == RunMessage(ms, p) {
      RunsStart(ms, p);
    }
  }

  /** Merging turns every run into one message, and nothing else. */
  lemma {:induction false} MergedAreRuns(ms: seq<Message>)
    ensures RunsAre(MergeRuns(ms, false), ms)
  {
    if ms != [] {
      var merged := MergeRuns(Init(ms), false);
      MergedAreRuns(Init(ms));
      if |ms| > 1 {
        LastAgrees(Init(ms));
      }
      if merged != [] && Joins(Last(merged), Last(ms), false) {
        AddGrows(merged, ms);
      } else {
        AddStarts(merged, ms);
      }
    }
  }

  // ----- signed thinking and runs -----

  lemma {:induction false} SignedInConcat(a: seq<Block>, b: seq<Block>)
    ensures SignedIn(a + b) == SignedIn(a) + SignedIn(b)
  {
    if b == [] {
      assert a + b == a;
    } else {
      InitOfConcat(a, b);
      SignedInConcat(a, Init(b));
      Assoc(SignedIn(a), SignedIn(Init(b)), if Signed(Last(b)) then [Last(b)] else []);
    }
  }

  lemma SignedOfNext(ms: seq<Message>, m: Message)
    ensures SignedOf(ms + [m]) == SignedOf(ms) + if m.role == Assistant then SignedIn(m.content) else []
  {
    assert Init(ms + [m]) == ms;
  }

  lemma AddKeepsSigned(merged: seq<Message>, m: Message)
    ensures SignedOf(Add(merged, m, false))
            == SignedOf(merged) + if m.role == Assistant then SignedIn(m.content) else []
  {
    if merged != [] && Joins(Last(merged), m, false) {
      var init, last := Init(merged), Last(merged);
      SplitLast(merged);
      SignedOfNext(init, last);
      SignedOfNext(init, Extend(last, m));
      SignedInConcat(last.content, m.content);
      Assoc(SignedOf(init), SignedIn(last.content), SignedIn(m.content));
      WithEmpty(SignedOf(merged));
    } else {
      SignedOfNext(merged, m);
    }
  }

  lemma {:induction false} MergeKeepsSigned(ms: seq<Message>)
    ensures SignedOf(MergeRuns(ms, false)) == SignedOf(ms)
  {
    if ms != [] {
      MergeKeepsSigned(Init(ms));
      AddKeepsSigned(MergeRuns(Init(ms), false), Last(ms));
    }
  }

  lemma AddPrefix(merged: seq<Message>, m: Message, p: nat)
    requires p <= |merged| && p < |Add(merged, m, false)|
    ensures Add(merged, m, false)[..p] == merged[..p]
  {
  }

  /** Merging what is before a run gives what is before its message. */
  lemma {:induction false} MergedBefore(ms: seq<Message>, p: nat)
    requires p < |Starts(ms)|
    ensures p < |MergeRuns(ms, false)| && MergeRuns(ms, false)[..p] == MergeRuns(ms[..Starts(ms)[p]], false)
  {
    var init := Init(ms);
    MergedAreRuns(ms);
    MergedAreRuns(init);
    AddPrefix(MergeRuns(init, false), Last(ms), p);
    if p < |Starts(init)| {
      MergedBefore(init, p);
      assert ms[..Starts(init)[p]] == init[..Starts(init)[p]];
    } else {
      TakeAll(MergeRuns(init, false));
    }
  }

  lemma TakeAll<T>(s: seq<T>)
    ensures s[..|s|] == s
  {
  }

  /** The signed thinking that comes before a run. */
  function SignedBefore(ms: seq<Message>, p: nat): seq<Block>
    requires p < |Starts(ms)|
  {
    SignedOf(ms[..Starts(ms)[p]])
  }

  lemma SignedBeforeRun(ms: seq<Message>, p: nat)
    requires p < |Starts(ms)|
    ensures p < |MergeRuns(ms, false)| && SignedOf(MergeRuns(ms, false)[..p]) == SignedBefore(ms, p)
  {
    MergedBefore(ms, p);
    MergeKeepsSigned(ms[..Starts(ms)[p]]);
  }
}
