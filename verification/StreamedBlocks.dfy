/** Which blocks a stream of deltas ends up as, and where its signatures and its notes about the inference go. */
module StreamedBlocks {
  import opened Wrappers
  import opened Sequences
  import opened Messages
  import opened CleanPasses
  import opened Coalescing

  // ----- signatures arrive -----

  ghost predicate SignedWith(content: seq<Block>, s: string) {
    exists k :: 0 <= k < |content| && content[k].Thinking? && content[k].signature == s
  }

  ghost predicate SomeSignedWith(ms: seq<Message>, s: string) {
    exists i :: 0 <= i < |ms| && SignedWith(ms[i].content, s)
  }

  lemma Push1Arrives(content: seq<Block>, delta: seq<Block>, s: string)
    requires s != "" && SignedWith(delta, s)
    ensures SignedWith(Push1(content, delta), s)
  {
    var k :| 0 <= k < |delta| && delta[k].Thinking? && delta[k].signature == s;
    var after := Push1(content, delta);
    if after == content + delta {
      assert after[|content| + k] == delta[k];
    } else {
      assert Last(after).Thinking? && Last(after).signature == s;
    }
  }

  lemma PushArrives(ms: seq<Message>, m: Message, s: string)
    requires s != "" && SignedWith(m.content, s)
    ensures SomeSignedWith(Pushed(ms, m), s)
  {
    var after := Pushed(ms, m);
    if after != ms + [m] {
      Push1Arrives(Last(ms).content, m.content, s);
    }
    assert SignedWith(after[|after| - 1].content, s);
  }

  lemma PushKeepsArrived(ms: seq<Message>, m: Message, s: string)
    requires s != "" && SomeSignedWith(ms, s)
    ensures SomeSignedWith(Pushed(ms, m), s)
  {
    var i :| 0 <= i < |ms| && SignedWith(ms[i].content, s);
    var k :| 0 <= k < |ms[i].content| && ms[i].content[k].Thinking? && ms[i].content[k].signature == s;
    PushKeepsSigned(ms, m, i, k);
    assert SignedWith(Pushed(ms, m)[i].content, s);
  }

  /** Every signature that arrives on a thinking delta stands on a thinking block in the end. */
  lemma {:induction false} SignatureArrives(ms: seq<Message>, deltas: seq<Message>, j: nat, s: string)
    requires j < |deltas| && s != "" && SignedWith(deltas[j].content, s)
    ensures SomeSignedWith(PushedAll(ms, deltas), s)
  {
    if j == |deltas| - 1 {
      PushArrives(PushedAll(ms, Init(deltas)), Last(deltas), s);
    } else {
      SignatureArrives(ms, Init(deltas), j, s);
      PushKeepsArrived(PushedAll(ms, Init(deltas)), Last(deltas), s);
    }
  }

  lemma Collect1Arrives(content: seq<Block>, b: Block, single: bool, s: string)
    requires s != "" && (SignedWith([b], s) || (SignedWith(content, s) && !single))
    ensures SignedWith(Collect1(content, b, single), s)
  {
    var after := Collect1(content, b, single);
    if SignedWith([b], s) {
      assert Last(after).Thinking? && Last(after).signature == s;
    } else {
      var k :| 0 <= k < |content| && content[k].Thinking? && content[k].signature == s;
      assert after[k] == content[k];
    }
  }

  lemma {:induction false} CollectArrives(content: seq<Block>, delta: seq<Block>, single: bool, s: string)
    requires s != "" && SignedWith(delta, s) && (single ==> |delta| == 1)
    ensures SignedWith(CollectBlocks(content, delta, single), s)
  {
    var k :| 0 <= k < |delta| && delta[k].Thinking? && delta[k].signature == s;
    if k == |delta| - 1 {
      assert [Last(delta)][0] == delta[k];
    } else {
      assert Init(delta)[k] == delta[k];
      CollectArrives(content, Init(delta), single, s);
    }
    Collect1Arrives(CollectBlocks(content, Init(delta), single), Last(delta), single, s);
  }

  lemma CollectKeepsArrived(content: seq<Block>, delta: seq<Block>, s: string)
    requires s != "" && SignedWith(content, s)
    ensures SignedWith(CollectBlocks(content, delta, |delta| == 1), s)
  {
    var k :| 0 <= k < |content| && content[k].Thinking? && content[k].signature == s;
    CollectKeepsSigned(content, delta, k);
  }

  /** So it does on the message collected from a stream. */
  lemma {:induction false} CollectedSignatureArrives(items: seq<Item>, j: nat, s: string)
    requires j < |MessagesOf(items)| && s != "" && SignedWith(MessagesOf(items)[j].content, s)
    ensures CollectedMessage(items).Some? && SignedWith(CollectedMessage(items).value.content, s)
  {
    var init, item := Init(items), Last(items);
    NothingCollected(init);
    if j < |MessagesOf(init)| {
      CollectedSignatureArrives(init, j, s);
      if item.Chunk? && item.message.Some? {
        CollectKeepsArrived(CollectedMessage(init).value.content, item.message.value.content, s);
      }
    } else if CollectedMessage(init).Some? {
      var delta := item.message.value.content;
      CollectArrives(CollectedMessage(init).value.content, delta, |delta| == 1, s);
    }
  }

  // ----- single deltas of one kind become one block -----

  /** The deltas of one thinking block: unsigned up to the last, which carries the signature. */
  predicate ThinkingDeltas(deltas: seq<Message>, id: string, s: string) {
    forall i :: 0 <= i < |deltas| ==>
      && deltas[i].id == Some(id) && |deltas[i].content| == 1 && deltas[i].content[0].Thinking?
      && deltas[i].content[0].signature == if i == |deltas| - 1 then s else ""
  }

  function ThinkingOf(deltas: seq<Message>): string
    requires forall i :: 0 <= i < |deltas| ==> |deltas[i].content| == 1 && deltas[i].content[0].Thinking?
  {
    if deltas == [] then "" else ThinkingOf(Init(deltas)) + Last(deltas).content[0].thinking
  }

  lemma FirstDelta(ms: seq<Message>, deltas: seq<Message>)
    requires |deltas| == 1 && deltas[0].content != [] && (ms != [] ==> Last(ms).id != deltas[0].id)
    ensures PushedAll(ms, deltas) == ms + [deltas[0]]
  {
    assert Init(deltas) == [] && PushedAll(ms, []) == ms;
  }

  /** Thinking that is signed at the end becomes one block, with all of the thinking and the signature. */
  lemma {:induction false} ThinkingIsClosed(ms: seq<Message>, deltas: seq<Message>, id: string, s: string)
    requires deltas != [] && ThinkingDeltas(deltas, id, s) && (ms != [] ==> Last(ms).id != Some(id))
    ensures var pushed := PushedAll(ms, deltas);
            && |pushed| == |ms| + 1 && Init(pushed) == ms && Last(pushed).id == Some(id)
            && Last(pushed).content == [Thinking(ThinkingOf(deltas), s)]
  {
    var init, m := Init(deltas), Last(deltas);
    assert m.content == [m.content[0]];
    if init == [] {
      FirstDelta(ms, deltas);
      assert ThinkingOf(init) == "";
      WithEmpty(m.content[0].thinking);
    } else {
      assert forall i :: 0 <= i < |init| ==> init[i] == deltas[i];
      ThinkingIsClosed(ms, init, id, "");
      PushOntoLast(PushedAll(ms, init), m, id);
    }
  }

  /** Collecting closes it in the same way. */
  lemma CollectedThinkingIsClosed(deltas: seq<Message>, id: string, s: string)
    requires deltas != [] && ThinkingDeltas(deltas, id, s)
    ensures CollectedMessage(Chunks(deltas)).Some?
    ensures CollectedMessage(Chunks(deltas)).value.content == [Thinking(ThinkingOf(deltas), s)]
  {
    CoalescersAgree([], deltas, id);
    ThinkingIsClosed([], deltas, id, s);
  }

  predicate TextDeltas(deltas: seq<Message>, id: string, audience: Option<seq<Role>>) {
    forall i :: 0 <= i < |deltas| ==>
      && deltas[i].id == Some(id) && |deltas[i].content| == 1 && deltas[i].content[0].Text?
      && deltas[i].content[0].audience == audience
  }

  function TextOf(deltas: seq<Message>): string
    requires forall i :: 0 <= i < |deltas| ==> |deltas[i].content| == 1 && deltas[i].content[0].Text?
  {
    if deltas == [] then "" else TextOf(Init(deltas)) + Last(deltas).content[0].text
  }

  /** Text for one audience becomes one block. */
  lemma {:induction false} TextIsOneBlock(
      ms: seq<Message>, deltas: seq<Message>, id: string, audience: Option<seq<Role>>)
    requires deltas != [] && TextDeltas(deltas, id, audience) && (ms != [] ==> Last(ms).id != Some(id))
    ensures var pushed := PushedAll(ms, deltas);
            && |pushed| == |ms| + 1 && Init(pushed) == ms && Last(pushed).id == Some(id)
            && Last(pushed).content == [Text(TextOf(deltas), audience)]
  {
    var init, m := Init(deltas), Last(deltas);
    assert m.content == [m.content[0]];
    if init == [] {
      FirstDelta(ms, deltas);
      assert TextOf(init) == "";
      WithEmpty(m.content[0].text);
    } else {
      assert forall i :: 0 <= i < |init| ==> init[i] == deltas[i];
      TextIsOneBlock(ms, init, id, audience);
      PushOntoLast(PushedAll(ms, init), m, id);
    }
  }

  lemma CollectedTextIsOneBlock(deltas: seq<Message>, id: string, audience: Option<seq<Role>>)
    requires deltas != [] && TextDeltas(deltas, id, audience)
    ensures CollectedMessage(Chunks(deltas)).Some?
    ensures CollectedMessage(Chunks(deltas)).value.content == [Text(TextOf(deltas), audience)]
  {
    CoalescersAgree([], deltas, id);
    TextIsOneBlock([], deltas, id, audience);
  }

  // ----- a block that ends -----

  /** What does not go on in the last block stands behind it: other kinds, other audiences, other signatures. */
  lemma BlocksStandApart(content: seq<Block>, b: Block)
    requires content != []
    requires match (Last(content), b)
             case (Text(_, audience), Text(_, other)) => audience != other
             case (Thinking(_, s), Thinking(_, other)) => s != "" && s != other
             case (_, _) => true
    ensures Push1(content, [b]) == content + [b] == CollectBlocks(content, [b], true)
  {
    OneBlockAgrees(content, [b]);
  }

  // ----- notes about the inference -----

  predicate TakesNote(x: Message, m: Message) {
    x.role == m.role && x.metadata.userVisible && (m.metadata.limitReached ==> m.id.Some? && x.id == m.id)
  }

  /** A note changes what one message says about its inference, and nothing else: the last one it can be about. */
  lemma NoteLands(ms: seq<Message>, m: Message, k: nat)
    requires m.content == [] && (m.metadata.inference.Some? || m.metadata.limitReached)
    requires k < |ms| && TakesNote(ms[k], m) && forall i :: k < i < |ms| ==> !TakesNote(ms[i], m)
    ensures var after := Pushed(ms, m);
            && |after| == |ms| && (forall i :: 0 <= i < |ms| && i != k ==> after[i] == ms[i])
            && after[k].id == ms[k].id && after[k].role == ms[k].role && after[k].content == ms[k].content
            && SameButNotes(after[k].metadata, ms[k].metadata, m.metadata)
  {
    assert forall i :: 0 <= i < |ms| ==> (TakesNote(ms[i], m) <==> NoteFits(ms[i], m));
    assert NoteTarget(ms, m) == Some(k);
  }

  predicate SameButNotes(after: Metadata, before: Metadata, noted: Metadata) {
    && after.userVisible == before.userVisible && after.agentVisible == before.agentVisible
    && after.turnContext == before.turnContext && after.rest == before.rest
    && after.inference == (if noted.inference.Some? then noted.inference else before.inference)
    && after.limitReached == (before.limitReached || noted.limitReached)
  }

  /** A note about no message is dropped, unless it says that the limit was reached: that one the user must see. */
  lemma NoteWithoutMessage(ms: seq<Message>, m: Message)
    requires m.content == [] && (m.metadata.inference.Some? || m.metadata.limitReached)
    requires forall i :: 0 <= i < |ms| ==> !TakesNote(ms[i], m)
    ensures !m.metadata.limitReached ==> Pushed(ms, m) == ms
    ensures m.metadata.limitReached ==>
              var after := Pushed(ms, m);
              && |after| == |ms| + 1 && Init(after) == ms && Last(after).id == m.id && Last(after).role == m.role
              && Last(after).content == [] && Last(after).metadata.userVisible && !Last(after).metadata.agentVisible
              && Last(after).metadata.inference == m.metadata.inference && Last(after).metadata.limitReached
  {
    assert forall i :: 0 <= i < |ms| ==> (TakesNote(ms[i], m) <==> NoteFits(ms[i], m));
    assert NoteTarget(ms, m) == None;
  }

  /** A message that goes on under the id of the last one joins it; any other stands behind it as it is. */
  lemma MessagesJoinById(ms: seq<Message>, m: Message)
    requires m.content != [] || (m.metadata.inference.None? && !m.metadata.limitReached)
    ensures var after := Pushed(ms, m);
            if ms != [] && m.id.Some? && Last(ms).id == m.id then
              && |after| == |ms| && Init(after) == Init(ms)
              && Last(after).id == Last(ms).id && Last(after).role == Last(ms).role
              && SameButNotes(Last(after).metadata, Last(ms).metadata, m.metadata)
            else after == ms + [m]
  {
  }

  /** What is collected is the first message with more content. */
  lemma {:induction false} CollectedIsFirst(items: seq<Item>)
    requires MessagesOf(items) != []
    ensures CollectedMessage(items).Some?
    ensures CollectedMessage(items).value.(content := []) == MessagesOf(items)[0].(content := [])
  {
    NothingCollected(Init(items));
    if MessagesOf(Init(items)) != [] {
      CollectedIsFirst(Init(items));
    }
  }

  ghost predicate UsageAt(items: seq<Item>, i: nat, u: Usage) {
    && i < |items| && items[i].Chunk? && items[i].usage == Some(u)
    && forall j :: i < j < |items| && items[j].Chunk? ==> items[j].usage == None
  }

  /** The usage that counts is the last one of the stream. */
  lemma {:induction false} LastUsageCounts(items: seq<Item>, u: Usage)
    ensures LastUsage(items) == Some(u) <==> exists i :: UsageAt(items, i, u)
  {
    if items != [] {
      var init, n := Init(items), |items| - 1;
      LastUsageCounts(init, u);
      if items[n].Chunk? && items[n].usage.Some? {
        assert UsageAt(items, n, u) <==> items[n].usage == Some(u);
        assert forall i :: UsageAt(items, i, u) ==> i == n;
      } else {
        forall i: nat ensures UsageAt(items, i, u) <==> UsageAt(init, i, u) {
          assert forall j :: 0 <= j < n ==> init[j] == items[j];
        }
      }
    }
  }
}
