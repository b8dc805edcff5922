/** Putting streamed deltas together: by pushing them onto a conversation, or by collecting them into one message. */
module Coalescing {
  import opened Wrappers
  import opened Sequences
  import opened Messages
  import opened CleanPasses

  // ----- joining one delta -----

  /** Thinking goes on while the block is unsigned or the delta carries its signature. */
  predicate ThinkingGoesOn(last: Block, b: Block) {
    last.Thinking? && b.Thinking? && (last.signature == "" || b.signature == last.signature)
  }

  function JoinThinking(last: Block, b: Block): Block
    requires ThinkingGoesOn(last, b)
  {
    Thinking(last.thinking + b.thinking, if b.signature != "" then b.signature else last.signature)
  }

  function Push1(content: seq<Block>, delta: seq<Block>): seq<Block> {
    if |delta| == 1 && content != [] && SameAudience(Last(content), delta[0]) then
      Init(content) + [Last(content).(text := Last(content).text + delta[0].text)]
    else if |delta| == 1 && content != [] && ThinkingGoesOn(Last(content), delta[0]) then
      Init(content) + [JoinThinking(Last(content), delta[0])]
    else content + delta
  }

  function Noted(existing: Message, m: Message): Message {
    existing.(metadata := existing.metadata.(
      inference := if m.metadata.inference.Some? then m.metadata.inference else existing.metadata.inference,
      limitReached := existing.metadata.limitReached || m.metadata.limitReached))
  }

  /** A message without content that only says something about the inference. */
  predicate IsNote(m: Message) {
    m.content == [] && (m.metadata.inference.Some? || m.metadata.limitReached)
  }

  predicate NoteFits(existing: Message, m: Message) {
    && existing.role == m.role && existing.metadata.userVisible
    && (!m.metadata.limitReached || (m.id.Some? && existing.id == m.id))
  }

  /** The last message that a note fits. */
  function NoteTarget(ms: seq<Message>, m: Message): (r: Option<nat>)
    ensures r.Some? ==> r.value < |ms| && NoteFits(ms[r.value], m)
    ensures forall i :: (if r.Some? then r.value + 1 else 0) <= i < |ms| ==> !NoteFits(ms[i], m)
  {
    if ms == [] then None
    else if NoteFits(Last(ms), m) then Some(|ms| - 1)
    else assert ms == Init(ms) + [Last(ms)]; NoteTarget(Init(ms), m)
  }

  function Pushed(ms: seq<Message>, m: Message): seq<Message> {
    if IsNote(m) then
      match NoteTarget(ms, m)
      case Some(k) => ms[k := Noted(ms[k], m)]
      case None =>
        if m.metadata.limitReached
        then ms + [m.(metadata := m.metadata.(userVisible := true, agentVisible := false))]
        else ms
    else if ms != [] && Last(ms).id.Some? && Last(ms).id == m.id then
      Init(ms) + [Noted(Last(ms), m).(content := Push1(Last(ms).content, m.content))]
    else ms + [m]
  }

  function PushedAll(ms: seq<Message>, deltas: seq<Message>): seq<Message> {
    if deltas == [] then ms else Pushed(PushedAll(ms, Init(deltas)), Last(deltas))
  }

  class Conversation {
    var messages: seq<Message>

    constructor ()
      ensures messages == []
    {
      messages := [];
    }

    method Push(message: Message)
      modifies this
      ensures messages == Pushed(old(messages), message)
    {
      var outputTokenLimitReached := message.metadata.limitReached;
      if message.content == [] && (message.metadata.inference.Some? || outputTokenLimitReached) {
        var target := NoteTarget(messages, message);
        if target.Some? {
          var existing := messages[target.value];
          if message.metadata.inference.Some? {
            existing := existing.(metadata := existing.metadata.(inference := message.metadata.inference));
          }
          existing := existing.(metadata := existing.metadata.(
            limitReached := existing.metadata.limitReached || outputTokenLimitReached));
          messages := messages[target.value := existing];
          return;
        }
        if outputTokenLimitReached {
          messages := messages + [message.(metadata := message.metadata.(userVisible := true, agentVisible := false))];
        }
        return;
      }
      if messages != [] && Last(messages).id.Some? && Last(messages).id == message.id {
        var last := Noted(Last(messages), message);
        if last.content != [] && |message.content| == 1 {
          var block, delta := Last(last.content), message.content[0];
          if block.Text? && delta.Text? && block.audience == delta.audience {
            block := block.(text := block.text + delta.text);
            messages := Init(messages) + [last.(content := Init(last.content) + [block])];
            return;
          }
          if block.Thinking? && delta.Thinking? && (block.signature == "" || delta.signature == block.signature) {
            block := block.(thinking := block.thinking + delta.thinking);
            if delta.signature != "" {
              block := block.(signature := delta.signature);
            }
            messages := Init(messages) + [last.(content := Init(last.content) + [block])];
            return;
          }
        }
        messages := Init(messages) + [last.(content := last.content + message.content)];
      } else {
        messages := messages + [message];
      }
    }

    method ExtendWith(deltas: seq<Message>)
      modifies this
      ensures messages == PushedAll(old(messages), deltas)
    {
      for i := 0 to |deltas|
        invariant messages == PushedAll(old(messages), deltas[..i])
      {
        TakeNext(deltas, i);
        Push(deltas[i]);
      }
      assert deltas[..|deltas|] == deltas;
    }
  }

  // ----- collecting a stream -----

  type Usage = string

  datatype Item = Chunk(message: Option<Message>, usage: Option<Usage>) | Broken(error: string)

  function Collect1(content: seq<Block>, b: Block, single: bool): seq<Block> {
    if content != [] && SameAudience(Last(content), b) then
      Init(content) + [Last(content).(text := Last(content).text + b.text)]
    else if content != [] && single && ThinkingGoesOn(Last(content), b) then
      Init(content) + [JoinThinking(Last(content), b)]
    else content + [b]
  }

  function CollectBlocks(content: seq<Block>, delta: seq<Block>, single: bool): seq<Block> {
    if delta == [] then content else Collect1(CollectBlocks(content, Init(delta), single), Last(delta), single)
  }

  function Merge1(prev: Option<Message>, m: Message): Message {
    match prev
    case None => m
    case Some(p) => p.(content := CollectBlocks(p.content, m.content, |m.content| == 1))
  }

  function CollectedMessage(items: seq<Item>): Option<Message> {
    if items == [] then None
    else
      var prev := CollectedMessage(Init(items));
      var item := Last(items);
      if item.Chunk? && item.message.Some? then Some(Merge1(prev, item.message.value)) else prev
  }

  function LastUsage(items: seq<Item>): Option<Usage> {
    if items == [] then None
    else if Last(items).Chunk? && Last(items).usage.Some? then Last(items).usage
    else LastUsage(Init(items))
  }

  const NO_MESSAGE := "Stream yielded no message"
  const UNKNOWN_USAGE: Usage := "unknown"
  const EMPTY_REPLY := Message(None, Assistant, [], DEFAULT_METADATA)

  predicate Unbroken(items: seq<Item>) {
    forall i :: 0 <= i < |items| ==> items[i].Chunk?
  }

  method CollectStream(items: seq<Item>) returns (r: Result<(Message, Usage), string>)
    ensures Unbroken(items) ==>
              match (CollectedMessage(items), LastUsage(items))
              case (Some(m), Some(u)) => r == Ok((m, u))
              case (Some(m), None) => r == Ok((m, UNKNOWN_USAGE))
              case (None, Some(u)) => r == Ok((EMPTY_REPLY, u))
              case (None, None) => r == Err(NO_MESSAGE)
    ensures !Unbroken(items) ==>
              exists i :: 0 <= i < |items| && Unbroken(items[..i]) && items[i].Broken? && r == Err(items[i].error)
  {
    var finalMessage: Option<Message> := None;
    var finalUsage: Option<Usage> := None;
    for i := 0 to |items|
      invariant Unbroken(items[..i])
      invariant finalMessage == CollectedMessage(items[..i]) && finalUsage == LastUsage(items[..i])
    {
      TakeNext(items, i);
      match items[i] {
        case Broken(error) =>
          return Err(error);
        case Chunk(message, usage) =>
          if message.Some? {
            if finalMessage.None? {
              finalMessage := message;
            } else {
              var content := CollectDelta(finalMessage.value.content, message.value.content);
              finalMessage := Some(finalMessage.value.(content := content));
            }
          }
          if usage.Some? {
            finalUsage := usage;
          }
      }
    }
    assert items[..|items|] == items;
    match (finalMessage, finalUsage) {
      case (Some(m), Some(u)) => r := Ok((m, u));
      case (Some(m), None) => r := Ok((m, UNKNOWN_USAGE));
      case (None, Some(u)) => r := Ok((EMPTY_REPLY, u));
      case (None, None) => r := Err(NO_MESSAGE);
    }
  }

  method CollectDelta(content: seq<Block>, delta: seq<Block>) returns (collected: seq<Block>)
    ensures collected == CollectBlocks(content, delta, |delta| == 1)
  {
    collected := content;
    for i := 0 to |delta|
      invariant collected == CollectBlocks(content, delta[..i], |delta| == 1)
    {
      TakeNext(delta, i);
      var b := delta[i];
      if collected != [] && Last(collected).Text? && b.Text? && Last(collected).audience == b.audience {
        var last := Last(collected);
        collected := Init(collected) + [last.(text := last.text + b.text)];
      } else if collected != [] && Last(collected).Thinking? && b.Thinking? && |delta| == 1
                && (Last(collected).signature == "" || b.signature == Last(collected).signature) {
        var last := Last(collected);
        last := last.(thinking := last.thinking + b.thinking);
        if b.signature != "" {
          last := last.(signature := b.signature);
        }
        collected := Init(collected) + [last];
      } else {
        collected := collected + [b];
      }
    }
    assert delta[..|delta|] == delta;
  }

  // ----- the two agree on single blocks -----

  predicate SingleBlocks(deltas: seq<Message>, id: string) {
    forall i :: 0 <= i < |deltas| ==> |deltas[i].content| == 1 && deltas[i].id == Some(id)
  }

  function Chunks(deltas: seq<Message>): seq<Item> {
    seq(|deltas|, i requires 0 <= i < |deltas| => Chunk(Some(deltas[i]), None))
  }

  lemma OneBlockAgrees(content: seq<Block>, delta: seq<Block>)
    requires |delta| == 1
    ensures CollectBlocks(content, delta, true) == Push1(content, delta)
  {
    assert Init(delta) == [] && CollectBlocks(content, [], true) == content && delta == [delta[0]];
  }

  lemma ChunksNext(deltas: seq<Message>)
    requires deltas != []
    ensures Init(Chunks(deltas)) == Chunks(Init(deltas)) && Last(Chunks(deltas)) == Chunk(Some(Last(deltas)), None)
  {
  }

  lemma CollectedNext(deltas: seq<Message>)
    requires deltas != []
    ensures CollectedMessage(Chunks(deltas)) == Some(Merge1(CollectedMessage(Chunks(Init(deltas))), Last(deltas)))
  {
    ChunksNext(deltas);
  }

  /** One more delta for the message that a conversation ends in. */
  lemma PushOntoLast(ms: seq<Message>, m: Message, id: string)
    requires ms != [] && Last(ms).id == Some(id) == m.id && |m.content| == 1
    ensures var pushed := Pushed(ms, m);
            && |pushed| == |ms| && Init(pushed) == Init(ms) && Last(pushed).id == Some(id)
            && Last(pushed).content == Push1(Last(ms).content, m.content)
  {
  }

  /** Onto a conversation that ends in another message, deltas of one id become one message, the collected one. */
  lemma {:induction false} CoalescersAgree(ms: seq<Message>, deltas: seq<Message>, id: string)
    requires deltas != [] && SingleBlocks(deltas, id) && (ms != [] ==> Last(ms).id != Some(id))
    ensures CollectedMessage(Chunks(deltas)).Some?
    ensures var pushed := PushedAll(ms, deltas);
            && |pushed| == |ms| + 1 && Init(pushed) == ms && Last(pushed).id == Some(id)
            && Last(pushed).content == CollectedMessage(Chunks(deltas)).value.content
  {
    var init, m := Init(deltas), Last(deltas);
    CollectedNext(deltas);
    if init == [] {
      assert PushedAll(ms, init) == ms && CollectedMessage(Chunks(init)) == None;
    } else {
      assert forall i :: 0 <= i < |init| ==> init[i] == deltas[i];
      CoalescersAgree(ms, init, id);
      PushOntoLast(PushedAll(ms, init), m, id);
      OneBlockAgrees(CollectedMessage(Chunks(init)).value.content, m.content);
    }
  }

  /** No two texts that collecting would join across or inside a delta. */
  predicate NoTextJoins(content: seq<Block>, delta: seq<Block>) {
    Apart(delta) && (content != [] && delta != [] ==> !SameAudience(Last(content), delta[0]))
  }

  lemma {:induction false} CollectLength(content: seq<Block>, delta: seq<Block>)
    ensures |CollectBlocks(content, delta, false)| <= |content| + |delta|
    ensures |CollectBlocks(content, delta, false)| == |content| + |delta| <==> NoTextJoins(content, delta)
    ensures NoTextJoins(content, delta) ==> CollectBlocks(content, delta, false) == content + delta
  {
    if delta == [] {
      assert content + delta == content;
    } else {
      var init, b := Init(delta), Last(delta);
      CollectLength(content, init);
      SplitLast(delta);
      Assoc(content, init, [b]);
      if init != [] {
        assert Last(init) == delta[|delta| - 2] && init[0] == delta[0];
        assert Apart(delta) <==> Apart(init) && !SameAudience(Last(init), b);
      }
    }
  }

  /** For longer deltas the two agree exactly if there is no text to join: only collecting joins those. */
  lemma CoalescersAgreeIff(content: seq<Block>, delta: seq<Block>)
    ensures CollectBlocks(content, delta, |delta| == 1) == Push1(content, delta)
            <==> |delta| == 1 || NoTextJoins(content, delta)
  {
    if |delta| == 1 {
      OneBlockAgrees(content, delta);
    } else {
      CollectLength(content, delta);
    }
  }

  // ----- nothing is lost -----

  /**
   What a message or a conversation says, piece by piece and in order: every character of text with
   its audience, every character of thinking, and every other block.
   */
  datatype Piece = Letter(c: char, audience: Option<seq<Role>>) | Thought(c: char) | Whole(block: Block)

  function Letters(text: string, audience: Option<seq<Role>>): seq<Piece> {
    seq(|text|, i requires 0 <= i < |text| => Letter(text[i], audience))
  }

  function Thoughts(text: string): seq<Piece> {
    seq(|text|, i requires 0 <= i < |text| => Thought(text[i]))
  }

  function SaidBy(b: Block): seq<Piece> {
    match b
    case Text(text, audience) => Letters(text, audience)
    case Thinking(thinking, _) => Thoughts(thinking)
    case _ => [Whole(b)]
  }

  function SaidIn(content: seq<Block>): seq<Piece> {
    if content == [] then [] else SaidIn(Init(content)) + SaidBy(Last(content))
  }

  function SaidInAll(ms: seq<Message>): seq<Piece> {
    if ms == [] then [] else SaidInAll(Init(ms)) + SaidIn(Last(ms).content)
  }

  lemma LastBlock(init: seq<Block>, b: Block)
    ensures SaidIn(init + [b]) == SaidIn(init) + SaidBy(b)
  {
    assert Init(init + [b]) == init;
  }

  lemma OneBlock(b: Block)
    ensures SaidIn([b]) == SaidBy(b)
  {
    LastBlock([], b);
    assert [] + [b] == [b];
    WithEmpty(SaidBy(b));
  }

  lemma {:induction false} SaidInConcat(a: seq<Block>, b: seq<Block>)
    ensures SaidIn(a + b) == SaidIn(a) + SaidIn(b)
  {
    if b == [] {
      assert a + b == a;
      WithEmpty(SaidIn(a));
    } else {
      InitOfConcat(a, b);
      SaidInConcat(a, Init(b));
      Assoc(SaidIn(a), SaidIn(Init(b)), SaidBy(Last(b)));
    }
  }

  /** A block that goes on says what both said. */
  lemma JoinedSays(last: Block, b: Block)
    requires SameAudience(last, b) || ThinkingGoesOn(last, b)
    ensures SameAudience(last, b) ==> SaidBy(last.(text := last.text + b.text)) == SaidBy(last) + SaidBy(b)
    ensures ThinkingGoesOn(last, b) ==> SaidBy(JoinThinking(last, b)) == SaidBy(last) + SaidBy(b)
  {
  }

  lemma GrownLast(init: seq<Block>, last: Block, grown: Block, b: Block)
    requires SaidBy(grown) == SaidBy(last) + SaidBy(b)
    ensures SaidIn(init + [grown]) == SaidIn(init + [last]) + SaidIn([b])
  {
    OneBlock(b);
    LastBlock(init, last);
    LastBlock(init, grown);
    Assoc(SaidIn(init), SaidBy(last), SaidBy(b));
  }

  /** What is pushed arrives, in order, and nothing else. */
  lemma Push1Conserves(content: seq<Block>, delta: seq<Block>)
    ensures SaidIn(Push1(content, delta)) == SaidIn(content) + SaidIn(delta)
  {
    if |delta| == 1 && content != [] && SameAudience(Last(content), delta[0]) {
      SplitLast(content);
      assert delta == [delta[0]];
      JoinedSays(Last(content), delta[0]);
      GrownLast(Init(content), Last(content), Last(content).(text := Last(content).text + delta[0].text), delta[0]);
    } else if |delta| == 1 && content != [] && ThinkingGoesOn(Last(content), delta[0]) {
      SplitLast(content);
      assert delta == [delta[0]];
      JoinedSays(Last(content), delta[0]);
      GrownLast(Init(content), Last(content), JoinThinking(Last(content), delta[0]), delta[0]);
    } else {
      SaidInConcat(content, delta);
    }
  }

  lemma {:induction false} SameContents(a: seq<Message>, b: seq<Message>)
    requires |a| == |b| && forall i :: 0 <= i < |a| ==> a[i].content == b[i].content
    ensures SaidInAll(a) == SaidInAll(b)
  {
    if a != [] {
      SameContents(Init(a), Init(b));
    }
  }

  lemma LastMessage(init: seq<Message>, m: Message)
    ensures SaidInAll(init + [m]) == SaidInAll(init) + SaidIn(m.content)
  {
    assert Init(init + [m]) == init;
  }

  lemma NoteConserves(ms: seq<Message>, m: Message)
    requires IsNote(m)
    ensures SaidInAll(Pushed(ms, m)) == SaidInAll(ms)
  {
    var after := Pushed(ms, m);
    if NoteTarget(ms, m).Some? {
      SameContents(ms, after);
    } else if m.metadata.limitReached {
      LastMessage(ms, m.(metadata := m.metadata.(userVisible := true, agentVisible := false)));
      WithEmpty(SaidInAll(ms));
    }
  }

  lemma DeltaConserves(init: seq<Message>, last: Message, grown: Message, delta: seq<Block>)
    requires grown.content == Push1(last.content, delta)
    ensures SaidInAll(init + [grown]) == SaidInAll(init + [last]) + SaidIn(delta)
  {
    LastMessage(init, last);
    LastMessage(init, grown);
    Push1Conserves(last.content, delta);
    Assoc(SaidInAll(init), SaidIn(last.content), SaidIn(delta));
  }

  /** Pushing any message onto any conversation adds what it says at the end, and nothing else. */
  lemma PushConserves(ms: seq<Message>, m: Message)
    ensures SaidInAll(Pushed(ms, m)) == SaidInAll(ms) + SaidIn(m.content)
  {
    if IsNote(m) {
      NoteConserves(ms, m);
      WithEmpty(SaidInAll(ms));
    } else if ms != [] && Last(ms).id.Some? && Last(ms).id == m.id {
      SplitLast(ms);
      DeltaConserves(Init(ms), Last(ms), Last(Pushed(ms, m)), m.content);
    } else {
      LastMessage(ms, m);
    }
  }

  lemma {:induction false} StreamConserves(ms: seq<Message>, deltas: seq<Message>)
    ensures SaidInAll(PushedAll(ms, deltas)) == SaidInAll(ms) + SaidInAll(deltas)
  {
    if deltas == [] {
      WithEmpty(SaidInAll(ms));
    } else {
      var init, m := Init(deltas), Last(deltas);
      StreamConserves(ms, init);
      PushConserves(PushedAll(ms, init), m);
      Assoc(SaidInAll(ms), SaidInAll(init), SaidIn(m.content));
    }
  }

  /** Collecting conserves in the same way, for deltas of any length. */
  lemma Collect1Conserves(content: seq<Block>, b: Block, single: bool)
    ensures SaidIn(Collect1(content, b, single)) == SaidIn(content) + SaidBy(b)
  {
    if content != [] && (SameAudience(Last(content), b) || (single && ThinkingGoesOn(Last(content), b))) {
      SplitLast(content);
      OneBlock(b);
      JoinedSays(Last(content), b);
      GrownLast(Init(content), Last(content), Last(Collect1(content, b, single)), b);
    } else {
      LastBlock(content, b);
    }
  }

  lemma {:induction false} CollectConserves(content: seq<Block>, delta: seq<Block>, single: bool)
    ensures SaidIn(CollectBlocks(content, delta, single)) == SaidIn(content) + SaidIn(delta)
  {
    if delta == [] {
      WithEmpty(SaidIn(content));
    } else {
      CollectConserves(content, Init(delta), single);
      Collect1Conserves(CollectBlocks(content, Init(delta), single), Last(delta), single);
      Assoc(SaidIn(content), SaidIn(Init(delta)), SaidBy(Last(delta)));
    }
  }

  /** The messages that a stream carries. */
  function MessagesOf(items: seq<Item>): seq<Message> {
    if items == [] then []
    else MessagesOf(Init(items))
         + if Last(items).Chunk? && Last(items).message.Some? then [Last(items).message.value] else []
  }

  function SaidInSome(m: Option<Message>): seq<Piece> {
    match m case Some(x) => SaidIn(x.content) case None => []
  }

  lemma Merge1Conserves(prev: Option<Message>, m: Message)
    ensures SaidIn(Merge1(prev, m).content) == SaidInSome(prev) + SaidIn(m.content)
  {
    if prev.None? {
      WithEmpty(SaidIn(m.content));
    } else {
      CollectConserves(prev.value.content, m.content, |m.content| == 1);
    }
  }

  lemma {:induction false} CollectedSays(items: seq<Item>)
    ensures SaidInSome(CollectedMessage(items)) == SaidInAll(MessagesOf(items))
  {
    if items != [] {
      var init, item := Init(items), Last(items);
      CollectedSays(init);
      if item.Chunk? && item.message.Some? {
        LastMessage(MessagesOf(init), item.message.value);
        Merge1Conserves(CollectedMessage(init), item.message.value);
      } else {
        WithEmpty(MessagesOf(init));
      }
    }
  }

  lemma {:induction false} NothingCollected(items: seq<Item>)
    ensures CollectedMessage(items).None? <==> MessagesOf(items) == []
  {
    if items != [] {
      NothingCollected(Init(items));
    }
  }

  /** A whole stream is collected without loss: what the message says is what its chunks say, in order. */
  lemma CollectedConserves(items: seq<Item>)
    ensures CollectedMessage(items).None? <==> MessagesOf(items) == []
    ensures CollectedMessage(items).Some? ==>
              SaidIn(CollectedMessage(items).value.content) == SaidInAll(MessagesOf(items))
  {
    NothingCollected(items);
    CollectedSays(items);
  }

  // ----- signatures -----

  predicate IsSigned(b: Block) {
    b.Thinking? && b.signature != ""
  }

  /** A delta of one thinking block with the signature of b. */
  predicate Continues(delta: seq<Block>, b: Block) {
    b.Thinking? && |delta| == 1 && delta[0].Thinking? && delta[0].signature == b.signature
  }

  /** The block is as before, or it has grown by a delta with its own signature. */
  predicate GrewByItsOwn(after: Block, before: Block, delta: seq<Block>) {
    after == before
    || (Continues(delta, before) && after == Thinking(before.thinking + delta[0].thinking, before.signature))
  }

  lemma SignedGrowsByItsOwn(content: seq<Block>, delta: seq<Block>, k: nat)
    requires k < |content| && IsSigned(content[k])
    ensures k < |Push1(content, delta)| && GrewByItsOwn(Push1(content, delta)[k], content[k], delta)
  {
  }

  predicate SignedAt(ms: seq<Message>, i: nat, k: nat) {
    i < |ms| && k < |ms[i].content| && IsSigned(ms[i].content[k])
  }

  /** Whatever is pushed onto a conversation, a signed block changes only by a delta with its own signature. */
  lemma PushKeepsSigned(ms: seq<Message>, m: Message, i: nat, k: nat)
    requires SignedAt(ms, i, k)
    ensures SignedAt(Pushed(ms, m), i, k) && GrewByItsOwn(Pushed(ms, m)[i].content[k], ms[i].content[k], m.content)
  {
    if i == |ms| - 1 {
      SignedGrowsByItsOwn(ms[i].content, m.content, k);
    }
  }

  /** Through a whole stream of pushes a signed block keeps its signature, and what it said stays at its front. */
  lemma {:induction false} SignedStays(ms: seq<Message>, deltas: seq<Message>, i: nat, k: nat)
    requires SignedAt(ms, i, k)
    ensures SignedAt(PushedAll(ms, deltas), i, k)
    ensures var before, after := ms[i].content[k], PushedAll(ms, deltas)[i].content[k];
            after.signature == before.signature && before.thinking <= after.thinking
  {
    if deltas != [] {
      SignedStays(ms, Init(deltas), i, k);
      PushKeepsSigned(PushedAll(ms, Init(deltas)), Last(deltas), i, k);
    }
  }

  /** Pushes without deltas of its signature leave it exactly as it is. */
  lemma {:induction false} SignedUntouched(ms: seq<Message>, deltas: seq<Message>, i: nat, k: nat)
    requires SignedAt(ms, i, k)
    requires forall j :: 0 <= j < |deltas| ==> !Continues(deltas[j].content, ms[i].content[k])
    ensures SignedAt(PushedAll(ms, deltas), i, k) && PushedAll(ms, deltas)[i].content[k] == ms[i].content[k]
  {
    if deltas != [] {
      var init := Init(deltas);
      assert forall j :: 0 <= j < |init| ==> init[j] == deltas[j];
      SignedUntouched(ms, init, i, k);
      PushKeepsSigned(PushedAll(ms, init), Last(deltas), i, k);
    }
  }

  /** Collecting treats signed blocks alike. */
  lemma {:induction false} CollectKeepsSigned(content: seq<Block>, delta: seq<Block>, k: nat)
    requires k < |content| && IsSigned(content[k])
    ensures var collected := CollectBlocks(content, delta, |delta| == 1);
            k < |collected| && GrewByItsOwn(collected[k], content[k], delta)
  {
    if |delta| == 1 {
      OneBlockAgrees(content, delta);
      SignedGrowsByItsOwn(content, delta, k);
    } else {
      CollectManyKeepsSigned(content, delta, k);
    }
  }

  lemma {:induction false} CollectManyKeepsSigned(content: seq<Block>, delta: seq<Block>, k: nat)
    requires k < |content| && IsSigned(content[k])
    ensures k < |CollectBlocks(content, delta, false)| && CollectBlocks(content, delta, false)[k] == content[k]
  {
    if delta != [] {
      CollectManyKeepsSigned(content, Init(delta), k);
    }
  }

  /** What a stream has collected so far: a signed block keeps its signature and what it said, whatever follows. */
  lemma {:induction false} CollectedSignedStays(items: seq<Item>, more: seq<Item>, k: nat)
    requires CollectedMessage(items).Some? && k < |CollectedMessage(items).value.content|
    requires IsSigned(CollectedMessage(items).value.content[k])
    ensures CollectedMessage(items + more).Some? && k < |CollectedMessage(items + more).value.content|
    ensures var before := CollectedMessage(items).value.content[k];
            var after := CollectedMessage(items + more).value.content[k];
            && IsSigned(after) && after.signature == before.signature && before.thinking <= after.thinking
            && ((forall m :: m in MessagesOf(more) ==> !Continues(m.content, before)) ==> after == before)
  {
    if more == [] {
      assert items + more == items;
    } else {
      var init, item := Init(more), Last(more);
      InitOfConcat(items, more);
      CollectedSignedStays(items, init, k);
      if item.Chunk? && item.message.Some? {
        CollectKeepsSigned(CollectedMessage(items + init).value.content, item.message.value.content, k);
        assert item.message.value in MessagesOf(more);
      }
    }
  }
}
