/** What repair does to signed thinking, told by the kinds of blocks: how often each block occurs before and after. */
module SignedCopies {
  import opened Sequences
  import opened Messages
  import opened CleanPasses
  import opened SignedThinking
  import opened Normalizer

  /** How often a block occurs in a content, and in the messages of a role. */
  function CopiesIn(content: seq<Block>, b: Block): nat {
    if content == [] then 0 else CopiesIn(Init(content), b) + if Last(content) == b then 1 else 0
  }

  function CopiesOf(m: Message, role: Role, b: Block): nat {
    if m.role == role then CopiesIn(m.content, b) else 0
  }

  function Copies(ms: seq<Message>, role: Role, b: Block): nat {
    if ms == [] then 0 else Copies(Init(ms), role, b) + CopiesOf(Last(ms), role, b)
  }

  function AtMostOne(n: nat): nat {
    if n > 1 then 1 else n
  }

  lemma NextBlock(content: seq<Block>, x: Block, b: Block)
    ensures CopiesIn(content + [x], b) == CopiesIn(content, b) + if x == b then 1 else 0
  {
    assert Init(content + [x]) == content;
  }

  lemma NextMessage(ms: seq<Message>, m: Message, role: Role, b: Block)
    ensures Copies(ms + [m], role, b) == Copies(ms, role, b) + CopiesOf(m, role, b)
  {
    assert Init(ms + [m]) == ms;
  }

  // ----- one message -----

  lemma SignedStep(content: seq<Block>, seen: seq<Block>, b: Block)
    requires content != [] && Signed(b)
    ensures var d0, d := DedupeIn(Init(content), seen), DedupeIn(content, seen);
            && CopiesIn(d.content, b) ==
               CopiesIn(d0.content, b) + (if Last(content) == b && b !in d0.seen then 1 else 0)
            && (b in d.seen <==> b in d0.seen || Last(content) == b)
  {
    NextBlock(DedupeIn(Init(content), seen).content, Last(content), b);
  }

  /** One copy of what was not seen before stays; what was seen goes. */
  lemma {:induction false} SignedInCopies(content: seq<Block>, seen: seq<Block>, b: Block)
    requires Signed(b)
    ensures CopiesIn(DedupeIn(content, seen).content, b) == if b in seen then 0 else AtMostOne(CopiesIn(content, b))
    ensures b in DedupeIn(content, seen).seen <==> b in seen || CopiesIn(content, b) > 0
  {
    if content != [] {
      SignedInCopies(Init(content), seen, b);
      SignedStep(content, seen, b);
    }
  }

  lemma {:induction false} UnsignedInCopies(content: seq<Block>, seen: seq<Block>, b: Block)
    requires !Signed(b)
    ensures CopiesIn(DedupeIn(content, seen).content, b) == CopiesIn(content, b)
  {
    if content != [] {
      UnsignedInCopies(Init(content), seen, b);
      NextBlock(DedupeIn(Init(content), seen).content, Last(content), b);
    }
  }

  // ----- all messages -----

  function KeptOf(m: Message, seen: seq<Block>): Message {
    if m.role != Assistant then m else m.(content := DedupeIn(m.content, seen).content)
  }

  lemma LastKept(ms: seq<Message>, role: Role, b: Block)
    requires ms != []
    ensures var r := DedupeAll(Init(ms));
            Copies(DedupeAll(ms).messages, role, b)
            == Copies(r.messages, role, b) + CopiesOf(KeptOf(Last(ms), r.seen), role, b)
  {
    var r := DedupeAll(Init(ms));
    assert DedupeAll(ms).messages == r.messages + [KeptOf(Last(ms), r.seen)];
    NextMessage(r.messages, KeptOf(Last(ms), r.seen), role, b);
  }

  lemma SignedKept(m: Message, seen: seq<Block>, b: Block)
    requires Signed(b)
    ensures CopiesOf(KeptOf(m, seen), Assistant, b)
         == if b in seen then 0 else AtMostOne(CopiesOf(m, Assistant, b))
  {
    SignedInCopies(m.content, seen, b);
  }

  lemma SeenNext(ms: seq<Message>, b: Block)
    requires ms != [] && Signed(b)
    ensures b in DedupeAll(ms).seen <==> b in DedupeAll(Init(ms)).seen || CopiesOf(Last(ms), Assistant, b) > 0
  {
    SignedInCopies(Last(ms).content, DedupeAll(Init(ms)).seen, b);
  }

  lemma {:induction false} SignedAllCopies(ms: seq<Message>, b: Block)
    requires Signed(b)
    ensures Copies(DedupeAll(ms).messages, Assistant, b) == AtMostOne(Copies(ms, Assistant, b))
    ensures b in DedupeAll(ms).seen <==> Copies(ms, Assistant, b) > 0
  {
    if ms != [] {
      SignedAllCopies(Init(ms), b);
      SignedKept(Last(ms), DedupeAll(Init(ms)).seen, b);
      SeenNext(ms, b);
      LastKept(ms, Assistant, b);
    }
  }

  lemma UnsignedKept(m: Message, seen: seq<Block>, b: Block)
    requires !Signed(b)
    ensures CopiesOf(KeptOf(m, seen), Assistant, b) == CopiesOf(m, Assistant, b)
  {
    UnsignedInCopies(m.content, seen, b);
  }

  lemma {:induction false} UnsignedAllCopies(ms: seq<Message>, b: Block)
    requires !Signed(b)
    ensures Copies(DedupeAll(ms).messages, Assistant, b) == Copies(ms, Assistant, b)
  {
    if ms != [] {
      UnsignedAllCopies(Init(ms), b);
      UnsignedKept(Last(ms), DedupeAll(Init(ms)).seen, b);
      LastKept(ms, Assistant, b);
    }
  }

  lemma {:induction false} UserCopies(ms: seq<Message>, b: Block)
    ensures Copies(DedupeAll(ms).messages, User, b) == Copies(ms, User, b)
  {
    if ms != [] {
      UserCopies(Init(ms), b);
      LastKept(ms, User, b);
    }
  }

  /** Of a thinking block with a signature the assistant messages keep one copy, if they have any. */
  lemma SignedKeptOnce(ms: seq<Message>, thinking: string, signature: string)
    requires signature != ""
    ensures var b := Thinking(thinking, signature);
            Copies(DedupeSignedThinking(ms).messages, Assistant, b) == AtMostOne(Copies(ms, Assistant, b))
  {
    SignedAllCopies(ms, Thinking(thinking, signature));
  }

  /** So they do of a redacted one. */
  lemma RedactedKeptOnce(ms: seq<Message>, data: string)
    ensures var b := RedactedThinking(data);
            Copies(DedupeSignedThinking(ms).messages, Assistant, b) == AtMostOne(Copies(ms, Assistant, b))
  {
    SignedAllCopies(ms, RedactedThinking(data));
  }

  /** Of every other block, thinking without a signature among them, all copies stay, and user messages keep all. */
  lemma OthersKept(ms: seq<Message>, b: Block)
    ensures !(b.Thinking? && b.signature != "") && !b.RedactedThinking? ==>
              Copies(DedupeSignedThinking(ms).messages, Assistant, b) == Copies(ms, Assistant, b)
    ensures Copies(DedupeSignedThinking(ms).messages, User, b) == Copies(ms, User, b)
  {
    if !Signed(b) {
      UnsignedAllCopies(ms, b);
    }
    UserCopies(ms, b);
  }

  // ----- the whole repair -----

  lemma {:induction false} CopiesConcat(a: seq<Message>, b: seq<Message>, role: Role, x: Block)
    ensures Copies(a + b, role, x) == Copies(a, role, x) + Copies(b, role, x)
  {
    if b == [] {
      assert a + b == a;
    } else {
      InitOfConcat(a, b);
      CopiesConcat(a, Init(b), role, x);
    }
  }

  lemma EndsCopyNothing(ms: seq<Message>, b: Block)
    ensures Copies(FixLeadTrail(ms).messages, Assistant, b) <= Copies(ms, Assistant, b)
  {
    var lead := FixLead(ms).messages;
    if ms != [] {
      assert ms == [ms[0]] + ms[1..];
      CopiesConcat([ms[0]], ms[1..], Assistant, b);
    }
    if lead != [] {
      SplitLast(lead);
      NextMessage(Init(lead), Last(lead), Assistant, b);
    }
  }

  lemma PlaceholderHasNone(b: Block)
    ensures Copies([PLACEHOLDER], Assistant, b) == 0
  {
    assert [PLACEHOLDER] == [] + [PLACEHOLDER];
    NextMessage([], PLACEHOLDER, Assistant, b);
  }

  lemma RepairedCopies(ms: seq<Message>, b: Block)
    requires Signed(b)
    ensures Copies(FixMessages(ms).messages, Assistant, b) <= 1
  {
    var merged := MergeAll(ms).messages;
    SignedAllCopies(merged, b);
    EndsCopyNothing(DedupeAll(merged).messages, b);
    PlaceholderHasNone(b);
  }

  /** A repaired conversation replays no signed thinking: whatever came in, each block of it occurs at most once. */
  lemma NoSignedReplay(ms: seq<Message>, thinking: string, signature: string, data: string)
    requires signature != ""
    ensures Copies(FixMessages(ms).messages, Assistant, Thinking(thinking, signature)) <= 1
    ensures Copies(FixMessages(ms).messages, Assistant, RedactedThinking(data)) <= 1
  {
    RepairedCopies(ms, Thinking(thinking, signature));
    RepairedCopies(ms, RedactedThinking(data));
  }
}
