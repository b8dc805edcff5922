/** What removing repeated signed thinking leaves of one content, told from the content itself. */
module DedupedContent {
  import opened Sequences
  import opened Messages
  import opened CleanPasses
  import opened SignedThinking

  /** A signed block that was seen before the content, or earlier in it. */
  predicate Repeated(content: seq<Block>, seen: seq<Block>, k: nat)
    requires k < |content|
  {
    Signed(content[k]) && (content[k] in seen || content[k] in content[..k])
  }

  lemma {:induction false} SignedMember(content: seq<Block>, b: Block)
    requires Signed(b)
    ensures b in SignedIn(content) <==> b in content
  {
    if content != [] {
      SignedMember(Init(content), b);
      SplitLast(content);
    }
  }

  lemma RepeatedBefore(content: seq<Block>, seen: seq<Block>, k: nat)
    requires k + 1 < |content|
    ensures Repeated(content, seen, k) <==> Repeated(Init(content), seen, k)
  {
    assert Init(content)[..k] == content[..k];
  }

  /** The next block is kept unless it is a repetition. */
  lemma DedupeNext(content: seq<Block>, seen: seq<Block>)
    requires content != []
    ensures DedupeIn(content, seen).content
            == DedupeIn(Init(content), seen).content
               + if Repeated(content, seen, |content| - 1) then [] else [Last(content)]
  {
    var init, b := Init(content), Last(content);
    assert content[..|content| - 1] == init;
    if Signed(b) {
      DedupeInKeeps(init, seen);
      SignedMember(init, b);
    }
  }

  /** Only repetitions follow. */
  ghost predicate LastKept(content: seq<Block>, seen: seq<Block>, a: nat) {
    && a < |content| && !Repeated(content, seen, a)
    && forall k :: a < k < |content| ==> Repeated(content, seen, k)
  }

  ghost predicate NothingKept(content: seq<Block>, seen: seq<Block>) {
    forall k :: 0 <= k < |content| ==> Repeated(content, seen, k)
  }

  lemma LastKeptNext(content: seq<Block>, seen: seq<Block>, a: nat)
    requires content != [] && Repeated(content, seen, |content| - 1)
    ensures LastKept(content, seen, a) <==> LastKept(Init(content), seen, a)
  {
    forall k | 0 <= k < |content| - 1 ensures Repeated(content, seen, k) <==> Repeated(Init(content), seen, k) {
      RepeatedBefore(content, seen, k);
    }
  }

  lemma NothingKeptNext(content: seq<Block>, seen: seq<Block>)
    requires content != []
    ensures NothingKept(content, seen) <==> NothingKept(Init(content), seen) && Repeated(content, seen, |content| - 1)
  {
    forall k | 0 <= k < |content| - 1 ensures Repeated(content, seen, k) <==> Repeated(Init(content), seen, k) {
      RepeatedBefore(content, seen, k);
    }
  }

  /** The last block that remains is the last one that is not a repetition. */
  lemma {:induction false} FindLastKept(content: seq<Block>, seen: seq<Block>) returns (a: nat)
    ensures DedupeIn(content, seen).content == [] <==> NothingKept(content, seen)
    ensures DedupeIn(content, seen).content != [] ==>
              LastKept(content, seen, a) && Last(DedupeIn(content, seen).content) == content[a]
  {
    a := 0;
    if content != [] {
      DedupeNext(content, seen);
      NothingKeptNext(content, seen);
      if Repeated(content, seen, |content| - 1) {
        WithEmpty(DedupeIn(Init(content), seen).content);
        a := FindLastKept(Init(content), seen);
        LastKeptNext(content, seen, a);
      } else {
        a := |content| - 1;
      }
    }
  }

  lemma LastKeptIsOne(content: seq<Block>, seen: seq<Block>, a: nat, b: nat)
    requires LastKept(content, seen, a) && LastKept(content, seen, b)
    ensures a == b
  {
  }

  // ----- texts that meet -----

  /** Two texts for the same audience with nothing but repetitions between them. */
  ghost predicate MeetAt(content: seq<Block>, seen: seq<Block>, a: nat, b: nat) {
    && a < b < |content| && SameAudience(content[a], content[b])
    && forall k :: a < k < b ==> Repeated(content, seen, k)
  }

  ghost predicate TextsMeet(content: seq<Block>, seen: seq<Block>) {
    exists a: nat, b: nat :: MeetAt(content, seen, a, b)
  }

  lemma MeetAtBefore(content: seq<Block>, seen: seq<Block>, a: nat, b: nat)
    requires content != [] && b < |content| - 1
    ensures MeetAt(content, seen, a, b) <==> MeetAt(Init(content), seen, a, b)
  {
    forall k | 0 <= k < |content| - 1 ensures Repeated(content, seen, k) <==> Repeated(Init(content), seen, k) {
      RepeatedBefore(content, seen, k);
    }
  }

  lemma MeetAtLast(content: seq<Block>, seen: seq<Block>, a: nat)
    requires content != []
    ensures MeetAt(content, seen, a, |content| - 1)
            <==> LastKept(Init(content), seen, a) && SameAudience(content[a], Last(content))
  {
    forall k | 0 <= k < |content| - 1 ensures Repeated(content, seen, k) <==> Repeated(Init(content), seen, k) {
      RepeatedBefore(content, seen, k);
    }
  }

  lemma TextsMeetNext(content: seq<Block>, seen: seq<Block>)
    requires content != []
    ensures TextsMeet(content, seen)
            <==> TextsMeet(Init(content), seen)
                 || exists a: nat :: LastKept(Init(content), seen, a) && SameAudience(content[a], Last(content))
  {
    var init, n := Init(content), |content| - 1;
    if TextsMeet(content, seen) {
      var a: nat, b: nat :| MeetAt(content, seen, a, b);
      if b < n {
        MeetAtBefore(content, seen, a, b);
      } else {
        MeetAtLast(content, seen, a);
      }
    }
    if TextsMeet(init, seen) {
      var a: nat, b: nat :| MeetAt(init, seen, a, b);
      MeetAtBefore(content, seen, a, b);
    }
    if exists a: nat :: LastKept(init, seen, a) && SameAudience(content[a], Last(content)) {
      var a: nat :| LastKept(init, seen, a) && SameAudience(content[a], Last(content));
      MeetAtLast(content, seen, a);
    }
  }

  lemma ApartNext(content: seq<Block>, b: Block)
    ensures Apart(content + [b]) <==> Apart(content) && (content != [] ==> !SameAudience(Last(content), b))
  {
    var more := content + [b];
    assert forall i :: 0 <= i < |content| ==> more[i] == content[i];
    if content != [] && Apart(more) {
      assert !SameAudience(more[|content| - 1], more[|content| - 1 + 1]);
    }
  }

  /** Texts stand side by side afterwards exactly if they meet. */
  lemma {:induction false} ApartIff(content: seq<Block>, seen: seq<Block>)
    ensures Apart(DedupeIn(content, seen).content) <==> !TextsMeet(content, seen)
  {
    if content != [] {
      var init, b := Init(content), Last(content);
      var d := DedupeIn(init, seen).content;
      ApartIff(init, seen);
      DedupeNext(content, seen);
      TextsMeetNext(content, seen);
      var a := FindLastKept(init, seen);
      forall x: nat | LastKept(init, seen, x) ensures d != [] && x == a {
        LastKeptIsOne(init, seen, x, a);
      }
      if Repeated(content, seen, |content| - 1) {
        WithEmpty(d);
      } else {
        ApartNext(d, b);
      }
    }
  }

  // ----- contents that become empty -----

  predicate EmptyText(b: Block) {
    b.Text? && b.text == ""
  }

  /** Nothing but empty texts and repetitions. */
  predicate Hollow(content: seq<Block>, seen: seq<Block>) {
    forall k :: 0 <= k < |content| ==> EmptyText(content[k]) || Repeated(content, seen, k)
  }

  lemma HollowNext(content: seq<Block>, seen: seq<Block>)
    requires content != []
    ensures Hollow(content, seen)
            <==> Hollow(Init(content), seen) && (EmptyText(Last(content)) || Repeated(content, seen, |content| - 1))
  {
    forall k | 0 <= k < |content| - 1 ensures Repeated(content, seen, k) <==> Repeated(Init(content), seen, k) {
      RepeatedBefore(content, seen, k);
    }
  }

  lemma EmptyContentNext(content: seq<Block>, b: Block)
    ensures EmptyContent(content + [b]) <==> EmptyContent(content) && EmptyText(b)
  {
    var more := content + [b];
    assert forall i :: 0 <= i < |content| ==> more[i] == content[i];
    assert more[|content|] == b;
  }

  /** A content becomes empty exactly if it is hollow. */
  lemma {:induction false} EmptyIff(content: seq<Block>, seen: seq<Block>)
    ensures EmptyContent(DedupeIn(content, seen).content) <==> Hollow(content, seen)
  {
    if content != [] {
      var d := DedupeIn(Init(content), seen).content;
      EmptyIff(Init(content), seen);
      DedupeNext(content, seen);
      HollowNext(content, seen);
      if Repeated(content, seen, |content| - 1) {
        WithEmpty(d);
      } else {
        EmptyContentNext(d, Last(content));
      }
    }
  }

  // ----- the same in a conversation -----

  lemma SeenOnlyMatters(content: seq<Block>, a: seq<Block>, b: seq<Block>, k: nat)
    requires k < |content| && forall x :: x in a <==> x in b
    ensures Repeated(content, a, k) <==> Repeated(content, b, k)
  {
  }

  lemma {:induction false} DedupeInSame(content: seq<Block>, a: seq<Block>, b: seq<Block>)
    requires forall x :: x in a <==> x in b
    ensures DedupeIn(content, a).content == DedupeIn(content, b).content
  {
    if content != [] {
      DedupeInSame(Init(content), a, b);
      DedupeNext(content, a);
      DedupeNext(content, b);
      SeenOnlyMatters(content, a, b, |content| - 1);
    }
  }

  /** What a message becomes: its content without what earlier assistant messages, or itself, said signed before. */
  function DedupedIn(ms: seq<Message>, p: nat): Message
    requires p < |ms|
  {
    if ms[p].role != Assistant then ms[p]
    else ms[p].(content := DedupeIn(ms[p].content, SignedOf(ms[..p])).content)
  }

  lemma {:induction false} DedupedAt(ms: seq<Message>, p: nat)
    requires p < |ms|
    ensures |DedupeAll(ms).messages| == |ms| && DedupeAll(ms).messages[p] == DedupedIn(ms, p)
  {
    DedupeKeepsPlaces(Init(ms));
    DedupeKeepsPlaces(ms);
    if p < |ms| - 1 {
      DedupedAt(Init(ms), p);
      assert Init(ms)[..p] == ms[..p];
    } else {
      assert ms[..p] == Init(ms);
      DedupeAllKeeps(Init(ms));
      DedupeInSame(ms[p].content, DedupeAll(Init(ms)).seen, SignedOf(Init(ms)));
    }
  }
}
