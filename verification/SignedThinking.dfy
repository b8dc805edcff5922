/** Removing signed thinking that was copied onto several assistant messages. */
module SignedThinking {
  import opened Sequences
  import opened Messages
  import opened CleanPasses

  predicate Signed(b: Block) {
    match b
    case Thinking(_, signature) => signature != ""
    case RedactedThinking(_) => true
    case _ => false
  }

  datatype Deduped = Deduped(content: seq<Block>, seen: seq<Block>)

  function DedupeIn(content: seq<Block>, seen: seq<Block>): Deduped {
    if content == [] then Deduped([], seen)
    else
      var d := DedupeIn(Init(content), seen);
      var b := Last(content);
      if !Signed(b) then Deduped(d.content + [b], d.seen)
      else if b in d.seen then d
      else Deduped(d.content + [b], d.seen + [b])
  }

  datatype DedupedAll = DedupedAll(messages: seq<Message>, seen: seq<Block>, issues: seq<Issue>)

  function DedupeAll(ms: seq<Message>): DedupedAll {
    if ms == [] then DedupedAll([], [], [])
    else
      var r := DedupeAll(Init(ms));
      var m := Last(ms);
      if m.role != Assistant then DedupedAll(r.messages + [m], r.seen, r.issues)
      else
        var d := DedupeIn(m.content, r.seen);
        DedupedAll(r.messages + [m.(content := d.content)], d.seen,
                   r.issues + if |d.content| != |m.content| then [RemovedDuplicateThinking] else [])
  }

  function DedupeSignedThinking(ms: seq<Message>): Fixed {
    Fixed(DedupeAll(ms).messages, DedupeAll(ms).issues)
  }

  lemma {:induction false} DedupeInLength(content: seq<Block>, seen: seq<Block>)
    ensures |DedupeIn(content, seen).content| <= |content|
    ensures |DedupeIn(content, seen).content| == |content| ==> DedupeIn(content, seen).content == content
  {
    if content != [] {
      DedupeInLength(Init(content), seen);
      SplitLast(content);
    }
  }

  method DedupeMessage(content: seq<Block>, before: seq<Block>) returns (deduped: seq<Block>, seen: seq<Block>)
    ensures Deduped(deduped, seen) == DedupeIn(content, before)
  {
    deduped, seen := [], before;
    for i := 0 to |content|
      invariant Deduped(deduped, seen) == DedupeIn(content[..i], before)
    {
      var b := content[i];
      assert Init(content[..i + 1]) == content[..i] && Last(content[..i + 1]) == b;
      var isSigned := Signed(b);
      if isSigned && b in seen {
        continue;
      }
      if isSigned {
        seen := seen + [b];
      }
      deduped := deduped + [b];
    }
    assert content[..|content|] == content;
  }

  method DedupeSignedThinkingInOrder(ms: seq<Message>) returns (fixed: Fixed)
    ensures fixed == DedupeSignedThinking(ms)
  {
    var messages, seen, issues := [], [], [];
    for i := 0 to |ms|
      invariant DedupedAll(messages, seen, issues) == DedupeAll(ms[..i])
    {
      var m := ms[i];
      assert Init(ms[..i + 1]) == ms[..i] && Last(ms[..i + 1]) == m;
      if m.role == Assistant {
        var deduped;
        DedupeInLength(m.content, seen);
        deduped, seen := DedupeMessage(m.content, seen);
        if |deduped| != |m.content| {
          issues := issues + [RemovedDuplicateThinking];
          m := m.(content := deduped);
        }
      }
      messages := messages + [m];
    }
    assert ms[..|ms|] == ms;
    fixed := Fixed(messages, issues);
  }

  // ----- what is kept -----

  function SignedIn(content: seq<Block>): seq<Block> {
    if content == [] then [] else SignedIn(Init(content)) + if Signed(Last(content)) then [Last(content)] else []
  }

  function UnsignedIn(content: seq<Block>): seq<Block> {
    if content == [] then [] else UnsignedIn(Init(content)) + if Signed(Last(content)) then [] else [Last(content)]
  }

  /** The signed thinking of all assistant messages, in order. */
  function SignedOf(ms: seq<Message>): seq<Block> {
    if ms == [] then []
    else SignedOf(Init(ms)) + if Last(ms).role == Assistant then SignedIn(Last(ms).content) else []
  }

  predicate NoDup(bs: seq<Block>) {
    forall i, j :: 0 <= i < j < |bs| ==> bs[i] != bs[j]
  }

  lemma NoDupStep(bs: seq<Block>, b: Block)
    ensures NoDup(bs + [b]) <==> NoDup(bs) && b !in bs
  {
    var more := bs + [b];
    if NoDup(more) {
      assert forall i :: 0 <= i < |bs| ==> more[i] == bs[i] && more[i] != more[|bs|];
    }
  }

  /** The content keeps every block that is not signed, and the first copy of every one that is. */
  lemma {:induction false} DedupeInKeeps(content: seq<Block>, seen: seq<Block>)
    ensures var d := DedupeIn(content, seen);
            && UnsignedIn(d.content) == UnsignedIn(content)
            && d.seen == seen + SignedIn(d.content)
            && (NoDup(seen) ==> NoDup(d.seen))
            && (forall b :: b in d.seen <==> b in seen || b in SignedIn(content))
  {
    if content != [] {
      var init, b := Init(content), Last(content);
      var d := DedupeIn(init, seen);
      DedupeInKeeps(init, seen);
      if !Signed(b) || b !in d.seen {
        assert Init(d.content + [b]) == d.content;
      }
      if Signed(b) && b !in d.seen {
        NoDupStep(d.seen, b);
        Assoc(seen, SignedIn(d.content), [b]);
      }
    }
  }

  /** Nothing is dropped exactly if nothing repeats. */
  lemma {:induction false} DedupeInCleanIff(content: seq<Block>, seen: seq<Block>)
    requires NoDup(seen)
    ensures |DedupeIn(content, seen).content| == |content| <==> NoDup(seen + SignedIn(content))
  {
    if content == [] {
      assert seen + [] == seen;
    } else {
      var init, b := Init(content), Last(content);
      DedupeInCleanIff(init, seen);
      DedupeInLength(init, seen);
      DedupeInKeeps(init, seen);
      if Signed(b) {
        NoDupStep(seen + SignedIn(init), b);
        Assoc(seen, SignedIn(init), [b]);
      } else {
        assert SignedIn(init) + [] == SignedIn(init);
      }
    }
  }

  lemma {:induction false} DedupeAllKeeps(ms: seq<Message>)
    ensures var r := DedupeAll(ms);
            && r.seen == SignedOf(r.messages) && NoDup(r.seen)
            && (forall b :: b in r.seen <==> b in SignedOf(ms))
  {
    if ms != [] {
      var r, m := DedupeAll(Init(ms)), Last(ms);
      DedupeAllKeeps(Init(ms));
      var kept := DedupeAll(ms).messages;
      assert Init(kept) == r.messages;
      if m.role == Assistant {
        DedupeInKeeps(m.content, r.seen);
      } else {
        assert r.seen + [] == r.seen;
      }
    }
  }

  /** The pass has nothing to report exactly if no signed block repeats; then it changes nothing. */
  lemma {:induction false} DedupeCleanIff(ms: seq<Message>)
    ensures DedupeAll(ms).issues == [] <==> NoDup(SignedOf(ms))
    ensures DedupeAll(ms).issues == [] ==> DedupeAll(ms).messages == ms
  {
    if ms != [] {
      var r, m := DedupeAll(Init(ms)), Last(ms);
      DedupeCleanIff(Init(ms));
      DedupeAllKeeps(Init(ms));
      SplitLast(ms);
      if m.role == Assistant {
        var d := DedupeIn(m.content, r.seen);
        DedupeInCleanIff(m.content, r.seen);
        DedupeInLength(m.content, r.seen);
        ConcatEmpty(r.issues, if |d.content| != |m.content| then [RemovedDuplicateThinking] else []);
        NoDupPrefix(SignedOf(Init(ms)), SignedIn(m.content));
      } else {
        assert SignedOf(Init(ms)) + [] == SignedOf(Init(ms));
      }
    }
  }

  lemma NoDupPrefix(a: seq<Block>, b: seq<Block>)
    ensures NoDup(a + b) ==> NoDup(a)
  {
    if NoDup(a + b) {
      forall i, j | 0 <= i < j < |a| ensures a[i] != a[j] {
        assert (a + b)[i] == a[i] && (a + b)[j] == a[j];
      }
    }
  }

  // ----- what is left alone -----

  lemma {:induction false} DedupeInTrace(role: Role, content: seq<Block>, seen: seq<Block>, id: string)
    ensures TraceIn(role, DedupeIn(content, seen).content, id) == TraceIn(role, content, id)
  {
    if content != [] {
      var init, b := Init(content), Last(content);
      var d := DedupeIn(init, seen);
      DedupeInTrace(role, init, seen, id);
      TraceInStep(role, d.content, b, id);
      assert Signed(b) ==> EventOf(role, b, id) == [];
      assert TraceIn(role, d.content, id) + [] == TraceIn(role, d.content, id);
    }
  }

  lemma {:induction false} DedupeInWellPlaced(role: Role, content: seq<Block>, seen: seq<Block>)
    requires WellPlacedIn(role, content)
    ensures WellPlacedIn(role, DedupeIn(content, seen).content)
  {
    if content != [] {
      DedupeInWellPlaced(role, Init(content), seen);
    }
  }

  lemma {:induction false} DedupeKeepsTrace(ms: seq<Message>, id: string)
    ensures Trace(DedupeAll(ms).messages, id) == Trace(ms, id)
  {
    if ms != [] {
      DedupeKeepsTrace(Init(ms), id);
      assert Init(DedupeAll(ms).messages) == DedupeAll(Init(ms)).messages;
      if Last(ms).role == Assistant {
        DedupeInTrace(Last(ms).role, Last(ms).content, DedupeAll(Init(ms)).seen, id);
      }
    }
  }

  lemma {:induction false} DedupeWellPlaced(ms: seq<Message>)
    requires WellPlaced(ms)
    ensures WellPlaced(DedupeAll(ms).messages)
  {
    if ms != [] {
      var out := DedupeAll(ms).messages;
      AllWellPlacedStep(ms);
      DedupeWellPlaced(Init(ms));
      if Last(ms).role == Assistant {
        DedupeInWellPlaced(Last(ms).role, Last(ms).content, DedupeAll(Init(ms)).seen);
      }
      assert Init(out) == DedupeAll(Init(ms)).messages;
      AllWellPlacedStep(out);
    }
  }

  predicate SamePlace(a: Message, b: Message) {
    a.role == b.role && a.metadata == b.metadata && EffectiveRoleOf(a) == EffectiveRoleOf(b)
  }

  /** Message by message, role and metadata stay. */
  lemma {:induction false} DedupeKeepsPlaces(ms: seq<Message>)
    ensures |DedupeAll(ms).messages| == |ms|
    ensures forall i :: 0 <= i < |ms| ==> SamePlace(DedupeAll(ms).messages[i], ms[i])
  {
    if ms != [] {
      DedupeKeepsPlaces(Init(ms));
      assert forall i :: 0 <= i < |ms| - 1 ==> Init(ms)[i] == ms[i];
    }
  }
}
