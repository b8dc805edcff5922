/** The pass over tool calls as it runs: it notes what to remove, then removes it back to front. */
module ToolCallingPass {
  import opened Sequences
  import opened Messages
  import opened CleanPasses
  import opened ToolPairing

  lemma {:induction false} WithoutRest(content: seq<Block>, indices: seq<nat>, n: nat)
    requires Below(indices, n) && n <= |content|
    ensures Without(content, indices) == Without(content[..n], indices) + content[n..]
  {
    if n == |content| {
      assert content[..n] == content;
    } else {
      var init := Init(content);
      WithoutRest(init, indices, n);
      assert init[..n] == content[..n] && init[n..] + [Last(content)] == content[n..];
      Assoc(Without(content[..n], indices), init[n..], [Last(content)]);
    }
  }

  /** Removing the last of the indices first leaves the others where they are. */
  lemma RemoveLast(content: seq<Block>, indices: seq<nat>, i: nat)
    requires Below(indices, i) && i < |content|
    ensures Without(content, indices + [i]) == Without(content[..i] + content[i + 1..], indices)
  {
    var head, tail, upTo := content[..i], content[i + 1..], content[..i + 1];
    WithoutRest(content, indices + [i], i + 1);
    assert Init(upTo) == head && |upTo| - 1 == i && i in indices + [i];
    WithoutSame(head, indices + [i], indices);
    WithoutRest(head + tail, indices, i);
    HeadTail(head, tail);
  }

  lemma HeadTail<T>(head: seq<T>, tail: seq<T>)
    ensures (head + tail)[..|head|] == head && (head + tail)[|head|..] == tail
  {
  }

  method RemoveAll(content: seq<Block>, indices: seq<nat>) returns (kept: seq<Block>)
    requires forall k :: 0 <= k < |indices| ==> indices[k] < |content| && Below(indices[..k], indices[k])
    ensures kept == Without(content, indices)
  {
    kept := content;
    var k := |indices|;
    assert indices[..k] == indices;
    while k > 0
      invariant 0 <= k <= |indices|
      invariant Without(kept, indices[..k]) == Without(content, indices)
      invariant k > 0 ==> indices[k - 1] < |kept|
    {
      k := k - 1;
      var i := indices[k];
      assert indices[..k + 1] == indices[..k] + [i];
      RemoveLast(kept, indices[..k], i);
      if k > 0 {
        assert indices[k - 1] in indices[..k];
      }
      kept := kept[..i] + kept[i + 1..];
    }
    WithoutNone(kept);
    assert indices[..0] == [];
  }

  /** Marking one more block. */
  lemma MarkNext(content: seq<Block>, idx: nat, indices: seq<nat>)
    requires idx < |content| && Below(indices, idx)
    ensures Init(content[..idx + 1]) == content[..idx] && Last(content[..idx + 1]) == content[idx]
    ensures Without(content[..idx + 1], indices) == Without(content[..idx], indices) + [content[idx]]
    ensures Without(content[..idx + 1], indices + [idx]) == Without(content[..idx], indices)
  {
    assert Init(content[..idx + 1]) == content[..idx];
    assert idx in indices + [idx] && idx !in indices;
    WithoutSame(content[..idx], indices + [idx], indices);
  }

  ghost predicate Marked(content: seq<Block>, indices: seq<nat>) {
    forall k :: 0 <= k < |indices| ==> indices[k] < |content| && Below(indices[..k], indices[k])
  }

  lemma MarkedNext(content: seq<Block>, indices: seq<nat>, idx: nat)
    requires Marked(content, indices) && Below(indices, idx) && idx < |content|
    ensures Marked(content, indices + [idx]) && Below(indices + [idx], idx + 1)
  {
    forall k | 0 <= k < |indices + [idx]|
      ensures (indices + [idx])[k] < |content| && Below((indices + [idx])[..k], (indices + [idx])[k])
    {
      assert (indices + [idx])[..k] == indices[..k];
      assert indices[..|indices|] == indices;
    }
  }

  /** Whether a block goes, and what is pending after it. */
  method Judge(role: Role, b: Block, open: set<string>) returns (remove: bool, pending: set<string>)
    ensures remove == Drops(role, b, open) && pending == Pend(role, b, open)
  {
    remove, pending := false, open;
    match role {
      case User =>
        match b {
          case ToolRequest(_, _) => remove := true;
          case ToolConfirmationRequest(_) => remove := true;
          case Thinking(_, _) => remove := true;
          case RedactedThinking(_) => remove := true;
          case ToolResponse(id, _) =>
            if id in pending {
              pending := pending - {id};
            } else {
              remove := true;
            }
          case _ =>
        }
      case Assistant =>
        match b {
          case ToolResponse(_, _) => remove := true;
          case FrontendToolRequest(_) => remove := true;
          case ToolRequest(id, _) => pending := pending + {id};
          case _ =>
        }
    }
  }

  method SiftMessage(role: Role, content: seq<Block>, open: set<string>) returns (s: Sifted)
    ensures s == Sift(role, content, open)
  {
    var pending, issues := open, [];
    var toRemove: seq<nat> := [];
    for idx := 0 to |content|
      invariant Marked(content, toRemove) && Below(toRemove, idx)
      invariant Sift(role, content[..idx], open) == Sifted(Without(content[..idx], toRemove), pending, issues)
    {
      var b := content[idx];
      MarkNext(content, idx, toRemove);
      var remove;
      remove, pending := Judge(role, b, pending);
      if remove {
        MarkedNext(content, toRemove, idx);
        toRemove, issues := toRemove + [idx], issues + [RemovedBlock(role, b)];
      }
    }
    assert content[..|content|] == content;
    var kept := RemoveAll(content, toRemove);
    s := Sifted(kept, pending, issues);
  }

  method DropOrphanRequests(role: Role, content: seq<Block>, pending: set<string>)
      returns (kept: seq<Block>, issues: seq<Issue>)
    requires role == Assistant
    ensures kept == Answered(role, content, pending) && issues == OrphanIssues(role, content, pending)
  {
    issues := [];
    var toRemove: seq<nat> := [];
    for idx := 0 to |content|
      invariant Marked(content, toRemove) && Below(toRemove, idx)
      invariant Without(content[..idx], toRemove) == Answered(role, content[..idx], pending)
      invariant issues == OrphanIssues(role, content[..idx], pending)
    {
      var b := content[idx];
      MarkNext(content, idx, toRemove);
      if b.ToolRequest? && b.id in pending {
        MarkedNext(content, toRemove, idx);
        toRemove, issues := toRemove + [idx], issues + [RemovedOrphanRequest(b.id)];
      }
    }
    assert content[..|content|] == content;
    kept := RemoveAll(content, toRemove);
  }

  lemma {:induction false} UserKeepsAll(content: seq<Block>, pending: set<string>)
    ensures Answered(User, content, pending) == content
  {
    if content != [] {
      UserKeepsAll(Init(content), pending);
      SplitLast(content);
    }
  }

  lemma {:induction false} UserHasNoOrphans(content: seq<Block>, pending: set<string>)
    ensures OrphanIssues(User, content, pending) == []
  {
    if content != [] {
      UserHasNoOrphans(Init(content), pending);
    }
  }

  method SweepMessages(ms: seq<Message>) returns (w: Sweep)
    ensures w == SiftAll(ms)
  {
    w := Sweep([], {}, []);
    for i := 0 to |ms|
      invariant w == SiftAll(ms[..i])
    {
      TakeNext(ms, i);
      var s := SiftMessage(ms[i].role, ms[i].content, w.pending);
      w := Sweep(w.messages + [ms[i].(content := s.content)], s.pending, w.issues + s.issues);
    }
    assert ms[..|ms|] == ms;
  }

  method FixToolCallingByRemoval(ms: seq<Message>) returns (fixed: Fixed)
    ensures fixed == FixToolCalling(ms)
  {
    var w := SweepMessages(ms);
    var d := Fixed([], []);
    for i := 0 to |w.messages|
      invariant d == Each(w.messages[..i], DropOrphans(w.pending))
    {
      var m := w.messages[i];
      TakeNext(w.messages, i);
      if m.role == Assistant {
        var kept, issues := DropOrphanRequests(m.role, m.content, w.pending);
        d := Fixed(d.messages + [m.(content := kept)], d.issues + issues);
      } else {
        UserKeepsAll(m.content, w.pending);
        UserHasNoOrphans(m.content, w.pending);
        d := Fixed(d.messages + [m], d.issues);
      }
    }
    assert w.messages[..|w.messages|] == w.messages;
    var e := RemoveEmptyMessages(d.messages);
    fixed := Fixed(e.messages, w.issues + d.issues + e.issues);
  }
}
