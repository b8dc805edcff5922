/** Repairing only what the agent sees, and leaving everything else where it is. */
module Visibility {
  import opened Sequences
  import opened Messages
  import opened CleanPasses
  import opened Normalizer

  /** A place in the conversation: the k-th visible message, or a message the agent does not see. */
  datatype Slot = Visible(k: nat) | NonVisible(message: Message)

  function VisibleOf(ms: seq<Message>): seq<Message> {
    if ms == [] then []
    else VisibleOf(Init(ms)) + if Last(ms).metadata.agentVisible then [Last(ms)] else []
  }

  function HiddenOf(ms: seq<Message>): seq<Message> {
    if ms == [] then []
    else HiddenOf(Init(ms)) + if Last(ms).metadata.agentVisible then [] else [Last(ms)]
  }

  function ShadowMap(ms: seq<Message>): seq<Slot> {
    if ms == [] then []
    else
      ShadowMap(Init(ms))
      + [if Last(ms).metadata.agentVisible then Visible(|VisibleOf(Init(ms))|) else NonVisible(Last(ms))]
  }

  /** Fills the visible places from the front; those that are left over disappear. */
  function Refill(slots: seq<Slot>, fixed: seq<Message>): seq<Message> {
    if slots == [] then []
    else Refill(Init(slots), fixed)
         + match Last(slots)
           case Visible(k) => if k < |fixed| then [fixed[k]] else []
           case NonVisible(m) => [m]
  }

  function FixConversation(ms: seq<Message>): Fixed {
    var r := FixMessages(VisibleOf(ms));
    Fixed(Refill(ShadowMap(ms), r.messages), r.issues)
  }

  method BuildShadowMap(ms: seq<Message>) returns (visible: seq<Message>, slots: seq<Slot>)
    ensures visible == VisibleOf(ms) && slots == ShadowMap(ms)
  {
    visible, slots := [], [];
    for i := 0 to |ms|
      invariant visible == VisibleOf(ms[..i]) && slots == ShadowMap(ms[..i])
    {
      TakeNext(ms, i);
      if ms[i].metadata.agentVisible {
        slots := slots + [Visible(|visible|)];
        visible := visible + [ms[i]];
      } else {
        slots := slots + [NonVisible(ms[i])];
      }
    }
    assert ms[..|ms|] == ms;
  }

  predicate AllVisible(ms: seq<Message>) {
    forall i :: 0 <= i < |ms| ==> ms[i].metadata.agentVisible
  }

  lemma ProjectionsStep(ms: seq<Message>, x: seq<Message>)
    requires |x| <= 1
    ensures VisibleOf(ms + x) == VisibleOf(ms) + if x != [] && x[0].metadata.agentVisible then x else []
    ensures HiddenOf(ms + x) == HiddenOf(ms) + if x != [] && x[0].metadata.agentVisible then [] else x
  {
    if x == [] {
      assert ms + x == ms;
    } else {
      assert Init(ms + x) == ms && x == [x[0]];
    }
  }

  /** What has been refilled after any part of the conversation. */
  lemma {:induction false} RefillProjections(ms: seq<Message>, fixed: seq<Message>)
    requires AllVisible(fixed)
    ensures var out := Refill(ShadowMap(ms), fixed);
            && VisibleOf(out) == fixed[..Min(|VisibleOf(ms)|, |fixed|)]
            && HiddenOf(out) == HiddenOf(ms)
            && |out| == |HiddenOf(ms)| + Min(|VisibleOf(ms)|, |fixed|)
  {
    if ms != [] {
      var init, m := Init(ms), Last(ms);
      var out, k := Refill(ShadowMap(init), fixed), |VisibleOf(init)|;
      RefillProjections(init, fixed);
      assert Init(ShadowMap(ms)) == ShadowMap(init);
      if !m.metadata.agentVisible {
        ProjectionsStep(out, [m]);
      } else if k < |fixed| {
        ProjectionsStep(out, [fixed[k]]);
        assert fixed[..k] + [fixed[k]] == fixed[..k + 1];
      } else {
        ProjectionsStep(out, []);
      }
    }
  }

  lemma {:induction false} VisibleAreVisible(ms: seq<Message>)
    ensures AllVisible(VisibleOf(ms))
  {
    if ms != [] {
      VisibleAreVisible(Init(ms));
    }
  }

  /**
   If the agent sees anything at all, repairing a conversation and then looking at what the agent
   sees is the same as repairing what it sees, and the rest is unchanged and in order.
   */
  lemma FixCommutesWithProjection(ms: seq<Message>)
    requires VisibleOf(ms) != []
    ensures VisibleOf(FixConversation(ms).messages) == FixMessages(VisibleOf(ms)).messages
    ensures HiddenOf(FixConversation(ms).messages) == HiddenOf(ms)
  {
    var fixed := FixMessages(VisibleOf(ms)).messages;
    VisibleAreVisible(ms);
    FixedFits(VisibleOf(ms));
    FixedStaysVisible(VisibleOf(ms));
    RefillProjections(ms, fixed);
    assert fixed[..|fixed|] == fixed;
  }

  lemma {:induction false} RefillOfNothing(ms: seq<Message>, fixed: seq<Message>)
    requires VisibleOf(ms) == []
    ensures Refill(ShadowMap(ms), fixed) == ms
  {
    if ms != [] {
      RefillOfNothing(Init(ms), fixed);
      assert Init(ShadowMap(ms)) == ShadowMap(Init(ms));
      SplitLast(ms);
    }
  }

  /** If the agent sees nothing, nothing changes: the placeholder finds no place. */
  lemma NothingVisible(ms: seq<Message>)
    requires VisibleOf(ms) == []
    ensures FixConversation(ms).messages == ms && FixConversation(ms).issues != []
  {
    RefillOfNothing(ms, FixMessages([]).messages);
    FixIssuesIff([]);
  }

  // ----- places -----

  lemma {:induction false} RefillPrefix(ms: seq<Message>, rest: seq<Message>, fixed: seq<Message>)
    ensures Refill(ShadowMap(ms), fixed) <= Refill(ShadowMap(ms + rest), fixed)
  {
    if rest == [] {
      assert ms + rest == ms;
    } else {
      InitOfConcat(ms, rest);
      RefillPrefix(ms, Init(rest), fixed);
      assert Init(ShadowMap(ms + rest)) == ShadowMap(Init(ms + rest));
    }
  }

  /** Where the message at index i goes: behind the hidden messages before it and the visible ones that are left. */
  function PlaceOf(ms: seq<Message>, i: nat, kept: nat): nat
    requires i <= |ms|
  {
    |HiddenOf(ms[..i])| + Min(|VisibleOf(ms[..i])|, kept)
  }

  lemma PlaceHolds(ms: seq<Message>, i: nat, fixed: seq<Message>)
    requires i < |ms| && AllVisible(fixed)
    ensures var out, p := Refill(ShadowMap(ms), fixed), PlaceOf(ms, i, |fixed|);
            && (!ms[i].metadata.agentVisible ==> p < |out| && out[p] == ms[i])
            && (ms[i].metadata.agentVisible && |VisibleOf(ms[..i])| < |fixed| ==>
              p < |out| && out[p] == fixed[|VisibleOf(ms[..i])|])
  {
    var upTo, before := ms[..i + 1], ms[..i];
    assert Init(upTo) == before && Last(upTo) == ms[i] && upTo + ms[i + 1..] == ms;
    RefillProjections(before, fixed);
    assert Init(ShadowMap(upTo)) == ShadowMap(before);
    RefillPrefix(upTo, ms[i + 1..], fixed);
  }

  /** Hidden messages stay in place, and the k-th repaired message goes where the k-th visible one was. */
  lemma FixKeepsPlaces(ms: seq<Message>, i: nat)
    requires i < |ms| && VisibleOf(ms) != []
    ensures var out, fixed := FixConversation(ms).messages, FixMessages(VisibleOf(ms)).messages;
            var p, k := PlaceOf(ms, i, |fixed|), |VisibleOf(ms[..i])|;
            && (!ms[i].metadata.agentVisible ==> p < |out| && out[p] == ms[i])
            && (ms[i].metadata.agentVisible && k < |fixed| ==> p < |out| && out[p] == fixed[k])
  {
    VisibleAreVisible(ms);
    FixedFits(VisibleOf(ms));
    FixedStaysVisible(VisibleOf(ms));
    PlaceHolds(ms, i, FixMessages(VisibleOf(ms)).messages);
  }
}
