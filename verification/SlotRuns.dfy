/** What holds over whole runs of the model-slot protocol. */
module SlotRuns {
  import opened Wrappers
  import opened ModelSlots
  import opened SlotInvariant
  import opened SlotProgress

  ghost predicate IsRun(r: seq<State>) {
    && |r| > 0
    && Init(r[0])
    && forall i :: 0 <= i < |r| - 1 ==> Step(r[i], r[i + 1])
  }

  function LoadedSlots(s: State): set<Key> {
    set k | k in s.slots && s.slots[k].state == Loaded
  }

  function LoadsPastUnload(s: State): set<Tid> {
    set t | 0 <= t < |s.tasks| && PastUnload(s.tasks[t])
  }

  lemma {:induction false} RunInv(r: seq<State>, i: nat)
    requires IsRun(r) && i < |r|
    ensures Inv(r[i]) && Known(r[i])
    ensures Measure(r[i]) + i <= Measure(r[0])
  {
    if i == 0 {
      InitInv(r[0]);
    } else {
      RunInv(r, i - 1);
      var t: Tid, c: Choice :| t < |r[i - 1].tasks| && Advance(r[i - 1], t, c) == Some(r[i]);
      StepKeepsInv(r[i - 1], t, c);
      StepKeepsKnown(r[i - 1], t, c);
      StepDecreases(r[i - 1], t, c);
    }
  }

  lemma AtMostOneModel(s: State)
    requires Inv(s)
    ensures |LoadedSlots(s)| + |LoadsPastUnload(s)| <= 1
  {
    var loaded, loads := LoadedSlots(s), LoadsPastUnload(s);
    assert forall t :: t in loads ==> s.cold == Some(t);
    if t :| t in loads {
      assert loads == {t};
      assert forall k :: k in loaded ==> Covers(s.tasks[t], k);
      assert forall k :: !Covers(s.tasks[t], k);
    } else if k :| k in loaded {
      assert loaded == {k};
    }
  }

  /**
   Memory safety of the cache: in every state of every interleaving at most one slot is
   Loading, its loader holds the cold-load lock, at most one model is in memory counting
   a load whose unloading is over, and the inner Loading branch is never entered.
   */
  lemma OneModelInMemory(r: seq<State>, i: nat)
    requires IsRun(r) && i < |r|
    ensures forall k, k' :: StateOf(r[i].slots, k) == Loading && StateOf(r[i].slots, k') == Loading ==> k == k'
    ensures forall k :: StateOf(r[i].slots, k) == Loading ==>
              exists t :: 0 <= t < |r[i].tasks| && r[i].cold == Some(t) && Loader(r[i].tasks[t])
                && r[i].tasks[t].key == k
    ensures |LoadedSlots(r[i])| + |LoadsPastUnload(r[i])| <= 1
    ensures InnerBranchDead(r[i])
  {
    RunInv(r, i);
    AtMostOneModel(r[i]);
  }

  lemma InUseStays(s: State, t: Tid)
    requires Locks(s) && Keys(s) && OneModel(s) && InUse(s)
    requires t < |s.tasks| && s.tasks[t].Stream? && s.tasks[t].pc == Generating
    ensures LoadedSlots(s) == {s.tasks[t].key} && s.slots[s.tasks[t].key].holder == Some(t)
  {
    assert s.tasks[t].key in Mentioned(s.tasks[t]);
  }

  /** While a task generates, no eviction and no other load can take its model away. */
  lemma ModelInUseStays(r: seq<State>, i: nat, t: Tid)
    requires IsRun(r) && i < |r| && t < |r[i].tasks|
    requires r[i].tasks[t].Stream? && r[i].tasks[t].pc == Generating
    ensures LoadedSlots(r[i]) == {r[i].tasks[t].key} && r[i].slots[r[i].tasks[t].key].holder == Some(t)
  {
    RunInv(r, i);
    InUseStays(r[i], t);
  }

  /** No lost wake-up: a task still waiting for a notification waits on a slot whose live loader will send it. */
  lemma NoLostWakeup(r: seq<State>, i: nat, t: Tid)
    requires IsRun(r) && i < |r| && t < |r[i].tasks| && Waiting(r[i].tasks[t])
    ensures exists u ::
              0 <= u < |r[i].tasks| && u != t && Loader(r[i].tasks[u]) && r[i].tasks[u].key == r[i].tasks[t].key
  {
    RunInv(r, i);
    assert r[i].tasks[t].key in Mentioned(r[i].tasks[t]);
    assert Loader(r[i].tasks[r[i].cold.value]);
  }

  lemma BlockedHoldsNoSlot(s: State, t: Tid, k: Key)
    requires Locks(s) && t < |s.tasks| && !Enabled(s, t) && k in s.slots
    ensures s.slots[k].holder != Some(t)
  {
    if HeldSlot(s.tasks[t]).Some? {
      SlotHolderRuns(s, t);
    }
  }

  /** Nobody waits while holding a slot lock, so in particular nobody waits for the cold-load lock with one. */
  lemma BlockedTasksHoldNoSlot(r: seq<State>, i: nat, t: Tid, k: Key)
    requires IsRun(r) && i < |r| && t < |r[i].tasks| && !Enabled(r[i], t) && k in r[i].slots
    ensures r[i].slots[k].holder != Some(t)
  {
    RunInv(r, i);
    BlockedHoldsNoSlot(r[i], t, k);
  }

  /** No task can step. */
  ghost predicate Stuck(s: State) {
    forall t: Tid :: t < |s.tasks| ==> !Enabled(s, t)
  }

  /** No lock is taken and no slot is left Loading. */
  ghost predicate Quiet(s: State) {
    s.cold == None && forall k :: k in s.slots ==> s.slots[k].holder == None && s.slots[k].state != Loading
  }

  lemma StuckMeansDone(s: State)
    requires Inv(s) && Stuck(s)
    ensures AllDone(s)
  {
    forall t | 0 <= t < |s.tasks| ensures Done(s.tasks[t]) {
      if !Done(s.tasks[t]) {
        NoDeadlock(s, t);
      }
    }
  }

  lemma DoneMeansQuiet(s: State)
    requires Inv(s) && AllDone(s)
    ensures Quiet(s)
  {
    assert forall t :: 0 <= t < |s.tasks| ==> !HoldsCold(s.tasks[t]);
    forall k | k in s.slots ensures s.slots[k].holder == None {
      var h := s.slots[k].holder;
      assert h.Some? ==> HeldSlot(s.tasks[h.value]) == Some(k);
    }
  }

  /**
   Every run ends, and it ends with every task finished: no run is longer than the measure of
   its first state, and a run that cannot be continued has no unfinished task, no lock taken
   and no slot left Loading. No fairness is assumed.
   */
  lemma RunsFinish(r: seq<State>)
    requires IsRun(r)
    ensures |r| <= Measure(r[0]) + 1
    ensures Stuck(r[|r| - 1]) ==> AllDone(r[|r| - 1]) && Quiet(r[|r| - 1])
  {
    RunInv(r, |r| - 1);
    if Stuck(r[|r| - 1]) {
      StuckMeansDone(r[|r| - 1]);
      DoneMeansQuiet(r[|r| - 1]);
    }
  }
}
