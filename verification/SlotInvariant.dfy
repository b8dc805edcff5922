/**
 Every step of the model-slot protocol keeps the invariant. For each part of the invariant: what it
 says about one task alone (`Local...`), what an effect must satisfy (`...Ok`), that this is enough,
 and that every step satisfies it.
 */
module SlotInvariant {
  import opened Wrappers
  import opened ModelSlots

  predicate Mine(h: Option<Tid>, t: Tid) {
    h == None || h == Some(t)
  }

  ghost predicate LocalLocks(s: State, t: Tid, task: Task) {
    && (HeldSlot(task).Some? ==> HeldSlot(task).value in s.slots && s.slots[HeldSlot(task).value].holder == Some(t))
    && (s.cold == Some(t) <==> HoldsCold(task))
  }

  ghost predicate LocksOk(s: State, t: Tid, old': Task, e: Effect) {
    && (match e.touch
        case NoSlot => HeldSlot(e.task) == HeldSlot(old')
        case Write(k, slot) =>
          && Mine(slot.holder, t)
          && (if k in s.slots then Mine(s.slots[k].holder, t) else slot.holder == None)
          && (HeldSlot(old') == None || HeldSlot(old') == Some(k))
          && HeldSlot(e.task) == if slot.holder == None then None else Some(k))
    && (e.cold == Some(t) <==> HoldsCold(e.task))
    && (e.cold == s.cold || (Mine(s.cold, t) && Mine(e.cold, t)))
  }

  lemma WaitLocksOk(s: State, t: Tid, k: Key, pc: Pc)
    requires LocalLocks(s, t, Stream(k, pc)) && WaitStep(s, t, k, pc).Some?
    ensures LocksOk(s, t, Stream(k, pc), WaitStep(s, t, k, pc).value)
  {
  }

  lemma LoadLocksOk(s: State, t: Tid, k: Key, pc: Pc, c: Choice)
    requires LocalLocks(s, t, Stream(k, pc)) && LoadStep(s, t, k, pc, c).Some?
    ensures LocksOk(s, t, Stream(k, pc), LoadStep(s, t, k, pc, c).value)
  {
  }

  lemma EndLocksOk(s: State, t: Tid, k: Key, pc: Pc)
    requires LocalLocks(s, t, Stream(k, pc)) && EndStep(s, t, k, pc).Some?
    ensures LocksOk(s, t, Stream(k, pc), EndStep(s, t, k, pc).value)
  {
  }

  lemma EvictLocksOk(s: State, t: Tid, m: string, epc: EvictPc, c: Choice)
    requires LocalLocks(s, t, Evict(m, epc)) && EvictStep(s, t, m, epc, c).Some?
    ensures LocksOk(s, t, Evict(m, epc), EvictStep(s, t, m, epc, c).value)
  {
  }

  lemma StepLocksOk(s: State, t: Tid, c: Choice)
    requires t < |s.tasks| && LocalLocks(s, t, s.tasks[t]) && TaskStep(s, t, c).Some?
    ensures LocksOk(s, t, s.tasks[t], TaskStep(s, t, c).value)
  {
    match s.tasks[t] {
      case Stream(k, pc) =>
        if InWaitPhase(pc) {
          WaitLocksOk(s, t, k, pc);
        } else if InLoadPhase(pc) {
          LoadLocksOk(s, t, k, pc, c);
        } else {
          EndLocksOk(s, t, k, pc);
        }
      case Evict(m, epc) =>
        EvictLocksOk(s, t, m, epc, c);
    }
  }

  lemma ApplyKeepsLocks(s: State, t: Tid, e: Effect)
    requires t < |s.tasks| && Locks(s) && Keys(s) && LocksOk(s, t, s.tasks[t], e)
    ensures Locks(Apply(s, t, e))
  {
    var s' := Apply(s, t, e);
    forall k, u | k in s'.slots && 0 <= u < |s'.tasks|
      ensures s'.slots[k].holder == Some(u) <==> HeldSlot(s'.tasks[u]) == Some(k)
    {
      if u != t {
        assert HeldSlot(s'.tasks[u]) == HeldSlot(s.tasks[u]);
        assert HeldSlot(s.tasks[u]) == Some(k) ==> k in Mentioned(s.tasks[u]);
      }
    }
  }

  ghost predicate KeysOk(s: State, e: Effect) {
    Mentioned(e.task) <= Updated(s.slots, e.touch).Keys
  }

  lemma WaitKeysOk(s: State, t: Tid, k: Key, pc: Pc)
    requires Mentioned(Stream(k, pc)) <= s.slots.Keys && WaitStep(s, t, k, pc).Some?
    ensures KeysOk(s, WaitStep(s, t, k, pc).value)
  {
  }

  lemma LoadKeysOk(s: State, t: Tid, k: Key, pc: Pc, c: Choice)
    requires Mentioned(Stream(k, pc)) <= s.slots.Keys && LoadStep(s, t, k, pc, c).Some?
    ensures KeysOk(s, LoadStep(s, t, k, pc, c).value)
  {
  }

  lemma EndKeysOk(s: State, t: Tid, k: Key, pc: Pc)
    requires Mentioned(Stream(k, pc)) <= s.slots.Keys && EndStep(s, t, k, pc).Some?
    ensures KeysOk(s, EndStep(s, t, k, pc).value)
  {
  }

  lemma EvictKeysOk(s: State, t: Tid, m: string, epc: EvictPc, c: Choice)
    requires Mentioned(Evict(m, epc)) <= s.slots.Keys && EvictStep(s, t, m, epc, c).Some?
    ensures KeysOk(s, EvictStep(s, t, m, epc, c).value)
  {
  }

  lemma StepKeysOk(s: State, t: Tid, c: Choice)
    requires t < |s.tasks| && Mentioned(s.tasks[t]) <= s.slots.Keys && TaskStep(s, t, c).Some?
    ensures KeysOk(s, TaskStep(s, t, c).value)
  {
    match s.tasks[t] {
      case Stream(k, pc) =>
        if InWaitPhase(pc) {
          WaitKeysOk(s, t, k, pc);
        } else if InLoadPhase(pc) {
          LoadKeysOk(s, t, k, pc, c);
        } else {
          EndKeysOk(s, t, k, pc);
        }
      case Evict(m, epc) =>
        EvictKeysOk(s, t, m, epc, c);
    }
  }

  lemma ApplyKeepsKeys(s: State, t: Tid, e: Effect)
    requires t < |s.tasks| && Keys(s) && KeysOk(s, e)
    ensures Keys(Apply(s, t, e))
  {
    var s' := Apply(s, t, e);
    forall u | 0 <= u < |s'.tasks| && u != t
      ensures Mentioned(s'.tasks[u]) <= s'.slots.Keys
    {
      assert Mentioned(s'.tasks[u]) == Mentioned(s.tasks[u]);
    }
  }

  ghost predicate LocalLoader(s: State, t: Tid, task: Task) {
    && (s.cold == Some(t) <==> HoldsCold(task))
    && (HeldSlot(task).Some? ==> HeldSlot(task).value in s.slots)
    && (Loader(task) ==> StateOf(s.slots, task.key) == Loading)
    && (Waiting(task) ==> StateOf(s.slots, task.key) == Loading)
    && (task.Stream? && StateOf(s.slots, task.key) == Loading && s.cold == Some(t) ==> Loader(task))
    && (task.Stream? ==> !task.pc.RegisteredCold? && !task.pc.ReleasingCold?)
  }

  ghost predicate LoadersOk(s: State, t: Tid, old': Task, e: Effect) {
    && (match e.touch
        case NoSlot => Loader(e.task) == Loader(old')
        case Write(k, slot) =>
          if slot.state == StateOf(s.slots, k) then Loader(e.task) == Loader(old')
          else if slot.state == Loading then
            !Loader(old') && Loader(e.task) && e.task.key == k && e.cold == s.cold == Some(t)
          else if StateOf(s.slots, k) == Loading then
            Loader(old') && old'.key == k && !Loader(e.task) && s.cold == Some(t)
          else Loader(e.task) == Loader(old'))
    && (Loader(e.task) && Loader(old') ==> e.task.key == old'.key && e.cold == s.cold)
    && (e.cold != s.cold ==> Mine(s.cold, t) && !Loader(e.task) && !Loader(old'))
    && (e.task.Stream? ==> !e.task.pc.RegisteredCold? && !e.task.pc.ReleasingCold?)
  }

  lemma WaitLoadersOk(s: State, t: Tid, k: Key, pc: Pc)
    requires LocalLoader(s, t, Stream(k, pc)) && WaitStep(s, t, k, pc).Some?
    ensures LoadersOk(s, t, Stream(k, pc), WaitStep(s, t, k, pc).value)
  {
  }

  lemma LoadLoadersOk(s: State, t: Tid, k: Key, pc: Pc, c: Choice)
    requires LocalLoader(s, t, Stream(k, pc)) && LoadStep(s, t, k, pc, c).Some?
    ensures LoadersOk(s, t, Stream(k, pc), LoadStep(s, t, k, pc, c).value)
  {
  }

  lemma EndLoadersOk(s: State, t: Tid, k: Key, pc: Pc)
    requires LocalLoader(s, t, Stream(k, pc)) && EndStep(s, t, k, pc).Some?
    ensures LoadersOk(s, t, Stream(k, pc), EndStep(s, t, k, pc).value)
  {
  }

  lemma EvictLoadersOk(s: State, t: Tid, m: string, epc: EvictPc, c: Choice)
    requires LocalLoader(s, t, Evict(m, epc)) && EvictStep(s, t, m, epc, c).Some?
    ensures LoadersOk(s, t, Evict(m, epc), EvictStep(s, t, m, epc, c).value)
  {
  }

  lemma StepLoadersOk(s: State, t: Tid, c: Choice)
    requires t < |s.tasks| && LocalLoader(s, t, s.tasks[t]) && TaskStep(s, t, c).Some?
    ensures LoadersOk(s, t, s.tasks[t], TaskStep(s, t, c).value)
  {
    match s.tasks[t] {
      case Stream(k, pc) =>
        if InWaitPhase(pc) {
          WaitLoadersOk(s, t, k, pc);
        } else if InLoadPhase(pc) {
          LoadLoadersOk(s, t, k, pc, c);
        } else {
          EndLoadersOk(s, t, k, pc);
        }
      case Evict(m, epc) =>
        EvictLoadersOk(s, t, m, epc, c);
    }
  }

  lemma ApplyKeepsLoaders(s: State, t: Tid, e: Effect)
    requires t < |s.tasks| && Locks(s) && Loaders(s) && InnerBranchDead(s) && LoadersOk(s, t, s.tasks[t], e)
    ensures Loaders(Apply(s, t, e)) && InnerBranchDead(Apply(s, t, e))
  {
  }
  /** What keeps the second Loaded slot away, seen from one task and one slot q. */
  ghost predicate ModelOk(s: State, t: Tid, old': Task, e: Effect, q: Key) {
    && (StateOf(Updated(s.slots, e.touch), q) == Loaded ==> Covers(e.task, q))
    && (StateOf(Updated(s.slots, e.touch), q) == Loaded ==>
          StateOf(s.slots, q) == Loaded || (PastUnload(old') && e.touch.Write? && e.touch.key == q))
  }

  ghost predicate LocalModel(s: State, t: Tid, task: Task, q: Key) {
    && (StateOf(s.slots, q) == Loaded ==> Covers(task, q))
    && (Loader(task) ==> StateOf(s.slots, task.key) == Loading)
    && (HeldSlot(task).Some? ==> HeldSlot(task).value in s.slots)
  }

  lemma WaitModelOk(s: State, t: Tid, k: Key, pc: Pc, q: Key)
    requires LocalModel(s, t, Stream(k, pc), q) && WaitStep(s, t, k, pc).Some?
    ensures ModelOk(s, t, Stream(k, pc), WaitStep(s, t, k, pc).value, q)
  {
  }

  lemma LoadModelOk(s: State, t: Tid, k: Key, pc: Pc, c: Choice, q: Key)
    requires LocalModel(s, t, Stream(k, pc), q) && LoadStep(s, t, k, pc, c).Some?
    ensures ModelOk(s, t, Stream(k, pc), LoadStep(s, t, k, pc, c).value, q)
  {
  }

  lemma EndModelOk(s: State, t: Tid, k: Key, pc: Pc, q: Key)
    requires LocalModel(s, t, Stream(k, pc), q) && EndStep(s, t, k, pc).Some?
    ensures ModelOk(s, t, Stream(k, pc), EndStep(s, t, k, pc).value, q)
  {
  }

  lemma EvictModelOk(s: State, t: Tid, m: string, epc: EvictPc, c: Choice, q: Key)
    requires LocalModel(s, t, Evict(m, epc), q) && EvictStep(s, t, m, epc, c).Some?
    ensures ModelOk(s, t, Evict(m, epc), EvictStep(s, t, m, epc, c).value, q)
  {
  }

  lemma StepModelOk(s: State, t: Tid, c: Choice, q: Key)
    requires t < |s.tasks| && LocalModel(s, t, s.tasks[t], q) && TaskStep(s, t, c).Some?
    ensures ModelOk(s, t, s.tasks[t], TaskStep(s, t, c).value, q)
  {
    match s.tasks[t] {
      case Stream(k, pc) =>
        if InWaitPhase(pc) {
          WaitModelOk(s, t, k, pc, q);
        } else if InLoadPhase(pc) {
          LoadModelOk(s, t, k, pc, c, q);
        } else {
          EndModelOk(s, t, k, pc, q);
        }
      case Evict(m, epc) =>
        EvictModelOk(s, t, m, epc, c, q);
    }
  }

  lemma ApplyKeepsOneModel(s: State, t: Tid, e: Effect)
    requires t < |s.tasks| && Locks(s) && OneModel(s) && forall q :: ModelOk(s, t, s.tasks[t], e, q)
    ensures OneModel(Apply(s, t, e))
  {
    var s' := Apply(s, t, e);
    forall k | k in s'.slots && s'.slots[k].state == Loaded
      ensures forall u :: 0 <= u < |s'.tasks| ==> Covers(s'.tasks[u], k)
      ensures forall k' :: k' in s'.slots && s'.slots[k'].state == Loaded ==> k' == k
    {
      assert ModelOk(s, t, s.tasks[t], e, k);
      forall k' | k' in s'.slots && s'.slots[k'].state == Loaded
        ensures k' == k
      {
        assert ModelOk(s, t, s.tasks[t], e, k');
      }
    }
  }

  /** A slot leaves Loading only with a notification, and nobody starts waiting on another state. */
  ghost predicate WaitersOk(s: State, e: Effect) {
    && (Waiting(e.task) ==> StateOf(Updated(s.slots, e.touch), e.task.key) == Loading)
    && (e.touch.Write? && StateOf(s.slots, e.touch.key) == Loading && e.touch.slot.state != Loading ==>
          e.wake == Some(e.touch.key))
  }

  lemma WaitWaitersOk(s: State, t: Tid, k: Key, pc: Pc)
    requires LocalLoader(s, t, Stream(k, pc)) && WaitStep(s, t, k, pc).Some?
    ensures WaitersOk(s, WaitStep(s, t, k, pc).value)
  {
  }

  lemma LoadWaitersOk(s: State, t: Tid, k: Key, pc: Pc, c: Choice)
    requires LocalLoader(s, t, Stream(k, pc)) && LoadStep(s, t, k, pc, c).Some?
    ensures WaitersOk(s, LoadStep(s, t, k, pc, c).value)
  {
  }

  lemma EndWaitersOk(s: State, t: Tid, k: Key, pc: Pc)
    requires LocalLoader(s, t, Stream(k, pc)) && EndStep(s, t, k, pc).Some?
    ensures WaitersOk(s, EndStep(s, t, k, pc).value)
  {
  }

  lemma EvictWaitersOk(s: State, t: Tid, m: string, epc: EvictPc, c: Choice)
    requires LocalLoader(s, t, Evict(m, epc)) && EvictStep(s, t, m, epc, c).Some?
    ensures WaitersOk(s, EvictStep(s, t, m, epc, c).value)
  {
  }

  lemma StepWaitersOk(s: State, t: Tid, c: Choice)
    requires t < |s.tasks| && LocalLoader(s, t, s.tasks[t]) && TaskStep(s, t, c).Some?
    ensures WaitersOk(s, TaskStep(s, t, c).value)
  {
    match s.tasks[t] {
      case Stream(k, pc) =>
        if InWaitPhase(pc) {
          WaitWaitersOk(s, t, k, pc);
        } else if InLoadPhase(pc) {
          LoadWaitersOk(s, t, k, pc, c);
        } else {
          EndWaitersOk(s, t, k, pc);
        }
      case Evict(m, epc) =>
        EvictWaitersOk(s, t, m, epc, c);
    }
  }

  lemma ApplyKeepsWaiters(s: State, t: Tid, e: Effect)
    requires t < |s.tasks| && Waiters(s) && WaitersOk(s, e)
    ensures Waiters(Apply(s, t, e))
  {
  }

  ghost predicate InUseOk(s: State, e: Effect) {
    e.task.Stream? && e.task.pc == Generating ==> e.touch == NoSlot && StateOf(s.slots, e.task.key) == Loaded
  }

  /** A step leaves the slot that another task holds as it is. */
  lemma OtherKeepsSlot(s: State, t: Tid, e: Effect, u: Tid, k: Key)
    requires t < |s.tasks| && u < |s.tasks| && u != t && k in s.slots && s.slots[k].holder == Some(u)
    requires LocksOk(s, t, s.tasks[t], e)
    ensures StateOf(Updated(s.slots, e.touch), k) == StateOf(s.slots, k)
  {
  }

  lemma ApplyKeepsInUse(s: State, t: Tid, e: Effect)
    requires t < |s.tasks| && Locks(s) && Keys(s) && InUse(s) && LocksOk(s, t, s.tasks[t], e) && InUseOk(s, e)
    ensures InUse(Apply(s, t, e))
  {
    var s' := Apply(s, t, e);
    forall u | 0 <= u < |s'.tasks| && s'.tasks[u].Stream? && s'.tasks[u].pc == Generating
      ensures StateOf(s'.slots, s'.tasks[u].key) == Loaded
    {
      if u != t {
        var k := s.tasks[u].key;
        assert s.tasks[u] == s'.tasks[u] && k in Mentioned(s.tasks[u]);
        OtherKeepsSlot(s, t, e, u, k);
      }
    }
  }

  /** Everything the invariant says about one task, without mentioning the others. */
  ghost predicate Local(s: State, t: Tid, task: Task) {
    && LocalLocks(s, t, task)
    && LocalLoader(s, t, task)
    && (forall q :: LocalModel(s, t, task, q))
    && Mentioned(task) <= s.slots.Keys
  }

  ghost predicate EffectOk(s: State, t: Tid, old': Task, e: Effect) {
    && LocksOk(s, t, old', e)
    && KeysOk(s, e)
    && LoadersOk(s, t, old', e)
    && (forall q :: ModelOk(s, t, old', e, q))
    && WaitersOk(s, e)
    && InUseOk(s, e)
  }

  lemma InvIsLocal(s: State, t: Tid)
    requires t < |s.tasks| && Inv(s)
    ensures Local(s, t, s.tasks[t])
  {
    var held := HeldSlot(s.tasks[t]);
    assert held.Some? ==> held.value in Mentioned(s.tasks[t]);
  }

  lemma StepEffectOk(s: State, t: Tid, c: Choice)
    requires t < |s.tasks| && Local(s, t, s.tasks[t]) && TaskStep(s, t, c).Some?
    ensures EffectOk(s, t, s.tasks[t], TaskStep(s, t, c).value)
  {
    var e := TaskStep(s, t, c).value;
    StepLocksOk(s, t, c);
    StepKeysOk(s, t, c);
    StepLoadersOk(s, t, c);
    forall q ensures ModelOk(s, t, s.tasks[t], e, q) {
      StepModelOk(s, t, c, q);
    }
    StepWaitersOk(s, t, c);
  }

  lemma EffectKeepsInv(s: State, t: Tid, e: Effect)
    requires t < |s.tasks| && Inv(s) && EffectOk(s, t, s.tasks[t], e)
    ensures Inv(Apply(s, t, e))
  {
    ApplyKeepsLocks(s, t, e);
    ApplyKeepsKeys(s, t, e);
    ApplyKeepsLoaders(s, t, e);
    ApplyKeepsOneModel(s, t, e);
    ApplyKeepsWaiters(s, t, e);
    ApplyKeepsInUse(s, t, e);
  }

  lemma StepKeepsInv(s: State, t: Tid, c: Choice)
    requires t < |s.tasks| && Inv(s) && Advance(s, t, c).Some?
    ensures Inv(Advance(s, t, c).value)
  {
    InvIsLocal(s, t);
    StepEffectOk(s, t, c);
    EffectKeepsInv(s, t, TaskStep(s, t, c).value);
  }
}
