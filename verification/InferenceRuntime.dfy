/**
 The runtime as an object that its tasks update in place, one atomic section at a time. Every
 section does what `ModelSlots.Advance` says, so everything proved there about runs holds of it.
 */
module InferenceRuntime {
  import opened Wrappers
  import opened ModelSlots
  import opened SlotInvariant
  import opened SlotProgress
  import opened SlotRuns
  import opened SlotOutcomes

  /** A scheduler picks the next task, and the outcomes that are not the program's to choose. */
  type Scheduler = State -> (Tid, Choice)

  ghost predicate Live(next: Scheduler) {
    forall s: State :: (exists t: Tid :: t < |s.tasks| && Enabled(s, t)) ==> Picks(s, next(s))
  }

  ghost predicate Picks(s: State, p: (Tid, Choice)) {
    p.0 < |s.tasks| && Advance(s, p.0, p.1).Some?
  }

  class Runtime {
    var models: map<Key, Slot>
    var coldLoad: Option<Tid>
    var tasks: seq<Task>

    function View(): State
      reads this
    {
      State(models, coldLoad, tasks)
    }

    constructor (ts: seq<Task>)
      requires Init(State(map[], None, ts))
      ensures View() == State(map[], None, ts)
    {
      models, coldLoad, tasks := map[], None, ts;
    }

    method GetOrCreateModelSlot(key: Key)
      modifies `models
      ensures models == if key in old(models) then old(models) else old(models)[key := Slot(Empty, None)]
    {
      if key !in models {
        models := models[key := Slot(Empty, None)];
      }
    }

    method OtherModelSlots(keepKey: Key) returns (others: set<Key>)
      ensures others == models.Keys - {keepKey}
    {
      others := set key | key in models && key != keepKey;
    }

    /** Takes a slot's lock if it is free. */
    method TryLock(t: Tid, key: Key) returns (locked: bool)
      modifies `models
      ensures locked <==> key in old(models) && old(models)[key].holder.None?
      ensures models == if locked then old(models)[key := old(models)[key].(holder := Some(t))] else old(models)
    {
      locked := key in models && models[key].holder.None?;
      if locked {
        models := models[key := models[key].(holder := Some(t))];
      }
    }

    method Unlock(key: Key)
      requires key in models
      modifies `models
      ensures models == old(models)[key := Slot(old(models)[key].state, None)]
    {
      models := models[key := models[key].(holder := None)];
    }

    method SetState(key: Key, state: SlotState)
      requires key in models
      modifies `models
      ensures models == old(models)[key := Slot(state, old(models)[key].holder)]
    {
      models := models[key := models[key].(state := state)];
    }

    method MoveTo(t: Tid, task: Task)
      requires t < |tasks|
      modifies `tasks
      ensures tasks == old(tasks)[t := task]
    {
      tasks := tasks[t := task];
    }

    /** Completes the `notified` futures of every task waiting on the slot. */
    method NotifyWaiters(key: Key)
      modifies `tasks
      ensures |tasks| == |old(tasks)| && forall i :: 0 <= i < |tasks| ==> tasks[i] == Wake(old(tasks)[i], Some(key))
    {
      for i := 0 to |tasks|
        invariant |tasks| == |old(tasks)|
        invariant forall j :: 0 <= j < i ==> tasks[j] == Wake(old(tasks)[j], Some(key))
        invariant forall j :: i <= j < |tasks| ==> tasks[j] == old(tasks)[j]
      {
        tasks := tasks[i := Wake(tasks[i], Some(key))];
      }
    }

    twostate predicate Did(t: Tid, e: Option<Effect>, moved: bool)
      requires t < |old(tasks)|
      reads this
    {
      moved == e.Some? && View() == if e.Some? then Apply(old(View()), t, e.value) else old(View())
    }

    /** The load loop up to the point where the slot is Loading or the task has left the loop. */
    method RunWait(t: Tid, k: Key, pc: Pc) returns (moved: bool)
      requires t < |tasks| && tasks[t] == Stream(k, pc) && InWaitPhase(pc) && Keys(View())
      modifies this
      ensures Did(t, WaitStep(old(View()), t, k, pc), moved)
    {
      moved := true;
      assert pc != Start ==> k in models.Keys by {
        assert Mentioned(tasks[t]) <= models.Keys;
      }
      match pc {
        case Start =>
          GetOrCreateModelSlot(k);
          MoveTo(t, Stream(k, WantSlot));
        case WantSlot =>
          moved := TryLock(t, k);
          if moved {
            MoveTo(t, Stream(k, HoldSlot));
          }
        case HoldSlot =>
          match models[k].state {
            case Loaded =>
              Unlock(k);
              MoveTo(t, Stream(k, WantGenerate));
            case Loading =>
              MoveTo(t, Stream(k, Registered(false)));
            case Empty =>
              Unlock(k);
              MoveTo(t, Stream(k, WantCold));
          }
        case Registered(woken) =>
          Unlock(k);
          MoveTo(t, Stream(k, Parked(woken)));
        case Parked(woken) =>
          moved := woken;
          if moved {
            MoveTo(t, Stream(k, WantSlot));
          }
        case WantCold =>
          moved := coldLoad.None?;
          if moved {
            coldLoad := Some(t);
            MoveTo(t, Stream(k, WantSlotCold));
          }
        case WantSlotCold =>
          moved := TryLock(t, k);
          if moved {
            MoveTo(t, Stream(k, HoldSlotCold));
          }
        case HoldSlotCold =>
          match models[k].state {
            case Loaded =>
              Unlock(k);
              MoveTo(t, Stream(k, LeaveCold(true)));
            case Loading =>
              MoveTo(t, Stream(k, RegisteredCold(false)));
            case Empty =>
              SetState(k, Loading);
              Unlock(k);
              MoveTo(t, Stream(k, Announce));
          }
        case RegisteredCold(woken) =>
          Unlock(k);
          MoveTo(t, Stream(k, ReleasingCold(woken)));
        case ReleasingCold(woken) =>
          coldLoad := None;
          MoveTo(t, Stream(k, Parked(woken)));
      }
      QuietMove(old(View()), t, WaitStep(old(View()), t, k, pc));
    }

    /** Announcing, unloading the other models, loading and publishing. */
    method RunLoad(t: Tid, k: Key, pc: Pc, c: Choice) returns (moved: bool)
      requires t < |tasks| && tasks[t] == Stream(k, pc) && InLoadPhase(pc) && Keys(View()) && Locks(View())
      modifies this
      ensures Did(t, LoadStep(old(View()), t, k, pc, c), moved)
    {
      moved := true;
      assert Mentioned(tasks[t]) <= models.Keys;
      match pc {
        case Announce =>
          MoveTo(t, Stream(k, if c.ok then Snapshot else WantReset(false)));
        case Snapshot =>
          var others := OtherModelSlots(k);
          MoveTo(t, Stream(k, Unload(others)));
        case Unload(rest) =>
          if rest == {} {
            MoveTo(t, Stream(k, Load));
          } else if c.pick in rest {
            moved := TryLock(t, c.pick);
            if moved {
              MoveTo(t, Stream(k, UnloadHold(rest - {c.pick}, c.pick)));
            }
          } else {
            moved := false;
          }
        case UnloadHold(rest, other) =>
          if models[other].state == Loaded {
            SetState(other, Empty);
          }
          Unlock(other);
          MoveTo(t, Stream(k, Unload(rest)));
        case Load =>
          MoveTo(t, Stream(k, if c.ok then WantPublish else WantReset(true)));
        case WantPublish =>
          moved := TryLock(t, k);
          if moved {
            MoveTo(t, Stream(k, HoldPublish));
          }
        case HoldPublish =>
          moved := Publish(t, k);
          return;
        case Published =>
          coldLoad := None;
          MoveTo(t, Stream(k, PublishedFree));
        case PublishedFree =>
          Unlock(k);
          MoveTo(t, Stream(k, WantGenerate));
      }
      QuietMove(old(View()), t, LoadStep(old(View()), t, k, pc, c));
    }

    /** Stores the model in its slot and wakes whoever waits for it. */
    method Publish(t: Tid, k: Key) returns (moved: bool)
      requires t < |tasks| && k in models && models[k].holder == Some(t)
      modifies this
      ensures moved
      ensures View() == Apply(old(View()), t,
                              Effect(Stream(k, Published), Write(k, Slot(Loaded, Some(t))), old(coldLoad), Some(k)))
    {
      SetState(k, Loaded);
      NotifyWaiters(k);
      MoveTo(t, Stream(k, Published));
      moved := true;
    }

    /** Empties the slot after a load that failed or that nobody waits for any more. */
    method Reset(t: Tid, k: Key, report: bool) returns (moved: bool)
      requires t < |tasks| && k in models && models[k].holder == Some(t)
      modifies this
      ensures moved
      ensures var task := Stream(k, if report then Report else ResetDone);
              View() == Apply(old(View()), t, Effect(task, Write(k, Slot(Empty, Some(t))), old(coldLoad), Some(k)))
    {
      SetState(k, Empty);
      NotifyWaiters(k);
      MoveTo(t, Stream(k, if report then Report else ResetDone));
      moved := true;
    }

    /** Resetting the slot after a failed load, and generating. */
    method RunEnd(t: Tid, k: Key, pc: Pc) returns (moved: bool)
      requires t < |tasks| && tasks[t] == Stream(k, pc) && !InWaitPhase(pc) && !InLoadPhase(pc)
      requires Keys(View()) && Locks(View())
      modifies this
      ensures Did(t, EndStep(old(View()), t, k, pc), moved)
    {
      moved := true;
      assert Mentioned(tasks[t]) <= models.Keys;
      match pc {
        case WantReset(report) =>
          moved := TryLock(t, k);
          if moved {
            MoveTo(t, Stream(k, HoldReset(report)));
          }
        case HoldReset(report) =>
          moved := Reset(t, k, report);
          return;
        case Report =>
          MoveTo(t, Stream(k, ResetDone));
        case ResetDone =>
          Unlock(k);
          MoveTo(t, Stream(k, LeaveCold(false)));
        case LeaveCold(toGenerate) =>
          coldLoad := None;
          MoveTo(t, Stream(k, if toGenerate then WantGenerate else ModelSlots.Pc.Finished));
        case WantGenerate =>
          moved := TryLock(t, k);
          if moved {
            MoveTo(t, Stream(k, HoldGenerate));
          }
        case HoldGenerate =>
          MoveTo(t, Stream(k, if models[k].state == Loaded then Generating else GenerateError));
        case Generating =>
          Unlock(k);
          MoveTo(t, Stream(k, ModelSlots.Pc.Finished));
        case GenerateError =>
          Unlock(k);
          MoveTo(t, Stream(k, ModelSlots.Pc.Finished));
        case Finished =>
          moved := false;
      }
      QuietMove(old(View()), t, EndStep(old(View()), t, k, pc));
    }

    /** One eviction: the matching slots are listed once, then visited one by one. */
    method RunEvict(t: Tid, m: string, epc: EvictPc, c: Choice) returns (moved: bool, evicted: bool)
      requires t < |tasks| && tasks[t] == Evict(m, epc) && Keys(View())
      modifies this
      ensures Did(t, EvictStep(old(View()), t, m, epc, c), moved)
      ensures evicted <==> exists k: Key :: StateOf(old(models), k) == Loaded && StateOf(models, k) == Empty
    {
      moved, evicted := true, false;
      assert Mentioned(tasks[t]) <= models.Keys;
      match epc {
        case EvictStart =>
          MoveTo(t, Evict(m, EvictWant(set k | k in models && k.modelId == m)));
        case EvictWant(rest) =>
          if rest == {} {
            MoveTo(t, Evict(m, EvictFinished));
          } else if c.pick in rest {
            moved := TryLock(t, c.pick);
            if moved {
              MoveTo(t, Evict(m, EvictHold(rest - {c.pick}, c.pick)));
            }
          } else {
            moved := false;
          }
        case EvictHold(rest, k) =>
          if models[k].state == Loaded {
            SetState(k, Empty);
            NotifyWaiters(k);
            evicted := true;
          }
          Unlock(k);
          MoveTo(t, Evict(m, EvictWant(rest)));
          assert evicted ==> StateOf(models, k) == Empty;
          return;
        case EvictFinished =>
          moved := false;
      }
      QuietMove(old(View()), t, EvictStep(old(View()), t, m, epc, c));
    }

    /** One atomic section of one task; nothing happens if it is blocked or finished. */
    method StepTask(t: Tid, c: Choice) returns (moved: bool)
      requires t < |tasks| && Inv(View())
      modifies this
      ensures moved == Advance(old(View()), t, c).Some?
      ensures View() == if moved then Advance(old(View()), t, c).value else old(View())
      ensures Inv(View())
    {
      match tasks[t] {
        case Stream(k, pc) =>
          if InWaitPhase(pc) {
            moved := RunWait(t, k, pc);
          } else if InLoadPhase(pc) {
            moved := RunLoad(t, k, pc, c);
          } else {
            moved := RunEnd(t, k, pc);
          }
        case Evict(m, epc) =>
          var evicted;
          moved, evicted := RunEvict(t, m, epc, c);
      }
      if moved {
        StepKeepsInv(old(View()), t, c);
      }
    }

    /** Whatever the scheduler picks, the runtime goes through a run, all tasks finish, and it is left quiet. */
    method RunToEnd(next: Scheduler) returns (ghost run: seq<State>, ghost turns: seq<Turn>)
      requires Init(View()) && Live(next)
      modifies this
      ensures AllDone(View()) && Quiet(View()) && Inv(View())
      ensures Follows(run, turns) && run[0] == old(View()) && run[|run| - 1] == View()
      ensures |turns| <= Measure(old(View()))
    {
      run, turns := [View()], [];
      InitInv(View());
      while !AllDone(View())
        invariant Inv(View()) && Known(View())
        invariant Follows(run, turns) && run[0] == old(View()) && run[|run| - 1] == View()
        invariant |turns| + Measure(View()) <= Measure(old(View()))
        decreases Measure(View())
      {
        var p := next(View());
        NotDonePicks(View(), next);
        StepKeepsKnown(View(), p.0, p.1);
        StepDecreases(View(), p.0, p.1);
        var moved := StepTask(p.0, p.1);
        FollowsMore(run, turns, Turn(p.0, p.1), View());
        run, turns := run + [View()], turns + [Turn(p.0, p.1)];
      }
      DoneMeansQuiet(View());
    }
  }

  lemma FollowsMore(r: seq<State>, turns: seq<Turn>, turn: Turn, s': State)
    requires Follows(r, turns) && Takes(r[|r| - 1], turn, s')
    ensures Follows(r + [s'], turns + [turn])
  {
    var longer, more := r + [s'], turns + [turn];
    forall i | 0 <= i < |more| ensures Takes(longer[i], more[i], longer[i + 1]) {
      assert i < |turns| ==> Takes(r[i], turns[i], r[i + 1]);
    }
  }

  lemma NotDonePicks(s: State, next: Scheduler)
    requires Inv(s) && !AllDone(s) && Live(next)
    ensures Picks(s, next(s))
  {
    var t :| 0 <= t < |s.tasks| && !Done(s.tasks[t]);
    NoDeadlock(s, t);
  }

  /** A step that wakes nobody changes one task. */
  lemma QuietMove(s: State, t: Tid, e: Option<Effect>)
    requires t < |s.tasks|
    ensures e.Some? && e.value.wake.None? ==> Apply(s, t, e.value).tasks == s.tasks[t := e.value.task]
  {
  }
}
