/** Every step of the model-slot protocol makes progress, and some step is always possible. */
module SlotProgress {
  import opened Wrappers
  import opened FiniteSets
  import opened ModelSlots
  import opened SlotInvariant

  /** Notifications the task may still issue; b bounds the number of slots. */
  function Credit(task: Task, b: nat): nat {
    match task
    case Stream(_, pc) => if InWaitPhase(pc) || Loader(task) then 1 else 0
    case Evict(_, EvictStart) => b + 1
    case Evict(_, EvictWant(rest)) => |rest|
    case Evict(_, EvictHold(rest, _)) => |rest| + 1
    case Evict(_, EvictFinished) => 0
  }

  /** Steps the task can take before it finishes or needs a notification. */
  function Rank(task: Task, b: nat): nat {
    match task
    case Stream(_, pc) =>
      (match pc
       case RegisteredCold(w) => if w then 20 + 2 * b else 11
       case ReleasingCold(w) => if w then 19 + 2 * b else 10
       case Registered(w) => if w then 19 + 2 * b else 10
       case Parked(w) => if w then 18 + 2 * b else 9
       case Start => 18 + 2 * b
       case WantSlot => 17 + 2 * b
       case HoldSlot => 16 + 2 * b
       case WantCold => 15 + 2 * b
       case WantSlotCold => 14 + 2 * b
       case HoldSlotCold => 13 + 2 * b
       case Announce => 12 + 2 * b
       case Snapshot => 11 + 2 * b
       case Unload(rest) => 10 + 2 * |rest|
       case UnloadHold(rest, _) => 11 + 2 * |rest|
       case Load => 9
       case WantPublish => 7
       case HoldPublish => 6
       case Published => 5
       case PublishedFree => 4
       case WantReset(_) => 8
       case HoldReset(_) => 7
       case Report => 6
       case ResetDone => 5
       case LeaveCold(_) => 4
       case WantGenerate => 3
       case HoldGenerate => 2
       case Generating => 1
       case GenerateError => 1
       case Finished => 0)
    case Evict(_, EvictStart) => 2 + 2 * b
    case Evict(_, EvictWant(rest)) => 1 + 2 * |rest|
    case Evict(_, EvictHold(rest, _)) => 2 + 2 * |rest|
    case Evict(_, EvictFinished) => 0
  }

  ghost predicate ProgressOk(old': Task, e: Effect, b: nat) {
    Credit(e.task, b) < Credit(old', b)
    || (Credit(e.task, b) == Credit(old', b) && e.wake == None && Rank(e.task, b) < Rank(old', b))
  }

  lemma WaitProgressOk(s: State, t: Tid, k: Key, pc: Pc, b: nat)
    requires |s.slots| <= b && WaitStep(s, t, k, pc).Some?
    ensures ProgressOk(Stream(k, pc), WaitStep(s, t, k, pc).value, b)
  {
  }

  lemma UnloadProgressOk(s: State, t: Tid, k: Key, pc: Pc, c: Choice, b: nat)
    requires (pc == Snapshot || pc.Unload?) && |s.slots| <= b && LoadStep(s, t, k, pc, c).Some?
    ensures ProgressOk(Stream(k, pc), LoadStep(s, t, k, pc, c).value, b)
  {
    if pc == Snapshot {
      SubsetAtMost(s.slots.Keys - {k}, s.slots.Keys);
    }
  }

  lemma LoadProgressOk(s: State, t: Tid, k: Key, pc: Pc, c: Choice, b: nat)
    requires |s.slots| <= b && LoadStep(s, t, k, pc, c).Some?
    ensures ProgressOk(Stream(k, pc), LoadStep(s, t, k, pc, c).value, b)
  {
    if pc == Snapshot || pc.Unload? {
      UnloadProgressOk(s, t, k, pc, c, b);
    }
  }

  lemma EndProgressOk(s: State, t: Tid, k: Key, pc: Pc, b: nat)
    requires |s.slots| <= b && EndStep(s, t, k, pc).Some?
    ensures ProgressOk(Stream(k, pc), EndStep(s, t, k, pc).value, b)
  {
  }

  lemma EvictProgressOk(s: State, t: Tid, m: string, epc: EvictPc, c: Choice, b: nat)
    requires |s.slots| <= b && EvictStep(s, t, m, epc, c).Some?
    ensures ProgressOk(Evict(m, epc), EvictStep(s, t, m, epc, c).value, b)
  {
    if epc == EvictStart {
      SubsetAtMost((set k | k in s.slots && k.modelId == m), s.slots.Keys);
    }
  }

  lemma StepProgressOk(s: State, t: Tid, c: Choice, b: nat)
    requires t < |s.tasks| && |s.slots| <= b && TaskStep(s, t, c).Some?
    ensures ProgressOk(s.tasks[t], TaskStep(s, t, c).value, b)
  {
    match s.tasks[t] {
      case Stream(k, pc) =>
        if InWaitPhase(pc) {
          WaitProgressOk(s, t, k, pc, b);
        } else if InLoadPhase(pc) {
          LoadProgressOk(s, t, k, pc, c, b);
        } else {
          EndProgressOk(s, t, k, pc, b);
        }
      case Evict(m, epc) =>
        EvictProgressOk(s, t, m, epc, c, b);
    }
  }

  function Total(tasks: seq<Task>, w: Task -> nat): nat {
    if tasks == [] then 0 else w(tasks[0]) + Total(tasks[1..], w)
  }

  lemma {:induction false} TotalUpdate(a: seq<Task>, b: seq<Task>, t: nat, w: Task -> nat)
    requires t < |a| == |b| && forall i :: 0 <= i < |a| && i != t ==> w(a[i]) == w(b[i])
    ensures Total(a, w) - w(a[t]) == Total(b, w) - w(b[t])
  {
    if t == 0 {
      TotalSame(a[1..], b[1..], w);
    } else {
      TotalUpdate(a[1..], b[1..], t - 1, w);
    }
  }

  lemma {:induction false} TotalSame(a: seq<Task>, b: seq<Task>, w: Task -> nat)
    requires |a| == |b| && forall i :: 0 <= i < |a| ==> w(a[i]) == w(b[i])
    ensures Total(a, w) == Total(b, w)
  {
    if a != [] {
      TotalSame(a[1..], b[1..], w);
    }
  }

  lemma {:induction false} TotalBound(a: seq<Task>, w: Task -> nat, m: nat)
    requires forall i :: 0 <= i < |a| ==> w(a[i]) <= m
    ensures Total(a, w) <= |a| * m
  {
    if a != [] {
      TotalBound(a[1..], w, m);
      assert |a| * m == m + |a[1..]| * m;
    }
  }

  function CreditUpTo(b: nat): Task -> nat { (task: Task) => Credit(task, b) }

  function RankUpTo(b: nat): Task -> nat { (task: Task) => Rank(task, b) }

  /** The slots the tasks can ever create. */
  function KeysOf(tasks: seq<Task>): set<Key> {
    set i | 0 <= i < |tasks| && tasks[i].Stream? :: tasks[i].key
  }

  ghost predicate Known(s: State) {
    s.slots.Keys <= KeysOf(s.tasks)
  }

  function Lex(c: nat, r: nat, m: nat): nat { c * (m + 1) + r }

  /** The largest possible sum of the ranks of n tasks over b slots. */
  function RankSpan(n: nat, b: nat): nat { n * (20 + 2 * b) }

  /** An upper bound on the number of steps still to come. */
  function Measure(s: State): nat {
    var b := |KeysOf(s.tasks)|;
    Lex(Total(s.tasks, CreditUpTo(b)), Total(s.tasks, RankUpTo(b)), RankSpan(|s.tasks|, b))
  }

  predicate SameJob(a: Task, b: Task) {
    (a.Stream? && b.Stream? && a.key == b.key) || (a.Evict? && b.Evict? && a.modelId == b.modelId)
  }

  lemma SameJobsSameKeys(a: seq<Task>, b: seq<Task>)
    requires |a| == |b| && forall i :: 0 <= i < |a| ==> SameJob(a[i], b[i])
    ensures KeysOf(b) == KeysOf(a)
  {
    forall k | k in KeysOf(a) ensures k in KeysOf(b) {
      var i :| 0 <= i < |a| && a[i].Stream? && a[i].key == k;
      assert SameJob(a[i], b[i]) && b[i].key == k;
    }
    forall k | k in KeysOf(b) ensures k in KeysOf(a) {
      var i :| 0 <= i < |b| && b[i].Stream? && b[i].key == k;
      assert SameJob(a[i], b[i]) && a[i].key == k;
    }
  }

  lemma StepKeepsKnown(s: State, t: Tid, c: Choice)
    requires t < |s.tasks| && Keys(s) && Known(s) && Advance(s, t, c).Some?
    ensures Known(Advance(s, t, c).value)
    ensures KeysOf(Advance(s, t, c).value.tasks) == KeysOf(s.tasks)
    ensures |Advance(s, t, c).value.tasks| == |s.tasks|
  {
    var s' := Advance(s, t, c).value;
    var e := TaskStep(s, t, c).value;
    assert SameJob(s.tasks[t], e.task);
    SameJobsSameKeys(s.tasks, s'.tasks);
    var held := HeldSlot(s.tasks[t]);
    assert held.Some? ==> held.value in Mentioned(s.tasks[t]);
    assert e.touch.Write? && e.touch.key !in s.slots ==> s.tasks[t] == Stream(e.touch.key, Start);
  }

  lemma RankBound(s: State, t: Tid)
    requires t < |s.tasks| && Keys(s) && Known(s)
    ensures Rank(s.tasks[t], |KeysOf(s.tasks)|) <= 20 + 2 * |KeysOf(s.tasks)|
  {
    var task := s.tasks[t];
    SubsetAtMost(Mentioned(task), KeysOf(s.tasks));
    match task {
      case Stream(_, Unload(rest)) => SubsetAtMost(rest, Mentioned(task));
      case Stream(_, UnloadHold(rest, _)) => SubsetAtMost(rest, Mentioned(task));
      case Evict(_, EvictHold(rest, _)) => SubsetAtMost(rest, Mentioned(task));
      case _ =>
    }
  }

  lemma RankTotalBound(s: State)
    requires Keys(s) && Known(s)
    ensures Total(s.tasks, RankUpTo(|KeysOf(s.tasks)|)) <= RankSpan(|s.tasks|, |KeysOf(s.tasks)|)
  {
    var b := |KeysOf(s.tasks)|;
    forall i | 0 <= i < |s.tasks| ensures RankUpTo(b)(s.tasks[i]) <= 20 + 2 * b {
      RankBound(s, i);
    }
    TotalBound(s.tasks, RankUpTo(b), 20 + 2 * b);
  }

  /** A step spends a credit, or keeps all credits and lowers the sum of ranks. */
  lemma StepSpends(s: State, t: Tid, c: Choice, b: nat)
    requires t < |s.tasks| && |s.slots| <= b && Advance(s, t, c).Some?
    ensures Total(Advance(s, t, c).value.tasks, CreditUpTo(b)) < Total(s.tasks, CreditUpTo(b))
      || (Total(Advance(s, t, c).value.tasks, CreditUpTo(b)) == Total(s.tasks, CreditUpTo(b))
          && Total(Advance(s, t, c).value.tasks, RankUpTo(b)) < Total(s.tasks, RankUpTo(b)))
  {
    var s' := Advance(s, t, c).value;
    var e := TaskStep(s, t, c).value;
    StepProgressOk(s, t, c, b);
    TotalUpdate(s.tasks, s'.tasks, t, CreditUpTo(b));
    if Credit(e.task, b) == Credit(s.tasks[t], b) {
      TotalUpdate(s.tasks, s'.tasks, t, RankUpTo(b));
    }
  }

  lemma Lexicographic(c: nat, r: nat, c': nat, r': nat, m: nat)
    requires c' < c || (c' == c && r' < r)
    requires r' <= m
    ensures Lex(c', r', m) < Lex(c, r, m)
  {
    if c' < c {
      assert c * (m + 1) - c' * (m + 1) == (c - c' - 1) * (m + 1) + (m + 1);
      assert (c - c' - 1) * (m + 1) >= 0;
    }
  }

  lemma StepKeepsKeys(s: State, t: Tid, c: Choice)
    requires t < |s.tasks| && Keys(s) && Advance(s, t, c).Some?
    ensures Keys(Advance(s, t, c).value)
  {
    StepKeysOk(s, t, c);
    ApplyKeepsKeys(s, t, TaskStep(s, t, c).value);
  }

  /** Every step of every task brings the end of the run nearer, whatever the scheduler does. */
  lemma StepDecreases(s: State, t: Tid, c: Choice)
    requires t < |s.tasks| && Keys(s) && Known(s) && Advance(s, t, c).Some?
    ensures Measure(Advance(s, t, c).value) < Measure(s)
  {
    SubsetAtMost(s.slots.Keys, KeysOf(s.tasks));
    StepKeepsKnown(s, t, c);
    StepKeepsKeys(s, t, c);
    StepSpends(s, t, c, |KeysOf(s.tasks)|);
    SpendsDecreases(s, Advance(s, t, c).value, |KeysOf(s.tasks)|);
  }

  lemma SpendsDecreases(s: State, s': State, b: nat)
    requires b == |KeysOf(s.tasks)| == |KeysOf(s'.tasks)| && |s.tasks| == |s'.tasks| && Keys(s') && Known(s')
    requires Total(s'.tasks, CreditUpTo(b)) < Total(s.tasks, CreditUpTo(b))
      || (Total(s'.tasks, CreditUpTo(b)) == Total(s.tasks, CreditUpTo(b))
          && Total(s'.tasks, RankUpTo(b)) < Total(s.tasks, RankUpTo(b)))
    ensures Measure(s') < Measure(s)
  {
    RankTotalBound(s');
    Lexicographic(Total(s.tasks, CreditUpTo(b)), Total(s.tasks, RankUpTo(b)),
                  Total(s'.tasks, CreditUpTo(b)), Total(s'.tasks, RankUpTo(b)), RankSpan(|s.tasks|, b));
  }

  // ----- no deadlock -----

  ghost predicate Enabled(s: State, t: Tid)
    requires t < |s.tasks|
  {
    exists c: Choice :: Advance(s, t, c).Some?
  }

  lemma EnabledBy(s: State, t: Tid, c: Choice)
    requires t < |s.tasks| && TaskStep(s, t, c).Some?
    ensures Enabled(s, t)
  {
    assert Advance(s, t, c).Some?;
  }

  /** Whoever holds a slot lock can step: nobody waits while holding one. */
  lemma SlotHolderRuns(s: State, t: Tid)
    requires t < |s.tasks| && HeldSlot(s.tasks[t]).Some?
    ensures Enabled(s, t)
  {
    EnabledBy(s, t, Choice(true, Key("", "", "")));
  }

  /** While all slot locks are free a task can only wait for the cold-load lock or a notification. */
  lemma RunsWhenSlotsFree(s: State, t: Tid)
    requires t < |s.tasks| && Keys(s) && !Done(s.tasks[t])
    requires forall k :: k in s.slots ==> s.slots[k].holder == None
    requires !Waiting(s.tasks[t]) && (s.tasks[t].Stream? && s.tasks[t].pc == WantCold ==> s.cold == None)
    ensures Enabled(s, t)
  {
    var rest := match s.tasks[t] { case Stream(_, Unload(r)) => r case Evict(_, EvictWant(r)) => r case _ => {} };
    if rest == {} {
      EnabledBy(s, t, Choice(true, Key("", "", "")));
    } else {
      var k :| k in rest;
      assert k in Mentioned(s.tasks[t]);
      EnabledBy(s, t, Choice(true, k));
    }
  }

  /** As long as some task is unfinished, some task can step. */
  lemma NoDeadlock(s: State, t: Tid)
    requires Inv(s) && t < |s.tasks| && !Done(s.tasks[t])
    ensures exists u: Tid :: u < |s.tasks| && Enabled(s, u)
  {
    if k :| k in s.slots && s.slots[k].holder.Some? {
      SlotHolderRuns(s, s.slots[k].holder.value);
    } else if HeldSlot(s.tasks[t]).Some? {
      SlotHolderRuns(s, t);
    } else if s.cold.Some? {
      assert HoldsCold(s.tasks[s.cold.value]);
      RunsWhenSlotsFree(s, s.cold.value);
    } else {
      RunsWhenSlotsFree(s, t);
    }
  }
}
