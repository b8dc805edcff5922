/** What becomes of every task over a whole run: who generates, who reports an error, which models evictions hit. */
module SlotOutcomes {
  import opened Wrappers
  import opened ModelSlots
  import opened SlotInvariant
  import opened SlotProgress
  import opened SlotRuns

  /** Who stepped, and how what the program does not choose came out. */
  datatype Turn = Turn(t: Tid, c: Choice)

  ghost predicate Takes(s: State, turn: Turn, s': State) {
    turn.t < |s.tasks| && Advance(s, turn.t, turn.c) == Some(s')
  }

  ghost predicate Follows(r: seq<State>, turns: seq<Turn>) {
    && |r| == |turns| + 1
    && Init(r[0])
    && forall i :: 0 <= i < |turns| ==> Takes(r[i], turns[i], r[i + 1])
  }

  lemma FollowsIsRun(r: seq<State>, turns: seq<Turn>)
    requires Follows(r, turns)
    ensures IsRun(r)
  {
    forall i | 0 <= i < |r| - 1 ensures Step(r[i], r[i + 1]) {
      assert Takes(r[i], turns[i], r[i + 1]);
    }
  }

  lemma FollowsInv(r: seq<State>, turns: seq<Turn>, i: nat)
    requires Follows(r, turns) && i < |r|
    ensures Inv(r[i]) && |r[i].tasks| == |r[0].tasks|
  {
    FollowsIsRun(r, turns);
    RunInv(r, i);
    SameTasks(r, turns, i);
  }

  lemma {:induction false} SameTasks(r: seq<State>, turns: seq<Turn>, i: nat)
    requires Follows(r, turns) && i < |r|
    ensures |r[i].tasks| == |r[0].tasks|
  {
    if i > 0 {
      SameTasks(r, turns, i - 1);
      assert Takes(r[i - 1], turns[i - 1], r[i]);
    }
  }

  // ----- the ways a task can go -----

  predicate Edge(from: Pc, to: Pc, state: SlotState, ok: bool) {
    match from
    case Start => to.WantSlot?
    case WantSlot => to.HoldSlot?
    case HoldSlot =>
      (match state
       case Loaded => to.WantGenerate?
       case Loading => to == Registered(false)
       case Empty => to.WantCold?)
    case Registered(w) => to == Parked(w)
    case Parked(_) => to.WantSlot?
    case WantCold => to.WantSlotCold?
    case WantSlotCold => to.HoldSlotCold?
    case HoldSlotCold =>
      (match state
       case Loaded => to == LeaveCold(true)
       case Loading => to == RegisteredCold(false)
       case Empty => to.Announce?)
    case RegisteredCold(w) => to == ReleasingCold(w)
    case ReleasingCold(w) => to == Parked(w)
    case Announce => if ok then to.Snapshot? else to == WantReset(false)
    case Snapshot => to.Unload?
    case Unload(_) => to.Load? || to.UnloadHold?
    case UnloadHold(_, _) => to.Unload?
    case Load => if ok then to.WantPublish? else to == WantReset(true)
    case WantPublish => to.HoldPublish?
    case HoldPublish => to.Published?
    case Published => to.PublishedFree?
    case PublishedFree => to.WantGenerate?
    case WantReset(report) => to == HoldReset(report)
    case HoldReset(report) => if report then to.Report? else to.ResetDone?
    case Report => to.ResetDone?
    case ResetDone => to == LeaveCold(false)
    case LeaveCold(toGenerate) => if toGenerate then to.WantGenerate? else to.Finished?
    case WantGenerate => to.HoldGenerate?
    case HoldGenerate => if state == Loaded then to.Generating? else to.GenerateError?
    case Generating => to.Finished?
    case GenerateError => to.Finished?
    case Finished => false
  }

  lemma WaitEdge(s: State, t: Tid, k: Key, pc: Pc)
    requires WaitStep(s, t, k, pc).Some?
    ensures var e := WaitStep(s, t, k, pc).value;
            e.task.Stream? && e.task.key == k && forall ok :: Edge(pc, e.task.pc, StateOf(s.slots, k), ok)
  {
  }

  lemma LoadEdge(s: State, t: Tid, k: Key, pc: Pc, c: Choice)
    requires LoadStep(s, t, k, pc, c).Some?
    ensures var e := LoadStep(s, t, k, pc, c).value;
            e.task.Stream? && e.task.key == k && Edge(pc, e.task.pc, StateOf(s.slots, k), c.ok)
  {
  }

  lemma EndEdge(s: State, t: Tid, k: Key, pc: Pc)
    requires EndStep(s, t, k, pc).Some?
    ensures var e := EndStep(s, t, k, pc).value;
            e.task.Stream? && e.task.key == k && forall ok :: Edge(pc, e.task.pc, StateOf(s.slots, k), ok)
  {
  }

  predicate Sleeping(pc: Pc) {
    pc.Registered? || pc.Parked? || pc.RegisteredCold? || pc.ReleasingCold?
  }

  /** What one turn does to one streaming task: its own turn takes an edge, another's may only wake it. */
  ghost predicate Goes(s: State, turn: Turn, s': State, t: Tid)
    requires t < |s.tasks| && s.tasks[t].Stream?
  {
    && t < |s'.tasks| && s'.tasks[t].Stream? && s'.tasks[t].key == s.tasks[t].key
    && var from, to := s.tasks[t].pc, s'.tasks[t].pc;
       if turn.t == t then Edge(from, to, StateOf(s.slots, s.tasks[t].key), turn.c.ok)
       else to == from || (Sleeping(from) && Sleeping(to))
  }

  lemma TurnGoes(s: State, turn: Turn, s': State, t: Tid)
    requires Takes(s, turn, s') && t < |s.tasks| && s.tasks[t].Stream?
    ensures Goes(s, turn, s', t)
  {
    if turn.t == t {
      var k, pc := s.tasks[t].key, s.tasks[t].pc;
      if InWaitPhase(pc) {
        WaitEdge(s, t, k, pc);
      } else if InLoadPhase(pc) {
        LoadEdge(s, t, k, pc, turn.c);
      } else {
        EndEdge(s, t, k, pc);
      }
    }
  }

  ghost predicate Streams(r: seq<State>, t: Tid) {
    |r| > 0 && t < |r[0].tasks| && r[0].tasks[t].Stream?
  }

  ghost predicate At(r: seq<State>, t: Tid, i: nat, pc: Pc) {
    i < |r| && t < |r[i].tasks| && r[i].tasks[t].Stream? && r[i].tasks[t].pc == pc
  }

  /** The task takes turn i at pc, and it comes out as ok says. */
  ghost predicate Turned(r: seq<State>, turns: seq<Turn>, t: Tid, i: nat, pc: Pc, ok: bool) {
    i < |turns| && turns[i].t == t && turns[i].c.ok == ok && At(r, t, i, pc)
  }

  lemma {:induction false} StaysStream(r: seq<State>, turns: seq<Turn>, t: Tid, i: nat)
    requires Follows(r, turns) && Streams(r, t) && i < |r|
    ensures t < |r[i].tasks| && r[i].tasks[t].Stream? && r[i].tasks[t].key == r[0].tasks[t].key
    ensures i < |turns| ==> Goes(r[i], turns[i], r[i + 1], t)
  {
    if i > 0 {
      StaysStream(r, turns, t, i - 1);
    }
    if i < |turns| {
      assert Takes(r[i], turns[i], r[i + 1]);
      TurnGoes(r[i], turns[i], r[i + 1], t);
    }
  }

  // ----- errors and answers -----

  predicate Answering(pc: Pc) {
    pc.Generating? || pc.GenerateError? || pc.Report?
  }

  /** By i the task has generated or reported an error, or the receiver was found gone. */
  ghost predicate Settled(r: seq<State>, turns: seq<Turn>, t: Tid, i: nat) {
    exists n :: 0 <= n <= i && (Turned(r, turns, t, n, Announce, false) || AnswersAt(r, t, n))
  }

  ghost predicate AnswersAt(r: seq<State>, t: Tid, i: nat) {
    i < |r| && t < |r[i].tasks| && r[i].tasks[t].Stream? && Answering(r[i].tasks[t].pc)
  }

  predicate Over(pc: Pc) {
    match pc
    case WantReset(report) => !report
    case HoldReset(report) => !report
    case ResetDone => true
    case LeaveCold(toGenerate) => !toGenerate
    case Finished => true
    case _ => false
  }

  lemma OverEdge(from: Pc, to: Pc, state: SlotState, ok: bool)
    requires Edge(from, to, state, ok) && Over(to)
    ensures Over(from) || Answering(from) || (from == Announce && !ok)
  {
  }

  lemma SettledStays(r: seq<State>, turns: seq<Turn>, t: Tid, i: nat)
    requires Settled(r, turns, t, i)
    ensures Settled(r, turns, t, i + 1)
  {
  }

  lemma {:induction false} OverIsSettled(r: seq<State>, turns: seq<Turn>, t: Tid, i: nat)
    requires Follows(r, turns) && Streams(r, t) && i < |r|
    ensures t < |r[i].tasks| && r[i].tasks[t].Stream?
    ensures Over(r[i].tasks[t].pc) ==> Settled(r, turns, t, i)
  {
    StaysStream(r, turns, t, i);
    if i > 0 {
      StaysStream(r, turns, t, i - 1);
      OverIsSettled(r, turns, t, i - 1);
      var from := r[i - 1].tasks[t].pc;
      if Over(from) {
        SettledStays(r, turns, t, i - 1);
      } else if turns[i - 1].t == t && Over(r[i].tasks[t].pc) {
        OverEdge(from, r[i].tasks[t].pc, StateOf(r[i - 1].slots, r[i - 1].tasks[t].key), turns[i - 1].c.ok);
        assert AnswersAt(r, t, i - 1) || Turned(r, turns, t, i - 1, Announce, false);
      } else {
        assert !Over(r[i].tasks[t].pc);
      }
    }
  }

  /** No task ends silently: it has generated or reported an error, unless nobody was there to be told that it loads. */
  lemma EveryTaskAnswers(r: seq<State>, turns: seq<Turn>, t: Tid, i: nat)
    requires Follows(r, turns) && Streams(r, t) && At(r, t, i, Finished)
    ensures exists n :: 0 <= n < i && (Turned(r, turns, t, n, Announce, false) || AnswersAt(r, t, n))
  {
    OverIsSettled(r, turns, t, i);
    var n :| 0 <= n <= i && (Turned(r, turns, t, n, Announce, false) || AnswersAt(r, t, n));
    assert n < i;
  }

  /** A set of positions that no turn leaves. */
  ghost predicate Closed(set': Pc -> bool) {
    && (forall from, to, state, ok :: set'(from) && Edge(from, to, state, ok) ==> set'(to))
    && (forall from, to :: set'(from) && Sleeping(from) && Sleeping(to) ==> set'(to))
  }

  lemma {:induction false} StaysIn(r: seq<State>, turns: seq<Turn>, t: Tid, i: nat, j: nat, set': Pc -> bool)
    requires Follows(r, turns) && Streams(r, t) && i <= j < |r| && Closed(set')
    requires t < |r[i].tasks| && r[i].tasks[t].Stream? && set'(r[i].tasks[t].pc)
    ensures t < |r[j].tasks| && r[j].tasks[t].Stream? && set'(r[j].tasks[t].pc)
    decreases j - i
  {
    if i < j {
      StaysStream(r, turns, t, i);
      StaysIn(r, turns, t, i + 1, j, set');
    }
  }

  predicate Failing(pc: Pc) {
    match pc
    case WantReset(_) => true
    case HoldReset(_) => true
    case Report => true
    case ResetDone => true
    case LeaveCold(toGenerate) => !toGenerate
    case Finished => true
    case _ => false
  }

  predicate Ending(pc: Pc) {
    pc.Generating? || pc.GenerateError? || pc.Finished?
  }

  predicate Reporting(pc: Pc) {
    pc == WantReset(true) || pc == HoldReset(true)
  }

  lemma {:induction false} ReportsBy(r: seq<State>, turns: seq<Turn>, t: Tid, i: nat, j: nat)
    requires Follows(r, turns) && Streams(r, t) && i <= j < |r|
    requires At(r, t, i, WantReset(true))
    ensures t < |r[j].tasks| && r[j].tasks[t].Stream?
    ensures Reporting(r[j].tasks[t].pc) || exists n :: i <= n <= j && At(r, t, n, Report)
    decreases j
  {
    if i < j {
      ReportsBy(r, turns, t, i, j - 1);
      StaysStream(r, turns, t, j - 1);
      assert At(r, t, j, r[j].tasks[t].pc);
    }
  }

  lemma NeverBefore(r: seq<State>, turns: seq<Turn>, t: Tid, i: nat, j: nat)
    requires Follows(r, turns) && Streams(r, t) && i <= j < |r| && (At(r, t, j, Load) || At(r, t, j, Announce))
    ensures !At(r, t, i, Generating) && !At(r, t, i, GenerateError) && !At(r, t, i, Finished)
  {
    if At(r, t, i, Generating) || At(r, t, i, GenerateError) || At(r, t, i, Finished) {
      StaysIn(r, turns, t, i, j, Ending);
    }
  }

  lemma NeverAfter(r: seq<State>, turns: seq<Turn>, t: Tid, i: nat, j: nat)
    requires Follows(r, turns) && Streams(r, t) && i <= j < |r|
    requires At(r, t, i, WantReset(true)) || At(r, t, i, WantReset(false))
    ensures !At(r, t, j, Generating) && !At(r, t, j, GenerateError)
  {
    StaysIn(r, turns, t, i, j, Failing);
  }

  lemma FailureFollows(r: seq<State>, turns: seq<Turn>, t: Tid, i: nat)
    requires Follows(r, turns) && Streams(r, t) && Turned(r, turns, t, i, Load, false)
    ensures At(r, t, i + 1, WantReset(true))
  {
    StaysStream(r, turns, t, i);
    StaysStream(r, turns, t, i + 1);
  }

  /** A load that fails is reported by the task that tried it, which never generates. */
  lemma FailedLoadIsReported(r: seq<State>, turns: seq<Turn>, t: Tid, i: nat, j: nat)
    requires Follows(r, turns) && Streams(r, t) && Turned(r, turns, t, i, Load, false) && j < |r|
    ensures !At(r, t, j, Generating) && !At(r, t, j, GenerateError)
    ensures At(r, t, j, Finished) ==> exists n :: i < n < j && At(r, t, n, Report)
  {
    if j <= i {
      NeverBefore(r, turns, t, j, i);
    } else {
      FailureFollows(r, turns, t, i);
      NeverAfter(r, turns, t, i + 1, j);
      ReportsBy(r, turns, t, i + 1, j);
    }
  }

  lemma ReportEdge(from: Pc, to: Pc, state: SlotState, ok: bool)
    requires Edge(from, to, state, ok) && (Reporting(to) || to == Report)
    ensures Reporting(from) || (from == Load && !ok)
  {
  }

  predicate ToReport(pc: Pc) {
    Reporting(pc) || pc == Report
  }

  lemma ReportTurn(r: seq<State>, turns: seq<Turn>, t: Tid, i: nat)
    requires Follows(r, turns) && Streams(r, t) && i + 1 < |r|
    requires t < |r[i + 1].tasks| && r[i + 1].tasks[t].Stream? && ToReport(r[i + 1].tasks[t].pc)
    ensures t < |r[i].tasks| && r[i].tasks[t].Stream?
    ensures Turned(r, turns, t, i, Load, false) || ToReport(r[i].tasks[t].pc)
  {
    StaysStream(r, turns, t, i);
    StaysStream(r, turns, t, i + 1);
    var from, to := r[i].tasks[t].pc, r[i + 1].tasks[t].pc;
    if turns[i].t == t {
      ReportEdge(from, to, StateOf(r[i].slots, r[i].tasks[t].key), turns[i].c.ok);
    }
  }

  /** Only failed loads are reported. */
  lemma {:induction false} ReportedLoadFailed(r: seq<State>, turns: seq<Turn>, t: Tid, i: nat)
    requires Follows(r, turns) && Streams(r, t) && i < |r|
    ensures t < |r[i].tasks| && r[i].tasks[t].Stream?
    ensures Reporting(r[i].tasks[t].pc) || r[i].tasks[t].pc == Report ==>
              exists n :: 0 <= n < i && Turned(r, turns, t, n, Load, false)
  {
    StaysStream(r, turns, t, i);
    if i > 0 && ToReport(r[i].tasks[t].pc) {
      ReportTurn(r, turns, t, i - 1);
      ReportedLoadFailed(r, turns, t, i - 1);
    }
  }

  // ----- what a turn does to a slot -----

  ghost predicate Errors(s: State) {
    forall t :: 0 <= t < |s.tasks| && s.tasks[t].Stream? && s.tasks[t].pc == GenerateError ==>
      StateOf(s.slots, s.tasks[t].key) != Loaded
  }

  lemma TurnKeepsHeld(s: State, turn: Turn, s': State, u: Tid, k: Key)
    requires Takes(s, turn, s') && Inv(s) && u < |s.tasks| && u != turn.t && HeldSlot(s.tasks[u]) == Some(k)
    ensures StateOf(s'.slots, k) == StateOf(s.slots, k)
  {
    InvIsLocal(s, turn.t);
    InvIsLocal(s, u);
    StepLocksOk(s, turn.t, turn.c);
    OtherKeepsSlot(s, turn.t, TaskStep(s, turn.t, turn.c).value, u, k);
  }

  lemma ErrorIsFound(s: State, t: Tid, c: Choice)
    requires t < |s.tasks| && TaskStep(s, t, c).Some?
    requires var e := TaskStep(s, t, c).value; e.task.Stream? && e.task.pc == GenerateError
    ensures var e := TaskStep(s, t, c).value; e.touch == NoSlot && StateOf(s.slots, e.task.key) != Loaded
  {
  }

  lemma ErrorStays(s: State, turn: Turn, s': State, t: Tid)
    requires Takes(s, turn, s') && Inv(s) && Errors(s) && t != turn.t
    requires t < |s.tasks| && s.tasks[t].Stream? && s.tasks[t].pc == GenerateError
    ensures StateOf(s'.slots, s.tasks[t].key) != Loaded
  {
    TurnKeepsHeld(s, turn, s', t, s.tasks[t].key);
  }

  lemma TurnKeepsErrors(s: State, turn: Turn, s': State)
    requires Takes(s, turn, s') && Inv(s) && Errors(s)
    ensures Errors(s')
  {
    var e := TaskStep(s, turn.t, turn.c).value;
    forall t | 0 <= t < |s'.tasks| && s'.tasks[t].Stream? && s'.tasks[t].pc == GenerateError
      ensures StateOf(s'.slots, s'.tasks[t].key) != Loaded
    {
      if turn.t == t {
        ErrorIsFound(s, t, turn.c);
      } else {
        assert s'.tasks[t] == Wake(s.tasks[t], e.wake) == s.tasks[t];
        ErrorStays(s, turn, s', t);
      }
    }
  }

  lemma {:induction false} RunErrors(r: seq<State>, turns: seq<Turn>, i: nat)
    requires Follows(r, turns) && i < |r|
    ensures Errors(r[i])
  {
    if i > 0 {
      RunErrors(r, turns, i - 1);
      FollowsInv(r, turns, i - 1);
      assert Takes(r[i - 1], turns[i - 1], r[i]);
      TurnKeepsErrors(r[i - 1], turns[i - 1], r[i]);
    }
  }

  /** A task complains about a missing model only while it holds the lock of a slot in which there is none. */
  lemma ErrorMeansNotLoaded(r: seq<State>, turns: seq<Turn>, t: Tid, i: nat)
    requires Follows(r, turns) && Streams(r, t) && At(r, t, i, GenerateError)
    ensures var k := r[i].tasks[t].key;
            k in r[i].slots && r[i].slots[k].holder == Some(t) && r[i].slots[k].state != Loaded
  {
    FollowsInv(r, turns, i);
    RunErrors(r, turns, i);
    assert r[i].tasks[t].key in Mentioned(r[i].tasks[t]);
  }

  /** Who may change the state of a slot, and how. */
  predicate Rightly(task: Task, k: Key, from: SlotState, to: SlotState) {
    match (from, to)
    case (Empty, Loading) => task.Stream? && task.key == k
    case (Loading, Loaded) => task.Stream? && task.key == k
    case (Loading, Empty) => task.Stream? && task.key == k
    case (Loaded, Empty) => if task.Stream? then task.key != k else task.modelId == k.modelId
    case (_, _) => from == to
  }

  ghost predicate Aimed(task: Task) {
    match task
    case Stream(k, UnloadHold(rest, other)) => k !in rest && k != other
    case Stream(k, Unload(rest)) => k !in rest
    case Stream(_, _) => true
    case Evict(m, EvictWant(rest)) => forall k :: k in rest ==> k.modelId == m
    case Evict(m, EvictHold(rest, slot)) => slot.modelId == m && forall k :: k in rest ==> k.modelId == m
    case Evict(_, _) => true
  }

  lemma StepIsAimed(s: State, t: Tid, c: Choice)
    requires t < |s.tasks| && TaskStep(s, t, c).Some? && Aimed(s.tasks[t])
    ensures Aimed(TaskStep(s, t, c).value.task)
  {
  }

  lemma {:induction false} RunIsAimed(r: seq<State>, turns: seq<Turn>, i: nat, t: Tid)
    requires Follows(r, turns) && i < |r| && t < |r[i].tasks|
    ensures Aimed(r[i].tasks[t])
  {
    if i > 0 {
      assert Takes(r[i - 1], turns[i - 1], r[i]);
      RunIsAimed(r, turns, i - 1, t);
      RunIsAimed(r, turns, i - 1, turns[i - 1].t);
      StepIsAimed(r[i - 1], turns[i - 1].t, turns[i - 1].c);
    }
  }

  lemma StepChangesRightly(s: State, t: Tid, c: Choice, k: Key)
    requires t < |s.tasks| && Local(s, t, s.tasks[t]) && Aimed(s.tasks[t]) && TaskStep(s, t, c).Some?
    ensures Rightly(s.tasks[t], k, StateOf(s.slots, k), StateOf(Updated(s.slots, TaskStep(s, t, c).value.touch), k))
  {
  }

  /**
   A model is loaded into its empty slot by a task that wants it, and goes only if its own load fails,
   if a task loads another one, or if it is evicted by name.
   */
  lemma SlotsChangeRightly(r: seq<State>, turns: seq<Turn>, i: nat, k: Key)
    requires Follows(r, turns) && i < |turns| && turns[i].t < |r[i].tasks|
    ensures Rightly(r[i].tasks[turns[i].t], k, StateOf(r[i].slots, k), StateOf(r[i + 1].slots, k))
  {
    assert Takes(r[i], turns[i], r[i + 1]);
    FollowsInv(r, turns, i);
    InvIsLocal(r[i], turns[i].t);
    RunIsAimed(r, turns, i, turns[i].t);
    StepChangesRightly(r[i], turns[i].t, turns[i].c, k);
  }

  // ----- models that are there are used -----

  predicate UsesLoaded(pc: Pc) {
    pc.HoldSlot? || pc.WantGenerate? || pc.HoldGenerate? || Ending(pc)
  }

  /** At its first look the task has found its model, or it has gone on from there without loading. */
  ghost predicate Warm(s: State, t: Tid) {
    && t < |s.tasks| && s.tasks[t].Stream? && UsesLoaded(s.tasks[t].pc)
    && (s.tasks[t].pc == HoldSlot ==> StateOf(s.slots, s.tasks[t].key) == Loaded)
  }

  lemma WarmEdge(from: Pc, to: Pc, state: SlotState, ok: bool)
    requires Edge(from, to, state, ok) && UsesLoaded(from) && (from == HoldSlot ==> state == Loaded)
    ensures UsesLoaded(to) && to != HoldSlot
  {
  }

  lemma TurnKeepsWarm(s: State, turn: Turn, s': State, t: Tid)
    requires Takes(s, turn, s') && Inv(s) && Warm(s, t)
    ensures Warm(s', t)
  {
    TurnGoes(s, turn, s', t);
    if turn.t == t {
      WarmEdge(s.tasks[t].pc, s'.tasks[t].pc, StateOf(s.slots, s.tasks[t].key), turn.c.ok);
    } else if s.tasks[t].pc == HoldSlot {
      TurnKeepsHeld(s, turn, s', t, s.tasks[t].key);
    }
  }

  /** A task that finds its model loaded never loads it again and never takes the cold-load lock. */
  lemma {:induction false} LoadedIsNotReloaded(r: seq<State>, turns: seq<Turn>, t: Tid, i: nat, j: nat)
    requires Follows(r, turns) && i <= j < |r| && Warm(r[i], t)
    ensures Warm(r[j], t) && !Loader(r[j].tasks[t]) && r[j].cold != Some(t)
    decreases j - i
  {
    FollowsInv(r, turns, i);
    if i < j {
      assert Takes(r[i], turns[i], r[i + 1]);
      TurnKeepsWarm(r[i], turns[i], r[i + 1], t);
      LoadedIsNotReloaded(r, turns, t, i + 1, j);
    }
  }

  // ----- everybody generates -----

  predicate Works(task: Task, k: Key) {
    if task.Stream? then task.key == k else task.modelId != k.modelId
  }

  /** All streaming tasks use model k, and nobody evicts it. */
  ghost predicate OnlyUses(s: State, k: Key) {
    forall t :: 0 <= t < |s.tasks| ==> Works(s.tasks[t], k)
  }

  ghost predicate AllWell(turns: seq<Turn>) {
    forall i :: 0 <= i < |turns| ==> turns[i].c.ok
  }

  predicate HasModel(pc: Pc) {
    match pc
    case Published => true
    case PublishedFree => true
    case LeaveCold(toGenerate) => toGenerate
    case WantGenerate => true
    case HoldGenerate => true
    case Generating => true
    case _ => false
  }

  predicate Unlucky(pc: Pc) {
    pc.GenerateError? || (Failing(pc) && !pc.Finished?)
  }

  ghost predicate Smooth(s: State, k: Key) {
    forall t :: 0 <= t < |s.tasks| && s.tasks[t].Stream? ==>
      !Unlucky(s.tasks[t].pc) && (HasModel(s.tasks[t].pc) ==> StateOf(s.slots, k) == Loaded)
  }

  lemma TurnKeepsModel(s: State, turn: Turn, s': State, k: Key)
    requires Takes(s, turn, s') && Inv(s) && Aimed(s.tasks[turn.t]) && OnlyUses(s, k) && StateOf(s.slots, k) == Loaded
    ensures StateOf(s'.slots, k) == Loaded
  {
    InvIsLocal(s, turn.t);
    StepChangesRightly(s, turn.t, turn.c, k);
    assert Works(s.tasks[turn.t], k);
  }

  lemma PublishedIsLoaded(s: State, turn: Turn, s': State)
    requires Takes(s, turn, s') && s.tasks[turn.t].Stream? && s.tasks[turn.t].pc == HoldPublish
    ensures StateOf(s'.slots, s.tasks[turn.t].key) == Loaded
  {
  }

  lemma SmoothEdge(from: Pc, to: Pc, state: SlotState)
    requires Edge(from, to, state, true) && !Unlucky(from) && (HasModel(from) ==> state == Loaded)
    ensures !Unlucky(to) && (HasModel(to) ==> state == Loaded || from == HoldPublish)
  {
  }

  /** One task, seen across one turn of its own or of another. */
  lemma SmoothTask(s: State, turn: Turn, s': State, k: Key, t: Tid)
    requires t < |s.tasks| && s.tasks[t].Stream? && s.tasks[t].key == k && Goes(s, turn, s', t) && turn.c.ok
    requires !Unlucky(s.tasks[t].pc) && (HasModel(s.tasks[t].pc) ==> StateOf(s.slots, k) == Loaded)
    ensures !Unlucky(s'.tasks[t].pc)
    ensures HasModel(s'.tasks[t].pc) ==>
              StateOf(s.slots, k) == Loaded || (turn.t == t && s.tasks[t].pc == HoldPublish)
  {
    if turn.t == t {
      SmoothEdge(s.tasks[t].pc, s'.tasks[t].pc, StateOf(s.slots, k));
    }
  }

  lemma TurnKeepsSmooth(s: State, turn: Turn, s': State, k: Key, t: Tid)
    requires Takes(s, turn, s') && turn.c.ok && Inv(s) && Aimed(s.tasks[turn.t]) && OnlyUses(s, k) && Smooth(s, k)
    requires t < |s.tasks| && s.tasks[t].Stream?
    ensures Goes(s, turn, s', t)
    ensures !Unlucky(s'.tasks[t].pc) && (HasModel(s'.tasks[t].pc) ==> StateOf(s'.slots, k) == Loaded)
  {
    TurnGoes(s, turn, s', t);
    assert Works(s.tasks[t], k);
    SmoothTask(s, turn, s', k, t);
    if StateOf(s.slots, k) == Loaded {
      TurnKeepsModel(s, turn, s', k);
    } else if turn.t == t && s.tasks[t].pc == HoldPublish {
      PublishedIsLoaded(s, turn, s');
    }
  }

  lemma TurnKeepsUses(s: State, turn: Turn, s': State, k: Key)
    requires Takes(s, turn, s') && OnlyUses(s, k)
    ensures OnlyUses(s', k)
  {
    var e := TaskStep(s, turn.t, turn.c).value;
    assert SameJob(s.tasks[turn.t], e.task);
    forall t | 0 <= t < |s'.tasks| ensures Works(s'.tasks[t], k) {
      assert Works(s.tasks[t], k) && SameJob(s.tasks[t], s'.tasks[t]);
    }
  }

  lemma {:induction false} RunIsSmooth(r: seq<State>, turns: seq<Turn>, i: nat, k: Key)
    requires Follows(r, turns) && i < |r| && AllWell(turns) && OnlyUses(r[0], k)
    ensures OnlyUses(r[i], k) && Smooth(r[i], k)
  {
    if i > 0 {
      var s, turn, s' := r[i - 1], turns[i - 1], r[i];
      RunIsSmooth(r, turns, i - 1, k);
      FollowsInv(r, turns, i - 1);
      assert Takes(s, turn, s');
      RunIsAimed(r, turns, i - 1, turn.t);
      TurnKeepsUses(s, turn, s', k);
      forall t | 0 <= t < |s'.tasks| && s'.tasks[t].Stream?
        ensures !Unlucky(s'.tasks[t].pc) && (HasModel(s'.tasks[t].pc) ==> StateOf(s'.slots, k) == Loaded)
      {
        assert SameJob(s.tasks[t], s'.tasks[t]);
        TurnKeepsSmooth(s, turn, s', k, t);
      }
    }
  }

  lemma StuckIsDone(r: seq<State>, turns: seq<Turn>, t: Tid)
    requires Follows(r, turns) && Streams(r, t) && Stuck(r[|r| - 1])
    ensures t < |r[|r| - 1].tasks| && r[|r| - 1].tasks[t].Stream? && Done(r[|r| - 1].tasks[t])
  {
    FollowsIsRun(r, turns);
    RunsFinish(r);
    StaysStream(r, turns, t, |r| - 1);
  }

  /**
   If all streaming tasks use one model, nobody evicts it, loading succeeds and receivers stay, then
   in every run that cannot be continued every streaming task has generated.
   */
  lemma EverybodyGenerates(r: seq<State>, turns: seq<Turn>, k: Key, t: Tid)
    requires Follows(r, turns) && AllWell(turns) && OnlyUses(r[0], k) && Streams(r, t)
    requires Stuck(r[|r| - 1])
    ensures exists i :: 0 <= i < |r| && At(r, t, i, Generating)
  {
    var last := |r| - 1;
    StuckIsDone(r, turns, t);
    EveryTaskAnswers(r, turns, t, last);
    var n :| 0 <= n < last && (Turned(r, turns, t, n, Announce, false) || AnswersAt(r, t, n));
    RunIsSmooth(r, turns, n, k);
    assert AnswersAt(r, t, n) && !Unlucky(r[n].tasks[t].pc);
    assert At(r, t, n, Generating);
  }

  // ----- evictions -----

  ghost predicate Evicts(r: seq<State>, t: Tid, i: nat, m: string) {
    i < |r| && t < |r[i].tasks| && r[i].tasks[t].Evict? && r[i].tasks[t].modelId == m
  }

  /** Turn n of task t, which held the lock of slot k, left no model in it. */
  ghost predicate Emptied(r: seq<State>, turns: seq<Turn>, t: Tid, n: nat, k: Key) {
    && n < |turns| && n + 1 < |r| && turns[n].t == t && t < |r[n].tasks|
    && HeldSlot(r[n].tasks[t]) == Some(k) && StateOf(r[n + 1].slots, k) != Loaded
  }

  ghost predicate Pending(epc: EvictPc, k: Key) {
    match epc
    case EvictStart => true
    case EvictWant(rest) => k in rest
    case EvictHold(rest, slot) => k in rest || k == slot
    case EvictFinished => false
  }

  lemma EvictTurn(s: State, turn: Turn, s': State, t: Tid, k: Key)
    requires Takes(s, turn, s') && t < |s.tasks| && s.tasks[t].Evict? && k in s.slots && k.modelId == s.tasks[t].modelId
    ensures t < |s'.tasks| && s'.tasks[t].Evict? && s'.tasks[t].modelId == s.tasks[t].modelId && k in s'.slots
    ensures Pending(s.tasks[t].epc, k) && !Pending(s'.tasks[t].epc, k) ==>
              turn.t == t && HeldSlot(s.tasks[t]) == Some(k) && StateOf(s'.slots, k) != Loaded
  {
  }

  /** An eviction visits every slot of its model that is there when it starts, and leaves each without a model. */
  lemma {:induction false} EvictionReachesAll(r: seq<State>, turns: seq<Turn>, t: Tid, i: nat, j: nat, k: Key)
    requires Follows(r, turns) && i <= j < |r| && Evicts(r, t, i, k.modelId) && r[i].tasks[t].epc == EvictStart
    requires k in r[i].slots
    ensures Evicts(r, t, j, k.modelId) && k in r[j].slots
    ensures Pending(r[j].tasks[t].epc, k) || exists n :: i <= n < j && Emptied(r, turns, t, n, k)
    decreases j
  {
    if i < j {
      EvictionReachesAll(r, turns, t, i, j - 1, k);
      assert Takes(r[j - 1], turns[j - 1], r[j]);
      EvictTurn(r[j - 1], turns[j - 1], r[j], t, k);
      if Pending(r[j - 1].tasks[t].epc, k) && !Pending(r[j].tasks[t].epc, k) {
        assert Emptied(r, turns, t, j - 1, k);
      }
    }
  }

  /** When it has finished, each of them was without a model at some moment since. */
  lemma EvictionEmpties(r: seq<State>, turns: seq<Turn>, t: Tid, i: nat, j: nat, k: Key)
    requires Follows(r, turns) && i <= j < |r| && Evicts(r, t, i, k.modelId) && r[i].tasks[t].epc == EvictStart
    requires k in r[i].slots && Evicts(r, t, j, k.modelId) && r[j].tasks[t].epc == EvictFinished
    ensures exists n :: i < n <= j && StateOf(r[n].slots, k) != Loaded
  {
    EvictionReachesAll(r, turns, t, i, j, k);
    var n :| i <= n < j && Emptied(r, turns, t, n, k);
    assert StateOf(r[n + 1].slots, k) != Loaded;
  }
}
