/**
 The model-slot protocol of the local inference runtime.

 Streaming tasks share a map of model slots. Each slot has a mutex-protected state and a
 list of waiters; one global cold-load lock serialises loads. Evictions run alongside.

 A state records who holds which lock and where every task is. `Advance` is one atomic
 step of one task: between two suspension points of the source, or between two lock
 operations. It is None when the task is blocked. Outcomes the source cannot choose
 (does the load succeed, is the receiver gone, which slot does the hash map give next)
 come in as a `Choice`.
 */
module ModelSlots {
  import opened Wrappers

  datatype Key = Key(backendId: string, modelId: string, chatTemplate: string)

  datatype SlotState = Empty | Loading | Loaded

  type Tid = nat

  datatype Slot = Slot(state: SlotState, holder: Option<Tid>)

  /** Where a streaming task is. "S" and "C" say which locks it holds: its slot's, the cold-load lock. */
  datatype Pc =
    | Start
    | WantSlot                       // awaiting the slot lock at the top of the load loop
    | HoldSlot                       // S: about to look at the slot's state
    | Registered(woken: bool)        // S: `notified` exists, the slot lock not yet dropped
    | Parked(woken: bool)            // awaiting `notified`
    | WantCold
    | WantSlotCold                   // C
    | HoldSlotCold                   // S C: second look at the slot's state
    | RegisteredCold(woken: bool)    // S C: inner Loading branch
    | ReleasingCold(woken: bool)     // C: inner Loading branch, slot lock dropped
    | Announce                       // C: sending the progress message
    | Snapshot                       // C: about to list the other slots
    | Unload(rest: set<Key>)         // C
    | UnloadHold(rest: set<Key>, other: Key)  // C and the lock of `other`
    | Load                           // C: the backend is loading the model
    | WantPublish                    // C
    | HoldPublish                    // S C
    | Published                      // S C: state Loaded, waiters notified
    | PublishedFree                  // S
    | WantReset(report: bool)        // C
    | HoldReset(report: bool)        // S C
    | Report                         // S C: sending the error with both guards alive
    | ResetDone                      // S C
    | LeaveCold(toGenerate: bool)    // C
    | WantGenerate
    | HoldGenerate                   // S
    | Generating                     // S
    | GenerateError                  // S: sending "Model not loaded"
    | Finished

  datatype EvictPc =
    | EvictStart
    | EvictWant(rest: set<Key>)
    | EvictHold(rest: set<Key>, slot: Key)  // the lock of `slot`
    | EvictFinished

  datatype Task =
    | Stream(key: Key, pc: Pc)
    | Evict(modelId: string, epc: EvictPc)

  datatype State = State(slots: map<Key, Slot>, cold: Option<Tid>, tasks: seq<Task>)

  datatype Choice = Choice(ok: bool, pick: Key)

  /** At most one slot entry written by a step. */
  datatype Touch = NoSlot | Write(key: Key, slot: Slot)

  /**
   What one step does: the stepping task's next position, the slot it writes, the owner of the
   cold-load lock afterwards, and the slot whose waiters it notifies.
   */
  datatype Effect = Effect(task: Task, touch: Touch, cold: Option<Tid>, wake: Option<Key>)

  // ----- primitive operations -----

  /** A slot's state; a slot not in the map counts as Empty. */
  function StateOf(slots: map<Key, Slot>, k: Key): SlotState {
    if k in slots then slots[k].state else Empty
  }

  function Updated(slots: map<Key, Slot>, touch: Touch): map<Key, Slot> {
    match touch
    case NoSlot => slots
    case Write(k, slot) => slots[k := slot]
  }

  function Move(s: State, task: Task): Effect {
    Effect(task, NoSlot, s.cold, None)
  }

  /** Takes the lock of slot k and moves on; blocked while another task holds it. */
  function Acquire(s: State, t: Tid, k: Key, task: Task): Option<Effect> {
    if k in s.slots && s.slots[k].holder.None?
    then Some(Move(s, task).(touch := Write(k, s.slots[k].(holder := Some(t)))))
    else None
  }

  /** Drops the lock of slot k, leaving v as its state, and moves on. */
  function Release(s: State, k: Key, v: SlotState, task: Task): Effect {
    Move(s, task).(touch := Write(k, Slot(v, None)))
  }

  /** What `notify_waiters` on a slot does to one task: every existing `notified` future completes. */
  function Wake(task: Task, wake: Option<Key>): Task {
    if wake.None? || !task.Stream? || task.key != wake.value then task
    else
      match task.pc
      case Registered(_) => Stream(task.key, Registered(true))
      case Parked(_) => Stream(task.key, Parked(true))
      case RegisteredCold(_) => Stream(task.key, RegisteredCold(true))
      case ReleasingCold(_) => Stream(task.key, ReleasingCold(true))
      case _ => task
  }

  // ----- the steps -----

  /** The load loop up to the point where the task has set its slot to Loading or left the loop. */
  function WaitStep(s: State, t: Tid, k: Key, pc: Pc): Option<Effect> {
    var state := StateOf(s.slots, k);
    match pc
    case Start =>
      var touch := if k in s.slots then NoSlot else Write(k, Slot(Empty, None));
      Some(Move(s, Stream(k, WantSlot)).(touch := touch))
    case WantSlot => Acquire(s, t, k, Stream(k, HoldSlot))
    case HoldSlot =>
      (match state
       case Loaded => Some(Release(s, k, state, Stream(k, WantGenerate)))
       case Loading => Some(Move(s, Stream(k, Registered(false))))
       case Empty => Some(Release(s, k, state, Stream(k, WantCold))))
    case Registered(w) => Some(Release(s, k, state, Stream(k, Parked(w))))
    case Parked(w) => if w then Some(Move(s, Stream(k, WantSlot))) else None
    case WantCold =>
      if s.cold.None? then Some(Move(s, Stream(k, WantSlotCold)).(cold := Some(t))) else None
    case WantSlotCold => Acquire(s, t, k, Stream(k, HoldSlotCold))
    case HoldSlotCold =>
      (match state
       case Loaded => Some(Release(s, k, state, Stream(k, LeaveCold(true))))
       case Loading => Some(Move(s, Stream(k, RegisteredCold(false))))
       case Empty => Some(Release(s, k, Loading, Stream(k, Announce))))
    case RegisteredCold(w) => Some(Release(s, k, state, Stream(k, ReleasingCold(w))))
    case ReleasingCold(w) => Some(Move(s, Stream(k, Parked(w))).(cold := None))
    case _ => None
  }

  /** Announcing, unloading the other models, loading and publishing. */
  function LoadStep(s: State, t: Tid, k: Key, pc: Pc, c: Choice): Option<Effect> {
    var state := StateOf(s.slots, k);
    match pc
    case Announce => Some(Move(s, Stream(k, if c.ok then Snapshot else WantReset(false))))
    case Snapshot => Some(Move(s, Stream(k, Unload(s.slots.Keys - {k}))))
    case Unload(rest) =>
      if rest == {} then Some(Move(s, Stream(k, Load)))
      else if c.pick in rest then Acquire(s, t, c.pick, Stream(k, UnloadHold(rest - {c.pick}, c.pick)))
      else None
    case UnloadHold(rest, other) =>
      var was := StateOf(s.slots, other);
      Some(Release(s, other, if was == Loaded then Empty else was, Stream(k, Unload(rest))))
    case Load => Some(Move(s, Stream(k, if c.ok then WantPublish else WantReset(true))))
    case WantPublish => Acquire(s, t, k, Stream(k, HoldPublish))
    case HoldPublish =>
      Some(Effect(Stream(k, Published), Write(k, Slot(Loaded, Some(t))), s.cold, Some(k)))
    case Published => Some(Move(s, Stream(k, PublishedFree)).(cold := None))
    case PublishedFree => Some(Release(s, k, state, Stream(k, WantGenerate)))
    case _ => None
  }

  /** Resetting the slot after a failed load, and generating. */
  function EndStep(s: State, t: Tid, k: Key, pc: Pc): Option<Effect> {
    var state := StateOf(s.slots, k);
    match pc
    case WantReset(report) => Acquire(s, t, k, Stream(k, HoldReset(report)))
    case HoldReset(report) =>
      Some(Effect(Stream(k, if report then Report else ResetDone), Write(k, Slot(Empty, Some(t))), s.cold, Some(k)))
    case Report => Some(Move(s, Stream(k, ResetDone)))
    case ResetDone => Some(Release(s, k, state, Stream(k, LeaveCold(false))))
    case LeaveCold(toGenerate) =>
      Some(Move(s, Stream(k, if toGenerate then WantGenerate else Finished)).(cold := None))
    case WantGenerate => Acquire(s, t, k, Stream(k, HoldGenerate))
    case HoldGenerate => Some(Move(s, Stream(k, if state == Loaded then Generating else GenerateError)))
    case Generating => Some(Release(s, k, state, Stream(k, Finished)))
    case GenerateError => Some(Release(s, k, state, Stream(k, Finished)))
    case _ => None
  }

  predicate InWaitPhase(pc: Pc) {
    pc in {Start, WantSlot, HoldSlot, WantCold, WantSlotCold, HoldSlotCold}
    || pc.Registered? || pc.Parked? || pc.RegisteredCold? || pc.ReleasingCold?
  }

  predicate InLoadPhase(pc: Pc) {
    pc in {Announce, Snapshot, Load, WantPublish, HoldPublish, Published, PublishedFree} || pc.Unload? || pc.UnloadHold?
  }

  function StreamStep(s: State, t: Tid, k: Key, pc: Pc, c: Choice): Option<Effect> {
    if InWaitPhase(pc) then WaitStep(s, t, k, pc)
    else if InLoadPhase(pc) then LoadStep(s, t, k, pc, c)
    else EndStep(s, t, k, pc)
  }

  function EvictStep(s: State, t: Tid, m: string, epc: EvictPc, c: Choice): Option<Effect> {
    match epc
    case EvictStart => Some(Move(s, Evict(m, EvictWant(set k | k in s.slots && k.modelId == m))))
    case EvictWant(rest) =>
      if rest == {} then Some(Move(s, Evict(m, EvictFinished)))
      else if c.pick in rest then Acquire(s, t, c.pick, Evict(m, EvictHold(rest - {c.pick}, c.pick)))
      else None
    case EvictHold(rest, k) =>
      if StateOf(s.slots, k) == Loaded
      then Some(Release(s, k, Empty, Evict(m, EvictWant(rest))).(wake := Some(k)))
      else Some(Release(s, k, StateOf(s.slots, k), Evict(m, EvictWant(rest))))
    case EvictFinished => None
  }

  function TaskStep(s: State, t: Tid, c: Choice): Option<Effect>
    requires t < |s.tasks|
  {
    match s.tasks[t]
    case Stream(k, pc) => StreamStep(s, t, k, pc, c)
    case Evict(m, epc) => EvictStep(s, t, m, epc, c)
  }

  function Apply(s: State, t: Tid, e: Effect): State
    requires t < |s.tasks|
  {
    State(Updated(s.slots, e.touch), e.cold,
          seq(|s.tasks|, i requires 0 <= i < |s.tasks| => if i == t then e.task else Wake(s.tasks[i], e.wake)))
  }

  /** One atomic step of task t, None while it is blocked or finished. */
  function Advance(s: State, t: Tid, c: Choice): Option<State>
    requires t < |s.tasks|
  {
    var e := TaskStep(s, t, c);
    if e.Some? then Some(Apply(s, t, e.value)) else None
  }

  ghost predicate Step(s: State, s': State) {
    exists t: Tid, c: Choice :: t < |s.tasks| && Advance(s, t, c) == Some(s')
  }

  /** A fresh runtime: no slots, no locks, every task about to start. */
  ghost predicate Init(s: State) {
    && s.slots == map[]
    && s.cold == None
    && forall t :: 0 <= t < |s.tasks| ==>
         match s.tasks[t] { case Stream(_, pc) => pc == Start case Evict(_, epc) => epc == EvictStart }
  }

  predicate Done(task: Task) {
    match task
    case Stream(_, pc) => pc == Finished
    case Evict(_, epc) => epc == EvictFinished
  }

  predicate AllDone(s: State) {
    forall t :: 0 <= t < |s.tasks| ==> Done(s.tasks[t])
  }

  // ----- what a task holds -----

  /** The slot whose lock the task holds. No task ever holds two. */
  function HeldSlot(task: Task): Option<Key> {
    match task
    case Stream(k, pc) =>
      (match pc
       case HoldSlot => Some(k)
       case Registered(_) => Some(k)
       case HoldSlotCold => Some(k)
       case RegisteredCold(_) => Some(k)
       case UnloadHold(_, other) => Some(other)
       case HoldPublish => Some(k)
       case Published => Some(k)
       case PublishedFree => Some(k)
       case HoldReset(_) => Some(k)
       case Report => Some(k)
       case ResetDone => Some(k)
       case HoldGenerate => Some(k)
       case Generating => Some(k)
       case GenerateError => Some(k)
       case _ => None)
    case Evict(_, EvictHold(_, k)) => Some(k)
    case Evict(_, _) => None
  }

  predicate HoldsCold(task: Task) {
    task.Stream? &&
    match task.pc
    case WantSlotCold => true
    case HoldSlotCold => true
    case RegisteredCold(_) => true
    case ReleasingCold(_) => true
    case Published => true
    case Report => true
    case ResetDone => true
    case LeaveCold(_) => true
    case _ => Loader(task)
  }

  /** From setting the slot to Loading until publishing the model or resetting the slot. */
  predicate Loader(task: Task) {
    task.Stream? &&
    match task.pc
    case Announce => true
    case Snapshot => true
    case WantReset(_) => true
    case HoldReset(_) => true
    case Unload(_) => true
    case UnloadHold(_, _) => true
    case _ => PastUnload(task)
  }

  /** The loader has emptied every other slot and a second model is or will be in memory. */
  predicate PastUnload(task: Task) {
    task.Stream? && (task.pc == Load || task.pc == WantPublish || task.pc == HoldPublish)
  }

  /** A `notified` future of this task exists and has not completed. */
  predicate Waiting(task: Task) {
    task.Stream? &&
    match task.pc
    case Registered(w) => !w
    case Parked(w) => !w
    case RegisteredCold(w) => !w
    case ReleasingCold(w) => !w
    case _ => false
  }

  function Mentioned(task: Task): set<Key> {
    match task
    case Stream(k, Start) => {}
    case Stream(k, Unload(rest)) => rest + {k}
    case Stream(k, UnloadHold(rest, other)) => rest + {other, k}
    case Stream(k, _) => {k}
    case Evict(_, EvictWant(rest)) => rest
    case Evict(_, EvictHold(rest, k)) => rest + {k}
    case Evict(_, _) => {}
  }

  // ----- the inductive invariant -----

  ghost predicate Locks(s: State) {
    && (forall k, t :: k in s.slots && 0 <= t < |s.tasks| ==>
          (s.slots[k].holder == Some(t) <==> HeldSlot(s.tasks[t]) == Some(k)))
    && (forall k :: k in s.slots && s.slots[k].holder.Some? ==> s.slots[k].holder.value < |s.tasks|)
    && (forall t :: 0 <= t < |s.tasks| ==> (s.cold == Some(t) <==> HoldsCold(s.tasks[t])))
    && (s.cold.Some? ==> s.cold.value < |s.tasks|)
  }

  ghost predicate Keys(s: State) {
    forall t :: 0 <= t < |s.tasks| ==> Mentioned(s.tasks[t]) <= s.slots.Keys
  }

  /** A slot is Loading exactly while its loader runs, and the loader holds the cold-load lock. */
  ghost predicate Loaders(s: State) {
    && (forall k :: k in s.slots && s.slots[k].state == Loading ==>
          s.cold.Some? && s.cold.value < |s.tasks|
          && Loader(s.tasks[s.cold.value]) && s.tasks[s.cold.value].key == k)
    && (forall t :: 0 <= t < |s.tasks| && Loader(s.tasks[t]) ==> StateOf(s.slots, s.tasks[t].key) == Loading)
  }

  /** Slots the loader has still to visit, as far as Loaded slots are concerned. */
  ghost predicate Covers(task: Task, k: Key) {
    task.Stream? ==>
      match task.pc
      case Unload(rest) => k in rest
      case UnloadHold(rest, other) => k in rest || k == other
      case _ => !PastUnload(task)
  }

  ghost predicate OneModel(s: State) {
    && (forall k, k' ::
          k in s.slots && k' in s.slots && s.slots[k].state == Loaded && s.slots[k'].state == Loaded ==> k == k')
    && (forall k, t :: k in s.slots && s.slots[k].state == Loaded && 0 <= t < |s.tasks| ==> Covers(s.tasks[t], k))
  }

  ghost predicate Waiters(s: State) {
    forall t :: 0 <= t < |s.tasks| && Waiting(s.tasks[t]) ==> StateOf(s.slots, s.tasks[t].key) == Loading
  }

  ghost predicate InnerBranchDead(s: State) {
    forall t :: 0 <= t < |s.tasks| && s.tasks[t].Stream? ==>
      !s.tasks[t].pc.RegisteredCold? && !s.tasks[t].pc.ReleasingCold?
  }

  /** A generating task's model stays loaded: it holds the lock of its slot. */
  ghost predicate InUse(s: State) {
    forall t :: 0 <= t < |s.tasks| && s.tasks[t].Stream? && s.tasks[t].pc == Generating ==>
      StateOf(s.slots, s.tasks[t].key) == Loaded
  }

  ghost predicate Inv(s: State) {
    Locks(s) && Keys(s) && Loaders(s) && OneModel(s) && Waiters(s) && InnerBranchDead(s) && InUse(s)
  }

  lemma InitInv(s: State)
    requires Init(s)
    ensures Inv(s)
  {
  }
}
