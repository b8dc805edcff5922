/**
 The life of a download: a shared map of progress entries, changed under a lock by whoever starts,
 reserves, cancels or clears a download and by the background tasks themselves.
 */
module Lifecycle {
  import opened Wrappers

  datatype Status = Downloading | Completed | Failed | Cancelled

  datatype Progress = Progress(status: Status, bytes: nat, total: nat, error: Option<string>, taskExited: bool)

  type Downloads = map<string, Progress>

  // ----- what each locked section does to the map -----

  /** An entry that neither a start nor a reservation may replace. */
  predicate Active(p: Progress) {
    p.status == Downloading || (p.status == Cancelled && !p.taskExited)
  }

  predicate Taken(downloads: Downloads, id: string) {
    id in downloads && Active(downloads[id])
  }

  predicate Clearable(p: Progress) {
    p.status != Downloading && p.taskExited
  }

  function Reserved(downloads: Downloads, id: string, progress: Progress): Downloads {
    if Taken(downloads, id) then downloads else downloads[id := progress]
  }

  function CancelledIn(downloads: Downloads, id: string): Downloads {
    if id in downloads then downloads[id := downloads[id].(status := Cancelled)] else downloads
  }

  function Reported(downloads: Downloads, id: string, bytes: nat, total: nat): Downloads {
    if id in downloads then downloads[id := downloads[id].(bytes := bytes, total := total)] else downloads
  }

  function Finished(downloads: Downloads, id: string): Downloads {
    if id in downloads then downloads[id := downloads[id].(status := Completed, taskExited := true)] else downloads
  }

  function GivenUp(downloads: Downloads, id: string, error: string): Downloads {
    if id in downloads then
      var p := downloads[id];
      var status := if p.status == Cancelled then Cancelled else Failed;
      downloads[id := p.(status := status, error := Some(error), taskExited := true)]
    else downloads
  }

  function Cleared(downloads: Downloads, id: string): Downloads {
    if id in downloads && Clearable(downloads[id]) then downloads - {id} else downloads
  }

  class DownloadManager {
    var downloads: Downloads

    constructor ()
      ensures downloads == map[]
    {
      downloads := map[];
    }

    method ReserveDownload(id: string, progress: Progress) returns (reserved: bool)
      modifies this
      ensures downloads == Reserved(old(downloads), id, progress)
      ensures reserved <==> !Taken(old(downloads), id)
    {
      if id in downloads {
        var existing := downloads[id];
        if existing.status == Downloading || (existing.status == Cancelled && !existing.taskExited) {
          return false;
        }
      }
      downloads := downloads[id := progress];
      return true;
    }

    /** The guarded part of a start; false is the error that a download is in progress or being cancelled. */
    method BeginDownload(id: string, totalSizeHint: nat) returns (begun: bool)
      modifies this
      ensures downloads == Reserved(old(downloads), id, Progress(Downloading, 0, totalSizeHint, None, false))
      ensures begun <==> !Taken(old(downloads), id)
    {
      if id in downloads {
        if downloads[id].status == Downloading {
          return false;
        }
        if downloads[id].status == Cancelled && !downloads[id].taskExited {
          return false;
        }
      }
      downloads := downloads[id := Progress(Downloading, 0, totalSizeHint, None, false)];
      return true;
    }

    method CancelDownload(id: string) returns (found: bool)
      modifies this
      ensures downloads == CancelledIn(old(downloads), id) && (found <==> id in old(downloads))
    {
      found := id in downloads;
      if found {
        downloads := downloads[id := downloads[id].(status := Cancelled)];
      }
    }

    method Report(id: string, bytes: nat, total: nat)
      modifies this
      ensures downloads == Reported(old(downloads), id, bytes, total)
    {
      if id in downloads {
        downloads := downloads[id := downloads[id].(bytes := bytes, total := total)];
      }
    }

    /** The last thing a background task does; None is success. */
    method ExitTask(id: string, error: Option<string>)
      modifies this
      ensures downloads == if error.None? then Finished(old(downloads), id)
                           else GivenUp(old(downloads), id, error.value)
    {
      if id in downloads {
        var progress := downloads[id];
        if error.None? {
          progress := progress.(status := Completed);
        } else {
          if progress.status != Cancelled {
            progress := progress.(status := Failed);
          }
          progress := progress.(error := error);
        }
        downloads := downloads[id := progress.(taskExited := true)];
      }
    }

    method ClearCompleted(id: string)
      modifies this
      ensures downloads == Cleared(old(downloads), id)
    {
      if id in downloads {
        var progress := downloads[id];
        var terminal := progress.status == Completed || progress.status == Failed || progress.status == Cancelled;
        if terminal && progress.taskExited {
          downloads := downloads - {id};
        }
      }
    }
  }

  // ----- interleavings -----

  /** A started download: still creating directories, then running in the background, then gone. */
  datatype Phase = Preparing | Working | Gone

  datatype Task = Task(id: string, phase: Phase)

  datatype State = State(downloads: Downloads, tasks: seq<Task>)

  datatype Action =
    | Reserve(id: string, progress: Progress)
    | Start(id: string, hint: nat)
    | Cancel(id: string)
    | Clear(id: string)
    | Spawn(task: nat)                           // the directories exist
    | Abandon(task: nat)                         // creating them failed
    | Update(task: nat, bytes: nat, total: nat)
    | Exit(task: nat, error: Option<string>)

  predicate IsIn(s: State, k: nat, phase: Phase) {
    k < |s.tasks| && s.tasks[k].phase == phase
  }

  predicate Enabled(s: State, a: Action) {
    match a
    case Spawn(k) => IsIn(s, k, Preparing)
    case Abandon(k) => IsIn(s, k, Preparing)
    case Update(k, _, _) => IsIn(s, k, Working)
    case Exit(k, _) => IsIn(s, k, Working)
    case _ => true
  }

  function MovedTo(s: State, k: nat, phase: Phase): seq<Task>
    requires k < |s.tasks|
  {
    s.tasks[k := s.tasks[k].(phase := phase)]
  }

  function Apply(s: State, a: Action): State
    requires Enabled(s, a)
  {
    match a
    case Reserve(id, progress) => s.(downloads := Reserved(s.downloads, id, progress))
    case Start(id, hint) =>
      if Taken(s.downloads, id) then s
      else State(Reserved(s.downloads, id, Progress(Downloading, 0, hint, None, false)),
                 s.tasks + [Task(id, Preparing)])
    case Cancel(id) => s.(downloads := CancelledIn(s.downloads, id))
    case Clear(id) => s.(downloads := Cleared(s.downloads, id))
    case Spawn(k) => s.(tasks := MovedTo(s, k, Working))
    case Abandon(k) => s.(tasks := MovedTo(s, k, Gone))
    case Update(k, bytes, total) => s.(downloads := Reported(s.downloads, s.tasks[k].id, bytes, total))
    case Exit(k, error) =>
      var id := s.tasks[k].id;
      var downloads := if error.None? then Finished(s.downloads, id) else GivenUp(s.downloads, id, error.value);
      State(downloads, MovedTo(s, k, Gone))
  }

  predicate Live(t: Task) {
    t.phase != Gone
  }

  predicate LiveAt(s: State, k: nat) {
    k < |s.tasks| && Live(s.tasks[k])
  }

  /** The entry of a live task: unfinished, and downloading unless it was cancelled. */
  predicate Owned(downloads: Downloads, id: string) {
    id in downloads && !downloads[id].taskExited && downloads[id].status in {Downloading, Cancelled}
  }

  ghost predicate Inv(s: State) {
    && (forall k: nat :: LiveAt(s, k) ==> Owned(s.downloads, s.tasks[k].id))
    && (forall j: nat, k: nat :: j < k && LiveAt(s, j) && LiveAt(s, k) ==> s.tasks[j].id != s.tasks[k].id)
  }

  lemma OwnedIsTaken(downloads: Downloads, id: string)
    requires Owned(downloads, id)
    ensures Taken(downloads, id) && !Clearable(downloads[id])
  {
  }

  /** Nothing but the exit of its own task takes an entry out of a task's hands. */
  lemma OwnedStays(s: State, a: Action, id: string)
    requires Enabled(s, a) && Owned(s.downloads, id)
    requires a.Exit? ==> s.tasks[a.task].id != id
    ensures var p, q := s.downloads[id], Apply(s, a).downloads[id];
            && Owned(Apply(s, a).downloads, id)
            && q == p.(status := q.status, bytes := q.bytes, total := q.total)
            && (p.status == Cancelled ==> q.status == Cancelled)
            && (q.status != p.status ==> a == Cancel(id))
  {
  }

  /** In every interleaving a live task owns its entry, and no two live tasks share one. */
  lemma StepKeepsInv(s: State, a: Action)
    requires Inv(s) && Enabled(s, a)
    ensures Inv(Apply(s, a))
  {
    var s' := Apply(s, a);
    forall k: nat | LiveAt(s', k) ensures Owned(s'.downloads, s'.tasks[k].id) {
      if k < |s.tasks| {
        assert LiveAt(s, k);
        if a.Exit? {
          assert a.task != k && LiveAt(s, a.task);
        }
        OwnedStays(s, a, s.tasks[k].id);
      }
    }
    forall j: nat, k: nat | j < k && LiveAt(s', j) && LiveAt(s', k) ensures s'.tasks[j].id != s'.tasks[k].id {
      assert LiveAt(s, j);
      if k < |s.tasks| {
        assert LiveAt(s, k);
      } else {
        OwnedIsTaken(s.downloads, s.tasks[j].id);
      }
    }
  }

  // ----- whole runs -----

  ghost predicate Runs(s: State, actions: seq<Action>)
    decreases |actions|
  {
    actions == [] || (Enabled(s, actions[0]) && Runs(Apply(s, actions[0]), actions[1..]))
  }

  function After(s: State, actions: seq<Action>): State
    requires Runs(s, actions)
    decreases |actions|
  {
    if actions == [] then s else After(Apply(s, actions[0]), actions[1..])
  }

  const EMPTY := State(map[], [])

  lemma {:induction false} RunKeepsInv(s: State, actions: seq<Action>)
    requires Inv(s) && Runs(s, actions)
    ensures Inv(After(s, actions))
    decreases |actions|
  {
    if actions != [] {
      StepKeepsInv(s, actions[0]);
      RunKeepsInv(Apply(s, actions[0]), actions[1..]);
    }
  }

  /** At most one live task per model, whatever the interleaving. */
  lemma OneTaskPerModel(actions: seq<Action>, j: nat, k: nat)
    requires Runs(EMPTY, actions)
    requires LiveAt(After(EMPTY, actions), j) && LiveAt(After(EMPTY, actions), k)
    requires After(EMPTY, actions).tasks[j].id == After(EMPTY, actions).tasks[k].id
    ensures j == k && Owned(After(EMPTY, actions).downloads, After(EMPTY, actions).tasks[j].id)
  {
    RunKeepsInv(EMPTY, actions);
  }

  /** The task whose own step an action is. */
  function ActorOf(a: Action): Option<nat> {
    match a
    case Spawn(k) => Some(k)
    case Abandon(k) => Some(k)
    case Update(k, _, _) => Some(k)
    case Exit(k, _) => Some(k)
    case _ => None
  }

  /** A task that has exited never acts again, whatever else goes on. */
  lemma {:induction false} GoneNeverActs(s: State, actions: seq<Action>, k: nat, n: nat)
    requires Runs(s, actions) && IsIn(s, k, Gone) && n < |actions|
    ensures ActorOf(actions[n]) != Some(k)
    decreases n
  {
    if n > 0 {
      GoneNeverActs(Apply(s, actions[0]), actions[1..], k, n - 1);
    }
  }

  lemma TaskKeepsId(s: State, a: Action, k: nat)
    requires Enabled(s, a) && k < |s.tasks|
    ensures k < |Apply(s, a).tasks| && Apply(s, a).tasks[k].id == s.tasks[k].id
    ensures LiveAt(Apply(s, a), k) ==> LiveAt(s, k)
  {
  }

  /**
   As long as a task lives, its entry is neither removed nor replaced, its end is not recorded,
   and a cancellation once made stays.
   */
  lemma {:induction false} EntryKeptWhileLive(s: State, actions: seq<Action>, k: nat)
    requires Inv(s) && Runs(s, actions) && k < |s.tasks| && LiveAt(After(s, actions), k)
    ensures LiveAt(s, k)
    ensures var id, s' := s.tasks[k].id, After(s, actions);
            && s'.tasks[k].id == id && id in s.downloads && id in s'.downloads
            && s'.downloads[id].error == s.downloads[id].error && !s'.downloads[id].taskExited
            && (s.downloads[id].status == Cancelled ==> s'.downloads[id].status == Cancelled)
            && s'.downloads[id].status in {Downloading, Cancelled}
    decreases |actions|
  {
    if actions != [] {
      var a, s1 := actions[0], Apply(s, actions[0]);
      StepKeepsInv(s, a);
      TaskKeepsId(s, a, k);
      EntryKeptWhileLive(s1, actions[1..], k);
      if a.Exit? {
        assert LiveAt(s, a.task);
      }
      OwnedStays(s, a, s.tasks[k].id);
    }
  }

  /** While a task lives, starting or reserving the same model again is refused. */
  lemma SecondStartRefused(s: State, k: nat, hint: nat, progress: Progress)
    requires Inv(s) && LiveAt(s, k)
    ensures Apply(s, Start(s.tasks[k].id, hint)) == s && Apply(s, Reserve(s.tasks[k].id, progress)) == s
  {
    OwnedIsTaken(s.downloads, s.tasks[k].id);
  }

  /** How a download ends: a success overrides a cancellation, a failure does not. */
  lemma ExitStatus(s: State, k: nat, error: Option<string>)
    requires Inv(s) && IsIn(s, k, Working)
    ensures var id, s' := s.tasks[k].id, Apply(s, Exit(k, error));
            && id in s'.downloads && s'.downloads[id].taskExited && Clearable(s'.downloads[id])
            && (s'.downloads[id].status == Completed <==> error.None?)
            && (s'.downloads[id].status == Cancelled <==> error.Some? && s.downloads[id].status == Cancelled)
            && !Taken(s'.downloads, id)
  {
    assert LiveAt(s, k);
  }

  // ----- what each operation is for -----

  ghost predicate OthersKept(a: Downloads, b: Downloads, id: string) {
    forall other :: other != id ==> (other in a <==> other in b) && (other in a ==> a[other] == b[other])
  }

  /** A cancellation marks its entry, if there is one, and changes nothing else about it or about any other. */
  lemma CancelMarks(s: State, id: string)
    ensures var s' := Apply(s, Cancel(id));
            && s'.tasks == s.tasks && OthersKept(s.downloads, s'.downloads, id)
            && (id in s'.downloads <==> id in s.downloads)
            && (id in s.downloads ==>
                  s'.downloads[id].status == Cancelled && s'.downloads[id].taskExited == s.downloads[id].taskExited
                  && s'.downloads[id].bytes == s.downloads[id].bytes && s'.downloads[id].total == s.downloads[id].total
                  && s'.downloads[id].error == s.downloads[id].error)
  {
  }

  /** A start makes a task and a fresh entry, unless a download of the model runs or is still being cancelled. */
  lemma StartBegins(s: State, id: string, hint: nat)
    ensures var s' := Apply(s, Start(id, hint));
            if id in s.downloads && (s.downloads[id].status == Downloading
                                     || (s.downloads[id].status == Cancelled && !s.downloads[id].taskExited))
            then s' == s
            else
              && OthersKept(s.downloads, s'.downloads, id) && id in s'.downloads
              && s'.downloads[id].status == Downloading && !s'.downloads[id].taskExited
              && s'.downloads[id].bytes == 0 && s'.downloads[id].total == hint && s'.downloads[id].error == None
              && |s'.tasks| == |s.tasks| + 1 && s'.tasks[..|s.tasks|] == s.tasks
              && s'.tasks[|s.tasks|].id == id && LiveAt(s', |s.tasks|)
  {
  }

  /** Clearing removes an entry exactly if it is not downloading any more and its task has exited. */
  lemma ClearRemoves(s: State, id: string)
    ensures var s' := Apply(s, Clear(id));
            && s'.tasks == s.tasks && OthersKept(s.downloads, s'.downloads, id)
            && (id in s.downloads ==>
                  if s.downloads[id].status != Downloading && s.downloads[id].taskExited
                  then id !in s'.downloads
                  else id in s'.downloads && s'.downloads[id] == s.downloads[id])
  {
  }

  /** A report changes the two counts of the task's own entry. */
  lemma ReportCounts(s: State, k: nat, bytes: nat, total: nat)
    requires Inv(s) && IsIn(s, k, Working)
    ensures var id, s' := s.tasks[k].id, Apply(s, Update(k, bytes, total));
            && s'.tasks == s.tasks && OthersKept(s.downloads, s'.downloads, id)
            && id in s'.downloads && s'.downloads[id].bytes == bytes && s'.downloads[id].total == total
            && s'.downloads[id].status == s.downloads[id].status && s'.downloads[id].error == s.downloads[id].error
  {
    assert LiveAt(s, k);
  }

  /**
   A running download that is cancelled stays cancelled as long as it runs, whatever else happens,
   and ends as cancelled if it fails; then its entry can be cleared.
   */
  lemma CancelledDownloadEnds(s: State, k: nat, actions: seq<Action>, error: Option<string>)
    requires Inv(s) && LiveAt(s, k)
    requires Runs(Apply(s, Cancel(s.tasks[k].id)), actions)
    requires IsIn(After(Apply(s, Cancel(s.tasks[k].id)), actions), k, Working)
    ensures var id, s1 := s.tasks[k].id, After(Apply(s, Cancel(s.tasks[k].id)), actions);
            var s2 := Apply(s1, Exit(k, error));
            && id in s1.downloads && s1.downloads[id].status == Cancelled && !s1.downloads[id].taskExited
            && id in s2.downloads && s2.downloads[id].status == (if error.None? then Completed else Cancelled)
            && s2.downloads[id].error == (if error.None? then s1.downloads[id].error else error)
            && id !in Apply(s2, Clear(id)).downloads
  {
    var id := s.tasks[k].id;
    var s0 := Apply(s, Cancel(id));
    StepKeepsInv(s, Cancel(id));
    CancelMarks(s, id);
    RunKeepsInv(s0, actions);
    EntryKeptWhileLive(s0, actions, k);
    ExitStatus(After(s0, actions), k, error);
    ClearRemoves(Apply(After(s0, actions), Exit(k, error)), id);
  }

  // ----- downloads that are stuck -----

  /** An unfinished entry that no task will ever finish. */
  ghost predicate Orphaned(s: State, id: string) {
    Owned(s.downloads, id) && forall k: nat :: LiveAt(s, k) ==> s.tasks[k].id != id
  }

  /** Nothing that these operations do ever helps: the entry cannot be restarted, cleared or finished. */
  lemma OrphanedStep(s: State, a: Action, id: string)
    requires Enabled(s, a) && Orphaned(s, id)
    ensures Orphaned(Apply(s, a), id)
  {
    if a.Exit? {
      assert LiveAt(s, a.task);
    }
    OwnedStays(s, a, id);
    OwnedIsTaken(s.downloads, id);
    forall k: nat | LiveAt(Apply(s, a), k) ensures Apply(s, a).tasks[k].id != id {
      if k < |s.tasks| {
        TaskKeepsId(s, a, k);
      }
    }
  }

  lemma {:induction false} OrphanedForever(s: State, actions: seq<Action>, id: string, hint: nat)
    requires Runs(s, actions) && Orphaned(s, id)
    ensures Orphaned(After(s, actions), id)
    ensures Apply(After(s, actions), Start(id, hint)) == After(s, actions)
    ensures Apply(After(s, actions), Clear(id)) == After(s, actions)
    decreases |actions|
  {
    if actions == [] {
      OwnedIsTaken(s.downloads, id);
    } else {
      OrphanedStep(s, actions[0], id);
      OrphanedForever(Apply(s, actions[0]), actions[1..], id, hint);
    }
  }

  /** Two steps from the empty map make one: a start, and directories that cannot be created. */
  lemma OrphanExists(id: string, hint: nat)
    ensures Runs(EMPTY, [Start(id, hint), Abandon(0)])
    ensures Orphaned(After(EMPTY, [Start(id, hint), Abandon(0)]), id)
  {
    var actions := [Start(id, hint), Abandon(0)];
    var s1 := Apply(EMPTY, actions[0]);
    var s2 := Apply(s1, actions[1]);
    assert actions[1..] == [Abandon(0)] && [Abandon(0)][1..] == [];
    assert Runs(s2, []) && After(s2, []) == s2;
    assert Runs(s1, [Abandon(0)]) && After(s1, [Abandon(0)]) == s2;
  }

  /**
   A start whose directories could not be created, a reservation of an unfinished entry, or the
   cancellation of an entry that was reserved as completed or failed but not as exited.
   */
  predicate Orphans(s: State, a: Action, id: string)
    requires Enabled(s, a)
  {
    || (a.Abandon? && s.tasks[a.task].id == id)
    || (a.Reserve? && a.id == id && !Taken(s.downloads, id)
        && !a.progress.taskExited && a.progress.status in {Downloading, Cancelled})
    || (a.Cancel? && a.id == id && id in s.downloads && !s.downloads[id].taskExited && !Owned(s.downloads, id))
  }

  /** Exactly three kinds of step make an orphan. */
  lemma OrphanedExactlyBy(s: State, a: Action, id: string)
    requires Inv(s) && Enabled(s, a) && !Orphaned(s, id)
    ensures Orphaned(Apply(s, a), id) <==> Orphans(s, a, id)
  {
    var s' := Apply(s, a);
    if Orphans(s, a, id) {
      if a.Abandon? {
        assert LiveAt(s, a.task);
        forall k: nat | LiveAt(s', k) ensures s'.tasks[k].id != id {
          assert LiveAt(s, k) && k != a.task;
        }
      } else {
        forall k: nat | LiveAt(s', k) ensures s'.tasks[k].id != id {
          assert LiveAt(s, k);
          OwnedIsTaken(s.downloads, s.tasks[k].id);
        }
      }
    } else {
      NotOrphaned(s, a, id);
    }
  }

  lemma NotOrphaned(s: State, a: Action, id: string)
    requires Inv(s) && Enabled(s, a) && !Orphaned(s, id) && !Orphans(s, a, id)
    ensures !Orphaned(Apply(s, a), id)
  {
    var s' := Apply(s, a);
    if Owned(s.downloads, id) {
      var k: nat :| LiveAt(s, k) && s.tasks[k].id == id;
      TaskKeepsId(s, a, k);
      if a.Exit? && a.task == k {
        ExitStatus(s, k, a.error);
      } else {
        assert LiveAt(s', k);
      }
    } else if a.Start? && a.id == id && !Taken(s.downloads, id) {
      assert LiveAt(s', |s.tasks|);
    }
  }
}
