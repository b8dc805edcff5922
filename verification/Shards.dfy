/** A model in several files: one after the other, with one count of the bytes on disk for all of them. */
module Shards {
  import opened Wrappers
  import opened Resume

  datatype File = File(url: string, destination: string)

  ghost predicate Distinct(files: seq<File>) {
    && (forall i, j :: 0 <= i < j < |files| ==> files[i].destination != files[j].destination)
    && (forall i, j :: 0 <= i < |files| && 0 <= j < |files| ==>
      files[i].destination != PartialPath(files[j].destination))
  }

  lemma PartialPathsDiffer(a: string, b: string)
    requires a != b
    ensures PartialPath(a) != PartialPath(b)
  {
    var pa, pb := PartialPath(a), PartialPath(b);
    assert pa[..|pa| - 5] == a && pb[..|pb| - 5] == b;
  }

  /** What counts for a file: the finished file, or else the partial one. */
  function SizeFor(disk: map<string, Bytes>, f: File): nat {
    if f.destination in disk then |disk[f.destination]| else SizeOf(disk, PartialPath(f.destination))
  }

  function Total(disk: map<string, Bytes>, files: seq<File>, k: nat): nat
    requires k <= |files|
  {
    if k == 0 then 0 else Total(disk, files, k - 1) + SizeFor(disk, files[k - 1])
  }

  ghost predicate Untouched(a: map<string, Bytes>, b: map<string, Bytes>, f: File) {
    SameAt(a, b, f.destination) && SameAt(a, b, PartialPath(f.destination))
  }

  lemma OthersUntouched(a: map<string, Bytes>, b: map<string, Bytes>, files: seq<File>, i: nat, j: nat)
    requires Distinct(files) && i < |files| && j < |files| && i != j
    requires SameBut(a, b, {files[i].destination, PartialPath(files[i].destination)})
    ensures Untouched(a, b, files[j])
  {
    PartialPathsDiffer(files[i].destination, files[j].destination);
    assert SameAt(a, b, files[j].destination) && SameAt(a, b, PartialPath(files[j].destination));
  }

  lemma {:induction false} TotalChange(a: map<string, Bytes>, b: map<string, Bytes>, files: seq<File>, i: nat, k: nat)
    requires Distinct(files) && i < |files| && k <= |files|
    requires SameBut(a, b, {files[i].destination, PartialPath(files[i].destination)})
    ensures Total(b, files, k) - Total(a, files, k) == if i < k then SizeFor(b, files[i]) - SizeFor(a, files[i]) else 0
  {
    if k > 0 {
      TotalChange(a, b, files, i, k - 1);
      if i != k - 1 {
        OthersUntouched(a, b, files, i, k - 1);
      }
    }
  }

  lemma {:induction false} PartAtMostTotal(disk: map<string, Bytes>, files: seq<File>, i: nat, k: nat)
    requires i < k <= |files|
    ensures SizeFor(disk, files[i]) <= Total(disk, files, k)
  {
    if i < k - 1 {
      PartAtMostTotal(disk, files, i, k - 1);
    }
  }

  /** Finished: kept as it was found, or downloaded. */
  ghost predicate Settled(d0: map<string, Bytes>, d: map<string, Bytes>, f: File, c: Bytes) {
    && f.destination in d
    && (if f.destination in d0 then Untouched(d0, d, f)
        else PartialPath(f.destination) !in d && |d[f.destination]| == |c|
             && Delivered(d[f.destination], ContentOf(d0, PartialPath(f.destination)), c))
  }

  /** Not finished: nothing at the destination, and a partial file that can be resumed. */
  ghost predicate Pending(d0: map<string, Bytes>, d: map<string, Bytes>, f: File, c: Bytes) {
    && f.destination !in d0 && f.destination !in d
    && LeftOver(d, PartialPath(f.destination), ContentOf(d0, PartialPath(f.destination)), c)
  }

  ghost predicate AllSettled(d0: map<string, Bytes>, d: map<string, Bytes>, files: seq<File>, contents: seq<Bytes>,
      k: nat)
    requires |contents| == |files| && k <= |files|
  {
    forall i :: 0 <= i < k ==> Settled(d0, d, files[i], contents[i])
  }

  ghost predicate RestUntouched(d0: map<string, Bytes>, d: map<string, Bytes>, files: seq<File>, k: nat) {
    forall i :: k <= i < |files| ==> Untouched(d0, d, files[i])
  }

  /** The first k files are finished, the next one was given up, the others were not begun. */
  ghost predicate GaveUpAt(d0: map<string, Bytes>, d: map<string, Bytes>, files: seq<File>, contents: seq<Bytes>,
      k: nat)
    requires |contents| == |files|
  {
    && k < |files| && AllSettled(d0, d, files, contents, k) && RestUntouched(d0, d, files, k + 1)
    && (Untouched(d0, d, files[k]) || Pending(d0, d, files[k], contents[k]))
  }

  /** Nothing on disk that would end up as a wrong file. */
  ghost predicate Sound(d: map<string, Bytes>, f: File, c: Bytes) {
    && (f.destination in d ==> d[f.destination] == c)
    && (PartialPath(f.destination) in d ==> Harmless(d[PartialPath(f.destination)], c))
  }

  ghost predicate AllSound(d: map<string, Bytes>, files: seq<File>, contents: seq<Bytes>)
    requires |contents| == |files|
  {
    forall i :: 0 <= i < |files| ==> Sound(d, files[i], contents[i])
  }

  lemma SettledIsRight(d0: map<string, Bytes>, d: map<string, Bytes>, f: File, c: Bytes)
    requires Sound(d0, f, c) && Settled(d0, d, f, c)
    ensures d[f.destination] == c && Sound(d, f, c)
  {
    if f.destination !in d0 {
      HarmlessIsRight(d[f.destination], ContentOf(d0, PartialPath(f.destination)), c);
    }
  }

  lemma PendingIsSound(d0: map<string, Bytes>, d: map<string, Bytes>, f: File, c: Bytes)
    requires Sound(d0, f, c) && Pending(d0, d, f, c)
    ensures Sound(d, f, c)
  {
    var partial := PartialPath(f.destination);
    if partial in d {
      GrownIsHarmless(d[partial], ContentOf(d0, partial), c);
    }
  }

  /** Whatever interrupts a download, what it leaves behind is sound again: it can always be resumed. */
  lemma InterruptedIsSound(d0: map<string, Bytes>, d: map<string, Bytes>, files: seq<File>, contents: seq<Bytes>,
      k: nat)
    requires |contents| == |files| && AllSound(d0, files, contents) && GaveUpAt(d0, d, files, contents, k)
    ensures AllSound(d, files, contents)
  {
    forall i | 0 <= i < |files| ensures Sound(d, files[i], contents[i]) {
      if i < k {
        SettledIsRight(d0, d, files[i], contents[i]);
      } else if i == k && Pending(d0, d, files[i], contents[i]) {
        PendingIsSound(d0, d, files[i], contents[i]);
      }
    }
  }

  lemma FinishedIsRight(d0: map<string, Bytes>, d: map<string, Bytes>, files: seq<File>, contents: seq<Bytes>)
    requires |contents| == |files| && AllSound(d0, files, contents) && AllSettled(d0, d, files, contents, |files|)
    ensures AllSound(d, files, contents)
    ensures forall i :: 0 <= i < |files| ==> d[files[i].destination] == contents[i]
  {
    forall i | 0 <= i < |files| ensures Sound(d, files[i], contents[i]) && d[files[i].destination] == contents[i] {
      SettledIsRight(d0, d, files[i], contents[i]);
    }
  }

  // ----- the loop over the files -----

  /** What is on disk before anything is requested. */
  method Prescan(d: Downloader, files: seq<File>) returns (sum: nat)
    ensures sum == Total(d.disk, files, |files|)
  {
    sum := 0;
    for i := 0 to |files|
      invariant sum == Total(d.disk, files, i)
    {
      var f := files[i];
      var partial := PartialPath(f.destination);
      if f.destination in d.disk {
        sum := sum + |d.disk[f.destination]|;
      } else if partial in d.disk {
        sum := sum + |d.disk[partial]|;
      }
    }
  }

  lemma FileDone(d0: map<string, Bytes>, a: map<string, Bytes>, b: map<string, Bytes>,
                 files: seq<File>, contents: seq<Bytes>, i: nat)
    requires Distinct(files) && |contents| == |files| && i < |files|
    requires SameBut(a, b, {files[i].destination, PartialPath(files[i].destination)})
    requires AllSettled(d0, a, files, contents, i) && RestUntouched(d0, a, files, i)
    ensures AllSettled(d0, b, files, contents, i) && RestUntouched(d0, b, files, i + 1)
    ensures Untouched(d0, a, files[i])
  {
    forall j | 0 <= j < i ensures Settled(d0, b, files[j], contents[j]) {
      OthersUntouched(a, b, files, i, j);
      assert Settled(d0, a, files[j], contents[j]);
    }
    forall j | i + 1 <= j < |files| ensures Untouched(d0, b, files[j]) {
      OthersUntouched(a, b, files, i, j);
      assert Untouched(d0, a, files[j]);
    }
  }

  lemma FileSettled(d0: map<string, Bytes>, a: map<string, Bytes>, b: map<string, Bytes>, f: File, c: Bytes)
    requires Untouched(d0, a, f) && f.destination !in a
    requires f.destination in b && PartialPath(f.destination) !in b && |b[f.destination]| == |c|
    requires Delivered(b[f.destination], ContentOf(a, PartialPath(f.destination)), c)
    ensures Settled(d0, b, f, c) && SizeFor(b, f) == |c| && SizeFor(a, f) == SizeOf(a, PartialPath(f.destination))
  {
  }

  lemma NextSettled(d0: map<string, Bytes>, a: map<string, Bytes>, b: map<string, Bytes>,
                    files: seq<File>, contents: seq<Bytes>, i: nat)
    requires Distinct(files) && |contents| == |files| && i < |files| && files[i].destination !in a
    requires AllSettled(d0, a, files, contents, i) && RestUntouched(d0, a, files, i)
    requires var f := files[i];
             && SameBut(a, b, {f.destination, PartialPath(f.destination)})
             && f.destination in b && PartialPath(f.destination) !in b && |b[f.destination]| == |contents[i]|
             && Delivered(b[f.destination], ContentOf(a, PartialPath(f.destination)), contents[i])
    ensures AllSettled(d0, b, files, contents, i + 1) && RestUntouched(d0, b, files, i + 1)
    ensures Total(b, files, |files|)
            == Total(a, files, |files|) - SizeOf(a, PartialPath(files[i].destination)) + |contents[i]|
  {
    FileDone(d0, a, b, files, contents, i);
    FileSettled(d0, a, b, files[i], contents[i]);
    TotalChange(a, b, files, i, |files|);
  }

  lemma NextGaveUp(d0: map<string, Bytes>, a: map<string, Bytes>, b: map<string, Bytes>,
                   files: seq<File>, contents: seq<Bytes>, i: nat)
    requires Distinct(files) && |contents| == |files| && i < |files| && files[i].destination !in a
    requires AllSettled(d0, a, files, contents, i) && RestUntouched(d0, a, files, i)
    requires var f := files[i];
             && SameBut(a, b, {f.destination, PartialPath(f.destination)}) && f.destination !in b
             && LeftOver(b, PartialPath(f.destination), ContentOf(a, PartialPath(f.destination)), contents[i])
    ensures GaveUpAt(d0, b, files, contents, i)
  {
    FileDone(d0, a, b, files, contents, i);
    assert Pending(d0, b, files[i], contents[i]);
  }

  lemma SkippedSettled(d0: map<string, Bytes>, a: map<string, Bytes>, files: seq<File>, contents: seq<Bytes>, i: nat)
    requires |contents| == |files| && i < |files| && files[i].destination in a
    requires AllSettled(d0, a, files, contents, i) && RestUntouched(d0, a, files, i)
    ensures AllSettled(d0, a, files, contents, i + 1) && RestUntouched(d0, a, files, i + 1)
  {
    assert Untouched(d0, a, files[i]);
  }

  /** Before the i-th file: those before it are finished, and the count is the bytes on disk. */
  ghost predicate Counted(d0: map<string, Bytes>, d: map<string, Bytes>, cumulative: nat,
                          files: seq<File>, contents: seq<Bytes>, i: nat)
    requires |contents| == |files| && i <= |files|
  {
    && cumulative == Total(d, files, |files|)
    && AllSettled(d0, d, files, contents, i) && RestUntouched(d0, d, files, i)
  }

  /** What the download of one file does to the count and to the files. */
  lemma NextCounted(d0: map<string, Bytes>, a: map<string, Bytes>, b: map<string, Bytes>, before: nat, after: nat,
                    o: Outcome, files: seq<File>, contents: seq<Bytes>, i: nat)
    requires Distinct(files) && |contents| == |files| && i < |files| && files[i].destination !in a
    requires Counted(d0, a, before, files, contents, i)
    requires SameBut(a, b, {files[i].destination, PartialPath(files[i].destination)})
    requires var f, partial := files[i], PartialPath(files[i].destination);
             if o.Done? then
               && f.destination in b && partial !in b && |b[f.destination]| == |contents[i]|
               && Delivered(b[f.destination], ContentOf(a, partial), contents[i])
               && (SizeOf(a, partial) <= before ==> after == before - SizeOf(a, partial) + |contents[i]|)
             else f.destination !in b && LeftOver(b, partial, ContentOf(a, partial), contents[i])
    ensures if o.Done? then Counted(d0, b, after, files, contents, i + 1) else GaveUpAt(d0, b, files, contents, i)
  {
    PartAtMostTotal(a, files, i, |files|);
    if o.Done? {
      NextSettled(d0, a, b, files, contents, i);
    } else {
      NextGaveUp(d0, a, b, files, contents, i);
    }
  }

  ghost predicate AllServed(w: World, files: seq<File>, contents: seq<Bytes>)
    requires |contents| == |files|
  {
    forall i :: 0 <= i < |files| ==> Serves(w, files[i].url, contents[i])
  }

  ghost predicate RemovesAll(w: World) {
    forall t :: w.removes(t)
  }

  /**
   The requests for one file follow from what was found of it on disk d0: none if it was there, and
   otherwise from behind what the partial file held, climbing as long as the server gives the ranges.
   */
  ghost predicate ResumesFile(w: World, f: File, c: Bytes, d0: map<string, Bytes>, before: seq<Asking>,
      after: seq<Asking>)
  {
    if f.destination in d0 then after == before
    else
      exists t :: FromPartial(w, f.url, w.head(f.url, t), ContentOf(d0, PartialPath(f.destination)), c, before, after)
  }

  ghost predicate FromPartial(w: World, url: string, head: Option<nat>, p0: Bytes, c: Bytes, before: seq<Asking>,
      after: seq<Asking>)
  {
    && FollowsHead(head, before, after, |p0|)
    && (NoneRefused(w, url, before, after) && !Exceeds(head, |p0|) ==> Climbs(before, after, p0, c))
  }

  /** The marks cut the record of requests into the files they are for. */
  ghost predicate FilesResume(w: World, files: seq<File>, contents: seq<Bytes>, d0: map<string, Bytes>,
      requests: seq<Asking>, marks: seq<nat>)
    requires |contents| == |files|
  {
    && 0 < |marks| <= |files| + 1 && marks[|marks| - 1] == |requests|
    && (forall i :: 0 <= i < |marks| - 1 ==> marks[i] <= marks[i + 1])
    && (forall i :: 0 <= i < |marks| ==> marks[i] <= |requests|)
    && forall i :: 0 <= i < |marks| - 1 ==>
         ResumesFile(w, files[i], contents[i], d0, requests[..marks[i]], requests[..marks[i + 1]])
  }

  lemma NextResumes(w: World, files: seq<File>, contents: seq<Bytes>, d0: map<string, Bytes>,
      requests: seq<Asking>, marks: seq<nat>, after: seq<Asking>)
    requires |contents| == |files| && FilesResume(w, files, contents, d0, requests, marks) && |marks| <= |files|
    requires requests <= after
    requires ResumesFile(w, files[|marks| - 1], contents[|marks| - 1], d0, requests, after)
    ensures FilesResume(w, files, contents, d0, after, marks + [|after|])
  {
    var more := marks + [|after|];
    assert after[..|after|] == after && after[..|requests|] == requests;
    forall i | 0 <= i < |more| - 1
      ensures ResumesFile(w, files[i], contents[i], d0, after[..more[i]], after[..more[i + 1]])
    {
      if i < |marks| - 1 {
        assert after[..marks[i]] == requests[..marks[i]] && after[..marks[i + 1]] == requests[..marks[i + 1]];
      }
    }
  }

  /** One file that is not there yet. */
  method DownloadNext(d: Downloader, files: seq<File>, ghost contents: seq<Bytes>, ghost d0: map<string, Bytes>, i: nat)
    returns (o: Outcome)
    requires |contents| == |files| && AllServed(d.world, files, contents) && i < |files|
    requires files[i].destination !in d.disk
    requires Distinct(files) ==> Counted(d0, d.disk, d.cumulative, files, contents, i)
    modifies d`clock, d`disk, d`cumulative, d`requests
    ensures Asked(d.world, old(d.requests), d.requests, 22)
    ensures Distinct(files) && o.Done? ==> Counted(d0, d.disk, d.cumulative, files, contents, i + 1)
    ensures Distinct(files) && o.Failed? ==> GaveUpAt(d0, d.disk, files, contents, i)
    ensures Distinct(files) ==> ResumesFile(d.world, files[i], contents[i], d0, old(d.requests), d.requests)
    ensures o.Failed? ==> Blamed(d.world, o.fault, |d.requests| - |old(d.requests)|)
  {
    ghost var before, counted, t := d.disk, d.cumulative, d.clock;
    o := d.DownloadOneFile(files[i].url, files[i].destination, contents[i]);
    if Distinct(files) {
      NextCounted(d0, before, d.disk, counted, d.cumulative, o, files, contents, i);
      assert Untouched(d0, before, files[i]);
      assert FromPartial(d.world, files[i].url, d.world.head(files[i].url, t),
                         ContentOf(d0, PartialPath(files[i].destination)), contents[i], old(d.requests), d.requests);
    }
  }

  /** What is known before the i-th file, if no destination is another one or its partial path. */
  ghost predicate Going(w: World, files: seq<File>, contents: seq<Bytes>, d0: map<string, Bytes>,
      disk: map<string, Bytes>, cumulative: nat, requests: seq<Asking>, marks: seq<nat>, i: nat)
    requires |contents| == |files|
  {
    i <= |files| && |marks| == i + 1 &&
    (Distinct(files) ==>
       Counted(d0, disk, cumulative, files, contents, i) && FilesResume(w, files, contents, d0, requests, marks))
  }

  /** A look for a cancellation, and then one file, unless it is there. */
  method VisitFile(d: Downloader, files: seq<File>, ghost contents: seq<Bytes>, ghost d0: map<string, Bytes>,
      i: nat, ghost before: seq<nat>) returns (o: Outcome, ghost marks: seq<nat>)
    requires |contents| == |files| && AllServed(d.world, files, contents) && i < |files|
    requires Going(d.world, files, contents, d0, d.disk, d.cumulative, d.requests, before, i)
    modifies d`clock, d`disk, d`cumulative, d`requests
    ensures before <= marks && Asked(d.world, old(d.requests), d.requests, 22)
    ensures o.Done? ==> Going(d.world, files, contents, d0, d.disk, d.cumulative, d.requests, marks, i + 1)
    ensures o.Failed? && Distinct(files) ==> GaveUpAt(d0, d.disk, files, contents, i)
    ensures o.Failed? && Distinct(files) ==> FilesResume(d.world, files, contents, d0, d.requests, marks)
    ensures o.Failed? ==> Blamed(d.world, o.fault, |d.requests| - |old(d.requests)|)
    ensures d.world.cancelled(old(d.clock)) ==>
              o == Failed(Aborted) && d.disk == old(d.disk) && d.requests == old(d.requests)
  {
    var stop := d.Cancelled();
    if stop {
      return Failed(Aborted), before;
    }
    ghost var sent := d.requests;
    if files[i].destination !in d.disk {
      o := DownloadNext(d, files, contents, d0, i);
    } else {
      o := Done;
      if Distinct(files) {
        SkippedSettled(d0, d.disk, files, contents, i);
      }
    }
    if Distinct(files) {
      NextResumes(d.world, files, contents, d0, sent, before, d.requests);
    }
    marks := before + [|d.requests|];
  }

  /** The files one after the other; a cancellation found at the first look leaves everything as it was. */
  method DownloadFilesSequentially(d: Downloader, files: seq<File>, ghost contents: seq<Bytes>)
    returns (o: Outcome, ghost at: nat, ghost marks: seq<nat>)
    requires |contents| == |files| && AllServed(d.world, files, contents)
    modifies d`clock, d`disk, d`cumulative, d`requests
    ensures o.Done? && Distinct(files) ==> AllSettled(old(d.disk), d.disk, files, contents, |files|)
    ensures o.Done? && Distinct(files) ==> d.cumulative == Total(d.disk, files, |files|)
    ensures o.Failed? && Distinct(files) ==> GaveUpAt(old(d.disk), d.disk, files, contents, at)
    ensures o.Failed? ==> Blamed(d.world, o.fault, |d.requests| - |old(d.requests)|)
    ensures Asked(d.world, old(d.requests), d.requests, 22 * |files|)
    ensures Distinct(files) ==> FilesResume(d.world, files, contents, old(d.disk), d.requests, marks)
    ensures marks != [] && marks[0] == |old(d.requests)| && (o.Done? ==> |marks| == |files| + 1)
    ensures files != [] && d.world.cancelled(old(d.clock)) ==>
              o == Failed(Aborted) && d.disk == old(d.disk) && d.requests == old(d.requests)
  {
    ghost var d0, asked := d.disk, d.requests;
    var sum := Prescan(d, files);
    d.cumulative := sum;
    at, marks := 0, [|d.requests|];
    var i := 0;
    while i < |files|
      invariant 0 <= i <= |files| && marks != [] && marks[0] == |asked|
      invariant i == 0 ==> d.disk == d0 && d.requests == asked && d.clock == old(d.clock)
      invariant i > 0 ==> !d.world.cancelled(old(d.clock))
      invariant Going(d.world, files, contents, d0, d.disk, d.cumulative, d.requests, marks, i)
      invariant Asked(d.world, asked, d.requests, 22 * i)
    {
      at := i;
      ghost var sent := d.requests;
      o, marks := VisitFile(d, files, contents, d0, i, marks);
      AskedMore(d.world, asked, sent, d.requests, 22 * i, 22);
      if o.Failed? {
        return;
      }
      i := i + 1;
    }
    o := Done;
  }

  /** The background task: on failure it tries to remove every partial file. */
  method RunTask(d: Downloader, files: seq<File>, ghost contents: seq<Bytes>) returns (o: Outcome)
    requires |contents| == |files| && AllServed(d.world, files, contents)
    modifies d`clock, d`disk, d`cumulative, d`requests
    ensures Distinct(files) && AllSound(old(d.disk), files, contents) ==> AllSound(d.disk, files, contents)
    ensures Distinct(files) && AllSound(old(d.disk), files, contents) && o.Done? ==>
              forall i :: 0 <= i < |files| ==>
                files[i].destination in d.disk && d.disk[files[i].destination] == contents[i]
    ensures o.Failed? && RemovesAll(d.world) ==>
              forall i :: 0 <= i < |files| ==> PartialPath(files[i].destination) !in d.disk
    ensures o.Failed? ==> Blamed(d.world, o.fault, |d.requests| - |old(d.requests)|)
    ensures Asked(d.world, old(d.requests), d.requests, 22 * |files|)
  {
    ghost var at, marks;
    o, at, marks := DownloadFilesSequentially(d, files, contents);
    ghost var sound := Distinct(files) && AllSound(old(d.disk), files, contents);
    if o.Done? {
      if sound {
        FinishedIsRight(old(d.disk), d.disk, files, contents);
      }
      return;
    }
    if sound {
      InterruptedIsSound(old(d.disk), d.disk, files, contents, at);
    }
    ghost var asked := d.requests;
    for i := 0 to |files|
      invariant sound ==> AllSound(d.disk, files, contents)
      invariant d.requests == asked
      invariant RemovesAll(d.world) ==> forall j :: 0 <= j < i ==> PartialPath(files[j].destination) !in d.disk
    {
      d.Remove(PartialPath(files[i].destination));
    }
  }
}
