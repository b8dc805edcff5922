/**
 Resuming a download after interruptions.

 The server, the disk and the user who cancels are a `World`: it answers every question asked of
 it, and because each question carries the moment it is asked, the answers may change freely.
 */
module Resume {
  import opened Wrappers

  type Bytes = seq<bv8>

  datatype Reply =
    | NoConnection
    | Reply(code: nat, length: Option<nat>, rangeTotal: Option<nat>, chunks: seq<Bytes>, broken: bool)

  datatype World = World(
    head: (string, nat) -> Option<nat>,       // url, moment: the length that HEAD gives
    get: (string, nat, nat) -> Reply,         // url, first byte asked for, moment
    cancelled: nat -> bool,
    removes: nat -> bool,                     // does removing a file succeed
    ioFails: nat -> bool,                     // does a rename, an open or a truncation fail
    written: (nat, nat) -> nat,               // moment, length: how much of a write gets through
    looks: nat -> nat)                        // how often a wait looks for a cancellation

  const MAX_RETRIES := 10

  // ----- what a truthful server may answer (RFC 9110, sections 14.2, 15.3.7 and 15.5.17) -----

  function Joined(chunks: seq<Bytes>): Bytes {
    if chunks == [] then [] else chunks[0] + Joined(chunks[1..])
  }

  /** The body is a beginning of what was promised, and all of it unless the connection broke. */
  ghost predicate Carries(promised: Bytes, r: Reply)
    requires r.Reply?
  {
    Joined(r.chunks) <= promised && (!r.broken ==> Joined(r.chunks) == promised)
  }

  predicate Success(code: nat) {
    200 <= code < 300
  }

  predicate Transient(code: nat) {
    500 <= code < 600 || code == 408 || code == 429
  }

  /** Asked for c from byte n on; n == 0 is a request without a range. */
  ghost predicate Truthful(c: Bytes, n: nat, r: Reply) {
    r.Reply? ==>
      && (r.code == 416 ==> n > 0)
      && (200 <= r.code < 300 ==> r.code == 200 || r.code == 206)
      && (r.code == 200 ==> Carries(c, r) && (r.length.Some? ==> r.length.value == |c|))
      && (r.code == 206 ==> 0 < n < |c| && Carries(c[n..], r) && (r.rangeTotal.Some? ==> r.rangeTotal.value == |c|))
  }

  /** The content behind the url is c and stays c; HEAD gives its length, zero or nothing. */
  ghost predicate Serves(w: World, url: string, c: Bytes) {
    && (forall n, t :: Truthful(c, n, w.get(url, n, t)))
    && (forall t :: w.head(url, t) in {None, Some(0), Some(|c|)})
  }

  // ----- what is on disk -----

  function PartialPath(destination: string): string {
    destination + ".part"
  }

  function SizeOf(disk: map<string, Bytes>, path: string): nat {
    if path in disk then |disk[path]| else 0
  }

  function ContentOf(disk: map<string, Bytes>, path: string): Bytes {
    if path in disk then disk[path] else []
  }

  ghost predicate SameAt(a: map<string, Bytes>, b: map<string, Bytes>, path: string) {
    (path in a <==> path in b) && (path in a ==> a[path] == b[path])
  }

  ghost predicate SameBut(a: map<string, Bytes>, b: map<string, Bytes>, touched: set<string>) {
    forall path :: path !in touched ==> SameAt(a, b, path)
  }

  lemma SameButChain(a: map<string, Bytes>, b: map<string, Bytes>, c: map<string, Bytes>, touched: set<string>)
    requires SameBut(a, b, touched) && SameBut(b, c, touched)
    ensures SameBut(a, c, touched)
  {
    forall path | path !in touched ensures SameAt(a, c, path) {
      assert SameAt(a, b, path) && SameAt(b, c, path);
    }
  }

  lemma OnlyPartial(a: map<string, Bytes>, b: map<string, Bytes>, c: map<string, Bytes>, destination: string,
      partial: string)
    requires SameBut(a, b, {partial}) && SameBut(b, c, {partial}) && destination != partial
    ensures SameBut(a, c, {destination, partial}) && SameAt(a, c, destination)
  {
    SameButChain(a, b, c, {partial});
    forall path | path !in {destination, partial} ensures SameAt(a, c, path) {
      assert path !in {partial};
    }
  }

  function SaturatingSub(a: nat, b: nat): nat {
    if a < b then 0 else a - b
  }

  /** base, followed by the part of c that comes after |base| bytes. */
  ghost predicate Extends(content: Bytes, base: Bytes, c: Bytes) {
    content == base || (|base| <= |content| <= |c| && content == base + c[|base|..|content|])
  }

  /** A file grown out of the partial file p0 that was found, or from nothing. */
  ghost predicate Grown(content: Bytes, p0: Bytes, c: Bytes) {
    Extends(content, p0, c) || Extends(content, [], c)
  }

  ghost predicate LeftOver(disk: map<string, Bytes>, partial: string, p0: Bytes, c: Bytes) {
    partial in disk ==> Grown(disk[partial], p0, c)
  }

  /** At a loop head: so many bytes count as received, and the partial file holds exactly them. */
  ghost predicate Holds(disk: map<string, Bytes>, partial: string, n: nat) {
    n > 0 ==> SizeOf(disk, partial) == n
  }

  /** c itself, or c spliced onto the partial file that was there before. */
  ghost predicate Delivered(content: Bytes, p0: Bytes, c: Bytes) {
    content == c || (|p0| <= |c| && content == p0 + c[|p0|..])
  }

  /** A partial file that cannot spoil the result: a beginning of c, or too long to be taken for one. */
  ghost predicate Harmless(p: Bytes, c: Bytes) {
    p <= c || |p| > |c|
  }

  lemma ExtendsMore(content: Bytes, base: Bytes, c: Bytes, more: Bytes)
    requires Extends(content, base, c) && |content| <= |c| && more <= c[|content|..]
    ensures Extends(content + more, base, c)
  {
    var n := |content|;
    var rest := c[n..];
    assert |c[|base|..n + |more|]| == n - |base| + |more|;
    forall k | 0 <= k < |more| ensures more[k] == c[n + k] {
      assert rest[k] == c[n + k];
    }
    assert content + more == base + c[|base|..n + |more|];
  }

  lemma GrownMore(content: Bytes, p0: Bytes, c: Bytes, more: Bytes)
    requires Grown(content, p0, c) && |content| <= |c| && more <= c[|content|..]
    ensures Grown(content + more, p0, c)
  {
    if Extends(content, p0, c) {
      ExtendsMore(content, p0, c, more);
    } else {
      ExtendsMore(content, [], c, more);
    }
  }

  lemma GrownIsDelivered(content: Bytes, p0: Bytes, c: Bytes)
    requires Grown(content, p0, c) && |content| == |c|
    ensures Delivered(content, p0, c)
  {
    assert c[..|c|] == c[0..|c|] == c;
    assert |p0| <= |c| ==> c[|p0|..|c|] == c[|p0|..];
    assert |p0| == |c| ==> p0 + c[|p0|..] == p0;
  }

  lemma GrownIsHarmless(content: Bytes, p0: Bytes, c: Bytes)
    requires Grown(content, p0, c) && Harmless(p0, c)
    ensures Harmless(content, c)
  {
    if Extends(content, p0, c) && content != p0 {
      assert p0 == c[..|p0|];
      assert content == c[..|p0|] + c[|p0|..|content|] == c[..|content|];
    } else if !Extends(content, p0, c) && content != [] {
      assert content == c[0..|content|] == c[..|content|];
    }
  }

  /** The result is right exactly if the partial file that was spliced was a beginning of it. */
  lemma SpliceIsRightIffPrefix(p0: Bytes, c: Bytes)
    requires |p0| <= |c|
    ensures p0 + c[|p0|..] == c <==> p0 <= c
  {
    assert c == c[..|p0|] + c[|p0|..];
    if p0 + c[|p0|..] == c {
      assert (p0 + c[|p0|..])[..|p0|] == p0;
    }
  }

  /** A splice can only be wrong if the partial file was neither a beginning of c nor too long. */
  lemma HarmlessIsRight(content: Bytes, p0: Bytes, c: Bytes)
    requires Delivered(content, p0, c) && Harmless(p0, c)
    ensures content == c
  {
    if |p0| <= |c| {
      SpliceIsRightIffPrefix(p0, c);
    }
  }

  lemma JoinedNext(chunks: seq<Bytes>, i: nat)
    requires i < |chunks|
    ensures Joined(chunks[i..]) == chunks[i] + Joined(chunks[i + 1..])
  {
    assert chunks[i..][1..] == chunks[i + 1..];
  }

  /** The chunks from i on still fit behind the first got bytes of the content, and sum is what all of them reach. */
  ghost predicate Ahead(chunks: seq<Bytes>, i: nat, c: Bytes, got: nat, sum: nat) {
    && i <= |chunks| && got <= |c| && Joined(chunks[i..]) <= c[got..] && got + |Joined(chunks[i..])| == sum
  }

  lemma AheadNext(chunks: seq<Bytes>, i: nat, c: Bytes, got: nat, sum: nat)
    requires i < |chunks| && Ahead(chunks, i, c, got, sum)
    ensures chunks[i] <= c[got..] && Ahead(chunks, i + 1, c, got + |chunks[i]|, sum)
  {
    JoinedNext(chunks, i);
    NextOf(c, got, chunks[i], Joined(chunks[i + 1..]));
  }

  lemma NextOf(c: Bytes, n: nat, chunk: Bytes, rest: Bytes)
    requires n <= |c| && chunk + rest <= c[n..]
    ensures n + |chunk| <= |c| && chunk <= c[n..] && rest <= c[n + |chunk|..]
  {
    var tail := c[n..];
    assert tail[|chunk|..] == c[n + |chunk|..];
    assert (chunk + rest)[|chunk|..] == rest && tail[..|chunk + rest|] == chunk + rest;
    assert chunk == tail[..|chunk|];
    assert rest == tail[|chunk|..][..|rest|];
  }

  /** Any part of the next bytes may be appended. */
  lemma GrowsBy(content: Bytes, p0: Bytes, c: Bytes, chunk: Bytes)
    requires Grown(content, p0, c) && |content| <= |c| && chunk <= c[|content|..]
    ensures forall k :: 0 <= k <= |chunk| ==> Grown(content + chunk[..k], p0, c)
  {
    forall k | 0 <= k <= |chunk| ensures Grown(content + chunk[..k], p0, c) {
      GrownMore(content, p0, c, chunk[..k]);
    }
  }

  lemma LeftOverSame(before: map<string, Bytes>, after: map<string, Bytes>, partial: string, p0: Bytes, c: Bytes)
    requires LeftOver(before, partial, p0, c) && ContentOf(after, partial) == ContentOf(before, partial)
    ensures LeftOver(after, partial, p0, c)
  {
  }

  /** Why a download gave up. */
  datatype Fault = Aborted | DiskError | HttpStatus(code: nat) | ConnectionLost

  datatype Outcome = Done | Failed(fault: Fault)

  datatype End = Finished | Interrupted | Stopped(fault: Fault)

  datatype Next = Complete | Again | Retry(fault: Fault) | GiveUp(fault: Fault)

  ghost predicate NeverCancelled(w: World) {
    forall t :: !w.cancelled(t)
  }

  ghost predicate NoneCancelled(w: World, from: nat, to: nat) {
    forall t :: from <= t < to ==> !w.cancelled(t)
  }

  ghost predicate ReliableDisk(w: World) {
    && (forall t :: !w.ioFails(t))
    && (forall t, n :: w.written(t, n) >= n)
  }

  /** A fault has its cause; the server is only blamed for a final status or after every retry. */
  ghost predicate Blamed(w: World, fault: Fault, requests: int) {
    match fault
    case Aborted => !NeverCancelled(w)
    case DiskError => !ReliableDisk(w)
    case HttpStatus(code) =>
      !(200 <= code < 300) && code != 416 && (500 <= code < 600 || code in {408, 429} ==> requests > MAX_RETRIES)
    case ConnectionLost => requests > MAX_RETRIES
  }

  /** A request: when it was sent, from which byte on, and what the partial file held then. */
  datatype Asking = Asking(moment: nat, from: nat, held: Bytes)

  /** So many requests at most, each right after a look that found the download not cancelled. */
  ghost predicate Asked(w: World, before: seq<Asking>, after: seq<Asking>, most: nat) {
    && before <= after && |after| <= |before| + most
    && forall i :: |before| <= i < |after| ==> after[i].moment > 0 && !w.cancelled(after[i].moment - 1)
  }

  /** A cancellation that stays is obeyed: no request is sent later than right after it. */
  lemma NoRequestAfterCancel(w: World, before: seq<Asking>, after: seq<Asking>, most: nat, moment: nat, i: nat)
    requires Asked(w, before, after, most) && |before| <= i < |after|
    requires forall t :: t >= moment ==> w.cancelled(t)
    ensures after[i].moment <= moment
  {
  }

  lemma AskedOneMore(w: World, before: seq<Asking>, after: seq<Asking>, most: nat, a: Asking)
    requires Asked(w, before, after, most) && a.moment > 0 && !w.cancelled(a.moment - 1)
    ensures Asked(w, before, after + [a], most + 1)
  {
  }

  /** How many more requests there can be: two for every retry left, and one if there is something to forget. */
  function Budget(retries: nat, fileBytes: nat): (r: nat)
    requires retries <= MAX_RETRIES
    ensures r <= 21
  {
    2 * (MAX_RETRIES - retries) + if fileBytes > 0 then 1 else 0
  }

  lemma AskedMore(w: World, a: seq<Asking>, b: seq<Asking>, c: seq<Asking>, m: nat, n: nat)
    requires Asked(w, a, b, m) && Asked(w, b, c, n)
    ensures Asked(w, a, c, m + n)
  {
    forall i | |a| <= i < |c| ensures c[i].moment > 0 && !w.cancelled(c[i].moment - 1) {
      assert i < |b| ==> c[i] == b[i];
    }
  }

  /** A request for the rest of a file asks from exactly where the partial file ends, which grew from what was found. */
  ghost predicate Resumes(a: Asking, p0: Bytes, c: Bytes) {
    a.from > 0 ==> |a.held| == a.from && Grown(a.held, p0, c)
  }

  ghost predicate AllResume(before: seq<Asking>, after: seq<Asking>, p0: Bytes, c: Bytes) {
    forall i :: |before| <= i < |after| ==> Resumes(after[i], p0, c)
  }

  lemma ResumeOneMore(before: seq<Asking>, after: seq<Asking>, p0: Bytes, c: Bytes, a: Asking)
    requires AllResume(before, after, p0, c) && Resumes(a, p0, c)
    ensures AllResume(before, after + [a], p0, c)
  {
  }

  lemma HeldResumes(disk: map<string, Bytes>, partial: string, p0: Bytes, c: Bytes, moment: nat, from: nat)
    requires Holds(disk, partial, from) && LeftOver(disk, partial, p0, c)
    ensures Resumes(Asking(moment, from, ContentOf(disk, partial)), p0, c)
  {
  }

  /** What one more request does to the record of requests. */
  lemma OneMoreRequest(w: World, before: seq<Asking>, after: seq<Asking>, most: nat, p0: Bytes, c: Bytes, a: Asking)
    requires Asked(w, before, after, most) && AllResume(before, after, p0, c)
    requires a.moment > 0 && !w.cancelled(a.moment - 1) && Resumes(a, p0, c)
    ensures Asked(w, before, after + [a], most + 1) && AllResume(before, after + [a], p0, c)
  {
    AskedOneMore(w, before, after, most, a);
    ResumeOneMore(before, after, p0, c, a);
  }

  /** At every request the partial file is the beginning of the content that has as many bytes as count as received. */
  lemma HeldIsPrefix(a: Asking, p0: Bytes, c: Bytes)
    requires Resumes(a, p0, c) && p0 <= c && a.from > 0
    ensures a.from <= |c| && a.held == c[..a.from]
  {
    if Extends(a.held, p0, c) && a.held != p0 {
      assert p0 == c[..|p0|];
      assert a.held == c[..|p0|] + c[|p0|..|a.held|] == c[..|a.held|];
    } else if !Extends(a.held, p0, c) && a.held != [] {
      assert a.held == c[0..|a.held|] == c[..|a.held|];
    }
  }

  // ----- keeping what is there -----

  /** A range was asked for, and the server sent all of the file or said that there is no such range. */
  ghost predicate Refused(w: World, url: string, a: Asking) {
    var r := w.get(url, a.from, a.moment);
    a.from > 0 && r.Reply? && (r.code == 200 || r.code == 416)
  }

  ghost predicate NoneRefused(w: World, url: string, before: seq<Asking>, after: seq<Asking>) {
    forall i :: |before| <= i < |after| ==> !Refused(w, url, after[i])
  }

  /** Each request asks for what lies behind the partial file, which has only grown since it was found. */
  ghost predicate Climbs(before: seq<Asking>, after: seq<Asking>, p0: Bytes, c: Bytes) {
    && (forall i :: |before| <= i < |after| ==> |after[i].held| == after[i].from && Extends(after[i].held, p0, c))
    && (forall i, j :: |before| <= i < j < |after| ==> after[i].from <= after[j].from)
  }

  ghost predicate UpTo(before: seq<Asking>, after: seq<Asking>, n: nat) {
    forall i :: |before| <= i < |after| ==> after[i].from <= n
  }

  /** The partial file has n bytes, and has only grown since it was found. */
  ghost predicate Kept(disk: map<string, Bytes>, partial: string, n: nat, p0: Bytes, c: Bytes) {
    SizeOf(disk, partial) == n && Extends(ContentOf(disk, partial), p0, c)
  }

  /** The first request asks from byte n on. */
  ghost predicate StartsFrom(before: seq<Asking>, after: seq<Asking>, n: nat) {
    |after| > |before| ==> after[|before|].from == n
  }

  /** The length that HEAD gives is less than the n bytes found. */
  predicate Exceeds(head: Option<nat>, n: nat) {
    head.Some? && 0 < head.value < n
  }

  /**
   What a download that found n bytes asks for first: nothing if they are all, everything if they
   are too many, and what lies behind them otherwise.
   */
  ghost predicate FollowsHead(head: Option<nat>, before: seq<Asking>, after: seq<Asking>, n: nat) {
    && (head.Some? && 0 < head.value == n ==> after == before)
    && (Exceeds(head, n) ==> StartsFrom(before, after, 0))
    && (head.None? || head.value == 0 || head.value > n ==> StartsFrom(before, after, n))
  }

  lemma ClimbsMore(before: seq<Asking>, after: seq<Asking>, p0: Bytes, c: Bytes, a: Asking)
    requires |before| <= |after| && Climbs(before, after, p0, c) && UpTo(before, after, a.from)
    requires |a.held| == a.from && Extends(a.held, p0, c)
    ensures Climbs(before, after + [a], p0, c) && UpTo(before, after + [a], a.from)
  {
  }

  lemma NoneRefusedBefore(w: World, url: string, before: seq<Asking>, after: seq<Asking>, a: Asking)
    requires |before| <= |after| && NoneRefused(w, url, before, after + [a])
    ensures NoneRefused(w, url, before, after) && !Refused(w, url, a)
  {
    var more := after + [a];
    assert !Refused(w, url, more[|after|]);
    forall i | |before| <= i < |after| ensures !Refused(w, url, after[i]) {
      assert !Refused(w, url, more[i]);
    }
  }

  /** How the requests so far follow from the n bytes found, and what is left of them. */
  ghost predicate Resuming(w: World, url: string, asked: seq<Asking>, requests: seq<Asking>, n: nat, p0: Bytes,
      c: Bytes, disk: map<string, Bytes>, partial: string, fileBytes: nat)
  {
    && |asked| <= |requests| && StartsFrom(asked, requests, n) && (|requests| == |asked| ==> fileBytes == n)
    && (n == |p0| && NoneRefused(w, url, asked, requests) ==>
          Climbs(asked, requests, p0, c) && UpTo(asked, requests, fileBytes) && Kept(disk, partial, fileBytes, p0, c))
  }

  /** The record of all requests of a download that found n bytes. */
  ghost predicate Resumed(w: World, url: string, asked: seq<Asking>, requests: seq<Asking>, n: nat, p0: Bytes, c: Bytes)
  {
    && |asked| <= |requests| && StartsFrom(asked, requests, n)
    && (n == |p0| && NoneRefused(w, url, asked, requests) ==> Climbs(asked, requests, p0, c))
  }

  /** The same requests, with at least as much of the file behind them. */
  lemma ResumingGrows(w: World, url: string, asked: seq<Asking>, requests: seq<Asking>, n: nat, p0: Bytes,
      c: Bytes, disk: map<string, Bytes>, partial: string, fileBytes: nat, disk': map<string, Bytes>, fileBytes': nat)
    requires Resuming(w, url, asked, requests, n, p0, c, disk, partial, fileBytes) && |requests| > |asked|
    requires n == |p0| && NoneRefused(w, url, asked, requests) ==>
               Kept(disk', partial, fileBytes', p0, c) && fileBytes' >= fileBytes
    ensures Resuming(w, url, asked, requests, n, p0, c, disk', partial, fileBytes')
  {
  }

  class Downloader {
    const world: World
    var disk: map<string, Bytes>
    var clock: nat
    var cumulative: nat
    var requests: seq<Asking>

    constructor (world: World, disk: map<string, Bytes>)
      ensures this.world == world && this.disk == disk && cumulative == 0 && requests == []
    {
      this.world, this.disk, clock, cumulative, requests := world, disk, 0, 0, [];
    }

    method Cancelled() returns (yes: bool)
      modifies `clock
      ensures yes == world.cancelled(old(clock)) && clock == old(clock) + 1
    {
      yes := world.cancelled(clock);
      clock := clock + 1;
    }

    /** The length HEAD gives, zero if it gives none. */
    method Head(url: string, ghost c: Bytes) returns (total: nat)
      requires Serves(world, url, c)
      modifies `clock
      ensures total == 0 || total == |c|
      ensures total == (match world.head(url, old(clock)) case Some(n) => n case None => 0) && clock == old(clock) + 1
    {
      total := match world.head(url, clock) case Some(n) => n case None => 0;
      clock := clock + 1;
    }

    method Get(url: string, partial: string, from: nat, ghost c: Bytes) returns (r: Reply)
      requires Serves(world, url, c)
      modifies `clock, `requests
      ensures Truthful(c, from, r) && r == world.get(url, from, old(clock)) && clock == old(clock) + 1
      ensures requests == old(requests) + [Asking(old(clock), from, ContentOf(disk, partial))]
    {
      r := world.get(url, from, clock);
      requests := requests + [Asking(clock, from, ContentOf(disk, partial))];
      clock := clock + 1;
    }

    /** Removing is tried, and a failure ignored. */
    method Remove(path: string)
      modifies `clock, `disk
      ensures disk == if world.removes(old(clock)) then old(disk) - {path} else old(disk)
      ensures clock == old(clock) + 1
    {
      if world.removes(clock) {
        disk := disk - {path};
      }
      clock := clock + 1;
    }

    method Rename(from: string, to: string) returns (ok: bool)
      requires from in disk && from != to
      modifies `clock, `disk
      ensures disk == if ok then (old(disk) - {from})[to := old(disk[from])] else old(disk)
      ensures ok == !world.ioFails(old(clock)) && clock == old(clock) + 1
      ensures !ok ==> !ReliableDisk(world)
    {
      ok := !world.ioFails(clock);
      clock := clock + 1;
      if ok {
        disk := (disk - {from})[to := disk[from]];
      }
    }

    /** Opens the partial file for appending and cuts or fills it to n bytes. */
    method OpenAt(partial: string, n: nat) returns (ok: bool)
      modifies `clock, `disk
      ensures SameBut(old(disk), disk, {partial})
      ensures ok && n <= SizeOf(old(disk), partial) ==>
                partial in disk && disk[partial] == ContentOf(old(disk), partial)[..n]
      ensures ok && n > SizeOf(old(disk), partial) ==>
                partial in disk
                && disk[partial] == ContentOf(old(disk), partial) + seq(n - SizeOf(old(disk), partial), _ => 0)
      ensures !ok ==> ContentOf(disk, partial) == ContentOf(old(disk), partial) && !ReliableDisk(world)
      ensures clock > old(clock) && (world.ioFails(old(clock)) ==> !ok && disk == old(disk))
      ensures SizeOf(old(disk), partial) != n && world.ioFails(old(clock) + 1) ==> !ok
    {
      if world.ioFails(clock) {
        clock := clock + 1;
        return false;
      }
      clock := clock + 1;
      var content := ContentOf(disk, partial);
      disk := disk[partial := content];
      if |content| != n {
        if world.ioFails(clock) {
          clock := clock + 1;
          return false;
        }
        clock := clock + 1;
        disk := disk[partial := if n <= |content| then content[..n] else content + seq(n - |content|, _ => 0)];
      }
      return true;
    }

    /** Appends a chunk; when the write fails, part of it may have arrived. */
    method Write(partial: string, chunk: Bytes) returns (ok: bool)
      requires partial in disk
      modifies `clock, `disk
      ensures var k := world.written(old(clock), |chunk|);
              (ok <==> k >= |chunk|)
              && disk == old(disk)[partial := old(disk[partial]) + if ok then chunk else chunk[..k]]
      ensures !ok ==> !ReliableDisk(world)
      ensures clock == old(clock) + 1
    {
      var k := world.written(clock, |chunk|);
      clock := clock + 1;
      ok := k >= |chunk|;
      disk := disk[partial := disk[partial] + if ok then chunk else chunk[..k]];
    }

    /** Waits before the next attempt, looking now and then; fails if none is left or a look finds a cancellation. */
    method MayRetry(retries: nat, fault: Fault) returns (o: Outcome)
      modifies `clock
      ensures o.Done? ==> retries < MAX_RETRIES && clock == old(clock) + world.looks(old(clock))
      ensures o.Done? ==> NoneCancelled(world, old(clock), clock)
      ensures o.Failed? ==> (o.fault == fault && retries >= MAX_RETRIES)
                            || (o.fault == Aborted && retries < MAX_RETRIES && clock > 0 && world.cancelled(clock - 1))
    {
      if retries >= MAX_RETRIES {
        return Failed(fault);
      }
      var looks := world.looks(clock);
      for k := 0 to looks
        invariant clock == old(clock) + k
        invariant NoneCancelled(world, old(clock), clock)
      {
        var stop := Cancelled();
        if stop {
          return Failed(Aborted);
        }
      }
      return Done;
    }

    /** Appends a chunk of the content to what has grown towards it. */
    method Append(partial: string, chunk: Bytes, ghost p0: Bytes, ghost c: Bytes) returns (ok: bool)
      requires partial in disk && |disk[partial]| <= |c| && chunk <= c[|disk[partial]|..]
      requires Grown(disk[partial], p0, c)
      modifies `clock, `disk
      ensures SameBut(old(disk), disk, {partial}) && partial in disk && Grown(disk[partial], p0, c)
      ensures ok ==> |disk[partial]| == |old(disk[partial])| + |chunk|
      ensures ok && Extends(old(disk[partial]), p0, c) ==> Extends(disk[partial], p0, c)
      ensures !ok ==> !ReliableDisk(world)
      ensures clock == old(clock) + 1
    {
      GrowsBy(disk[partial], p0, c, chunk);
      if Extends(disk[partial], p0, c) {
        ExtendsMore(disk[partial], p0, c, chunk);
        assert chunk[..|chunk|] == chunk;
      }
      ok := Write(partial, chunk);
    }

    /** Looks for a cancellation, and appends a chunk if there is none. */
    method TakeChunk(partial: string, chunk: Bytes, ghost p0: Bytes, ghost c: Bytes) returns (stopped: Option<Fault>)
      requires partial in disk && |disk[partial]| <= |c| && chunk <= c[|disk[partial]|..]
      requires Grown(disk[partial], p0, c)
      modifies `clock, `disk
      ensures SameBut(old(disk), disk, {partial}) && LeftOver(disk, partial, p0, c)
      ensures stopped.None? ==> partial in disk && |disk[partial]| == |old(disk[partial])| + |chunk|
      ensures stopped.None? && Extends(old(disk[partial]), p0, c) ==> Extends(disk[partial], p0, c)
      ensures stopped.None? ==> clock == old(clock) + 2 && !world.cancelled(old(clock))
      ensures stopped.Some? ==> stopped.value in {Aborted, DiskError} && Blamed(world, stopped.value, 0)
      ensures stopped == Some(Aborted) ==> clock > 0 && (world.removes(clock - 1) ==> partial !in disk)
    {
      var stop := Cancelled();
      if stop {
        Remove(partial);
        return Some(Aborted);
      }
      var ok := Append(partial, chunk, p0, c);
      return if ok then None else Some(DiskError);
    }

    /** Appends chunks, as long as nobody cancels: it looks before each of them. */
    method TakeChunks(partial: string, chunks: seq<Bytes>, fileBytes: nat, ghost p0: Bytes, ghost c: Bytes)
      returns (stopped: Option<Fault>, got: nat)
      requires fileBytes <= |c| && Joined(chunks) <= c[fileBytes..]
      requires partial in disk && |disk[partial]| == fileBytes && Grown(disk[partial], p0, c)
      modifies `clock, `disk, `cumulative
      ensures SameBut(old(disk), disk, {partial}) && LeftOver(disk, partial, p0, c)
      ensures stopped.None? ==> partial in disk && |disk[partial]| == got == fileBytes + |Joined(chunks)|
      ensures stopped.None? ==> cumulative - got == old(cumulative) - fileBytes
      ensures stopped.None? && Extends(old(disk[partial]), p0, c) ==> Extends(disk[partial], p0, c)
      ensures stopped.None? ==> clock == old(clock) + 2 * |chunks|
      ensures stopped.None? ==> forall i :: 0 <= i < |chunks| ==> !world.cancelled(old(clock) + 2 * i)
      ensures stopped.Some? ==> stopped.value in {Aborted, DiskError} && Blamed(world, stopped.value, 0)
      ensures stopped == Some(Aborted) ==> clock > 0 && (world.removes(clock - 1) ==> partial !in disk)
    {
      got := fileBytes;
      var i := 0;
      ghost var sum := fileBytes + |Joined(chunks)|;
      assert chunks[0..] == chunks;
      while i < |chunks|
        invariant 0 <= i <= |chunks|
        invariant SameBut(old(disk), disk, {partial})
        invariant partial in disk && |disk[partial]| == got <= |c| && Grown(disk[partial], p0, c)
        invariant Extends(old(disk[partial]), p0, c) ==> Extends(disk[partial], p0, c)
        invariant clock == old(clock) + 2 * i
        invariant forall j :: 0 <= j < i ==> !world.cancelled(old(clock) + 2 * j)
        invariant Ahead(chunks, i, c, got, sum)
        invariant cumulative - got == old(cumulative) - fileBytes
      {
        var chunk := chunks[i];
        AheadNext(chunks, i, c, got, sum);
        stopped := TakeChunk(partial, chunk, p0, c);
        if stopped.Some? {
          return stopped, got;
        }
        got, cumulative := got + |chunk|, cumulative + |chunk|;
        i := i + 1;
      }
      stopped := None;
    }

    /** Appends the chunks that arrive. */
    method Receive(partial: string, r: Reply, fileBytes: nat, ghost p0: Bytes, ghost c: Bytes)
      returns (end: End, got: nat)
      requires r.Reply? && fileBytes <= |c| && Joined(r.chunks) <= c[fileBytes..]
      requires partial in disk && |disk[partial]| == fileBytes && Grown(disk[partial], p0, c)
      modifies `clock, `disk, `cumulative
      ensures SameBut(old(disk), disk, {partial}) && LeftOver(disk, partial, p0, c)
      ensures !end.Stopped? ==> partial in disk && |disk[partial]| == got <= |c|
      ensures !end.Stopped? ==> cumulative - got == old(cumulative) - fileBytes
      ensures !end.Stopped? && Extends(old(disk[partial]), p0, c) ==> Extends(disk[partial], p0, c) && got >= fileBytes
      ensures !end.Stopped? ==> clock == old(clock) + 2 * |r.chunks| + 1 && !world.ioFails(clock - 1)
      ensures !end.Stopped? ==> forall i :: 0 <= i < |r.chunks| ==> !world.cancelled(old(clock) + 2 * i)
      ensures end.Stopped? ==> end.fault in {Aborted, DiskError} && Blamed(world, end.fault, 0)
      ensures end == Stopped(Aborted) ==> clock > 0 && (world.removes(clock - 1) ==> partial !in disk)
      ensures end == Finished ==> !r.broken && got == fileBytes + |Joined(r.chunks)|
      ensures end == Interrupted ==> r.broken
    {
      var stopped;
      stopped, got := TakeChunks(partial, r.chunks, fileBytes, p0, c);
      if stopped.Some? {
        return Stopped(stopped.value), got;
      }
      var flushed := !world.ioFails(clock);
      clock := clock + 1;
      end := if !flushed then Stopped(DiskError) else if r.broken then Interrupted else Finished;
    }

    /** Puts the body of a reply behind the first fileBytes bytes of the partial file. */
    method Store(partial: string, r: Reply, fileBytes: nat, ghost p0: Bytes, ghost c: Bytes)
      returns (end: End, got: nat)
      requires r.Reply? && fileBytes <= |c| && Carries(c[fileBytes..], r)
      requires Holds(disk, partial, fileBytes) && LeftOver(disk, partial, p0, c)
      modifies `clock, `disk, `cumulative
      ensures SameBut(old(disk), disk, {partial}) && LeftOver(disk, partial, p0, c)
      ensures !end.Stopped? ==> partial in disk && |disk[partial]| == got <= |c|
      ensures !end.Stopped? ==> cumulative - got == old(cumulative) - fileBytes
      ensures !end.Stopped? && Kept(old(disk), partial, fileBytes, p0, c) ==>
                Kept(disk, partial, got, p0, c) && got >= fileBytes
      ensures end.Stopped? ==> end.fault in {Aborted, DiskError} && Blamed(world, end.fault, 0)
      ensures end == Finished ==> got == |c|
      ensures end == Interrupted ==> r.broken
    {
      var ready := OpenAt(partial, fileBytes);
      if !ready {
        LeftOverSame(old(disk), disk, partial, p0, c);
        return Stopped(DiskError), fileBytes;
      }
      assert SizeOf(old(disk), partial) == fileBytes ==> disk[partial] == ContentOf(old(disk), partial);
      end, got := Receive(partial, r, fileBytes, p0, c);
    }

    /** What holds between two requests. */
    ghost predicate Between(partial: string, p0: Bytes, c: Bytes, others: int, fileBytes: nat, fileTotal: nat)
      reads this
    {
      && Holds(disk, partial, fileBytes) && LeftOver(disk, partial, p0, c)
      && (others >= 0 ==> cumulative == others + fileBytes) && (fileTotal == 0 || fileTotal == |c|)
    }

    /** Forgets what was received of this file. */
    method Restart(partial: string, fileBytes: nat, ghost p0: Bytes, ghost c: Bytes, ghost others: int,
        ghost fileTotal: nat)
      requires Between(partial, p0, c, others, fileBytes, fileTotal)
      modifies `clock, `disk, `cumulative
      ensures Between(partial, p0, c, others, 0, fileTotal) && SameBut(old(disk), disk, {partial})
    {
      cumulative := SaturatingSub(cumulative, fileBytes);
      Remove(partial);
    }

    /** The success branch of the loop: restart if the range was ignored, learn the size, store the body. */
    method Accept(partial: string, r: Reply, fileBytes0: nat, fileTotal0: nat, ghost p0: Bytes, ghost c: Bytes,
        ghost others: int)
      returns (end: End, fileBytes: nat, fileTotal: nat)
      requires r.Reply? && Success(r.code) && Truthful(c, fileBytes0, r)
      requires Between(partial, p0, c, others, fileBytes0, fileTotal0)
      modifies `clock, `disk, `cumulative
      ensures SameBut(old(disk), disk, {partial}) && LeftOver(disk, partial, p0, c)
      ensures end.Stopped? ==> end.fault in {Aborted, DiskError} && Blamed(world, end.fault, 0)
      ensures !end.Stopped? ==> Between(partial, p0, c, others, fileBytes, fileTotal)
      ensures !end.Stopped? && Kept(old(disk), partial, fileBytes0, p0, c) && !(fileBytes0 > 0 && r.code == 200) ==>
                Kept(disk, partial, fileBytes, p0, c) && fileBytes >= fileBytes0
      ensures fileTotal0 > 0 ==> fileTotal == fileTotal0
      ensures fileTotal0 == 0 && r.code == 206 && r.rangeTotal.Some? ==> fileTotal == r.rangeTotal.value
      ensures fileTotal0 == 0 && r.code == 200 && r.length.Some? ==> fileTotal == r.length.value
      ensures end == Finished ==> fileBytes == |c| && partial in disk && |disk[partial]| == |c|
    {
      fileBytes, fileTotal := fileBytes0, fileTotal0;
      if fileBytes > 0 && r.code == 200 {
        Restart(partial, fileBytes, p0, c, others, fileTotal);
        fileBytes := 0;
      }
      if fileTotal == 0 {
        var learned := if fileBytes > 0 then r.rangeTotal else r.length;
        fileTotal := match learned case Some(t) => t case None => 0;
      }
      assert c[0..] == c;
      end, fileBytes := Store(partial, r, fileBytes, p0, c);
    }

    /** What one reply leads to. */
    method Handle(partial: string, r: Reply, fileBytes0: nat, fileTotal0: nat, ghost p0: Bytes, ghost c: Bytes,
        ghost others: int)
      returns (next: Next, fileBytes: nat, fileTotal: nat)
      requires Truthful(c, fileBytes0, r) && Between(partial, p0, c, others, fileBytes0, fileTotal0)
      modifies `clock, `disk, `cumulative
      ensures SameBut(old(disk), disk, {partial}) && LeftOver(disk, partial, p0, c)
      ensures !next.GiveUp? ==> Between(partial, p0, c, others, fileBytes, fileTotal)
      ensures next == Complete ==> fileBytes == |c| && partial in disk && |disk[partial]| == |c|
      ensures next == Again ==> fileBytes0 > 0 && fileBytes == 0
      ensures !next.GiveUp? && Kept(old(disk), partial, fileBytes0, p0, c)
              && !(fileBytes0 > 0 && r.Reply? && (r.code == 200 || r.code == 416)) ==>
                Kept(disk, partial, fileBytes, p0, c) && fileBytes >= fileBytes0
      ensures r.Reply? && r.code == 416 ==>
                next == if fileTotal0 > 0 && fileBytes0 == fileTotal0 then Complete else Again
      ensures next.Retry? ==> next.fault == ConnectionLost
                              || (next.fault.HttpStatus?
                                  && (500 <= next.fault.code < 600 || next.fault.code in {408, 429}))
      ensures next.GiveUp? ==> Blamed(world, next.fault, 0)
    {
      fileBytes, fileTotal := fileBytes0, fileTotal0;
      if r.NoConnection? {
        return Retry(ConnectionLost), fileBytes, fileTotal;
      }
      if r.code == 416 {
        if fileTotal > 0 && fileBytes == fileTotal {
          return Complete, fileBytes, fileTotal;
        }
        Restart(partial, fileBytes, p0, c, others, fileTotal);
        return Again, 0, fileTotal;
      }
      if !Success(r.code) {
        next := if Transient(r.code) then Retry(HttpStatus(r.code)) else GiveUp(HttpStatus(r.code));
        return;
      }
      var end;
      end, fileBytes, fileTotal := Accept(partial, r, fileBytes, fileTotal, p0, c, others);
      next := match end
        case Finished => Complete
        case Interrupted => Retry(ConnectionLost)
        case Stopped(fault) => GiveUp(fault);
    }

    /** What holds at the head of the request loop, asked being the requests sent before it. */
    ghost predicate AtHead(partial: string, p0: Bytes, c: Bytes, others: int, asked: seq<Asking>,
                           retries: nat, fileBytes: nat, fileTotal: nat)
      reads this
    {
      && retries <= MAX_RETRIES && Between(partial, p0, c, others, fileBytes, fileTotal)
      && Asked(world, asked, requests, 21 - Budget(retries, fileBytes))
      && |requests| >= |asked| + retries && AllResume(asked, requests, p0, c)
    }

    /** Sends one more request, from where the partial file ends. */
    method Ask(url: string, partial: string, retries: nat, fileBytes: nat, ghost fileTotal: nat,
               ghost p0: Bytes, ghost c: Bytes, ghost others: int, ghost asked: seq<Asking>, ghost n: nat)
      returns (r: Reply)
      requires Serves(world, url, c) && AtHead(partial, p0, c, others, asked, retries, fileBytes, fileTotal)
      requires Resuming(world, url, asked, requests, n, p0, c, disk, partial, fileBytes)
      requires clock > 0 && !world.cancelled(clock - 1)
      modifies `clock, `requests
      ensures Truthful(c, fileBytes, r) && |requests| == |old(requests)| + 1
      ensures Asked(world, asked, requests, 22 - Budget(retries, fileBytes)) && AllResume(asked, requests, p0, c)
      ensures Resuming(world, url, asked, requests, n, p0, c, disk, partial, fileBytes)
      ensures NoneRefused(world, url, asked, requests) ==>
                !(fileBytes > 0 && r.Reply? && (r.code == 200 || r.code == 416))
    {
      ghost var a, before := Asking(clock, fileBytes, ContentOf(disk, partial)), requests;
      HeldResumes(disk, partial, p0, c, clock, fileBytes);
      OneMoreRequest(world, asked, requests, 21 - Budget(retries, fileBytes), p0, c, a);
      r := Get(url, partial, fileBytes, c);
      if NoneRefused(world, url, asked, requests) {
        NoneRefusedBefore(world, url, asked, before, a);
        if n == |p0| {
          ClimbsMore(asked, before, p0, c, a);
        }
      }
    }

    /** Whether the loop goes on after a reply, possibly after a wait. */
    method Conclude(next: Next, retries0: nat) returns (o: Option<Outcome>, retries: nat)
      requires next.GiveUp? ==> Blamed(world, next.fault, 0)
      modifies `clock
      ensures o.None? ==> !next.Complete? && !next.GiveUp?
                          && retries == retries0 + (if next.Retry? then 1 else 0)
                          && (next.Retry? ==> retries <= MAX_RETRIES)
      ensures o == Some(Done) <==> next.Complete?
      ensures next.GiveUp? ==> o == Some(Failed(next.fault))
      ensures o.Some? && next.Retry? && retries0 >= MAX_RETRIES ==> o.value == Failed(next.fault)
      ensures o.Some? && next.Retry? && retries0 < MAX_RETRIES ==> o.value == Failed(Aborted) && !NeverCancelled(world)
      ensures next.Again? ==> o.None?
    {
      retries := retries0;
      match next {
        case Complete => o := Some(Done);
        case GiveUp(fault) => o := Some(Failed(fault));
        case Again => o := None;
        case Retry(fault) =>
          var wait := MayRetry(retries, fault);
          if wait.Failed? {
            o := Some(wait);
          } else {
            o, retries := None, retries + 1;
          }
      }
    }

    /** Asks, takes the reply, and waits if need be. */
    method Exchange(url: string, partial: string, retries0: nat, fileBytes0: nat, fileTotal0: nat,
                    ghost p0: Bytes, ghost c: Bytes, ghost others: int, ghost asked: seq<Asking>, ghost n: nat)
      returns (o: Option<Outcome>, retries: nat, fileBytes: nat, fileTotal: nat)
      requires Serves(world, url, c) && AtHead(partial, p0, c, others, asked, retries0, fileBytes0, fileTotal0)
      requires Resuming(world, url, asked, requests, n, p0, c, disk, partial, fileBytes0)
      requires clock > 0 && !world.cancelled(clock - 1)
      modifies `clock, `disk, `cumulative, `requests
      ensures SameBut(old(disk), disk, {partial}) && LeftOver(disk, partial, p0, c)
      ensures Asked(world, asked, requests, 2 * (MAX_RETRIES + 1)) && AllResume(asked, requests, p0, c)
      ensures o.None? ==> AtHead(partial, p0, c, others, asked, retries, fileBytes, fileTotal)
                          && Budget(retries, fileBytes) < Budget(retries0, fileBytes0)
      ensures o.None? ==> Resuming(world, url, asked, requests, n, p0, c, disk, partial, fileBytes)
      ensures Resumed(world, url, asked, requests, n, p0, c)
      ensures o == Some(Done) ==> partial in disk && |disk[partial]| == |c|
      ensures o == Some(Done) && others >= 0 ==> cumulative == others + |c|
      ensures o.Some? && o.value.Failed? ==> Blamed(world, o.value.fault, |requests| - |asked|)
    {
      var r := Ask(url, partial, retries0, fileBytes0, fileTotal0, p0, c, others, asked, n);
      var next;
      ghost var d1 := disk;
      next, fileBytes, fileTotal := Handle(partial, r, fileBytes0, fileTotal0, p0, c, others);
      if !next.GiveUp? {
        ResumingGrows(world, url, asked, requests, n, p0, c, d1, partial, fileBytes0, disk, fileBytes);
      }
      o, retries := Conclude(next, retries0);
    }

    /** One round of the request loop: look for a cancellation, ask, take the reply, wait if need be. */
    method Round(url: string, partial: string, retries0: nat, fileBytes0: nat, fileTotal0: nat,
                 ghost p0: Bytes, ghost c: Bytes, ghost others: int, ghost asked: seq<Asking>, ghost n: nat)
      returns (o: Option<Outcome>, retries: nat, fileBytes: nat, fileTotal: nat)
      requires Serves(world, url, c) && AtHead(partial, p0, c, others, asked, retries0, fileBytes0, fileTotal0)
      requires Resuming(world, url, asked, requests, n, p0, c, disk, partial, fileBytes0)
      modifies `clock, `disk, `cumulative, `requests
      ensures SameBut(old(disk), disk, {partial}) && LeftOver(disk, partial, p0, c)
      ensures Asked(world, asked, requests, 2 * (MAX_RETRIES + 1)) && AllResume(asked, requests, p0, c)
      ensures o.None? ==> AtHead(partial, p0, c, others, asked, retries, fileBytes, fileTotal)
                          && Budget(retries, fileBytes) < Budget(retries0, fileBytes0)
      ensures o.None? ==> Resuming(world, url, asked, requests, n, p0, c, disk, partial, fileBytes)
      ensures Resumed(world, url, asked, requests, n, p0, c)
      ensures world.cancelled(old(clock)) ==>
                o == Some(Failed(Aborted)) && requests == old(requests)
                && disk == if world.removes(old(clock) + 1) then old(disk) - {partial} else old(disk)
      ensures o == Some(Done) ==> partial in disk && |disk[partial]| == |c|
      ensures o == Some(Done) && others >= 0 ==> cumulative == others + |c|
      ensures o.Some? && o.value.Failed? ==> Blamed(world, o.value.fault, |requests| - |asked|)
    {
      retries, fileBytes, fileTotal := retries0, fileBytes0, fileTotal0;
      var stop := Cancelled();
      if stop {
        Remove(partial);
        return Some(Failed(Aborted)), retries, fileBytes, fileTotal;
      }
      o, retries, fileBytes, fileTotal :=
        Exchange(url, partial, retries, fileBytes, fileTotal, p0, c, others, asked, n);
    }

    /** The request loop: done once the partial file is complete. */
    method Fetch(url: string, partial: string, found: nat, size: nat, ghost p0: Bytes, ghost c: Bytes)
        returns (o: Outcome)
      requires Serves(world, url, c)
      requires Between(partial, p0, c, cumulative - found, found, size)
      requires found == |p0| ==> ContentOf(disk, partial) == p0
      modifies `clock, `disk, `cumulative, `requests
      ensures SameBut(old(disk), disk, {partial}) && LeftOver(disk, partial, p0, c)
      ensures Asked(world, old(requests), requests, 2 * (MAX_RETRIES + 1))
      ensures AllResume(old(requests), requests, p0, c) && Resumed(world, url, old(requests), requests, found, p0, c)
      ensures o.Done? ==> partial in disk && |disk[partial]| == |c|
      ensures o.Done? && found <= old(cumulative) ==> cumulative == old(cumulative) - found + |c|
      ensures o.Failed? ==> Blamed(world, o.fault, |requests| - |old(requests)|)
    {
      ghost var others, asked, d0 := cumulative - found, requests, disk;
      var retries, fileBytes, fileTotal := 0, found, size;
      while true
        invariant AtHead(partial, p0, c, others, asked, retries, fileBytes, fileTotal)
        invariant Resuming(world, url, asked, requests, found, p0, c, disk, partial, fileBytes)
        invariant SameBut(d0, disk, {partial})
        decreases Budget(retries, fileBytes)
      {
        ghost var d1 := disk;
        var end;
        end, retries, fileBytes, fileTotal :=
          Round(url, partial, retries, fileBytes, fileTotal, p0, c, others, asked, found);
        SameButChain(d0, d1, disk, {partial});
        if end.Some? {
          return end.value;
        }
      }
    }

    /** Moves a complete partial file to its destination. */
    method Promote(partial: string, destination: string, ghost p0: Bytes, ghost c: Bytes) returns (o: Outcome)
      requires partial in disk && destination !in disk && |disk[partial]| == |c| && LeftOver(disk, partial, p0, c)
      modifies `clock, `disk
      ensures SameBut(old(disk), disk, {destination, partial})
      ensures o.Done? ==> destination in disk && partial !in disk && disk[destination] == old(disk[partial])
      ensures o.Done? ==> Delivered(disk[destination], p0, c) && |disk[destination]| == |c|
      ensures o.Failed? ==> destination !in disk && LeftOver(disk, partial, p0, c)
      ensures o.Failed? ==> o.fault == DiskError && !ReliableDisk(world)
    {
      GrownIsDelivered(disk[partial], p0, c);
      var ok := Rename(partial, destination);
      return if ok then Done else Failed(DiskError);
    }

    method DownloadOneFile(url: string, destination: string, ghost c: Bytes) returns (o: Outcome)
      requires Serves(world, url, c) && destination !in disk
      modifies `clock, `disk, `cumulative, `requests
      ensures SameBut(old(disk), disk, {destination, PartialPath(destination)})
      ensures Asked(world, old(requests), requests, 2 * (MAX_RETRIES + 1))
      ensures o.Done? ==> destination in disk && PartialPath(destination) !in disk && |disk[destination]| == |c|
      ensures o.Done? ==> Delivered(disk[destination], ContentOf(old(disk), PartialPath(destination)), c)
      ensures AllResume(old(requests), requests, ContentOf(old(disk), PartialPath(destination)), c)
      ensures FollowsHead(world.head(url, old(clock)), old(requests), requests,
                          SizeOf(old(disk), PartialPath(destination)))
      ensures NoneRefused(world, url, old(requests), requests)
              && !Exceeds(world.head(url, old(clock)), SizeOf(old(disk), PartialPath(destination))) ==>
                Climbs(old(requests), requests, ContentOf(old(disk), PartialPath(destination)), c)
      ensures o.Done? && SizeOf(old(disk), PartialPath(destination)) <= old(cumulative) ==>
                cumulative == old(cumulative) - SizeOf(old(disk), PartialPath(destination)) + |c|
      ensures o.Failed? ==> destination !in disk && Blamed(world, o.fault, |requests| - |old(requests)|)
      ensures o.Failed? ==> LeftOver(disk, PartialPath(destination), ContentOf(old(disk), PartialPath(destination)), c)
    {
      var partial := PartialPath(destination);
      ghost var p0 := ContentOf(disk, partial);
      var fileBytes := SizeOf(disk, partial);
      var fileTotal := Head(url, c);
      if fileTotal > 0 && fileBytes == fileTotal {
        o := Promote(partial, destination, p0, c);
        return;
      }
      ghost var others, d0 := cumulative - fileBytes, disk;
      if fileTotal > 0 && fileBytes > fileTotal {
        Restart(partial, fileBytes, p0, c, others, fileTotal);
        fileBytes := 0;
      }
      ghost var d1 := disk;
      o := Fetch(url, partial, fileBytes, fileTotal, p0, c);
      ghost var d2 := disk;
      OnlyPartial(d0, d1, d2, destination, partial);
      if o.Done? {
        o := Promote(partial, destination, p0, c);
        SameButChain(d0, d2, disk, {destination, partial});
      }
    }
  }
}
