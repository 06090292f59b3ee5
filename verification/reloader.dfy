/** cmd/reloader/main.go: the sidecar's state, its tick, and what ticks leave behind under any edits in between. */
module Reloader {
  import opened Api
  import opened FileSystem
  import opened Stream
  import opened Volumes

  // ---------------------------------------------------------------- the locked state, tick by tick

  /** The fields that the mutex protects: what /status and /healthz can see. */
  datatype State = State(
    lastConfigHash: string,
    lastReloadTime: Option<int>,
    reloadCount: nat,
    lastError: string,
    healthy: bool)

  /** One tick: the walk fails, or yields a hash; should that be news, `nginx -t` and `-s reload` succeed or fail. */
  datatype Tick = WalkFailed | Walked(hash: string, test: Option<string>, reload: Option<string>, now: int)

  /** `nginx -t` and `nginx -s reload`, as run, and whether they succeeded. */
  datatype Command = Test(ok: bool) | Signal(ok: bool)

  predicate Attempts(s: State, t: Tick) {
    t.Walked? && t.hash != s.lastConfigHash
  }

  predicate Commits(s: State, t: Tick) {
    Attempts(s, t) && t.test.None? && t.reload.None?
  }

  function Step(s: State, t: Tick): State {
    if !Attempts(s, t) then s
    else if t.test.Some? then s.(lastError := t.test.value, healthy := false)
    else if t.reload.Some? then s.(lastError := t.reload.value, healthy := false)
    else State(t.hash, Some(t.now), s.reloadCount + 1, "", true)
  }

  /** The commands of a tick: none without news, and no signal unless the test has passed. */
  function Runs(s: State, t: Tick): seq<Command> {
    if !Attempts(s, t) then []
    else if t.test.Some? then [Test(false)]
    else [Test(true), Signal(t.reload.None?)]
  }

  function RunsAll(s: State, ts: seq<Tick>): seq<Command> {
    if ts == [] then [] else RunsAll(s, ts[..|ts| - 1]) + Runs(After(s, ts[..|ts| - 1]), ts[|ts| - 1])
  }

  /** Every signal directly follows a test that passed. */
  ghost predicate Tested(cs: seq<Command>) {
    forall i :: 0 <= i < |cs| && cs[i].Signal? ==> i > 0 && cs[i - 1] == Test(true)
  }

  lemma TestedAppend(a: seq<Command>, b: seq<Command>)
    requires Tested(a) && Tested(b)
    ensures Tested(a + b)
  {
    forall i | 0 <= i < |a + b| && (a + b)[i].Signal?
      ensures i > 0 && (a + b)[i - 1] == Test(true)
    {
      assert i < |a| ==> a[i].Signal?;
      assert i >= |a| ==> b[i - |a|].Signal?;
    }
  }

  /** Over any ticks, NGINX is only ever signalled right after a test that passed. */
  lemma {:induction false} SignalsFollowTests(s: State, ts: seq<Tick>)
    ensures Tested(RunsAll(s, ts))
  {
    if ts != [] {
      SignalsFollowTests(s, ts[..|ts| - 1]);
      TestedAppend(RunsAll(s, ts[..|ts| - 1]), Runs(After(s, ts[..|ts| - 1]), ts[|ts| - 1]));
    }
  }

  /** How often NGINX was signalled with success. */
  function Signals(cs: seq<Command>): nat {
    if cs == [] then 0 else Signals(cs[..|cs| - 1]) + (if cs[|cs| - 1] == Signal(true) then 1 else 0)
  }

  lemma {:induction false} SignalsAppend(a: seq<Command>, b: seq<Command>)
    ensures Signals(a + b) == Signals(a) + Signals(b)
  {
    if b == [] {
      assert a + b == a;
    } else {
      assert (a + b)[..|a + b| - 1] == a + b[..|b| - 1];
      SignalsAppend(a, b[..|b| - 1]);
    }
  }

  /**
   What a tick runs tells what it does: it commits exactly with a test that passed and then a signal that succeeded, it
   records a failure exactly when the last thing it ran failed, and it changes nothing exactly when it ran nothing.
   */
  lemma CommandsTell(s: State, t: Tick)
    ensures Commits(s, t) <==> Runs(s, t) == [Test(true), Signal(true)]
    ensures Commits(s, t) <==> Signals(Runs(s, t)) == 1
    ensures Step(s, t).reloadCount == s.reloadCount + Signals(Runs(s, t))
    ensures Attempts(s, t) && !Commits(s, t) <==> Runs(s, t) == [Test(false)] || Runs(s, t) == [Test(true), Signal(false)]
    ensures !Attempts(s, t) <==> Runs(s, t) == []
  {
    var passed, signalled := [Test(true)], [Test(true), Signal(t.Walked? && t.reload.None?)];
    assert [Test(false)][..0] == [] && passed[..0] == [] && signalled[..1] == passed;
    assert Signals([]) == 0 && Signals(passed) == 0 && Signals([Test(false)]) == 0;
  }

  /** Over any ticks, every reload that is counted is a signal that succeeded, and the other way round. */
  lemma {:induction false} ReloadsAreSignals(s: State, ts: seq<Tick>)
    ensures After(s, ts).reloadCount == s.reloadCount + Signals(RunsAll(s, ts))
  {
    if ts != [] {
      var n := |ts| - 1;
      ReloadsAreSignals(s, ts[..n]);
      SignalsAppend(RunsAll(s, ts[..n]), Runs(After(s, ts[..n]), ts[n]));
      CommandsTell(After(s, ts[..n]), ts[n]);
    }
  }

  function After(s: State, ts: seq<Tick>): State {
    if ts == [] then s else Step(After(s, ts[..|ts| - 1]), ts[|ts| - 1])
  }

  /** Whether the last tick that ran a command succeeded. */
  function LastAttempt(s: State, ts: seq<Tick>): Option<bool> {
    if ts == [] then None
    else
      var before := After(s, ts[..|ts| - 1]);
      if Attempts(before, ts[|ts| - 1]) then Some(Commits(before, ts[|ts| - 1]))
      else LastAttempt(s, ts[..|ts| - 1])
  }

  /** The hashes on record, from the first. */
  function Recorded(s: State, ts: seq<Tick>): seq<string> {
    if ts == [] then [s.lastConfigHash]
    else
      var before := After(s, ts[..|ts| - 1]);
      Recorded(s, ts[..|ts| - 1]) + (if Commits(before, ts[|ts| - 1]) then [ts[|ts| - 1].hash] else [])
  }

  /** Health is the outcome of the last attempt, however many quiet ticks have passed since. */
  lemma {:induction false} HealthIsLastAttempt(s: State, ts: seq<Tick>)
    ensures var a := LastAttempt(s, ts);
            After(s, ts).healthy == if a.Some? then a.value else s.healthy
  {
    if ts != [] {
      HealthIsLastAttempt(s, ts[..|ts| - 1]);
    }
  }

  /**
   The latch: while the hash on disk is the one on record, nothing changes. A sidecar that a bad edit has made
   unhealthy stays so when the edit is reverted.
   */
  lemma {:induction false} UnhealthyUntilNews(s: State, ts: seq<Tick>)
    requires forall t :: t in ts ==> t.WalkFailed? || t.hash == s.lastConfigHash
    ensures After(s, ts) == s
  {
    if ts != [] {
      UnhealthyUntilNews(s, ts[..|ts| - 1]);
    }
  }

  /** Each reload puts a new hash on record; neighbours differ, and the last one is the current one. */
  lemma {:induction false} RecordedHashes(s: State, ts: seq<Tick>)
    ensures var r := Recorded(s, ts);
            && r != [] && |r| == After(s, ts).reloadCount - s.reloadCount + 1
            && r[|r| - 1] == After(s, ts).lastConfigHash
            && forall i :: 0 < i < |r| ==> r[i - 1] != r[i]
  {
    if ts != [] {
      RecordedHashes(s, ts[..|ts| - 1]);
    }
  }

  // ---------------------------------------------------------------- what ticks keep

  /** An observation stays what it is as the log grows. */
  lemma SawLater(log: Log, log': Log, at: Path -> nat, from: nat, files: seq<File>)
    requires Longer(log, log') && Saw(log, [], at, from, files)
    ensures Saw(log', [], at, from, files)
  {
    assert forall p :: log'.disks[at(p)] == log.disks[at(p)];
  }

  /** What the sidecar has on record: a real observation of the files, and no more reloads than edits it had seen. */
  ghost predicate OnRecord(log: Log, root: string, hash: string -> string, s: State, at: Path -> nat, files: seq<File>) {
    && |log.disks| == |log.edits| + 1
    && Saw(log, [], at, 0, files)
    && s.lastConfigHash == hash(Feed(root, files))
    && s.reloadCount <= Consumed(log, at, |log.edits|)
  }

  lemma OnRecordLater(log: Log, log': Log, root: string, hash: string -> string, s: State, at: Path -> nat, files: seq<File>)
    requires Longer(log, log') && |log'.disks| == |log'.edits| + 1 && OnRecord(log, root, hash, s, at, files)
    ensures OnRecord(log', root, hash, s, at, files)
  {
    SawLater(log, log', at, 0, files);
    ConsumedLater(log, log', at, |log'.edits|);
  }

  /**
   A commit needs a hash that differs, so files that differ, so an edit that the new observation has taken in and
   the one on record had not.
   */
  lemma CommitOnRecord(log: Log, root: string, hash: string -> string, s: State, at: Path -> nat, files: seq<File>,
                       from: nat, at': Path -> nat, files': seq<File>, t: Tick)
    requires History(log) && OnRecord(log, root, hash, s, at, files)
    requires (forall p :: at(p) <= from) && Saw(log, [], at', from, files')
    requires Commits(s, t) && t.hash == hash(Feed(root, files'))
    ensures OnRecord(log, root, hash, Step(s, t), at', files')
  {
    DifferentFilesMoreEdits(log, at, 0, files, at', from, files');
    SawFrom(log, [], at', 0, from, files');
  }

  /** The reload bound: never more reloads than edits of watched files. */
  lemma ReloadBound(log: Log, root: string, hash: string -> string, s: State, at: Path -> nat, files: seq<File>)
    requires OnRecord(log, root, hash, s, at, files)
    ensures s.reloadCount <= WatchedEdits(log.edits)
  {
    ConsumedAtMost(log, at, |log.edits|);
    assert log.edits[..|log.edits|] == log.edits;
  }

  /** The files of this disk have this hash. */
  ghost predicate Hashes(d: Disk, root: string, hash: string -> string, h: string) {
    exists files :: Snapshot(d, files) && hash(Feed(root, files)) == h
  }

  lemma HashesOnce(d: Disk, root: string, hash: string -> string, h: string, files: seq<File>)
    requires Snapshot(d, files) && Hashes(d, root, hash, h)
    ensures hash(Feed(root, files)) == h
  {
    var files' :| Snapshot(d, files') && hash(Feed(root, files')) == h;
    OrderedOnce(files, files');
  }

  /** What NGINX has loaded after a tick whose reload, if it commits, happens while the disk is `d`. */
  function Load(loaded: Disk, s: State, t: Tick, d: Disk): Disk {
    if Commits(s, t) then d else loaded
  }

  function LoadAll(loaded: Disk, s: State, ts: seq<Tick>, ds: seq<Disk>): Disk
    requires |ds| == |ts|
  {
    if ts == [] then loaded
    else
      var n := |ts| - 1;
      Load(LoadAll(loaded, s, ts[..n], ds[..n]), After(s, ts[..n]), ts[n], ds[n])
  }

  // ---------------------------------------------------------------- what NGINX has loaded, over any ticks

  /** A tick that returns no error. */
  predicate Succeeds(s: State, t: Tick) {
    t.Walked? && (Attempts(s, t) ==> Commits(s, t))
  }

  /** The tick whose reload was the last. */
  function LastCommit(s: State, ts: seq<Tick>): (c: Option<nat>)
    ensures c.Some? ==> c.value < |ts| && ts[c.value].Walked?
  {
    if ts == [] then None
    else
      var n := |ts| - 1;
      if Commits(After(s, ts[..n]), ts[n]) then Some(n) else LastCommit(s, ts[..n])
  }

  /**
   After any ticks, each with a disk at its reload, NGINX's files have the hash on record exactly when the disk at the
   last reload had the hash that the walk of that tick had found; before any reload, when they had it to begin with.
   */
  lemma {:induction false} InStepIff(loaded: Disk, s: State, ts: seq<Tick>, ds: seq<Disk>, root: string, hash: string -> string)
    requires |ds| == |ts|
    ensures Hashes(LoadAll(loaded, s, ts, ds), root, hash, After(s, ts).lastConfigHash) <==>
            var c := LastCommit(s, ts);
            if c.Some? then Hashes(ds[c.value], root, hash, ts[c.value].hash) else Hashes(loaded, root, hash, s.lastConfigHash)
  {
    hide Hashes;
    if ts != [] {
      var n := |ts| - 1;
      InStepIff(loaded, s, ts[..n], ds[..n], root, hash);
    }
  }

  /** Each of these ticks found one disk, from its walk to its reload. */
  ghost predicate QuietTicks(ts: seq<Tick>, ds: seq<Disk>, root: string, hash: string -> string) {
    |ds| == |ts| && forall i :: 0 <= i < |ts| && ts[i].Walked? ==> Hashes(ds[i], root, hash, ts[i].hash)
  }

  lemma QuietInStep(loaded: Disk, s: State, ts: seq<Tick>, ds: seq<Disk>, root: string, hash: string -> string)
    requires QuietTicks(ts, ds, root, hash) && Hashes(loaded, root, hash, s.lastConfigHash)
    ensures Hashes(LoadAll(loaded, s, ts, ds), root, hash, After(s, ts).lastConfigHash)
  {
    hide Hashes;
    InStepIff(loaded, s, ts, ds, root, hash);
  }

  /**
   Agreement: NGINX starts with the files whose hash is on record, no tick is disturbed, and the hash is
   collision-free. After every tick that returns no error, be it in the middle of a run, the files NGINX has loaded
   are those on disk exactly when they have the same names and sizes; so they are if that tick reloaded, or if the
   disk is one edit away from what was loaded.
   */
  lemma Agreement(loaded: Disk, s: State, ts: seq<Tick>, ds: seq<Disk>, root: string, hash: string -> string, i: nat)
    requires QuietTicks(ts, ds, root, hash) && Hashes(loaded, root, hash, s.lastConfigHash) && CollisionFree(hash)
    requires i < |ts| && Succeeds(After(s, ts[..i]), ts[i])
    ensures var last := LoadAll(loaded, s, ts[..i + 1], ds[..i + 1]);
            && (SameFiles(last, ds[i]) <==> SameSizes(last, ds[i]))
            && (Commits(After(s, ts[..i]), ts[i]) ==> last == ds[i])
            && forall p :: EditOf(last, ds[i], p) ==> SameFiles(last, ds[i])
  {
    hide Hashes, SameFiles, SameSizes;
    var last := LoadAll(loaded, s, ts[..i + 1], ds[..i + 1]);
    assert ts[..i + 1][..i] == ts[..i] && ds[..i + 1][..i] == ds[..i];
    assert ts[..i + 1][i] == ts[i] && ds[..i + 1][i] == ds[i];
    QuietInStep(loaded, s, ts[..i + 1], ds[..i + 1], root, hash);
    assert After(s, ts[..i + 1]).lastConfigHash == ts[i].hash;
    SameHash(last, ds[i], root, hash, ts[i].hash);
  }

  lemma SameHash(d: Disk, d': Disk, root: string, hash: string -> string, h: string)
    requires CollisionFree(hash) && Hashes(d, root, hash, h) && Hashes(d', root, hash, h)
    ensures SameFiles(d, d') <==> SameSizes(d, d')
    ensures forall p :: EditOf(d, d', p) ==> SameFiles(d, d')
  {
    hide Snapshot, SameSizes, EditOf;
    var files :| Snapshot(d, files) && hash(Feed(root, files)) == h;
    var files' :| Snapshot(d', files') && hash(Feed(root, files')) == h;
    SameStreamIff(root, d, files, d', files');
    forall p | EditOf(d, d', p)
      ensures SameFiles(d, d')
    {
      OneEditShows(root, d, files, d', files', p);
      OtherwiseSame(d, d', p);
    }
  }

  lemma OtherwiseSame(d: Disk, d': Disk, p: Path)
    requires EditOf(d, d', p) && (!Watched(p) || At(d, p) == At(d', p))
    ensures SameFiles(d, d')
  {
  }

  /**
   Without equal sizes agreement can fail, whatever the hash: two edits between two undisturbed ticks that succeed,
   and NGINX keeps files that are no longer on disk.
   */
  lemma AgreementNeedsSizes(p: Path, q: Path, root: string, hash: string -> string, contents: string, before: Disk, s: State, now: int)
    requires Watched(p) && Watched(q) && PathLess(p, q)
    requires s.lastConfigHash != hash(Feed(root, [(p, ""), (q, PathText(root, q) + contents)]))
    ensures var d, d' := map[p := "", q := PathText(root, q) + contents], map[p := PathText(root, q), q := contents];
            var t := Walked(hash(Feed(root, [(p, ""), (q, PathText(root, q) + contents)])), None, None, now);
            && QuietTicks([t, t], [d, d'], root, hash)
            && Succeeds(s, t) && Succeeds(After(s, [t]), t)
            && LoadAll(before, s, [t, t], [d, d']) == d && !SameFiles(d, d')
  {
    hide Feed, PathText;
    var d, d' := map[p := "", q := PathText(root, q) + contents], map[p := PathText(root, q), q := contents];
    var files, files' := [(p, ""), (q, PathText(root, q) + contents)], [(p, PathText(root, q)), (q, contents)];
    PathOrder(p, p, q);
    TwoEditsMayHide(root, p, q, contents);
    assert PathText(root, q) != "" by {
      PathTextLength(root, q);
    }
    assert Snapshot(d, files) && Snapshot(d', files');
    var h := hash(Feed(root, files));
    assert Hashes(d, root, hash, h) && Hashes(d', root, hash, h);
    var t := Walked(h, None, None, now);
    assert [t, t][..1] == [t] && [d, d'][..1] == [d];
    assert [t][..0] == [] && [d][..0] == [];
    assert After(s, [t]) == Step(s, t);
    assert LoadAll(before, s, [t], [d]) == Load(before, s, t, d);
    assert At(d, p) != At(d', p);
  }

  /**
   Rest: once the watched files stay as one undisturbed tick without error has found them, its hash is on record and
   all that follows changes nothing and runs nothing.
   */
  lemma {:induction false} Rest(loaded: Disk, s: State, ts: seq<Tick>, ds: seq<Disk>, root: string, hash: string -> string, i: nat, n: nat)
    requires QuietTicks(ts, ds, root, hash)
    requires i < n <= |ts| && Succeeds(After(s, ts[..i]), ts[i]) && forall j :: i < j < n ==> SameFiles(ds[i], ds[j])
    ensures Hashes(ds[i], root, hash, After(s, ts[..n]).lastConfigHash)
    ensures After(s, ts[..n]) == After(s, ts[..i + 1]) && RunsAll(s, ts[..n]) == RunsAll(s, ts[..i + 1])
    ensures LoadAll(loaded, s, ts[..n], ds[..n]) == LoadAll(loaded, s, ts[..i + 1], ds[..i + 1])
  {
    hide Hashes, SameFiles, Attempts, After, RunsAll, LoadAll;
    if n > i + 1 {
      Rest(loaded, s, ts, ds, root, hash, i, n - 1);
    }
    var s' := After(s, ts[..n - 1]);
    LastOf(loaded, s, ts, ds, n);
    if n > i + 1 && ts[n - 1].Walked? {
      SameFilesSameHash(ds[i], ds[n - 1], root, hash, s'.lastConfigHash, ts[n - 1].hash);
    }
    NoNews(s', ts[n - 1]);
  }

  lemma NoNews(s: State, t: Tick)
    ensures !Attempts(s, t) <==> t.WalkFailed? || t.hash == s.lastConfigHash
    ensures !Attempts(s, t) ==> Step(s, t) == s && Runs(s, t) == [] && !Commits(s, t)
    ensures Succeeds(s, t) ==> t.Walked? && Step(s, t).lastConfigHash == t.hash
  {
  }

  /** The last of the first n ticks. */
  lemma LastOf(loaded: Disk, s: State, ts: seq<Tick>, ds: seq<Disk>, n: nat)
    requires 0 < n <= |ts| && |ds| == |ts|
    ensures After(s, ts[..n]) == Step(After(s, ts[..n - 1]), ts[n - 1])
    ensures RunsAll(s, ts[..n]) == RunsAll(s, ts[..n - 1]) + Runs(After(s, ts[..n - 1]), ts[n - 1])
    ensures LoadAll(loaded, s, ts[..n], ds[..n]) == Load(LoadAll(loaded, s, ts[..n - 1], ds[..n - 1]), After(s, ts[..n - 1]), ts[n - 1], ds[n - 1])
  {
    assert ts[..n][..n - 1] == ts[..n - 1] && ds[..n][..n - 1] == ds[..n - 1] && ts[..n][n - 1] == ts[n - 1] && ds[..n][n - 1] == ds[n - 1];
  }

  lemma SameFilesSameHash(d: Disk, d': Disk, root: string, hash: string -> string, h: string, h': string)
    requires SameFiles(d, d') && Hashes(d, root, hash, h) && Hashes(d', root, hash, h')
    ensures h == h'
  {
    var files :| Snapshot(d, files) && hash(Feed(root, files)) == h;
    assert Snapshot(d', files);
    HashesOnce(d', root, hash, h', files);
  }

  // ---------------------------------------------------------------- edits inside a tick

  /**
   One edit between the walk of a tick and its reload: the files NGINX then has are those of the hash put on record
   exactly when the edit is of no watched file or leaves it as it was.
   */
  lemma MidTickEdit(d: Disk, d': Disk, p: Path, root: string, hash: string -> string, t: Tick)
    requires CollisionFree(hash) && EditOf(d, d', p) && t.Walked? && Hashes(d, root, hash, t.hash)
    ensures Hashes(d', root, hash, t.hash) <==> !Watched(p) || At(d, p) == At(d', p)
  {
    var files :| Snapshot(d, files) && hash(Feed(root, files)) == t.hash;
    var files' := SnapshotExists(d');
    OneEditShows(root, d, files, d', files', p);
    if Hashes(d', root, hash, t.hash) {
      HashesOnce(d', root, hash, t.hash, files');
    }
  }

  /** A file is edited before a tick, inside it, and back again. */
  function ThereAndBack(p: Path, first: string, walked: string, loaded: string): Log {
    Log([map[p := first], map[p := walked], map[p := loaded], map[p := walked]], [p, p, p])
  }

  lemma ThereAndBackHistory(p: Path, first: string, walked: string, loaded: string)
    ensures History(ThereAndBack(p, first, walked, loaded))
  {
    var log := ThereAndBack(p, first, walked, loaded);
    forall i | 0 <= i < 4
      ensures Tree(log.disks[i])
    {
      assert log.disks[i].Keys == {p};
    }
    assert forall i :: 0 <= i < 3 ==> EditOf(log.disks[i], log.disks[i + 1], p);
  }

  function FileHash(p: Path, contents: string, root: string, hash: string -> string): string {
    hash(Feed(root, [(p, contents)]))
  }

  /** A disk with one watched file has the hash of that file, and, if the hash is collision-free, of no other contents. */
  lemma OneFileHash(p: Path, contents: string, other: string, root: string, hash: string -> string)
    requires Watched(p)
    ensures Hashes(map[p := contents], root, hash, FileHash(p, contents, root, hash))
    ensures CollisionFree(hash) && contents != other ==> FileHash(p, contents, root, hash) != FileHash(p, other, root, hash)
    ensures CollisionFree(hash) && contents != other ==> !Hashes(map[p := contents], root, hash, FileHash(p, other, root, hash))
  {
    hide Feed;
    var d := map[p := contents];
    assert Snapshot(d, [(p, contents)]);
    OneFileShows(root, [(p, contents)], 0, other);
    assert [(p, contents)][0 := (p, other)] == [(p, other)];
    if Hashes(d, root, hash, FileHash(p, other, root, hash)) {
      HashesOnce(d, root, hash, FileHash(p, other, root, hash), [(p, contents)]);
    }
  }

  lemma SeenAt(log: Log, p: Path, contents: string, root: string, hash: string -> string, i: nat, from: nat)
    requires Watched(p) && from <= i < |log.disks| && log.disks[i] == map[p := contents]
    ensures Seen(log, root, hash, from, FileHash(p, contents, root, hash))
  {
    hide Feed;
    var at: Path -> nat := x => i;
    assert forall q :: Watched(q) ==> Under([], q);
    assert Saw(log, [], at, from, [(p, contents)]);
  }

  /**
   An edit inside a tick can be lost. The walk sees one version of a file; another one is there at the reload; then the
   first comes back. The hash on record is that of the disk, so no later tick does anything, but NGINX keeps the other.
   */
  lemma LostEdit(p: Path, first: string, walked: string, loaded: string, root: string, hash: string -> string, s: State, now: int,
                 ts: seq<Tick>, ds: seq<Disk>)
    requires Watched(p) && first != walked && walked != loaded && CollisionFree(hash)
    requires s.lastConfigHash == FileHash(p, first, root, hash)
    requires QuietTicks(ts, ds, root, hash) && forall d :: d in ds ==> d == map[p := walked]
    ensures var log, t := ThereAndBack(p, first, walked, loaded), Walked(FileHash(p, walked, root, hash), None, None, now);
            && History(log) && Seen(log, root, hash, 1, t.hash) && Hashes(log.disks[0], root, hash, s.lastConfigHash)
            && Succeeds(s, t) && After(Step(s, t), ts) == Step(s, t) && RunsAll(Step(s, t), ts) == []
            && LoadAll(Load(log.disks[0], s, t, log.disks[2]), Step(s, t), ts, ds) == log.disks[2]
            && Hashes(log.disks[3], root, hash, Step(s, t).lastConfigHash)
            && !Hashes(log.disks[2], root, hash, Step(s, t).lastConfigHash)
  {
    hide Hashes, FileHash, Seen, History, CollisionFree;
    var log, t := ThereAndBack(p, first, walked, loaded), Walked(FileHash(p, walked, root, hash), None, None, now);
    ThereAndBackHistory(p, first, walked, loaded);
    SeenAt(log, p, walked, root, hash, 1, 1);
    OneFileHash(p, first, walked, root, hash);
    OneFileHash(p, walked, loaded, root, hash);
    OneFileHash(p, loaded, walked, root, hash);
    StaysPut(Step(s, t), log.disks[2], map[p := walked], ts, ds, root, hash);
  }

  /** While the disk has the hash on record, whatever NGINX has, nothing happens. */
  lemma {:induction false} StaysPut(s: State, loaded: Disk, d: Disk, ts: seq<Tick>, ds: seq<Disk>, root: string, hash: string -> string)
    requires Hashes(d, root, hash, s.lastConfigHash) && QuietTicks(ts, ds, root, hash) && forall x :: x in ds ==> x == d
    ensures After(s, ts) == s && RunsAll(s, ts) == [] && LoadAll(loaded, s, ts, ds) == loaded
  {
    hide Hashes;
    if ts != [] {
      var n := |ts| - 1;
      assert ds[n] in ds && forall x :: x in ds[..n] ==> x in ds;
      StaysPut(s, loaded, d, ts[..n], ds[..n], root, hash);
      if ts[n].Walked? {
        SameFilesSameHash(d, d, root, hash, s.lastConfigHash, ts[n].hash);
      }
    }
  }

  ghost predicate CollisionFree(hash: string -> string) {
    forall a, b :: hash(a) == hash(b) ==> a == b
  }

  /** This is the hash of what some walk saw, not before `from`. */
  ghost predicate Seen(log: Log, root: string, hash: string -> string, from: nat, h: string) {
    exists at, files :: Saw(log, [], at, from, files) && h == hash(Feed(root, files))
  }

  lemma SeenLater(log: Log, log': Log, root: string, hash: string -> string, at: Path -> nat, from: nat, files: seq<File>)
    requires Longer(log, log') && Saw(log, [], at, from, files)
    ensures Seen(log', root, hash, from, hash(Feed(root, files)))
  {
    SawLater(log, log', at, from, files);
  }

  lemma RecordedBefore(log: Log, root: string, hash: string -> string, s: State, at: Path -> nat, files: seq<File>)
    requires OnRecord(log, root, hash, s, at, files)
    ensures forall p :: at(p) <= |log.edits|
  {
  }

  /** A walk without edits yields the hash of the disk, and the disk has no other. */
  lemma QuietHash(log: Log, root: string, hash: string -> string, at: Path -> nat, files: seq<File>, h: string)
    requires History(log) && Saw(log, [], at, |log.edits|, files)
    ensures Hashes(log.disks[|log.edits|], root, hash, hash(Feed(root, files)))
    ensures Hashes(log.disks[|log.edits|], root, hash, h) ==> h == hash(Feed(root, files))
  {
    QuietWalk(log, at, files);
    if Hashes(log.disks[|log.edits|], root, hash, h) {
      HashesOnce(log.disks[|log.edits|], root, hash, h, files);
    }
  }

  /** What a walk among edits that go against its order has seen was on disk, all at one moment. */
  lemma SeenWhole(log: Log, root: string, hash: string -> string, from: nat, h: string)
    requires History(log) && Seen(log, root, hash, from, h) && AgainstWalk(log, from)
    ensures OnceHashed(log, root, hash, from, h)
  {
    var at, files :| Saw(log, [], at, from, files) && h == hash(Feed(root, files));
    UntornWalk(log, at, from, files);
    var i :| from <= i < |log.disks| && Snapshot(log.disks[i], files);
    assert Hashes(log.disks[i], root, hash, h);
  }

  /** Some disk since `from` had this hash. */
  ghost predicate OnceHashed(log: Log, root: string, hash: string -> string, from: nat, h: string) {
    exists i :: from <= i < |log.disks| && Hashes(log.disks[i], root, hash, h)
  }

  /** This disk has been there since `from`. */
  ghost predicate Since(log: Log, from: nat, d: Disk) {
    exists i :: from <= i < |log.disks| && log.disks[i] == d
  }

  lemma SinceNow(log: Log, from: nat)
    requires |log.disks| == |log.edits| + 1 && from <= |log.edits|
    ensures Since(log, from, log.disks[|log.edits|])
    ensures from == |log.edits| ==> forall d :: Since(log, from, d) ==> d == log.disks[|log.edits|]
  {
  }

  lemma SinceEarlier(log: Log, earlier: nat, from: nat, d: Disk)
    requires earlier <= from && Since(log, from, d)
    ensures Since(log, earlier, d)
  {
  }

  /** A tick that attempts nothing loads nothing. */
  lemma StandsStill(loaded: Disk, s: State, d: Disk)
    ensures forall t :: !Attempts(s, t) ==> Load(loaded, s, t, d) == loaded
  {
  }

  lemma NoTicks(loaded: Disk, s: State, root: string, hash: string -> string)
    ensures After(s, []) == s && LoadAll(loaded, s, [], []) == loaded && QuietTicks([], [], root, hash)
  {
  }

  lemma OneMoreTick(loaded: Disk, s: State, ts: seq<Tick>, ds: seq<Disk>, t: Tick, d: Disk, root: string, hash: string -> string)
    requires |ds| == |ts|
    ensures After(s, ts + [t]) == Step(After(s, ts), t)
    ensures LoadAll(loaded, s, ts + [t], ds + [d]) == Load(LoadAll(loaded, s, ts, ds), After(s, ts), t, d)
    ensures QuietTicks(ts, ds, root, hash) && (t.Walked? ==> Hashes(d, root, hash, t.hash)) ==> QuietTicks(ts + [t], ds + [d], root, hash)
  {
    hide Hashes;
    assert (ts + [t])[..|ts|] == ts && (ds + [d])[..|ts|] == ds;
  }

  lemma TickAdded(s: State, ts: seq<Tick>, t: Tick)
    ensures After(s, ts + [t]) == Step(After(s, ts), t)
    ensures RunsAll(s, ts + [t]) == RunsAll(s, ts) + Runs(After(s, ts), t)
  {
    hide Step, Runs;
    assert (ts + [t])[..|ts|] == ts;
  }

  class Sidecar {
    const volume: Volume
    const root: string
    const hash: string -> string
    const depth: nat

    var lastConfigHash: string
    var lastReloadTime: Option<int>
    var reloadCount: nat
    var lastError: string
    var healthy: bool

    /** The disk that NGINX last loaded, and the commands that were run. */
    ghost var loaded: Disk
    ghost var commands: seq<Command>

    /** The state at the start, and the ticks since. */
    ghost var initial: State
    ghost var ticks: seq<Tick>

    /** The observation behind the hash on record. */
    ghost var recordedAt: Path -> nat
    ghost var recordedFiles: seq<File>

    function Locked(): State
      reads this
    {
      State(lastConfigHash, lastReloadTime, reloadCount, lastError, healthy)
    }

    /** What holds at any time, inside a tick too. */
    ghost predicate Sound()
      reads this, volume
    {
      && volume.Valid()
      && OnRecord(volume.log, root, hash, Locked(), recordedAt, recordedFiles)
      && (healthy <==> lastError == "")
      && (lastReloadTime.Some? <==> reloadCount > 0)
    }

    /** Between ticks the locked state and the commands are those of the ticks so far. */
    ghost predicate Valid()
      reads this, volume
    {
      && Sound()
      && initial.healthy && initial.reloadCount == 0 && Locked() == After(initial, ticks) && commands == RunsAll(initial, ticks)
    }

    /** The files NGINX has loaded have the hash on record. */
    ghost predicate InStep()
      reads this
    {
      Hashes(loaded, root, hash, lastConfigHash)
    }

    constructor (volume: Volume, root: string, hash: string -> string, depth: nat, fed: string,
                 ghost at: Path -> nat, ghost files: seq<File>, ghost loaded: Disk)
      requires volume.Valid() && Saw(volume.log, [], at, 0, files) && fed == Feed(root, files)
      ensures Valid() && this.volume == volume && this.root == root && this.hash == hash && this.depth == depth
      ensures Locked() == State(hash(fed), None, 0, "", true)
      ensures this.loaded == loaded && commands == [] && ticks == []
    {
      initial, ticks := State(hash(fed), None, 0, "", true), [];
      this.volume, this.root, this.hash, this.depth := volume, root, hash, depth;
      lastConfigHash, lastReloadTime, reloadCount, lastError, healthy := hash(fed), None, 0, "", true;
      this.loaded, commands, recordedAt, recordedFiles := loaded, [], at, files;
    }

    /** The /status handler. */
    method Status() returns (s: State)
      requires Valid()
      ensures s == Locked() && (s.healthy <==> s.lastError == "") && (s.lastReloadTime.Some? <==> s.reloadCount > 0)
      ensures s.reloadCount <= WatchedEdits(volume.log.edits) && s.reloadCount == Signals(commands)
    {
      ReloadsAreSignals(initial, ticks);
      ReloadBound(volume.log, root, hash, Locked(), recordedAt, recordedFiles);
      s := State(lastConfigHash, lastReloadTime, reloadCount, lastError, healthy);
    }

    /** The /healthz handler. */
    method Health() returns (ok: bool)
      requires Valid()
      ensures ok <==> LastAttempt(initial, ticks) != Some(false)
      ensures ok <==> lastError == ""
    {
      HealthIsLastAttempt(initial, ticks);
      ok := healthy;
    }

    /** validateConfig: `nginx -t` runs while others edit files, and passes or says what is wrong. */
    method ValidateConfig() returns (failure: Option<string>)
      requires Sound()
      modifies volume, this`commands
      ensures Sound() && Longer(old(volume.log), volume.log)
      ensures commands == old(commands) + [Test(failure.None?)]
      ensures failure.Some? ==> failure.value != ""
    {
      volume.Interfere();
      OnRecordLater(old(volume.log), volume.log, root, hash, Locked(), recordedAt, recordedFiles);
      var output: string := *;
      var fails: bool := *;
      failure := if fails then Some("nginx -t failed: " + output) else None;
      commands := commands + [Test(failure.None?)];
    }

    /**
     reloadNginx: `nginx -s reload` makes NGINX load the files as they are by then. A failure may come too late to
     prevent that: then it has `slipped`. Nothing else changes what NGINX has loaded.
     */
    method ReloadNginx() returns (failure: Option<string>, ghost slipped: bool)
      requires Sound()
      modifies volume, this`commands, this`loaded
      ensures Sound() && Longer(old(volume.log), volume.log)
      ensures commands == old(commands) + [Signal(failure.None?)]
      ensures failure.Some? ==> failure.value != ""
      ensures loaded == (if failure.None? || slipped then volume.disk else old(loaded)) && (slipped ==> failure.Some?)
    {
      volume.Interfere();
      OnRecordLater(old(volume.log), volume.log, root, hash, Locked(), recordedAt, recordedFiles);
      var output: string := *;
      var fails, takes: bool := *, *;
      failure := if fails then Some("nginx -s reload failed: " + output) else None;
      commands := commands + [Signal(failure.None?)];
      slipped := fails && takes;
      if !fails || takes {
        loaded := volume.disk;
      }
    }

    /**
     One tick. The locked state makes the step that the walk and the commands call for, under any edits meanwhile.
     `slipped` marks a reload that failed and yet took effect.
     */
    method CheckAndReload() returns (ok: bool, ghost t: Tick, ghost d: Disk, ghost slipped: bool)
      requires Valid()
      modifies this, volume
      ensures Valid() && Longer(old(volume.log), volume.log)
      ensures initial == old(initial) && ticks == old(ticks) + [t] && Locked() == Step(old(Locked()), t)
      ensures ok <==> t.Walked? && (Attempts(old(Locked()), t) ==> Commits(old(Locked()), t))
      ensures commands == old(commands) + Runs(old(Locked()), t)
      ensures Since(volume.log, |old(volume.log).edits|, d) && (!slipped ==> loaded == Load(old(loaded), old(Locked()), t, d))
      ensures slipped ==> Runs(old(Locked()), t) == [Test(true), Signal(false)] && loaded == d
      ensures t.Walked? ==> Seen(volume.log, root, hash, |old(volume.log).edits|, t.hash)
      ensures t.Walked? && AgainstWalk(volume.log, |old(volume.log).edits|) ==>
                OnceHashed(volume.log, root, hash, |old(volume.log).edits|, t.hash)
      // without edits during the tick
      ensures volume.log == old(volume.log) && t.Walked? ==> Hashes(d, root, hash, t.hash)
    {
      hide Since, Load, AgainstWalk, OnceHashed, OnRecord, Saw, History, Snapshot, Feed, Hashes, Seen, After, RunsAll;
      ghost var before := volume.log;
      RecordedBefore(before, root, hash, Locked(), recordedAt, recordedFiles);
      var walked, fed, files, at := volume.WalkDir(root, [], depth);
      OnRecordLater(before, volume.log, root, hash, Locked(), recordedAt, recordedFiles);
      slipped, t, d := false, WalkFailed, volume.disk;
      SinceNow(volume.log, |before.edits|);
      StandsStill(loaded, Locked(), d);
      if !walked {
        Record(t);
        return false, t, d, slipped;
      }
      var h := hash(fed);
      SeenLater(volume.log, volume.log, root, hash, at, |before.edits|, files);
      if volume.log == before {
        QuietHash(before, root, hash, at, files, lastConfigHash);
      }
      t := Walked(h, None, None, 0);
      if h == lastConfigHash {
        Record(t);
        WholeIfAgainst(|before.edits|, h);
        return true, t, d, slipped;
      }
      ghost var walkedLog := volume.log;
      ok, t, d, slipped := Reload(h, |before.edits|, at, files);
      Record(t);
      SinceNow(volume.log, |before.edits|);
      SinceEarlier(volume.log, |before.edits|, |walkedLog.edits|, d);
      SeenLater(walkedLog, volume.log, root, hash, at, |before.edits|, files);
      WholeIfAgainst(|before.edits|, h);
    }

    /** The tick that has just ended joins the history. */
    ghost method Record(t: Tick)
      requires Sound() && initial.healthy && initial.reloadCount == 0
      requires Locked() == Step(After(initial, ticks), t) && commands == RunsAll(initial, ticks) + Runs(After(initial, ticks), t)
      modifies this`ticks
      ensures Valid() && ticks == old(ticks) + [t]
    {
      hide OnRecord, After, RunsAll, Step, Runs, Saw, History;
      TickAdded(initial, ticks, t);
      ticks := ticks + [t];
    }

    lemma WholeIfAgainst(from: nat, h: string)
      requires volume.Valid() && Seen(volume.log, root, hash, from, h)
      ensures AgainstWalk(volume.log, from) ==> OnceHashed(volume.log, root, hash, from, h)
    {
      hide Seen, AgainstWalk, OnceHashed;
      if AgainstWalk(volume.log, from) {
        SeenWhole(volume.log, root, hash, from, h);
      }
    }

    /**
     The loop of main: ticks, with any edits between them and in them, until a signal ends it. `ds` are the disks at the
     reloads; `slipped` says that some reload failed and yet took effect, `quiet` that nothing was edited in any tick.
     */
    method Watch() returns (ghost ts: seq<Tick>, ghost ds: seq<Disk>, ghost slipped: bool, ghost quiet: bool)
      requires Valid()
      modifies this, volume
      ensures Valid() && Longer(old(volume.log), volume.log)
      ensures initial == old(initial) && ticks == old(ticks) + ts && Locked() == After(old(Locked()), ts) && |ds| == |ts|
      ensures !slipped ==> loaded == LoadAll(old(loaded), old(Locked()), ts, ds)
      ensures slipped ==> Signal(false) in commands
      ensures quiet ==> QuietTicks(ts, ds, root, hash)
      ensures !slipped && quiet && old(InStep()) ==> InStep()
    {
      hide Since, Seen, After, LoadAll, QuietTicks, AgainstWalk, OnceHashed, OnRecord, History, Hashes, RunsAll;
      ts, ds, slipped, quiet := [], [], false, true;
      NoTicks(loaded, Locked(), root, hash);
      var ended := false;
      var n: nat := *;
      while n > 0 && !ended
        invariant Valid() && Longer(old(volume.log), volume.log)
        invariant initial == old(initial) && ticks == old(ticks) + ts && Locked() == After(old(Locked()), ts) && |ds| == |ts|
        invariant !slipped ==> loaded == LoadAll(old(loaded), old(Locked()), ts, ds)
        invariant slipped ==> Signal(false) in commands
        invariant quiet ==> QuietTicks(ts, ds, root, hash)
      {
        Wait();
        ghost var start := volume.log;
        ghost var ok, t, d, slips := CheckAndReload();
        assert slips ==> [Test(true), Signal(false)][1] in commands;
        OneMoreTick(old(loaded), old(Locked()), ts, ds, t, d, root, hash);
        ts, ds := ts + [t], ds + [d];
        slipped := slipped || slips;
        quiet := quiet && volume.log == start;
        ended := *;
        n := n - 1;
      }
      if !slipped && quiet && old(InStep()) {
        QuietInStep(old(loaded), old(Locked()), ts, ds, root, hash);
      }
    }

    /** Until the next tick: others may edit files. */
    method Wait()
      requires Valid()
      modifies volume
      ensures Valid() && Longer(old(volume.log), volume.log)
    {
      volume.Interfere();
      OnRecordLater(old(volume.log), volume.log, root, hash, Locked(), recordedAt, recordedFiles);
    }

    /** The rest of a tick that has found a new hash. */
    method Reload(h: string, ghost from: nat, ghost at: Path -> nat, ghost files: seq<File>)
      returns (ok: bool, ghost t: Tick, ghost d: Disk, ghost slipped: bool)
      requires Sound() && h != lastConfigHash && h == hash(Feed(root, files))
      requires Saw(volume.log, [], at, from, files) && forall p :: recordedAt(p) <= from
      modifies volume, this`lastConfigHash, this`lastReloadTime, this`reloadCount, this`lastError, this`healthy,
               this`recordedAt, this`recordedFiles, this`loaded, this`commands
      ensures Sound() && Longer(old(volume.log), volume.log)
      ensures t.Walked? && t.hash == h && Locked() == Step(old(Locked()), t)
      ensures commands == old(commands) + Runs(old(Locked()), t)
      ensures ok <==> Commits(old(Locked()), t)
      ensures Since(volume.log, |old(volume.log).edits|, d) && (!slipped ==> loaded == Load(old(loaded), old(Locked()), t, d))
      ensures slipped ==> Runs(old(Locked()), t) == [Test(true), Signal(false)] && loaded == d
    {
      hide OnRecord, Saw, History, Feed, Snapshot;
      ok, slipped, d := false, false, volume.disk;
      ghost var before := volume.log;
      var failure := ValidateConfig();
      t := Walked(h, failure, None, 0);
      if failure.Some? {
        Fail(failure.value);
        return;
      }
      failure, slipped := ReloadNginx();
      d := volume.disk;
      var now: int := *;
      t := Walked(h, None, failure, now);
      if failure.Some? {
        Fail(failure.value);
        return;
      }
      SawLater(before, volume.log, at, from, files);
      Commit(h, now, from, at, files);
      ok := true;
    }

    /** What a failed command leaves behind. */
    method Fail(message: string)
      requires Sound() && message != ""
      modifies this`lastError, this`healthy
      ensures Sound() && Locked() == old(Locked()).(lastError := message, healthy := false)
    {
      lastError := message;
      healthy := false;
    }

    /** What a reload that succeeded leaves behind. */
    method Commit(h: string, now: int, ghost from: nat, ghost at: Path -> nat, ghost files: seq<File>)
      requires Sound() && h != lastConfigHash && h == hash(Feed(root, files))
      requires Saw(volume.log, [], at, from, files) && forall p :: recordedAt(p) <= from
      modifies this`lastConfigHash, this`lastReloadTime, this`reloadCount, this`lastError, this`healthy,
               this`recordedAt, this`recordedFiles
      ensures Sound() && Locked() == State(h, Some(now), old(reloadCount) + 1, "", true)
    {
      hide OnRecord, Saw, Feed, Snapshot;
      CommitOnRecord(volume.log, root, hash, Locked(), recordedAt, recordedFiles, from, at, files, Walked(h, None, None, now));
      lastConfigHash := h;
      lastReloadTime := Some(now);
      reloadCount := reloadCount + 1;
      lastError := "";
      healthy := true;
      recordedAt, recordedFiles := at, files;
    }
  }

  /** The start of main: without an initial hash the sidecar gives up. */
  method Start(volume: Volume, root: string, hash: string -> string, depth: nat, ghost loaded: Disk) returns (sidecar: Option<Sidecar>)
    requires volume.Valid()
    modifies volume
    ensures volume.Valid() && Longer(old(volume.log), volume.log)
    ensures sidecar.Some? ==>
              && fresh(sidecar.value) && sidecar.value.Valid() && sidecar.value.volume == volume
              && sidecar.value.loaded == loaded && sidecar.value.reloadCount == 0 && sidecar.value.healthy
              && Seen(volume.log, root, hash, |old(volume.log).edits|, sidecar.value.lastConfigHash)
              && (volume.log == old(volume.log) && loaded == volume.disk ==> sidecar.value.InStep())
  {
    hide Saw, OnRecord, History, Feed, Seen, Hashes;
    var walked, fed, files, at := volume.WalkDir(root, [], depth);
    if !walked {
      return None;
    }
    SawFrom(volume.log, [], at, 0, |old(volume.log).edits|, files);
    SeenLater(volume.log, volume.log, root, hash, at, |old(volume.log).edits|, files);
    if volume.log == old(volume.log) {
      QuietHash(volume.log, root, hash, at, files, "");
    }
    var s := new Sidecar(volume, root, hash, depth, fed, at, files, loaded);
    sidecar := Some(s);
  }
}
