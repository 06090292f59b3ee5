/**
 The watched directory and the walk that reads it.

 A `Log` is the history of the disk: every edit of one file, and the disk before and after. A walk lists each
 directory and reads each file at its own moment, so what it returns need not be any snapshot; `Saw` says that
 every path was seen as it was at some moment of the walk, and that these moments follow the order of the walk.
 */
module FileSystem {
  import opened Api

  /** The names on the way from the watched directory to a file. */
  type Path = seq<string>

  type File = (Path, string)

  type Disk = map<Path, string>

  /** disks[i + 1] is disks[i] after an edit of the one file edits[i]. */
  datatype Log = Log(disks: seq<Disk>, edits: seq<Path>)

  // ---------------------------------------------------------------- order of the walk

  /** Byte order of names. */
  predicate NameLess(a: string, b: string) {
    if b == "" then false
    else if a == "" then true
    else if a[0] == b[0] then NameLess(a[1..], b[1..])
    else a[0] < b[0]
  }

  /** The order in which a walk that visits each directory by name meets its files. */
  predicate PathLess(a: Path, b: Path) {
    if b == [] then false
    else if a == [] then true
    else if a[0] == b[0] then PathLess(a[1..], b[1..])
    else NameLess(a[0], b[0])
  }

  lemma {:induction false} NameOrder(a: string, b: string, c: string)
    ensures !NameLess(a, a)
    ensures a == b || NameLess(a, b) || NameLess(b, a)
    ensures NameLess(a, b) && NameLess(b, c) ==> NameLess(a, c)
  {
    if a != "" {
      NameOrder(a[1..], if b == "" then "" else b[1..], if c == "" then "" else c[1..]);
      if b != "" && a[0] == b[0] && a[1..] == b[1..] {
        assert a == [a[0]] + a[1..] && b == [b[0]] + b[1..];
      }
    }
  }

  lemma {:induction false} PathOrder(a: Path, b: Path, c: Path)
    ensures !PathLess(a, a)
    ensures a == b || PathLess(a, b) || PathLess(b, a)
    ensures PathLess(a, b) && PathLess(b, c) ==> PathLess(a, c)
  {
    if a != [] {
      PathOrder(a[1..], if b == [] then [] else b[1..], if c == [] then [] else c[1..]);
      NameOrder(a[0], if b == [] then "" else b[0], if c == [] then "" else c[0]);
      if b != [] && c != [] {
        NameOrder(b[0], c[0], b[0]);
      }
      if b != [] && a[0] == b[0] && a[1..] == b[1..] {
        assert a == [a[0]] + a[1..] && b == [b[0]] + b[1..];
      }
    }
  }

  predicate Under(dir: Path, p: Path) {
    |dir| < |p| && p[..|dir|] == dir
  }

  /** Below one directory, files in entries of lesser names come first. */
  lemma {:induction false} LessByName(dir: Path, p: Path, q: Path)
    requires Under(dir, p) && Under(dir, q) && NameLess(p[|dir|], q[|dir|])
    ensures PathLess(p, q)
  {
    if dir != [] {
      assert p[0] == p[..|dir|][0] == q[..|dir|][0] == q[0];
      assert p[1..][..|dir| - 1] == p[..|dir|][1..] && q[1..][..|dir| - 1] == q[..|dir|][1..];
      LessByName(dir[1..], p[1..], q[1..]);
    } else {
      NameOrder(p[0], q[0], p[0]);
    }
  }

  /** A list of files in the order of the walk, each path once. */
  ghost predicate InOrder(files: seq<File>) {
    forall i, j :: 0 <= i < j < |files| ==> PathLess(files[i].0, files[j].0)
  }

  /** In order, a set of files has one list. */
  lemma {:induction false} OrderedOnce(a: seq<File>, b: seq<File>)
    requires InOrder(a) && InOrder(b) && forall f :: f in a <==> f in b
    ensures a == b
  {
    assert b != [] ==> b[0] in b;
    if a != [] {
      assert a[0] in b && b != [] && b[0] in a;
      var i :| 0 <= i < |b| && b[i] == a[0];
      var j :| 0 <= j < |a| && a[j] == b[0];
      PathOrder(a[0].0, b[0].0, a[0].0);
      assert a[0] == b[0];
      forall f
        ensures f in a[1..] <==> f in b[1..]
      {
        PathOrder(a[0].0, a[0].0, a[0].0);
        if f in a[1..] {
          var x :| 1 <= x < |a| && a[x] == f;
          assert f in b;
          assert f != b[0];
        }
        if f in b[1..] {
          var x :| 1 <= x < |b| && b[x] == f;
          assert f in a;
          assert f != a[0];
        }
      }
      OrderedOnce(a[1..], b[1..]);
    }
  }

  // ---------------------------------------------------------------- the disk and its history

  /** Only .conf files are hashed; nginx.conf is one of them. */
  predicate Watched(p: Path) {
    p != [] && var name := p[|p| - 1]; |name| >= 5 && name[|name| - 5..] == ".conf"
  }

  /** No file is also a directory. */
  predicate Tree(d: Disk) {
    forall p, q :: p in d && q in d ==> !Under(p, q)
  }

  function At(d: Disk, p: Path): Option<string> {
    if p in d then Some(d[p]) else None
  }

  ghost predicate EditOf(d: Disk, d': Disk, p: Path) {
    forall q :: q != p ==> At(d', q) == At(d, q)
  }

  ghost predicate History(log: Log) {
    && |log.disks| == |log.edits| + 1
    && (forall i :: 0 <= i < |log.disks| ==> Tree(log.disks[i]))
    && (forall i :: 0 <= i < |log.edits| ==> EditOf(log.disks[i], log.disks[i + 1], log.edits[i]))
  }

  predicate Longer(log: Log, log': Log) {
    log.disks <= log'.disks && log.edits <= log'.edits
  }

  /** Between two moments with different contents of a file there is an edit of that file. */
  lemma {:induction false} EditBetween(log: Log, p: Path, i: nat, j: nat) returns (e: nat)
    requires History(log) && i <= j < |log.disks| && At(log.disks[i], p) != At(log.disks[j], p)
    ensures i <= e < j && log.edits[e] == p
  {
    e := j - 1;
    if log.edits[e] != p {
      e := EditBetween(log, p, i, j - 1);
    }
  }

  // ---------------------------------------------------------------- observations

  /** The walk below `dir` returned these files, and saw each path as it was at moment at(p), not before `from`. */
  ghost predicate Saw(log: Log, dir: Path, at: Path -> nat, from: nat, files: seq<File>) {
    && InOrder(files)
    && (forall p :: from <= at(p) < |log.disks|)
    && (forall f :: f in files <==> Watched(f.0) && Under(dir, f.0) && At(log.disks[at(f.0)], f.0) == Some(f.1))
    && InTurn(dir, at, files)
  }

  /** Before a file is read, every path that comes earlier in the walk has been looked at. */
  ghost predicate InTurn(dir: Path, at: Path -> nat, files: seq<File>) {
    forall p, f {:trigger PathLess(p, f.0)} :: f in files && Under(dir, p) && PathLess(p, f.0) ==> at(p) <= at(f.0)
  }

  lemma SawFrom(log: Log, dir: Path, at: Path -> nat, earlier: nat, from: nat, files: seq<File>)
    requires earlier <= from && Saw(log, dir, at, from, files)
    ensures Saw(log, dir, at, earlier, files)
  {
  }

  /** Was the watched file edits[i] already edited when its path was looked at? */
  ghost predicate Taken(log: Log, at: Path -> nat, i: nat)
    requires i < |log.edits|
  {
    Watched(log.edits[i]) && i < at(log.edits[i])
  }

  /** How many of the first n edits an observation has taken in. */
  ghost function Consumed(log: Log, at: Path -> nat, n: nat): nat
    requires n <= |log.edits|
  {
    if n == 0 then 0 else Consumed(log, at, n - 1) + (if Taken(log, at, n - 1) then 1 else 0)
  }

  /** The edits of watched files so far. */
  function WatchedEdits(edits: seq<Path>): nat {
    if edits == [] then 0 else WatchedEdits(edits[..|edits| - 1]) + (if Watched(edits[|edits| - 1]) then 1 else 0)
  }

  lemma {:induction false} ConsumedAtMost(log: Log, at: Path -> nat, n: nat)
    requires n <= |log.edits|
    ensures Consumed(log, at, n) <= WatchedEdits(log.edits[..n])
  {
    if n > 0 {
      assert log.edits[..n][..n - 1] == log.edits[..n - 1];
      ConsumedAtMost(log, at, n - 1);
    }
  }

  /** Edits that come after an observation do not count for it. */
  lemma {:induction false} ConsumedLater(log: Log, log': Log, at: Path -> nat, n: nat)
    requires Longer(log, log') && |log.edits| <= n <= |log'.edits|
    requires forall p :: at(p) <= |log.edits|
    ensures Consumed(log', at, n) == Consumed(log, at, |log.edits|)
  {
    if n > |log.edits| {
      ConsumedLater(log, log', at, n - 1);
    } else {
      ConsumedPrefix(log, log', at, n);
    }
  }

  lemma {:induction false} ConsumedPrefix(log: Log, log': Log, at: Path -> nat, n: nat)
    requires Longer(log, log') && n <= |log.edits|
    ensures Consumed(log', at, n) == Consumed(log, at, n)
  {
    if n > 0 {
      ConsumedPrefix(log, log', at, n - 1);
      assert log'.edits[n - 1] == log.edits[n - 1];
    }
  }

  /** A later observation has taken in at least as much, and strictly more if it has taken in edit e and the earlier has not. */
  lemma {:induction false} ConsumedGrows(log: Log, at: Path -> nat, at': Path -> nat, n: nat, e: nat)
    requires e < |log.edits| && n <= |log.edits|
    requires forall p :: at(p) <= at'(p)
    requires Taken(log, at', e) && !Taken(log, at, e)
    ensures Consumed(log, at, n) + (if e < n then 1 else 0) <= Consumed(log, at', n)
  {
    if n > 0 {
      ConsumedGrows(log, at, at', n - 1, e);
    }
  }

  /** Two observations, the second later at every path, that returned different files: the second took in more edits. */
  lemma DifferentFilesMoreEdits(log: Log, at: Path -> nat, from: nat, files: seq<File>, at': Path -> nat, from': nat, files': seq<File>)
    requires History(log) && Saw(log, [], at, from, files) && Saw(log, [], at', from', files')
    requires forall p :: at(p) <= at'(p)
    requires files != files'
    ensures Consumed(log, at, |log.edits|) < Consumed(log, at', |log.edits|)
  {
    if forall f :: f in files <==> f in files' {
      OrderedOnce(files, files');
    }
    var f :| (f in files) != (f in files');
    var p := f.0;
    var e := EditBetween(log, p, at(p), at'(p));
    ConsumedGrows(log, at, at', |log.edits|, e);
  }

  /** The files of a disk, as a walk without interference returns them. */
  ghost predicate Snapshot(d: Disk, files: seq<File>) {
    InOrder(files) && forall f :: f in files <==> Watched(f.0) && At(d, f.0) == Some(f.1)
  }

  /** A walk during which nothing is edited returns a snapshot. */
  lemma QuietWalk(log: Log, at: Path -> nat, files: seq<File>)
    requires History(log) && Saw(log, [], at, |log.edits|, files)
    ensures Snapshot(log.disks[|log.edits|], files)
  {
    forall f: File
      ensures f in files <==> Watched(f.0) && At(log.disks[|log.edits|], f.0) == Some(f.1)
    {
      assert at(f.0) == |log.edits|;
      assert Watched(f.0) ==> Under([], f.0);
    }
  }

  // ---------------------------------------------------------------- edits during a walk

  lemma Unedited(log: Log, p: Path, i: nat, j: nat)
    requires History(log) && i <= j < |log.disks| && forall e :: i <= e < j ==> log.edits[e] != p
    ensures At(log.disks[i], p) == At(log.disks[j], p)
  {
    if At(log.disks[i], p) != At(log.disks[j], p) {
      var e := EditBetween(log, p, i, j);
    }
  }

  /** Some disk since `from` had exactly these files. */
  ghost predicate Whole(log: Log, from: nat, files: seq<File>) {
    exists i :: from <= i < |log.disks| && Snapshot(log.disks[i], files)
  }

  ghost predicate Stays(log: Log, from: nat, p: Path) {
    forall i :: from <= i < |log.disks| ==> p in log.disks[i]
  }

  /**
   The edits of watched files since `from` go against the order of the walk: after an edit of one file comes another
   edit of it, or, while it stays, one of a file that the walk meets earlier.
   */
  ghost predicate AgainstWalk(log: Log, from: nat) {
    forall e, e' :: from <= e < e' < |log.edits| && Watched(log.edits[e]) && Watched(log.edits[e']) && log.edits[e] != log.edits[e'] ==>
                      PathLess(log.edits[e'], log.edits[e]) && Stays(log, from, log.edits[e])
  }

  /** The moment after the last of the first n edits that the observation has taken in. */
  lemma {:induction false} LastTaken(log: Log, at: Path -> nat, from: nat, n: nat) returns (i: nat)
    requires from <= n <= |log.edits|
    ensures from <= i <= n && (i > from ==> Taken(log, at, i - 1)) && forall e :: i <= e < n ==> !Taken(log, at, e)
  {
    if n == from || Taken(log, at, n - 1) {
      i := n;
    } else {
      i := LastTaken(log, at, from, n - 1);
    }
  }

  /** Such edits cannot tear a walk: it saw the disk as it was at one moment. One file edited any number of times is such a case. */
  lemma UntornWalk(log: Log, at: Path -> nat, from: nat, files: seq<File>)
    requires History(log) && Saw(log, [], at, from, files) && AgainstWalk(log, from)
    ensures Whole(log, from, files)
  {
    assert from <= at([]) < |log.disks|;
    var i := LastTaken(log, at, from, |log.edits|);
    forall q | Watched(q)
      ensures At(log.disks[at(q)], q) == At(log.disks[i], q)
    {
      if at(q) < i {
        TakenBefore(log, at, from, files, i, q);
        Unedited(log, q, at(q), i);
      } else {
        forall e | i <= e < at(q)
          ensures log.edits[e] != q
        {
          assert !Taken(log, at, e);
        }
        Unedited(log, q, i, at(q));
      }
    }
    assert forall f: File :: Watched(f.0) ==> Under([], f.0);
    assert Snapshot(log.disks[i], files);
  }

  lemma TakenBefore(log: Log, at: Path -> nat, from: nat, files: seq<File>, i: nat, q: Path)
    requires History(log) && Saw(log, [], at, from, files) && AgainstWalk(log, from)
    requires from < i <= |log.edits| && Taken(log, at, i - 1) && Watched(q) && at(q) < i
    ensures forall e :: at(q) <= e < i ==> log.edits[e] != q
  {
    forall e | at(q) <= e < i
      ensures log.edits[e] != q
    {
      if log.edits[e] == q && q != log.edits[i - 1] {
        ReadAfter(log, at, from, files, e, i - 1);
      }
    }
  }

  lemma ReadAfter(log: Log, at: Path -> nat, from: nat, files: seq<File>, e: nat, e': nat)
    requires History(log) && Saw(log, [], at, from, files) && AgainstWalk(log, from) && from <= e < e' < |log.edits|
    requires Watched(log.edits[e]) && Watched(log.edits[e']) && log.edits[e] != log.edits[e']
    ensures at(log.edits[e']) <= at(log.edits[e])
  {
    var p, q := log.edits[e'], log.edits[e];
    assert Under([], p) && Under([], q) && PathLess(p, q);
    var f := (q, log.disks[at(q)][q]);
    assert f in files && PathLess(p, f.0);
  }

  lemma LeastPath(ps: set<Path>) returns (least: Path)
    requires ps != {}
    ensures least in ps && forall p :: p in ps ==> p == least || PathLess(least, p)
    decreases ps
  {
    least :| least in ps;
    var rest := ps - {least};
    if rest != {} {
      var first := least;
      var other := LeastPath(rest);
      PathOrder(least, other, other);
      least := if PathLess(other, least) then other else least;
      forall p | p in ps
        ensures p == least || PathLess(least, p)
      {
        assert p == first || p in rest;
        PathOrder(first, other, p);
      }
    } else {
      assert forall p :: p in ps ==> p == least || p in rest;
    }
  }

  /** Every disk has a snapshot. */
  lemma {:induction false} SnapshotExists(d: Disk) returns (files: seq<File>)
    ensures Snapshot(d, files)
    decreases d.Keys
  {
    var ps := set p | p in d && Watched(p);
    files := [];
    if ps == {} {
      forall p | Watched(p)
        ensures p !in d
      {
        assert p !in ps;
      }
    } else {
      var least := LeastPath(ps);
      var rest := SnapshotExists(d - {least});
      files := [(least, d[least])] + rest;
      forall f | f in rest
        ensures PathLess(least, f.0)
      {
        assert f.0 in ps;
      }
    }
  }

  /** What is before q as in the first disk, the rest as in the second. */
  function Mixed(d: Disk, d': Disk, q: Path): Disk {
    map p | p in d.Keys + d'.Keys && p in (if PathLess(p, q) then d else d') :: (if PathLess(p, q) then d else d')[p]
  }

  function ReadBehind(q: Path, early: nat, late: nat): Path -> nat {
    (p: Path) => if PathLess(p, q) then early else late
  }

  /** All that happens since `from` may happen while the walk is about to read q. */
  lemma SawMixed(log: Log, from: nat, q: Path) returns (files: seq<File>)
    requires History(log) && from < |log.disks|
    ensures Saw(log, [], ReadBehind(q, from, |log.edits|), from, files)
  {
    var at := ReadBehind(q, from, |log.edits|);
    var d := Mixed(log.disks[from], log.disks[|log.edits|], q);
    files := SnapshotExists(d);
    forall f: File
      ensures f in files <==> Watched(f.0) && Under([], f.0) && At(log.disks[at(f.0)], f.0) == Some(f.1)
    {
      assert At(d, f.0) == At(log.disks[at(f.0)], f.0);
    }
    forall p, f | f in files && PathLess(p, f.0)
      ensures at(p) <= at(f.0)
    {
      PathOrder(p, f.0, q);
    }
  }

  /** Since `from`, watched files were only given new contents, each at most once. */
  ghost predicate Replacements(log: Log, from: nat)
    requires History(log)
  {
    && (forall e, e' :: from <= e < e' < |log.edits| && Watched(log.edits[e]) ==> log.edits[e] != log.edits[e'])
    && (forall e :: from <= e < |log.edits| && Watched(log.edits[e]) ==>
                      Stays(log, from, log.edits[e]) && log.disks[e][log.edits[e]] != log.disks[e + 1][log.edits[e]])
  }

  /** An edit of one watched file is followed by one of a file that the walk meets later. */
  ghost predicate AlongWalk(log: Log, from: nat) {
    exists e, e' :: from <= e < e' < |log.edits| && Watched(log.edits[e]) && Watched(log.edits[e']) && PathLess(log.edits[e], log.edits[e'])
  }

  ghost predicate CanTear(log: Log, from: nat) {
    exists at, files :: Saw(log, [], at, from, files) && !Whole(log, from, files)
  }

  /** Of such edits, those can tear a walk among which one is followed by an edit further along the walk, and no others. */
  lemma TearIff(log: Log, from: nat)
    requires History(log) && from < |log.disks| && Replacements(log, from)
    ensures CanTear(log, from) <==> AlongWalk(log, from)
  {
    if AlongWalk(log, from) {
      var e, e' :| from <= e < e' < |log.edits| && Watched(log.edits[e]) && Watched(log.edits[e']) && PathLess(log.edits[e], log.edits[e']);
      Torn(log, from, e, e');
    } else {
      forall e, e' | from <= e < e' < |log.edits| && Watched(log.edits[e]) && Watched(log.edits[e'])
        ensures PathLess(log.edits[e'], log.edits[e])
      {
        PathOrder(log.edits[e], log.edits[e'], log.edits[e]);
      }
      forall at, files | Saw(log, [], at, from, files)
        ensures Whole(log, from, files)
      {
        UntornWalk(log, at, from, files);
      }
    }
  }

  lemma Torn(log: Log, from: nat, e: nat, e': nat)
    requires History(log) && Replacements(log, from) && from <= e < e' < |log.edits|
    requires Watched(log.edits[e]) && Watched(log.edits[e']) && PathLess(log.edits[e], log.edits[e'])
    ensures CanTear(log, from)
  {
    var p, q := log.edits[e], log.edits[e'];
    var at := ReadBehind(q, from, |log.edits|);
    var files := SawMixed(log, from, q);
    PathOrder(q, q, q);
    assert (p, log.disks[from][p]) in files && (q, log.disks[|log.edits|][q]) in files;
    forall i | from <= i < |log.disks|
      ensures !Snapshot(log.disks[i], files)
    {
      if i > e {
        Unedited(log, p, e + 1, i);
        Unedited(log, p, from, e);
      } else {
        Unedited(log, q, i, e');
        Unedited(log, q, e' + 1, |log.edits|);
      }
    }
  }
  /** First p and then q are edited, from a to b. */
  function TwoEdits(p: Path, q: Path, a: string, b: string): Log {
    Log([map[p := a, q := a], map[p := b, q := a], map[p := b, q := b]], [p, q])
  }

  lemma TwoEditsHistory(p: Path, q: Path, a: string, b: string)
    requires p != q && !Under(p, q) && !Under(q, p) && a != b
    ensures History(TwoEdits(p, q, a, b)) && Replacements(TwoEdits(p, q, a, b), 0)
  {
    var log := TwoEdits(p, q, a, b);
    forall i | 0 <= i < 3
      ensures Tree(log.disks[i])
    {
      assert log.disks[i].Keys == {p, q};
    }
    assert EditOf(log.disks[0], log.disks[1], p);
    assert EditOf(log.disks[1], log.disks[2], q);
  }

  /** Two edits of files that the walk meets one after the other can tear it in this order, and not in the other. */
  lemma TornWalk(p: Path, q: Path, a: string, b: string)
    requires Watched(p) && Watched(q) && PathLess(p, q) && !Under(p, q) && !Under(q, p) && a != b
    ensures CanTear(TwoEdits(p, q, a, b), 0) && !CanTear(TwoEdits(q, p, a, b), 0)
  {
    hide History, Replacements, CanTear, Watched, Under;
    PathOrder(p, q, p);
    TwoEditsHistory(p, q, a, b);
    TwoEditsHistory(q, p, a, b);
    TearIff(TwoEdits(p, q, a, b), 0);
    TearIff(TwoEdits(q, p, a, b), 0);
    assert TwoEdits(p, q, a, b).edits == [p, q] && TwoEdits(q, p, a, b).edits == [q, p];
    var edits := TwoEdits(p, q, a, b).edits;
    assert PathLess(edits[0], edits[1]);
  }

  // ---------------------------------------------------------------- the walk

  datatype Entry = Entry(name: string, isDir: bool)

  /** A directory as os.ReadDir lists it: each name once, in order. */
  ghost predicate Listed(d: Disk, dir: Path, entries: seq<Entry>) {
    && (forall i, j :: 0 <= i < j < |entries| ==> NameLess(entries[i].name, entries[j].name))
    && (forall p :: p in d && Under(dir, p) ==> Named(entries, |entries|, p[|dir|]))
    && (forall i :: 0 <= i < |entries| ==> (entries[i].isDir <==> dir + [entries[i].name] !in d))
  }

  /** One of the first n entries has this name. */
  ghost predicate Named(entries: seq<Entry>, n: nat, name: string)
    requires n <= |entries|
  {
    exists i :: 0 <= i < n && entries[i].name == name
  }

  method LeastName(names: set<string>) returns (least: string)
    requires names != {}
    ensures least in names && forall n :: n in names ==> n == least || NameLess(least, n)
    decreases names
  {
    least :| least in names;
    var rest := names - {least};
    if rest != {} {
      var other := LeastName(rest);
      ghost var first := least;
      NameOrder(least, other, other);
      if NameLess(other, least) {
        least := other;
      }
      forall n | n in names
        ensures n == least || NameLess(least, n)
      {
        assert n == first || n in rest;
        NameOrder(first, other, n);
      }
    } else {
      assert forall n :: n in names ==> n == least || n in rest;
    }
  }

  method ReadDir(d: Disk, dir: Path) returns (entries: seq<Entry>)
    ensures Listed(d, dir, entries)
  {
    entries := [];
    var names := set p | p in d && Under(dir, p) :: p[|dir|];
    ghost var all := names;
    while names != {}
      invariant names <= all
      invariant forall n :: n in all ==> n in names || Named(entries, |entries|, n)
      invariant forall i, j :: 0 <= i < j < |entries| ==> NameLess(entries[i].name, entries[j].name)
      invariant forall i, n :: 0 <= i < |entries| && n in names ==> NameLess(entries[i].name, n)
      invariant forall i :: 0 <= i < |entries| ==> (entries[i].isDir <==> dir + [entries[i].name] !in d)
      decreases names
    {
      var least := LeastName(names);
      ghost var before := entries;
      entries := entries + [Entry(least, dir + [least] !in d)];
      names := names - {least};
      forall n | n in all
        ensures n in names || Named(entries, |entries|, n)
      {
        if n == least {
          assert entries[|before|].name == n;
        } else if n !in names {
          var i :| 0 <= i < |before| && before[i].name == n;
          assert entries[i].name == n;
        }
      }
    }
  }

  /** What the walk has returned for the first n entries of `dir`, which it listed at moment t. */
  ghost predicate SawSome(log: Log, dir: Path, entries: seq<Entry>, n: nat, t: nat, at: Path -> nat, files: seq<File>)
    requires n <= |entries|
  {
    && InOrder(files)
    && t < |log.disks| && Listed(log.disks[t], dir, entries)
    && (forall p :: t <= at(p) < |log.disks|)
    && (forall p :: Under(dir, p) && !Named(entries, n, p[|dir|]) ==> at(p) == t)
    && (forall f :: f in files <==> Watched(f.0) && Under(dir, f.0) && Named(entries, n, f.0[|dir|])
                                    && At(log.disks[at(f.0)], f.0) == Some(f.1))
    && InTurn(dir, at, files)
  }

  lemma SawNone(log: Log, dir: Path, entries: seq<Entry>, t: nat, at: Path -> nat)
    requires t < |log.disks| && Listed(log.disks[t], dir, entries) && forall p :: at(p) == t
    ensures SawSome(log, dir, entries, 0, t, at, [])
  {
  }

  lemma SawAll(log: Log, dir: Path, entries: seq<Entry>, t: nat, at: Path -> nat, files: seq<File>)
    requires SawSome(log, dir, entries, |entries|, t, at, files)
    ensures Saw(log, dir, at, t, files)
  {
    forall f: File | Watched(f.0) && Under(dir, f.0) && At(log.disks[at(f.0)], f.0) == Some(f.1)
      ensures f in files
    {
      assert Named(entries, |entries|, f.0[|dir|]);
    }
  }

  /** Files of one more entry come after those of the entries before it. */
  lemma InOrderAppend(dir: Path, entries: seq<Entry>, n: nat, files: seq<File>, more: seq<File>)
    requires n < |entries| && InOrder(files) && InOrder(more)
    requires forall i, j :: 0 <= i < j < |entries| ==> NameLess(entries[i].name, entries[j].name)
    requires forall f :: f in files ==> Under(dir, f.0) && Named(entries, n, f.0[|dir|])
    requires forall f :: f in more ==> Under(dir, f.0) && f.0[|dir|] == entries[n].name
    ensures InOrder(files + more)
  {
    var all := files + more;
    forall i, j | 0 <= i < j < |all|
      ensures PathLess(all[i].0, all[j].0)
    {
      if i < |files| <= j {
        assert all[i] in files && all[j] in more;
        LessByName(dir, all[i].0, all[j].0);
      }
    }
  }

  /** The two agree on everything but what lies under one entry of `dir`. */
  ghost predicate Apart(dir: Path, name: string, at: Path -> nat, at': Path -> nat) {
    forall p :: !(Under(dir, p) && p[|dir|] == name) ==> at'(p) == at(p)
  }

  /** These are the watched files that are called `name` in `dir`, or lie below it, as they were seen. */
  ghost predicate Beneath(log: Log, dir: Path, name: string, at: Path -> nat, files: seq<File>)
    requires forall p :: at(p) < |log.disks|
  {
    && InOrder(files)
    && forall f :: f in files <==> Watched(f.0) && Under(dir, f.0) && f.0[|dir|] == name && At(log.disks[at(f.0)], f.0) == Some(f.1)
  }

  /** What was seen under `name` was read after everything before it, and in turn. */
  ghost predicate Follows(dir: Path, name: string, at: Path -> nat, at': Path -> nat, files: seq<File>) {
    && (forall p, f :: f in files ==> at(p) <= at'(f.0))
    && (forall f :: f in files ==> at'(dir + [name]) <= at'(f.0))
    && InTurn(dir + [name], at', files)
  }

  lemma UnderEntry(dir: Path, name: string, p: Path)
    ensures Under(dir, p) && p[|dir|] == name <==> p == dir + [name] || Under(dir + [name], p)
  {
    if Under(dir, p) && p[|dir|] == name {
      assert p[..|dir| + 1] == p[..|dir|] + [p[|dir|]];
    }
    if Under(dir + [name], p) {
      assert p[..|dir|] == p[..|dir| + 1][..|dir|];
      assert p[|dir|] == p[..|dir| + 1][|dir|];
    }
  }

  /** What was seen of a directory: what the walk below it saw, since at its listing no file had its name. */
  lemma DirectorySeen(log: Log, log': Log, dir: Path, entries: seq<Entry>, n: nat, t: nat, at: Path -> nat, files: seq<File>,
                      below: Path -> nat, from: nat, at': Path -> nat, more: seq<File>)
    requires n < |entries| && SawSome(log, dir, entries, n, t, at, files) && entries[n].isDir
    requires Longer(log, log') && t <= from && |log.disks| <= from + 1 && Saw(log', dir + [entries[n].name], below, from, more)
    requires forall p :: at'(p) == if Under(dir + [entries[n].name], p) then below(p) else at(p)
    ensures forall p :: t <= at'(p) < |log'.disks|
    ensures Beneath(log', dir, entries[n].name, at', more) && Apart(dir, entries[n].name, at, at')
    ensures Follows(dir, entries[n].name, at, at', more)
  {
    var path := dir + [entries[n].name];
    NotYetNamed(entries, n);
    forall p | p == path || Under(path, p)
      ensures Under(dir, p) && p[|dir|] == entries[n].name
    {
      UnderEntry(dir, entries[n].name, p);
    }
    forall f: File
      ensures f in more <==> Watched(f.0) && Under(dir, f.0) && f.0[|dir|] == entries[n].name
                             && At(log'.disks[at'(f.0)], f.0) == Some(f.1)
    {
      UnderEntry(dir, entries[n].name, f.0);
      if f.0 == path {
        assert at'(path) == at(path) == t && log'.disks[t] == log.disks[t];
      }
    }
  }

  /** What was seen of a file: its contents if it is watched, and nothing below it, since at its listing it was a file. */
  lemma FileSeen(log: Log, log': Log, dir: Path, entries: seq<Entry>, n: nat, t: nat, at: Path -> nat, files: seq<File>,
                 at': Path -> nat, more: seq<File>)
    requires n < |entries| && SawSome(log, dir, entries, n, t, at, files) && !entries[n].isDir
    requires Longer(log, log') && History(log)
    requires forall p :: t <= at'(p) < |log'.disks|
    requires forall p :: p != dir + [entries[n].name] ==> at'(p) == at(p)
    requires var path := dir + [entries[n].name];
             && |more| <= 1
             && (more != [] ==> |log.disks| <= at'(path) + 1)
             && forall f :: f in more <==> f.0 == path && Watched(path) && At(log'.disks[at'(path)], path) == Some(f.1)
    ensures forall p :: t <= at'(p) < |log'.disks|
    ensures Beneath(log', dir, entries[n].name, at', more) && Apart(dir, entries[n].name, at, at')
    ensures Follows(dir, entries[n].name, at, at', more)
  {
    var path := dir + [entries[n].name];
    NotYetNamed(entries, n);
    forall p | p == path || Under(path, p)
      ensures Under(dir, p) && p[|dir|] == entries[n].name
    {
      UnderEntry(dir, entries[n].name, p);
    }
    forall f: File
      ensures f in more <==> Watched(f.0) && Under(dir, f.0) && f.0[|dir|] == entries[n].name
                             && At(log'.disks[at'(f.0)], f.0) == Some(f.1)
    {
      UnderEntry(dir, entries[n].name, f.0);
      if Under(path, f.0) {
        assert at'(f.0) == at(f.0) == t && log'.disks[t] == log.disks[t];
        assert path in log.disks[t];
      }
    }
  }

  lemma NotYetNamed(entries: seq<Entry>, n: nat)
    requires n < |entries|
    requires forall i, j :: 0 <= i < j < |entries| ==> NameLess(entries[i].name, entries[j].name)
    ensures !Named(entries, n, entries[n].name)
  {
    forall i | 0 <= i < n
      ensures entries[i].name != entries[n].name
    {
      NameOrder(entries[i].name, entries[i].name, entries[n].name);
    }
  }

  lemma InTurnAppend(dir: Path, entries: seq<Entry>, n: nat, at: Path -> nat, files: seq<File>, at': Path -> nat, more: seq<File>)
    requires n < |entries| && InTurn(dir, at, files)
    requires forall i, j :: 0 <= i < j < |entries| ==> NameLess(entries[i].name, entries[j].name)
    requires Apart(dir, entries[n].name, at, at') && Follows(dir, entries[n].name, at, at', more)
    requires forall f :: f in files ==> Under(dir, f.0) && Named(entries, n, f.0[|dir|])
    requires forall f :: f in more ==> Under(dir, f.0) && f.0[|dir|] == entries[n].name
    ensures InTurn(dir, at', files + more)
  {
    var name := entries[n].name;
    NotYetNamed(entries, n);
    forall p, f | f in files + more && Under(dir, p) && PathLess(p, f.0)
      ensures at'(p) <= at'(f.0)
    {
      if f in files {
        assert at'(f.0) == at(f.0);
        if p[|dir|] == name {
          LessByName(dir, f.0, p);
          PathOrder(p, f.0, p);
        }
      } else if p[|dir|] == name {
        UnderEntry(dir, name, p);
        UnderEntry(dir, name, f.0);
      }
    }
  }

  /** One more entry: whatever lies under it was seen as `at'` says, and everything else as before. */
  lemma SawMore(log: Log, log': Log, dir: Path, entries: seq<Entry>, n: nat, t: nat, at: Path -> nat, files: seq<File>,
                at': Path -> nat, more: seq<File>)
    requires n < |entries| && SawSome(log, dir, entries, n, t, at, files)
    requires Longer(log, log')
    requires forall p :: t <= at'(p) < |log'.disks|
    requires Apart(dir, entries[n].name, at, at')
    requires Beneath(log', dir, entries[n].name, at', more) && Follows(dir, entries[n].name, at, at', more)
    ensures SawSome(log', dir, entries, n + 1, t, at', files + more)
  {
    InOrderAppend(dir, entries, n, files, more);
    NotYetNamed(entries, n);
    InTurnAppend(dir, entries, n, at, files, at', more);
    forall name: string
      ensures Named(entries, n + 1, name) <==> Named(entries, n, name) || name == entries[n].name
      ensures Named(entries, n, name) ==> name != entries[n].name
    {
    }
    forall f: File
      ensures f in files + more <==> Watched(f.0) && Under(dir, f.0) && Named(entries, n + 1, f.0[|dir|])
                                     && At(log'.disks[at'(f.0)], f.0) == Some(f.1)
    {
      if Under(dir, f.0) && Named(entries, n, f.0[|dir|]) {
        assert at'(f.0) == at(f.0);
        assert log'.disks[at(f.0)] == log.disks[at(f.0)];
      }
    }
  }
}
