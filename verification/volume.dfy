/** The walk of computeConfigHash in cmd/reloader/main.go, over files that anyone may edit meanwhile. */
module Volumes {
  import opened Api
  import opened FileSystem
  import opened Stream

  /** The files under the watched directory, which anyone may edit at any moment. */
  class Volume {
    var disk: Disk
    ghost var log: Log

    ghost predicate Valid()
      reads this
    {
      |log.disks| == |log.edits| + 1 && History(log) && disk == log.disks[|log.edits|]
    }

    constructor (disk: Disk)
      requires Tree(disk)
      ensures Valid() && log.edits == []
    {
      this.disk := disk;
      log := Log([disk], []);
    }

    /** Any number of edits by others: a file is written or removed. */
    method Interfere()
      requires Valid()
      modifies this
      ensures Valid() && Longer(old(log), log)
    {
      var edits: nat := *;
      while edits > 0
        invariant Valid() && Longer(old(log), log)
      {
        var p: Path := *;
        var contents: Option<string> := *;
        var edited := if contents.Some? then disk[p := contents.value] else disk - {p};
        if Tree(edited) {
          disk := edited;
          log := Log(log.disks + [edited], log.edits + [p]);
        }
        edits := edits - 1;
      }
    }

    /** Reading one file of a listed directory, if it is watched. */
    method VisitFile(root: string, dir: Path, entries: seq<Entry>, i: nat, ghost t: nat, ghost at: Path -> nat, ghost files: seq<File>)
      returns (ok: bool, fed: string, ghost more: seq<File>, ghost at': Path -> nat)
      requires Valid() && i < |entries| && SawSome(log, dir, entries, i, t, at, files) && !entries[i].isDir
      modifies this
      ensures Valid() && Longer(old(log), log)
      ensures ok ==> fed == Feed(root, more) && (forall p :: t <= at'(p) < |log.disks|)
                     && Beneath(log, dir, entries[i].name, at', more) && Apart(dir, entries[i].name, at, at')
                     && Follows(dir, entries[i].name, at, at', more)
    {
      hide PathText, Beneath, Apart, Follows, Listed;
      ok, fed, more, at' := true, "", [], at;
      ghost var before := log;
      var path := dir + [entries[i].name];
      if Watched(path) {
        Interfere();
        ok := *;
        if !ok || path !in disk {
          return false, fed, more, at';
        }
        ghost var now := |log.edits|;
        more, at' := [(path, disk[path])], (p: Path) => if p == path then now else at(p);
        fed := fed + PathText(root, path);
        fed := fed + disk[path];
        FeedOne(root, more[0]);
      }
      FileSeen(before, log, dir, entries, i, t, at, files, at', more);
    }

    /** Walking one directory of a listed directory. */
    method VisitDir(root: string, dir: Path, depth: nat, entries: seq<Entry>, i: nat,
                    ghost t: nat, ghost at: Path -> nat, ghost files: seq<File>)
      returns (ok: bool, fed: string, ghost more: seq<File>, ghost at': Path -> nat)
      requires Valid() && i < |entries| && SawSome(log, dir, entries, i, t, at, files) && entries[i].isDir && depth > 0
      modifies this
      ensures Valid() && Longer(old(log), log)
      ensures ok ==> fed == Feed(root, more) && (forall p :: t <= at'(p) < |log.disks|)
                     && Beneath(log, dir, entries[i].name, at', more) && Apart(dir, entries[i].name, at, at')
                     && Follows(dir, entries[i].name, at, at', more)
      decreases depth, 0
    {
      hide Feed, Beneath, Apart, Follows, Listed, Saw, Under, InOrder, History;
      var path := dir + [entries[i].name];
      ghost var before := log;
      ghost var below: Path -> nat;
      ok, fed, more, below := WalkDir(root, path, depth - 1);
      at' := (p: Path) => if Under(path, p) then below(p) else at(p);
      if ok {
        DirectorySeen(before, log, dir, entries, i, t, at, files, below, |before.edits|, at', more);
      }
    }

    /**
     The walk: list a directory, visit its entries in order, and feed path and contents of each watched file to
     the hash. Any listing or reading may fail; `depth` bounds the paths that the system accepts.
     */
    method WalkDir(root: string, dir: Path, depth: nat) returns (ok: bool, fed: string, ghost files: seq<File>, ghost at: Path -> nat)
      requires Valid()
      modifies this
      ensures Valid() && Longer(old(log), log)
      ensures ok ==> fed == Feed(root, files) && Saw(log, dir, at, |old(log).edits|, files)
      decreases depth, 1
    {
      hide PathText, Watched, InOrder, InTurn, Listed, Beneath, Apart, Follows, History, Under, Tree, At;
      Interfere();
      ok, fed, files := *, "", [];
      ghost var t := |log.edits|;
      at := (p: Path) => t;
      if !ok || depth == 0 {
        return false, fed, files, at;
      }
      var entries := ReadDir(disk, dir);
      SawNone(log, dir, entries, t, at);
      for i := 0 to |entries|
        invariant Valid() && Longer(old(log), log)
        invariant fed == Feed(root, files) && SawSome(log, dir, entries, i, t, at, files)
      {
        ghost var before, seen := log, at;
        var text: string;
        ghost var more: seq<File>;
        if entries[i].isDir {
          ok, text, more, at := VisitDir(root, dir, depth, entries, i, t, seen, files);
        } else {
          ok, text, more, at := VisitFile(root, dir, entries, i, t, seen, files);
        }
        if !ok {
          return false, fed, files, at;
        }
        SawMore(before, log, dir, entries, i, t, seen, files, at, more);
        FeedAppend(root, files, more);
        fed, files := fed + text, files + more;
      }
      SawAll(log, dir, entries, t, at, files);
      SawFrom(log, dir, at, |old(log).edits|, t, files);
    }
  }
}
