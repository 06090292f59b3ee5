/**
 The byte stream that computeConfigHash of cmd/reloader/main.go feeds to the hash: for each file, in the order
 of the walk, its path and then its contents, with nothing in between.
 */
module Stream {
  import opened FileSystem

  /** A path as the walk reports it, below the watched directory `root`. */
  function PathText(root: string, p: Path): string {
    if p == [] then root else PathText(root, p[..|p| - 1]) + "/" + p[|p| - 1]
  }

  function Feed(root: string, files: seq<File>): string {
    if files == [] then "" else PathText(root, files[0].0) + files[0].1 + Feed(root, files[1..])
  }

  lemma {:induction false} FeedAppend(root: string, a: seq<File>, b: seq<File>)
    ensures Feed(root, a + b) == Feed(root, a) + Feed(root, b)
  {
    if a == [] {
      assert a + b == b;
    } else {
      assert (a + b)[1..] == a[1..] + b;
      FeedAppend(root, a[1..], b);
    }
  }

  lemma FeedOne(root: string, f: File)
    ensures Feed(root, [f]) == PathText(root, f.0) + f.1
  {
    assert [f][1..] == [];
  }

  /** The stream around one file. */
  lemma FeedAround(root: string, files: seq<File>, i: nat)
    requires i < |files|
    ensures Feed(root, files) == Feed(root, files[..i]) + (PathText(root, files[i].0) + files[i].1) + Feed(root, files[i + 1..])
  {
    assert files == files[..i] + ([files[i]] + files[i + 1..]);
    FeedAppend(root, files[..i], [files[i]] + files[i + 1..]);
    FeedAppend(root, [files[i]], files[i + 1..]);
    FeedOne(root, files[i]);
  }

  lemma CancelAround(a: string, x: string, y: string, b: string)
    requires a + x + b == a + y + b
    ensures x == y
  {
    var s, t := a + x + b, a + y + b;
    assert |s| == |t|;
    assert x == s[|a|..|a| + |x|];
    assert y == t[|a|..|a| + |y|];
  }

  // ---------------------------------------------------------------- edits that show

  /** An edit of the contents of one file changes the stream, and nothing else about one file could. */
  lemma OneFileShows(root: string, files: seq<File>, i: nat, contents: string)
    requires i < |files|
    ensures Feed(root, files[i := (files[i].0, contents)]) == Feed(root, files) <==> contents == files[i].1
  {
    var files' := files[i := (files[i].0, contents)];
    FeedAround(root, files, i);
    FeedAround(root, files', i);
    assert files'[..i] == files[..i] && files'[i + 1..] == files[i + 1..];
    var text := PathText(root, files[i].0);
    if Feed(root, files') == Feed(root, files) {
      CancelAround(Feed(root, files[..i]), text + files[i].1, text + contents, Feed(root, files[i + 1..]));
      assert (text + files[i].1)[|text|..] == files[i].1 && (text + contents)[|text|..] == contents;
    }
  }

  /** Names have no slash. */
  predicate Names(p: Path) {
    forall i :: 0 <= i < |p| ==> '/' !in p[i]
  }

  lemma {:induction false} PathTextInjective(root: string, p: Path, q: Path)
    requires Names(p) && Names(q) && PathText(root, p) == PathText(root, q)
    ensures p == q
  {
    if p == [] || q == [] {
      PathTextLength(root, p);
      PathTextLength(root, q);
    } else {
      var m, n := p[|p| - 1], q[|q| - 1];
      var a, b := PathText(root, p[..|p| - 1]), PathText(root, q[..|q| - 1]);
      LastSlash(a, m, b, n);
      PathTextInjective(root, p[..|p| - 1], q[..|q| - 1]);
      assert p == p[..|p| - 1] + [m] && q == q[..|q| - 1] + [n];
    }
  }

  lemma LastSlash(a: string, m: string, b: string, n: string)
    requires a + "/" + m == b + "/" + n && '/' !in m && '/' !in n
    ensures a == b && m == n
  {
    SlashInTail(a, m, b, n);
    SlashInTail(b, n, a, m);
    var s, t := a + "/" + m, b + "/" + n;
    assert a == s[..|a|] && b == t[..|b|];
    assert m == s[|a| + 1..] && n == t[|b| + 1..];
  }

  lemma SlashInTail(a: string, m: string, b: string, n: string)
    requires a + "/" + m == b + "/" + n
    ensures |a| < |b| ==> '/' in m
  {
    if |a| < |b| {
      var s, t := a + "/" + m, b + "/" + n;
      assert t[|b|] == '/' && s[|b|] == m[|b| - |a| - 1];
    }
  }

  lemma {:induction false} PathTextLength(root: string, p: Path)
    ensures |PathText(root, p)| >= |root| + |p|
  {
    if p != [] {
      PathTextLength(root, p[..|p| - 1]);
    }
  }

  /** A rename that keeps the place in the walk changes the stream. */
  lemma RenameShows(root: string, files: seq<File>, i: nat, p: Path)
    requires i < |files| && Names(p) && Names(files[i].0)
    ensures Feed(root, files[i := (p, files[i].1)]) == Feed(root, files) <==> p == files[i].0
  {
    var files' := files[i := (p, files[i].1)];
    FeedAround(root, files, i);
    FeedAround(root, files', i);
    assert files'[..i] == files[..i] && files'[i + 1..] == files[i + 1..];
    var text, text', data := PathText(root, files[i].0), PathText(root, p), files[i].1;
    if Feed(root, files') == Feed(root, files) {
      CancelAround(Feed(root, files[..i]), text + data, text' + data, Feed(root, files[i + 1..]));
      assert (text + data)[..|text|] == text && (text' + data)[..|text'|] == text';
      PathTextInjective(root, p, files[i].0);
    }
  }

  /** `more` has all of `files`, in the same order, and possibly others in between. */
  ghost predicate Extends(files: seq<File>, more: seq<File>) {
    if files == [] then true
    else if more == [] then false
    else (files[0] == more[0] && Extends(files[1..], more[1..])) || Extends(files, more[1..])
  }

  lemma {:induction false} ExtendsLength(root: string, files: seq<File>, more: seq<File>)
    requires Extends(files, more) && forall f :: f in more ==> f.0 != []
    ensures |files| <= |more| && |Feed(root, files)| <= |Feed(root, more)|
    ensures files != more ==> |Feed(root, files)| < |Feed(root, more)|
  {
    if more != [] {
      PathTextLength(root, more[0].0);
      if files != [] {
        if files[0] == more[0] && Extends(files[1..], more[1..]) {
          ExtendsLength(root, files[1..], more[1..]);
          assert files == [files[0]] + files[1..] && more == [more[0]] + more[1..];
        } else {
          ExtendsLength(root, files, more[1..]);
        }
      }
    }
  }

  /** In the order of the walk, a subset of the files is a subsequence of their list. */
  lemma {:induction false} SubsetExtends(files: seq<File>, more: seq<File>)
    requires InOrder(files) && InOrder(more) && forall f :: f in files ==> f in more
    ensures Extends(files, more)
  {
    if files != [] {
      assert files[0] in more;
      if files[0] == more[0] {
        forall f | f in files[1..]
          ensures f in more[1..]
        {
          var x :| 1 <= x < |files| && files[x] == f;
          PathOrder(files[0].0, files[0].0, files[0].0);
          assert f in more && f != more[0];
        }
        SubsetExtends(files[1..], more[1..]);
      } else {
        var y :| 0 <= y < |more| && more[y] == files[0];
        forall f | f in files
          ensures f in more[1..]
        {
          var x :| 0 <= x < |files| && files[x] == f;
          PathOrder(more[0].0, files[0].0, f.0);
          PathOrder(more[0].0, more[0].0, f.0);
          assert PathLess(more[0].0, files[0].0);
          assert f != more[0];
          assert f in more;
        }
        SubsetExtends(files, more[1..]);
      }
    }
  }

  /** Adding any files without other changes, or removing any, changes the stream. */
  lemma AdditionsShow(root: string, files: seq<File>, more: seq<File>)
    requires InOrder(files) && InOrder(more) && forall f :: f in files ==> f in more
    requires forall f :: f in more ==> f.0 != []
    ensures Feed(root, files) == Feed(root, more) <==> files == more
  {
    SubsetExtends(files, more);
    ExtendsLength(root, files, more);
  }

  /**
   Change detection: any one edit of a disk, be it a new file, a lost file or new contents, shows in the stream
   of its watched files, unless the file is not watched or is left as it was.
   */
  lemma OneEditShows(root: string, d: Disk, files: seq<File>, d': Disk, files': seq<File>, p: Path)
    requires Snapshot(d, files) && Snapshot(d', files') && EditOf(d, d', p)
    ensures Feed(root, files) == Feed(root, files') <==> !Watched(p) || At(d, p) == At(d', p)
  {
    if !Watched(p) || At(d, p) == At(d', p) {
      forall f: File
        ensures f in files <==> f in files'
      {
        assert At(d', f.0) == At(d, f.0) || f.0 == p;
      }
      OrderedOnce(files, files');
    } else if p !in d {
      assert (p, d'[p]) in files' && (p, d'[p]) !in files;
      AdditionsShow(root, files, files');
    } else if p !in d' {
      assert (p, d[p]) in files && (p, d[p]) !in files';
      AdditionsShow(root, files', files);
    } else {
      NewContents(d, files, d', files', p);
      var i :| 0 <= i < |files| && files[i].0 == p && files' == files[i := (p, d'[p])];
      assert files[i] in files;
      OneFileShows(root, files, i, d'[p]);
    }
  }

  lemma NewContents(d: Disk, files: seq<File>, d': Disk, files': seq<File>, p: Path)
    requires Snapshot(d, files) && Snapshot(d', files') && EditOf(d, d', p) && Watched(p) && p in d && p in d'
    ensures exists i :: 0 <= i < |files| && files[i].0 == p && files' == files[i := (p, d'[p])]
  {
    assert (p, d[p]) in files;
    var i :| 0 <= i < |files| && files[i] == (p, d[p]);
    var edited := files[i := (p, d'[p])];
    forall f: File
      ensures f in edited <==> f in files'
    {
      PathOrder(p, p, p);
      if f in files && f.0 != p {
        var x :| 0 <= x < |files| && files[x] == f;
        assert edited[x] == f;
      }
      if f in edited {
        var x :| 0 <= x < |edited| && edited[x] == f;
        assert x != i ==> files[x] in files;
      }
      assert edited[i] == (p, d'[p]);
      assert f.0 != p ==> At(d', f.0) == At(d, f.0);
    }
    OrderedOnce(edited, files');
  }

  // ---------------------------------------------------------------- what equal streams leave open

  ghost predicate SameFiles(d: Disk, d': Disk) {
    forall p :: Watched(p) ==> At(d, p) == At(d', p)
  }

  /** The watched files have the same names and sizes, as a listing shows them. */
  ghost predicate SameSizes(d: Disk, d': Disk) {
    forall p :: Watched(p) ==> (p in d <==> p in d') && (p in d ==> |d[p]| == |d'[p]|)
  }

  lemma CancelFirst(x: string, u: string, y: string, v: string)
    requires x + u == y + v && |x| == |y|
    ensures x == y && u == v
  {
    assert x == (x + u)[..|x|] && y == (y + v)[..|y|];
    assert u == (x + u)[|x|..] && v == (y + v)[|y|..];
  }

  lemma {:induction false} SizesFixFiles(root: string, a: seq<File>, b: seq<File>)
    requires |a| == |b| && Feed(root, a) == Feed(root, b)
    requires forall i :: 0 <= i < |a| ==> a[i].0 == b[i].0 && |a[i].1| == |b[i].1|
    ensures a == b
  {
    if a != [] {
      var path := PathText(root, a[0].0);
      CancelFirst(path + a[0].1, Feed(root, a[1..]), path + b[0].1, Feed(root, b[1..]));
      CancelFirst(path, a[0].1, path, b[0].1);
      SizesFixFiles(root, a[1..], b[1..]);
      assert a == [a[0]] + a[1..] && b == [b[0]] + b[1..];
    }
  }

  /** Disks with the same stream have the same files exactly when their files have the same names and sizes. */
  lemma SameStreamIff(root: string, d: Disk, files: seq<File>, d': Disk, files': seq<File>)
    requires Snapshot(d, files) && Snapshot(d', files') && Feed(root, files) == Feed(root, files')
    ensures SameFiles(d, d') <==> SameSizes(d, d')
  {
    if SameSizes(d, d') {
      assert forall i :: 0 <= i < |files| ==> files[i] in files;
      var moved := seq(|files|, i requires 0 <= i < |files| => (files[i].0, d'[files[i].0]));
      forall f: File
        ensures f in moved <==> f in files'
      {
        if f in files' {
          assert (f.0, d[f.0]) in files;
          var i :| 0 <= i < |files| && files[i] == (f.0, d[f.0]);
          assert moved[i] == f;
        }
      }
      OrderedOnce(moved, files');
      SizesFixFiles(root, files, files');
      forall p | Watched(p)
        ensures At(d, p) == At(d', p)
      {
        if p in d {
          assert (p, d[p]) in files;
        }
      }
    }
    if SameFiles(d, d') {
      forall p | Watched(p)
        ensures (p in d <==> p in d') && (p in d ==> |d[p]| == |d'[p]|)
      {
        assert At(d, p) == At(d', p);
      }
    }
  }

  // ---------------------------------------------------------------- edits that do not show

  /**
   Two edits at once may leave the stream as it was: text that repeats the path of the next file can move from
   the contents of one file to those of the other, or become a file of its own.
   */
  lemma TwoEditsMayHide(root: string, p: Path, q: Path, contents: string)
    ensures Feed(root, [(p, ""), (q, PathText(root, q) + contents)]) == Feed(root, [(p, PathText(root, q)), (q, contents)])
    ensures Feed(root, [(p, ""), (q, contents)]) == Feed(root, [(p, PathText(root, q) + contents)])
  {
    var text := PathText(root, q);
    FeedTwo(root, (p, ""), (q, text + contents));
    FeedTwo(root, (p, text), (q, contents));
    FeedTwo(root, (p, ""), (q, contents));
    FeedOne(root, (p, text + contents));
  }

  lemma FeedTwo(root: string, f: File, g: File)
    ensures Feed(root, [f, g]) == PathText(root, f.0) + f.1 + PathText(root, g.0) + g.1
  {
    FeedAppend(root, [f], [g]);
    FeedOne(root, f);
    FeedOne(root, g);
    assert [f, g] == [f] + [g];
  }
}
