/**
 Reading an upstream block back. A `server` line is split at blanks; a parameter that is not there has the
 default of the resource definition (api/v1alpha1/nginxupstream_types.go:87-107).
 */
module ServerLines {
  import opened Api
  import opened Render
  import opened Templates
  import opened Text
  import opened Words

  // ---------------------------------------------------------------- splitting

  /** The pieces between the occurrences of `c`. */
  function Split(s: string, c: char): (r: seq<string>)
    ensures r != []
    decreases |s|
  {
    var n := IndexOf(s, c);
    if n == |s| then [s] else [s[..n]] + Split(s[n + 1..], c)
  }

  lemma {:induction false} SplitFirst(a: string, c: char, b: string)
    requires c !in a
    ensures Split(a + [c] + b, c) == [a] + Split(b, c)
  {
    IndexOfFirst(a, c, b);
    var s := a + [c] + b;
    assert s[..|a|] == a && s[|a| + 1..] == b;
  }

  lemma SplitNone(s: string, c: char)
    requires c !in s
    ensures Split(s, c) == [s]
  {
    IndexOfAbsent(s, c);
  }

  lemma {:induction false} IndexOfAbsent(s: string, c: char)
    requires c !in s
    ensures IndexOf(s, c) == |s|
  {
    if s != "" {
      IndexOfAbsent(s[1..], c);
    }
  }

  predicate Unbroken(words: seq<string>) {
    forall w :: w in words ==> ' ' !in w
  }

  /** The words of a directive are read back from its text. */
  lemma {:induction false} SplitArgs(word: string, rest: seq<string>)
    requires ' ' !in word && Unbroken(rest)
    ensures Split(word + Args(rest), ' ') == [word] + rest
    decreases |rest|
  {
    hide Split, IndexOf;
    if rest == [] {
      assert word + Args(rest) == word;
      SplitNone(word, ' ');
    } else {
      var tail := rest[0] + Args(rest[1..]);
      SplitArgs(rest[0], rest[1..]);
      SplitFirst(word, ' ', tail);
      ArgsStep(word, rest);
      assert [rest[0]] + rest[1..] == rest;
    }
  }

  lemma ArgsStep(word: string, rest: seq<string>)
    requires rest != []
    ensures word + Args(rest) == word + [' '] + (rest[0] + Args(rest[1..]))
  {
    assert " " == [' '];
  }

  // ---------------------------------------------------------------- one server line

  predicate StartsWith(s: string, prefix: string) {
    |prefix| <= |s| && s[..|prefix|] == prefix
  }

  function Number(s: string): int {
    if IsNumber(s) then ReadInt(s) else 0
  }

  /** Where the last `c` stands; the length if there is none. */
  function LastIndexOf(s: string, c: char): (n: nat)
    ensures n <= |s| && (n < |s| ==> s[n] == c)
    ensures n == |s| ==> c !in s
    ensures n < |s| ==> c !in s[n + 1..]
  {
    if s == "" then 0
    else if s[|s| - 1] == c then |s| - 1
    else
      var n := LastIndexOf(s[..|s| - 1], c);
      if n == |s| - 1 then |s| else n
  }

  /** The address may itself contain colons; the port follows the last one. */
  function ReadTarget(target: string): Backend {
    var n := LastIndexOf(target, ':');
    if n == |target| then Plain(target, 0) else Plain(target[..n], Number(target[n + 1..]))
  }

  function ReadParam(b: Backend, w: string): Backend {
    if StartsWith(w, WEIGHT_IS) then b.(weight := Number(w[|WEIGHT_IS|..]))
    else if StartsWith(w, MAX_CONNS_IS) then b.(maxConnections := Number(w[|MAX_CONNS_IS|..]))
    else if StartsWith(w, MAX_FAILS_IS) then b.(maxFails := Number(w[|MAX_FAILS_IS|..]))
    else if StartsWith(w, FAIL_TIMEOUT_IS) then b.(failTimeout := w[|FAIL_TIMEOUT_IS|..])
    else if w == BACKUP then b.(backup := true)
    else if w == DOWN then b.(down := true)
    else b
  }

  function ReadParams(b: Backend, ws: seq<string>): Backend
    decreases |ws|
  {
    if ws == [] then b else ReadParams(ReadParam(b, ws[0]), ws[1..])
  }

  function ServerPrefix(): string {
    Pad(4) + SERVER + " "
  }

  function ReadServer(line: string): Backend
    requires StartsWith(line, ServerPrefix()) && |line| > |ServerPrefix()|
  {
    var words := Split(line[|ServerPrefix()|..|line| - 1], ' ');
    ReadParams(ReadTarget(words[0]), words[1..])
  }

  lemma {:induction false} LastIndexAt(a: string, c: char, b: string)
    requires c !in b
    ensures LastIndexOf(a + [c] + b, c) == |a|
  {
    var s := a + [c] + b;
    if b != "" {
      LastIndexAt(a, c, b[..|b| - 1]);
      assert s[..|s| - 1] == a + [c] + b[..|b| - 1];
      assert s[|s| - 1] == b[|b| - 1];
    }
  }

  lemma TargetReadBack(address: string, port: int)
    ensures ReadTarget(address + ":" + Itoa(port)) == Plain(address, port)
  {
    IntRoundTrip(port);
    LastIndexAt(address, ':', Itoa(port));
    var s := address + [':'] + Itoa(port);
    assert s == address + ":" + Itoa(port);
    assert s[..|address|] == address && s[|address| + 1..] == Itoa(port);
  }

  /** The names of parameters do not begin one another. */
  lemma ParamsApart(x: string)
    ensures !StartsWith(MAX_CONNS_IS + x, WEIGHT_IS)
    ensures !StartsWith(MAX_FAILS_IS + x, WEIGHT_IS) && !StartsWith(MAX_FAILS_IS + x, MAX_CONNS_IS)
    ensures !StartsWith(FAIL_TIMEOUT_IS + x, WEIGHT_IS) && !StartsWith(FAIL_TIMEOUT_IS + x, MAX_CONNS_IS)
            && !StartsWith(FAIL_TIMEOUT_IS + x, MAX_FAILS_IS)
  {
    StartsAlike(MAX_CONNS_IS + x, WEIGHT_IS, 0);
    StartsAlike(MAX_FAILS_IS + x, WEIGHT_IS, 0);
    StartsAlike(MAX_FAILS_IS + x, MAX_CONNS_IS, 4);
    StartsAlike(FAIL_TIMEOUT_IS + x, WEIGHT_IS, 0);
    StartsAlike(FAIL_TIMEOUT_IS + x, MAX_CONNS_IS, 0);
    StartsAlike(FAIL_TIMEOUT_IS + x, MAX_FAILS_IS, 0);
  }

  lemma StartsAlike(s: string, prefix: string, i: nat)
    requires i < |prefix|
    ensures StartsWith(s, prefix) ==> s[i] == prefix[i]
  {
    if StartsWith(s, prefix) {
      assert s[..|prefix|][i] == s[i];
    }
  }

  lemma StripPrefix(prefix: string, x: string)
    ensures StartsWith(prefix + x, prefix) && (prefix + x)[|prefix|..] == x
  {
    assert (prefix + x)[..|prefix|] == prefix;
  }

  // each optional parameter, when it is there
  lemma ReadWeight(b: Backend, n: int)
    ensures ReadParam(b, WEIGHT_IS + Itoa(n)) == b.(weight := n)
  {
    IntRoundTrip(n);
    StripPrefix(WEIGHT_IS, Itoa(n));
  }

  lemma ReadMaxConns(b: Backend, n: int)
    ensures ReadParam(b, MAX_CONNS_IS + Itoa(n)) == b.(maxConnections := n)
  {
    ParamsApart(Itoa(n));
    IntRoundTrip(n);
    StripPrefix(MAX_CONNS_IS, Itoa(n));
  }

  lemma ReadMaxFails(b: Backend, n: int)
    ensures ReadParam(b, MAX_FAILS_IS + Itoa(n)) == b.(maxFails := n)
  {
    ParamsApart(Itoa(n));
    IntRoundTrip(n);
    StripPrefix(MAX_FAILS_IS, Itoa(n));
  }

  lemma ReadFailTimeout(b: Backend, t: string)
    ensures ReadParam(b, FAIL_TIMEOUT_IS + t) == b.(failTimeout := t)
  {
    ParamsApart(t);
    StripPrefix(FAIL_TIMEOUT_IS, t);
  }

  lemma ReadFlags(b: Backend)
    ensures ReadParam(b, BACKUP) == b.(backup := true) && ReadParam(b, DOWN) == b.(down := true)
  {
    assert BACKUP != DOWN;
  }

  /** One optional parameter at the head of the list. */
  lemma ReadOptional(b: Backend, present: bool, text: string, rest: seq<string>)
    ensures ReadParams(b, Param(present, text) + rest) == ReadParams(if present then ReadParam(b, text) else b, rest)
  {
    if present {
      assert ([text] + rest)[1..] == rest;
    } else {
      assert [] + rest == rest;
    }
  }

  /** All six, in any combination: what is left out has its default. */
  lemma ParamsReadBack(b: Backend)
    ensures ReadParams(Plain(b.address, b.port), ServerParams(b)) == b
  {
    hide ReadParam, ReadParams, Itoa, Param;
    var p6 := Param(b.down, DOWN);
    var p5 := Param(b.backup, BACKUP) + p6;
    var p4 := Param(b.failTimeout != TEN_SECONDS, FAIL_TIMEOUT_IS + b.failTimeout) + p5;
    var p3 := Param(b.maxFails != 3, MAX_FAILS_IS + Itoa(b.maxFails)) + p4;
    var p2 := Param(b.maxConnections != 0, MAX_CONNS_IS + Itoa(b.maxConnections)) + p3;
    var p1 := Param(b.weight != 1, WEIGHT_IS + Itoa(b.weight)) + p2;
    FromTheRight(Param(b.weight != 1, WEIGHT_IS + Itoa(b.weight)), Param(b.maxConnections != 0, MAX_CONNS_IS + Itoa(b.maxConnections)),
                 Param(b.maxFails != 3, MAX_FAILS_IS + Itoa(b.maxFails)), Param(b.failTimeout != TEN_SECONDS, FAIL_TIMEOUT_IS + b.failTimeout),
                 Param(b.backup, BACKUP), p6);
    assert ServerParams(b) == p1;
    var b0 := Plain(b.address, b.port);
    var b1 := b0.(weight := b.weight);
    var b2 := b1.(maxConnections := b.maxConnections);
    var b3 := b2.(maxFails := b.maxFails);
    var b4 := b3.(failTimeout := b.failTimeout);
    var b5 := b4.(backup := b.backup);
    ReadOptional(b0, b.weight != 1, WEIGHT_IS + Itoa(b.weight), p2);
    ReadWeight(b0, b.weight);
    ReadOptional(b1, b.maxConnections != 0, MAX_CONNS_IS + Itoa(b.maxConnections), p3);
    ReadMaxConns(b1, b.maxConnections);
    ReadOptional(b2, b.maxFails != 3, MAX_FAILS_IS + Itoa(b.maxFails), p4);
    ReadMaxFails(b2, b.maxFails);
    ReadOptional(b3, b.failTimeout != TEN_SECONDS, FAIL_TIMEOUT_IS + b.failTimeout, p5);
    ReadFailTimeout(b3, b.failTimeout);
    ReadOptional(b4, b.backup, BACKUP, p6);
    ReadFlags(b4);
    ReadOptional(b5, b.down, DOWN, []);
    ReadFlags(b5);
    assert p6 + [] == p6;
    ReadNothing(b);
  }

  lemma FromTheRight(a: seq<string>, b: seq<string>, c: seq<string>, d: seq<string>, e: seq<string>, f: seq<string>)
    ensures a + b + c + d + e + f == a + (b + (c + (d + (e + f))))
  {
  }

  lemma ReadNothing(b: Backend)
    ensures ReadParams(b, []) == b
  {
  }

  /** Neither blanks nor line breaks. */
  predicate Separate(s: string) {
    ' ' !in s && '\n' !in s
  }

  predicate IsServerLine(line: string) {
    StartsWith(line, ServerPrefix()) && |line| > |ServerPrefix()|
  }

  lemma ParamsUnbroken(b: Backend)
    requires ' ' !in b.failTimeout
    ensures Unbroken(ServerParams(b))
  {
    hide Itoa;
    IntRoundTrip(b.weight);
    IntRoundTrip(b.maxConnections);
    IntRoundTrip(b.maxFails);
    assert Unbroken([WEIGHT_IS + Itoa(b.weight), MAX_CONNS_IS + Itoa(b.maxConnections), MAX_FAILS_IS + Itoa(b.maxFails)]);
    assert Unbroken([FAIL_TIMEOUT_IS + b.failTimeout, BACKUP, DOWN]);
  }

  lemma ServerLineParts(b: Backend)
    ensures ServerLine(b) == ServerPrefix() + (b.address + ":" + Itoa(b.port) + Args(ServerParams(b))) + ";"
  {
    hide ServerParams, Itoa, Pad;
    var target := b.address + COLON + Itoa(b.port);
    var args := [target] + ServerParams(b);
    assert args[1..] == ServerParams(b);
    assert Args(args) == " " + target + Args(ServerParams(b));
  }

  /** One line: every backend whose address and timeout have no blanks is read back, whatever its numbers. */
  lemma ServerReadBack(b: Backend)
    requires ' ' !in b.address && ' ' !in b.failTimeout
    ensures IsServerLine(ServerLine(b)) && ReadServer(ServerLine(b)) == b
  {
    hide ServerParams, ServerLine, ServerPrefix, Itoa, Split, ReadTarget, ReadParams, Args;
    var target := b.address + ":" + Itoa(b.port);
    var inner := target + Args(ServerParams(b));
    ServerLineParts(b);
    ParamsUnbroken(b);
    IntRoundTrip(b.port);
    assert ' ' !in target;
    SplitArgs(target, ServerParams(b));
    StripPrefix(ServerPrefix(), inner + ";");
    var line := ServerLine(b);
    assert line == ServerPrefix() + (inner + ";");
    assert line[|ServerPrefix()|..|line| - 1] == inner;
    TargetReadBack(b.address, b.port);
    ParamsReadBack(b);
    assert ([target] + ServerParams(b))[1..] == ServerParams(b);
  }

  // ---------------------------------------------------------------- a whole block

  /** The backends of the `server` lines among these lines. */
  function ReadServers(lines: seq<string>): seq<Backend> {
    if lines == [] then []
    else (if IsServerLine(lines[0]) then [ReadServer(lines[0])] else []) + ReadServers(lines[1..])
  }

  lemma {:induction false} ReadServersAppend(a: seq<string>, b: seq<string>)
    ensures ReadServers(a + b) == ReadServers(a) + ReadServers(b)
  {
    hide IsServerLine, ReadServer;
    if a == [] {
      assert a + b == b;
    } else {
      assert (a + b)[1..] == a[1..] + b;
      ReadServersAppend(a[1..], b);
    }
  }

  /** A line of the template may hold several lines of text: a snippet often does. */
  function Pieces(lines: seq<string>): seq<string> {
    if lines == [] then [] else Split(lines[0], '\n') + Pieces(lines[1..])
  }

  lemma {:induction false} LinesSplit(x: string, rest: string)
    ensures Lines(x + "\n" + rest) == Split(x, '\n') + Lines(rest)
    decreases |x|
  {
    hide Lines, Split;
    var n := IndexOf(x, '\n');
    SplitStep(x, '\n');
    if n == |x| {
      LinesCons(x, rest);
    } else {
      var y := x[n + 1..];
      LinesSplit(y, rest);
      LinesCons(x[..n], y + "\n" + rest);
      BreakAt(x, n, rest);
      assert [x[..n]] + (Split(y, '\n') + Lines(rest)) == [x[..n]] + Split(y, '\n') + Lines(rest);
    }
  }

  lemma SplitStep(s: string, c: char)
    ensures var n := IndexOf(s, c);
            Split(s, c) == if n == |s| then [s] else [s[..n]] + Split(s[n + 1..], c)
  {
  }

  lemma BreakAt(x: string, n: nat, rest: string)
    requires n < |x| && x[n] == '\n'
    ensures x + "\n" + rest == x[..n] + "\n" + (x[n + 1..] + "\n" + rest)
  {
    assert x == x[..n] + "\n" + x[n + 1..];
  }

  lemma {:induction false} LinesOfPieces(lines: seq<string>)
    ensures Lines(Unlines(lines)) == Pieces(lines)
  {
    if lines != [] {
      LinesOfPieces(lines[1..]);
      LinesSplit(lines[0], Unlines(lines[1..]));
    }
  }

  lemma {:induction false} PiecesAppend(a: seq<string>, b: seq<string>)
    ensures Pieces(a + b) == Pieces(a) + Pieces(b)
  {
    hide Split;
    if a == [] {
      assert a + b == b;
    } else {
      assert (a + b)[1..] == a[1..] + b;
      PiecesAppend(a[1..], b);
    }
  }

  /** What reading these template lines yields. */
  function Read(lines: seq<string>): seq<Backend> {
    ReadServers(Pieces(lines))
  }

  lemma ReadAppend(a: seq<string>, b: seq<string>)
    ensures Read(a + b) == Read(a) + Read(b)
  {
    PiecesAppend(a, b);
    ReadServersAppend(Pieces(a), Pieces(b));
  }

  /** No line of this text is a `server` line. */
  predicate Quiet(s: string) {
    forall p :: p in Split(s, '\n') ==> !IsServerLine(p)
  }

  lemma {:induction false} NothingToRead(lines: seq<string>)
    requires forall l :: l in lines ==> !IsServerLine(l)
    ensures ReadServers(lines) == []
  {
    if lines != [] {
      NothingToRead(lines[1..]);
    }
  }

  lemma {:induction false} ReadQuiet(lines: seq<string>)
    requires forall l :: l in lines ==> Quiet(l)
    ensures Read(lines) == []
  {
    hide IsServerLine, ReadServer;
    if lines != [] {
      ReadQuiet(lines[1..]);
      assert Quiet(lines[0]);
      NothingToRead(Split(lines[0], '\n'));
      ReadServersAppend(Split(lines[0], '\n'), Pieces(lines[1..]));
    }
  }

  lemma ReadOne(b: Backend)
    requires Separate(b.address) && Separate(b.failTimeout)
    ensures Read([ServerLine(b)]) == [b]
  {
    hide ReadServer, ServerPrefix, ServerLine;
    ServerReadBack(b);
    ServerUnbroken(b);
    SplitNone(ServerLine(b), '\n');
    var l := ServerLine(b);
    assert [l][1..] == [];
    assert Pieces([l]) == [l];
    assert ReadServers([l]) == [ReadServer(l)] + ReadServers([]);
  }

  /** The blank lines and backends of a `range`. */
  lemma {:induction false} ReadEach(bs: seq<Backend>)
    requires forall b :: b in bs ==> Separate(b.address) && Separate(b.failTimeout)
    ensures Read(Each(bs, BackendLines)) == bs
  {
    hide Read, ServerLine;
    BlankQuiet();
    ReadQuiet([""]);
    if bs != [] {
      ReadEach(bs[1..]);
      ReadOne(bs[0]);
      ReadAppend([""], BackendLines(bs[0]));
      ReadAppend([""] + BackendLines(bs[0]), Each(bs[1..], BackendLines));
      assert [bs[0]] + bs[1..] == bs;
    }
  }

  // ---------------------------------------------------------------- the other lines

  lemma BlankQuiet()
    ensures Quiet("")
  {
    SplitNone("", '\n');
  }

  /** A line without breaks that differs from a `server` line in one of its first characters. */
  lemma OtherQuiet(s: string, i: nat)
    requires '\n' !in s && i < |ServerPrefix()| && (i < |s| ==> s[i] != ServerPrefix()[i])
    ensures Quiet(s)
  {
    SplitNone(s, '\n');
    if i < |s| {
      StartsAlike(s, ServerPrefix(), i);
    }
  }

  lemma PrefixChars()
    ensures |ServerPrefix()| == 11 && ServerPrefix()[0] == ' ' && ServerPrefix()[4] == 's'
  {
    assert ServerPrefix() == [' ', ' ', ' ', ' ', 's', 'e', 'r', 'v', 'e', 'r', ' '];
  }

  lemma {:induction false} ArgsUnbroken(args: seq<string>)
    requires forall a :: a in args ==> '\n' !in a
    ensures '\n' !in Args(args)
  {
    if args != [] {
      ArgsUnbroken(args[1..]);
    }
  }

  lemma {:induction false} PadUnbroken(n: nat)
    ensures '\n' !in Pad(n) && |Pad(n)| == n && forall i :: 0 <= i < n ==> Pad(n)[i] == ' '
  {
    if n > 0 {
      PadUnbroken(n - 1);
    }
  }

  lemma DirQuiet(name: string, args: seq<string>)
    requires name != "" && name[0] != 's' && '\n' !in name
    requires forall a :: a in args ==> '\n' !in a
    ensures Quiet(Dir(4, name, args))
  {
    hide Quiet, Pad, Args, ServerPrefix;
    ArgsUnbroken(args);
    PadUnbroken(4);
    PrefixChars();
    assert Dir(4, name, args)[4] == name[0];
    OtherQuiet(Dir(4, name, args), 4);
  }

  lemma ServerUnbroken(b: Backend)
    requires Separate(b.address) && Separate(b.failTimeout)
    ensures '\n' !in ServerLine(b)
  {
    hide Pad, Args, Itoa, ServerParams;
    IntRoundTrip(b.port);
    PadUnbroken(4);
    ParamsOneLine(b);
    var args := [b.address + COLON + Itoa(b.port)] + ServerParams(b);
    assert forall a :: a in args ==> '\n' !in a;
    ArgsUnbroken(args);
  }

  lemma ParamsOneLine(b: Backend)
    requires '\n' !in b.failTimeout
    ensures OneLine(ServerParams(b))
  {
    hide Itoa;
    IntRoundTrip(b.weight);
    IntRoundTrip(b.maxConnections);
    IntRoundTrip(b.maxFails);
    assert OneLine([WEIGHT_IS + Itoa(b.weight), MAX_CONNS_IS + Itoa(b.maxConnections), MAX_FAILS_IS + Itoa(b.maxFails)]);
    assert OneLine([FAIL_TIMEOUT_IS + b.failTimeout, BACKUP, DOWN]);
  }

  predicate OneLine(words: seq<string>) {
    forall w :: w in words ==> '\n' !in w
  }

  // the parts of the block
  lemma AlgorithmQuiet(d: UpstreamData)
    ensures Read(Section(AlgorithmLines(d))) == []
  {
    hide Quiet, Read, Dir, LEAST_CONN, IP_HASH, RANDOM;
    BlankQuiet();
    KeywordQuiet(d.randomTwoChoices);
    ReadQuiet(Section(AlgorithmLines(d)));
  }

  lemma KeywordQuiet(two: bool)
    ensures Quiet(Dir(4, LEAST_CONN, [])) && Quiet(Dir(4, IP_HASH, []))
    ensures Quiet(Dir(4, RANDOM, if two then [TWO, LEAST_CONN] else []))
  {
    hide Quiet, Dir;
    DirQuiet(LEAST_CONN, []);
    DirQuiet(IP_HASH, []);
    DirQuiet(RANDOM, if two then [TWO, LEAST_CONN] else []);
  }

  lemma KeepaliveQuiet(d: UpstreamData)
    requires '\n' !in d.keepaliveTimeout
    ensures Read(KeepaliveLines(d)) == []
  {
    hide Quiet, Read, Dir, Itoa;
    IntRoundTrip(d.keepalive);
    IntRoundTrip(d.keepaliveRequests);
    DirQuiet(KEEPALIVE, [Itoa(d.keepalive)]);
    DirQuiet(KEEPALIVE_TIMEOUT, [d.keepaliveTimeout]);
    DirQuiet(KEEPALIVE_REQUESTS, [Itoa(d.keepaliveRequests)]);
    ReadQuiet(KeepaliveLines(d));
  }

  lemma TitleQuiet()
    ensures Quiet(Title(4, CUSTOM_UPSTREAM_SNIPPET_TITLE))
  {
    hide Quiet, Pad, ServerPrefix;
    PadUnbroken(4);
    PrefixChars();
    var title := Title(4, CUSTOM_UPSTREAM_SNIPPET_TITLE);
    assert title[4] == '#';
    OtherQuiet(title, 4);
  }

  lemma SnippetQuiet(snippet: string)
    requires Quiet(Verbatim(4, snippet))
    ensures Read(SnippetLines(4, CUSTOM_UPSTREAM_SNIPPET_TITLE, 4, snippet)) == []
  {
    hide Quiet, Read, Title, Verbatim;
    BlankQuiet();
    TitleQuiet();
    ReadQuiet(SnippetLines(4, CUSTOM_UPSTREAM_SNIPPET_TITLE, 4, snippet));
  }

  lemma FrameQuiet(name: string)
    requires '\n' !in name
    ensures Read([UPSTREAM_COMMENT + name]) == [] && Read([Open(0, UpstreamHead(name))]) == [] && Read([Close(0)]) == []
  {
    hide Quiet, Read, ServerPrefix;
    PrefixChars();
    assert Pad(0) == "";
    var comment, open, close := UPSTREAM_COMMENT + name, Open(0, UpstreamHead(name)), Close(0);
    assert comment[0] == '#' && open[0] == 'u' && close[0] == '}';
    OtherQuiet(comment, 0);
    OtherQuiet(open, 0);
    OtherQuiet(close, 0);
    ReadQuiet([comment]);
    ReadQuiet([open]);
    ReadQuiet([close]);
  }

  lemma InnerReadBack(d: UpstreamData)
    requires Readable(d)
    ensures Read(UpstreamInner(d)) == d.backends
  {
    hide Read, Quiet, Section, AlgorithmLines, KeepaliveLines, SnippetLines, Each, BackendLines, Verbatim;
    var a, e, k, s := Section(AlgorithmLines(d)), Each(d.backends, BackendLines), KeepaliveLines(d),
      SnippetLines(4, CUSTOM_UPSTREAM_SNIPPET_TITLE, 4, d.snippet);
    AlgorithmQuiet(d);
    ReadEach(d.backends);
    KeepaliveQuiet(d);
    SnippetQuiet(d.snippet);
    ReadStack(a, e, k, s);
  }

  lemma ReadStack(a: seq<string>, b: seq<string>, c: seq<string>, d: seq<string>)
    ensures Read(Stack([a, b, c, d])) == Read(a) + Read(b) + Read(c) + Read(d)
  {
    hide Read, Quiet;
    BlankQuiet();
    ReadQuiet([""]);
    assert [a, b, c, d][1..] == [b, c, d] && [b, c, d][1..] == [c, d] && [c, d][1..] == [d];
    assert Stack([d]) == d && Stack([c, d]) == c + [""] + Stack([d]);
    assert Stack([b, c, d]) == b + [""] + Stack([c, d]);
    ReadAppend(c, [""]);
    ReadAppend(c + [""], d);
    ReadAppend(b, [""]);
    ReadAppend(b + [""], c + [""] + d);
    ReadAppend(a, [""]);
    ReadAppend(a + [""], b + [""] + (c + [""] + d));
  }

  /** What a block must be like to be read back: no line but those of its backends looks like one. */
  predicate Readable(d: UpstreamData) {
    && '\n' !in d.name && '\n' !in d.keepaliveTimeout && Quiet(Verbatim(4, d.snippet))
    && forall b :: b in d.backends ==> Separate(b.address) && Separate(b.failTimeout)
  }

  /** Parse-back: reading the text of a rendered upstream block gives its list of backends, in order. */
  lemma BlockReadBack(d: UpstreamData)
    requires Readable(d)
    ensures ReadServers(Lines(Unlines(UpstreamLines(d)))) == d.backends
  {
    hide ReadServers, Lines, Unlines, Pieces, UpstreamInner, Open, Close, UpstreamHead;
    LinesOfPieces(UpstreamLines(d));
    var inner := UpstreamInner(d);
    var comment, open, close := [UPSTREAM_COMMENT + d.name], [Open(0, UpstreamHead(d.name))], [Close(0)];
    FrameQuiet(d.name);
    InnerReadBack(d);
    ReadAppend(open, inner);
    ReadAppend(open + inner, close);
    ReadAppend(comment, open + inner + close);
    assert UpstreamLines(d) == comment + (open + inner + close);
    assert Read(UpstreamLines(d)) == [] + ([] + d.backends + []);
  }

  /** So rendering loses nothing: blocks with the same text have the same backends. */
  lemma RenderingInjective(d: UpstreamData, e: UpstreamData)
    requires Readable(d) && Readable(e)
    requires Unlines(UpstreamLines(d)) == Unlines(UpstreamLines(e))
    ensures d.backends == e.backends
  {
    hide Lines, Unlines, UpstreamLines, ReadServers;
    BlockReadBack(d);
    BlockReadBack(e);
  }
}
