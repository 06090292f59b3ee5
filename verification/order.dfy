/**
 Order independence: listings come in any order, and sort.Slice may leave routes of one priority in any order.
 */
module Order {
  import opened Api
  import C = Closure
  import opened Generator
  import opened Templates

  // ---------------------------------------------------------------- sorted lists and their keys

  /** An element with the priority it is sorted by. */
  type Keyed<T> = (int, T)

  ghost predicate InKeyOrder<T>(s: seq<Keyed<T>>) {
    forall i, j :: 0 <= i < j < |s| ==> s[i].0 <= s[j].0
  }

  /** The key tells which element it is. */
  ghost predicate Determined<T>(s: seq<Keyed<T>>) {
    forall x, y :: x in s && y in s && x.0 == y.0 ==> x == y
  }

  lemma SameElements<T>(a: seq<T>, b: seq<T>, x: T)
    requires multiset(a) == multiset(b)
    ensures x in a <==> x in b
  {
    assert x in a <==> x in multiset(a);
    assert x in b <==> x in multiset(b);
  }

  lemma LeastFirst<T>(s: seq<Keyed<T>>, x: Keyed<T>)
    requires InKeyOrder(s) && x in s
    ensures s[0].0 <= x.0
  {
    var i :| 0 <= i < |s| && s[i] == x;
  }

  lemma WithoutOne<T>(s: seq<T>, i: nat)
    requires i < |s|
    ensures multiset(s[..i] + s[i + 1..]) == multiset(s) - multiset{s[i]}
  {
    assert s == s[..i] + ([s[i]] + s[i + 1..]);
  }

  lemma WithoutFirst<T>(s: seq<T>)
    requires s != []
    ensures multiset(s[1..]) == multiset(s) - multiset{s[0]}
  {
    assert s == [s[0]] + s[1..];
  }

  lemma SameLength<T>(a: seq<T>, b: seq<T>)
    requires multiset(a) == multiset(b)
    ensures |a| == |b|
  {
    assert |a| == |multiset(a)| && |b| == |multiset(b)|;
  }

  lemma TailKeeps<T>(s: seq<Keyed<T>>)
    requires s != [] && InKeyOrder(s)
    ensures InKeyOrder(s[1..]) && (Determined(s) ==> Determined(s[1..]))
  {
    assert forall x :: x in s[1..] ==> x in s;
  }

  /** Sorted lists of the same elements are equal if keys determine elements. */
  lemma {:induction false} SortedOnce<T>(a: seq<Keyed<T>>, b: seq<Keyed<T>>)
    requires InKeyOrder(a) && InKeyOrder(b) && multiset(a) == multiset(b) && Determined(a)
    ensures a == b
  {
    SameLength(a, b);
    if a != [] {
      SameElements(a, b, a[0]);
      SameElements(a, b, b[0]);
      LeastFirst(a, b[0]);
      LeastFirst(b, a[0]);
      assert a[0] == b[0];
      TailKeeps(a);
      TailKeeps(b);
      WithoutFirst(a);
      WithoutFirst(b);
      hide InKeyOrder, Determined;
      SortedOnce(a[1..], b[1..]);
      HeadAndTail(a, b);
    } else {
      assert b == [];
    }
  }

  lemma HeadAndTail<T>(a: seq<T>, b: seq<T>)
    requires a != [] && b != [] && a[0] == b[0] && a[1..] == b[1..]
    ensures a == b
  {
    assert a == [a[0]] + a[1..] && b == [b[0]] + b[1..];
  }

  // ---------------------------------------------------------------- maps over permutations

  function Map<A, B>(f: A -> B, s: seq<A>): (r: seq<B>)
    ensures |r| == |s| && forall i :: 0 <= i < |s| ==> r[i] == f(s[i])
  {
    seq(|s|, i requires 0 <= i < |s| => f(s[i]))
  }

  lemma MapWithoutOne<A, B>(f: A -> B, s: seq<A>, i: nat)
    requires i < |s|
    ensures multiset(Map(f, s)) == multiset(Map(f, s[..i] + s[i + 1..])) + multiset{f(s[i])}
  {
    var m := Map(f, s);
    assert m == m[..i] + ([m[i]] + m[i + 1..]);
    assert Map(f, s[..i] + s[i + 1..]) == m[..i] + m[i + 1..];
  }

  /** A map of a permutation is a permutation of the map. */
  lemma {:induction false} MapPermutes<A, B>(f: A -> B, a: seq<A>, b: seq<A>)
    requires multiset(a) == multiset(b)
    ensures multiset(Map(f, a)) == multiset(Map(f, b))
    decreases |a|
  {
    hide Map;
    SameLength(a, b);
    if |a| == 0 {
      assert a == b;
    } else {
      SameElements(a, b, a[0]);
      var j :| 0 <= j < |b| && b[j] == a[0];
      var restA, restB := a[..0] + a[1..], b[..j] + b[j + 1..];
      SameWithoutOne(a, 0, b, j);
      MapPermutes(f, restA, restB);
      MapWithoutOne(f, a, 0);
      MapWithoutOne(f, b, j);
    }
  }

  lemma SameWithoutOne<T>(a: seq<T>, i: nat, b: seq<T>, j: nat)
    requires multiset(a) == multiset(b) && i < |a| && j < |b| && a[i] == b[j]
    ensures multiset(a[..i] + a[i + 1..]) == multiset(b[..j] + b[j + 1..])
    ensures |a[..i] + a[i + 1..]| < |a|
  {
    WithoutOne(a, i);
    WithoutOne(b, j);
  }

  // ---------------------------------------------------------------- routes of one priority

  function RouteText(r: Route, names: Names): seq<string> {
    if RouteResolves(r, names) then RouteLines(RouteOf(r, names)) else []
  }

  /** Routes of one priority render alike: trivially so when priorities are distinct. */
  ghost predicate TiesAgree(routes: seq<Route>, names: Names) {
    forall r, q :: r in routes && q in routes && r.spec.priority == q.spec.priority ==> RouteText(r, names) == RouteText(q, names)
  }

  ghost predicate DistinctPriorities(routes: seq<Route>) {
    forall i, j :: 0 <= i < j < |routes| ==> routes[i].spec.priority != routes[j].spec.priority
  }

  lemma DistinctAgree(routes: seq<Route>, names: Names)
    requires DistinctPriorities(routes)
    ensures TiesAgree(routes, names)
  {
    hide RouteText;
    forall r, q | r in routes && q in routes && r.spec.priority == q.spec.priority
      ensures r == q
    {
      var i :| 0 <= i < |routes| && routes[i] == r;
      var j :| 0 <= j < |routes| && routes[j] == q;
      assert i == j;
    }
  }

  function KeyedText(r: Route, names: Names): Keyed<seq<string>> {
    (r.spec.priority, RouteText(r, names))
  }

  lemma AllResolveSorted(routes: seq<Route>, sorted: seq<Route>, names: Names)
    requires SortOf(routes, sorted)
    ensures AllResolve(sorted, names) <==> AllResolve(routes, names)
  {
    hide RouteResolves, ByPriority;
    SortKeeps(routes, sorted);
  }

  /** If ties agree, any two correct sorts render the same server blocks in the same order. */
  lemma TiesSuffice(routes: seq<Route>, names: Names, a: seq<Route>, b: seq<Route>)
    requires SortOf(routes, a) && SortOf(routes, b) && TiesAgree(routes, names)
    requires AllResolve(a, names) && AllResolve(b, names)
    ensures RouteTexts(a, names) == RouteTexts(b, names)
  {
    hide RouteResolves, RouteLines, RouteOf;
    var f := (r: Route) => KeyedText(r, names);
    SortKeeps(routes, a);
    SortKeeps(routes, b);
    MapPermutes(f, a, b);
    KeyedSorted(f, a, names);
    KeyedSorted(f, b, names);
    KeyedDetermined(f, a, names);
    SortedOnce(Map(f, a), Map(f, b));
    SameLength(a, b);
    forall i | 0 <= i < |a|
      ensures RouteTexts(a, names)[i] == RouteTexts(b, names)[i]
    {
      assert Map(f, a)[i] == f(a[i]) && Map(f, b)[i] == f(b[i]);
      assert a[i] in a && b[i] in b;
      assert KeyedText(a[i], names) == KeyedText(b[i], names);
    }
  }

  lemma KeyedSorted(f: Route -> Keyed<seq<string>>, a: seq<Route>, names: Names)
    requires ByPriority(a) && forall r :: f(r) == KeyedText(r, names)
    ensures InKeyOrder(Map(f, a))
  {
    hide RouteText;
  }

  lemma KeyedDetermined(f: Route -> Keyed<seq<string>>, a: seq<Route>, names: Names)
    requires TiesAgree(a, names) && forall r :: f(r) == KeyedText(r, names)
    ensures Determined(Map(f, a))
  {
    hide RouteText;
    var m := Map(f, a);
    forall x, y | x in m && y in m && x.0 == y.0
      ensures x == y
    {
      var i :| 0 <= i < |m| && m[i] == x;
      var j :| 0 <= j < |m| && m[j] == y;
      assert a[i] in a && a[j] in a;
    }
  }

  function Insert(r: Route, sorted: seq<Route>): seq<Route> {
    if sorted == [] || r.spec.priority <= sorted[0].spec.priority then [r] + sorted
    else [sorted[0]] + Insert(r, sorted[1..])
  }

  lemma {:induction false} InsertSorts(r: Route, sorted: seq<Route>)
    requires ByPriority(sorted)
    ensures SortOf([r] + sorted, Insert(r, sorted))
    ensures forall x :: x in Insert(r, sorted) ==> x == r || x in sorted
  {
    if sorted == [] || r.spec.priority <= sorted[0].spec.priority {
      PriorityCons(r, sorted);
    } else {
      InsertSorts(r, sorted[1..]);
      PriorityCons(sorted[0], Insert(r, sorted[1..]));
      assert sorted == [sorted[0]] + sorted[1..];
    }
  }

  lemma PriorityCons(r: Route, sorted: seq<Route>)
    requires ByPriority(sorted) && forall x :: x in sorted ==> r.spec.priority <= x.spec.priority
    ensures ByPriority([r] + sorted)
  {
  }

  lemma SwapTies(a: seq<Route>, i: nat, j: nat)
    requires i < |a| && j < |a| && ByPriority(a) && a[i].spec.priority == a[j].spec.priority
    ensures multiset(Swapped(a, i, j)) == multiset(a) && ByPriority(Swapped(a, i, j))
  {
  }

  /** One correct sort: by insertion. */
  function Sorted(routes: seq<Route>): seq<Route> {
    if routes == [] then [] else Insert(routes[0], Sorted(routes[1..]))
  }

  lemma {:induction false} SortedSorts(routes: seq<Route>)
    ensures SortOf(routes, Sorted(routes))
  {
    if routes != [] {
      SortedSorts(routes[1..]);
      InsertSorts(routes[0], Sorted(routes[1..]));
      assert routes == [routes[0]] + routes[1..];
    }
  }

  /** If ties do not agree, two correct sorts render different texts. */
  lemma TiesMatter(routes: seq<Route>, names: Names) returns (a: seq<Route>, b: seq<Route>)
    requires AllResolve(routes, names) && !TiesAgree(routes, names)
    ensures SortOf(routes, a) && SortOf(routes, b) && AllResolve(a, names) && AllResolve(b, names)
    ensures RouteTexts(a, names) != RouteTexts(b, names)
  {
    hide RouteResolves, RouteLines, RouteOf, ByPriority;
    var r, q :| r in routes && q in routes && r.spec.priority == q.spec.priority && RouteText(r, names) != RouteText(q, names);
    a := Sorted(routes);
    SortedSorts(routes);
    SortKeeps(routes, a);
    var i :| 0 <= i < |a| && a[i] == r;
    var j :| 0 <= j < |a| && a[j] == q;
    b := Swapped(a, i, j);
    SwapTies(a, i, j);
    SortKeeps(routes, b);
    assert RouteText(b[i], names) == RouteText(q, names);
    assert RouteTexts(a, names)[i] == RouteText(r, names) && RouteTexts(b, names)[i] == RouteText(q, names);
  }

  ghost predicate SameUnderAnySort(routes: seq<Route>, names: Names)
    requires AllResolve(routes, names)
  {
    forall a, b :: SortOf(routes, a) && SortOf(routes, b) && AllResolve(a, names) && AllResolve(b, names)
      ==> RouteTexts(a, names) == RouteTexts(b, names)
  }

  /** The rendered server blocks are the same for every correct sort just when ties agree. */
  lemma SameUnderAnySortIff(routes: seq<Route>, names: Names)
    requires AllResolve(routes, names)
    ensures SameUnderAnySort(routes, names) <==> TiesAgree(routes, names)
  {
    hide RouteResolves, RouteText, TiesAgree;
    if TiesAgree(routes, names) {
      forall a, b | SortOf(routes, a) && SortOf(routes, b) && AllResolve(a, names) && AllResolve(b, names)
        ensures RouteTexts(a, names) == RouteTexts(b, names)
      {
        TiesSuffice(routes, names, a, b);
      }
    } else {
      var a, b := TiesMatter(routes, names);
    }
  }

  // ---------------------------------------------------------------- permuted listings

  ghost predicate UniqueNames(upstreams: seq<Upstream>) {
    forall i, j :: 0 <= i < j < |upstreams| ==> upstreams[i].key.name != upstreams[j].key.name
  }

  lemma OneOfName(upstreams: seq<Upstream>, name: string, u: Upstream)
    requires UniqueNames(upstreams) && u in upstreams && u.key.name == name
    ensures name in NamesOf(upstreams) && NamesOf(upstreams)[name] == BlockName(u.key)
  {
    hide BlockName, NamesOf;
    C.NamesKnown(upstreams, name);
    var j :| 0 <= j < |upstreams| && upstreams[j] == u;
    assert C.Lists(upstreams, name);
    var i :| 0 <= i < |upstreams| && upstreams[i].key.name == name && NamesOf(upstreams)[name] == BlockName(upstreams[i].key);
    assert i == j;
  }

  /** With unique names the name map does not depend on the order of the listing. */
  lemma NamesPermute(a: seq<Upstream>, b: seq<Upstream>)
    requires multiset(a) == multiset(b) && UniqueNames(a) && UniqueNames(b)
    ensures NamesOf(a) == NamesOf(b)
  {
    hide NamesOf, BlockName, UniqueNames;
    forall name
      ensures name in NamesOf(a) <==> name in NamesOf(b)
      ensures name in NamesOf(a) ==> NamesOf(a)[name] == NamesOf(b)[name]
    {
      C.NamesKnown(a, name);
      C.NamesKnown(b, name);
      if name in NamesOf(a) {
        var i :| 0 <= i < |a| && a[i].key.name == name;
        SameElements(a, b, a[i]);
        OneOfName(a, name, a[i]);
        OneOfName(b, name, a[i]);
      }
      if name in NamesOf(b) {
        var i :| 0 <= i < |b| && b[i].key.name == name;
        SameElements(a, b, b[i]);
        OneOfName(a, name, b[i]);
      }
    }
  }

  /** Unique names stay unique when the listing is permuted. */
  lemma {:induction false} UniquePermutes(a: seq<Upstream>, b: seq<Upstream>)
    requires multiset(a) == multiset(b) && UniqueNames(a)
    ensures UniqueNames(b)
  {
    forall i, j | 0 <= i < j < |b|
      ensures b[i].key.name != b[j].key.name
    {
      if b[i] == b[j] {
        TwiceInMultiset(b, i, j);
        OnceInMultiset(a, b[i]);
      } else {
        SameElements(a, b, b[i]);
        SameElements(a, b, b[j]);
        assert b[i] in b && b[j] in b;
        var x :| 0 <= x < |a| && a[x] == b[i];
        var y :| 0 <= y < |a| && a[y] == b[j];
        assert x != y;
      }
    }
  }

  lemma TwiceInMultiset<T>(s: seq<T>, i: nat, j: nat)
    requires i < j < |s| && s[i] == s[j]
    ensures multiset(s)[s[i]] >= 2
  {
    var rest := s[..j] + s[j + 1..];
    WithoutOne(s, j);
    assert rest[i] == s[i] && rest[i] in multiset(rest);
  }

  lemma {:induction false} OnceInMultiset(s: seq<Upstream>, u: Upstream)
    requires UniqueNames(s)
    ensures multiset(s)[u] <= 1
  {
    if s != [] {
      var n := |s| - 1;
      OnceInMultiset(s[..n], u);
      assert s == s[..n] + [s[n]];
      if u == s[n] {
        assert u !in s[..n];
      }
    }
  }

  lemma UpstreamTextsPermute(a: seq<Upstream>, b: seq<Upstream>)
    requires multiset(a) == multiset(b)
    ensures multiset(UpstreamTexts(a)) == multiset(UpstreamTexts(b))
  {
    hide UpstreamLines, UpstreamOf;
    var f := (u: Upstream) => UpstreamLines(UpstreamOf(u));
    MapPermutes(f, a, b);
    assert UpstreamTexts(a) == Map(f, a);
    assert UpstreamTexts(b) == Map(f, b);
  }

  /**
   Order independence: for any permutation of the routes and of the upstreams, and any correct sort, stable or
   not, generation succeeds or fails alike, the server blocks are the same text in the same order, and the
   upstream blocks are the same texts in some order.
   */
  lemma OrderIndependence(routes: seq<Route>, upstreams: seq<Upstream>, a: seq<Route>,
                          routes': seq<Route>, upstreams': seq<Upstream>, b: seq<Route>)
    requires multiset(routes) == multiset(routes') && multiset(upstreams) == multiset(upstreams')
    requires UniqueNames(upstreams) && TiesAgree(routes, NamesOf(upstreams))
    requires SortOf(routes, a) && SortOf(routes', b)
    ensures AllResolve(a, NamesOf(upstreams)) <==> AllResolve(b, NamesOf(upstreams'))
    ensures AllResolve(a, NamesOf(upstreams)) ==>
              RouteTexts(a, NamesOf(upstreams)) == RouteTexts(b, NamesOf(upstreams'))
    ensures multiset(UpstreamTexts(upstreams)) == multiset(UpstreamTexts(upstreams'))
  {
    hide NamesOf, RouteResolves, RouteText, TiesAgree, UniqueNames, ByPriority;
    UniquePermutes(upstreams, upstreams');
    NamesPermute(upstreams, upstreams');
    UpstreamTextsPermute(upstreams, upstreams');
    var names := NamesOf(upstreams);
    assert SortOf(routes, b);
    AllResolveSorted(routes, a, names);
    AllResolveSorted(routes, b, names);
    if AllResolve(a, names) {
      TiesSuffice(routes, names, a, b);
    }
  }
}
