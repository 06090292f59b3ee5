/**
 A reader of server blocks: the locations in order, and the directives that handle requests in each. It looks only
 at how lines begin: a line that opens a location begins a new entry, and a `proxy_pass`, `root` or `return` at the
 depth of a location's body belongs to the entry it follows.
 */
module Reader {
  import opened Render
  import S = ServerLines
  import opened Words

  datatype Found = Found(head: string, handlers: seq<string>)

  predicate IsLocation(line: string) {
    S.StartsWith(line, Pad(4) + LOCATION)
  }

  predicate IsHandler(line: string) {
    || S.StartsWith(line, Pad(8) + PROXY_PASS + " ")
    || S.StartsWith(line, Pad(8) + ROOT + " ")
    || S.StartsWith(line, Pad(8) + RETURN + " ")
  }

  function Next(found: seq<Found>, line: string): seq<Found> {
    if IsLocation(line) then found + [Found(line, [])]
    else if IsHandler(line) && found != [] then
      var last := found[|found| - 1];
      found[|found| - 1 := last.(handlers := last.handlers + [line])]
    else found
  }

  function ReadLocations(found: seq<Found>, lines: seq<string>): seq<Found>
    decreases |lines|
  {
    if lines == [] then found else ReadLocations(Next(found, lines[0]), lines[1..])
  }

  lemma {:induction false} ReadAppend(found: seq<Found>, a: seq<string>, b: seq<string>)
    ensures ReadLocations(found, a + b) == ReadLocations(ReadLocations(found, a), b)
    decreases |a|
  {
    hide Next;
    if a == [] {
      assert a + b == b;
    } else {
      assert (a + b)[1..] == a[1..] + b;
      ReadAppend(Next(found, a[0]), a[1..], b);
    }
  }

  /** No line of this text opens a location. */
  predicate OpensNone(text: string) {
    forall p :: p in S.Split(text, '\n') ==> !IsLocation(p)
  }

  /** Nor does any of them handle requests. */
  predicate HandlesNone(text: string) {
    forall p :: p in S.Split(text, '\n') ==> !IsHandler(p)
  }
}
