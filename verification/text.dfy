/** Strings as the generator needs them: decimal numbers, joining, and lines. */
module Text {

  // ---------------------------------------------------------------- numbers

  predicate IsDigit(c: char) { '0' <= c <= '9' }

  function Digit(d: nat): (c: char)
    requires d < 10
    ensures IsDigit(c)
  {
    ('0' as int + d) as char
  }

  function Value(c: char): nat
    requires IsDigit(c)
  {
    c as int - '0' as int
  }

  predicate AllDigits(s: string) {
    forall i :: 0 <= i < |s| ==> IsDigit(s[i])
  }

  function NatText(n: nat): (s: string)
    ensures s != [] && AllDigits(s)
  {
    if n < 10 then [Digit(n)] else NatText(n / 10) + [Digit(n % 10)]
  }

  /** fmt's %d, and what a template prints for an int32. */
  function Itoa(n: int): string {
    if n < 0 then "-" + NatText(-n) else NatText(n)
  }

  function ReadNat(s: string): nat
    requires AllDigits(s)
  {
    if s == [] then 0 else ReadNat(s[..|s| - 1]) * 10 + Value(s[|s| - 1])
  }

  predicate IsNumber(s: string) {
    s != [] && (AllDigits(s) || (s[0] == '-' && s[1..] != [] && AllDigits(s[1..])))
  }

  function ReadInt(s: string): int
    requires IsNumber(s)
  {
    if AllDigits(s) then ReadNat(s) else -(ReadNat(s[1..]) as int)
  }

  lemma {:induction false} NatRoundTrip(n: nat)
    ensures ReadNat(NatText(n)) == n
  {
    if n >= 10 {
      NatRoundTrip(n / 10);
      var s := NatText(n);
      assert s[..|s| - 1] == NatText(n / 10);
    }
  }

  lemma IntRoundTrip(n: int)
    ensures IsNumber(Itoa(n)) && ReadInt(Itoa(n)) == n
    ensures forall c :: c in Itoa(n) ==> c == '-' || IsDigit(c)
  {
    if n < 0 {
      NatRoundTrip(-n);
      assert Itoa(n)[1..] == NatText(-n);
    } else {
      NatRoundTrip(n);
    }
  }

  // ---------------------------------------------------------------- joining

  /** strings.Join. */
  function Join(sep: string, parts: seq<string>): string {
    if parts == [] then ""
    else if |parts| == 1 then parts[0]
    else parts[0] + sep + Join(sep, parts[1..])
  }

  // ---------------------------------------------------------------- lines

  /** The text of a list of lines, each ended by a newline. */
  function Unlines(lines: seq<string>): string {
    if lines == [] then "" else lines[0] + "\n" + Unlines(lines[1..])
  }

  lemma {:induction false} UnlinesAppend(a: seq<string>, b: seq<string>)
    ensures Unlines(a + b) == Unlines(a) + Unlines(b)
  {
    if a == [] {
      assert a + b == b;
    } else {
      assert (a + b)[1..] == a[1..] + b;
      UnlinesAppend(a[1..], b);
    }
  }

  /** The lines of a text: the pieces that newlines end, and a last piece if one is left. */
  function Lines(text: string): seq<string> {
    if text == "" then []
    else
      var n := IndexOf(text, '\n');
      if n == |text| then [text] else [text[..n]] + Lines(text[n + 1..])
  }

  /** The first index at which `c` stands, or the length. */
  function IndexOf(s: string, c: char): (n: nat)
    ensures n <= |s| && c !in s[..n]
    ensures n < |s| ==> s[n] == c
  {
    if s == [] then 0 else if s[0] == c then 0 else 1 + IndexOf(s[1..], c)
  }

  lemma {:induction false} IndexOfFirst(a: string, c: char, b: string)
    requires c !in a
    ensures IndexOf(a + [c] + b, c) == |a|
  {
    var s := a + [c] + b;
    assert s[|a|] == c && s[..|a|] == a;
  }

  /** The first line of a text that starts with a newline-free line. */
  lemma {:induction false} LinesCons(line: string, rest: string)
    requires '\n' !in line
    ensures Lines(line + "\n" + rest) == [line] + Lines(rest)
  {
    IndexOfFirst(line, '\n', rest);
    var text := line + "\n" + rest;
    assert text == line + ['\n'] + rest;
    assert text[..|line|] == line && text[|line| + 1..] == rest;
  }
}
