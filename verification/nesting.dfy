/**
 What a rendered section inherits from the strings that are interpolated in it, for two aspects of text. Braces:
 from balanced strings come sections that are balanced as a whole; text is scanned brace by brace, as `Nest` does.
 Line breaks: from strings without breaks come lines without breaks, snippets apart.
 */
module Nesting {
  import opened Api
  import opened Reader
  import opened Render
  import opened Text
  import opened Words

  /** The depth after scanning s from depth d; None if it ever drops below zero. */
  function Nest(d: nat, s: string): Option<nat>
    decreases |s|
  {
    if s == "" then Some(d)
    else if s[0] == '{' then Nest(d + 1, s[1..])
    else if s[0] == '}' then if d == 0 then None else Nest(d - 1, s[1..])
    else Nest(d, s[1..])
  }

  /** From any depth, s never drops below it and comes back to it. */
  ghost predicate Balanced(s: string) {
    forall d: nat :: Nest(d, s) == Some(d)
  }

  /** It is enough to look at depth zero. */
  lemma {:induction false} NestHigher(d: nat, e: nat, s: string)
    requires Nest(d, s).Some?
    ensures Nest(d + e, s) == Some(Nest(d, s).value + e)
    decreases |s|
  {
    if s != "" {
      NestHigher(if s[0] == '{' then d + 1 else if s[0] == '}' then d - 1 else d, e, s[1..]);
    }
  }

  lemma BalancedFromZero(s: string)
    ensures Balanced(s) <==> Nest(0, s) == Some(0)
  {
    if Nest(0, s) == Some(0) {
      forall d: nat
        ensures Nest(d, s) == Some(d)
      {
        NestHigher(0, d, s);
      }
    }
  }

  // ---------------------------------------------------------------- rules for text

  lemma {:induction false} NestPlain(d: nat, s: string)
    requires Fixed(s)
    ensures Nest(d, s) == Some(d)
  {
    if s != "" {
      NestPlain(d, s[1..]);
    }
  }

  lemma {:induction false} NestAppend(d: nat, a: string, b: string)
    ensures Nest(d, a + b) == if Nest(d, a).None? then None else Nest(Nest(d, a).value, b)
    decreases |a|
  {
    if a == "" {
      assert a + b == b;
    } else {
      assert (a + b)[1..] == a[1..] + b;
      NestAppend(if a[0] == '{' then d + 1 else if a[0] == '}' && d > 0 then d - 1 else d, a[1..], b);
    }
  }

  lemma BalanceRules()
    ensures Balanced("") && Balanced("\n") && Balanced(" ") && Balanced(";")
    ensures forall s :: Fixed(s) ==> Balanced(s)
    ensures forall s :: Solid(s) ==> Balanced(s)
    ensures forall a, b {:trigger Balanced(a + b)} :: Balanced(a) && Balanced(b) ==> Balanced(a + b)
  {
    assert forall d: nat :: Nest(d, "\n") == Nest(d, "");
    assert forall d: nat :: Nest(d, " ") == Nest(d, "");
    assert forall d: nat :: Nest(d, ";") == Nest(d, "");
    forall s | Fixed(s) || Solid(s)
      ensures Balanced(s)
    {
      forall d: nat
        ensures Nest(d, s) == Some(d)
      {
        NestPlain(d, s);
      }
    }
    forall a: string, b: string | Balanced(a) && Balanced(b)
      ensures Balanced(a + b)
    {
      forall d: nat
        ensures Nest(d, a + b) == Some(d)
      {
        NestAppend(d, a, b);
      }
    }
  }

  // ---------------------------------------------------------------- aspects

  /**
   Braces; line breaks, where before the first location the reader is content with less; or line breaks with no
   conditions on snippets.
   */
  datatype Aspect = Braces | Breaks(early: bool) | Free

  /** What an interpolated string must be: balanced, or without line breaks. */
  ghost predicate Clean(w: Aspect, s: string) {
    if w.Braces? then Balanced(s) else '\n' !in s
  }

  ghost predicate AllClean(w: Aspect, lines: seq<string>) {
    forall l :: l in lines ==> Clean(w, l)
  }

  /** One line of text, or several that the reader passes over. */
  ghost predicate Tame(early: bool, line: string) {
    '\n' !in line || (OpensNone(line) && (early || HandlesNone(line)))
  }

  /** What rendered lines are: balanced, taken together; or each of them tame. */
  ghost predicate Level(w: Aspect, lines: seq<string>) {
    match w
    case Braces => Balanced(Unlines(lines))
    case Breaks(early) => forall l :: l in lines ==> Tame(early, l)
    case Free => true
  }

  /** Snippets are the user's own lines: balanced, or such that the reader passes over them where they stand. */
  ghost predicate CleanSnippet(w: Aspect, indent: nat, snippet: string) {
    match w
    case Braces => Balanced(snippet)
    case Breaks(early) => OpensNone(Verbatim(indent, snippet)) && (early || HandlesNone(Verbatim(indent, snippet)))
    case Free => true
  }

  lemma PlainRules(w: Aspect)
    ensures Clean(w, "") && Clean(w, " ") && Clean(w, ";")
    ensures forall s :: Fixed(s) ==> Clean(w, s)
    ensures forall s :: Solid(s) ==> Clean(w, s)
    ensures forall a, b {:trigger Clean(w, a + b)} :: Clean(w, a) && Clean(w, b) ==> Clean(w, a + b)
  {
    hide Balanced;
    if w.Braces? {
      BalanceRules();
    }
  }

  lemma {:induction false} PadClean(w: Aspect, n: nat)
    ensures Clean(w, Pad(n))
  {
    PlainRules(w);
    if n > 0 {
      PadClean(w, n - 1);
    }
  }

  lemma {:induction false} ArgsClean(w: Aspect, args: seq<string>)
    requires AllClean(w, args)
    ensures Clean(w, Args(args))
  {
    PlainRules(w);
    if args != [] {
      ArgsClean(w, args[1..]);
      assert Clean(w, " " + args[0]);
    }
  }

  lemma {:induction false} JoinClean(w: Aspect, sep: string, parts: seq<string>)
    requires Clean(w, sep) && AllClean(w, parts)
    ensures Clean(w, Join(sep, parts))
  {
    PlainRules(w);
    if |parts| > 1 {
      JoinClean(w, sep, parts[1..]);
      assert Clean(w, parts[0] + sep);
    }
  }

  lemma DirClean(w: Aspect, indent: nat, name: string, args: seq<string>)
    requires Clean(w, name) && AllClean(w, args)
    ensures Clean(w, Dir(indent, name, args))
  {
    PlainRules(w);
    PadClean(w, indent);
    ArgsClean(w, args);
    hide Clean;
    assert Clean(w, ";");
  }

  lemma TitleClean(w: Aspect, indent: nat, text: string)
    requires Clean(w, text)
    ensures Clean(w, Title(indent, text))
  {
    PlainRules(w);
    PadClean(w, indent);
    hide Clean;
    assert Clean(w, "# --- ");
    assert Clean(w, " ---");
  }

  lemma NumberClean(w: Aspect, n: int)
    ensures Clean(w, Itoa(n))
  {
    PlainRules(w);
    IntRoundTrip(n);
    hide Clean, Itoa;
  }

  lemma VerbatimClean(w: Aspect, indent: nat, text: string)
    requires Clean(w, text)
    ensures Clean(w, Verbatim(indent, text))
  {
    PlainRules(w);
    PadClean(w, indent);
  }

  lemma QuotedClean(w: Aspect, s: string)
    requires Clean(w, s)
    ensures Clean(w, Quoted(s))
  {
    PlainRules(w);
    hide Clean;
    assert Clean(w, "\"");
  }

  /** All the rules for pieces of text at once. */
  lemma TextRules(w: Aspect)
    ensures Clean(w, "")
    ensures forall s :: Fixed(s) ==> Clean(w, s)
    ensures forall s :: Solid(s) ==> Clean(w, s)
    ensures forall a, b {:trigger Clean(w, a + b)} :: Clean(w, a) && Clean(w, b) ==> Clean(w, a + b)
    ensures forall n :: Clean(w, Itoa(n))
    ensures forall i, t :: Clean(w, t) ==> Clean(w, Verbatim(i, t))
    ensures forall i, t :: Clean(w, t) ==> Clean(w, Title(i, t))
    ensures forall s :: Clean(w, s) ==> Clean(w, Quoted(s))
    ensures forall sep, ps :: Clean(w, sep) && AllClean(w, ps) ==> Clean(w, Join(sep, ps))
    ensures forall i, n, args :: Clean(w, n) && AllClean(w, args) ==> Clean(w, Dir(i, n, args))
  {
    PlainRules(w);
    forall n: int
      ensures Clean(w, Itoa(n))
    {
      NumberClean(w, n);
    }
    forall i, t | Clean(w, t)
      ensures Clean(w, Verbatim(i, t)) && Clean(w, Title(i, t))
    {
      VerbatimClean(w, i, t);
      TitleClean(w, i, t);
    }
    forall s | Clean(w, s)
      ensures Clean(w, Quoted(s))
    {
      QuotedClean(w, s);
    }
    forall sep, ps | Clean(w, sep) && AllClean(w, ps)
      ensures Clean(w, Join(sep, ps))
    {
      JoinClean(w, sep, ps);
    }
    forall i, n, args | Clean(w, n) && AllClean(w, args)
      ensures Clean(w, Dir(i, n, args))
    {
      DirClean(w, i, n, args);
    }
  }

  // ---------------------------------------------------------------- rules for lines

  lemma {:induction false} BalancedLines(lines: seq<string>)
    requires forall l :: l in lines ==> Balanced(l)
    ensures Balanced(Unlines(lines))
  {
    BalanceRules();
    if lines != [] {
      BalancedLines(lines[1..]);
      assert Balanced(lines[0] + "\n");
    }
  }

  /** Opening, something balanced, and closing again. */
  lemma BalancedBlock(indent: nat, head: string, inner: seq<string>)
    requires Balanced(head) && Balanced(Unlines(inner))
    ensures Balanced(Unlines(Block(indent, head, inner)))
  {
    var open, close := Open(indent, head), Close(indent);
    var text := Unlines(inner);
    UnlinesAppend([open], inner);
    UnlinesAppend([open] + inner, [close]);
    assert Unlines([open]) == open + "\n" && Unlines([close]) == close + "\n" by {
      assert [open][1..] == [] && [close][1..] == [];
    }
    forall d: nat
      ensures Nest(d, Unlines(Block(indent, head, inner))) == Some(d)
    {
      OpenNests(d, indent, head);
      CloseNests(d, indent);
      NestAppend(d, open + "\n", text);
      NestAppend(d, open + "\n" + text, close + "\n");
      assert Nest(d + 1, text) == Some(d + 1);
    }
  }

  lemma OpenNests(d: nat, indent: nat, head: string)
    requires Balanced(head)
    ensures Nest(d, Open(indent, head) + "\n") == Some(d + 1)
  {
    BalanceRules();
    PadClean(Braces, indent);
    var before := Pad(indent) + head + " ";
    assert Balanced(before) by {
      assert Balanced(" ");
    }
    assert Open(indent, head) + "\n" == before + "{" + "\n";
    NestAppend(d, before, "{");
    NestAppend(d, before + "{", "\n");
    assert Nest(d, "{") == Some(d + 1) && Balanced("\n");
  }

  lemma CloseNests(d: nat, indent: nat)
    ensures Nest(d + 1, Close(indent) + "\n") == Some(d)
  {
    BalanceRules();
    PadClean(Braces, indent);
    NestAppend(d + 1, Pad(indent), "}");
    NestAppend(d + 1, Pad(indent) + "}", "\n");
    assert Nest(d + 1, "}") == Some(d) && Balanced("\n");
  }

  lemma LevelFromLines(w: Aspect, lines: seq<string>)
    requires AllClean(w, lines)
    ensures Level(w, lines)
  {
    hide Balanced;
    if w.Braces? {
      BalancedLines(lines);
    }
  }

  lemma LevelAppend(w: Aspect, a: seq<string>, b: seq<string>)
    requires Level(w, a) && Level(w, b)
    ensures Level(w, a + b)
  {
    hide Balanced, Tame;
    if w.Braces? {
      BalanceRules();
      UnlinesAppend(a, b);
    }
  }

  lemma LevelBlock(w: Aspect, indent: nat, head: string, inner: seq<string>)
    requires Clean(w, head) && Level(w, inner)
    ensures Level(w, Block(indent, head, inner))
  {
    hide Balanced;
    if w.Braces? {
      BalancedBlock(indent, head, inner);
    } else {
      PadClean(w, indent);
      assert '\n' !in Open(indent, head) && '\n' !in Close(indent);
    }
  }

  lemma LevelSnippet(w: Aspect, indent: nat, snippet: string)
    requires CleanSnippet(w, indent, snippet)
    ensures Level(w, [Verbatim(indent, snippet)])
  {
    hide Balanced;
    if w.Braces? {
      VerbatimClean(w, indent, snippet);
      LevelFromLines(w, [Verbatim(indent, snippet)]);
    }
  }

  lemma LevelSection(w: Aspect, body: Option<seq<string>>)
    requires body.Some? ==> Level(w, body.value)
    ensures Level(w, Section(body))
  {
    PlainRules(w);
    LevelFromLines(w, [""]);
    if body.Some? {
      LevelAppend(w, [""], body.value);
      LevelAppend(w, [""] + body.value, [""]);
    }
  }

  lemma {:induction false} LevelEach<T>(w: Aspect, xs: seq<T>, item: T -> seq<string>)
    requires forall x :: x in xs ==> Level(w, item(x))
    ensures Level(w, Each(xs, item))
  {
    PlainRules(w);
    LevelFromLines(w, [""]);
    if xs != [] {
      LevelEach(w, xs[1..], item);
      LevelAppend(w, [""], item(xs[0]));
      LevelAppend(w, [""] + item(xs[0]), Each(xs[1..], item));
    }
  }

  lemma {:induction false} LevelStack(w: Aspect, parts: seq<seq<string>>)
    requires forall p :: p in parts ==> Level(w, p)
    ensures Level(w, Stack(parts))
  {
    PlainRules(w);
    if |parts| > 1 {
      LevelStack(w, parts[1..]);
      LevelFromLines(w, [""]);
      LevelAppend(w, parts[0], [""]);
      LevelAppend(w, parts[0] + [""], Stack(parts[1..]));
    }
  }

  /** All the rules for lines at once. */
  lemma LineRules(w: Aspect)
    ensures Level(w, [""])
    ensures forall ls :: AllClean(w, ls) ==> Level(w, ls)
    ensures forall a, b {:trigger Level(w, a + b)} :: Level(w, a) && Level(w, b) ==> Level(w, a + b)
    ensures forall i, h, ls :: Clean(w, h) && Level(w, ls) ==> Level(w, Block(i, h, ls))
    ensures forall ps :: (forall p :: p in ps ==> Level(w, p)) ==> Level(w, Stack(ps))
    ensures forall b: Option<seq<string>> :: (b.Some? ==> Level(w, b.value)) ==> Level(w, Section(b))
  {
    PlainRules(w);
    LevelFromLines(w, [""]);
    forall ls | AllClean(w, ls)
      ensures Level(w, ls)
    {
      LevelFromLines(w, ls);
    }
    forall a: seq<string>, b: seq<string> | Level(w, a) && Level(w, b)
      ensures Level(w, a + b)
    {
      LevelAppend(w, a, b);
    }
    forall i, h, ls | Clean(w, h) && Level(w, ls)
      ensures Level(w, Block(i, h, ls))
    {
      LevelBlock(w, i, h, ls);
    }
    forall ps: seq<seq<string>> | forall p :: p in ps ==> Level(w, p)
      ensures Level(w, Stack(ps))
    {
      LevelStack(w, ps);
    }
    forall b: Option<seq<string>> | b.Some? ==> Level(w, b.value)
      ensures Level(w, Section(b))
    {
      LevelSection(w, b);
    }
  }
}
