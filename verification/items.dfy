/**
 A reader of configuration text, written without regard to the templates: line by line, what stands at which depth of
 indentation is a directive with its value, the opening of a block, its end, or part of a directive that goes on in the
 next line. Comments and blank lines say nothing.
 */
module Items {
  import opened Api
  import opened Nesting
  import opened Render
  import S = ServerLines
  import opened Templates
  import opened Text
  import opened Words

  datatype Item =
    | Directive(indent: nat, name: string, value: string)
    | Opening(indent: nat, head: string)
    | Closing(indent: nat)
    | Partial(indent: nat, text: string)

  function Leading(line: string): (n: nat)
    ensures n <= |line|
  {
    if line == "" || line[0] != ' ' then 0 else 1 + Leading(line[1..])
  }

  /** A line without its indentation. */
  function ReadText(indent: nat, text: string): seq<Item> {
    var n := |text|;
    if n == 0 || text[0] == '#' then []
    else if text == "}" then [Closing(indent)]
    else if n >= 2 && text[n - 2] == ' ' && text[n - 1] == '{' then [Opening(indent, text[..n - 2])]
    else if text[n - 1] == ';' then [ReadDirective(indent, text[..n - 1])]
    else [Partial(indent, text)]
  }

  /** The name ends at the first blank. */
  function ReadDirective(indent: nat, body: string): Item {
    var i := IndexOf(body, ' ');
    if i == |body| then Directive(indent, body, "") else Directive(indent, body[..i], body[i + 1..])
  }

  function ReadLine(line: string): seq<Item> {
    ReadText(Leading(line), line[Leading(line)..])
  }

  function ReadLines(lines: seq<string>): seq<Item> {
    if lines == [] then [] else ReadLine(lines[0]) + ReadLines(lines[1..])
  }

  /** What a text says. */
  function ItemsOf(text: string): seq<Item> {
    ReadLines(Lines(text))
  }

  lemma {:induction false} ReadLinesAppend(a: seq<string>, b: seq<string>)
    ensures ReadLines(a + b) == ReadLines(a) + ReadLines(b)
  {
    hide ReadLine;
    if a == [] {
      assert a + b == b;
    } else {
      assert (a + b)[1..] == a[1..] + b;
      ReadLinesAppend(a[1..], b);
    }
  }

  // ---------------------------------------------------------------- what is said, written down

  /** A directive of these words. */
  function Says(indent: nat, name: string, args: seq<string>): seq<Item> {
    [Directive(indent, name, Join(" ", args))]
  }

  function Maybe(present: bool, items: seq<Item>): seq<Item> {
    if present then items else []
  }

  function ForEach<T>(xs: seq<T>, items: T -> seq<Item>): seq<Item> {
    if xs == [] then [] else items(xs[0]) + ForEach(xs[1..], items)
  }

  function Within(indent: nat, head: string, items: seq<Item>): seq<Item> {
    [Opening(indent, head)] + items + [Closing(indent)]
  }

  /** What a snippet says by itself, rendered at this indentation. */
  function Own(indent: nat, snippet: string): seq<Item> {
    if snippet == "" then [] else ReadLines(S.Split(Verbatim(indent, snippet), '\n'))
  }

  // ---------------------------------------------------------------- lines of templates

  /** What the text of these template lines says. */
  function Said(lines: seq<string>): seq<Item> {
    ReadLines(S.Pieces(lines))
  }

  lemma SaidText(lines: seq<string>)
    ensures ItemsOf(Unlines(lines)) == Said(lines)
  {
    S.LinesOfPieces(lines);
  }

  lemma SaidAppend(a: seq<string>, b: seq<string>)
    ensures Said(a + b) == Said(a) + Said(b)
  {
    S.PiecesAppend(a, b);
    ReadLinesAppend(S.Pieces(a), S.Pieces(b));
  }

  lemma SaidOne(line: string)
    requires '\n' !in line
    ensures Said([line]) == ReadLine(line)
  {
    hide ReadLine;
    S.SplitNone(line, '\n');
    assert [line][1..] == [];
    assert S.Pieces([line]) == [line];
    assert ReadLines([line]) == ReadLine(line) + ReadLines([]);
  }

  lemma {:induction false} LeadingPad(n: nat, text: string)
    requires text == "" || text[0] != ' '
    ensures Leading(Pad(n) + text) == n && (Pad(n) + text)[n..] == text
  {
    S.PadUnbroken(n);
    if n == 0 {
      assert Pad(0) + text == text;
    } else {
      LeadingPad(n - 1, text);
      assert (Pad(n) + text)[1..] == Pad(n - 1) + text;
    }
  }

  lemma SaidPadded(n: nat, text: string)
    requires '\n' !in text && (text == "" || text[0] != ' ')
    ensures Said([Pad(n) + text]) == ReadText(n, text)
  {
    hide Pad, ReadText;
    S.PadUnbroken(n);
    LeadingPad(n, text);
    SaidOne(Pad(n) + text);
  }

  lemma {:induction false} ArgsAreJoined(args: seq<string>)
    ensures args != [] ==> Args(args) == " " + Join(" ", args)
    ensures args == [] ==> Join(" ", args) == ""
  {
    if |args| > 1 {
      ArgsAreJoined(args[1..]);
      var rest := Join(" ", args[1..]);
      assert " " + args[0] + (" " + rest) == " " + (args[0] + " " + rest);
    } else if args != [] {
      assert args[1..] == [];
      assert " " + args[0] + "" == " " + args[0];
    }
  }

  lemma SaidDir(indent: nat, name: string, args: seq<string>)
    requires Solid(name) && Begins(name) && AllClean(Free, args)
    ensures Said([Dir(indent, name, args)]) == Says(indent, name, args)
  {
    hide Pad, Args, Join;
    ArgsClean(Free, args);
    var body := name + Args(args);
    var text := body + ";";
    assert Dir(indent, name, args) == Pad(indent) + text;
    SaidPadded(indent, text);
    assert text[..|text| - 1] == body;
    BodyReads(indent, name, args);
    assert text[|text| - 1] == ';';
    assert text[0] == name[0];
  }

  lemma BodyReads(indent: nat, name: string, args: seq<string>)
    requires Solid(name)
    ensures ReadDirective(indent, name + Args(args)) == Directive(indent, name, Join(" ", args))
  {
    hide Join;
    ArgsAreJoined(args);
    if args == [] {
      assert name + Args(args) == name;
      S.IndexOfAbsent(name, ' ');
    } else {
      var rest := Join(" ", args);
      var body := name + [' '] + rest;
      assert name + Args(args) == body;
      IndexOfFirst(name, ' ', rest);
      assert body[..|name|] == name && body[|name| + 1..] == rest;
    }
  }

  lemma SaidComment(indent: nat, text: string)
    requires '\n' !in text && text != "" && text[0] == '#'
    ensures Said([Pad(indent) + text]) == []
  {
    SaidPadded(indent, text);
  }

  lemma SaidTitle(indent: nat, text: string)
    requires '\n' !in text
    ensures Said([Title(indent, text)]) == []
  {
    hide Said;
    var comment := "# --- " + text + " ---";
    assert comment[0] == '#';
    assert Title(indent, text) == Pad(indent) + comment;
    SaidComment(indent, comment);
  }

  lemma SaidOpen(indent: nat, head: string)
    requires '\n' !in head && Begins(head)
    ensures Said([Open(indent, head)]) == [Opening(indent, head)]
  {
    hide Said;
    var text := head + " {";
    assert Open(indent, head) == Pad(indent) + text;
    SaidPadded(indent, text);
    var n := |text|;
    assert text[n - 1] == '{' && text[n - 2] == ' ' && text[..n - 2] == head && text[0] == head[0];
  }

  lemma SaidClose(indent: nat)
    ensures Said([Close(indent)]) == [Closing(indent)]
  {
    hide Said;
    SaidPadded(indent, "}");
  }

  lemma SaidBlank()
    ensures Said([""]) == []
  {
    SaidOne("");
  }

  lemma SaidSnippet(indent: nat, snippet: string)
    ensures snippet != "" ==> Said([Verbatim(indent, snippet)]) == Own(indent, snippet)
  {
    var line := Verbatim(indent, snippet);
    assert [line][1..] == [];
    assert S.Split(line, '\n') + S.Pieces([]) == S.Split(line, '\n');
  }

  lemma SaidBlock(indent: nat, head: string, inner: seq<string>)
    requires '\n' !in head && Begins(head)
    ensures Said(Block(indent, head, inner)) == Within(indent, head, Said(inner))
  {
    hide Said, Open, Close;
    SaidOpen(indent, head);
    SaidClose(indent);
    SaidAppend([Open(indent, head)], inner);
    SaidAppend([Open(indent, head)] + inner, [Close(indent)]);
  }

  lemma SaidSection(body: Option<seq<string>>)
    ensures Said(Section(body)) == if body.Some? then Said(body.value) else []
  {
    hide Said;
    SaidBlank();
    if body.Some? {
      SaidAppend([""], body.value);
      SaidAppend([""] + body.value, [""]);
    } else {
      assert [] + [""] == [""];
    }
  }

  lemma {:induction false} SaidEach<T>(xs: seq<T>, item: T -> seq<string>, items: T -> seq<Item>)
    requires forall x :: x in xs ==> Said(item(x)) == items(x)
    ensures Said(Each(xs, item)) == ForEach(xs, items)
  {
    hide Said;
    SaidBlank();
    if xs != [] {
      SaidEach(xs[1..], item, items);
      SaidAppend([""], item(xs[0]));
      SaidAppend([""] + item(xs[0]), Each(xs[1..], item));
    }
  }

  function Concat(parts: seq<seq<Item>>): seq<Item> {
    if parts == [] then [] else parts[0] + Concat(parts[1..])
  }

  /** What the parts of a stack say, one after the other. */
  lemma {:induction false} SaidStack(parts: seq<seq<string>>, items: seq<seq<Item>>)
    requires |parts| == |items| && forall i :: 0 <= i < |parts| ==> Said(parts[i]) == items[i]
    ensures Said(Stack(parts)) == Concat(items)
  {
    hide Said;
    SaidNothing();
    SaidBlank();
    if |parts| == 1 {
      assert items[1..] == [];
    } else if parts != [] {
      SaidStack(parts[1..], items[1..]);
      SaidAppend(parts[0], [""]);
      SaidAppend(parts[0] + [""], Stack(parts[1..]));
    }
  }

  lemma SaidNothing()
    ensures Said([]) == []
  {
  }

  /** Lists of lines, one by one. */
  lemma SaidLists()
    ensures forall a, b :: Said([a, b]) == Said([a]) + Said([b])
    ensures forall a, b, c :: Said([a, b, c]) == Said([a]) + Said([b]) + Said([c])
    ensures forall a, b, c, d :: Said([a, b, c, d]) == Said([a]) + Said([b]) + Said([c]) + Said([d])
    ensures forall a, b, c, d, e :: Said([a, b, c, d, e]) == Said([a]) + Said([b]) + Said([c]) + Said([d]) + Said([e])
    ensures forall a, b, c, d, e, f, g :: Said([a, b, c, d, e, f, g])
                                         == Said([a]) + Said([b]) + Said([c]) + Said([d]) + Said([e]) + Said([f]) + Said([g])
  {
    hide Said;
    forall a, b
      ensures Said([a, b]) == Said([a]) + Said([b])
    {
      SaidAppend([a], [b]);
      assert [a] + [b] == [a, b];
    }
    forall a, b, c
      ensures Said([a, b, c]) == Said([a]) + Said([b]) + Said([c])
    {
      SaidAppend([a, b], [c]);
      assert [a, b] + [c] == [a, b, c];
    }
    forall a, b, c, d
      ensures Said([a, b, c, d]) == Said([a]) + Said([b]) + Said([c]) + Said([d])
    {
      SaidAppend([a, b, c], [d]);
      assert [a, b, c] + [d] == [a, b, c, d];
    }
    forall a, b, c, d, e
      ensures Said([a, b, c, d, e]) == Said([a]) + Said([b]) + Said([c]) + Said([d]) + Said([e])
    {
      SaidAppend([a, b, c, d], [e]);
      assert [a, b, c, d] + [e] == [a, b, c, d, e];
    }
    forall a, b, c, d, e, f, g
      ensures Said([a, b, c, d, e, f, g]) == Said([a]) + Said([b]) + Said([c]) + Said([d]) + Said([e]) + Said([f]) + Said([g])
    {
      SaidAppend([a, b, c, d, e], [f]);
      assert [a, b, c, d, e] + [f] == [a, b, c, d, e, f];
      SaidAppend([a, b, c, d, e, f], [g]);
      assert [a, b, c, d, e, f] + [g] == [a, b, c, d, e, f, g];
    }
  }

  /** The snippet of a section of its own. */
  lemma SaidSnippetLines(titleIndent: nat, title: string, indent: nat, snippet: string)
    requires '\n' !in title
    ensures Said(SnippetLines(titleIndent, title, indent, snippet)) == Own(indent, snippet)
  {
    hide Said, Title, Verbatim, Section, Own;
    SaidRules();
    SaidLists();
    SaidSnippet(indent, snippet);
    NoSnippet(indent);
    assert Clean(Free, title);
  }

  lemma NoSnippet(indent: nat)
    ensures Own(indent, "") == []
  {
  }

  /** All the rules at once, for the names that templates use. */
  lemma SaidRules()
    ensures Said([]) == [] && Said([""]) == []
    ensures forall x: seq<Item> {:trigger [] + x} :: [] + x == x
    ensures forall x: seq<Item> {:trigger x + []} :: x + [] == x
    ensures forall a, b {:trigger Said(a + b)} :: Said(a + b) == Said(a) + Said(b)
    ensures forall i, n, args :: Solid(n) && Begins(n) && AllClean(Free, args) ==> Said([Dir(i, n, args)]) == Says(i, n, args)
    ensures forall i, t :: Clean(Free, t) ==> Said([Title(i, t)]) == []
    ensures forall i, h, ls :: Clean(Free, h) && Begins(h) ==> Said(Block(i, h, ls)) == Within(i, h, Said(ls))
    ensures forall b: Option<seq<string>> :: Said(Section(b)) == if b.Some? then Said(b.value) else []
  {
    hide Said, Solid, Begins;
    SaidNothing();
    SaidBlank();
    forall a: seq<string>, b: seq<string>
      ensures Said(a + b) == Said(a) + Said(b)
    {
      SaidAppend(a, b);
    }
    forall i, n, args | Solid(n) && Begins(n) && AllClean(Free, args)
      ensures Said([Dir(i, n, args)]) == Says(i, n, args)
    {
      SaidDir(i, n, args);
    }
    forall i, t | Clean(Free, t)
      ensures Said([Title(i, t)]) == []
    {
      SaidTitle(i, t);
    }
    forall i, h, ls | Clean(Free, h) && Begins(h)
      ensures Said(Block(i, h, ls)) == Within(i, h, Said(ls))
    {
      SaidBlock(i, h, ls);
    }
    forall b: Option<seq<string>>
      ensures Said(Section(b)) == if b.Some? then Said(b.value) else []
    {
      SaidSection(b);
    }
  }
}
