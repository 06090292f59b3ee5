/** The shapes of line that the configuration templates are made of. */
module Render {
  import opened Api

  function Pad(n: nat): string {
    if n == 0 then "" else " " + Pad(n - 1)
  }

  function Args(args: seq<string>): string {
    if args == [] then "" else " " + args[0] + Args(args[1..])
  }

  /** A directive with its arguments, as in `listen 80;`. */
  function Dir(indent: nat, name: string, args: seq<string>): string {
    Pad(indent) + name + Args(args) + ";"
  }

  function Open(indent: nat, head: string): string {
    Pad(indent) + head + " {"
  }

  function Close(indent: nat): string {
    Pad(indent) + "}"
  }

  function Title(indent: nat, text: string): string {
    Pad(indent) + "# --- " + text + " ---"
  }

  /** User text after some indentation. */
  function Verbatim(indent: nat, text: string): string {
    Pad(indent) + text
  }

  function Quoted(s: string): string {
    "\"" + s + "\""
  }

  function Block(indent: nat, head: string, inner: seq<string>): seq<string> {
    [Open(indent, head)] + inner + [Close(indent)]
  }

  /** `if ... end` on lines of their own: when the body is left out, the line break after `end` remains. */
  function Section(body: Option<seq<string>>): seq<string> {
    (if body.Some? then [""] + body.value else []) + [""]
  }

  /** `range ... end` on lines of their own. */
  function Each<T>(xs: seq<T>, item: T -> seq<string>): seq<string> {
    if xs == [] then [""] else [""] + item(xs[0]) + Each(xs[1..], item)
  }

  /** Parts with a blank line between each two. */
  function Stack(parts: seq<seq<string>>): seq<string> {
    if parts == [] then []
    else if |parts| == 1 then parts[0]
    else parts[0] + [""] + Stack(parts[1..])
  }
}
