/** The two oracles as they run: index loops over a word's characters and over the tokens, with
    accumulators that a flush empties. */
module ShellParser {
  import opened Wrappers
  import opened ShellLexer
  import opened ShellOracle

  method DecodeWord(lib: Library, raw: string) returns (w: Option<Spelled>)
    ensures w == Word1(lib, raw)
  {
    var quote: Option<char> := None;
    var glob := false;
    var i := 0;
    while i < |raw|
      invariant i <= |raw| && Scan(raw, i, quote, glob) == Scan(raw, 0, None, false)
      decreases |raw| - i
    {
      var c := raw[i];
      if c == '\\' && quote != Some('\'') {
        if i + 1 >= |raw| {
          return None;
        }
        i := i + 2;
        continue;
      }
      if quote == Some(c) {
        quote := None;
      } else if quote.None? && IsQuote(c) {
        quote := Some(c);
      } else if quote != Some('\'') && (c == '$' || c == '`') {
        return None;
      } else if quote.None? && c in {'{', '}', '(', ')', '~'} {
        return None;
      } else {
        glob := glob || (quote.None? && c in {'*', '?', '['});
      }
      i := i + 1;
    }
    if quote.Some? {
      return None;
    }
    var cleaned := CleanWord(raw);
    var value := lib.split(cleaned);
    w := if value.None? then None else Some(Spelled(value.value, glob, false));
  }

  method CleanWord(raw: string) returns (cleaned: string)
    ensures cleaned == Clean(raw, 0, None)
  {
    cleaned := "";
    var quote: Option<char> := None;
    var i := 0;
    while i < |raw|
      invariant i <= |raw| && cleaned + Clean(raw, i, quote) == Clean(raw, 0, None)
      decreases |raw| - i
    {
      var c := raw[i];
      ghost var rest := Clean(raw, i, quote);
      var piece := [c];
      var next := i + 1;
      if c == '\\' && quote != Some('\'') {
        next := if i + 2 <= |raw| then i + 2 else |raw|;
        piece := Slice(raw, i);
        if i + 1 < |raw| && raw[i + 1] == '\n' {
          piece := "";
        } else if i + 1 < |raw| && quote == Some('"') && (raw[i + 1] == '$' || raw[i + 1] == '`') {
          piece := [raw[i + 1]];
        }
      } else if quote == Some(c) {
        quote := None;
      } else if quote.None? && IsQuote(c) {
        quote := Some(c);
      }
      assert rest == piece + Clean(raw, next, quote);
      assert cleaned + (piece + Clean(raw, next, quote)) == cleaned + piece + Clean(raw, next, quote);
      cleaned := cleaned + piece;
      i := next;
    }
  }

  // The second version's word: escape the static home marks, then decode as before.
  method DecodeHomeWord(lib: Library, raw: string) returns (w: Option<Spelled>)
    ensures w == Word2(lib, raw)
  {
    var escaped := "";
    var quote: Option<char> := None;
    var meaningful, home := false, false;
    var i := 0;
    PrependNothing(Protect(raw, 0, None, false, false));
    while i < |raw|
      invariant i <= |raw| && Prepend(escaped, Protect(raw, i, quote, meaningful, home)) ==
        Protect(raw, 0, None, false, false)
      decreases |raw| - i
    {
      var c := raw[i];
      var piece := [c];
      var next := i + 1;
      ghost var rest := Protect(raw, i, quote, meaningful, home);
      if c == '\\' && quote != Some('\'') {
        piece := Slice(raw, i);
        next := if i + 2 <= |raw| then i + 2 else |raw|;
        if !(i + 1 < |raw| && raw[i + 1] == '\n') {
          meaningful := true;
        }
      } else if quote.Some? {
        if quote == Some(c) {
          quote := None;
        }
      } else if IsQuote(c) {
        quote := Some(c);
        meaningful := true;
      } else if c == '~' {
        piece := "\\~";
        if home && StartsWith(raw, "~/", 0) {
        } else if meaningful || (i + 1 < |raw| && raw[i + 1] != '/') {
          return None;
        } else {
          home, meaningful := true, true;
        }
      } else {
        meaningful := true;
      }
      PrependTwice(escaped, piece, Protect(raw, next, quote, meaningful, home));
      escaped := escaped + piece;
      i := next;
    }
    var decoded := DecodeWord(lib, escaped);
    assert escaped + "" == escaped;
    w := if decoded.None? then None else Some(Spelled(if home then raw
      else decoded.value.value, decoded.value.glob, home));
  }

  lemma PrependNothing(rest: Option<(string, bool)>)
    ensures Prepend("", rest) == rest
  {
    if rest.Some? {
      assert "" + rest.value.0 == rest.value.0;
    }
  }

  lemma PrependTwice(a: string, b: string, rest: Option<(string, bool)>)
    ensures Prepend(a, Prepend(b, rest)) == Prepend(a + b, rest)
  {
    if rest.Some? {
      assert a + (b + rest.value.0) == a + b + rest.value.0;
    }
  }

  // The accumulators of expected_parse.
  class CommandList {
    var commands: seq<Command>
    var argv: seq<string>
    var globs: seq<nat>
    var homes: seq<nat>
    var redirects: seq<Redirect>
    var connector: string
    var needWord: bool

    function View(): State
      reads this
    {
      State(commands, argv, globs, homes, redirects, connector, needWord)
    }

    constructor ()
      ensures View() == START
    {
      commands, argv, globs, homes, redirects, connector, needWord := [], [], [], [], [], "start", false;
    }

    // flush of either version: the checks differ, the emptying does not.
    method Flush(lib: Library, second: bool) returns (ok: bool)
      modifies this
      ensures var flushed := ShellOracle.Flush(lib, old(View()), second);
              ok == flushed.Some? && View() == if ok then flushed.value else old(View())
    {
      if argv == [] || lib.assigns(argv[0]) || 0 in globs || lib.embeds(argv) {
        return false;
      }
      if Basename(argv[0]) in CONTROL && !(second && IsQuery(View())) {
        return false;
      }
      if second && 0 in homes {
        return false;
      }
      commands := commands + [Command(connector, argv, globs, homes, redirects)];
      argv := [];
      globs := [];
      homes := [];
      redirects := [];
      ok := true;
    }

    method Decode(lib: Library, raw: string, second: bool) returns (w: Option<Spelled>)
      ensures w == WordOf(lib, raw, second)
    {
      if second {
        w := DecodeHomeWord(lib, raw);
      } else {
        w := DecodeWord(lib, raw);
      }
    }

    // One turn of the loop: a redirection, an operator or a word.
    method Turn(lib: Library, ts: seq<Token>, i: nat, second: bool) returns (next: Option<nat>)
      requires i < |ts|
      modifies this
      ensures var step := Step(lib, ts, i, old(View()), second);
              if step.None? then next.None? else next == Some(step.value.0) && View() == step.value.1
    {
      hide WordOf, Redirected, ShellOracle.Flush;
      var fd := Descriptor(lib, ts, i);
      var j := if fd.Some? then i + 1 else i;
      var t := ts[j];
      if t.kind.Operator? && t.raw in REDIRECTS {
        if j + 1 >= |ts| || !ts[j + 1].kind.Word? {
          return None;
        }
        var target := Decode(lib, ts[j + 1].raw, second);
        var redirect := Redirected(lib, t.raw, target, fd);
        if redirect.None? {
          return None;
        }
        redirects := redirects + [redirect.value];
        return Some(j + 2);
      }
      if t.kind.Operator? {
        if t.raw !in SEPARATORS {
          return None;
        }
        if argv == [] {
          return if t.raw == "\n" && redirects == [] then Some(j + 1) else None;
        }
        var ok := Flush(lib, second);
        if !ok {
          return None;
        }
        connector := if t.raw == "\n" then ";" else t.raw;
        needWord := t.raw in {"&&", "||", "|"};
      } else {
        var w := Decode(lib, t.raw, second);
        if w.None? {
          return None;
        }
        if w.value.glob {
          globs := globs + [|argv|];
        }
        if w.value.home {
          homes := homes + [|argv|];
        }
        argv := argv + [w.value.value];
        needWord := false;
      }
      next := Some(j + 1);
    }
  }

  // expected_parse; second chooses the version.
  method ExpectedParse(lib: Library, text: string, second: bool) returns (r: Parse)
    ensures r == Parsed(lib, text, second)
  {
    hide Step, ShellOracle.Flush;
    if !IsReadable(text) {
      return Unsupported;
    }
    var all := Tokens(text);
    var ts := Visible(all);
    var list := new CommandList();
    var i := 0;
    ghost var expected := Rest(lib, ts, 0, START, second);
    while i < |ts|
      invariant fresh(list) && i <= |ts|
      invariant expected == Rest(lib, ts, i, list.View(), second)
      decreases |ts| - i
    {
      var next := list.Turn(lib, ts, i, second);
      if next.None? {
        return Unsupported;
      }
      i := next.value;
    }
    if list.argv != [] {
      var ok := list.Flush(lib, second);
      if !ok {
        return Unsupported;
      }
    } else if list.redirects != [] || list.needWord {
      return Unsupported;
    }
    r := if list.commands == [] then Unsupported else Complete(list.commands);
  }
}
