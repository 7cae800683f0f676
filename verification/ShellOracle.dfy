/** The two static shell oracles: how a word is decoded, how tokens become a list of commands, and
    that the second version extends the first conservatively. */
module ShellOracle {
  import opened Wrappers
  import opened ShellLexer

  // What is left to libraries: shlex, numbers, and the regular expressions that inspect one argv.
  datatype Library = Library(
    split: string -> Option<string>,
    number: string -> Option<nat>,
    assigns: string -> bool,
    embeds: seq<string> -> bool)

  datatype Spelled = Spelled(value: string, glob: bool, home: bool)
  datatype Redirect = Redirect(fd: nat, operator: string, target: string)
  datatype Command = Command(connector: string, argv: seq<string>, globs: seq<nat>, homes: seq<nat>,
    redirects: seq<Redirect>)
  datatype Parse = Unsupported | Complete(commands: seq<Command>)

  const REDIRECTS: set<string> := {">", ">>", "<", ">|", ">&", "<&"}
  const SEPARATORS: set<string> := {";", "\n", "&&", "||", "|"}
  const CONTROL: set<string> :=
    {"!", "time", "command", "builtin", "env", "exec", "noglob", "if", "then", "elif", "else", "fi", "for", "select",
      "while", "until",
     "do", "done", "case", "in", "esac", "function", "coproc", "break", "continue", "return", "sudo", "doas", "nohup",
       "timeout",
     "busybox", "xargs", "source", ".", "eval", "trap", "alias", "unalias", "export", "declare", "typeset", "local",
       "unset", "set",
     "shift", "getopts", "let"}

  // ---- Words ----

  predicate IsQuote(c: char) {
    c == '\'' || c == '"'
  }

  // Whether the word has a glob, or None where the first version gives up.
  function Scan(raw: string, i: nat, quote: Option<char>, glob: bool): Option<bool>
    requires i <= |raw|
    decreases |raw| - i
  {
    if i == |raw| then if quote.Some? then None else Some(glob)
    else
      var c := raw[i];
      if c == '\\' && quote != Some('\'') then if i + 1 >= |raw| then None else Scan(raw, i + 2, quote, glob)
      else if quote == Some(c) then Scan(raw, i + 1, None, glob)
      else if quote.None? && IsQuote(c) then Scan(raw, i + 1, Some(c), glob)
      else if quote != Some('\'') && (c == '$' || c == '`') then None
      else if quote.None? && c in {'{', '}', '(', ')', '~'} then None
      else Scan(raw, i + 1, quote, glob || (quote.None? && c in {'*', '?', '['}))
  }

  function Slice(raw: string, i: nat): string
    requires i < |raw|
  {
    if i + 2 <= |raw| then raw[i..i + 2] else raw[i..]
  }

  // Continuations removed, and inside double quotes the backslash before $ and `.
  function Clean(raw: string, i: nat, quote: Option<char>): string
    requires i <= |raw|
    decreases |raw| - i
  {
    if i == |raw| then ""
    else
      var c := raw[i];
      if c == '\\' && quote != Some('\'') then
        var after := if i + 2 <= |raw| then i + 2 else |raw|;
        if i + 1 < |raw| && raw[i + 1] == '\n' then Clean(raw, after, quote)
        else if i + 1 < |raw| && quote == Some('"') && (raw[i + 1] == '$' || raw[i + 1] == '`') then
          [raw[i + 1]] + Clean(raw, after, quote)
        else Slice(raw, i) + Clean(raw, after, quote)
      else
        [c] + Clean(raw, i + 1, if quote == Some(c) then None else if quote.None? && IsQuote(c) then Some(c) else quote)
  }

  // word of the first version.
  function Word1(lib: Library, raw: string): Option<Spelled> {
    match Scan(raw, 0, None, false)
    case None => None
    case Some(glob) =>
      match lib.split(Clean(raw, 0, None))
      case None => None
      case Some(value) => Some(Spelled(value, glob, false))
  }

  // The second version first escapes a static leading ~ and the ones in its path; home tells whether
  // there was one.
  function Protect(raw: string, i: nat, quote: Option<char>, meaningful: bool, home: bool): Option<(string, bool)>
    requires i <= |raw|
    decreases |raw| - i
  {
    if i == |raw| then Some(("", home))
    else
      var c := raw[i];
      if c == '\\' && quote != Some('\'') then
        Prepend(Slice(raw, i), Protect(raw, if i + 2 <= |raw| then i + 2 else |raw|, quote,
          meaningful || !(i + 1 < |raw| && raw[i + 1] == '\n'), home))
      else if quote.Some? then Prepend([c], Protect(raw, i + 1, if quote == Some(c) then None
        else quote, meaningful, home))
      else if IsQuote(c) then Prepend([c], Protect(raw, i + 1, Some(c), true, home))
      else if c == '~' then
        if home && StartsWith(raw, "~/", 0) then Prepend("\\~", Protect(raw, i + 1, quote, meaningful, home))
        else if meaningful || (i + 1 < |raw| && raw[i + 1] != '/') then None
        else Prepend("\\~", Protect(raw, i + 1, quote, true, true))
      else Prepend([c], Protect(raw, i + 1, quote, true, home))
  }

  function Prepend(piece: string, rest: Option<(string, bool)>): Option<(string, bool)> {
    if rest.None? then None else Some((piece + rest.value.0, rest.value.1))
  }

  // word of the second version.
  function Word2(lib: Library, raw: string): Option<Spelled> {
    match Protect(raw, 0, None, false, false)
    case None => None
    case Some((escaped, home)) =>
      match Word1(lib, escaped)
      case None => None
      case Some(w) => Some(Spelled(if home then raw else w.value, w.glob, home))
  }

  // What the first version scans has no bare ~, and what the second one escapes nothing in is the
  // word itself.
  lemma {:induction false} ScannedIsNotEscaped(raw: string, i: nat, quote: Option<char>, glob: bool, meaningful: bool)
    requires i <= |raw| && Scan(raw, i, quote, glob).Some?
    ensures Protect(raw, i, quote, meaningful, false) == Some((raw[i..], false))
    decreases |raw| - i
  {
    if i == |raw| {
      assert raw[i..] == "";
    } else {
      var c := raw[i];
      if c == '\\' && quote != Some('\'') {
        ScannedIsNotEscaped(raw, i + 2, quote, glob, meaningful || raw[i + 1] != '\n');
        assert raw[i..] == raw[i..i + 2] + raw[i + 2..];
      } else {
        assert raw[i..] == [c] + raw[i + 1..];
        if quote == Some(c) {
          ScannedIsNotEscaped(raw, i + 1, None, glob, meaningful);
        } else if quote.None? && IsQuote(c) {
          ScannedIsNotEscaped(raw, i + 1, Some(c), glob, true);
        } else if quote.Some? {
          ScannedIsNotEscaped(raw, i + 1, quote, glob, meaningful);
        } else {
          assert c != '~';
          ScannedIsNotEscaped(raw, i + 1, None, glob || c in {'*', '?', '['}, true);
        }
      }
    }
  }

  lemma {:induction false} UnescapedIsItself(raw: string, i: nat, quote: Option<char>, meaningful: bool, home: bool)
    requires i <= |raw| && Protect(raw, i, quote, meaningful, home).Some?
    ensures var escaped := Protect(raw, i, quote, meaningful, home).value;
            (home ==> escaped.1) && (!escaped.1 ==> escaped.0 == raw[i..])
    decreases |raw| - i
  {
    if i < |raw| {
      var c := raw[i];
      if c == '\\' && quote != Some('\'') {
        var after := if i + 2 <= |raw| then i + 2 else |raw|;
        UnescapedIsItself(raw, after, quote, meaningful || !(i + 1 < |raw| && raw[i + 1] == '\n'), home);
        assert raw[i..] == Slice(raw, i) + raw[after..];
      } else if quote.Some? {
        UnescapedIsItself(raw, i + 1, if quote == Some(c) then None else quote, meaningful, home);
        assert raw[i..] == [c] + raw[i + 1..];
      } else if IsQuote(c) {
        UnescapedIsItself(raw, i + 1, Some(c), true, home);
        assert raw[i..] == [c] + raw[i + 1..];
      } else if c == '~' {
        if home && StartsWith(raw, "~/", 0) {
          UnescapedIsItself(raw, i + 1, quote, meaningful, home);
        } else {
          UnescapedIsItself(raw, i + 1, quote, true, true);
        }
      } else {
        UnescapedIsItself(raw, i + 1, quote, true, home);
        assert raw[i..] == [c] + raw[i + 1..];
      }
    }
  }

  // The second version reads every word of the first one alike, and adds nothing but home words.
  lemma WordsExtend(lib: Library, raw: string)
    ensures Word1(lib, raw).Some? ==> Word2(lib, raw) == Word1(lib, raw)
    ensures Word2(lib, raw).Some? && !Word2(lib, raw).value.home ==> Word1(lib, raw) == Word2(lib, raw)
  {
    assert raw[0..] == raw;
    if Word1(lib, raw).Some? {
      ScannedIsNotEscaped(raw, 0, None, false, false);
    }
    if Word2(lib, raw).Some? {
      UnescapedIsItself(raw, 0, None, false, false);
    }
  }

  // ---- Command lists ----

  datatype State = State(commands: seq<Command>, argv: seq<string>, globs: seq<nat>, homes: seq<nat>,
    redirects: seq<Redirect>,
                         connector: string, needWord: bool)

  const START := State([], [], [], [], [], "start", false)

  // The part after the last slash.
  function Basename(name: string): string {
    if name == "" then "" else if name[|name| - 1] == '/' then "" else Basename(name[..|name| - 1]) + [name[|name| - 1]]
  }

  function Flushed(st: State): State {
    st.(commands := st.commands + [Command(st.connector, st.argv, st.globs, st.homes, st.redirects)],
        argv := [], globs := [], homes := [], redirects := [])
  }

  // command -v name and command -V name only look names up.
  predicate IsQuery(st: State) {
    var first := if |st.argv| > 2 && st.argv[2] == "--" then 3 else 2;
    && |st.argv| > first && st.argv[0] == "command" && st.argv[1] in {"-v", "-V"} && st.globs == [] && st.homes == []
    && forall k | first <= k < |st.argv| :: st.argv[k] != "" && (first == 3 || st.argv[k][0] != '-')
  }

  // Either version; second says which.
  function WordOf(lib: Library, raw: string, second: bool): Option<Spelled> {
    if second then Word2(lib, raw) else Word1(lib, raw)
  }

  function Flush(lib: Library, st: State, second: bool): Option<State> {
    if st.argv == [] || (Basename(st.argv[0]) in CONTROL && !(second && IsQuery(st))) || lib.assigns(st.argv[0]) ||
      0 in st.globs ||
       (second && 0 in st.homes) || lib.embeds(st.argv) then None
    else Some(Flushed(st))
  }

  // A number directly before a redirection is its descriptor.
  function Descriptor(lib: Library, ts: seq<Token>, i: nat): Option<nat>
    requires i < |ts|
  {
    if ts[i].kind.Word? && i + 1 < |ts| && ts[i].end == ts[i + 1].start &&
      ts[i + 1].raw in REDIRECTS then lib.number(ts[i].raw) else None
  }

  function Redirected(lib: Library, operator: string, word: Option<Spelled>, fd: Option<nat>): Option<Redirect> {
    if word.None? || word.value.value == "" || word.value.glob || word.value.home then None
    else
      var target := word.value.value;
      var copies := operator in {">&", "<&"};
      var source := if fd.Some? then fd.value else if operator != "" && operator[0] == '<' then 0 else 1;
      if copies && target != "-" && lib.number(target).None? then None
      else if source > 9 || (copies && target != "-" && lib.number(target).value > 9) then None
      else Some(Redirect(source, operator, target))
  }

  function Separated(st: State, operator: string): State {
    st.(connector := if operator == "\n" then ";" else operator, needWord := operator in {"&&", "||", "|"})
  }

  function WithWord(st: State, w: Spelled): State {
    st.(argv := st.argv + [w.value], globs := if w.glob then st.globs + [|st.argv|] else st.globs,
        homes := if w.home then st.homes + [|st.argv|] else st.homes, needWord := false)
  }

  function Ended(st: State, flushed: Option<State>): Option<seq<Command>> {
    if st.argv != [] then if flushed.None? then None else Some(flushed.value.commands)
    else if st.redirects != [] || st.needWord then None
    else Some(st.commands)
  }

  // One turn of the loop over the tokens.
  function Step(lib: Library, ts: seq<Token>, i: nat, st: State, second: bool): (r: Option<(nat, State)>)
    requires i < |ts|
    ensures r.Some? ==> i < r.value.0 <= |ts|
  {
    var fd := Descriptor(lib, ts, i);
    var j := if fd.Some? then i + 1 else i;
    var t := ts[j];
    if t.kind.Operator? && t.raw in REDIRECTS then
      if j + 1 >= |ts| || !ts[j + 1].kind.Word? then None
      else
        match Redirected(lib, t.raw, WordOf(lib, ts[j + 1].raw, second), fd)
        case None => None
        case Some(r) => Some((j + 2, st.(redirects := st.redirects + [r])))
    else if t.kind.Operator? then
      if t.raw !in SEPARATORS then None
      else if st.argv == [] then if t.raw == "\n" && st.redirects == [] then Some((j + 1, st)) else None
      else
        match Flush(lib, st, second)
        case None => None
        case Some(next) => Some((j + 1, Separated(next, t.raw)))
    else
      match WordOf(lib, t.raw, second)
      case None => None
      case Some(w) => Some((j + 1, WithWord(st, w)))
  }

  function Rest(lib: Library, ts: seq<Token>, i: nat, st: State, second: bool): Option<seq<Command>>
    requires i <= |ts|
    decreases |ts| - i
  {
    if i == |ts| then Ended(st, Flush(lib, st, second))
    else
      match Step(lib, ts, i, st, second)
      case None => None
      case Some((next, after)) => Rest(lib, ts, next, after, second)
  }

  function WithoutContinuations(raw: string): string
    decreases |raw|
  {
    if |raw| >= 2 && raw[0] == '\\' && raw[1] == '\n' then WithoutContinuations(raw[2..])
    else if raw == "" then "" else [raw[0]] + WithoutContinuations(raw[1..])
  }

  predicate IsVisible(t: Token) {
    !t.kind.Comment? && !(t.kind.Word? && WithoutContinuations(t.raw) == "")
  }

  function Visible(ts: seq<Token>): seq<Token> {
    if ts == [] then [] else (if IsVisible(ts[0]) then [ts[0]] else []) + Visible(ts[1..])
  }

  predicate IsForbidden(c: char) {
    var code := c as int;
    code == 0x0D || code <= 0x08 || code == 0x0B || code == 0x0C || 0x0E <= code <= 0x1F || code == 0x7F
  }

  predicate IsReadable(text: string) {
    text != "" && forall k | 0 <= k < |text| :: !IsForbidden(text[k])
  }

  function AsParse(commands: Option<seq<Command>>): Parse {
    if commands.None? || commands.value == [] then Unsupported else Complete(commands.value)
  }

  // expected_parse of either version.
  function Parsed(lib: Library, text: string, second: bool): Parse {
    if !IsReadable(text) then Unsupported else AsParse(Rest(lib, Visible(Lex(text, 0)), 0, START, second))
  }

  // ---- The extension ----

  lemma RedirectsAgree(lib: Library, operator: string, raw: string, fd: Option<nat>)
    ensures Redirected(lib, operator, Word1(lib, raw), fd) == Redirected(lib, operator, Word2(lib, raw), fd)
  {
    WordsExtend(lib, raw);
  }

  lemma StepsAgree(lib: Library, ts: seq<Token>, i: nat, st: State)
    requires i < |ts| && st.homes == [] && Step(lib, ts, i, st, false).Some?
    ensures Step(lib, ts, i, st, true) == Step(lib, ts, i, st, false) && Step(lib, ts, i, st, false).value.1.homes == []
  {
    hide Word1, Word2, Redirected;
    var fd := Descriptor(lib, ts, i);
    var j := if fd.Some? then i + 1 else i;
    WordsExtend(lib, ts[j].raw);
    Word1HasNoHome(lib, ts[j].raw);
    if j + 1 < |ts| {
      RedirectsAgree(lib, ts[j].raw, ts[j + 1].raw, fd);
    }
  }

  lemma Word1HasNoHome(lib: Library, raw: string)
    ensures Word1(lib, raw).Some? ==> !Word1(lib, raw).value.home
  {
  }

  lemma {:induction false} FirstImpliesSecond(lib: Library, ts: seq<Token>, i: nat, st: State)
    requires i <= |ts| && st.homes == [] && Rest(lib, ts, i, st, false).Some?
    ensures Rest(lib, ts, i, st, true) == Rest(lib, ts, i, st, false)
    decreases |ts| - i
  {
    hide Step;
    if i < |ts| {
      StepsAgree(lib, ts, i, st);
      FirstImpliesSecond(lib, ts, Step(lib, ts, i, st, false).value.0, Step(lib, ts, i, st, false).value.1);
    }
  }

  // No home word, and no head the first version keeps for people.
  ghost predicate IsPlain(c: Command) {
    c.homes == [] && (c.argv != [] ==> Basename(c.argv[0]) !in CONTROL)
  }

  ghost predicate ArePlain(cs: seq<Command>) {
    forall k | 0 <= k < |cs| :: IsPlain(cs[k])
  }

  // A home word stays pending until its command is flushed, and flushed commands stay.
  ghost predicate Adds(st: State, after: State) {
    && st.commands <= after.commands
    && (after.homes != [] ==> after.argv != [])
    && (st.homes != [] ==> after.homes != [] || Flushed(st).commands <= after.commands)
  }

  lemma StepAdds(lib: Library, ts: seq<Token>, i: nat, st: State)
    requires i < |ts| && Step(lib, ts, i, st, true).Some? && (st.homes != [] ==> st.argv != [])
    ensures Adds(st, Step(lib, ts, i, st, true).value.1)
  {
    hide Word2, Redirected, Descriptor, Basename, IsQuery;
  }

  // A pending home word ends up in a command.
  lemma {:induction false} SecondOnlyAdds(lib: Library, ts: seq<Token>, i: nat, st: State)
    requires i <= |ts| && Rest(lib, ts, i, st, true).Some? && (st.homes != [] ==> st.argv != [])
    ensures st.commands <= Rest(lib, ts, i, st, true).value
    ensures st.homes != [] ==> !ArePlain(Rest(lib, ts, i, st, true).value)
    decreases |ts| - i
  {
    hide Step, ArePlain, Basename, IsQuery;
    var all := Rest(lib, ts, i, st, true).value;
    if i == |ts| {
      if st.argv != [] {
        HomeIsNotPlain(all, st);
      }
    } else {
      StepAdds(lib, ts, i, st);
      var after := Step(lib, ts, i, st, true).value;
      SecondOnlyAdds(lib, ts, after.0, after.1);
      if Flushed(st).commands <= after.1.commands {
        HomeIsNotPlain(all, st);
      }
    }
  }

  lemma HomeIsNotPlain(all: seq<Command>, st: State)
    requires Flushed(st).commands <= all
    ensures st.homes != [] ==> !ArePlain(all)
    ensures ArePlain(all) && st.argv != [] ==> Basename(st.argv[0]) !in CONTROL
  {
    var n := |st.commands|;
    assert all[n] == Flushed(st).commands[n] && all[n].homes == st.homes;
    assert ArePlain(all) ==> IsPlain(all[n]);
  }

  // A step of the second version that ends in plain commands is a step of the first.
  lemma PlainStepsAgree(lib: Library, ts: seq<Token>, i: nat, st: State, all: seq<Command>)
    requires i < |ts| && st.homes == [] && Step(lib, ts, i, st, true).Some? && ArePlain(all)
    requires var after := Step(lib, ts, i, st, true).value.1; after.commands <= all && after.homes == []
    ensures Step(lib, ts, i, st, false) == Step(lib, ts, i, st, true)
  {
    hide Word1, Word2, Redirected, IsQuery, ArePlain, Basename;
    var fd := Descriptor(lib, ts, i);
    var j := if fd.Some? then i + 1 else i;
    WordsExtend(lib, ts[j].raw);
    if j + 1 < |ts| {
      RedirectsAgree(lib, ts[j].raw, ts[j + 1].raw, fd);
    }
    if Flushed(st).commands <= all {
      HomeIsNotPlain(all, st);
    }
  }

  lemma {:induction false} PlainSecondImpliesFirst(lib: Library, ts: seq<Token>, i: nat, st: State)
    requires i <= |ts| && st.homes == [] && Rest(lib, ts, i, st, true).Some? &&
      ArePlain(Rest(lib, ts, i, st, true).value)
    ensures Rest(lib, ts, i, st, false) == Rest(lib, ts, i, st, true)
    decreases |ts| - i
  {
    hide Step, ArePlain, IsQuery;
    var all := Rest(lib, ts, i, st, true).value;
    if i == |ts| {
      if st.argv != [] {
        HomeIsNotPlain(all, st);
      }
    } else {
      var after := Step(lib, ts, i, st, true).value;
      StepAdds(lib, ts, i, st);
      SecondOnlyAdds(lib, ts, after.0, after.1);
      PlainStepsAgree(lib, ts, i, st, all);
      PlainSecondImpliesFirst(lib, ts, after.0, after.1);
    }
  }

  // Whatever the first version reads, the second reads alike; and what the second reads without home
  // words and without a control head, the first reads too.
  lemma SecondExtendsFirst(lib: Library, text: string)
    ensures Parsed(lib, text, false).Complete? ==> Parsed(lib, text, true) == Parsed(lib, text, false)
    ensures Parsed(lib, text, true).Complete? && ArePlain(Parsed(lib, text, true).commands) ==>
      Parsed(lib, text, false) == Parsed(lib, text, true)
  {
    var ts := Visible(Lex(text, 0));
    if Parsed(lib, text, false).Complete? {
      FirstImpliesSecond(lib, ts, 0, START);
    }
    if Parsed(lib, text, true).Complete? && ArePlain(Parsed(lib, text, true).commands) {
      PlainSecondImpliesFirst(lib, ts, 0, START);
    }
  }

  // ---- What a complete parse looks like ----

  predicate IsSoundRedirect(r: Redirect) {
    r.fd <= 9 && r.operator in REDIRECTS && r.target != ""
  }

  predicate AreGlobs(globs: seq<nat>, argv: seq<string>) {
    (forall k | 0 <= k < |globs| :: globs[k] < |argv|) && forall k, l | 0 <= k < l < |globs| :: globs[k] < globs[l]
  }

  // The checks of the golden fixture's loader.
  predicate IsSoundCommand(c: Command) {
    && c.argv != [] && AreGlobs(c.globs, c.argv) && 0 !in c.globs && c.homes == []
    && forall k | 0 <= k < |c.redirects| :: IsSoundRedirect(c.redirects[k])
  }

  predicate IsConnector(connector: string, first: bool) {
    if first then connector == "start" else connector in {";", "&&", "||", "|"}
  }

  ghost predicate AreSound(cs: seq<Command>) {
    forall k | 0 <= k < |cs| :: IsSoundCommand(cs[k]) && IsConnector(cs[k].connector, k == 0)
  }

  ghost predicate IsSoundState(st: State) {
    && AreSound(st.commands) && AreGlobs(st.globs, st.argv) && st.homes == [] &&
      IsConnector(st.connector, st.commands == [])
    && forall k | 0 <= k < |st.redirects| :: IsSoundRedirect(st.redirects[k])
  }

  // The last token that is no line end is a connector that wants a command after it.
  predicate Dangles(ts: seq<Token>) {
    if ts == [] then false
    else
      var t := ts[|ts| - 1];
      if t.kind.Operator? && t.raw == "\n" then Dangles(ts[..|ts| - 1])
        else t.kind.Operator? && t.raw in {"&&", "||", "|"}
  }

  ghost predicate Awaits(ts: seq<Token>, i: nat, st: State)
    requires i <= |ts|
  {
    Dangles(ts[..i]) ==> st.needWord && st.argv == []
  }

  lemma FlushIsSound(lib: Library, st: State)
    requires IsSoundState(st) && Flush(lib, st, false).Some?
    ensures AreSound(Flushed(st).commands) && Flush(lib, st, false) == Some(Flushed(st))
  {
  }

  lemma RedirectIsSound(lib: Library, operator: string, word: Option<Spelled>, fd: Option<nat>)
    requires operator in REDIRECTS
    ensures Redirected(lib, operator, word, fd).Some? ==> IsSoundRedirect(Redirected(lib, operator, word, fd).value)
  {
  }

  lemma StepIsSound(lib: Library, ts: seq<Token>, i: nat, st: State)
    requires i < |ts| && IsSoundState(st) && Step(lib, ts, i, st, false).Some?
    ensures IsSoundState(Step(lib, ts, i, st, false).value.1)
  {
    hide Word1, Redirected, Descriptor, Flush;
    var fd := Descriptor(lib, ts, i);
    var j := if fd.Some? then i + 1 else i;
    Word1HasNoHome(lib, ts[j].raw);
    if ts[j].raw in REDIRECTS && j + 1 < |ts| {
      RedirectIsSound(lib, ts[j].raw, Word1(lib, ts[j + 1].raw), fd);
    }
    if Flush(lib, st, false).Some? {
      FlushIsSound(lib, st);
    }
  }

  lemma StepAwaits(lib: Library, ts: seq<Token>, i: nat, st: State)
    requires i < |ts| && Awaits(ts, i, st) && Step(lib, ts, i, st, false).Some?
    ensures Awaits(ts, Step(lib, ts, i, st, false).value.0, Step(lib, ts, i, st, false).value.1)
  {
    hide Word1, Redirected, Flush;
    var fd := Descriptor(lib, ts, i);
    var j := if fd.Some? then i + 1 else i;
    var next := Step(lib, ts, i, st, false).value.0;
    assert ts[..next][..next - 1] == ts[..next - 1];
    if ts[j].kind.Operator? && ts[j].raw == "\n" {
      assert fd.None? && next == i + 1;
    }
    FlushClears(lib, st);
  }

  lemma FlushClears(lib: Library, st: State)
    ensures Flush(lib, st, false).Some? ==> Flush(lib, st, false) == Some(Flushed(st))
  {
  }

  lemma {:induction false} RestIsSound(lib: Library, ts: seq<Token>, i: nat, st: State)
    requires i <= |ts| && IsSoundState(st) && Awaits(ts, i, st) && Rest(lib, ts, i, st, false).Some?
    ensures AreSound(Rest(lib, ts, i, st, false).value) && !Dangles(ts)
    decreases |ts| - i
  {
    hide Step, Flush;
    if i == |ts| {
      assert ts[..i] == ts;
      if st.argv != [] {
        FlushIsSound(lib, st);
      }
    } else {
      StepIsSound(lib, ts, i, st);
      StepAwaits(lib, ts, i, st);
      RestIsSound(lib, ts, Step(lib, ts, i, st, false).value.0, Step(lib, ts, i, st, false).value.1);
    }
  }

  // A complete parse of the first version passes the loader's checks, begins with "start", and its
  // text does not end on a connector that wants another command.
  lemma CompleteIsSound(lib: Library, text: string)
    requires Parsed(lib, text, false).Complete?
    ensures Parsed(lib, text, false).commands != [] && AreSound(Parsed(lib, text, false).commands)
    ensures !Dangles(Visible(Lex(text, 0)))
  {
    RestIsSound(lib, Visible(Lex(text, 0)), 0, START);
  }
}
