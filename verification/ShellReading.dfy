/** What a parse is, read off the visible tokens: spans of tokens between separators, each the command
    of its words and redirections. A text parses to a list of commands exactly when its tokens can be
    cut into spans that say these commands. */
module ShellReading {
  import opened Wrappers
  import opened ShellLexer
  import opened ShellOracle

  // ---- The roles of tokens ----

  predicate IsMark(t: Token) {
    t.kind.Operator? && t.raw in {">", ">>", "<", ">|", ">&", "<&"}
  }

  predicate IsLineEnd(t: Token) {
    t.kind.Operator? && t.raw == "\n"
  }

  // The operators between commands, and the ones no command may hold.
  predicate IsBreak(t: Token) {
    t.kind.Operator? && !IsMark(t)
  }

  predicate IsTarget(ts: seq<Token>, i: nat)
    requires i < |ts|
  {
    ts[i].kind.Word? && i > 0 && IsMark(ts[i - 1])
  }

  predicate IsDescriptor(lib: Library, ts: seq<Token>, i: nat)
    requires i < |ts|
  {
    && ts[i].kind.Word? && !IsTarget(ts, i) && lib.number(ts[i].raw).Some?
    && i + 1 < |ts| && IsMark(ts[i + 1]) && ts[i].end == ts[i + 1].start
  }

  predicate IsArgument(lib: Library, ts: seq<Token>, i: nat)
    requires i < |ts|
  {
    ts[i].kind.Word? && !IsTarget(ts, i) && !IsDescriptor(lib, ts, i)
  }

  // The places of a span's arguments, in order.
  function Arguments(lib: Library, ts: seq<Token>, from: nat, end: nat): (r: seq<nat>)
    requires from <= end <= |ts|
    ensures (forall k | 0 <= k < |r| :: from <= r[k] < end && IsArgument(lib, ts, r[k]))
    decreases end - from
  {
    if from == end then []
    else Arguments(lib, ts, from, end - 1) + if IsArgument(lib, ts, end - 1) then [end - 1] else []
  }

  // The places of a span's redirection operators, in order.
  function Marks(ts: seq<Token>, from: nat, end: nat): (r: seq<nat>)
    requires from <= end <= |ts|
    ensures (forall k | 0 <= k < |r| :: from <= r[k] < end && IsMark(ts[r[k]]))
    decreases end - from
  {
    if from == end then []
    else Marks(ts, from, end - 1) + if IsMark(ts[end - 1]) then [end - 1] else []
  }

  // ---- What a span says ----

  // Each argument decodes to its word.
  ghost predicate SaysWords(lib: Library, ts: seq<Token>, at: seq<nat>, second: bool, argv: seq<string>,
    globs: seq<nat>, homes: seq<nat>)
    requires forall k | 0 <= k < |at| :: at[k] < |ts|
  {
    && |argv| == |at| && AreGlobs(globs, argv) && AreGlobs(homes, argv)
    && forall k | 0 <= k < |at| ::
         var word := WordOf(lib, ts[at[k]].raw, second);
         word.Some? && argv[k] == word.value.value && (k in globs <==> word.value.glob) &&
         (k in homes <==> word.value.home)
  }

  // The descriptor of an operator: the number written directly before it, or the default.
  function SourceAt(lib: Library, ts: seq<Token>, m: nat): nat
    requires m < |ts| && IsMark(ts[m])
  {
    if m > 0 && IsDescriptor(lib, ts, m - 1) then lib.number(ts[m - 1].raw).value
    else if ts[m].raw in {"<", "<&"} then 0 else 1
  }

  // The redirection of the operator at m: one static target follows it, and the descriptors are digits.
  ghost predicate SaysRedirect(lib: Library, ts: seq<Token>, m: nat, second: bool, r: Redirect)
    requires m < |ts| && IsMark(ts[m])
  {
    && m + 1 < |ts| && ts[m + 1].kind.Word?
    && WordOf(lib, ts[m + 1].raw, second) == Some(Spelled(r.target, false, false)) && r.target != ""
    && r.operator == ts[m].raw && r.fd == SourceAt(lib, ts, m) && r.fd <= 9
    && (r.operator in {">&", "<&"} && r.target != "-" ==>
          lib.number(r.target).Some? && lib.number(r.target).value <= 9)
  }

  ghost predicate SaysRedirects(lib: Library, ts: seq<Token>, at: seq<nat>, second: bool, rs: seq<Redirect>)
    requires forall k | 0 <= k < |at| :: at[k] < |ts| && IsMark(ts[at[k]])
  {
    |rs| == |at| && forall k | 0 <= k < |at| :: SaysRedirect(lib, ts, at[k], second, rs[k])
  }

  // command -v and command -V with nothing but names.
  predicate IsLookup(c: Command) {
    && c.globs == [] && c.homes == [] && |c.argv| > 2 && c.argv[0] == "command" && c.argv[1] in {"-v", "-V"}
    && if c.argv[2] == "--" then |c.argv| > 3 && forall k | 3 <= k < |c.argv| :: c.argv[k] != ""
       else forall k | 2 <= k < |c.argv| :: c.argv[k] != "" && c.argv[k][0] != '-'
  }

  // A head that is a plain static name of a program, run with static arguments.
  predicate IsAllowed(lib: Library, c: Command, second: bool) {
    && c.argv != [] && !lib.assigns(c.argv[0]) && 0 !in c.globs && (second ==> 0 !in c.homes) && !lib.embeds(c.argv)
    && (Basename(c.argv[0]) in CONTROL ==> second && IsLookup(c))
  }

  ghost predicate Says(lib: Library, ts: seq<Token>, from: nat, end: nat, second: bool, c: Command)
    requires from <= end <= |ts|
  {
    && SaysWords(lib, ts, Arguments(lib, ts, from, end), second, c.argv, c.globs, c.homes)
    && SaysRedirects(lib, ts, Marks(ts, from, end), second, c.redirects)
  }

  // ---- Cutting the tokens ----

  datatype Span = Span(from: nat, end: nat)

  ghost predicate LineEnds(ts: seq<Token>, from: nat, end: nat)
    requires end <= |ts|
  {
    forall i | from <= i < end :: IsLineEnd(ts[i])
  }

  // Spans hold no separator; the token after one is the separator, and only line ends stand between it and
  // the next span.
  ghost predicate AreSpans(ts: seq<Token>, cuts: seq<Span>) {
    && (forall k | 0 <= k < |cuts| :: cuts[k].from <= cuts[k].end <= |ts|)
    && (forall k, i | 0 <= k < |cuts| && cuts[k].from <= i < cuts[k].end :: !IsBreak(ts[i]))
    && (cuts != [] ==> LineEnds(ts, 0, cuts[0].from))
    && (forall k | 0 < k < |cuts| :: Follows(ts, cuts[k - 1].end, cuts[k].from))
  }

  // One separator stands at end, and the next span begins after any further line ends.
  ghost predicate Follows(ts: seq<Token>, end: nat, from: nat) {
    end < from <= |ts| && IsSeparator(ts[end]) && LineEnds(ts, end + 1, from)
  }

  predicate IsSeparator(t: Token) {
    t.kind.Operator? && t.raw in {";", "\n", "&&", "||", "|"}
  }

  // Nothing is left: the last span ends the text, or a semicolon or line end and further line ends follow.
  ghost predicate IsWhole(ts: seq<Token>, cuts: seq<Span>)
    requires cuts != [] && cuts[|cuts| - 1].end <= |ts|
  {
    var end := cuts[|cuts| - 1].end;
    end < |ts| ==> ts[end].kind.Operator? && ts[end].raw in {";", "\n"} && LineEnds(ts, end + 1, |ts|)
  }

  // The connector of command k is the separator before it; a line end reads as a semicolon.
  predicate Connects(ts: seq<Token>, cuts: seq<Span>, k: nat, connector: string)
    requires k <= |cuts| && (k > 0 ==> cuts[k - 1].end < |ts|)
  {
    if k == 0 then connector == "start"
    else if IsLineEnd(ts[cuts[k - 1].end]) then connector == ";" else connector == ts[cuts[k - 1].end].raw
  }

  // Command k is what span k says, one that may be run, and its connector is the separator before it.
  ghost predicate Told(lib: Library, ts: seq<Token>, cuts: seq<Span>, k: nat, second: bool, c: Command) {
    && k < |cuts| && cuts[k].from <= cuts[k].end <= |ts| && (k > 0 ==> cuts[k - 1].end < |ts|)
    && Says(lib, ts, cuts[k].from, cuts[k].end, second, c) && IsAllowed(lib, c, second)
    && Connects(ts, cuts, k, c.connector)
  }

  // The commands are what the spans say.
  ghost predicate Tell(lib: Library, ts: seq<Token>, cuts: seq<Span>, second: bool, cs: seq<Command>) {
    && |cuts| == |cs| && AreSpans(ts, cuts)
    && forall k | 0 <= k < |cs| :: Told(lib, ts, cuts, k, second, cs[k])
  }

  ghost predicate IsReading(lib: Library, ts: seq<Token>, cuts: seq<Span>, second: bool, cs: seq<Command>) {
    cs != [] && Tell(lib, ts, cuts, second, cs) && IsWhole(ts, cuts)
  }

  // ---- Tokens of a text ----

  // Comments are gone, and no word looks like a redirection.
  ghost predicate IsSane(ts: seq<Token>) {
    forall i | 0 <= i < |ts| :: !ts[i].kind.Comment? && (ts[i].raw in REDIRECTS ==> ts[i].kind.Operator?)
  }

  // ---- One step ----

  // A step does not begin between a redirection operator and its target, or a descriptor and its operator.
  predicate IsBoundary(lib: Library, ts: seq<Token>, i: nat)
    requires i <= |ts|
  {
    i > 0 ==> !IsMark(ts[i - 1]) && !IsDescriptor(lib, ts, i - 1)
  }

  ghost predicate Held(lib: Library, ts: seq<Token>, from: nat, end: nat, second: bool, st: State)
    requires from <= end <= |ts|
  {
    && SaysWords(lib, ts, Arguments(lib, ts, from, end), second, st.argv, st.globs, st.homes)
    && SaysRedirects(lib, ts, Marks(ts, from, end), second, st.redirects)
  }

  lemma RedirectAt(lib: Library, ts: seq<Token>, m: nat, second: bool, fd: Option<nat>, r: Redirect)
    requires m < |ts| && IsMark(ts[m])
    requires fd == if m > 0 && IsDescriptor(lib, ts, m - 1) then lib.number(ts[m - 1].raw) else None
    ensures SaysRedirect(lib, ts, m, second, r) <==>
            m + 1 < |ts| && ts[m + 1].kind.Word? &&
            Redirected(lib, ts[m].raw, WordOf(lib, ts[m + 1].raw, second), fd) == Some(r)
  {
    hide Word1, Word2;
    assert ts[m].raw[0] == '<' <==> ts[m].raw in {"<", "<&"};
  }

  lemma DescriptorIs(lib: Library, ts: seq<Token>, i: nat)
    requires i < |ts| && IsSane(ts) && IsBoundary(lib, ts, i)
    ensures Descriptor(lib, ts, i) == if IsDescriptor(lib, ts, i) then lib.number(ts[i].raw) else None
  {
  }

  // A step over a redirection, with or without a descriptor, adds what the tokens say.
  lemma StepAtMark(lib: Library, ts: seq<Token>, i: nat, m: nat, st: State, second: bool, r: Redirect)
    requires i <= m < |ts| && IsSane(ts) && IsBoundary(lib, ts, i) && IsMark(ts[m])
    requires m == if IsDescriptor(lib, ts, i) then i + 1 else i
    ensures SaysRedirect(lib, ts, m, second, r) <==>
            Step(lib, ts, i, st, second) == Some((m + 2, st.(redirects := st.redirects + [r])))
    ensures Step(lib, ts, i, st, second).Some? ==>
      exists q :: Step(lib, ts, i, st, second) == Some((m + 2, st.(redirects := st.redirects + [q])))
  {
    hide WordOf, Redirected, SaysRedirect;
    DescriptorIs(lib, ts, i);
    var fd := Descriptor(lib, ts, i);
    RedirectAt(lib, ts, m, second, fd, r);
    if m + 1 < |ts| && ts[m + 1].kind.Word? {
      var q := Redirected(lib, ts[m].raw, WordOf(lib, ts[m + 1].raw, second), fd);
      if q.Some? {
        assert Step(lib, ts, i, st, second) == Some((m + 2, st.(redirects := st.redirects + [q.value])));
        assert (st.redirects + [q.value])[|st.redirects|] == q.value;
        assert (st.redirects + [r])[|st.redirects|] == r;
      }
    }
  }

  lemma StepAtArgument(lib: Library, ts: seq<Token>, i: nat, st: State, second: bool)
    requires i < |ts| && IsSane(ts) && IsBoundary(lib, ts, i) && IsArgument(lib, ts, i)
    ensures var word := WordOf(lib, ts[i].raw, second);
            Step(lib, ts, i, st, second) == if word.None? then None else Some((i + 1, WithWord(st, word.value)))
  {
    hide WordOf, Redirected, WithWord;
    DescriptorIs(lib, ts, i);
  }

  lemma StepAtBreak(lib: Library, ts: seq<Token>, i: nat, st: State, second: bool)
    requires i < |ts| && IsSane(ts) && IsBoundary(lib, ts, i) && IsBreak(ts[i])
    ensures Step(lib, ts, i, st, second) ==
            if !IsSeparator(ts[i]) then None
            else if st.argv == [] then if IsLineEnd(ts[i]) && st.redirects == [] then Some((i + 1, st)) else None
            else
              var next := Flush(lib, st, second);
              if next.None? then None else Some((i + 1, Separated(next.value, ts[i].raw)))
  {
    hide WordOf, Redirected, Flush;
    DescriptorIs(lib, ts, i);
  }

  // ---- What is held after a step ----

  lemma WordSaid(lib: Library, ts: seq<Token>, at: seq<nat>, second: bool, st: State, i: nat, w: Spelled)
    requires i < |ts| && WordOf(lib, ts[i].raw, second) == Some(w)
    requires (forall k | 0 <= k < |at| :: at[k] < |ts|) && SaysWords(lib, ts, at, second, st.argv, st.globs, st.homes)
    ensures var after := WithWord(st, w);
            SaysWords(lib, ts, at + [i], second, after.argv, after.globs, after.homes)
  {
    hide WordOf;
    var after, n := WithWord(st, w), |st.argv|;
    assert n !in st.globs && n !in st.homes;
    Extended(st.globs, n, w.glob);
    Extended(st.homes, n, w.home);
    forall k | 0 <= k < |at + [i]|
      ensures var word := WordOf(lib, ts[(at + [i])[k]].raw, second);
              word.Some? && after.argv[k] == word.value.value && (k in after.globs <==> word.value.glob) &&
              (k in after.homes <==> word.value.home)
    {
      if k < n {
        assert (at + [i])[k] == at[k];
      }
    }
  }

  lemma Extended(marked: seq<nat>, n: nat, mark: bool)
    ensures var after := if mark then marked + [n] else marked;
            forall k :: k in after <==> k in marked || (mark && k == n)
  {
  }

  // An argument joins the held words.
  lemma HeldWithWord(lib: Library, ts: seq<Token>, from: nat, i: nat, second: bool, st: State, w: Spelled)
    requires from <= i < |ts| && Held(lib, ts, from, i, second, st) && IsArgument(lib, ts, i)
    requires WordOf(lib, ts[i].raw, second) == Some(w)
    ensures Held(lib, ts, from, i + 1, second, WithWord(st, w))
  {
    hide WordOf, SaysWords, SaysRedirects;
    WordSaid(lib, ts, Arguments(lib, ts, from, i), second, st, i, w);
    assert Marks(ts, from, i + 1) == Marks(ts, from, i);
  }

  lemma RedirectSaid(lib: Library, ts: seq<Token>, at: seq<nat>, second: bool, rs: seq<Redirect>, m: nat, r: Redirect)
    requires m < |ts| && IsMark(ts[m]) && SaysRedirect(lib, ts, m, second, r)
    requires (forall k | 0 <= k < |at| :: at[k] < |ts| && IsMark(ts[at[k]])) && SaysRedirects(lib, ts, at, second, rs)
    ensures SaysRedirects(lib, ts, at + [m], second, rs + [r])
  {
    hide SaysRedirect;
  }

  // The tokens of a redirection hold one more operator and no argument.
  lemma MarkAlone(lib: Library, ts: seq<Token>, from: nat, i: nat, m: nat)
    requires from <= i <= m && m + 1 < |ts| && IsMark(ts[m]) && ts[m + 1].kind.Word?
    requires m == if IsDescriptor(lib, ts, i) then i + 1 else i
    ensures Arguments(lib, ts, from, m + 2) == Arguments(lib, ts, from, i)
    ensures Marks(ts, from, m + 2) == Marks(ts, from, i) + [m]
    ensures forall k | i <= k < m + 2 :: !IsBreak(ts[k])
  {
    assert IsTarget(ts, m + 1);
    assert Arguments(lib, ts, from, m + 2) == Arguments(lib, ts, from, m + 1) == Arguments(lib, ts, from, m);
    assert Marks(ts, from, m + 2) == Marks(ts, from, m + 1) == Marks(ts, from, m) + [m];
    if m == i + 1 {
      assert Arguments(lib, ts, from, m) == Arguments(lib, ts, from, i);
      assert Marks(ts, from, m) == Marks(ts, from, i);
    }
  }

  lemma HeldWithRedirect(lib: Library, ts: seq<Token>, from: nat, i: nat, m: nat, second: bool, st: State, r: Redirect)
    requires from <= i <= m < |ts| && IsMark(ts[m]) && Held(lib, ts, from, i, second, st)
    requires m == if IsDescriptor(lib, ts, i) then i + 1 else i
    requires SaysRedirect(lib, ts, m, second, r)
    ensures m + 2 <= |ts| && Held(lib, ts, from, m + 2, second, st.(redirects := st.redirects + [r]))
    ensures IsBoundary(lib, ts, m + 2) && forall k | i <= k < m + 2 :: !IsBreak(ts[k])
  {
    MarkAlone(lib, ts, from, i, m);
    RedirectSaid(lib, ts, Marks(ts, from, i), second, st.redirects, m, r);
    hide SaysWords, SaysRedirects;
  }

  // ---- What tokens say is one command ----

  lemma {:induction false} SameMarked(a: seq<nat>, b: seq<nat>, argv: seq<string>)
    requires AreGlobs(a, argv) && AreGlobs(b, argv) && forall k | 0 <= k < |argv| :: k in a <==> k in b
    ensures a == b
    decreases |argv|
  {
    if |argv| == 0 {
      NoMarks(a);
      NoMarks(b);
    } else {
      var n := |argv| - 1;
      var shorter := argv[..n];
      var a', b' := Below(a, n, argv), Below(b, n, argv);
      SameMarked(a', b', shorter);
    }
  }

  // The marks below n, which is the last place.
  function Below(a: seq<nat>, n: nat, argv: seq<string>): (r: seq<nat>)
    requires |argv| == n + 1 && AreGlobs(a, argv)
    ensures AreGlobs(r, argv[..n]) && a == r + (if n in a then [n] else [])
    ensures forall k | 0 <= k < n :: k in r <==> k in a
  {
    if a != [] && a[|a| - 1] == n then a[..|a| - 1] else a
  }

  lemma SameWords(lib: Library, ts: seq<Token>, at: seq<nat>, second: bool, st: State, c: Command)
    requires forall k | 0 <= k < |at| :: at[k] < |ts|
    requires SaysWords(lib, ts, at, second, st.argv, st.globs, st.homes)
    requires SaysWords(lib, ts, at, second, c.argv, c.globs, c.homes)
    ensures st.argv == c.argv && st.globs == c.globs && st.homes == c.homes
  {
    hide WordOf;
    assert forall k | 0 <= k < |at| :: st.argv[k] == c.argv[k];
    assert st.argv == c.argv;
    SameMarked(st.globs, c.globs, c.argv);
    SameMarked(st.homes, c.homes, c.argv);
  }

  lemma HeldIsSaid(lib: Library, ts: seq<Token>, from: nat, end: nat, second: bool, st: State, c: Command)
    requires from <= end <= |ts| && Held(lib, ts, from, end, second, st) && Says(lib, ts, from, end, second, c)
    requires st.connector == c.connector
    ensures Flushed(st).commands == st.commands + [c]
  {
    SameWords(lib, ts, Arguments(lib, ts, from, end), second, st, c);
    var at := Marks(ts, from, end);
    forall k | 0 <= k < |at|
      ensures st.redirects[k] == c.redirects[k]
    {
      assert SaysRedirect(lib, ts, at[k], second, st.redirects[k]) &&
        SaysRedirect(lib, ts, at[k], second, c.redirects[k]);
    }
    assert st.redirects == c.redirects;
  }

  lemma FlushIsAllowed(lib: Library, st: State, second: bool)
    ensures var c := Command(st.connector, st.argv, st.globs, st.homes, st.redirects);
            Flush(lib, st, second) == if IsAllowed(lib, c, second) then Some(Flushed(st)) else None
  {
    var c := Command(st.connector, st.argv, st.globs, st.homes, st.redirects);
    assert IsQuery(st) <==> IsLookup(c);
  }

  // ---- What is reached between steps ----

  // The next span may begin at from.
  ghost predicate Opens(ts: seq<Token>, cuts: seq<Span>, from: nat)
    requires from <= |ts|
  {
    if cuts == [] then LineEnds(ts, 0, from) else Follows(ts, cuts[|cuts| - 1].end, from)
  }

  predicate Wants(ts: seq<Token>, cuts: seq<Span>) {
    cuts != [] && cuts[|cuts| - 1].end < |ts| && ts[cuts[|cuts| - 1].end].raw in {"&&", "||", "|"}
  }

  ghost predicate Finished(lib: Library, ts: seq<Token>, cuts: seq<Span>, from: nat, second: bool, cs: seq<Command>,
    connector: string)
  {
    from <= |ts| && Tell(lib, ts, cuts, second, cs) && Opens(ts, cuts, from) && Connects(ts, cuts, |cuts|, connector)
  }

  ghost predicate NoBreaks(ts: seq<Token>, from: nat, end: nat)
    requires end <= |ts|
  {
    forall k | from <= k < end :: !IsBreak(ts[k])
  }

  // The finished commands are told by the cuts, and the tokens from..i are held for the next.
  ghost predicate Reached(lib: Library, ts: seq<Token>, cuts: seq<Span>, from: nat, i: nat, second: bool, st: State) {
    && Finished(lib, ts, cuts, from, second, st.commands, st.connector)
    && from <= i <= |ts| && IsBoundary(lib, ts, i) && Held(lib, ts, from, i, second, st) && NoBreaks(ts, from, i)
    && (st.argv == [] && st.redirects == [] ==> from == i)
    && (st.needWord <==> st.argv == [] && Wants(ts, cuts))
  }

  lemma ReachWord(lib: Library, ts: seq<Token>, cuts: seq<Span>, from: nat, i: nat, second: bool, st: State, w: Spelled)
    requires Reached(lib, ts, cuts, from, i, second, st) && i < |ts| && IsArgument(lib, ts, i)
    requires WordOf(lib, ts[i].raw, second) == Some(w)
    ensures Reached(lib, ts, cuts, from, i + 1, second, WithWord(st, w))
  {
    hide WordOf, Wants, Finished;
    HeldWithWord(lib, ts, from, i, second, st, w);
    hide Held;
  }

  lemma ReachRedirect(lib: Library, ts: seq<Token>, cuts: seq<Span>, from: nat, i: nat, m: nat, second: bool, st: State,
    r: Redirect)
    requires Reached(lib, ts, cuts, from, i, second, st) && i <= m < |ts| && IsMark(ts[m])
    requires m == if IsDescriptor(lib, ts, i) then i + 1 else i
    requires SaysRedirect(lib, ts, m, second, r)
    ensures m + 2 <= |ts| &&
      Reached(lib, ts, cuts, from, m + 2, second, st.(redirects := st.redirects + [r]))
  {
    HeldWithRedirect(lib, ts, from, i, m, second, st, r);
    assert NoBreaks(ts, from, m + 2);
    hide SaysRedirect, Held, Finished, Wants;
  }

  lemma NoMarks(marked: seq<nat>)
    ensures AreGlobs(marked, []) ==> marked == []
  {
    if marked != [] {
      var first := marked[0];
    }
  }

  lemma ReachLineEnd(lib: Library, ts: seq<Token>, cuts: seq<Span>, from: nat, i: nat, second: bool, st: State)
    requires Reached(lib, ts, cuts, from, i, second, st) && i < |ts| && IsLineEnd(ts[i])
    requires st.argv == [] && st.redirects == []
    ensures Reached(lib, ts, cuts, i + 1, i + 1, second, st)
  {
    hide Tell, Connects, Wants, SaysRedirect, WordOf;
    NoMarks(st.globs);
    NoMarks(st.homes);
    assert Arguments(lib, ts, i, i) == [] && Marks(ts, i, i) == [];
    assert Arguments(lib, ts, i + 1, i + 1) == [] && Marks(ts, i + 1, i + 1) == [];
  }

  // The pending command as it will be flushed.
  function Pending(st: State): Command {
    Command(st.connector, st.argv, st.globs, st.homes, st.redirects)
  }

  lemma SpansOneMore(ts: seq<Token>, cuts: seq<Span>, from: nat, i: nat)
    requires from <= i <= |ts| && AreSpans(ts, cuts) && Opens(ts, cuts, from) &&
      forall k | from <= k < i :: !IsBreak(ts[k])
    ensures AreSpans(ts, cuts + [Span(from, i)])
  {
    hide IsBreak, LineEnds, IsSeparator;
    var more := cuts + [Span(from, i)];
    forall k, j | 0 <= k < |more| && more[k].from <= j < more[k].end
      ensures !IsBreak(ts[j])
    {
      if k < |cuts| {
        assert more[k] == cuts[k];
      }
    }
    forall k | 0 < k < |more|
      ensures Follows(ts, more[k - 1].end, more[k].from)
    {
      if k < |cuts| {
        assert more[k] == cuts[k] && more[k - 1] == cuts[k - 1];
      }
    }
  }

  lemma ConnectsAgain(ts: seq<Token>, cuts: seq<Span>, span: Span, k: nat, connector: string)
    requires k <= |cuts| && (k > 0 ==> cuts[k - 1].end < |ts|)
    ensures Connects(ts, cuts + [span], k, connector) <==> Connects(ts, cuts, k, connector)
  {
  }

  lemma ToldAgain(lib: Library, ts: seq<Token>, cuts: seq<Span>, span: Span, k: nat, second: bool, c: Command)
    requires Told(lib, ts, cuts, k, second, c)
    ensures Told(lib, ts, cuts + [span], k, second, c)
  {
    hide Says, IsAllowed;
    ConnectsAgain(ts, cuts, span, k, c.connector);
  }

  lemma ToldNext(lib: Library, ts: seq<Token>, cuts: seq<Span>, from: nat, i: nat, second: bool,
    cs: seq<Command>, c: Command)
    requires from <= i <= |ts| && Finished(lib, ts, cuts, from, second, cs, c.connector)
    requires Says(lib, ts, from, i, second, c) && IsAllowed(lib, c, second)
    ensures Told(lib, ts, cuts + [Span(from, i)], |cuts|, second, c)
  {
    hide Says, IsAllowed, Tell, LineEnds;
    ConnectsAgain(ts, cuts, Span(from, i), |cuts|, c.connector);
  }

  lemma ToldOneMore(lib: Library, ts: seq<Token>, cuts: seq<Span>, from: nat, i: nat, second: bool,
    cs: seq<Command>, c: Command)
    requires from <= i <= |ts| && Finished(lib, ts, cuts, from, second, cs, c.connector) && NoBreaks(ts, from, i)
    requires Says(lib, ts, from, i, second, c) && IsAllowed(lib, c, second)
    ensures Tell(lib, ts, cuts + [Span(from, i)], second, cs + [c])
  {
    hide Says, IsAllowed, Connects, IsBreak, LineEnds, Follows, Told;
    SpansOneMore(ts, cuts, from, i);
    ToldNext(lib, ts, cuts, from, i, second, cs, c);
    hide AreSpans, Opens;
    var more, all := cuts + [Span(from, i)], cs + [c];
    forall k: nat | k < |all|
      ensures Told(lib, ts, more, k, second, all[k])
    {
      if k < |cuts| {
        ToldAgain(lib, ts, cuts, Span(from, i), k, second, cs[k]);
        assert all[k] == cs[k];
      }
    }
  }

  lemma HeldAlone(lib: Library, ts: seq<Token>, i: nat, second: bool, st: State)
    requires i <= |ts|
    ensures Held(lib, ts, i, i, second, st) <==>
            st.argv == [] && st.globs == [] && st.homes == [] && st.redirects == []
  {
    NoMarks(st.globs);
    NoMarks(st.homes);
  }

  lemma FinishedNext(lib: Library, ts: seq<Token>, cuts: seq<Span>, from: nat, i: nat, second: bool, st: State)
    requires Reached(lib, ts, cuts, from, i, second, st) && i < |ts| && IsSeparator(ts[i])
    requires IsAllowed(lib, Pending(st), second)
    ensures var after := Separated(Flushed(st), ts[i].raw);
            Finished(lib, ts, cuts + [Span(from, i)], i + 1, second, after.commands, after.connector)
  {
    ToldOneMore(lib, ts, cuts, from, i, second, st.commands, Pending(st));
    hide Held, IsAllowed, Tell, IsBoundary;
  }

  // A separator finishes the pending command.
  lemma ReachSeparator(lib: Library, ts: seq<Token>, cuts: seq<Span>, from: nat, i: nat, second: bool, st: State)
    requires Reached(lib, ts, cuts, from, i, second, st) && i < |ts| && IsSeparator(ts[i])
    requires IsAllowed(lib, Pending(st), second)
    ensures Reached(lib, ts, cuts + [Span(from, i)], i + 1, i + 1, second, Separated(Flushed(st), ts[i].raw))
  {
    FinishedNext(lib, ts, cuts, from, i, second, st);
    HeldAlone(lib, ts, i + 1, second, Separated(Flushed(st), ts[i].raw));
    hide Held, IsAllowed, Finished;
  }

  // ---- The two directions ----

  lemma Role(lib: Library, ts: seq<Token>, i: nat)
    requires i < |ts| && IsSane(ts) && IsBoundary(lib, ts, i)
    ensures IsBreak(ts[i]) || IsMark(ts[i]) || IsArgument(lib, ts, i) ||
            (IsDescriptor(lib, ts, i) && i + 1 < |ts| && IsMark(ts[i + 1]))
  {
  }

  lemma BreakReaches(lib: Library, ts: seq<Token>, cuts: seq<Span>, from: nat, i: nat, second: bool, st: State)
    returns (more: seq<Span>, next: nat)
    requires IsSane(ts) && Reached(lib, ts, cuts, from, i, second, st) && i < |ts| && IsBreak(ts[i])
    requires Step(lib, ts, i, st, second).Some?
    ensures var after := Step(lib, ts, i, st, second).value; Reached(lib, ts, more, next, after.0, second, after.1)
  {
    StepAtBreak(lib, ts, i, st, second);
    FlushIsAllowed(lib, st, second);
    hide Reached, Step, Flush, IsSane, IsAllowed;
    if st.argv == [] {
      ReachLineEnd(lib, ts, cuts, from, i, second, st);
      more, next := cuts, i + 1;
    } else {
      ReachSeparator(lib, ts, cuts, from, i, second, st);
      more, next := cuts + [Span(from, i)], i + 1;
    }
  }

  lemma StepReaches(lib: Library, ts: seq<Token>, cuts: seq<Span>, from: nat, i: nat, second: bool, st: State)
    returns (more: seq<Span>, next: nat)
    requires IsSane(ts) && Reached(lib, ts, cuts, from, i, second, st) && i < |ts| && Step(lib, ts, i, st, second).Some?
    ensures var after := Step(lib, ts, i, st, second).value; Reached(lib, ts, more, next, after.0, second, after.1)
  {
    Role(lib, ts, i);
    more, next := cuts, from;
    hide Reached, Step, IsSane, IsDescriptor;
    if IsBreak(ts[i]) {
      more, next := BreakReaches(lib, ts, cuts, from, i, second, st);
    } else if IsArgument(lib, ts, i) {
      StepAtArgument(lib, ts, i, st, second);
      ReachWord(lib, ts, cuts, from, i, second, st, WordOf(lib, ts[i].raw, second).value);
    } else {
      var m := if IsDescriptor(lib, ts, i) then i + 1 else i;
      var r := StepsOver(lib, ts, i, m, second, st);
      ReachRedirect(lib, ts, cuts, from, i, m, second, st, r);
    }
  }

  // However the rest of the tokens is read, its commands are what spans of the tokens say.
  lemma {:induction false} RestIsReading(lib: Library, ts: seq<Token>, cuts: seq<Span>, from: nat, i: nat, second: bool,
    st: State) returns (all: seq<Span>)
    requires i <= |ts| && IsSane(ts) && Reached(lib, ts, cuts, from, i, second, st)
    requires Rest(lib, ts, i, st, second).Some? && Rest(lib, ts, i, st, second).value != []
    ensures IsReading(lib, ts, all, second, Rest(lib, ts, i, st, second).value)
    decreases |ts| - i
  {
    hide IsReading, Step, IsSane, Reached;
    if i == |ts| {
      all := EndIsReading(lib, ts, cuts, from, second, st);
    } else {
      var after := Step(lib, ts, i, st, second).value;
      var more, next := StepReaches(lib, ts, cuts, from, i, second, st);
      all := RestIsReading(lib, ts, more, next, after.0, second, after.1);
    }
  }

  lemma StepsOver(lib: Library, ts: seq<Token>, i: nat, m: nat, second: bool, st: State) returns (r: Redirect)
    requires i <= m < |ts| && IsSane(ts) && IsBoundary(lib, ts, i) && IsMark(ts[m])
    requires m == (if IsDescriptor(lib, ts, i) then i + 1 else i) && Step(lib, ts, i, st, second).Some?
    ensures SaysRedirect(lib, ts, m, second, r)
    ensures Step(lib, ts, i, st, second) == Some((m + 2, st.(redirects := st.redirects + [r])))
  {
    StepAtMark(lib, ts, i, m, st, second, Redirect(0, "", ""));
    hide Step, SaysRedirect, IsDescriptor;
    r :| Step(lib, ts, i, st, second) == Some((m + 2, st.(redirects := st.redirects + [r])));
    StepAtMark(lib, ts, i, m, st, second, r);
  }

  lemma EndIsReading(lib: Library, ts: seq<Token>, cuts: seq<Span>, from: nat, second: bool, st: State)
    returns (all: seq<Span>)
    requires Reached(lib, ts, cuts, from, |ts|, second, st)
    requires Ended(st, Flush(lib, st, second)).Some? && Ended(st, Flush(lib, st, second)).value != []
    ensures IsReading(lib, ts, all, second, Ended(st, Flush(lib, st, second)).value)
  {
    FlushIsAllowed(lib, st, second);
    hide Flush, IsAllowed;
    if st.argv != [] {
      ToldOneMore(lib, ts, cuts, from, |ts|, second, st.commands, Pending(st));
      all := cuts + [Span(from, |ts|)];
    } else {
      all := cuts;
    }
  }

  // ---- From spans back to the parse ----

  lemma {:induction false} ListsArgument(lib: Library, ts: seq<Token>, from: nat, end: nat, i: nat)
    requires from <= i < end <= |ts| && IsArgument(lib, ts, i)
    ensures exists k | 0 <= k < |Arguments(lib, ts, from, end)| :: Arguments(lib, ts, from, end)[k] == i
    decreases end
  {
    var before := Arguments(lib, ts, from, end - 1);
    if i == end - 1 {
      assert Arguments(lib, ts, from, end)[|before|] == i;
    } else {
      ListsArgument(lib, ts, from, end - 1, i);
      var k :| 0 <= k < |before| && before[k] == i;
      assert Arguments(lib, ts, from, end)[k] == i;
    }
  }

  lemma {:induction false} ListsMark(ts: seq<Token>, from: nat, end: nat, i: nat)
    requires from <= i < end <= |ts| && IsMark(ts[i])
    ensures exists k | 0 <= k < |Marks(ts, from, end)| :: Marks(ts, from, end)[k] == i
    decreases end
  {
    var before := Marks(ts, from, end - 1);
    if i == end - 1 {
      assert Marks(ts, from, end)[|before|] == i;
    } else {
      ListsMark(ts, from, end - 1, i);
      var k :| 0 <= k < |before| && before[k] == i;
      assert Marks(ts, from, end)[k] == i;
    }
  }

  // Where the reading stands: before span k, with nothing pending, or within it.
  predicate IsAt(cuts: seq<Span>, k: nat, from: nat, i: nat, st: State) {
    if k < |cuts| && cuts[k].from < i then from == cuts[k].from && i <= cuts[k].end
    else from == i && st.argv == [] && st.redirects == []
  }

  ghost predicate Replays(lib: Library, ts: seq<Token>, cuts: seq<Span>, k: nat, from: nat, i: nat, second: bool,
    st: State, cs: seq<Command>)
  {
    && k <= |cuts| && k <= |cs| && Reached(lib, ts, cuts[..k], from, i, second, st) && st.commands == cs[..k]
    && IsAt(cuts, k, from, i, st)
  }

  lemma SpanEnds(lib: Library, ts: seq<Token>, cuts: seq<Span>, second: bool, cs: seq<Command>, k: nat)
    requires IsReading(lib, ts, cuts, second, cs) && k < |cuts|
    ensures |cuts| == |cs| && cuts[k].from < cuts[k].end <= |ts| && Told(lib, ts, cuts, k, second, cs[k])
    ensures cuts[k].end < |ts| ==> IsSeparator(ts[cuts[k].end]) && !IsMark(ts[cuts[k].end])
    ensures if k + 1 < |cuts| then Follows(ts, cuts[k].end, cuts[k + 1].from) else IsWhole(ts, cuts)
    ensures NoBreaks(ts, cuts[k].from, cuts[k].end)
  {
    hide IsBreak, LineEnds, WordOf, SaysRedirects;
    assert Told(lib, ts, cuts, k, second, cs[k]);
    if k + 1 < |cuts| {
      assert Follows(ts, cuts[k].end, cuts[k + 1].from);
    }
  }

  // Between spans stand line ends only.
  lemma GapIsLineEnds(lib: Library, ts: seq<Token>, cuts: seq<Span>, second: bool, cs: seq<Command>, k: nat, i: nat)
    requires IsReading(lib, ts, cuts, second, cs) && k <= |cuts| && i < |ts| && (k < |cuts| ==> i < cuts[k].from)
    requires k > 0 ==> cuts[k - 1].end < i
    ensures IsLineEnd(ts[i])
  {
    if k > 0 {
      SpanEnds(lib, ts, cuts, second, cs, k - 1);
    }
    hide Told, IsBreak, IsLineEnd;
  }

  lemma ReplayGap(lib: Library, ts: seq<Token>, cuts: seq<Span>, k: nat, from: nat, i: nat, second: bool, st: State,
    cs: seq<Command>)
    requires IsSane(ts) && IsReading(lib, ts, cuts, second, cs) && Replays(lib, ts, cuts, k, from, i, second, st, cs)
    requires i < |ts| && (k < |cuts| ==> i < cuts[k].from)
    ensures Step(lib, ts, i, st, second) == Some((i + 1, st))
    ensures Replays(lib, ts, cuts, k, i + 1, i + 1, second, st, cs)
  {
    assert k > 0 ==> cuts[..k][k - 1] == cuts[k - 1];
    GapIsLineEnds(lib, ts, cuts, second, cs, k, i);
    hide IsReading;
    StepAtBreak(lib, ts, i, st, second);
    hide Step, IsSane;
    ReachLineEnd(lib, ts, cuts[..k], from, i, second, st);
    hide Reached;
  }

  lemma WordSaidAt(lib: Library, ts: seq<Token>, from: nat, end: nat, second: bool, c: Command, i: nat)
    requires from <= i < end <= |ts| && IsArgument(lib, ts, i) && Says(lib, ts, from, end, second, c)
    ensures WordOf(lib, ts[i].raw, second).Some?
  {
    hide WordOf, SaysRedirects, IsArgument;
    var at := Arguments(lib, ts, from, end);
    ListsArgument(lib, ts, from, end, i);
    var n :| 0 <= n < |at| && at[n] == i;
  }

  lemma ReplayWord(lib: Library, ts: seq<Token>, cuts: seq<Span>, k: nat, from: nat, i: nat, second: bool, st: State,
    cs: seq<Command>)
    requires IsSane(ts) && IsReading(lib, ts, cuts, second, cs) && Replays(lib, ts, cuts, k, from, i, second, st, cs)
    requires k < |cuts| && cuts[k].from <= i < cuts[k].end <= |ts| && IsArgument(lib, ts, i)
    ensures Step(lib, ts, i, st, second).Some? && var after := Step(lib, ts, i, st, second).value;
            Replays(lib, ts, cuts, k, from, after.0, second, after.1, cs)
  {
    hide IsReading, WordOf, IsArgument, Step, IsSane, Says, IsAllowed, Connects;
    SpanEnds(lib, ts, cuts, second, cs, k);
    WordSaidAt(lib, ts, cuts[k].from, cuts[k].end, second, cs[k], i);
    hide Told;
    StepAtArgument(lib, ts, i, st, second);
    ReachWord(lib, ts, cuts[..k], from, i, second, st, WordOf(lib, ts[i].raw, second).value);
    hide Reached;
  }

  // Every redirection of a span is told, and lies within it.
  lemma RedirectWithin(lib: Library, ts: seq<Token>, cuts: seq<Span>, second: bool, cs: seq<Command>, k: nat, i: nat)
    returns (m: nat, r: Redirect)
    requires IsReading(lib, ts, cuts, second, cs)
    requires k < |cuts| && cuts[k].from <= i < cuts[k].end <= |ts| && (IsMark(ts[i]) || IsDescriptor(lib, ts, i))
    ensures m == if IsDescriptor(lib, ts, i) then i + 1 else i
    ensures m + 2 <= cuts[k].end && IsMark(ts[m]) && SaysRedirect(lib, ts, m, second, r)
  {
    hide IsReading, NoBreaks, Follows, IsWhole;
    m := if IsDescriptor(lib, ts, i) then i + 1 else i;
    SpanEnds(lib, ts, cuts, second, cs, k);
    var from, end, c := cuts[k].from, cuts[k].end, cs[k];
    assert m < end && IsMark(ts[m]) && Says(lib, ts, from, end, second, c) by {
      hide Says;
    }
    hide Told, Says, IsDescriptor;
    r := RedirectSaidAt(lib, ts, from, end, second, c, m);
    assert m + 1 < |ts| && ts[m + 1].kind.Word?;
  }

  lemma RedirectSaidAt(lib: Library, ts: seq<Token>, from: nat, end: nat, second: bool, c: Command, m: nat)
    returns (r: Redirect)
    requires from <= m < end <= |ts| && IsMark(ts[m]) && Says(lib, ts, from, end, second, c)
    ensures SaysRedirect(lib, ts, m, second, r)
  {
    hide SaysRedirect, SaysWords;
    var at := Marks(ts, from, end);
    ListsMark(ts, from, end, m);
    var n :| 0 <= n < |at| && at[n] == m;
    r := c.redirects[n];
  }

  lemma ReplayRedirect(lib: Library, ts: seq<Token>, cuts: seq<Span>, k: nat, from: nat, i: nat, second: bool,
      st: State,
    cs: seq<Command>)
    requires IsSane(ts) && IsReading(lib, ts, cuts, second, cs) && Replays(lib, ts, cuts, k, from, i, second, st, cs)
    requires k < |cuts| && cuts[k].from <= i < cuts[k].end <= |ts| && (IsMark(ts[i]) || IsDescriptor(lib, ts, i))
    ensures Step(lib, ts, i, st, second).Some? && var after := Step(lib, ts, i, st, second).value;
            Replays(lib, ts, cuts, k, from, after.0, second, after.1, cs)
  {
    hide IsReading, SaysRedirect, IsDescriptor, Step, IsSane;
    var m, r := RedirectWithin(lib, ts, cuts, second, cs, k, i);
    StepAtMark(lib, ts, i, m, st, second, r);
    ReachRedirect(lib, ts, cuts[..k], from, i, m, second, st, r);
    hide Reached;
  }

  lemma SameConnector(ts: seq<Token>, cuts: seq<Span>, k: nat, a: string, b: string)
    requires k <= |cuts| && (k > 0 ==> cuts[k - 1].end < |ts|)
    requires Connects(ts, cuts[..k], k, a) && Connects(ts, cuts, k, b)
    ensures a == b
  {
  }

  lemma PendingIsTold(lib: Library, ts: seq<Token>, cuts: seq<Span>, k: nat, from: nat, i: nat, second: bool, st: State,
    cs: seq<Command>)
    requires IsReading(lib, ts, cuts, second, cs) && Replays(lib, ts, cuts, k, from, i, second, st, cs)
    requires k < |cuts| && i == cuts[k].end
    ensures from == cuts[k].from && Flushed(st).commands == cs[..k + 1]
    ensures IsAllowed(lib, Pending(st), second) && st.argv != []
  {
    hide IsReading, AreSpans, NoBreaks, Follows, IsWhole, IsBoundary, Tell, Opens, Wants;
    SpanEnds(lib, ts, cuts, second, cs, k);
    assert IsAllowed(lib, cs[k], second) && cs[k].argv != [];
    hide IsAllowed;
    SameConnector(ts, cuts, k, st.connector, cs[k].connector);
    HeldIsSaid(lib, ts, from, i, second, st, cs[k]);
    hide Told, Reached, Connects;
    assert Flushed(st).commands[|st.commands|] == Pending(st) && (st.commands + [cs[k]])[|st.commands|] == cs[k];
  }

  lemma StepFlushes(lib: Library, ts: seq<Token>, i: nat, st: State, second: bool)
    requires i < |ts| && IsSane(ts) && IsBoundary(lib, ts, i) && IsSeparator(ts[i]) && IsBreak(ts[i])
    requires IsAllowed(lib, Pending(st), second)
    ensures Step(lib, ts, i, st, second) == Some((i + 1, Separated(Flushed(st), ts[i].raw)))
  {
    StepAtBreak(lib, ts, i, st, second);
    FlushIsAllowed(lib, st, second);
    hide Step, Flush, IsSane;
  }

  lemma ReplaySeparator(lib: Library, ts: seq<Token>, cuts: seq<Span>, k: nat, from: nat, i: nat, second: bool,
      st: State,
    cs: seq<Command>)
    requires IsSane(ts) && IsReading(lib, ts, cuts, second, cs) && Replays(lib, ts, cuts, k, from, i, second, st, cs)
    requires k < |cuts| && i == cuts[k].end < |ts|
    ensures Step(lib, ts, i, st, second) == Some((i + 1, Separated(Flushed(st), ts[i].raw)))
    ensures Replays(lib, ts, cuts, k + 1, i + 1, i + 1, second, Separated(Flushed(st), ts[i].raw), cs)
  {
    hide IsReading, Told, IsAllowed, IsWhole, IsSane, Step, NoBreaks, LineEnds;
    SpanEnds(lib, ts, cuts, second, cs, k);
    PendingIsTold(lib, ts, cuts, k, from, i, second, st, cs);
    StepFlushes(lib, ts, i, st, second);
    ReachSeparator(lib, ts, cuts[..k], from, i, second, st);
    hide Reached;
    assert cuts[..k] + [Span(from, i)] == cuts[..k + 1];
  }

  lemma ReplayEnd(lib: Library, ts: seq<Token>, cuts: seq<Span>, k: nat, from: nat, second: bool, st: State,
    cs: seq<Command>)
    requires IsReading(lib, ts, cuts, second, cs) && Replays(lib, ts, cuts, k, from, |ts|, second, st, cs)
    ensures Ended(st, Flush(lib, st, second)) == Some(cs)
  {
    if k < |cuts| {
      SpanEnds(lib, ts, cuts, second, cs, k);
      assert cuts[k].end == |ts|;
      PendingIsTold(lib, ts, cuts, k, from, |ts|, second, st, cs);
      FlushIsAllowed(lib, st, second);
      assert cs[..k + 1] == cs;
    } else {
      assert cuts[..k] == cuts && cs[..k] == cs;
      SpanEnds(lib, ts, cuts, second, cs, k - 1);
    }
  }

  lemma ReplayStep(lib: Library, ts: seq<Token>, cuts: seq<Span>, k: nat, from: nat, i: nat, second: bool, st: State,
    cs: seq<Command>) returns (done: nat, next: nat)
    requires IsSane(ts) && IsReading(lib, ts, cuts, second, cs) && Replays(lib, ts, cuts, k, from, i, second, st, cs)
    requires i < |ts|
    ensures Step(lib, ts, i, st, second).Some? && var after := Step(lib, ts, i, st, second).value;
            Replays(lib, ts, cuts, done, next, after.0, second, after.1, cs)
  {
    hide Step, IsSane, IsReading, IsDescriptor;
    if k < |cuts| {
      SpanEnds(lib, ts, cuts, second, cs, k);
    }
    hide Told, Follows, IsWhole;
    done, next := k, from;
    if k == |cuts| || i < cuts[k].from {
      ReplayGap(lib, ts, cuts, k, from, i, second, st, cs);
      next := i + 1;
    } else if i == cuts[k].end {
      ReplaySeparator(lib, ts, cuts, k, from, i, second, st, cs);
      done, next := k + 1, i + 1;
    } else {
      ReplayWithin(lib, ts, cuts, k, from, i, second, st, cs);
    }
  }

  lemma ReplayWithin(lib: Library, ts: seq<Token>, cuts: seq<Span>, k: nat, from: nat, i: nat, second: bool, st: State,
    cs: seq<Command>)
    requires IsSane(ts) && IsReading(lib, ts, cuts, second, cs) && Replays(lib, ts, cuts, k, from, i, second, st, cs)
    requires k < |cuts| && cuts[k].from <= i < cuts[k].end <= |ts| && !IsBreak(ts[i])
    ensures Step(lib, ts, i, st, second).Some? && var after := Step(lib, ts, i, st, second).value;
            Replays(lib, ts, cuts, k, from, after.0, second, after.1, cs)
  {
    Role(lib, ts, i);
    hide Step, IsSane, IsReading, IsDescriptor, Replays;
    if IsArgument(lib, ts, i) {
      ReplayWord(lib, ts, cuts, k, from, i, second, st, cs);
    } else {
      ReplayRedirect(lib, ts, cuts, k, from, i, second, st, cs);
    }
  }

  // What spans of the tokens say is how the rest of the tokens is read.
  lemma {:induction false} ReadingIsRest(lib: Library, ts: seq<Token>, cuts: seq<Span>, k: nat, from: nat, i: nat,
    second: bool, st: State, cs: seq<Command>)
    requires i <= |ts| && IsSane(ts) && IsReading(lib, ts, cuts, second, cs)
    requires Replays(lib, ts, cuts, k, from, i, second, st, cs)
    ensures Rest(lib, ts, i, st, second) == Some(cs)
    decreases |ts| - i
  {
    hide Step, IsSane, IsReading, Replays;
    if i == |ts| {
      ReplayEnd(lib, ts, cuts, k, from, second, st, cs);
    } else {
      var done, next := ReplayStep(lib, ts, cuts, k, from, i, second, st, cs);
      var after := Step(lib, ts, i, st, second).value;
      ReadingIsRest(lib, ts, cuts, done, next, after.0, second, after.1, cs);
    }
  }

  // ---- The visible tokens of a text ----

  // A word begins where no operator stands, so it is none.
  lemma WordIsNoOperator(text: string, i: nat)
    requires i < |text| && !IsBlank(text[i]) && TokenAt(text, i).raw in REDIRECTS
    ensures TokenAt(text, i).kind.Operator?
  {
    TokenIsSlice(text, i);
    var raw := TokenAt(text, i).raw;
    assert StartsWith(text, raw, i);
    assert raw != "" && raw[0] != '#';
    OperatorStands(OPERATORS, text, i, raw);
  }

  lemma {:induction false} OperatorStands(ops: seq<Symbol>, text: string, i: nat, op: string)
    requires op in ops && StartsWith(text, op, i)
    ensures OperatorFrom(ops, text, i).Some?
    decreases |ops|
  {
    if !StartsWith(text, ops[0], i) {
      OperatorStands(ops[1..], text, i, op);
    }
  }

  lemma {:induction false} LexIsSane(text: string, i: nat)
    requires i <= |text|
    ensures IsSane(Visible(Lex(text, i)))
    decreases |text| - i
  {
    if i < |text| {
      if IsBlank(text[i]) {
        LexIsSane(text, i + 1);
      } else {
        TokenIsSlice(text, i);
        var t := TokenAt(text, i);
        LexIsSane(text, t.end);
        if t.raw in REDIRECTS {
          WordIsNoOperator(text, i);
        }
        assert ([t] + Lex(text, t.end))[1..] == Lex(text, t.end);
      }
    }
  }

  lemma ReadingIsParsed(lib: Library, ts: seq<Token>, cuts: seq<Span>, second: bool, cs: seq<Command>)
    requires IsSane(ts) && IsReading(lib, ts, cuts, second, cs)
    ensures cs != [] && Rest(lib, ts, 0, START, second) == Some(cs)
  {
    assert cs != [];
    hide IsReading, IsSane, Rest;
    StartIsReached(lib, ts, second);
    assert cuts[..0] == [] && cs[..0] == [];
    hide Reached;
    ReadingIsRest(lib, ts, cuts, 0, 0, 0, second, START, cs);
  }

  // A text parses to commands exactly when it is readable and its visible tokens can be cut into spans
  // that say these commands.
  lemma ParseIsReading(lib: Library, text: string, second: bool, cs: seq<Command>)
    ensures Parsed(lib, text, second) == Complete(cs) <==>
            IsReadable(text) && exists cuts :: IsReading(lib, Visible(Lex(text, 0)), cuts, second, cs)
  {
    var ts := Visible(Lex(text, 0));
    LexIsSane(text, 0);
    StartIsReached(lib, ts, second);
    hide IsReading, Reached, IsSane, Rest, IsReadable, Lex, Visible;
    if Parsed(lib, text, second) == Complete(cs) {
      var cuts := RestIsReading(lib, ts, [], 0, 0, second, START);
      assert IsReading(lib, Visible(Lex(text, 0)), cuts, second, cs);
      assert IsReadable(text);
      assert exists cuts :: IsReading(lib, Visible(Lex(text, 0)), cuts, second, cs);
    } else if exists cuts :: IsReading(lib, ts, cuts, second, cs) {
      var cuts :| IsReading(lib, ts, cuts, second, cs);
      ReadingIsParsed(lib, ts, cuts, second, cs);
    }
  }

  lemma StartIsReached(lib: Library, ts: seq<Token>, second: bool)
    ensures Reached(lib, ts, [], 0, 0, second, START)
  {
  }
}
