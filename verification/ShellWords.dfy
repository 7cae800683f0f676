/** Words and tokens read character by character: a mode per character, moved from left to right, says
    what is quoted and what is escaped, and by it what a token is and what a word decodes to. */
module ShellWords {
  import opened Wrappers
  import opened ShellLexer
  import opened ShellOracle

  // ---- Modes ----

  datatype Mode = Plain | Single | Double | Escaped(inner: bool)

  function Next(m: Mode, c: char): Mode {
    match m
    case Plain => if c == '\'' then Single else if c == '"' then Double else if c == '\\' then Escaped(false) else Plain
    case Single => if c == '\'' then Plain else Single
    case Double => if c == '"' then Plain else if c == '\\' then Escaped(true) else Double
    case Escaped(inner) => if inner then Double else Plain
  }

  // The mode in which character n of the word is read.
  function ModeAt(raw: string, n: nat): Mode
    requires n <= |raw|
  {
    if n == 0 then Plain else Next(ModeAt(raw, n - 1), raw[n - 1])
  }

  // A backslash before a line end, and that line end.
  predicate IsContinued(raw: string, k: nat)
    requires k < |raw|
  {
    if ModeAt(raw, k).Escaped? then raw[k] == '\n'
    else raw[k] == '\\' && !ModeAt(raw, k).Single? && k + 1 < |raw| && raw[k + 1] == '\n'
  }

  // Something of the word stands before n.
  ghost predicate HasBegun(raw: string, n: nat)
    requires n <= |raw|
  {
    exists k | 0 <= k < n :: !IsContinued(raw, k)
  }

  ghost predicate IsModeOf(raw: string, i: nat, quote: Option<char>)
    requires i <= |raw|
  {
    match quote
    case None => ModeAt(raw, i).Plain?
    case Some(c) => (c == '\'' && ModeAt(raw, i).Single?) || (c == '"' && ModeAt(raw, i).Double?)
  }

  // ---- Which words are static ----

  ghost predicate IsStatic(raw: string, from: nat)
    requires from <= |raw|
  {
    && ModeAt(raw, |raw|).Plain?
    && (forall k | from <= k < |raw| && ModeAt(raw, k).Plain? ::
          raw[k] !in {'$', '`', '{', '}', '(', ')', '~'})
    && (forall k | from <= k < |raw| && ModeAt(raw, k).Double? :: raw[k] !in {'$', '`'})
  }

  ghost predicate HasGlob(raw: string, from: nat)
    requires from <= |raw|
  {
    exists k | from <= k < |raw| :: ModeAt(raw, k).Plain? && raw[k] in {'*', '?', '['}
  }

  lemma StaticStep(raw: string, i: nat, next: nat)
    requires i < next <= |raw| && next <= i + 2 && !ModeAt(raw, i).Escaped?
    requires next == if Next(ModeAt(raw, i), raw[i]).Escaped? then i + 2 else i + 1
    ensures !ModeAt(raw, next).Escaped?
    ensures IsStatic(raw, i) <==> (IsStatic(raw, next) &&
                                  (ModeAt(raw, i).Plain? ==> raw[i] !in {'$', '`', '{', '}', '(', ')', '~'}) &&
                                  (ModeAt(raw, i).Double? ==> raw[i] !in {'$', '`'}))
    ensures HasGlob(raw, i) <==> HasGlob(raw, next) || (ModeAt(raw, i).Plain? && raw[i] in {'*', '?', '['})
  {
    assert forall k | i <= k < next :: k == i || (k == i + 1 && ModeAt(raw, k).Escaped?);
  }

  // The scan of the first version gives up on a word that is not static, and else finds its globs.
  lemma {:induction false} ScanReads(raw: string, i: nat, quote: Option<char>, glob: bool)
    requires i <= |raw| && IsModeOf(raw, i, quote)
    ensures Scan(raw, i, quote, glob).Some? <==> IsStatic(raw, i)
    ensures Scan(raw, i, quote, glob).Some? ==> Scan(raw, i, quote, glob).value == (glob || HasGlob(raw, i))
    decreases |raw| - i
  {
    if i < |raw| {
      var c := raw[i];
      var next := if Next(ModeAt(raw, i), c).Escaped? then i + 2 else i + 1;
      assert ModeAt(raw, i + 1) == Next(ModeAt(raw, i), c);
      if next <= |raw| {
        StaticStep(raw, i, next);
        hide IsStatic, HasGlob;
        if c == '\\' && quote != Some('\'') {
          ScanReads(raw, i + 2, quote, glob);
        } else if quote == Some(c) {
          ScanReads(raw, i + 1, None, glob);
        } else if quote.None? && IsQuote(c) {
          ScanReads(raw, i + 1, Some(c), glob);
        } else {
          ScanReads(raw, i + 1, quote, glob || (quote.None? && c in {'*', '?', '['}));
        }
      }
    }
  }

  // ---- What is handed on for splitting ----

  // What is left of one character: continuations go, and the backslash before $ and ` in double quotes.
  function Kept(raw: string, k: nat): string
    requires k < |raw|
  {
    if IsContinued(raw, k) then ""
    else if ModeAt(raw, k).Double? && raw[k] == '\\' && k + 1 < |raw| && raw[k + 1] in {'$', '`'} then ""
    else [raw[k]]
  }

  function KeptTo(raw: string, n: nat): string
    requires n <= |raw|
  {
    if n == 0 then "" else KeptTo(raw, n - 1) + Kept(raw, n - 1)
  }

  lemma Regroup(a: string, b: string, c: string)
    ensures a + (b + c) == a + b + c
  {
  }

  lemma TwoLetters(raw: string, i: nat)
    requires i + 1 < |raw|
    ensures raw[i..i + 2] == [raw[i]] + [raw[i + 1]]
  {
  }

  // What is kept of an escape.
  lemma EscapeKept(raw: string, i: nat, quote: Option<char>)
    requires i + 1 < |raw| && IsModeOf(raw, i, quote) && raw[i] == '\\' && quote != Some('\'')
    ensures IsModeOf(raw, i + 2, quote)
    ensures Kept(raw, i) + Kept(raw, i + 1) ==
            if raw[i + 1] == '\n' then ""
            else if quote.Some? && (raw[i + 1] == '$' || raw[i + 1] == '`') then [raw[i + 1]]
            else [raw[i]] + [raw[i + 1]]
  {
    assert ModeAt(raw, i + 1) == Next(ModeAt(raw, i), raw[i]) == Escaped(quote.Some?);
    assert ModeAt(raw, i + 2) == Next(ModeAt(raw, i + 1), raw[i + 1]);
    hide ModeAt;
    assert Kept(raw, i + 1) == if raw[i + 1] == '\n' then "" else [raw[i + 1]];
  }

  // An escape is cleaned as its two characters are kept.
  lemma EscapeCleaned(raw: string, i: nat, quote: Option<char>)
    requires i + 1 < |raw| && IsModeOf(raw, i, quote) && raw[i] == '\\' && quote != Some('\'')
    ensures IsModeOf(raw, i + 2, quote)
    ensures Clean(raw, i, quote) == Kept(raw, i) + Kept(raw, i + 1) + Clean(raw, i + 2, quote)
  {
    hide Kept, ModeAt;
    EscapeKept(raw, i, quote);
    TwoLetters(raw, i);
    assert Slice(raw, i) == [raw[i]] + [raw[i + 1]];
    assert "" + Clean(raw, i + 2, quote) == Clean(raw, i + 2, quote);
  }

  lemma EscapeIsKept(raw: string, i: nat, quote: Option<char>)
    requires i + 1 < |raw| && IsModeOf(raw, i, quote) && raw[i] == '\\' && quote != Some('\'')
    ensures IsModeOf(raw, i + 2, quote)
    ensures KeptTo(raw, i) + Clean(raw, i, quote) == KeptTo(raw, i + 2) + Clean(raw, i + 2, quote)
  {
    hide Clean, Kept, ModeAt, IsModeOf;
    EscapeCleaned(raw, i, quote);
    assert KeptTo(raw, i + 2) == KeptTo(raw, i + 1) + Kept(raw, i + 1) ==
      KeptTo(raw, i) + Kept(raw, i) + Kept(raw, i + 1);
    hide KeptTo;
    Regroup(KeptTo(raw, i), Kept(raw, i), Kept(raw, i + 1));
    Regroup(KeptTo(raw, i), Kept(raw, i) + Kept(raw, i + 1), Clean(raw, i + 2, quote));
  }

  lemma LastIsKept(raw: string, i: nat, quote: Option<char>)
    requires i + 1 == |raw| && IsModeOf(raw, i, quote) && raw[i] == '\\' && quote != Some('\'')
    ensures KeptTo(raw, i) + Clean(raw, i, quote) == KeptTo(raw, |raw|)
  {
    assert raw[i..] == [raw[i]];
    assert Clean(raw, i, quote) == Kept(raw, i);
  }

  lemma OtherIsKept(raw: string, i: nat, quote: Option<char>, after: Option<char>)
    requires i < |raw| && IsModeOf(raw, i, quote) && (raw[i] == '\\' ==> quote == Some('\''))
    requires after ==
      if quote == Some(raw[i]) then None else if quote.None? && IsQuote(raw[i]) then Some(raw[i]) else quote
    ensures IsModeOf(raw, i + 1, after)
    ensures KeptTo(raw, i) + Clean(raw, i, quote) == KeptTo(raw, i + 1) + Clean(raw, i + 1, after)
  {
    assert ModeAt(raw, i + 1) == Next(ModeAt(raw, i), raw[i]);
    assert Kept(raw, i) == [raw[i]];
    assert Clean(raw, i, quote) == [raw[i]] + Clean(raw, i + 1, after);
    hide Clean, Kept, ModeAt;
    Regroup(KeptTo(raw, i), [raw[i]], Clean(raw, i + 1, after));
  }

  lemma {:induction false} CleanIsKept(raw: string, i: nat, quote: Option<char>)
    requires i <= |raw| && IsModeOf(raw, i, quote)
    ensures KeptTo(raw, i) + Clean(raw, i, quote) == KeptTo(raw, |raw|)
    decreases |raw| - i
  {
    if i < |raw| {
      var c := raw[i];
      if c == '\\' && quote != Some('\'') {
        if i + 1 < |raw| {
          EscapeIsKept(raw, i, quote);
          CleanIsKept(raw, i + 2, quote);
        } else {
          LastIsKept(raw, i, quote);
        }
      } else {
        var after := if quote == Some(c) then None else if quote.None? && IsQuote(c) then Some(c) else quote;
        OtherIsKept(raw, i, quote, after);
        CleanIsKept(raw, i + 1, after);
      }
    }
  }

  // A word of the first version: static, one word when split, and a glob when a pattern is unquoted.
  lemma WordDecodes(lib: Library, raw: string)
    ensures Word1(lib, raw) ==
            if IsStatic(raw, 0) && lib.split(KeptTo(raw, |raw|)).Some?
            then Some(Spelled(lib.split(KeptTo(raw, |raw|)).value, HasGlob(raw, 0), false))
            else None
  {
    ScanReads(raw, 0, None, false);
    CleanIsKept(raw, 0, None);
    hide IsStatic, HasGlob, Scan, Clean;
    assert KeptTo(raw, 0) + Clean(raw, 0, None) == Clean(raw, 0, None);
  }

  // ---- Home marks ----

  predicate IsTilde(raw: string, k: nat)
    requires k < |raw|
  {
    ModeAt(raw, k).Plain? && raw[k] == '~'
  }

  // A leading mark that stands for the home directory: alone or before a slash.
  ghost predicate IsHome(raw: string, k: nat)
    requires k < |raw|
  {
    IsTilde(raw, k) && !HasBegun(raw, k) && (k + 1 == |raw| || raw[k + 1] == '/')
  }

  ghost predicate HasHome(raw: string, n: nat)
    requires n <= |raw|
  {
    exists k | 0 <= k < n :: IsHome(raw, k)
  }

  // Every unquoted mark leads the word, or stands in a path below the home directory.
  ghost predicate AreHomes(raw: string, from: nat)
    requires from <= |raw|
  {
    forall k | from <= k < |raw| && IsTilde(raw, k) :: IsHome(raw, k) || (k > 0 && StartsWith(raw, "~/", 0))
  }

  // The word with a backslash before each unquoted mark.
  function Marked(raw: string, n: nat): string
    requires n <= |raw|
  {
    if n == 0 then "" else Marked(raw, n - 1) + if IsTilde(raw, n - 1) then "\\~" else [raw[n - 1]]
  }

  // What the loops carry along when they stand at i.
  ghost predicate Carries(raw: string, i: nat, quote: Option<char>, meaningful: bool)
    requires i <= |raw|
  {
    IsModeOf(raw, i, quote) && (meaningful <==> HasBegun(raw, i)) && (quote.Some? ==> meaningful)
  }

  function After(quote: Option<char>, c: char): Option<char> {
    if quote == Some(c) then None else if quote.None? && IsQuote(c) then Some(c) else quote
  }

  lemma BegunStep(raw: string, i: nat)
    requires i < |raw|
    ensures HasBegun(raw, i + 1) <==> HasBegun(raw, i) || !IsContinued(raw, i)
    ensures ModeAt(raw, i + 1) == Next(ModeAt(raw, i), raw[i])
  {
  }

  lemma CarriesEscape(raw: string, i: nat, quote: Option<char>, meaningful: bool)
    requires i + 1 < |raw| && Carries(raw, i, quote, meaningful) && raw[i] == '\\' && quote != Some('\'')
    ensures Carries(raw, i + 2, quote, meaningful || raw[i + 1] != '\n')
    ensures ModeAt(raw, i + 1).Escaped? && !ModeAt(raw, i).Escaped?
  {
    BegunStep(raw, i);
    BegunStep(raw, i + 1);
    hide HasBegun;
  }

  lemma CarriesOther(raw: string, i: nat, quote: Option<char>, meaningful: bool)
    requires i < |raw| && Carries(raw, i, quote, meaningful) && (raw[i] == '\\' ==> quote == Some('\''))
    ensures Carries(raw, i + 1, After(quote, raw[i]), true) && (ModeAt(raw, i).Plain? <==> quote.None?)
  {
    BegunStep(raw, i);
    hide HasBegun;
  }

  lemma HomeLeads(raw: string)
    requires StartsWith(raw, "~/", 0)
    ensures IsHome(raw, 0)
  {
    assert raw[0] == "~/"[0] && raw[1] == "~/"[1] by {
      assert raw[0..2][0] == "~/"[0] && raw[0..2][1] == "~/"[1];
    }
  }

  // The second version also carries whether a home mark was found.
  ghost predicate CarriesHome(raw: string, i: nat, quote: Option<char>, meaningful: bool, home: bool)
    requires i <= |raw|
  {
    Carries(raw, i, quote, meaningful) && (home <==> HasHome(raw, i)) && (home ==> meaningful)
  }

  lemma HomeStep(raw: string, i: nat)
    requires i < |raw|
    ensures HasHome(raw, i + 1) <==> HasHome(raw, i) || IsHome(raw, i)
    ensures AreHomes(raw, i) <==> (AreHomes(raw, i + 1) &&
                                  (IsTilde(raw, i) ==> IsHome(raw, i) || (i > 0 && StartsWith(raw, "~/", 0))))
  {
    hide IsHome;
  }

  lemma HomeEscape(raw: string, i: nat, quote: Option<char>, meaningful: bool, home: bool)
    requires i + 1 < |raw| && CarriesHome(raw, i, quote, meaningful, home) && raw[i] == '\\' && quote != Some('\'')
    ensures CarriesHome(raw, i + 2, quote, meaningful || raw[i + 1] != '\n', home)
    ensures Marked(raw, i + 2) == Marked(raw, i) + Slice(raw, i) && (AreHomes(raw, i) <==> AreHomes(raw, i + 2))
  {
    CarriesEscape(raw, i, quote, meaningful);
    HomeStep(raw, i);
    HomeStep(raw, i + 1);
    hide Carries, HasHome, AreHomes, HasBegun;
    assert Slice(raw, i) == [raw[i]] + [raw[i + 1]];
    assert Marked(raw, i + 2) == Marked(raw, i) + [raw[i]] + [raw[i + 1]];
  }

  lemma HomeOther(raw: string, i: nat, quote: Option<char>, meaningful: bool, home: bool)
    requires i < |raw| && CarriesHome(raw, i, quote, meaningful, home) && (raw[i] == '\\' ==> quote == Some('\''))
    ensures IsTilde(raw, i) <==> quote.None? && raw[i] == '~'
    ensures CarriesHome(raw, i + 1, After(quote, raw[i]), true, home || IsHome(raw, i))
    ensures !IsTilde(raw, i) ==> Marked(raw, i + 1) == Marked(raw, i) + [raw[i]]
    ensures AreHomes(raw, i) <==> (AreHomes(raw, i + 1) &&
                                  (IsTilde(raw, i) ==> IsHome(raw, i) || (i > 0 && StartsWith(raw, "~/", 0))))
  {
    CarriesOther(raw, i, quote, meaningful);
    HomeStep(raw, i);
    hide Carries, HasHome, AreHomes;
  }

  // A prefix that is put before the protected rest, which may fail.
  lemma PrependAgain(a: string, b: string, rest: Option<(string, bool)>)
    ensures Prepend(a, Prepend(b, rest)) == Prepend(a + b, rest)
  {
    if rest.Some? {
      Regroup(a, b, rest.value.0);
    }
  }

  // The second version fails on an unquoted mark that is no home mark, and else escapes each of them.
  lemma {:induction false} ProtectMarks(raw: string, i: nat, quote: Option<char>, meaningful: bool, home: bool)
    requires i <= |raw| && CarriesHome(raw, i, quote, meaningful, home)
    ensures Prepend(Marked(raw, i), Protect(raw, i, quote, meaningful, home)) ==
            if AreHomes(raw, i) then Some((Marked(raw, |raw|), HasHome(raw, |raw|))) else None
    decreases |raw| - i
  {
    if i == |raw| {
      assert Marked(raw, i) + "" == Marked(raw, i);
    } else if raw[i] == '\\' && quote != Some('\'') {
      MarksEscape(raw, i, quote, meaningful, home);
    } else {
      var after := After(quote, raw[i]);
      HomeOther(raw, i, quote, meaningful, home);
      if IsTilde(raw, i) {
        MarksTilde(raw, i, meaningful, home);
      } else {
        hide HasBegun, HasHome, AreHomes, Carries, CarriesHome;
        PrependAgain(Marked(raw, i), [raw[i]], Protect(raw, i + 1, after, true, home));
        ProtectMarks(raw, i + 1, after, true, home);
      }
    }
  }

  lemma {:induction false} MarksEscape(raw: string, i: nat, quote: Option<char>, meaningful: bool, home: bool)
    requires i < |raw| && CarriesHome(raw, i, quote, meaningful, home) && raw[i] == '\\' && quote != Some('\'')
    ensures Prepend(Marked(raw, i), Protect(raw, i, quote, meaningful, home)) ==
            if AreHomes(raw, i) then Some((Marked(raw, |raw|), HasHome(raw, |raw|))) else None
    decreases |raw| - i, 0
  {
    if i + 1 < |raw| {
      HomeEscape(raw, i, quote, meaningful, home);
      hide HasBegun, HasHome, AreHomes, Carries, CarriesHome;
      var after := meaningful || raw[i + 1] != '\n';
      PrependAgain(Marked(raw, i), Slice(raw, i), Protect(raw, i + 2, quote, after, home));
      ProtectMarks(raw, i + 2, quote, after, home);
    } else {
      HomeStep(raw, i);
      assert raw[i..] == [raw[i]] && Marked(raw, i + 1) == Marked(raw, i) + [raw[i]];
      assert [raw[i]] + "" == [raw[i]];
    }
  }

  lemma {:induction false} MarksTilde(raw: string, i: nat, meaningful: bool, home: bool)
    requires i < |raw| && CarriesHome(raw, i, None, meaningful, home) && IsTilde(raw, i)
    ensures Prepend(Marked(raw, i), Protect(raw, i, None, meaningful, home)) ==
            if AreHomes(raw, i) then Some((Marked(raw, |raw|), HasHome(raw, |raw|))) else None
    decreases |raw| - i, 0
  {
    HomeStep(raw, i);
    HomeOther(raw, i, None, meaningful, home);
    var inside := i > 0 && StartsWith(raw, "~/", 0);
    if inside {
      HomeLeads(raw);
      assert home;
    }
    if IsHome(raw, i) || inside {
      assert home && StartsWith(raw, "~/", 0) ==> i > 0;
      PrependAgain(Marked(raw, i), "\\~", Protect(raw, i + 1, None, true, home || IsHome(raw, i)));
      ProtectMarks(raw, i + 1, None, true, home || IsHome(raw, i));
    }
  }

  // A word of the second version: home marks are escaped, decoded as before, and a home word stays as written.
  lemma HomeWordDecodes(lib: Library, raw: string)
    ensures Word2(lib, raw) ==
            if !AreHomes(raw, 0) || Word1(lib, Marked(raw, |raw|)).None? then None
            else
              var w := Word1(lib, Marked(raw, |raw|)).value;
              Some(Spelled(if HasHome(raw, |raw|) then raw else w.value, w.glob, HasHome(raw, |raw|)))
  {
    assert CarriesHome(raw, 0, None, false, false);
    ProtectMarks(raw, 0, None, false, false);
    hide AreHomes, HasHome, Word1;
    var rest := Protect(raw, 0, None, false, false);
    assert rest.Some? ==> Marked(raw, 0) + rest.value.0 == rest.value.0;
  }

  // ---- Where tokens begin and end ----

  // Longer operators come first, and all begin with one of seven characters.
  lemma OperatorSizes(k: nat)
    requires k < |OPERATORS|
    ensures |OPERATORS[k]| == if k < 4 then 3 else if k < 16 then 2 else 1
    ensures OPERATORS[k][0] in {';', '&', '|', '<', '>', '(', ')'}
  {
  }

  lemma {:induction false} FirstIsLongest(ops: seq<Symbol>, text: string, i: nat)
    requires forall a, b | 0 <= a < b < |ops| :: |ops[a]| >= |ops[b]|
    ensures forall o | o in ops && StartsWith(text, o, i) ::
              OperatorFrom(ops, text, i).Some? && |o| <= |OperatorFrom(ops, text, i).value|
    decreases |ops|
  {
    if ops != [] {
      FirstIsLongest(ops[1..], text, i);
    }
  }

  ghost predicate IsLongest(text: string, i: nat, op: string) {
    op in OPERATORS && StartsWith(text, op, i) && forall o | o in OPERATORS && StartsWith(text, o, i) :: |o| <= |op|
  }

  // The operator at a place is the longest one that stands there.
  lemma LongestOperator(text: string, i: nat, op: string)
    ensures OperatorAt(text, i) == Some(op) <==> IsLongest(text, i, op)
  {
    forall a, b | 0 <= a < b < |OPERATORS|
      ensures |OPERATORS[a]| >= |OPERATORS[b]|
    {
      OperatorSizes(a);
      OperatorSizes(b);
    }
    LongestOf(OPERATORS, text, i, op);
  }

  lemma LongestOf(ops: seq<Symbol>, text: string, i: nat, op: string)
    requires forall a, b | 0 <= a < b < |ops| :: |ops[a]| >= |ops[b]|
    ensures OperatorFrom(ops, text, i) == Some(op) <==>
            op in ops && StartsWith(text, op, i) && forall o | o in ops && StartsWith(text, o, i) :: |o| <= |op|
  {
    FirstIsLongest(ops, text, i);
    OperatorFits(ops, text, i);
    hide OperatorFrom;
    var found := OperatorFrom(ops, text, i);
    if op in ops && StartsWith(text, op, i) && (forall o | o in ops && StartsWith(text, o, i) :: |o| <= |op|) {
      assert found.Some? && |found.value| == |op|;
      assert found.value == text[i..i + |op|] == op;
    }
  }

  // A word that begins at i ends before character n of it: an unquoted blank, line end or operator, or a
  // # before anything of the word stands.
  ghost predicate EndsWord(text: string, i: nat, n: nat)
    requires i + n < |text|
  {
    var s, c := text[i..], text[i + n];
    ModeAt(s, n).Plain? && (c in {' ', '\t', '\r', '\n'} || OperatorAt(text, i + n).Some? ||
                            (c == '#' && !HasBegun(s, n)))
  }

  // From character n on, the word that begins at i runs to end, the first place that ends it.
  ghost predicate RunsTo(text: string, i: nat, n: nat, end: nat)
    requires i + n <= end <= |text|
  {
    (forall k: nat | n <= k < end - i :: !EndsWord(text, i, k)) && (end < |text| ==> EndsWord(text, i, end - i))
  }

  lemma EscapeRuns(text: string, i: nat, n: nat, quote: Option<char>, meaningful: bool)
    requires i + n < |text| && Carries(text[i..], n, quote, meaningful)
    requires text[i + n] == '\\' && quote != Some('\'')
    ensures i + n + 1 < |text| ==> Carries(text[i..], n + 2, quote, meaningful || text[i + n + 1] != '\n')
    ensures !EndsWord(text, i, n) && (i + n + 1 < |text| ==> !EndsWord(text, i, n + 1))
  {
    NoOperatorHere(text, i + n);
    var s := text[i..];
    assert s[n] == text[i + n];
    if i + n + 1 < |text| {
      assert s[n + 1] == text[i + n + 1];
      CarriesEscape(s, n, quote, meaningful);
    }
    hide OperatorFrom, Carries, HasBegun, ModeAt;
  }

  lemma OtherRuns(text: string, i: nat, n: nat, quote: Option<char>, meaningful: bool)
    requires i + n < |text| && Carries(text[i..], n, quote, meaningful)
    requires text[i + n] == '\\' ==> quote == Some('\'')
    ensures Carries(text[i..], n + 1, After(quote, text[i + n]), true) && (quote.Some? ==> meaningful)
    ensures EndsWord(text, i, n) <==>
            quote.None? && !IsQuote(text[i + n]) && (IsBlank(text[i + n]) || IsNewline(text[i + n]) ||
            OperatorAt(text, i + n).Some? || (text[i + n] == '#' && !meaningful))
  {
    assert text[i..][n] == text[i + n];
    CarriesOther(text[i..], n, quote, meaningful);
    if IsQuote(text[i + n]) {
      NoOperatorHere(text, i + n);
    }
    hide OperatorFrom, HasBegun, ModeAt;
  }

  // A word runs to the first place that ends it.
  lemma {:induction false} WordRuns(text: string, i: nat, n: nat, quote: Option<char>, meaningful: bool)
    requires i + n <= |text| && Carries(text[i..], n, quote, meaningful)
    ensures RunsTo(text, i, n, WordEnd(text, i + n, quote, meaningful))
    decreases |text| - n
  {
    hide OperatorFrom, Carries, EndsWord;
    if i + n < |text| {
      var c := text[i + n];
      if c == '\\' && quote != Some('\'') {
        EscapeRuns(text, i, n, quote, meaningful);
        if i + n + 2 < |text| {
          WordRuns(text, i, n + 2, quote, meaningful || text[i + n + 1] != '\n');
        }
      } else {
        OtherRuns(text, i, n, quote, meaningful);
        if !EndsWord(text, i, n) {
          WordRuns(text, i, n + 1, After(quote, c), true);
        }
      }
    }
  }

  // No operator begins with a quote or a backslash.
  lemma NoOperatorHere(text: string, i: nat)
    requires i < |text| && text[i] in {'\'', '"', '\\'}
    ensures OperatorAt(text, i).None?
  {
    forall k | 0 <= k < |OPERATORS|
      ensures OPERATORS[k][0] in {';', '&', '|', '<', '>', '(', ')'}
    {
      OperatorSizes(k);
    }
    NoneOfThem(OPERATORS, text, i);
  }

  lemma {:induction false} NoneOfThem(ops: seq<Symbol>, text: string, i: nat)
    requires i < |text| && forall k | 0 <= k < |ops| :: ops[k][0] != text[i]
    ensures OperatorFrom(ops, text, i).None?
    decreases |ops|
  {
    if ops != [] {
      NoneOfThem(ops[1..], text, i);
    }
  }

  lemma {:induction false} LineRuns(text: string, i: nat)
    requires i <= |text|
    ensures '\n' !in text[i..LineEnd(text, i)] && (LineEnd(text, i) < |text| ==> text[LineEnd(text, i)] == '\n')
    decreases |text| - i
  {
    if i < |text| && text[i] != '\n' {
      LineRuns(text, i + 1);
      assert text[i..LineEnd(text, i)] == [text[i]] + text[i + 1..LineEnd(text, i)];
    }
  }

  // Every token of a text: a line end, a comment to the end of its line, the longest operator, or a word to
  // the first place that ends it.
  lemma {:induction false} TokensAreRead(text: string, i: nat, t: Token)
    requires i <= |text| && t in Lex(text, i)
    ensures i <= t.start < t.end <= |text| && text[t.start] !in {' ', '\t'}
    ensures if text[t.start] in {'\r', '\n'} then
              t.kind.Operator? && t.raw == "\n" && text[t.start..t.end] in ["\r\n", "\r", "\n"] &&
              (text[t.start..t.end] == "\r" && t.end < |text| ==> text[t.end] != '\n')
            else if text[t.start] == '#' then
              t.kind.Comment? && t.raw == text[t.start..t.end] && '\n' !in t.raw &&
                (t.end < |text| ==> text[t.end] == '\n')
            else if OperatorAt(text, t.start).Some? then
              t.kind.Operator? && OperatorAt(text, t.start) == Some(t.raw) && t.raw == text[t.start..t.end]
            else
              t.kind.Word? && t.raw == text[t.start..t.end] &&
              RunsTo(text, t.start, 0, t.end)
    decreases |text| - i
  {
    if IsBlank(text[i]) {
      TokensAreRead(text, i + 1, t);
    } else {
      TokenIsSlice(text, i);
      if t != TokenAt(text, i) {
        TokensAreRead(text, TokenAt(text, i).end, t);
      } else {
        TokenIsRead(text, i);
      }
    }
  }

  lemma TokenIsRead(text: string, i: nat)
    requires i < |text| && !IsBlank(text[i])
    ensures var t := TokenAt(text, i);
            i < t.end <= |text| &&
            if text[i] in {'\r', '\n'} then
              t.kind.Operator? && t.raw == "\n" && text[i..t.end] in ["\r\n", "\r", "\n"] &&
              (text[i..t.end] == "\r" && t.end < |text| ==> text[t.end] != '\n')
            else if text[i] == '#' then
              t.kind.Comment? && t.raw == text[i..t.end] && '\n' !in t.raw && (t.end < |text| ==> text[t.end] == '\n')
            else if OperatorAt(text, i).Some? then
              t.kind.Operator? && OperatorAt(text, i) == Some(t.raw) && t.raw == text[i..t.end]
            else
              t.kind.Word? && t.raw == text[i..t.end] && RunsTo(text, i, 0, t.end)
  {
    TokenIsSlice(text, i);
    var t := TokenAt(text, i);
    if IsNewline(text[i]) {
      assert text[i] == '\n' ==> text[i..t.end] == "\n";
    } else if text[i] == '#' {
      LineRuns(text, i);
    } else if OperatorAt(text, i).None? {
      WordRuns(text, i, 0, None, false);
    }
  }

  // ---- Texts, heads and hidden tokens ----

  // A text is readable when it is not empty and holds no control character but tabs and line ends.
  lemma ReadableTexts(text: string)
    ensures IsReadable(text) <==>
            text != "" && forall c | c in text :: c == '\t' || c == '\n' || (' ' <= c && c as int != 0x7F)
  {
    forall c: char
      ensures !IsForbidden(c) <==> c == '\t' || c == '\n' || (' ' <= c && c as int != 0x7F)
    {
      assert ' ' as int == 0x20 && '\t' as int == 9 && '\n' as int == 10;
      assert c as int == 9 ==> c == '\t';
      assert c as int == 10 ==> c == '\n';
    }
    hide IsForbidden;
    assert forall k | 0 <= k < |text| :: text[k] in text;
  }

  // The head's name is what follows its last slash.
  lemma {:induction false} NameAfterSlash(name: string)
    ensures var base := Basename(name);
            '/' !in base && |base| <= |name| && name[|name| - |base|..] == base &&
            (|base| < |name| ==> name[|name| - |base| - 1] == '/')
    decreases |name|
  {
    if name != "" && name[|name| - 1] != '/' {
      NameAfterSlash(name[..|name| - 1]);
    }
  }

  // Nothing but continuations.
  predicate IsBare(raw: string) {
    |raw| % 2 == 0 && forall k | 0 <= k < |raw| :: raw[k] == if k % 2 == 0 then '\\' else '\n'
  }

  lemma {:induction false} ContinuationsVanish(raw: string)
    ensures WithoutContinuations(raw) == "" <==> IsBare(raw)
    decreases |raw|
  {
    if |raw| >= 2 && raw[0] == '\\' && raw[1] == '\n' {
      ContinuationsVanish(raw[2..]);
      assert forall k | 0 <= k < |raw| - 2 :: raw[2..][k] == raw[k + 2];
      assert forall k | 2 <= k < |raw| :: raw[k] == raw[2..][k - 2];
    }
  }

  lemma VisibleFrom(t: Token, b: seq<Token>)
    ensures Visible([t] + b) == (if IsVisible(t) then [t] else []) + Visible(b)
  {
    assert ([t] + b)[1..] == b;
  }

  // Comments and words of continuations alone are hidden, and the other tokens stay in order.
  lemma {:induction false} VisibleKeeps(a: seq<Token>, t: Token, b: seq<Token>)
    ensures Visible(a + [t] + b) ==
            Visible(a) + (if t.kind.Comment? || (t.kind.Word? && IsBare(t.raw)) then [] else [t]) + Visible(b)
    decreases |a|
  {
    hide WithoutContinuations, IsBare;
    if a == [] {
      ContinuationsVanish(t.raw);
      VisibleFrom(t, b);
      assert a + [t] + b == [t] + b;
    } else {
      VisibleKeeps(a[1..], t, b);
      assert a + [t] + b == [a[0]] + (a[1..] + [t] + b) && a == [a[0]] + a[1..];
      VisibleFrom(a[0], a[1..] + [t] + b);
      VisibleFrom(a[0], a[1..]);
      hide Visible, IsVisible;
    }
  }
}
