/** The tokenizer of the shell test oracle, and the splice that rewrites its tokens. Tokens tile the
    text: what lies between them is blanks, so a rewrite keeps every operator and every blank. */
module ShellLexer {
  import opened Wrappers

  datatype Kind = Word | Operator | Comment
  datatype Token = Token(kind: Kind, raw: string, start: nat, end: nat)

  type Symbol = s: string | s != "" witness ";"

  const OPERATORS: seq<Symbol> := [";;&", "&>>", "<<-", "<<<", "&&", "||", ">>", "<<", ">&", "<&", "<>", "&>", "|&",
    ";;", ";&", ">|",
                                   ";", "|", "&", ">", "<", "(", ")"]

  predicate StartsWith(text: string, s: string, i: nat) {
    i + |s| <= |text| && text[i..i + |s|] == s
  }

  // The first operator of the list that stands at i; longer ones come first.
  function OperatorFrom(ops: seq<Symbol>, text: string, i: nat): Option<string> {
    if ops == [] then None else if StartsWith(text, ops[0], i) then Some(ops[0]) else OperatorFrom(ops[1..], text, i)
  }

  function OperatorAt(text: string, i: nat): Option<string> {
    OperatorFrom(OPERATORS, text, i)
  }

  predicate IsNewline(c: char) {
    c == '\r' || c == '\n'
  }

  predicate IsBlank(c: char) {
    c == ' ' || c == '\t'
  }

  function LineEnd(text: string, i: nat): (end: nat)
    requires i <= |text|
    ensures i <= end <= |text|
    decreases |text| - i
  {
    if i == |text| || text[i] == '\n' then i else LineEnd(text, i + 1)
  }

  // Where the word running at i ends. An escape may run past the end of the text.
  function WordEnd(text: string, i: nat, quote: Option<char>, meaningful: bool): (end: nat)
    requires i <= |text|
    ensures i <= end <= |text|
    decreases |text| - i
  {
    if i == |text| then i
    else
      var c := text[i];
      if c == '\\' && quote != Some('\'') then
        if i + 2 >= |text| then |text|
        else WordEnd(text, i + 2, quote, meaningful || text[i + 1] != '\n')
      else if quote.Some? then WordEnd(text, i + 1, if quote == Some(c) then None else quote, meaningful)
      else if c == '\'' || c == '"' then WordEnd(text, i + 1, Some(c), true)
      else if IsBlank(c) || IsNewline(c) || OperatorAt(text, i).Some? || (c == '#' && !meaningful) then i
      else WordEnd(text, i + 1, quote, true)
  }

  // The token that begins at i, which is no blank.
  function TokenAt(text: string, i: nat): (t: Token)
    requires i < |text| && !IsBlank(text[i])
    ensures t.start == i
  {
    if IsNewline(text[i]) then
      Token(Operator, "\n", i, if text[i] == '\r' && i + 1 < |text| && text[i + 1] == '\n' then i + 2 else i + 1)
    else if text[i] == '#' then Token(Comment, text[i..LineEnd(text, i)], i, LineEnd(text, i))
    else
      match OperatorAt(text, i)
      case Some(op) => Token(Operator, op, i, i + |op|)
      case None => Token(Word, text[i..WordEnd(text, i, None, false)], i, WordEnd(text, i, None, false))
  }

  lemma {:induction false} OperatorFits(ops: seq<Symbol>, text: string, i: nat)
    ensures OperatorFrom(ops, text, i).Some? ==>
              var op := OperatorFrom(ops, text, i).value; op in ops && |op| > 0 && StartsWith(text, op, i)
    decreases |ops|
  {
    if ops != [] && !StartsWith(text, ops[0], i) {
      OperatorFits(ops[1..], text, i);
    }
  }

  // A word consumes at least its first character.
  lemma WordMoves(text: string, i: nat)
    requires i < |text| && !IsBlank(text[i]) && !IsNewline(text[i]) && text[i] != '#' && OperatorAt(text, i).None?
    ensures WordEnd(text, i, None, false) > i
  {
    if text[i] == '\\' && i + 2 < |text| {
      assert WordEnd(text, i, None, false) >= i + 2;
    }
  }

  // ---- What a token is of its text ----

  predicate IsSlice(text: string, t: Token) {
    t.start < t.end <= |text| &&
    (t.raw == text[t.start..t.end] || (t.kind.Operator? && t.raw == "\n" && text[t.start..t.end] in ["\r\n", "\r"]))
  }

  lemma NewlineIsSlice(text: string, i: nat)
    requires i < |text| && IsNewline(text[i])
    ensures IsSlice(text, TokenAt(text, i))
  {
    var t := TokenAt(text, i);
    if text[i] == '\n' {
      assert text[i..i + 1] == "\n";
    } else if t.end == i + 2 {
      assert text[i..i + 2] == "\r\n";
    } else {
      assert text[i..i + 1] == "\r";
    }
  }

  lemma TokenIsSlice(text: string, i: nat)
    requires i < |text| && !IsBlank(text[i])
    ensures IsSlice(text, TokenAt(text, i))
  {
    if IsNewline(text[i]) {
      NewlineIsSlice(text, i);
    } else {
      hide OperatorFrom, WordEnd, LineEnd;
      OperatorFits(OPERATORS, text, i);
      if text[i] != '#' && OperatorAt(text, i).None? {
        WordMoves(text, i);
      } else if text[i] == '#' {
        LineMoves(text, i);
      }
    }
  }

  lemma LineMoves(text: string, i: nat)
    requires i < |text| && text[i] == '#'
    ensures LineEnd(text, i) > i
  {
  }

  function Lex(text: string, i: nat): seq<Token>
    requires i <= |text|
    decreases |text| - i
  {
    if i == |text| then []
    else if IsBlank(text[i]) then Lex(text, i + 1)
    else
      TokenIsSlice(text, i);
      var t := TokenAt(text, i);
      [t] + Lex(text, t.end)
  }

  method FindOperator(text: string, i: nat) returns (op: Option<string>)
    ensures op == OperatorAt(text, i)
  {
    for k := 0 to |OPERATORS|
      invariant OperatorFrom(OPERATORS[k..], text, i) == OperatorAt(text, i)
    {
      assert OPERATORS[k..][0] == OPERATORS[k] && OPERATORS[k..][1..] == OPERATORS[k + 1..];
      if StartsWith(text, OPERATORS[k], i) {
        return Some(OPERATORS[k]);
      }
    }
    op := None;
  }

  method ScanWord(text: string, start: nat) returns (end: nat)
    requires start <= |text|
    ensures end == WordEnd(text, start, None, false)
  {
    var i := start;
    var quote: Option<char> := None;
    var meaningful := false;
    while i < |text|
      invariant start <= i
      invariant if i <= |text| then WordEnd(text, i, quote, meaningful) == WordEnd(text, start, None, false)
                else WordEnd(text, start, None, false) == |text|
      decreases |text| - i
    {
      var c := text[i];
      if c == '\\' && quote != Some('\'') {
        if text[i + 1..] == [] || text[i + 1] != '\n' {
          meaningful := true;
        }
        i := i + 2;
        continue;
      }
      if quote.Some? {
        if quote == Some(c) {
          quote := None;
        }
      } else if c == '\'' || c == '"' {
        quote := Some(c);
        meaningful := true;
      } else {
        var op := FindOperator(text, i);
        if IsBlank(c) || IsNewline(c) || op.Some? || (c == '#' && !meaningful) {
          break;
        }
        meaningful := true;
      }
      i := i + 1;
    }
    end := if i < |text| then i else |text|;
  }

  lemma Regroup(ts: seq<Token>, t: Token, rest: seq<Token>)
    ensures ts + ([t] + rest) == ts + [t] + rest
  {
  }

  // The token at i, read in place.
  method ReadToken(text: string, i: nat) returns (t: Token)
    requires i < |text| && !IsBlank(text[i])
    ensures t == TokenAt(text, i)
  {
    if IsNewline(text[i]) {
      return Token(Operator, "\n", i, if text[i] == '\r' && i + 1 < |text| && text[i + 1] == '\n' then i + 2
        else i + 1);
    }
    if text[i] == '#' {
      return Token(Comment, text[i..LineEnd(text, i)], i, LineEnd(text, i));
    }
    var op := FindOperator(text, i);
    if op.Some? {
      return Token(Operator, op.value, i, i + |op.value|);
    }
    var end := ScanWord(text, i);
    t := Token(Word, text[i..end], i, end);
  }

  method Tokens(text: string) returns (ts: seq<Token>)
    ensures ts == Lex(text, 0)
  {
    hide TokenAt;
    ts := [];
    var i := 0;
    while i < |text|
      invariant i <= |text| && ts + Lex(text, i) == Lex(text, 0)
      decreases |text| - i
    {
      if IsBlank(text[i]) {
        i := i + 1;
      } else {
        TokenIsSlice(text, i);
        ghost var rest := Lex(text, TokenAt(text, i).end);
        var t := ReadToken(text, i);
        Regroup(ts, t, rest);
        ts := ts + [t];
        i := t.end;
      }
    }
  }

  // ---- Tiling ----

  ghost predicate Blanks(text: string, from: nat, to: nat) {
    from <= to <= |text| && forall k | from <= k < to :: IsBlank(text[k])
  }

  // The tokens cover the text from i on: in order, disjoint, non-empty, with only blanks between.
  ghost predicate Tiles(text: string, ts: seq<Token>, i: nat)
    decreases |ts|
  {
    if ts == [] then Blanks(text, i, |text|)
    else Blanks(text, i, ts[0].start) && IsSlice(text, ts[0]) && Tiles(text, ts[1..], ts[0].end)
  }

  lemma {:induction false} TokensTile(text: string, i: nat)
    requires i <= |text|
    ensures Tiles(text, Lex(text, i), i)
    decreases |text| - i
  {
    if i < |text| {
      if IsBlank(text[i]) {
        TokensTile(text, i + 1);
        BlankBefore(text, Lex(text, i + 1), i);
      } else {
        TokenIsSlice(text, i);
        var t := TokenAt(text, i);
        TokensTile(text, t.end);
        assert ([t] + Lex(text, t.end))[1..] == Lex(text, t.end);
      }
    }
  }

  lemma BlankBefore(text: string, ts: seq<Token>, i: nat)
    requires i < |text| && IsBlank(text[i]) && Tiles(text, ts, i + 1)
    ensures Tiles(text, ts, i)
  {
  }

  // ---- Rewriting tokens ----

  datatype Replacement = Replacement(start: nat, end: nat, value: string)

  ghost predicate InOrder(text: string, rs: seq<Replacement>, from: nat) {
    (forall k | 0 <= k < |rs| :: from <= rs[k].start <= rs[k].end <= |text|) &&
    forall k, l | 0 <= k < l < |rs| :: rs[k].end <= rs[l].start
  }

  // The rewritten text read left to right: everything between the replacements is copied.
  function Woven(text: string, rs: seq<Replacement>, from: nat): string
    requires InOrder(text, rs, from) && from <= |text|
    decreases |rs|
  {
    if rs == [] then text[from..]
    else text[from..rs[0].start] + rs[0].value + Woven(text, rs[1..], rs[0].end)
  }

  function Cut(rs: seq<Replacement>, n: nat): nat
    requires n <= |rs|
  {
    if n == 0 then 0 else rs[n - 1].end
  }

  lemma CutStep(text: string, rs: seq<Replacement>, n: nat)
    requires InOrder(text, rs, 0) && 0 < n <= |rs|
    ensures Cut(rs, n - 1) <= rs[n - 1].start <= rs[n - 1].end == Cut(rs, n) <= |text| &&
      InOrder(text, rs[n..], Cut(rs, n)) && InOrder(text, rs[n - 1..], Cut(rs, n - 1))
    ensures Woven(text, rs[n - 1..], Cut(rs, n - 1)) ==
            text[Cut(rs, n - 1)..rs[n - 1].start] + rs[n - 1].value + Woven(text, rs[n..], rs[n - 1].end)
  {
    assert rs[n - 1..][1..] == rs[n..];
    CutInOrder(text, rs, n);
    CutInOrder(text, rs, n - 1);
    WovenUnfolds(text, rs[n - 1..], Cut(rs, n - 1));
    hide Woven, InOrder;
    SamePieces(text[Cut(rs, n - 1)..rs[n - 1].start], rs[n - 1].value, Woven(text, rs[n..], rs[n - 1].end));
  }

  lemma SamePieces(a: string, b: string, c: string)
    ensures a + b + c == a + (b + c)
  {
  }

  lemma CutInOrder(text: string, rs: seq<Replacement>, n: nat)
    requires InOrder(text, rs, 0) && n <= |rs|
    ensures Cut(rs, n) <= |text| && InOrder(text, rs[n..], Cut(rs, n)) &&
      (n < |rs| ==> Cut(rs, n) <= rs[n].start <= rs[n].end <= |text|)
  {
  }

  lemma NothingWoven(text: string, rs: seq<Replacement>)
    requires InOrder(text, rs, 0)
    ensures var cut := Cut(rs, |rs|);
            cut <= |text| && InOrder(text, rs[|rs|..], cut) && text == text[..cut] + Woven(text, rs[|rs|..], cut)
  {
  }

  // One splice: what is left of the replacement stays, what is right of it has been rewritten before.
  lemma SpliceStep(text: string, cut: nat, r: Replacement, rest: string, result: string)
    requires cut <= r.start <= r.end <= |text| && result == text[..r.end] + rest
    ensures r.end <= |result| && result[..r.start] + r.value + result[r.end..] ==
      text[..cut] + (text[cut..r.start] + r.value + rest)
  {
    assert result[..r.start] == text[..cut] + text[cut..r.start];
    assert result[r.end..] == rest;
  }

  // Right to left, as rebuild does it, so that earlier positions stay what they were.
  method Rebuild(text: string, rs: seq<Replacement>) returns (result: string)
    requires InOrder(text, rs, 0)
    ensures result == Woven(text, rs, 0)
  {
    hide Woven, InOrder;
    result := text;
    NothingWoven(text, rs);
    var n: nat := |rs|;
    while n > 0
      invariant n <= |rs| && InOrder(text, rs[n..], Cut(rs, n)) && Cut(rs, n) <= |text|
      invariant result == text[..Cut(rs, n)] + Woven(text, rs[n..], Cut(rs, n))
    {
      CutStep(text, rs, n);
      var r := rs[n - 1];
      SpliceStep(text, Cut(rs, n - 1), r, Woven(text, rs[n..], r.end), result);
      result := result[..r.start] + r.value + result[r.end..];
      n := n - 1;
    }
    assert rs[0..] == rs && text[..0] == "";
  }

  // ---- What a rewrite keeps ----

  // One new spelling for every token; those of operators are not used.
  function Edits(ts: seq<Token>, values: seq<string>): (rs: seq<Replacement>)
    requires |ts| == |values|
    decreases |ts|
  {
    if ts == [] then []
    else
      (if ts[0].kind.Operator? then [] else [Replacement(ts[0].start, ts[0].end, values[0])]) + Edits(ts[1..],
        values[1..])
  }

  // The tokens are in order and within the text, which is all a respelling needs.
  ghost predicate Spread(text: string, ts: seq<Token>, from: nat) {
    from <= |text| && (forall k | 0 <= k < |ts| :: from <= ts[k].start <= ts[k].end <= |text|) &&
    forall k, l | 0 <= k < l < |ts| :: ts[k].end <= ts[l].start
  }

  // The text with each token respelled and each operator and each blank as it was.
  function Respelled(text: string, ts: seq<Token>, values: seq<string>, from: nat): string
    requires |ts| == |values| && Spread(text, ts, from)
    decreases |ts|
  {
    if ts == [] then text[from..]
    else
      text[from..ts[0].start] + (if ts[0].kind.Operator? then text[ts[0].start..ts[0].end] else values[0]) +
      Respelled(text, ts[1..], values[1..], ts[0].end)
  }

  lemma {:induction false} TilesAreOrdered(text: string, ts: seq<Token>, i: nat)
    requires Tiles(text, ts, i)
    ensures i <= |text| && forall k | 0 <= k < |ts| :: i <= ts[k].start <= ts[k].end <= |text|
    ensures forall k, l | 0 <= k < l < |ts| :: ts[k].end <= ts[l].start
    decreases |ts|
  {
    if ts != [] {
      TilesAreOrdered(text, ts[1..], ts[0].end);
    }
  }

  lemma SlicesJoin(text: string, from: nat, to: nat, end: nat, rest: string)
    requires from <= to <= end <= |text|
    ensures text[from..end] + rest == text[from..to] + (text[to..end] + rest)
  {
    assert text[from..end] == text[from..to] + text[to..end];
  }

  lemma WovenUnfolds(text: string, rs: seq<Replacement>, from: nat)
    requires rs != [] && InOrder(text, rs, from) && from <= |text|
    ensures InOrder(text, rs[1..], rs[0].end) && rs[0].end <= |text|
    ensures Woven(text, rs, from) == text[from..rs[0].start] + (rs[0].value + Woven(text, rs[1..], rs[0].end))
  {
  }

  lemma WovenFrom(text: string, rs: seq<Replacement>, from: nat, to: nat)
    requires from <= to <= |text| && InOrder(text, rs, to)
    ensures InOrder(text, rs, from) && Woven(text, rs, from) == text[from..to] + Woven(text, rs, to)
  {
    if rs == [] {
      assert text[from..] == text[from..to] + text[to..];
    } else {
      WovenUnfolds(text, rs, from);
      WovenUnfolds(text, rs, to);
      SlicesJoin(text, from, to, rs[0].start, rs[0].value + Woven(text, rs[1..], rs[0].end));
    }
  }

  lemma SpreadTail(text: string, ts: seq<Token>, i: nat)
    requires ts != [] && Spread(text, ts, i)
    ensures i <= ts[0].start <= ts[0].end <= |text| && Spread(text, ts[1..], ts[0].end)
  {
  }

  lemma OperatorHasNoEdit(ts: seq<Token>, values: seq<string>)
    requires ts != [] && |ts| == |values| && ts[0].kind.Operator?
    ensures Edits(ts, values) == Edits(ts[1..], values[1..])
  {
  }

  lemma OperatorStays(text: string, ts: seq<Token>, values: seq<string>, i: nat)
    requires ts != [] && |ts| == |values| && Spread(text, ts, i) && ts[0].kind.Operator?
    requires InOrder(text, Edits(ts[1..], values[1..]), ts[0].end)
    requires Woven(text, Edits(ts[1..], values[1..]), ts[0].end) == Respelled(text, ts[1..], values[1..], ts[0].end)
    ensures InOrder(text, Edits(ts, values), i) && Woven(text, Edits(ts, values), i) == Respelled(text, ts, values, i)
  {
    hide InOrder, Woven, Spread, Edits;
    var t, rest := ts[0], Edits(ts[1..], values[1..]);
    SpreadTail(text, ts, i);
    OperatorHasNoEdit(ts, values);
    WovenFrom(text, rest, i, t.end);
    assert text[i..t.end] == text[i..t.start] + text[t.start..t.end];
    assert Respelled(text, ts, values, i) ==
      text[i..t.start] + text[t.start..t.end] + Respelled(text, ts[1..], values[1..], t.end);
  }

  lemma WordIsReplaced(text: string, ts: seq<Token>, values: seq<string>, i: nat)
    requires ts != [] && |ts| == |values| && Spread(text, ts, i) && !ts[0].kind.Operator? &&
      InOrder(text, Edits(ts, values), i)
    requires InOrder(text, Edits(ts[1..], values[1..]), ts[0].end)
    requires Woven(text, Edits(ts[1..], values[1..]), ts[0].end) == Respelled(text, ts[1..], values[1..], ts[0].end)
    ensures Woven(text, Edits(ts, values), i) == Respelled(text, ts, values, i)
  {
    assert Edits(ts, values)[1..] == Edits(ts[1..], values[1..]);
  }

  lemma {:induction false} EditsRespell(text: string, ts: seq<Token>, values: seq<string>, i: nat)
    requires |ts| == |values| && Spread(text, ts, i) && InOrder(text, Edits(ts, values), i)
    ensures Woven(text, Edits(ts, values), i) == Respelled(text, ts, values, i)
    decreases |ts|
  {
    if ts != [] {
      hide InOrder, Spread, Woven, Respelled, Edits;
      SpreadTail(text, ts, i);
      RestInOrder(text, ts[1..], values[1..], ts[0].end);
      EditsRespell(text, ts[1..], values[1..], ts[0].end);
      if ts[0].kind.Operator? {
        OperatorStays(text, ts, values, i);
      } else {
        WordIsReplaced(text, ts, values, i);
      }
    }
  }

  lemma {:induction false} RestInOrder(text: string, ts: seq<Token>, values: seq<string>, i: nat)
    requires |ts| == |values| && Spread(text, ts, i)
    ensures InOrder(text, Edits(ts, values), i)
    decreases |ts|
  {
    if ts != [] {
      RestInOrder(text, ts[1..], values[1..], ts[0].end);
    }
  }

  // Rewriting the words and comments of a text keeps every operator and every blank.
  lemma RewriteKeepsOperators(text: string, values: seq<string>)
    requires |values| == |Lex(text, 0)|
    ensures var ts := Lex(text, 0);
            Spread(text, ts, 0) && InOrder(text, Edits(ts, values), 0) &&
            Woven(text, Edits(ts, values), 0) == Respelled(text, ts, values, 0)
  {
    var ts := Lex(text, 0);
    TokensTile(text, 0);
    TilesAreOrdered(text, ts, 0);
    RestInOrder(text, ts, values, 0);
    EditsRespell(text, ts, values, 0);
  }
}
