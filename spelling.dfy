/** The lexer read backwards: tokens written out with one space between
    them lex back to themselves, and so a printed tree, written out, goes
    through `Lexer` and `Parser` of calculator_core.py back to itself. */
module Spelling {
  import opened Text
  import opened Tokens
  import opened Scanner
  import opened Parsing
  import opened Printing

  /** A name the lexer reads as one identifier: a letter, then letters, digits or `_`. */
  predicate IsWord(name: string) {
    |name| > 0 && IsAlpha(name[0]) && forall k | 0 <= k < |name| :: IsIdentChar(name[k])
  }

  /** Tokens that have a written form: integers without a point that `int`
      reads back, words, operators, parentheses. */
  predicate Spellable(t: Token) {
    match t
    case Number(v, isFloat) => !isFloat && v >= 0.0 && v.Floor as real == v && DigitCount(v.Floor) <= MaxIntDigits
    case Identifier(name) => IsWord(name)
    case Eof => false
    case _ => true
  }

  predicate AllSpellable(ts: seq<Token>) {
    forall k | 0 <= k < |ts| :: Spellable(ts[k])
  }

  /** The text of one token. */
  function Lexeme(t: Token): string {
    match t
    case Number(v, _) => NatToString(if v >= 0.0 then v.Floor else 0)
    case Operator(op) => Symbol(op)
    case Paren(open) => if open then "(" else ")"
    case Identifier(name) => name
    case Eof => ""
  }

  /** What separates the first two tokens of a written sequence: nothing
      when the layout marks that gap tight, one space otherwise. */
  function Gap(tight: seq<bool>): string {
    if tight != [] && tight[0] then "" else " "
  }

  function Later(tight: seq<bool>): seq<bool> {
    if tight == [] then [] else tight[1..]
  }

  /** Tokens written out, with the gap after token `k` left out when
      `tight[k]` holds and one space everywhere else. */
  function Written(ts: seq<Token>, tight: seq<bool>): string
    decreases |ts|
  {
    if ts == [] then ""
    else if |ts| == 1 then Lexeme(ts[0])
    else Lexeme(ts[0]) + Gap(tight) + Written(ts[1..], Later(tight))
  }

  /** Tokens written out with one space between each two. */
  function Spell(ts: seq<Token>): string {
    Written(ts, [])
  }

  /** The lexer stops reading token `t` before character `c`: `c` cannot
      continue a number, a name or a `*` that would become `**`. */
  predicate Ends(t: Token, c: char) {
    match t
    case Number(_, _) => !IsNumberChar(c)
    case Identifier(_) => !IsIdentChar(c)
    case Operator(op) => op != Mul || c != '*'
    case _ => true
  }

  /** Token `l` written directly before token `r` still lexes apart from it. */
  predicate Glued(l: Token, r: Token) {
    |Lexeme(r)| > 0 && Ends(l, Lexeme(r)[0])
  }

  /** Every gap the layout leaves out lies between tokens that lex apart. */
  predicate Fits(ts: seq<Token>, tight: seq<bool>) {
    forall k | 0 <= k < |tight| && k + 1 < |ts| :: tight[k] ==> Glued(ts[k], ts[k + 1])
  }

  lemma LexemeStart(t: Token)
    requires Spellable(t)
    ensures |Lexeme(t)| > 0 && !IsSpace(Lexeme(t)[0])
  {
  }

  /** `RunEnd` stops exactly at the first character outside the run. */
  lemma {:induction false} RunEndAt(text: string, pos: nat, p: char -> bool, end: nat)
    requires pos <= end <= |text|
    requires forall k | pos <= k < end :: p(text[k])
    requires end == |text| || !p(text[end])
    ensures RunEnd(text, pos, p) == end
    decreases end - pos
  {
    if pos < end {
      RunEndAt(text, pos + 1, p, end);
    }
  }

  /** Lexing pulls the tokens one after the other. */
  lemma TokenizeStep(text: string, pos: nat, t: Token, q: nat)
    requires NextToken(text, pos) == Ok(Scanned(t, q)) && t != Eof
    ensures Tokenize(text, pos) == Stream([t] + Tokenize(text, q).tokens, Tokenize(text, q).end)
  {
  }

  lemma TokenizeEnd(text: string)
    ensures Tokenize(text, |text|) == Stream([], None)
  {
    assert NextToken(text, |text|) == Ok(Scanned(Eof, |text|));
  }

  /** A single space before a token is skipped. */
  lemma SkipSpace(text: string, q: nat)
    requires q < |text| && text[q] == ' '
    requires q + 1 == |text| || !IsSpace(text[q + 1])
    ensures Tokenize(text, q) == Tokenize(text, q + 1)
  {
    RunEndAt(text, q, IsSpace, q + 1);
    assert NextToken(text, q) == NextToken(text, q + 1);
  }

  /** The gap between two written tokens is skipped. */
  lemma SkipGap(text: string, q: nat, r: nat)
    requires r == q || (r == q + 1 && q < |text| && text[q] == ' ')
    requires r < |text| && !IsSpace(text[r])
    ensures Tokenize(text, q) == Tokenize(text, r)
  {
    if r == q + 1 {
      SkipSpace(text, q);
    }
  }

  /** The written form of a token, ended where the lexer stops reading it, lexes to that token. */
  lemma LexOne(text: string, pos: nat, t: Token, q: nat)
    requires Spellable(t) && q == pos + |Lexeme(t)|
    requires q <= |text| && text[pos..q] == Lexeme(t)
    requires q == |text| || Ends(t, text[q])
    ensures NextToken(text, pos) == Ok(Scanned(t, q))
  {
    var w := Lexeme(t);
    LexemeStart(t);
    assert forall k | pos <= k < q :: text[k] == w[k - pos];
    match t
    case Number(v, _) =>
      RunEndAt(text, pos, IsNumberChar, q);
      assert Run(text, pos, IsNumberChar) == w;
      assert '.' !in w by {
        assert forall k | 0 <= k < |w| :: IsDigit(w[k]);
      }
      NatToStringRoundTrip(v.Floor);
    case Identifier(name) =>
      RunEndAt(text, pos, IsIdentChar, q);
      assert Run(text, pos, IsIdentChar) == w;
    case Operator(op) =>
      if op == Pow {
        assert text[pos] == '*' && text[pos + 1] == '*';
      }
    case Paren(_) =>
  }

  /** Where the written form of a token sequence sits in a text: the first
      token, the gap, then the rest. */
  lemma WrittenSplit(text: string, pos: nat, ts: seq<Token>, tight: seq<bool>, q: nat, r: nat)
    requires |ts| > 1
    requires pos <= |text| && text[pos..] == Written(ts, tight)
    requires q == pos + |Lexeme(ts[0])| && r == q + |Gap(tight)|
    ensures r <= |text| && text[pos..q] == Lexeme(ts[0]) && text[r..] == Written(ts[1..], Later(tight))
    ensures r == q + 1 ==> text[q] == ' '
    ensures r == q ==> tight != [] && tight[0]
  {
    WrittenStep(ts, tight);
    GapShape(tight);
    ThreeParts(text, pos, Lexeme(ts[0]), Gap(tight), Written(ts[1..], Later(tight)), q, r);
  }

  lemma WrittenStep(ts: seq<Token>, tight: seq<bool>)
    requires |ts| > 1
    ensures Written(ts, tight) == Lexeme(ts[0]) + Gap(tight) + Written(ts[1..], Later(tight))
  {
  }

  lemma GapShape(tight: seq<bool>)
    ensures |Gap(tight)| == 1 ==> Gap(tight)[0] == ' '
    ensures |Gap(tight)| != 1 ==> |Gap(tight)| == 0 && tight != [] && tight[0]
  {
  }

  /** A text whose tail is `w + g + v` holds `w`, then `g`, then `v`. */
  lemma ThreeParts(text: string, pos: nat, w: string, g: string, v: string, q: nat, r: nat)
    requires pos <= |text| && text[pos..] == w + g + v
    requires q == pos + |w| && r == q + |g|
    ensures r <= |text| && text[pos..q] == w && text[r..] == v
    ensures |g| == 1 ==> text[q] == g[0]
  {
    var u := text[pos..];
    assert text[pos..q] == u[..|w|] == w;
    assert text[r..] == u[|w| + |g|..] == v;
    if |g| == 1 {
      assert text[q] == u[|w|] == g[0];
    }
  }

  /** The rest of a fitting layout fits the rest of the tokens. */
  lemma RestFits(ts: seq<Token>, tight: seq<bool>)
    requires |ts| > 1 && AllSpellable(ts) && Fits(ts, tight)
    ensures AllSpellable(ts[1..]) && Fits(ts[1..], Later(tight))
  {
    assert forall k | 0 <= k < |ts[1..]| :: ts[1..][k] == ts[k + 1];
    assert forall k | 0 <= k < |Later(tight)| :: Later(tight)[k] == tight[k + 1];
  }

  /** The first token of a written sequence is followed by a gap, then by
      the written rest, which starts with the second token. */
  lemma WrittenCons(text: string, pos: nat, ts: seq<Token>, tight: seq<bool>, q: nat, r: nat)
    requires |ts| > 1 && Spellable(ts[1])
    requires pos <= |text| && text[pos..] == Written(ts, tight)
    requires q == pos + |Lexeme(ts[0])| && r == q + |Gap(tight)|
    ensures r < |text| && text[pos..q] == Lexeme(ts[0]) && text[r..] == Written(ts[1..], Later(tight))
    ensures |Lexeme(ts[1])| > 0 && text[r] == Lexeme(ts[1])[0] && !IsSpace(text[r])
    ensures r == q + 1 ==> text[q] == ' '
    ensures r == q ==> tight != [] && tight[0]
  {
    WrittenSplit(text, pos, ts, tight, q, r);
    assert text[r] == Lexeme(ts[1])[0] && !IsSpace(text[r]) by {
      SpellStart(ts[1..], Later(tight));
      assert text[r] == text[r..][0];
      assert ts[1..][0] == ts[1];
    }
  }

  /** What follows the first token of a fitting layout ends that token:
      a space, or the start of a token glued to it. */
  lemma EndsAtGap(text: string, ts: seq<Token>, tight: seq<bool>, q: nat, r: nat)
    requires |ts| > 1 && Fits(ts, tight)
    requires q <= r < |text| && |Lexeme(ts[1])| > 0 && text[r] == Lexeme(ts[1])[0]
    requires r == q + 1 ==> text[q] == ' '
    requires r == q ==> tight != [] && tight[0]
    requires r == q || r == q + 1
    ensures Ends(ts[0], text[q])
  {
    if r == q {
      assert Glued(ts[0], ts[1]) by {
        assert 0 < |tight| && 1 < |ts| && tight[0];
      }
    }
  }

  /** A written token sequence starts with its first token, so not with a space. */
  lemma SpellStart(ts: seq<Token>, tight: seq<bool>)
    requires |ts| > 0 && Spellable(ts[0])
    ensures |Written(ts, tight)| > 0 && Written(ts, tight)[0] == Lexeme(ts[0])[0]
    ensures !IsSpace(Written(ts, tight)[0])
  {
    LexemeStart(ts[0]);
    if |ts| > 1 {
      assert Written(ts, tight)[0] == (Lexeme(ts[0]) + Gap(tight) + Written(ts[1..], Later(tight)))[0];
    }
  }

  /** A token whose lexing is followed by the rest of the stream. */
  lemma TokenizeCons(text: string, pos: nat, t: Token, q: nat, rest: seq<Token>)
    requires NextToken(text, pos) == Ok(Scanned(t, q)) && t != Eof
    requires Tokenize(text, q) == Stream(rest, None)
    ensures Tokenize(text, pos) == Stream([t] + rest, None)
  {
    TokenizeStep(text, pos, t, q);
  }

  /** The written form of a last token, at the end of the text. */
  lemma LexLast(text: string, pos: nat, t: Token)
    requires Spellable(t)
    requires pos <= |text| && text[pos..] == Lexeme(t)
    ensures Tokenize(text, pos) == Stream([t], None)
  {
    var q := pos + |Lexeme(t)|;
    assert text[pos..q] == Lexeme(t);
    LexOne(text, pos, t, q);
    TokenizeEnd(text);
    TokenizeCons(text, pos, t, q, []);
    assert [t] + [] == [t];
  }

  /** Tokens written out in a layout that fits them lex back to themselves,
      and lexing ends without error. */
  lemma {:induction false} LexWritten(text: string, pos: nat, ts: seq<Token>, tight: seq<bool>)
    requires AllSpellable(ts) && Fits(ts, tight)
    requires pos <= |text| && text[pos..] == Written(ts, tight)
    ensures Tokenize(text, pos) == Stream(ts, None)
    decreases |ts|
  {
    if ts == [] {
      TokenizeEnd(text);
    } else if |ts| == 1 {
      LexLast(text, pos, ts[0]);
      assert [ts[0]] == ts;
    } else {
      var q := pos + |Lexeme(ts[0])|;
      var r := q + |Gap(tight)|;
      WrittenCons(text, pos, ts, tight, q, r);
      EndsAtGap(text, ts, tight, q, r);
      RestFits(ts, tight);
      LexOne(text, pos, ts[0], q);
      SkipGap(text, q, r);
      LexWritten(text, r, ts[1..], Later(tight));
      TokenizeCons(text, pos, ts[0], q, ts[1..]);
      assert [ts[0]] + ts[1..] == ts;
    }
  }

  lemma AllSpellableAppend(a: seq<Token>, b: seq<Token>)
    requires AllSpellable(a) && AllSpellable(b)
    ensures AllSpellable(a + b)
  {
    assert forall k | |a| <= k < |a + b| :: (a + b)[k] == b[k - |a|];
  }

  /** Every numeral of a tree other than `pi` and `e` has few enough digits
      for `int` to read it back. */
  predicate Readable(a: Ast) {
    match a
    case Num(v) => v == Pi || v == E || DigitCount(v.Floor) <= MaxIntDigits
    case UnaryOp(_, x) => Readable(x)
    case FuncCall(_, x) => Readable(x)
    case BinOp(l, _, r) => Readable(l) && Readable(r)
  }

  /** Every token of a printable, readable tree has a written form. */
  lemma {:induction false} ToksSpellable(a: Ast, c: nat)
    requires Printable(a) && Readable(a)
    ensures AllSpellable(Toks(a, c))
    decreases a, 1
  {
    RawSpellable(a);
    if Level(a) < c {
      AllSpellableAppend([Paren(true)], Raw(a));
      AllSpellableAppend([Paren(true)] + Raw(a), [Paren(false)]);
    }
  }

  lemma {:induction false} RawSpellable(a: Ast)
    requires Printable(a) && Readable(a)
    ensures AllSpellable(Raw(a))
    decreases a, 0
  {
    match a
    case Num(v) =>
    case UnaryOp(sign, x) =>
      ToksSpellable(x, 4);
      AllSpellableAppend([SignToken(sign)], Toks(x, 4));
    case FuncCall(f, x) =>
      ToksSpellable(x, 1);
      AllSpellableAppend([Identifier(FuncName(f)), Paren(true)], Toks(x, 1));
      AllSpellableAppend([Identifier(FuncName(f)), Paren(true)] + Toks(x, 1), [Paren(false)]);
    case BinOp(l, op, r) =>
      var cl, cr := if op == Pow then 4 else OpLevel(op), if op == Pow then 3 else OpLevel(op) + 1;
      ToksSpellable(l, cl);
      ToksSpellable(r, cr);
      AllSpellableAppend(Toks(l, cl), [Operator(op)]);
      AllSpellableAppend(Toks(l, cl) + [Operator(op)], Toks(r, cr));
  }

  /** A tree written with the fewest parentheses its operators need. */
  function Show(a: Ast): string {
    Spell(Toks(a, 1))
  }

  /** Lexing and parsing a written tree gives the tree back, whichever gaps
      between its tokens are left out, as long as the lexer still reads them
      apart: the grammar's precedence and grouping are exactly those the
      printer assumes. */
  lemma WrittenParses(a: Ast, tight: seq<bool>)
    requires Printable(a) && Readable(a) && Fits(Toks(a, 1), tight)
    ensures Parse(Written(Toks(a, 1), tight)) == Ok(a)
  {
    var text := Written(Toks(a, 1), tight);
    ToksSpellable(a, 1);
    assert text[0..] == text;
    LexWritten(text, 0, Toks(a, 1), tight);
    ParsesBack(Tokenize(text, 0), a);
  }

  /** In particular with a space between every two tokens. */
  lemma ShowParses(a: Ast)
    requires Printable(a) && Readable(a)
    ensures Parse(Show(a)) == Ok(a)
  {
    WrittenParses(a, []);
  }
}
