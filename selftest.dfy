/** The table of expressions and expected results at the end of
    calculator_core.py, each proved of `Evaluate`, plus the lexing, parsing
    and evaluation cases the grammar singles out.  An expression that lexes
    to the tokens of a printable tree, in a layout that keeps them apart,
    parses to that tree (`WrittenParses`); its result is then the tree's
    value, formatted. */
module SelfTest {
  import opened Text
  import opened Tokens
  import opened Scanner
  import opened Parsing
  import opened Printing
  import opened Spelling
  import opened Interpreting
  import opened Calculator

  /** A text written from the tokens of a printable tree parses to the tree. */
  lemma Reads(text: string, a: Ast, ts: seq<Token>, tight: seq<bool>)
    requires Printable(a) && Readable(a) && Toks(a, 1) == ts && Fits(ts, tight) && Written(ts, tight) == text
    ensures text != [] && Parse(text) == Ok(a)
  {
    ToksNotEmpty(a, 1);
    ToksSpellable(a, 1);
    SpellStart(ts, tight);
    WrittenParses(a, tight);
  }

  /** A text that parses to a tree with a value shows that value formatted. */
  lemma Shows(lib: MathLib, text: string, a: Ast, v: real, out: string)
    requires text != [] && Parse(text) == Ok(a) && Eval(lib, a) == Ok(v) && Format(lib, v) == Ok(out)
    ensures Evaluate(lib, text) == out
  {
  }

  /** A text that parses to a tree whose evaluation fails shows the error. */
  lemma Refuses(lib: MathLib, text: string, a: Ast, e: Error, out: string)
    requires text != [] && Parse(text) == Ok(a) && Eval(lib, a) == Err(e) && "Error: " + Message(lib, e) == out
    ensures Evaluate(lib, text) == out
  {
  }

  /** A text that fails to lex or parse shows the error. */
  lemma Rejects(lib: MathLib, text: string, e: Error, out: string)
    requires text != [] && Parse(text) == Err(e) && "Error: " + Message(lib, e) == out
    ensures Evaluate(lib, text) == out
  {
  }

  /** A text written from tokens in a fitting layout lexes to them. */
  lemma Lexes(text: string, ts: seq<Token>, tight: seq<bool>)
    requires ts != [] && AllSpellable(ts) && Fits(ts, tight) && Written(ts, tight) == text
    ensures text != [] && Tokenize(text, 0) == Stream(ts, None)
  {
    SpellStart(ts, tight);
    assert text[0..] == text;
    LexWritten(text, 0, ts, tight);
  }

  /** A text that lexes to tokens the parser refuses shows the parser's error. */
  lemma ParseRejects(lib: MathLib, text: string, ts: seq<Token>, e: Error, out: string)
    requires text != [] && Tokenize(text, 0) == Stream(ts, None) && ts != []
    requires ParseAt(Stream(ts, None), 0) == Err(e) && "Error: " + Message(lib, e) == out
    ensures Evaluate(lib, text) == out
  {
    assert Parse(text) == Err(e);
    Rejects(lib, text, e, out);
  }

  /** Two written pieces glued at token `k` make the whole text. */
  lemma WrittenGlued(ts: seq<Token>, tight: seq<bool>, k: nat, front: string, back: string, whole: string)
    requires 0 < k < |ts| && k <= |tight| && tight[k - 1]
    requires Written(ts[..k], tight[..k - 1]) == front && Written(ts[k..], tight[k..]) == back
    requires front + back == whole
    ensures Written(ts, tight) == whole
  {
    WrittenAt(ts, tight, k);
    TightGap(tight, k - 1);
    AppendNothing(front, Gap(tight[k - 1..]), back);
  }

  lemma TightGap(tight: seq<bool>, i: nat)
    requires i < |tight| && tight[i]
    ensures Gap(tight[i..]) == ""
  {
    assert tight[i..][0] == tight[i];
  }

  lemma AppendNothing(a: string, g: string, b: string)
    requires g == ""
    ensures a + g + b == a + b
  {
  }

  lemma {:induction false} WrittenAt(ts: seq<Token>, tight: seq<bool>, k: nat)
    requires 0 < k < |ts| && k <= |tight|
    ensures Written(ts, tight) == Written(ts[..k], tight[..k - 1]) + Gap(tight[k - 1..]) + Written(ts[k..], tight[k..])
    decreases k
  {
    if k > 1 {
      var head, gap := Lexeme(ts[0]), Gap(tight);
      var front, mid, back := Written(ts[1..][..k - 1], tight[1..][..k - 2]), Gap(tight[k - 1..]), Written(ts[k..], tight[k..]);
      assert Written(ts[1..], tight[1..]) == front + mid + back by {
        WrittenAt(ts[1..], tight[1..], k - 1);
        assert tight[1..][k - 2..] == tight[k - 1..];
        assert ts[1..][k - 1..] == ts[k..];
        assert tight[1..][k - 1..] == tight[k..];
      }
      assert Written(ts, tight) == head + gap + Written(ts[1..], tight[1..]);
      assert Written(ts[..k], tight[..k - 1]) == head + gap + front by {
        assert ts[..k][0] == ts[0] && tight[..k - 1][0] == tight[0];
        assert ts[1..][..k - 1] == ts[..k][1..];
        assert tight[1..][..k - 2] == tight[..k - 1][1..];
      }
      assert head + gap + (front + mid + back) == (head + gap + front) + mid + back;
    } else {
      assert ts[..1] == [ts[0]];
    }
  }

  // 5+3 and 5 + 3: spaces between tokens do not matter.

  const Sum: Ast := BinOp(Num(5.0), Add, Num(3.0))
  const SumTokens: seq<Token> := [Number(5.0, false), Operator(Add), Number(3.0, false)]

  lemma SumTokensOf()
    ensures Printable(Sum) && Toks(Sum, 1) == SumTokens
  {
  }

  lemma SumText()
    ensures Fits(SumTokens, [true, true]) && Written(SumTokens, [true, true]) == "5+3"
    ensures Written(SumTokens, []) == "5 + 3"
  {
  }

  lemma SumValue(lib: MathLib)
    ensures Eval(lib, Sum) == Ok(8.0) && Format(lib, 8.0) == Ok("8")
  {
    FormatSmall(lib, 8.0);
    assert (8.0).Floor == 8;
  }

  lemma SumTight(lib: MathLib)
    ensures Evaluate(lib, "5+3") == "8"
  {
    SumTokensOf();
    SumText();
    Reads("5+3", Sum, SumTokens, [true, true]);
    SumValue(lib);
    Shows(lib, "5+3", Sum, 8.0, "8");
  }

  lemma SumSpaced(lib: MathLib)
    ensures Evaluate(lib, "5 + 3") == "8"
  {
    SumTokensOf();
    SumText();
    Reads("5 + 3", Sum, SumTokens, []);
    SumValue(lib);
    Shows(lib, "5 + 3", Sum, 8.0, "8");
  }

  // 10 - 2 * 3: `*` binds tighter than `-`.

  const Precedence: Ast := BinOp(Num(10.0), Sub, BinOp(Num(2.0), Mul, Num(3.0)))
  const PrecedenceTokens: seq<Token> :=
    [Number(10.0, false), Operator(Sub), Number(2.0, false), Operator(Mul), Number(3.0, false)]

  lemma PrecedenceTokensOf()
    ensures Printable(Precedence) && Toks(Precedence, 1) == PrecedenceTokens
  {
  }

  lemma PrecedenceText()
    ensures Fits(PrecedenceTokens, []) && Written(PrecedenceTokens, []) == "10 - 2 * 3"
  {
  }

  lemma PrecedenceValue(lib: MathLib)
    ensures Eval(lib, Precedence) == Ok(4.0) && Format(lib, 4.0) == Ok("4")
  {
    FormatSmall(lib, 4.0);
    assert Eval(lib, BinOp(Num(2.0), Mul, Num(3.0))) == Ok(6.0);
  }

  lemma PrecedenceEvaluates(lib: MathLib)
    ensures Evaluate(lib, "10 - 2 * 3") == "4"
  {
    PrecedenceTokensOf();
    PrecedenceText();
    Reads("10 - 2 * 3", Precedence, PrecedenceTokens, []);
    PrecedenceValue(lib);
    Shows(lib, "10 - 2 * 3", Precedence, 4.0, "4");
  }

  // (10 - 2) * 3: parentheses group first.

  const Grouped: Ast := BinOp(BinOp(Num(10.0), Sub, Num(2.0)), Mul, Num(3.0))
  const GroupedTokens: seq<Token> :=
    [Paren(true), Number(10.0, false), Operator(Sub), Number(2.0, false), Paren(false), Operator(Mul), Number(3.0, false)]
  const GroupedLayout: seq<bool> := [true, false, false, true]

  lemma GroupedTokensOf()
    ensures Printable(Grouped) && Toks(Grouped, 1) == GroupedTokens
  {
  }

  lemma GroupedFits()
    ensures Fits(GroupedTokens, GroupedLayout)
  {
  }

  lemma GroupedText()
    ensures Written(GroupedTokens, GroupedLayout) == "(10 - 2) * 3"
  {
  }

  lemma GroupedValue(lib: MathLib)
    ensures Eval(lib, Grouped) == Ok(24.0) && Format(lib, 24.0) == Ok("24")
  {
    FormatSmall(lib, 24.0);
    assert IntToString(24) == "24";
    assert Eval(lib, BinOp(Num(10.0), Sub, Num(2.0))) == Ok(8.0);
    assert (24.0).Floor == 24;
  }

  lemma GroupedEvaluates(lib: MathLib)
    ensures Evaluate(lib, "(10 - 2) * 3") == "24"
  {
    GroupedTokensOf();
    GroupedFits();
    GroupedText();
    Reads("(10 - 2) * 3", Grouped, GroupedTokens, GroupedLayout);
    GroupedValue(lib);
    Shows(lib, "(10 - 2) * 3", Grouped, 24.0, "24");
  }

  // 5 + -3: a sign applies to the factor after it.

  const Signed: Ast := BinOp(Num(5.0), Add, UnaryOp(Minus, Num(3.0)))
  const SignedTokens: seq<Token> := [Number(5.0, false), Operator(Add), Operator(Sub), Number(3.0, false)]
  const SignedLayout: seq<bool> := [false, false, true]

  lemma SignedTokensOf()
    ensures Printable(Signed) && Toks(Signed, 1) == SignedTokens
  {
  }

  lemma SignedFits()
    ensures Fits(SignedTokens, SignedLayout)
  {
  }

  lemma SignedText()
    ensures Written(SignedTokens, SignedLayout) == "5 + -3"
  {
  }

  lemma SignedValue(lib: MathLib)
    ensures Eval(lib, Signed) == Ok(2.0) && Format(lib, 2.0) == Ok("2")
  {
    FormatSmall(lib, 2.0);
    assert Eval(lib, UnaryOp(Minus, Num(3.0))) == Ok(-3.0);
  }

  lemma SignedEvaluates(lib: MathLib)
    ensures Evaluate(lib, "5 + -3") == "2"
  {
    SignedTokensOf();
    SignedFits();
    SignedText();
    Reads("5 + -3", Signed, SignedTokens, SignedLayout);
    SignedValue(lib);
    Shows(lib, "5 + -3", Signed, 2.0, "2");
  }

  // sqrt(9): a call, with the square root taken from the math library.

  const Root: Ast := FuncCall(Sqrt, Num(9.0))
  const RootTokens: seq<Token> := [Identifier("sqrt"), Paren(true), Number(9.0, false), Paren(false)]
  const CallLayout: seq<bool> := [true, true, true]

  lemma RootTokensOf()
    ensures Printable(Root) && Toks(Root, 1) == RootTokens
  {
  }

  lemma RootText()
    ensures Fits(RootTokens, CallLayout) && Written(RootTokens, CallLayout) == "sqrt(9)"
  {
  }

  lemma RootValue(lib: MathLib)
    requires lib.sqrt(9.0) == 3.0
    ensures Eval(lib, Root) == Ok(3.0) && Format(lib, 3.0) == Ok("3")
  {
    FormatSmall(lib, 3.0);
  }

  lemma RootEvaluates(lib: MathLib)
    requires lib.sqrt(9.0) == 3.0
    ensures Evaluate(lib, "sqrt(9)") == "3"
  {
    RootTokensOf();
    RootText();
    Reads("sqrt(9)", Root, RootTokens, CallLayout);
    RootValue(lib);
    Shows(lib, "sqrt(9)", Root, 3.0, "3");
  }

  // 2 * sqrt(16) + 1: a call is a factor.

  const CallInSum: Ast := BinOp(BinOp(Num(2.0), Mul, FuncCall(Sqrt, Num(16.0))), Add, Num(1.0))
  const CallInSumTokens: seq<Token> :=
    [Number(2.0, false), Operator(Mul), Identifier("sqrt"), Paren(true), Number(16.0, false), Paren(false),
     Operator(Add), Number(1.0, false)]
  const CallInSumLayout: seq<bool> := [false, false, true, true, true]

  lemma CallInSumTokensOf()
    ensures Printable(CallInSum) && Toks(CallInSum, 1) == CallInSumTokens
  {
  }

  lemma CallInSumFits()
    ensures Fits(CallInSumTokens, CallInSumLayout)
  {
  }

  lemma CallInSumHead()
    ensures Written(CallInSumTokens[..4], CallInSumLayout[..3]) == "2 * sqrt("
  {
    assert CallInSumTokens[..4] == [Number(2.0, false), Operator(Mul), Identifier("sqrt"), Paren(true)];
    assert CallInSumLayout[..3] == [false, false, true];
    assert Written([Number(2.0, false), Operator(Mul), Identifier("sqrt"), Paren(true)], [false, false, true]) == "2 * sqrt(";
  }

  lemma CallInSumTail()
    ensures Written(CallInSumTokens[4..], CallInSumLayout[4..]) == "16) + 1"
  {
    assert CallInSumTokens[4..] == [Number(16.0, false), Paren(false), Operator(Add), Number(1.0, false)];
    assert CallInSumLayout[4..] == [true];
    assert Written([Number(16.0, false), Paren(false), Operator(Add), Number(1.0, false)], [true]) == "16) + 1";
  }

  lemma CallInSumText()
    ensures Written(CallInSumTokens, CallInSumLayout) == "2 * sqrt(16) + 1"
  {
    CallInSumHead();
    CallInSumTail();
    CallInSumPieces();
    WrittenGlued(CallInSumTokens, CallInSumLayout, 4, "2 * sqrt(", "16) + 1", "2 * sqrt(16) + 1");
  }

  lemma CallInSumPieces()
    ensures "2 * sqrt(" + "16) + 1" == "2 * sqrt(16) + 1"
  {
  }

  lemma CallInSumValue(lib: MathLib)
    requires lib.sqrt(16.0) == 4.0
    ensures Eval(lib, CallInSum) == Ok(9.0) && Format(lib, 9.0) == Ok("9")
  {
    FormatSmall(lib, 9.0);
    assert Eval(lib, FuncCall(Sqrt, Num(16.0))) == Ok(4.0);
    assert Eval(lib, BinOp(Num(2.0), Mul, FuncCall(Sqrt, Num(16.0)))) == Ok(8.0);
  }

  lemma CallInSumEvaluates(lib: MathLib)
    requires lib.sqrt(16.0) == 4.0
    ensures Evaluate(lib, "2 * sqrt(16) + 1") == "9"
  {
    CallInSumTokensOf();
    CallInSumFits();
    CallInSumText();
    Reads("2 * sqrt(16) + 1", CallInSum, CallInSumTokens, CallInSumLayout);
    CallInSumValue(lib);
    Shows(lib, "2 * sqrt(16) + 1", CallInSum, 9.0, "9");
  }

  // 2**3: `**` is one operator, and a natural power is exact.

  const Cube: Ast := BinOp(Num(2.0), Pow, Num(3.0))
  const CubeTokens: seq<Token> := [Number(2.0, false), Operator(Pow), Number(3.0, false)]

  lemma CubeTokensOf()
    ensures Printable(Cube) && Toks(Cube, 1) == CubeTokens
  {
  }

  lemma CubeText()
    ensures Fits(CubeTokens, [true, true]) && Written(CubeTokens, [true, true]) == "2**3"
  {
  }

  lemma CubeValue(lib: MathLib)
    ensures Eval(lib, Cube) == Ok(8.0) && Format(lib, 8.0) == Ok("8")
  {
    FormatSmall(lib, 8.0);
    assert IntPower(2.0, 3) == 8.0;
    assert (8.0).Floor == 8;
  }

  lemma CubeEvaluates(lib: MathLib)
    ensures Evaluate(lib, "2**3") == "8"
  {
    CubeTokensOf();
    CubeText();
    Reads("2**3", Cube, CubeTokens, [true, true]);
    CubeValue(lib);
    Shows(lib, "2**3", Cube, 8.0, "8");
  }

  // 2 + 3**2: `**` binds tighter than `+`.

  const PowerFirst: Ast := BinOp(Num(2.0), Add, BinOp(Num(3.0), Pow, Num(2.0)))
  const PowerFirstTokens: seq<Token> :=
    [Number(2.0, false), Operator(Add), Number(3.0, false), Operator(Pow), Number(2.0, false)]
  const PowerFirstLayout: seq<bool> := [false, false, true, true]

  lemma PowerFirstTokensOf()
    ensures Printable(PowerFirst) && Toks(PowerFirst, 1) == PowerFirstTokens
  {
  }

  lemma PowerFirstFits()
    ensures Fits(PowerFirstTokens, PowerFirstLayout)
  {
  }

  lemma PowerFirstText()
    ensures Written(PowerFirstTokens, PowerFirstLayout) == "2 + 3**2"
  {
  }

  lemma PowerFirstValue(lib: MathLib)
    ensures Eval(lib, PowerFirst) == Ok(11.0) && Format(lib, 11.0) == Ok("11")
  {
    FormatSmall(lib, 11.0);
    assert IntToString(11) == "11";
    assert IntPower(3.0, 2) == 9.0;
    assert Eval(lib, BinOp(Num(3.0), Pow, Num(2.0))) == Ok(9.0);
    assert (11.0).Floor == 11;
  }

  lemma PowerFirstEvaluates(lib: MathLib)
    ensures Evaluate(lib, "2 + 3**2") == "11"
  {
    PowerFirstTokensOf();
    PowerFirstFits();
    PowerFirstText();
    Reads("2 + 3**2", PowerFirst, PowerFirstTokens, PowerFirstLayout);
    PowerFirstValue(lib);
    Shows(lib, "2 + 3**2", PowerFirst, 11.0, "11");
  }

  // (2 + 3)**2: a parenthesised base.

  const GroupedBase: Ast := BinOp(BinOp(Num(2.0), Add, Num(3.0)), Pow, Num(2.0))
  const GroupedBaseTokens: seq<Token> :=
    [Paren(true), Number(2.0, false), Operator(Add), Number(3.0, false), Paren(false), Operator(Pow), Number(2.0, false)]
  const GroupedBaseLayout: seq<bool> := [true, false, false, true, true, true]

  lemma GroupedBaseTokensOf()
    ensures Printable(GroupedBase) && Toks(GroupedBase, 1) == GroupedBaseTokens
  {
  }

  lemma GroupedBaseFits()
    ensures Fits(GroupedBaseTokens, GroupedBaseLayout)
  {
  }

  lemma GroupedBaseText()
    ensures Written(GroupedBaseTokens, GroupedBaseLayout) == "(2 + 3)**2"
  {
  }

  lemma GroupedBaseValue(lib: MathLib)
    ensures Eval(lib, GroupedBase) == Ok(25.0) && Format(lib, 25.0) == Ok("25")
  {
    FormatSmall(lib, 25.0);
    assert IntToString(25) == "25";
    assert Eval(lib, BinOp(Num(2.0), Add, Num(3.0))) == Ok(5.0);
    assert IntPower(5.0, 2) == 25.0;
    assert (25.0).Floor == 25;
  }

  lemma GroupedBaseEvaluates(lib: MathLib)
    ensures Evaluate(lib, "(2 + 3)**2") == "25"
  {
    GroupedBaseTokensOf();
    GroupedBaseFits();
    GroupedBaseText();
    Reads("(2 + 3)**2", GroupedBase, GroupedBaseTokens, GroupedBaseLayout);
    GroupedBaseValue(lib);
    Shows(lib, "(2 + 3)**2", GroupedBase, 25.0, "25");
  }

  // 10 / 0: the interpreter's own division check.

  const ByZero: Ast := BinOp(Num(10.0), Div, Num(0.0))
  const ByZeroTokens: seq<Token> := [Number(10.0, false), Operator(Div), Number(0.0, false)]

  lemma ByZeroTokensOf()
    ensures Printable(ByZero) && Toks(ByZero, 1) == ByZeroTokens
  {
  }

  lemma ByZeroText()
    ensures Fits(ByZeroTokens, []) && Written(ByZeroTokens, []) == "10 / 0"
  {
  }

  lemma ByZeroValue(lib: MathLib)
    ensures Eval(lib, ByZero) == Err(DivisionByZero)
  {
  }

  lemma ByZeroEvaluates(lib: MathLib)
    ensures Evaluate(lib, "10 / 0") == "Error: " + Message(lib, DivisionByZero)
  {
    ByZeroTokensOf();
    ByZeroText();
    Reads("10 / 0", ByZero, ByZeroTokens, []);
    ByZeroValue(lib);
    Refuses(lib, "10 / 0", ByZero, DivisionByZero, "Error: " + Message(lib, DivisionByZero));
  }

  // sqrt(-4): the domain check, made on the evaluated argument.

  const NegativeRoot: Ast := FuncCall(Sqrt, UnaryOp(Minus, Num(4.0)))
  const NegativeRootTokens: seq<Token> :=
    [Identifier("sqrt"), Paren(true), Operator(Sub), Number(4.0, false), Paren(false)]
  const NegativeRootLayout: seq<bool> := [true, true, true, true]

  lemma NegativeRootTokensOf()
    ensures Printable(NegativeRoot) && Toks(NegativeRoot, 1) == NegativeRootTokens
  {
  }

  lemma NegativeRootFits()
    ensures Fits(NegativeRootTokens, NegativeRootLayout)
  {
  }

  lemma NegativeRootText()
    ensures Written(NegativeRootTokens, NegativeRootLayout) == "sqrt(-4)"
  {
  }

  lemma NegativeRootValue(lib: MathLib)
    ensures Eval(lib, NegativeRoot) == Err(SqrtOfNegative)
  {
    assert Eval(lib, UnaryOp(Minus, Num(4.0))) == Ok(-4.0);
  }

  lemma NegativeRootEvaluates(lib: MathLib)
    ensures Evaluate(lib, "sqrt(-4)") == "Error: " + Message(lib, SqrtOfNegative)
  {
    NegativeRootTokensOf();
    NegativeRootFits();
    NegativeRootText();
    Reads("sqrt(-4)", NegativeRoot, NegativeRootTokens, NegativeRootLayout);
    NegativeRootValue(lib);
    Refuses(lib, "sqrt(-4)", NegativeRoot, SqrtOfNegative, "Error: " + Message(lib, SqrtOfNegative));
  }

  // 5 + (: the parser meets EOF where a factor must start.  The table in
  // calculator_core.py expects "Invalid syntax. Expected NUMBER, got EOF";
  // the code raises from `factor`, not from `eat`.

  const OpenTokens: seq<Token> := [Number(5.0, false), Operator(Add), Paren(true)]

  lemma OpenText()
    ensures AllSpellable(OpenTokens) && Fits(OpenTokens, []) && Written(OpenTokens, []) == "5 + ("
  {
  }

  lemma OpenParse()
    ensures ParseAt(Stream(OpenTokens, None), 0) == Err(UnexpectedToken(Eof))
  {
    var s := Stream(OpenTokens, None);
    assert FactorAt(s, 3) == Err(UnexpectedToken(Eof));
    assert ExprAt(s, 3) == Err(UnexpectedToken(Eof));
    assert FactorAt(s, 2) == Err(UnexpectedToken(Eof));
    assert TermLoop(s, 1, Num(5.0)) == Ok((Num(5.0), 1));
  }

  lemma OpenEvaluates(lib: MathLib)
    ensures Evaluate(lib, "5 + (") == "Error: Unexpected token: TOKEN(EOF, None)"
  {
    EofMessage(lib);
    OpenText();
    Lexes("5 + (", OpenTokens, []);
    OpenParse();
    ParseRejects(lib, "5 + (", OpenTokens, UnexpectedToken(Eof), "Error: Unexpected token: TOKEN(EOF, None)");
  }

  // 2**3**2: `**` groups to the right, so this is 2 ** 9.

  const Tower: Ast := BinOp(Num(2.0), Pow, BinOp(Num(3.0), Pow, Num(2.0)))
  const TowerTokens: seq<Token> :=
    [Number(2.0, false), Operator(Pow), Number(3.0, false), Operator(Pow), Number(2.0, false)]
  const TowerLayout: seq<bool> := [true, true, true, true]

  lemma TowerTokensOf()
    ensures Printable(Tower) && Toks(Tower, 1) == TowerTokens
  {
  }

  lemma TowerFits()
    ensures Fits(TowerTokens, TowerLayout)
  {
  }

  lemma TowerText()
    ensures Written(TowerTokens, TowerLayout) == "2**3**2"
  {
  }

  lemma TowerValue(lib: MathLib)
    ensures Eval(lib, Tower) == Ok(512.0) && Format(lib, 512.0) == Ok("512")
  {
    FormatSmall(lib, 512.0);
    assert IntToString(512) == "512";
    assert IntPower(3.0, 2) == 9.0;
    assert Eval(lib, BinOp(Num(3.0), Pow, Num(2.0))) == Ok(9.0);
    assert IntPower(2.0, 9) == 512.0;
    assert (512.0).Floor == 512;
  }

  lemma TowerEvaluates(lib: MathLib)
    ensures Evaluate(lib, "2**3**2") == "512"
  {
    TowerTokensOf();
    TowerFits();
    TowerText();
    Reads("2**3**2", Tower, TowerTokens, TowerLayout);
    TowerValue(lib);
    Shows(lib, "2**3**2", Tower, 512.0, "512");
  }

  // --3: signs stack, each applying to the factor after it.

  const Stacked: Ast := UnaryOp(Minus, UnaryOp(Minus, Num(3.0)))
  const StackedTokens: seq<Token> := [Operator(Sub), Operator(Sub), Number(3.0, false)]

  lemma StackedTokensOf()
    ensures Printable(Stacked) && Toks(Stacked, 1) == StackedTokens
  {
  }

  lemma StackedText()
    ensures Fits(StackedTokens, [true, true]) && Written(StackedTokens, [true, true]) == "--3"
  {
  }

  lemma StackedValue(lib: MathLib)
    ensures Eval(lib, Stacked) == Ok(3.0) && Format(lib, 3.0) == Ok("3")
  {
    FormatSmall(lib, 3.0);
    assert Eval(lib, UnaryOp(Minus, Num(3.0))) == Ok(-3.0);
  }

  lemma StackedEvaluates(lib: MathLib)
    ensures Evaluate(lib, "--3") == "3"
  {
    StackedTokensOf();
    StackedText();
    Reads("--3", Stacked, StackedTokens, [true, true]);
    StackedValue(lib);
    Shows(lib, "--3", Stacked, 3.0, "3");
  }

  // sqrt(1/0): the argument is evaluated before the domain check, so the
  // division fails first.

  const RootOfQuotient: Ast := FuncCall(Sqrt, BinOp(Num(1.0), Div, Num(0.0)))
  const RootOfQuotientTokens: seq<Token> :=
    [Identifier("sqrt"), Paren(true), Number(1.0, false), Operator(Div), Number(0.0, false), Paren(false)]
  const RootOfQuotientLayout: seq<bool> := [true, true, true, true, true]

  lemma RootOfQuotientTokensOf()
    ensures Printable(RootOfQuotient) && Toks(RootOfQuotient, 1) == RootOfQuotientTokens
  {
  }

  lemma RootOfQuotientFits()
    ensures Fits(RootOfQuotientTokens, RootOfQuotientLayout)
  {
  }

  lemma RootOfQuotientText()
    ensures Written(RootOfQuotientTokens, RootOfQuotientLayout) == "sqrt(1/0)"
  {
  }

  lemma RootOfQuotientValue(lib: MathLib)
    ensures Eval(lib, RootOfQuotient) == Err(DivisionByZero)
  {
    assert Eval(lib, BinOp(Num(1.0), Div, Num(0.0))) == Err(DivisionByZero);
  }

  lemma RootOfQuotientEvaluates(lib: MathLib)
    ensures Evaluate(lib, "sqrt(1/0)") == "Error: " + Message(lib, DivisionByZero)
  {
    RootOfQuotientTokensOf();
    RootOfQuotientFits();
    RootOfQuotientText();
    Reads("sqrt(1/0)", RootOfQuotient, RootOfQuotientTokens, RootOfQuotientLayout);
    RootOfQuotientValue(lib);
    Refuses(lib, "sqrt(1/0)", RootOfQuotient, DivisionByZero, "Error: " + Message(lib, DivisionByZero));
  }

  // 5pi and 5(3): there is no implicit multiplication; what follows a whole
  // expression is refused.

  const NumberThenName: seq<Token> := [Number(5.0, false), Identifier("pi")]

  lemma NumberThenNameText()
    ensures AllSpellable(NumberThenName) && Fits(NumberThenName, [true]) && Written(NumberThenName, [true]) == "5pi"
  {
  }

  lemma NumberThenNameParse()
    ensures ParseAt(Stream(NumberThenName, None), 0) == Err(TrailingToken(Identifier("pi")))
  {
    var s := Stream(NumberThenName, None);
    assert ExprAt(s, 0) == Ok((Num(5.0), 1));
  }

  lemma NumberThenNameEvaluates(lib: MathLib)
    ensures Evaluate(lib, "5pi") == "Error: " + Message(lib, TrailingToken(Identifier("pi")))
  {
    NumberThenNameText();
    Lexes("5pi", NumberThenName, [true]);
    NumberThenNameParse();
    ParseRejects(lib, "5pi", NumberThenName, TrailingToken(Identifier("pi")), "Error: " + Message(lib, TrailingToken(Identifier("pi"))));
  }

  const NumberThenGroup: seq<Token> := [Number(5.0, false), Paren(true), Number(3.0, false), Paren(false)]

  lemma NumberThenGroupText()
    ensures AllSpellable(NumberThenGroup) && Fits(NumberThenGroup, CallLayout) && Written(NumberThenGroup, CallLayout) == "5(3)"
  {
  }

  lemma NumberThenGroupParse()
    ensures ParseAt(Stream(NumberThenGroup, None), 0) == Err(TrailingToken(Paren(true)))
  {
    var s := Stream(NumberThenGroup, None);
    assert ExprAt(s, 0) == Ok((Num(5.0), 1));
  }

  lemma NumberThenGroupEvaluates(lib: MathLib)
    ensures Evaluate(lib, "5(3)") == "Error: " + Message(lib, TrailingToken(Paren(true)))
  {
    NumberThenGroupText();
    Lexes("5(3)", NumberThenGroup, CallLayout);
    NumberThenGroupParse();
    ParseRejects(lib, "5(3)", NumberThenGroup, TrailingToken(Paren(true)), "Error: " + Message(lib, TrailingToken(Paren(true))));
  }

  // pi2: one name, which is neither a constant nor followed by a call.

  lemma NameParse()
    ensures AllSpellable([Identifier("pi2")]) && Written([Identifier("pi2")], []) == "pi2"
    ensures ParseAt(Stream([Identifier("pi2")], None), 0) == Err(UnknownConstant("pi2"))
  {
    assert IsWord("pi2");
  }

  lemma NameEvaluates(lib: MathLib)
    ensures Evaluate(lib, "pi2") == "Error: " + Message(lib, UnknownConstant("pi2"))
  {
    NameParse();
    Lexes("pi2", [Identifier("pi2")], []);
    ParseRejects(lib, "pi2", [Identifier("pi2")], UnknownConstant("pi2"), "Error: " + Message(lib, UnknownConstant("pi2")));
  }

  // foo(1): a call to a name outside `FUNCTIONS`.

  const UnknownCall: seq<Token> := [Identifier("foo"), Paren(true), Number(1.0, false), Paren(false)]

  lemma UnknownCallText()
    ensures AllSpellable(UnknownCall) && Fits(UnknownCall, CallLayout) && Written(UnknownCall, CallLayout) == "foo(1)"
  {
    assert IsWord("foo");
  }

  lemma UnknownCallParse()
    ensures ParseAt(Stream(UnknownCall, None), 0) == Err(UnknownFunction("foo"))
  {
    var s := Stream(UnknownCall, None);
    assert FactorAt(s, 0) == Err(UnknownFunction("foo"));
  }

  lemma UnknownCallEvaluates(lib: MathLib)
    ensures Evaluate(lib, "foo(1)") == "Error: " + Message(lib, UnknownFunction("foo"))
  {
    UnknownCallText();
    Lexes("foo(1)", UnknownCall, CallLayout);
    UnknownCallParse();
    ParseRejects(lib, "foo(1)", UnknownCall, UnknownFunction("foo"), "Error: " + Message(lib, UnknownFunction("foo")));
  }

  // 1.2.3: the number run takes every digit and point, and two points are refused.

  lemma TwoPointsLex(text: string)
    requires text == "1.2.3"
    ensures Tokenize(text, 0) == Stream([], Some(InvalidNumber("1.2.3")))
  {
    RunEndAt(text, 0, IsNumberChar, 5);
    assert Run(text, 0, IsNumberChar) == text;
    TwoPointsCount(text);
    NumberFormat(text);
  }

  lemma TwoPointsCount(text: string)
    requires text == "1.2.3"
    ensures Count(text, '.') == 2
  {
    var a, b, c, d := text[..1], text[..2], text[..3], text[..4];
    assert Count(a, '.') == 0 by { assert a[..0] == []; }
    assert Count(b, '.') == 1 by { assert b[..1] == a; }
    assert Count(c, '.') == 1 by { assert c[..2] == b; }
    assert Count(d, '.') == 2 by { assert d[..3] == c; }
    assert text[..4] == d;
  }

  lemma TwoPointsEvaluates(lib: MathLib)
    ensures Evaluate(lib, "1.2.3") == "Error: " + Message(lib, InvalidNumber("1.2.3"))
  {
    TwoPointsLex("1.2.3");
    Rejects(lib, "1.2.3", InvalidNumber("1.2.3"), "Error: " + Message(lib, InvalidNumber("1.2.3")));
  }

  // 2^3: `^` is no operator of this lexer; the parser meets the error when
  // it pulls the token after 2.

  lemma CaretLex(text: string)
    requires text == "2^3"
    ensures Tokenize(text, 0) == Stream([Number(2.0, false)], Some(InvalidCharacter('^')))
  {
    assert text[0..1] == Lexeme(Number(2.0, false));
    LexOne(text, 0, Number(2.0, false), 1);
    assert NextToken(text, 1) == Err(InvalidCharacter('^'));
    TokenizeStep(text, 0, Number(2.0, false), 1);
  }

  lemma CaretParse()
    ensures ParseAt(Stream([Number(2.0, false)], Some(InvalidCharacter('^'))), 0) == Err(InvalidCharacter('^'))
  {
  }

  lemma CaretEvaluates(lib: MathLib)
    ensures Evaluate(lib, "2^3") == "Error: " + Message(lib, InvalidCharacter('^'))
  {
    CaretLex("2^3");
    CaretParse();
    Rejects(lib, "2^3", InvalidCharacter('^'), "Error: " + Message(lib, InvalidCharacter('^')));
  }
}
