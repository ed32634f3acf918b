/** `evaluate_expression` of calculator_core.py: the whole pipeline from
    text to the string the window shows, with every exception turned into
    "Error: " and its message. */
module Calculator {
  import opened Text
  import opened Tokens
  import opened Scanner
  import opened Parsing
  import opened Interpreting

  /** `BASIC_OPERATORS`, the one-character operators the lexer and the window share. */
  const BasicOperators: seq<string> := ["+", "-", "*", "/"]

  /** `FUNCTIONS`, the names a call may use. */
  const Functions: seq<string> := ["sqrt", "sin", "cos", "tan", "log", "ln"]

  /** The parser accepts a function name exactly when it is listed in `FUNCTIONS`. */
  lemma FunctionsListed(name: string)
    ensures name in Functions <==> LookupFunction(name).Some?
  {
    if LookupFunction(name).None? {
      assert forall k | 0 <= k < |Functions| :: Functions[k] == FuncName([Sqrt, Sin, Cos, Tan, Log, Ln][k]);
    }
  }

  /** Each basic operator, met by the lexer with no second `*` behind it, is
      one operator token whose value is that operator. */
  lemma BasicOperatorToken(text: string, pos: nat)
    requires pos < |text| && [text[pos]] in BasicOperators
    requires !(pos + 1 < |text| && text[pos] == '*' && text[pos + 1] == '*')
    ensures NextToken(text, pos).Ok?
    ensures var t := NextToken(text, pos).value.token;
      t.Operator? && Symbol(t.op) == [text[pos]] && NextToken(text, pos).value.next == pos + 1
  {
    assert text[pos] in "+-*/" by {
      var k :| 0 <= k < |BasicOperators| && BasicOperators[k] == [text[pos]];
      assert [text[pos]][0] == BasicOperators[k][0];
    }
  }

  /** `repr(token.value)`: an int prints its digits, a float its shortest
      round-trip form, a string in single quotes, and EOF's value is `None`. */
  function ValueRepr(lib: MathLib, t: Token): string {
    match t
    case Number(v, isFloat) => if isFloat then lib.reprFloat(v) else IntToString(v.Floor)
    case Eof => "None"
    case _ => "'" + TextValue(t).value + "'"
  }

  /** `TOKEN.__repr__`. */
  function TokenRepr(lib: MathLib, t: Token): string {
    "TOKEN(" + KindName(KindOf(t)) + ", " + ValueRepr(lib, t) + ")"
  }

  /** The message each exception carries. */
  function Message(lib: MathLib, e: Error): string {
    match e
    case InvalidNumber(lexeme) => "Invalid number format: " + lexeme
    case InvalidCharacter(c) => "Invalid character: '" + [c] + "'"
    case Expected(kind, value, got) =>
      "Invalid syntax. Expected " + KindName(kind)
      + (if value.Some? && value.value != "" then " with value " + value.value else "")
      + ", got " + TokenRepr(lib, got)
    case UnexpectedToken(got) => "Unexpected token: " + TokenRepr(lib, got)
    case UnknownFunction(name) => "Unknown function: " + name
    case UnknownConstant(name) => "Unknown constant: " + name
    case TrailingToken(got) => "Unexpected token after expression: " + TokenRepr(lib, got)
    case DivisionByZero => "Division by zero"
    case SqrtOfNegative => "Domain error: sqrt of negative number"
    case LogOfNonPositive => "Domain error: log of non-positive number"
    case IntTooLong =>
      "Exceeds the limit (4300 digits) for integer string conversion; use sys.set_int_max_str_digits() to increase the limit"
  }

  /** A whole number prints as an int, anything else through `.10g`; `str`
      refuses an int of more than `MaxIntDigits` digits. */
  function Format(lib: MathLib, v: real): (r: Result<string>)
    ensures r.Err? ==> v.Floor as real == v && r.error == IntTooLong
  {
    if v.Floor as real == v then
      if DigitCount(v.Floor) > MaxIntDigits then Err(IntTooLong) else Ok(IntToString(v.Floor))
    else Ok(lib.formatG(v))
  }

  /** `Interpreter(Parser(Lexer(text))).interpret()`. */
  function Interpret(lib: MathLib, text: string): Result<real> {
    var tree :- Parse(text);
    Eval(lib, tree)
  }

  /** What the `try` block of `evaluate_expression` returns, or the exception it raises. */
  function Outcome(lib: MathLib, text: string): Result<string> {
    var v :- Interpret(lib, text);
    Format(lib, v)
  }

  /** `evaluate_expression(text)`. */
  function Evaluate(lib: MathLib, text: string): string {
    if text == [] then ""
    else match Outcome(lib, text)
      case Ok(shown) => shown
      case Err(e) => "Error: " + Message(lib, e)
  }

  /** The characters a `.10g` rendering can hold: digits, signs, a point,
      the exponent mark and the letters of `inf` and `nan`. */
  const PlainChars: string := "0123456789.+-eainf"

  predicate IsPlain(s: string) {
    |s| > 0 && forall k | 0 <= k < |s| :: s[k] in PlainChars
  }

  /** What this model assumes of the `.10g` routine: it renders every value plainly. */
  ghost predicate FormatsPlainly(lib: MathLib) {
    forall v: real :: IsPlain(lib.formatG(v))
  }

  /** The pipeline run with the lexer and parser objects, as the source does. */
  method EvaluateExpression(lib: MathLib, text: string) returns (r: string)
    ensures r == Evaluate(lib, text)
  {
    if text == [] {
      return "";
    }
    var lexer := new Lexer(text);
    var created := Parser.Create(lexer);
    if created.Err? {
      return "Error: " + Message(lib, created.error);
    }
    var parser := created.value;
    var tree := parser.Parse();
    if tree.Err? {
      return "Error: " + Message(lib, tree.error);
    }
    var value := Eval(lib, tree.value);
    if value.Err? {
      return "Error: " + Message(lib, value.error);
    }
    var shown := Format(lib, value.value);
    if shown.Err? {
      return "Error: " + Message(lib, shown.error);
    }
    r := shown.value;
  }

  /** A rendered number is plain: it holds no colon and no parenthesis. */
  lemma FormatIsPlain(lib: MathLib, v: real)
    requires FormatsPlainly(lib)
    ensures Format(lib, v).Ok? ==> IsPlain(Format(lib, v).value)
    ensures Format(lib, v).Ok? ==> ':' !in Format(lib, v).value && ')' !in Format(lib, v).value && '(' !in Format(lib, v).value
  {
    if Format(lib, v).Ok? {
      var s := Format(lib, v).value;
      assert IsPlain(s) by {
        if v.Floor as real == v {
          IntToStringPlain(v.Floor);
        }
      }
      PlainLacks(s);
    }
  }

  /** Rendering fails exactly on a whole number of `10^MaxIntDigits` or more
      in size, the first int that has more digits than `str` writes. */
  lemma FormatRefuses(lib: MathLib, v: real)
    ensures Format(lib, v).Err? <==>
      v.Floor as real == v && (v.Floor >= Pow10(MaxIntDigits) || v.Floor <= -(Pow10(MaxIntDigits) as int))
    ensures Format(lib, v).Err? ==> Format(lib, v).error == IntTooLong
  {
    var i := v.Floor;
    DigitsBelow(if i < 0 then -i else i, MaxIntDigits);
  }

  /** A whole number of at most four digits renders as an int. */
  lemma FormatSmall(lib: MathLib, v: real)
    requires v.Floor as real == v && -10000.0 < v < 10000.0
    ensures Format(lib, v) == Ok(IntToString(v.Floor))
  {
    var i := v.Floor;
    DigitsBelow(if i < 0 then -i else i, 4);
  }

  /** A natural number has at most `k` digits exactly when it is below `10^k`. */
  lemma {:induction false} DigitsBelow(n: nat, k: nat)
    requires k > 0
    ensures |NatToString(n)| <= k <==> n < Pow10(k)
  {
    if n < 10 {
      TenDivides(k);
    } else if k == 1 {
      assert |NatToString(n)| == |NatToString(n / 10)| + 1;
    } else {
      DigitsBelow(n / 10, k - 1);
      assert |NatToString(n)| == |NatToString(n / 10)| + 1;
      assert n / 10 < Pow10(k - 1) <==> n < 10 * Pow10(k - 1);
    }
  }

  lemma {:induction false} TenDivides(k: nat)
    requires k > 0
    ensures Pow10(k) >= 10
  {
    if k > 1 {
      TenDivides(k - 1);
    }
  }

  /** A rendered integer is plain. */
  lemma IntToStringPlain(i: int)
    ensures IsPlain(IntToString(i))
  {
    IntToStringShape(i);
    var s := IntToString(i);
    assert forall k | 0 <= k < |s| :: s[k] in PlainChars by {
      forall k | 0 <= k < |s|
        ensures s[k] in PlainChars
      {
        assert IsDigit(s[k]) || s[k] == '-';
      }
    }
  }

  /** A plain text holds no colon and no parenthesis. */
  lemma PlainLacks(s: string)
    requires IsPlain(s)
    ensures ':' !in s && ')' !in s && '(' !in s
  {
    assert forall k | 0 <= k < |s| :: s[k] != ':' && s[k] != ')' && s[k] != '(';
  }

  /** Empty input gives the empty string; any other input gives an error
      message exactly when lexing, parsing, evaluation or the rendering of a
      too long int raised, and the window's test `"Error:" in result` tells
      the two apart. */
  lemma EvaluateOutcome(lib: MathLib, text: string)
    requires FormatsPlainly(lib)
    ensures text == [] ==> Evaluate(lib, text) == ""
    ensures Outcome(lib, text).Err? ==> Interpret(lib, text).Err? || Outcome(lib, text).error == IntTooLong
    ensures text != [] && Outcome(lib, text).Err? ==>
      StartsWith(Evaluate(lib, text), "Error: ") && Contains(Evaluate(lib, text), "Error:")
    ensures text != [] && Outcome(lib, text).Ok? ==>
      Evaluate(lib, text) == Outcome(lib, text).value && !Contains(Evaluate(lib, text), "Error:")
  {
    if text != [] {
      match Outcome(lib, text)
      case Err(e) =>
        ErrorShown(lib, e);
      case Ok(shown) =>
        FormatIsPlain(lib, Interpret(lib, text).value);
        NoColonNoError(shown);
    }
  }

  /** An error is shown as "Error: " and its message. */
  lemma ErrorShown(lib: MathLib, e: Error)
    ensures StartsWith("Error: " + Message(lib, e), "Error: ")
    ensures Contains("Error: " + Message(lib, e), "Error:")
  {
    var r := "Error: " + Message(lib, e);
    assert r[..7] == "Error: ";
    assert r[..6] == "Error:";
  }

  lemma {:induction false} NoColonNoError(s: string)
    requires ':' !in s
    ensures !Contains(s, "Error:")
  {
    if |s| >= 6 {
      assert s[..6][5] == s[5] != ':';
    }
    if s != [] {
      assert forall k | 0 <= k < |s[1..]| :: s[1..][k] == s[k + 1];
      NoColonNoError(s[1..]);
    }
  }

  /** A text of white space only lexes to EOF at once. */
  lemma AllSpaceTokenize(text: string)
    requires forall k | 0 <= k < |text| :: IsSpace(text[k])
    ensures Tokenize(text, 0) == Stream([], None)
  {
    if text != [] {
      assert RunEnd(text, 0, IsSpace) == |text|;
      assert NextToken(text, 0) == NextToken(text, |text|) == Ok(Scanned(Eof, |text|));
    }
  }

  /** Non-empty white space is not the empty input: the parser meets EOF
      where a factor must start. */
  lemma BlankInput(lib: MathLib, text: string)
    requires text != [] && forall k | 0 <= k < |text| :: IsSpace(text[k])
    ensures Evaluate(lib, text) == "Error: Unexpected token: TOKEN(EOF, None)"
  {
    BlankParse(text);
    EofMessage(lib);
  }

  lemma BlankParse(text: string)
    requires forall k | 0 <= k < |text| :: IsSpace(text[k])
    ensures Parse(text) == Err(UnexpectedToken(Eof))
  {
    AllSpaceTokenize(text);
    var s := Tokenize(text, 0);
    assert FactorAt(s, 0) == Err(UnexpectedToken(Eof));
    assert ExprAt(s, 0) == Err(UnexpectedToken(Eof));
  }

  lemma EofMessage(lib: MathLib)
    ensures "Error: " + Message(lib, UnexpectedToken(Eof)) == "Error: Unexpected token: TOKEN(EOF, None)"
  {
    var repr := TokenRepr(lib, Eof);
    assert repr == "TOKEN(EOF, None)" by {
      assert KindName(KindOf(Eof)) == "EOF";
      assert ValueRepr(lib, Eof) == "None";
    }
    assert Message(lib, UnexpectedToken(Eof)) == "Unexpected token: " + repr;
    assert "Error: " + "Unexpected token: " == "Error: Unexpected token: ";
  }

  /** Evaluation goes wrong only on the interpreter's own checks once the text parses. */
  lemma ParsedFailsOnlyInDomain(lib: MathLib, text: string)
    requires Parse(text).Ok?
    ensures Interpret(lib, text).Err? <==> exists d | d in Subtrees(Parse(text).value) :: Faulty(lib, d)
    ensures Interpret(lib, text).Err? ==> Interpret(lib, text).error in {DivisionByZero, SqrtOfNegative, LogOfNonPositive}
  {
    EvalFailsIffFaulty(lib, Parse(text).value);
  }
}
