/** The `Interpreter` of calculator_core.py: structural recursion over the
    tree (`visit_Num`, `visit_UnaryOp`, `visit_FuncCall`, `visit_BinOp`).
    The name-based dispatch of `visit` becomes a `match` over `Ast`, so its
    `generic_visit` fallback and the unknown-function branch cannot arise. */
module Interpreting {
  import opened Tokens
  import opened Parsing

  /** The floating-point routines the core calls and this model does not
      compute: `math.sqrt/sin/cos/tan/log10/log`, `x ** y` for an exponent
      that is not a natural number, the `.10g` rendering and `repr` of a float. */
  datatype MathLib = MathLib(
    sqrt: real -> real,
    sin: real -> real,
    cos: real -> real,
    tan: real -> real,
    log10: real -> real,
    ln: real -> real,
    power: (real, real) -> real,
    formatG: real -> string,
    reprFloat: real -> string)

  predicate IsNat(y: real) { y >= 0.0 && y.Floor as real == y }

  function IntPower(x: real, n: nat): real {
    if n == 0 then 1.0 else x * IntPower(x, n - 1)
  }

  /** `x ** y`: exact for a natural exponent, the library's otherwise. */
  function Power(lib: MathLib, x: real, y: real): real {
    if IsNat(y) then IntPower(x, y.Floor) else lib.power(x, y)
  }

  function Apply(lib: MathLib, f: Func, v: real): real {
    match f
    case Sqrt => lib.sqrt(v)
    case Sin => lib.sin(v)
    case Cos => lib.cos(v)
    case Tan => lib.tan(v)
    case Log => lib.log10(v)
    case Ln => lib.ln(v)
  }

  /** The domain check of `visit_FuncCall`, made after the argument is evaluated. */
  function DomainCheck(f: Func, v: real): Option<Error> {
    if f == Sqrt && v < 0.0 then Some(SqrtOfNegative)
    else if (f == Log || f == Ln) && v <= 0.0 then Some(LogOfNonPositive)
    else None
  }

  function Eval(lib: MathLib, a: Ast): Result<real> {
    match a
    case Num(v) => Ok(v)
    case UnaryOp(sign, x) =>
      var v :- Eval(lib, x);
      Ok(if sign == Plus then v else -v)
    case FuncCall(f, x) =>
      var v :- Eval(lib, x);
      if DomainCheck(f, v).Some? then Err(DomainCheck(f, v).value) else Ok(Apply(lib, f, v))
    case BinOp(l, op, r) =>
      var x :- Eval(lib, l);
      var y :- Eval(lib, r);
      match op
      case Add => Ok(x + y)
      case Sub => Ok(x - y)
      case Mul => Ok(x * y)
      case Div => if y == 0.0 then Err(DivisionByZero) else Ok(x / y)
      case Pow => Ok(Power(lib, x, y))
  }

  function Subtrees(a: Ast): set<Ast> {
    {a} + match a
      case Num(_) => {}
      case UnaryOp(_, x) => Subtrees(x)
      case FuncCall(_, x) => Subtrees(x)
      case BinOp(l, _, r) => Subtrees(l) + Subtrees(r)
  }

  /** A node whose own check fails once its operands have evaluated: a
      division by a right operand equal to zero, or a function outside its domain. */
  predicate Faulty(lib: MathLib, d: Ast) {
    match d
    case BinOp(l, op, r) => op == Div && Eval(lib, l).Ok? && Eval(lib, r) == Ok(0.0)
    case FuncCall(f, x) => Eval(lib, x).Ok? && DomainCheck(f, Eval(lib, x).value).Some?
    case _ => false
  }

  /** Evaluation fails exactly when some node of the tree is faulty, and the
      error is then one of the interpreter's own three. */
  lemma {:induction false} EvalFailsIffFaulty(lib: MathLib, a: Ast)
    ensures Eval(lib, a).Err? <==> exists d | d in Subtrees(a) :: Faulty(lib, d)
    ensures Eval(lib, a).Err? ==> Eval(lib, a).error in {DivisionByZero, SqrtOfNegative, LogOfNonPositive}
  {
    match a
    case Num(_) =>
      assert Subtrees(a) == {a};
    case UnaryOp(_, x) =>
      EvalFailsIffFaulty(lib, x);
      assert !Faulty(lib, a);
      assert forall d | d in Subtrees(a) && d != a :: d in Subtrees(x);
    case FuncCall(_, x) =>
      EvalFailsIffFaulty(lib, x);
      assert forall d | d in Subtrees(a) && d != a :: d in Subtrees(x);
      if Eval(lib, x).Err? {
        var d :| d in Subtrees(x) && Faulty(lib, d);
        assert d in Subtrees(a);
      } else if Faulty(lib, a) {
        assert a in Subtrees(a);
      }
    case BinOp(l, _, r) =>
      EvalFailsIffFaulty(lib, l);
      EvalFailsIffFaulty(lib, r);
      assert forall d | d in Subtrees(a) && d != a :: d in Subtrees(l) || d in Subtrees(r);
      if Eval(lib, l).Err? {
        var d :| d in Subtrees(l) && Faulty(lib, d);
        assert d in Subtrees(a);
      } else if Eval(lib, r).Err? {
        var d :| d in Subtrees(r) && Faulty(lib, d);
        assert d in Subtrees(a);
      } else if Faulty(lib, a) {
        assert a in Subtrees(a);
      }
  }
}
