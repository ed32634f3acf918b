/** A renderer for trees, used to state what the parser recognises: a tree
    printed with the fewest parentheses that respect the precedence levels
    of `power`, `term` and `expr` parses back to itself.  This is where the
    precedence and associativity of calculator_core.py's grammar are proved:
    `**` binds tighter than `* /`, which bind tighter than `+ -`; `**` groups
    to the right and the other operators to the left; signs and calls are factors. */
module Printing {
  import opened Text
  import opened Tokens
  import opened Scanner
  import opened Parsing

  /** The precedence levels of the parser's `operators` table. */
  function OpLevel(op: Op): nat {
    match op
    case Add => 1
    case Sub => 1
    case Mul => 2
    case Div => 2
    case Pow => 3
  }

  /** A binary node sits at its operator's level; anything else is a factor (level 4). */
  function Level(a: Ast): nat {
    if a.BinOp? then OpLevel(a.op) else 4
  }

  predicate IsNatural(v: real) { v >= 0.0 && v.Floor as real == v }

  /** Trees whose numbers can be written: naturals, `pi` and `e`. */
  predicate Printable(a: Ast) {
    match a
    case Num(v) => IsNatural(v) || v == Pi || v == E
    case UnaryOp(_, x) => Printable(x)
    case FuncCall(_, x) => Printable(x)
    case BinOp(l, _, r) => Printable(l) && Printable(r)
  }

  function NumToken(v: real): Token {
    if v == Pi then Identifier("pi") else if v == E then Identifier("e") else Number(v, false)
  }

  function SignToken(sign: Sign): Token {
    Operator(if sign == Plus then Add else Sub)
  }

  /** The tokens of `a` where the context needs level `c`: parenthesised when below it. */
  function Toks(a: Ast, c: nat): seq<Token>
    decreases a, 2
  {
    if Level(a) < c then [Paren(true)] + Raw(a) + [Paren(false)] else Raw(a)
  }

  /** The tokens of `a` without parentheses around it, one function per kind of node. */
  function Raw(a: Ast): seq<Token>
    decreases a, 1
  {
    match a
    case Num(v) => [NumToken(v)]
    case UnaryOp(sign, x) => SignedRaw(sign, x)
    case FuncCall(f, x) => CallRaw(f, x)
    case BinOp(l, op, r) => BinaryRaw(l, op, r)
  }

  /** A sign, then its operand as a factor. */
  function SignedRaw(sign: Sign, x: Ast): seq<Token>
    decreases UnaryOp(sign, x), 0
  {
    [SignToken(sign)] + Toks(x, 4)
  }

  /** The name, then the argument as an `expr` between parentheses. */
  function CallRaw(f: Func, x: Ast): seq<Token>
    decreases FuncCall(f, x), 0
  {
    [Identifier(FuncName(f)), Paren(true)] + Toks(x, 1) + [Paren(false)]
  }

  /** `**` takes a factor on its left and a power on its right; the other
      operators take a tree of their own level on the left and of the next
      level on the right. */
  function BinaryRaw(l: Ast, op: Op, r: Ast): seq<Token>
    decreases BinOp(l, op, r), 0
  {
    if op == Pow then Toks(l, 4) + [Operator(Pow)] + Toks(r, 3)
    else Toks(l, OpLevel(op)) + [Operator(op)] + Toks(r, OpLevel(op) + 1)
  }

  /** From `i + k` on, the tokens begin with `t[k..]`. */
  predicate FitsFrom(s: Stream, i: nat, t: seq<Token>, k: nat)
    requires k <= |t|
    decreases |t| - k
  {
    k == |t| || (i + k < |s.tokens| && s.tokens[i + k] == t[k] && FitsFrom(s, i, t, k + 1))
  }

  /** The tokens `parse` reads from `i` on are exactly `t`, and the parser may stand after them. */
  predicate Holds(s: Stream, i: nat, t: seq<Token>) {
    FitsFrom(s, i, t, 0) && At(s, i + |t|)
  }

  /** `FitsFrom` compares every position from `k` on. */
  lemma {:induction false} FitsFromAll(s: Stream, i: nat, t: seq<Token>, k: nat)
    requires k <= |t|
    ensures FitsFrom(s, i, t, k) <==>
      (k == |t| || i + |t| <= |s.tokens|) && forall j | k <= j < |t| :: s.tokens[i + j] == t[j]
    decreases |t| - k
  {
    if k < |t| {
      FitsFromAll(s, i, t, k + 1);
    }
  }

  lemma HoldsSplit(s: Stream, i: nat, a: seq<Token>, b: seq<Token>)
    requires Holds(s, i, a + b)
    ensures Holds(s, i, a) && Holds(s, i + |a|, b)
  {
    FitsFromAll(s, i, a + b, 0);
    FitsFromAll(s, i, a, 0);
    FitsFromAll(s, i + |a|, b, 0);
    forall j | 0 <= j < |a|
      ensures s.tokens[i + j] == a[j]
    {
      assert (a + b)[j] == a[j];
    }
    forall j | 0 <= j < |b|
      ensures s.tokens[i + |a| + j] == b[j]
    {
      assert (a + b)[|a| + j] == b[j];
    }
  }

  /** Eating a token inside a held run succeeds and moves one place on. */
  lemma EatHeld(s: Stream, i: nat, t: seq<Token>, k: nat, kind: Kind, value: Option<string>)
    requires Holds(s, i, t) && k < |t| && Matches(t[k], kind, value)
    ensures At(s, i + k) && Cur(s, i + k) == t[k] && EatAt(s, i + k, kind, value) == Ok(i + k + 1)
  {
    FitsFromAll(s, i, t, 0);
  }

  /** A held binary node: both operands are held, and the operator between them is eaten. */
  lemma BinaryHeld(s: Stream, i: nat, left: seq<Token>, op: Op, right: seq<Token>)
    requires Holds(s, i, left + [Operator(op)] + right)
    ensures Holds(s, i, left) && Holds(s, i + |left| + 1, right)
    ensures At(s, i + |left|) && Cur(s, i + |left|) == Operator(op)
    ensures EatAt(s, i + |left|, OPERATOR, Some(Symbol(op))) == Ok(i + |left| + 1)
  {
    var t := left + [Operator(op)] + right;
    HoldsSplit(s, i, left + [Operator(op)], right);
    HoldsSplit(s, i, left, [Operator(op)]);
    EatHeld(s, i, t, |left|, OPERATOR, Some(Symbol(op)));
  }

  lemma LookupFuncName(f: Func)
    ensures LookupFunction(FuncName(f)) == Some(f)
  {
  }

  lemma ToksNotEmpty(a: Ast, c: nat)
    ensures |Toks(a, c)| > 0
  {
    match a
    case Num(_) =>
    case UnaryOp(sign, x) => assert |SignedRaw(sign, x)| > 0;
    case FuncCall(f, x) => assert |CallRaw(f, x)| > 0;
    case BinOp(l, op, r) => assert |BinaryRaw(l, op, r)| > 0;
  }

  /* One step of each parsing function, stated on its own so that the
     reading lemmas below never unfold the parser's definitions. */

  lemma FactorNumberStep(s: Stream, i: nat, v: real)
    requires At(s, i) && Cur(s, i) == Number(v, false) && EatAt(s, i, NUMBER, None).Ok?
    ensures FactorAt(s, i) == Ok((Num(v), EatAt(s, i, NUMBER, None).value))
  {
  }

  lemma FactorConstantStep(s: Stream, i: nat, name: string)
    requires At(s, i) && Cur(s, i) == Identifier(name) && (name == "pi" || name == "e")
    requires EatAt(s, i, IDENTIFIER, None) == Ok(i + 1) && Cur(s, i + 1) != Paren(true)
    ensures FactorAt(s, i) == Ok((Num(if name == "pi" then Pi else E), i + 1))
  {
  }

  lemma FactorSignStep(s: Stream, i: nat, sign: Sign, x: Ast, j: nat)
    requires At(s, i) && Cur(s, i) == SignToken(sign)
    requires EatAt(s, i, OPERATOR, Some(if sign == Plus then "+" else "-")) == Ok(i + 1)
    requires At(s, i + 1) && FactorAt(s, i + 1) == Ok((x, j))
    ensures FactorAt(s, i) == Ok((UnaryOp(sign, x), j))
  {
  }

  lemma FactorParenStep(s: Stream, i: nat, x: Ast, j: nat)
    requires At(s, i) && Cur(s, i) == Paren(true) && EatAt(s, i, PARENTHESIS, Some("(")) == Ok(i + 1)
    requires At(s, i + 1) && ExprAt(s, i + 1) == Ok((x, j))
    requires At(s, j) && EatAt(s, j, PARENTHESIS, Some(")")) == Ok(j + 1)
    ensures FactorAt(s, i) == Ok((x, j + 1))
  {
  }

  lemma FactorCallStep(s: Stream, i: nat, f: Func, x: Ast, j: nat)
    requires At(s, i) && Cur(s, i) == Identifier(FuncName(f)) && EatAt(s, i, IDENTIFIER, None) == Ok(i + 1)
    requires At(s, i + 1) && Cur(s, i + 1) == Paren(true) && EatAt(s, i + 1, PARENTHESIS, Some("(")) == Ok(i + 2)
    requires At(s, i + 2) && ExprAt(s, i + 2) == Ok((x, j))
    requires At(s, j) && EatAt(s, j, PARENTHESIS, Some(")")) == Ok(j + 1)
    ensures FactorAt(s, i) == Ok((FuncCall(f, x), j + 1))
  {
    LookupFuncName(f);
  }

  lemma PowerStopStep(s: Stream, i: nat, x: Ast, j: nat)
    requires At(s, i) && FactorAt(s, i) == Ok((x, j)) && Cur(s, j) != Operator(Pow)
    ensures PowerAt(s, i) == Ok((x, j))
  {
  }

  lemma PowerStep(s: Stream, i: nat, x: Ast, j: nat, y: Ast, k: nat)
    requires At(s, i) && FactorAt(s, i) == Ok((x, j)) && Cur(s, j) == Operator(Pow)
    requires EatAt(s, j, OPERATOR, Some("**")) == Ok(j + 1) && At(s, j + 1) && PowerAt(s, j + 1) == Ok((y, k))
    ensures PowerAt(s, i) == Ok((BinOp(x, Pow, y), k))
  {
  }

  lemma TermStartStep(s: Stream, i: nat, x: Ast, j: nat)
    requires At(s, i) && PowerAt(s, i) == Ok((x, j))
    ensures TermAt(s, i) == TermLoop(s, j, x)
  {
  }

  lemma TermLoopStep(s: Stream, j: nat, x: Ast, op: Op, y: Ast, k: nat)
    requires (op == Mul || op == Div) && At(s, j) && Cur(s, j) == Operator(op)
    requires EatAt(s, j, OPERATOR, Some(Symbol(op))) == Ok(j + 1) && At(s, j + 1) && PowerAt(s, j + 1) == Ok((y, k))
    requires At(s, k)
    ensures TermLoop(s, j, x) == TermLoop(s, k, BinOp(x, op, y))
  {
  }

  lemma TermLoopStop(s: Stream, j: nat, x: Ast)
    requires At(s, j) && Cur(s, j) != Operator(Mul) && Cur(s, j) != Operator(Div)
    ensures TermLoop(s, j, x) == Ok((x, j))
  {
  }

  lemma ExprStartStep(s: Stream, i: nat, x: Ast, j: nat)
    requires At(s, i) && TermAt(s, i) == Ok((x, j))
    ensures ExprAt(s, i) == ExprLoop(s, j, x)
  {
  }

  lemma ExprLoopStep(s: Stream, j: nat, x: Ast, op: Op, y: Ast, k: nat)
    requires (op == Add || op == Sub) && At(s, j) && Cur(s, j) == Operator(op)
    requires EatAt(s, j, OPERATOR, Some(Symbol(op))) == Ok(j + 1) && At(s, j + 1) && TermAt(s, j + 1) == Ok((y, k))
    requires At(s, k)
    ensures ExprLoop(s, j, x) == ExprLoop(s, k, BinOp(x, op, y))
  {
  }

  lemma ExprLoopStop(s: Stream, j: nat, x: Ast)
    requires At(s, j) && Cur(s, j) != Operator(Add) && Cur(s, j) != Operator(Sub)
    ensures ExprLoop(s, j, x) == Ok((x, j))
  {
  }

  /* The reading lemmas, one per parsing function and one per case, are
     mutually recursive; each measure is the tree and then a rank that goes
     down from `expr` to `factor` on the same tree, and from a parenthesised
     factor back to `expr`. */

  /** A printed factor (level 4) is read back by `factor`, provided no `(` follows it. */
  lemma {:induction false} FactorReads(s: Stream, i: nat, a: Ast)
    requires Printable(a) && Holds(s, i, Toks(a, 4))
    requires Cur(s, i + |Toks(a, 4)|) != Paren(true)
    ensures FactorAt(s, i) == Ok((a, i + |Toks(a, 4)|))
    decreases a, if Level(a) < 4 then 4 else 0, 1
  {
    if Level(a) < 4 {
      assert Toks(a, 4) == [Paren(true)] + Toks(a, 1) + [Paren(false)];
      ParenReads(s, i, a);
    } else if a.Num? {
      NumberReads(s, i, a);
    } else if a.UnaryOp? {
      assert Toks(a, 4) == SignedRaw(a.sign, a.operand) == [SignToken(a.sign)] + Toks(a.operand, 4);
      SignReads(s, i, a.sign, a.operand);
    } else {
      assert Toks(a, 4) == CallRaw(a.func, a.argument) == [Identifier(FuncName(a.func)), Paren(true)] + Toks(a.argument, 1) + [Paren(false)];
      CallReads(s, i, a.func, a.argument);
    }
  }

  /** A parenthesised tree is read by `expr` between the two parentheses. */
  lemma {:induction false} ParenReads(s: Stream, i: nat, a: Ast)
    requires Printable(a) && Holds(s, i, [Paren(true)] + Toks(a, 1) + [Paren(false)])
    ensures FactorAt(s, i) == Ok((a, i + |Toks(a, 1)| + 2))
    decreases a, 4, 0
  {
    var j := i + 1 + |Toks(a, 1)|;
    Enclosed(s, i, [Paren(true)], Toks(a, 1));
    assert ExprAt(s, i + 1) == Ok((a, j)) by {
      ExprReads(s, i + 1, a);
      ExprLoopStop(s, j, a);
    }
    FactorParenStep(s, i, a, j);
  }

  /** Tokens `head`, then `inner`, then `)`, where `head` ends in `(`: every
      token of `head` is eaten in turn, `inner` is held, and `)` is eaten after it. */
  lemma Enclosed(s: Stream, i: nat, head: seq<Token>, inner: seq<Token>)
    requires 0 < |head| <= 2 && head[|head| - 1] == Paren(true)
    requires |head| == 2 ==> head[0].Identifier?
    requires Holds(s, i, head + inner + [Paren(false)])
    ensures forall k | 0 <= k < |head| :: At(s, i + k) && Cur(s, i + k) == head[k]
    ensures |head| == 2 ==> EatAt(s, i, IDENTIFIER, None) == Ok(i + 1)
    ensures EatAt(s, i + |head| - 1, PARENTHESIS, Some("(")) == Ok(i + |head|)
    ensures Holds(s, i + |head|, inner)
    ensures var j := i + |head| + |inner|;
      At(s, j) && Cur(s, j) == Paren(false) && EatAt(s, j, PARENTHESIS, Some(")")) == Ok(j + 1)
  {
    var t := head + inner + [Paren(false)];
    HoldsSplit(s, i, head + inner, [Paren(false)]);
    HoldsSplit(s, i, head, inner);
    EatHeld(s, i, t, |t| - 1, PARENTHESIS, Some(")"));
    EatHeld(s, i, head, |head| - 1, PARENTHESIS, Some("("));
    if |head| == 2 {
      EatHeld(s, i, head, 0, IDENTIFIER, None);
    }
  }

  lemma NumberReads(s: Stream, i: nat, a: Ast)
    requires a.Num? && Printable(a) && Holds(s, i, Toks(a, 4))
    requires Cur(s, i + |Toks(a, 4)|) != Paren(true)
    ensures FactorAt(s, i) == Ok((a, i + |Toks(a, 4)|))
  {
    var t := Toks(a, 4);
    assert t == [NumToken(a.value)];
    EatHeld(s, i, t, 0, KindOf(NumToken(a.value)), None);
    if a.value == Pi {
      FactorConstantStep(s, i, "pi");
    } else if a.value == E {
      FactorConstantStep(s, i, "e");
    } else {
      FactorNumberStep(s, i, a.value);
    }
  }

  /** A sign applies to the factor after it. */
  lemma {:induction false} SignReads(s: Stream, i: nat, sign: Sign, x: Ast)
    requires Printable(x) && Holds(s, i, [SignToken(sign)] + Toks(x, 4))
    requires Cur(s, i + 1 + |Toks(x, 4)|) != Paren(true)
    ensures FactorAt(s, i) == Ok((UnaryOp(sign, x), i + 1 + |Toks(x, 4)|))
    decreases UnaryOp(sign, x), 0, 0
  {
    var j := i + 1 + |Toks(x, 4)|;
    Signed(s, i, sign, Toks(x, 4));
    FactorReads(s, i + 1, x);
    FactorSignStep(s, i, sign, x, j);
  }

  /** A held sign is eaten, and what follows it is held. */
  lemma Signed(s: Stream, i: nat, sign: Sign, t: seq<Token>)
    requires Holds(s, i, [SignToken(sign)] + t)
    ensures At(s, i) && Cur(s, i) == SignToken(sign)
    ensures EatAt(s, i, OPERATOR, Some(if sign == Plus then "+" else "-")) == Ok(i + 1)
    ensures At(s, i + 1) && Holds(s, i + 1, t)
  {
    EatHeld(s, i, [SignToken(sign)] + t, 0, OPERATOR, Some(if sign == Plus then "+" else "-"));
    HoldsSplit(s, i, [SignToken(sign)], t);
  }

  /** A call reads its name, then its argument as an `expr` between parentheses. */
  lemma {:induction false} CallReads(s: Stream, i: nat, f: Func, x: Ast)
    requires Printable(x) && Holds(s, i, [Identifier(FuncName(f)), Paren(true)] + Toks(x, 1) + [Paren(false)])
    ensures FactorAt(s, i) == Ok((FuncCall(f, x), i + |Toks(x, 1)| + 3))
    decreases FuncCall(f, x), 0, 0
  {
    var j := i + 2 + |Toks(x, 1)|;
    Enclosed(s, i, [Identifier(FuncName(f)), Paren(true)], Toks(x, 1));
    assert ExprAt(s, i + 2) == Ok((x, j)) by {
      ExprReads(s, i + 2, x);
      ExprLoopStop(s, j, x);
    }
    FactorCallStep(s, i, f, x, j);
  }

  /** A tree printed at level 3 is read back by `power`, provided neither
      `(` nor `**` follows it. */
  lemma {:induction false} PowerReads(s: Stream, i: nat, a: Ast)
    requires Printable(a) && Holds(s, i, Toks(a, 3))
    requires var next := Cur(s, i + |Toks(a, 3)|); next != Paren(true) && next != Operator(Pow)
    ensures PowerAt(s, i) == Ok((a, i + |Toks(a, 3)|))
    decreases a, if Level(a) < 3 then 5 else 1, 1
  {
    if a.BinOp? && a.op == Pow {
      assert Toks(a, 3) == BinaryRaw(a.left, Pow, a.right) == Toks(a.left, 4) + [Operator(Pow)] + Toks(a.right, 3);
      assert |Toks(a, 3)| == |Toks(a.left, 4)| + 1 + |Toks(a.right, 3)|;
      RaiseReads(s, i, a.left, a.right);
      assert a == BinOp(a.left, Pow, a.right);
    } else {
      assert Toks(a, 3) == Toks(a, 4);
      FactorReads(s, i, a);
      PowerStopStep(s, i, a, i + |Toks(a, 3)|);
    }
  }

  /** `**` groups to the right: its left operand is a factor, its right one a power. */
  lemma {:induction false} RaiseReads(s: Stream, i: nat, x: Ast, y: Ast)
    requires Printable(x) && Printable(y) && Holds(s, i, Toks(x, 4) + [Operator(Pow)] + Toks(y, 3))
    requires var next := Cur(s, i + |Toks(x, 4)| + 1 + |Toks(y, 3)|); next != Paren(true) && next != Operator(Pow)
    ensures PowerAt(s, i) == Ok((BinOp(x, Pow, y), i + |Toks(x, 4)| + 1 + |Toks(y, 3)|))
    decreases BinOp(x, Pow, y), 1, 0
  {
    RaiseLeft(s, i, x, y);
    RaiseRight(s, i, x, i + |Toks(x, 4)|, y);
  }

  /** `factor` reads the left operand of `**` and stops at the operator. */
  lemma {:induction false} RaiseLeft(s: Stream, i: nat, x: Ast, y: Ast)
    requires Printable(x) && Holds(s, i, Toks(x, 4) + [Operator(Pow)] + Toks(y, 3))
    ensures var j := i + |Toks(x, 4)|;
      At(s, i) && FactorAt(s, i) == Ok((x, j)) && Holds(s, j + 1, Toks(y, 3))
      && At(s, j) && Cur(s, j) == Operator(Pow) && EatAt(s, j, OPERATOR, Some("**")) == Ok(j + 1)
    decreases BinOp(x, Pow, y), 0, 1
  {
    BinaryHeld(s, i, Toks(x, 4), Pow, Toks(y, 3));
    ToksNotEmpty(x, 4);
    FactorReads(s, i, x);
  }

  /** Once `factor` has read the left operand up to `j`, the `**` at `j` and the power after it complete the node. */
  lemma {:induction false} RaiseRight(s: Stream, i: nat, x: Ast, j: nat, y: Ast)
    requires At(s, i) && FactorAt(s, i) == Ok((x, j))
    requires At(s, j) && Cur(s, j) == Operator(Pow) && EatAt(s, j, OPERATOR, Some("**")) == Ok(j + 1)
    requires Printable(y) && Holds(s, j + 1, Toks(y, 3))
    requires var next := Cur(s, j + 1 + |Toks(y, 3)|); next != Paren(true) && next != Operator(Pow)
    ensures PowerAt(s, i) == Ok((BinOp(x, Pow, y), j + 1 + |Toks(y, 3)|))
    decreases BinOp(x, Pow, y), 0, 0
  {
    PowerReads(s, j + 1, y);
    PowerStep(s, i, x, j, y, j + 1 + |Toks(y, 3)|);
  }

  /** A tree printed at level 2 is read by `term` up to its end, where the
      loop of `term` takes over; neither `(` nor `**` may follow it. */
  lemma {:induction false} TermReads(s: Stream, i: nat, a: Ast)
    requires Printable(a) && Holds(s, i, Toks(a, 2))
    requires var next := Cur(s, i + |Toks(a, 2)|); next != Paren(true) && next != Operator(Pow)
    ensures TermAt(s, i) == TermLoop(s, i + |Toks(a, 2)|, a)
    decreases a, if Level(a) == 1 then 6 else 2, 1
  {
    if Level(a) == 2 {
      assert Toks(a, 2) == BinaryRaw(a.left, a.op, a.right) == Toks(a.left, 2) + [Operator(a.op)] + Toks(a.right, 3);
      ProductReads(s, i, a.left, a.op, a.right);
    } else {
      assert Toks(a, 2) == Toks(a, 3);
      PowerReads(s, i, a);
      TermStartStep(s, i, a, i + |Toks(a, 2)|);
    }
  }

  /** A term followed by neither `*` nor `/` is all that `term` reads. */
  lemma {:induction false} TermWhole(s: Stream, i: nat, a: Ast)
    requires Printable(a) && Holds(s, i, Toks(a, 2))
    requires var next := Cur(s, i + |Toks(a, 2)|);
      next != Paren(true) && !(next.Operator? && OpLevel(next.op) >= 2)
    ensures TermAt(s, i) == Ok((a, i + |Toks(a, 2)|))
    decreases a, if Level(a) == 1 then 6 else 2, 2
  {
    TermReads(s, i, a);
    TermLoopStop(s, i + |Toks(a, 2)|, a);
  }

  /** `*` and `/` group to the left: the left operand is a term, the right one a power. */
  lemma {:induction false} ProductReads(s: Stream, i: nat, x: Ast, op: Op, y: Ast)
    requires OpLevel(op) == 2 && Printable(x) && Printable(y)
    requires Holds(s, i, Toks(x, 2) + [Operator(op)] + Toks(y, 3))
    requires var next := Cur(s, i + |Toks(x, 2)| + 1 + |Toks(y, 3)|); next != Paren(true) && next != Operator(Pow)
    ensures TermAt(s, i) == TermLoop(s, i + |Toks(x, 2)| + 1 + |Toks(y, 3)|, BinOp(x, op, y))
    decreases BinOp(x, op, y), 2, 0
  {
    ProductLeft(s, i, x, op, y);
    ProductRight(s, i, x, i + |Toks(x, 2)|, op, y);
  }

  /** `term` reads the left operand of a product and stops at its operator. */
  lemma {:induction false} ProductLeft(s: Stream, i: nat, x: Ast, op: Op, y: Ast)
    requires OpLevel(op) == 2 && Printable(x)
    requires Holds(s, i, Toks(x, 2) + [Operator(op)] + Toks(y, 3))
    ensures var j := i + |Toks(x, 2)|;
      At(s, i) && At(s, j) && TermAt(s, i) == TermLoop(s, j, x) && Holds(s, j + 1, Toks(y, 3))
      && Cur(s, j) == Operator(op) && EatAt(s, j, OPERATOR, Some(Symbol(op))) == Ok(j + 1)
    decreases BinOp(x, op, y), 1, 0
  {
    BinaryHeld(s, i, Toks(x, 2), op, Toks(y, 3));
    ToksNotEmpty(x, 2);
    TermReads(s, i, x);
  }

  /** Once `term` has read the left operand up to `j`, its loop takes the operator at `j` and the power after it. */
  lemma {:induction false} ProductRight(s: Stream, i: nat, x: Ast, j: nat, op: Op, y: Ast)
    requires OpLevel(op) == 2 && At(s, i) && At(s, j) && TermAt(s, i) == TermLoop(s, j, x)
    requires Cur(s, j) == Operator(op) && EatAt(s, j, OPERATOR, Some(Symbol(op))) == Ok(j + 1)
    requires Printable(y) && Holds(s, j + 1, Toks(y, 3))
    requires var next := Cur(s, j + 1 + |Toks(y, 3)|); next != Paren(true) && next != Operator(Pow)
    ensures TermAt(s, i) == TermLoop(s, j + 1 + |Toks(y, 3)|, BinOp(x, op, y))
    decreases BinOp(x, op, y), 0, 0
  {
    PowerReads(s, j + 1, y);
    TermLoopStep(s, j, x, op, y, j + 1 + |Toks(y, 3)|);
  }

  /** A tree printed at level 1 is read by `expr` up to its end, where the
      loop of `expr` takes over; what follows must not be `(`, `**`, `*` or `/`. */
  lemma {:induction false} ExprReads(s: Stream, i: nat, a: Ast)
    requires Printable(a) && Holds(s, i, Toks(a, 1))
    requires var next := Cur(s, i + |Toks(a, 1)|);
      next != Paren(true) && !(next.Operator? && OpLevel(next.op) >= 2)
    ensures ExprAt(s, i) == ExprLoop(s, i + |Toks(a, 1)|, a)
    decreases a, 3, 1
  {
    if Level(a) == 1 {
      assert Toks(a, 1) == BinaryRaw(a.left, a.op, a.right) == Toks(a.left, 1) + [Operator(a.op)] + Toks(a.right, 2);
      SumReads(s, i, a.left, a.op, a.right);
    } else {
      assert Toks(a, 1) == Toks(a, 2);
      TermWhole(s, i, a);
      ExprStartStep(s, i, a, i + |Toks(a, 1)|);
    }
  }

  /** `+` and `-` group to the left: the left operand is an expr, the right one a term. */
  lemma {:induction false} SumReads(s: Stream, i: nat, x: Ast, op: Op, y: Ast)
    requires OpLevel(op) == 1 && Printable(x) && Printable(y)
    requires Holds(s, i, Toks(x, 1) + [Operator(op)] + Toks(y, 2))
    requires var next := Cur(s, i + |Toks(x, 1)| + 1 + |Toks(y, 2)|);
      next != Paren(true) && !(next.Operator? && OpLevel(next.op) >= 2)
    ensures ExprAt(s, i) == ExprLoop(s, i + |Toks(x, 1)| + 1 + |Toks(y, 2)|, BinOp(x, op, y))
    decreases BinOp(x, op, y), 3, 0
  {
    SumLeft(s, i, x, op, y);
    SumRight(s, i, x, i + |Toks(x, 1)|, op, y);
  }

  /** `expr` reads the left operand of a sum and stops at its operator. */
  lemma {:induction false} SumLeft(s: Stream, i: nat, x: Ast, op: Op, y: Ast)
    requires OpLevel(op) == 1 && Printable(x)
    requires Holds(s, i, Toks(x, 1) + [Operator(op)] + Toks(y, 2))
    ensures var j := i + |Toks(x, 1)|;
      At(s, i) && At(s, j) && ExprAt(s, i) == ExprLoop(s, j, x) && Holds(s, j + 1, Toks(y, 2))
      && Cur(s, j) == Operator(op) && EatAt(s, j, OPERATOR, Some(Symbol(op))) == Ok(j + 1)
    decreases BinOp(x, op, y), 2, 0
  {
    BinaryHeld(s, i, Toks(x, 1), op, Toks(y, 2));
    ToksNotEmpty(x, 1);
    ExprReads(s, i, x);
  }

  /** Once `expr` has read the left operand up to `j`, its loop takes the operator at `j` and the term after it. */
  lemma {:induction false} SumRight(s: Stream, i: nat, x: Ast, j: nat, op: Op, y: Ast)
    requires OpLevel(op) == 1 && At(s, i) && At(s, j) && ExprAt(s, i) == ExprLoop(s, j, x)
    requires Cur(s, j) == Operator(op) && EatAt(s, j, OPERATOR, Some(Symbol(op))) == Ok(j + 1)
    requires Printable(y) && Holds(s, j + 1, Toks(y, 2))
    requires var next := Cur(s, j + 1 + |Toks(y, 2)|);
      next != Paren(true) && !(next.Operator? && OpLevel(next.op) >= 2)
    ensures ExprAt(s, i) == ExprLoop(s, j + 1 + |Toks(y, 2)|, BinOp(x, op, y))
    decreases BinOp(x, op, y), 0, 0
  {
    TermWhole(s, j + 1, y);
    ExprLoopStep(s, j, x, op, y, j + 1 + |Toks(y, 2)|);
  }

  /** A printed tree followed by nothing parses back to itself. */
  lemma ParsesBack(s: Stream, a: Ast)
    requires Printable(a) && s == Stream(Toks(a, 1), None)
    ensures At(s, 0) && ParseAt(s, 0) == Ok(a)
  {
    ToksNotEmpty(a, 1);
    FitsFromAll(s, 0, s.tokens, 0);
    ExprReads(s, 0, a);
  }
}
