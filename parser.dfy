/** The recursive-descent `Parser` of calculator_core.py and its tree
    (`Num`, `UnaryOp`, `BinOp`, `FuncCall`).

    The functions `EatAt` ... `ParseAt` specify the parser over the stream that
    `Scanner.Tokenize` produces: position `i` is the index of
    `current_token`, and pulling the token after the last one yields the
    stream's end, EOF or the lexing error.  A lexing error therefore surfaces
    exactly when the parser asks for the token at that character.  The class
    `Parser` keeps the source's mutable `current_token` and is proved against
    these functions. */
module Parsing {
  import opened Text
  import opened Tokens
  import opened Scanner

  datatype Sign = Plus | Minus

  datatype Ast =
    | Num(value: real)
    | UnaryOp(sign: Sign, operand: Ast)
    | BinOp(left: Ast, op: Op, right: Ast)
    | FuncCall(func: Func, argument: Ast)

  /** `math.pi` and `math.e`, written as the decimal literals Python prints for them. */
  const Pi: real := 3.141592653589793
  const E: real := 2.718281828459045

  /** Position `i` can be the parser's current token: a real token, or EOF
      once lexing reached the end of the text without error. */
  predicate At(s: Stream, i: nat) {
    i < |s.tokens| || (i == |s.tokens| && s.end.None?)
  }

  function Cur(s: Stream, i: nat): Token {
    if i < |s.tokens| then s.tokens[i] else Eof
  }

  /** `eat(kind, value)`: a mismatch raises "Invalid syntax"; a match pulls the next token. */
  function EatAt(s: Stream, i: nat, kind: Kind, value: Option<string>): (r: Result<nat>)
    requires At(s, i)
    ensures r.Ok? ==> At(s, r.value) && r.value == if i < |s.tokens| then i + 1 else i
  {
    if !Matches(Cur(s, i), kind, value) then Err(Expected(kind, value, Cur(s, i)))
    else if i == |s.tokens| then Ok(i)
    else if i + 1 < |s.tokens| || s.end.None? then Ok(i + 1)
    else Err(s.end.value)
  }

  /** `factor : (PLUS | MINUS) factor | NUMBER | LPAREN expr RPAREN | IDENTIFIER (LPAREN expr RPAREN)?`,
      one function per alternative. */
  function FactorAt(s: Stream, i: nat): (r: Result<(Ast, nat)>)
    requires At(s, i)
    ensures r.Ok? ==> i < r.value.1 && At(s, r.value.1)
    decreases |s.tokens| - i, 1
  {
    var token := Cur(s, i);
    if token == Operator(Add) then SignedAt(s, i, Plus)
    else if token == Operator(Sub) then SignedAt(s, i, Minus)
    else if token.Number? then
      var j :- EatAt(s, i, NUMBER, None);
      Ok((Num(token.value), j))
    else if token == Paren(true) then GroupAt(s, i)
    else if token.Identifier? then NameAt(s, i, token.name)
    else Err(UnexpectedToken(token))
  }

  /** A sign, then the factor it applies to. */
  function SignedAt(s: Stream, i: nat, sign: Sign): (r: Result<(Ast, nat)>)
    requires At(s, i) && Cur(s, i) == Operator(if sign == Plus then Add else Sub)
    ensures r.Ok? ==> i < r.value.1 && At(s, r.value.1)
    decreases |s.tokens| - i, 0
  {
    var j :- EatAt(s, i, OPERATOR, Some(if sign == Plus then "+" else "-"));
    var x :- FactorAt(s, j);
    Ok((UnaryOp(sign, x.0), x.1))
  }

  /** `(`, an expr, `)`. */
  function GroupAt(s: Stream, i: nat): (r: Result<(Ast, nat)>)
    requires At(s, i) && Cur(s, i) == Paren(true)
    ensures r.Ok? ==> i < r.value.1 && At(s, r.value.1)
    decreases |s.tokens| - i, 0
  {
    var j :- EatAt(s, i, PARENTHESIS, Some("("));
    var x :- ExprAt(s, j);
    var k :- EatAt(s, x.1, PARENTHESIS, Some(")"));
    Ok((x.0, k))
  }

  /** A name: a call when `(` follows it, otherwise `pi`, `e` or an unknown constant. */
  function NameAt(s: Stream, i: nat, name: string): (r: Result<(Ast, nat)>)
    requires At(s, i) && Cur(s, i) == Identifier(name)
    ensures r.Ok? ==> i < r.value.1 && At(s, r.value.1)
    decreases |s.tokens| - i, 0
  {
    var j :- EatAt(s, i, IDENTIFIER, None);
    if Cur(s, j) == Paren(true) then
      match LookupFunction(name)
      case None => Err(UnknownFunction(name))
      case Some(f) =>
        var k :- EatAt(s, j, PARENTHESIS, Some("("));
        var x :- ExprAt(s, k);
        var m :- EatAt(s, x.1, PARENTHESIS, Some(")"));
        Ok((FuncCall(f, x.0), m))
    else if name == "pi" then Ok((Num(Pi), j))
    else if name == "e" then Ok((Num(E), j))
    else Err(UnknownConstant(name))
  }

  /** `power : factor (POW power)?`, right-associative. */
  function PowerAt(s: Stream, i: nat): (r: Result<(Ast, nat)>)
    requires At(s, i)
    ensures r.Ok? ==> i < r.value.1 && At(s, r.value.1)
    decreases |s.tokens| - i, 2
  {
    var x :- FactorAt(s, i);
    if Cur(s, x.1) == Operator(Pow) then
      var j :- EatAt(s, x.1, OPERATOR, Some("**"));
      var y :- PowerAt(s, j);
      Ok((BinOp(x.0, Pow, y.0), y.1))
    else Ok(x)
  }

  /** `term : power ((MUL | DIV) power)*` */
  function TermAt(s: Stream, i: nat): (r: Result<(Ast, nat)>)
    requires At(s, i)
    ensures r.Ok? ==> i < r.value.1 && At(s, r.value.1)
    decreases |s.tokens| - i, 3
  {
    var x :- PowerAt(s, i);
    TermLoop(s, x.1, x.0)
  }

  /** The `while` loop of `term` from position `i` with the tree built so far. */
  function TermLoop(s: Stream, i: nat, node: Ast): (r: Result<(Ast, nat)>)
    requires At(s, i)
    ensures r.Ok? ==> i <= r.value.1 && At(s, r.value.1)
    decreases |s.tokens| - i, 3
  {
    var token := Cur(s, i);
    if token == Operator(Mul) || token == Operator(Div) then
      var j :- EatAt(s, i, OPERATOR, Some(Symbol(token.op)));
      var y :- PowerAt(s, j);
      TermLoop(s, y.1, BinOp(node, token.op, y.0))
    else Ok((node, i))
  }

  /** `expr : term ((PLUS | MINUS) term)*` */
  function ExprAt(s: Stream, i: nat): (r: Result<(Ast, nat)>)
    requires At(s, i)
    ensures r.Ok? ==> i < r.value.1 && At(s, r.value.1)
    decreases |s.tokens| - i, 4
  {
    var x :- TermAt(s, i);
    ExprLoop(s, x.1, x.0)
  }

  /** The `while` loop of `expr`. */
  function ExprLoop(s: Stream, i: nat, node: Ast): (r: Result<(Ast, nat)>)
    requires At(s, i)
    ensures r.Ok? ==> i <= r.value.1 && At(s, r.value.1)
    decreases |s.tokens| - i, 4
  {
    var token := Cur(s, i);
    if token == Operator(Add) || token == Operator(Sub) then
      var j :- EatAt(s, i, OPERATOR, Some(Symbol(token.op)));
      var y :- TermAt(s, j);
      ExprLoop(s, y.1, BinOp(node, token.op, y.0))
    else Ok((node, i))
  }

  /** `parse`: a whole expression, then nothing but EOF. */
  function ParseAt(s: Stream, i: nat): (r: Result<Ast>)
    requires At(s, i)
  {
    var x :- ExprAt(s, i);
    if Cur(s, x.1) != Eof then Err(TrailingToken(Cur(s, x.1))) else Ok(x.0)
  }

  /** Lexing and parsing a whole text: `Parser(Lexer(text)).parse()`.  The
      constructor pulls the first token, so a lexing error there comes first. */
  function Parse(text: string): Result<Ast> {
    var s := Tokenize(text, 0);
    if !At(s, 0) then Err(s.end.value) else ParseAt(s, 0)
  }

  /** The tokens the lexer has still to produce when `i` is current. */
  function Rest(s: Stream, i: nat): Stream
    requires At(s, i)
  {
    Stream(if i < |s.tokens| then s.tokens[i + 1..] else [], s.end)
  }

  class Parser {
    const lexer: Lexer
    var currentToken: Token
    /** The stream the lexer will produce for its text, and the index of `currentToken` in it. */
    ghost const stream: Stream
    ghost var index: nat

    ghost predicate Valid()
      reads this, lexer
    {
      && lexer.Valid()
      && stream == Tokenize(lexer.text, 0)
      && At(stream, index)
      && currentToken == Cur(stream, index)
      && Tokenize(lexer.text, lexer.pos) == Rest(stream, index)
    }

    /** The method result `r` agrees with the specification result `spec`:
        the same tree with the cursor moved to the same place, or the same error. */
    ghost predicate Agrees(r: Result<Ast>, spec: Result<(Ast, nat)>)
      reads this, lexer
    {
      match spec
      case Ok(x) => r == Ok(x.0) && index == x.1 && Valid()
      case Err(e) => r == Err(e)
    }

    constructor Init(lexer: Lexer, first: Token)
      requires lexer.Valid() && lexer.pos >= 0
      requires var s := Tokenize(lexer.text, 0);
        At(s, 0) && first == Cur(s, 0) && Tokenize(lexer.text, lexer.pos) == Rest(s, 0)
      ensures this.lexer == lexer && index == 0 && Valid()
    {
      this.lexer := lexer;
      currentToken := first;
      stream := Tokenize(lexer.text, 0);
      index := 0;
    }

    /** `Parser(lexer)` on a fresh lexer: pulls the first token, which may raise. */
    static method Create(lexer: Lexer) returns (r: Result<Parser>)
      requires lexer.Valid() && lexer.pos == 0
      modifies lexer
      ensures var s := Tokenize(lexer.text, 0);
        && (At(s, 0) <==> r.Ok?)
        && (r.Ok? ==> r.value.lexer == lexer && r.value.index == 0 && r.value.Valid())
        && (r.Err? ==> r.error == s.end.value)
    {
      ghost var s := Tokenize(lexer.text, 0);
      var first :- lexer.GetNextToken();
      var parser := new Parser.Init(lexer, first);
      r := Ok(parser);
    }

    /** One pull from the lexer, advancing `index`. */
    method Pull() returns (r: Result<()>)
      requires Valid() && index < |stream.tokens|
      modifies lexer, this`currentToken, this`index
      ensures var spec := EatAt(stream, old(index), KindOf(old(currentToken)), None);
        match spec
        case Ok(j) => r.Ok? && index == j && Valid()
        case Err(e) => r == Err(e)
    {
      ghost var rest := stream.tokens[index + 1..];
      ghost var p := lexer.pos;
      var t :- lexer.GetNextToken();
      if t != Eof {
        assert rest == [t] + Tokenize(lexer.text, lexer.pos).tokens;
        assert rest[1..] == stream.tokens[index + 2..];
      }
      currentToken := t;
      index := index + 1;
      return Ok(());
    }

    method Eat(kind: Kind, value: Option<string>) returns (r: Result<()>)
      requires Valid()
      modifies lexer, this`currentToken, this`index
      ensures match EatAt(stream, old(index), kind, value)
        case Ok(j) => r.Ok? && index == j && Valid()
        case Err(e) => r == Err(e)
    {
      if !Matches(currentToken, kind, value) {
        return Err(Expected(kind, value, currentToken));
      }
      if currentToken == Eof {
        var t := lexer.GetNextToken();
        currentToken := t.value;
        return Ok(());
      }
      r := Pull();
    }

    method Factor() returns (r: Result<Ast>)
      requires Valid()
      modifies lexer, this`currentToken, this`index
      ensures Agrees(r, FactorAt(stream, old(index)))
      decreases |stream.tokens| - index, 0
    {
      var token := currentToken;
      if token == Operator(Add) {
        var _ :- Eat(OPERATOR, Some("+"));
        var x :- Factor();
        return Ok(UnaryOp(Plus, x));
      } else if token == Operator(Sub) {
        var _ :- Eat(OPERATOR, Some("-"));
        var x :- Factor();
        return Ok(UnaryOp(Minus, x));
      }
      if token.Number? {
        var _ :- Eat(NUMBER, None);
        return Ok(Num(token.value));
      }
      if token == Paren(true) {
        var _ :- Eat(PARENTHESIS, Some("("));
        var node :- Expr();
        var _ :- Eat(PARENTHESIS, Some(")"));
        return Ok(node);
      }
      if token.Identifier? {
        var name := token.name;
        var _ :- Eat(IDENTIFIER, None);
        if currentToken == Paren(true) {
          var f := LookupFunction(name);
          if f.None? {
            return Err(UnknownFunction(name));
          }
          var _ :- Eat(PARENTHESIS, Some("("));
          var argument :- Expr();
          var _ :- Eat(PARENTHESIS, Some(")"));
          return Ok(FuncCall(f.value, argument));
        } else {
          if name == "pi" { return Ok(Num(Pi)); }
          if name == "e" { return Ok(Num(E)); }
          return Err(UnknownConstant(name));
        }
      }
      return Err(UnexpectedToken(token));
    }

    method Power() returns (r: Result<Ast>)
      requires Valid()
      modifies lexer, this`currentToken, this`index
      ensures Agrees(r, PowerAt(stream, old(index)))
      decreases |stream.tokens| - index, 1
    {
      var node :- Factor();
      if currentToken == Operator(Pow) {
        var _ :- Eat(OPERATOR, Some("**"));
        var right :- Power();
        node := BinOp(node, Pow, right);
      }
      return Ok(node);
    }

    method Term() returns (r: Result<Ast>)
      requires Valid()
      modifies lexer, this`currentToken, this`index
      ensures Agrees(r, TermAt(stream, old(index)))
      decreases |stream.tokens| - index, 2
    {
      var node :- Power();
      while currentToken == Operator(Mul) || currentToken == Operator(Div)
        invariant Valid() && old(index) < index
        invariant TermLoop(stream, index, node) == TermAt(stream, old(index))
        decreases |stream.tokens| - index
      {
        var op := currentToken.op;
        var _ :- Eat(OPERATOR, Some(Symbol(op)));
        var right :- Power();
        node := BinOp(node, op, right);
      }
      return Ok(node);
    }

    method Expr() returns (r: Result<Ast>)
      requires Valid()
      modifies lexer, this`currentToken, this`index
      ensures Agrees(r, ExprAt(stream, old(index)))
      decreases |stream.tokens| - index, 3
    {
      var node :- Term();
      while currentToken == Operator(Add) || currentToken == Operator(Sub)
        invariant Valid() && old(index) < index
        invariant ExprLoop(stream, index, node) == ExprAt(stream, old(index))
        decreases |stream.tokens| - index
      {
        var op := currentToken.op;
        var _ :- Eat(OPERATOR, Some(Symbol(op)));
        var right :- Term();
        node := BinOp(node, op, right);
      }
      return Ok(node);
    }

    method Parse() returns (r: Result<Ast>)
      requires Valid()
      modifies lexer, this`currentToken, this`index
      ensures r == ParseAt(stream, old(index))
    {
      var node :- Expr();
      if currentToken != Eof {
        return Err(TrailingToken(currentToken));
      }
      return Ok(node);
    }
  }
}
