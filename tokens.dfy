/** The lexical tokens of calculator_core.py (class TOKEN and its type tags)
    and the failures the pipeline can raise. */
module Tokens {

  /** The binary operators; `Add` and `Sub` double as unary signs. */
  datatype Op = Add | Sub | Mul | Div | Pow

  function Symbol(op: Op): string {
    match op
    case Add => "+"
    case Sub => "-"
    case Mul => "*"
    case Div => "/"
    case Pow => "**"
  }

  /** The names in `FUNCTIONS`, the only functions a call may name. */
  datatype Func = Sqrt | Sin | Cos | Tan | Log | Ln

  function FuncName(f: Func): string {
    match f
    case Sqrt => "sqrt"
    case Sin => "sin"
    case Cos => "cos"
    case Tan => "tan"
    case Log => "log"
    case Ln => "ln"
  }

  /** `name in FUNCTIONS`, as the matching `Func`. */
  function LookupFunction(name: string): Option<Func> {
    if name == "sqrt" then Some(Sqrt)
    else if name == "sin" then Some(Sin)
    else if name == "cos" then Some(Cos)
    else if name == "tan" then Some(Tan)
    else if name == "log" then Some(Log)
    else if name == "ln" then Some(Ln)
    else None
  }

  /** The lookup finds exactly the names of the functions, each as its own `Func`. */
  lemma LookupFunctionFinds(name: string)
    ensures LookupFunction(name).Some? ==> FuncName(LookupFunction(name).value) == name
    ensures LookupFunction(name).None? ==> forall f: Func :: FuncName(f) != name
  {
  }

  datatype Option<+T> = None | Some(value: T)

  /** A token.  A `Number` keeps Python's int/float distinction in `isFloat`
      because the two print differently inside error messages. */
  datatype Token =
    | Number(value: real, isFloat: bool)
    | Operator(op: Op)
    | Paren(open: bool)
    | Identifier(name: string)
    | Eof

  /** The token type tags NUMBER, OPERATOR, PARENTHESIS, IDENTIFIER, EOF. */
  datatype Kind = NUMBER | OPERATOR | PARENTHESIS | IDENTIFIER | EOF

  function KindOf(t: Token): Kind {
    match t
    case Number(_, _) => NUMBER
    case Operator(_) => OPERATOR
    case Paren(_) => PARENTHESIS
    case Identifier(_) => IDENTIFIER
    case Eof => EOF
  }

  function KindName(k: Kind): string {
    match k
    case NUMBER => "NUMBER"
    case OPERATOR => "OPERATOR"
    case PARENTHESIS => "PARENTHESIS"
    case IDENTIFIER => "IDENTIFIER"
    case EOF => "EOF"
  }

  /** The string held in a token's `value` field, when it is a string. */
  function TextValue(t: Token): Option<string> {
    match t
    case Operator(op) => Some(Symbol(op))
    case Paren(open) => Some(if open then "(" else ")")
    case Identifier(name) => Some(name)
    case _ => None
  }

  /** The test in `Parser.eat`: same type, and same value when one is asked for. */
  predicate Matches(t: Token, kind: Kind, value: Option<string>) {
    KindOf(t) == kind && (value.None? || TextValue(t) == value)
  }

  /** Every exception the pipeline raises, one constructor per message. */
  datatype Error =
    | InvalidNumber(lexeme: string)                          // LexerError
    | InvalidCharacter(c: char)                              // LexerError
    | Expected(kind: Kind, value: Option<string>, got: Token) // ParserError from eat
    | UnexpectedToken(got: Token)                            // ParserError from factor
    | UnknownFunction(name: string)                          // ParserError
    | UnknownConstant(name: string)                          // ParserError
    | TrailingToken(got: Token)                              // ParserError from parse
    | DivisionByZero                                         // InterpreterError
    | SqrtOfNegative                                         // InterpreterError
    | LogOfNonPositive                                       // InterpreterError
    | IntTooLong                                             // ValueError from str(int)

  /** Success or the exception raised, usable with `:-` the way a raise unwinds. */
  datatype Result<+T> = Ok(value: T) | Err(error: Error) {
    predicate IsFailure() { Err? }
    function PropagateFailure<U>(): Result<U> requires Err? { Err(error) }
    function Extract(): T requires Ok? { value }
  }
}
