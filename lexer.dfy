/** The `Lexer` of calculator_core.py: a character cursor (`pos`,
    `current_char`) that produces one token per call of `get_next_token`.
    `NextToken` is the specification of one call, `Tokenize` the whole token
    stream the parser may pull, ending either in EOF or in the lexing error
    that the next pull would raise. */
module Scanner {
  import opened Text
  import opened Tokens

  predicate IsNumberChar(c: char) { IsDigit(c) || c == '.' }
  predicate IsIdentChar(c: char) { IsAlnum(c) || c == '_' }

  function CharAt(text: string, pos: nat): Option<char> {
    if pos < |text| then Some(text[pos]) else None
  }

  /** The end of the longest run of `p`-characters starting at `pos`. */
  function RunEnd(text: string, pos: nat, p: char -> bool): (end: nat)
    ensures pos <= end
    ensures pos < end ==> end <= |text|
    ensures forall k | pos <= k < end :: k < |text| && p(text[k])
    ensures end < |text| ==> !p(text[end])
    decreases |text| - pos
  {
    if pos < |text| && p(text[pos]) then RunEnd(text, pos + 1, p) else pos
  }

  /** The characters of that run. */
  function Run(text: string, pos: nat, p: char -> bool): string {
    if pos < |text| then text[pos..RunEnd(text, pos, p)] else []
  }

  function Pow10(n: nat): (r: nat)
    ensures r > 0
  {
    if n == 0 then 1 else 10 * Pow10(n - 1)
  }

  function IndexOf(s: string, c: char): (k: nat)
    requires c in s
    ensures k < |s| && s[k] == c && c !in s[..k]
  {
    if s[0] == c then 0 else IndexOf(s[1..], c) + 1
  }

  predicate IsNumeral(lexeme: string) { forall k | 0 <= k < |lexeme| :: IsNumberChar(lexeme[k]) }

  /** The conversion at the end of `get_number`: `float(lexeme)` when the run
      holds a point, `int(lexeme)` otherwise; a `ValueError` becomes
      "Invalid number format".  `int` refuses a run of more than
      `MaxIntDigits` digits. */
  function ReadNumber(lexeme: string): (r: Result<Token>)
    requires IsNumeral(lexeme)
    ensures r.Ok? ==> r.value.Number? && r.value.value >= 0.0 && (r.value.isFloat <==> '.' in lexeme)
    ensures r.Err? ==> r.error == InvalidNumber(lexeme)
  {
    if '.' !in lexeme then
      if lexeme == [] || |lexeme| > MaxIntDigits then Err(InvalidNumber(lexeme))
      else Ok(Number(DigitsValue(lexeme) as real, false))
    else
      var k := IndexOf(lexeme, '.');
      var whole, fraction := lexeme[..k], lexeme[k + 1..];
      if '.' in fraction || |lexeme| == 1 then Err(InvalidNumber(lexeme))
      else Ok(Number(PointValue(whole, fraction), true))
  }

  /** The value of the numeral `whole.fraction`. */
  function PointValue(whole: string, fraction: string): real
    requires AllDigits(whole) && AllDigits(fraction)
  {
    DigitsValue(whole) as real + DigitsValue(fraction) as real / Pow10(|fraction|) as real
  }

  /** A run of digits and points is a valid number exactly when it holds
      one point, or none and at most `MaxIntDigits` digits; with one point it
      reads as a float, with none as an int, and otherwise it is the
      "Invalid number format" of the whole run. */
  lemma NumberFormat(lexeme: string)
    requires IsNumeral(lexeme) && |lexeme| > 0 && IsDigit(lexeme[0])
    ensures ReadNumber(lexeme).Err? <==> Count(lexeme, '.') >= 2 || (Count(lexeme, '.') == 0 && |lexeme| > MaxIntDigits)
    ensures ReadNumber(lexeme).Err? ==> ReadNumber(lexeme).error == InvalidNumber(lexeme)
    ensures ReadNumber(lexeme).Ok? ==> ReadNumber(lexeme).value.Number? && (ReadNumber(lexeme).value.isFloat <==> Count(lexeme, '.') == 1)
  {
    ReadNumberShape(lexeme);
    if '.' !in lexeme {
      CountAbsent(lexeme, '.');
    } else {
      var fraction := lexeme[IndexOf(lexeme, '.') + 1..];
      CountAfterPoint(lexeme);
      if '.' in fraction {
        CountPresent(fraction, '.');
      } else {
        CountAbsent(fraction, '.');
      }
    }
  }

  /** Which branch of the conversion a run of digits and points takes. */
  lemma ReadNumberShape(lexeme: string)
    requires IsNumeral(lexeme) && |lexeme| > 0 && IsDigit(lexeme[0])
    ensures ReadNumber(lexeme).Err? <==>
      if '.' in lexeme then '.' in lexeme[IndexOf(lexeme, '.') + 1..] else |lexeme| > MaxIntDigits
    ensures ReadNumber(lexeme).Err? ==> ReadNumber(lexeme).error == InvalidNumber(lexeme)
    ensures ReadNumber(lexeme).Ok? ==> ReadNumber(lexeme).value.Number? && (ReadNumber(lexeme).value.isFloat <==> '.' in lexeme)
  {
    if '.' in lexeme {
      assert lexeme[0] != '.';
    }
  }

  /** The points of a run are its first point and those after it. */
  lemma CountAfterPoint(s: string)
    requires '.' in s
    ensures Count(s, '.') == 1 + Count(s[IndexOf(s, '.') + 1..], '.')
  {
    var k := IndexOf(s, '.');
    var whole, fraction := s[..k], s[k + 1..];
    assert s == whole + ['.'] + fraction;
    CountAppend(whole + ['.'], fraction, '.');
    CountAppend(whole, ['.'], '.');
    CountAbsent(whole, '.');
    assert Count(['.'], '.') == 1;
  }

  /** One token and the position after it. */
  datatype Scanned = Scanned(token: Token, next: nat)

  /** One call of `get_next_token` from position `pos`. */
  function NextToken(text: string, pos: nat): (r: Result<Scanned>)
    ensures r.Ok? && r.value.token != Eof ==> pos < r.value.next <= |text|
    ensures r.Ok? && r.value.token == Eof ==> r.value.next == if pos < |text| then |text| else pos
    decreases |text| - pos
  {
    if pos >= |text| then Ok(Scanned(Eof, pos))
    else
      var c := text[pos];
      if IsSpace(c) then NextToken(text, RunEnd(text, pos, IsSpace))
      else if IsDigit(c) then
        var lexeme := Run(text, pos, IsNumberChar);
        var t :- ReadNumber(lexeme);
        Ok(Scanned(t, RunEnd(text, pos, IsNumberChar)))
      else if IsAlpha(c) then
        Ok(Scanned(Identifier(Run(text, pos, IsIdentChar)), RunEnd(text, pos, IsIdentChar)))
      else if c == '*' then
        if pos + 1 < |text| && text[pos + 1] == '*' then Ok(Scanned(Operator(Pow), pos + 2))
        else Ok(Scanned(Operator(Mul), pos + 1))
      else if c == '+' then Ok(Scanned(Operator(Add), pos + 1))
      else if c == '-' then Ok(Scanned(Operator(Sub), pos + 1))
      else if c == '/' then Ok(Scanned(Operator(Div), pos + 1))
      else if c == '(' then Ok(Scanned(Paren(true), pos + 1))
      else if c == ')' then Ok(Scanned(Paren(false), pos + 1))
      else Err(InvalidCharacter(c))
  }

  /** A name is the longest run of letters, digits and `_` from a letter on:
      the lexer never splits `pi2` into `pi` and `2`. */
  lemma NameIsLongest(text: string, pos: nat)
    requires pos < |text| && IsAlpha(text[pos])
    ensures NextToken(text, pos).Ok?
    ensures var scanned := NextToken(text, pos).value;
      && pos < scanned.next <= |text|
      && scanned.token == Identifier(text[pos..scanned.next])
      && (forall k | pos <= k < scanned.next :: IsIdentChar(text[k]))
      && (scanned.next == |text| || !IsIdentChar(text[scanned.next]))
  {
  }

  /** A `*` is read together with a `*` right behind it as `**`, alone otherwise. */
  lemma StarLookAhead(text: string, pos: nat)
    requires pos < |text| && text[pos] == '*'
    ensures NextToken(text, pos) == if pos + 1 < |text| && text[pos + 1] == '*'
      then Ok(Scanned(Operator(Pow), pos + 2)) else Ok(Scanned(Operator(Mul), pos + 1))
  {
  }

  /** The lexer fails on the first character that is not white space exactly
      when it starts no token; then it names that character.  Any other
      failure is a malformed number. */
  lemma LexingFails(text: string, pos: nat)
    ensures var q := RunEnd(text, pos, IsSpace);
      NextToken(text, pos).Err? <==>
        q < |text| && ((IsDigit(text[q]) && ReadNumber(Run(text, q, IsNumberChar)).Err?)
          || !(IsDigit(text[q]) || IsAlpha(text[q]) || text[q] in "*+-/()"))
    ensures var q := RunEnd(text, pos, IsSpace);
      NextToken(text, pos).Err? && !IsDigit(text[q]) ==> NextToken(text, pos).error == InvalidCharacter(text[q])
  {
    var q := RunEnd(text, pos, IsSpace);
    if pos < |text| && IsSpace(text[pos]) {
      assert NextToken(text, pos) == NextToken(text, q);
    }
  }

  /** The tokens a parser can pull before EOF, and what stops the stream:
      `None` for EOF, `Some(e)` for the lexing error raised by the next pull. */
  datatype Stream = Stream(tokens: seq<Token>, end: Option<Error>)

  function Tokenize(text: string, pos: nat): (s: Stream)
    ensures forall k | 0 <= k < |s.tokens| :: s.tokens[k] != Eof
    decreases |text| - pos
  {
    match NextToken(text, pos)
    case Err(e) => Stream([], Some(e))
    case Ok(Scanned(t, next)) =>
      if t == Eof then Stream([], None)
      else
        var rest := Tokenize(text, next);
        Stream([t] + rest.tokens, rest.end)
  }

  class Lexer {
    const text: string
    var pos: nat
    var currentChar: Option<char>

    ghost predicate Valid()
      reads this
    {
      currentChar == CharAt(text, pos)
    }

    constructor(text: string)
      ensures this.text == text && pos == 0 && Valid()
    {
      this.text := text;
      pos := 0;
      currentChar := CharAt(text, 0);
    }

    method Advance()
      requires Valid()
      modifies this
      ensures Valid() && pos == old(pos) + 1
    {
      pos := pos + 1;
      currentChar := CharAt(text, pos);
    }

    method SkipWhitespace()
      requires Valid()
      modifies this
      ensures Valid() && pos == RunEnd(text, old(pos), IsSpace)
    {
      while currentChar.Some? && IsSpace(currentChar.value)
        invariant Valid() && old(pos) <= pos
        invariant RunEnd(text, pos, IsSpace) == RunEnd(text, old(pos), IsSpace)
        decreases |text| - pos
      {
        Advance();
      }
    }

    method GetNumber() returns (r: Result<Token>)
      requires Valid()
      modifies this
      ensures Valid() && pos == RunEnd(text, old(pos), IsNumberChar)
      ensures IsNumeral(Run(text, old(pos), IsNumberChar))
      ensures r == ReadNumber(Run(text, old(pos), IsNumberChar))
    {
      var result := "";
      while currentChar.Some? && IsNumberChar(currentChar.value)
        invariant Valid() && old(pos) <= pos
        invariant RunEnd(text, pos, IsNumberChar) == RunEnd(text, old(pos), IsNumberChar)
        invariant old(pos) < pos ==> pos <= |text| && result == text[old(pos)..pos]
        invariant old(pos) == pos ==> result == []
        decreases |text| - pos
      {
        result := result + [currentChar.value];
        Advance();
      }
      r := ReadNumber(result);
    }

    method GetIdentifier() returns (r: string)
      requires Valid()
      modifies this
      ensures Valid() && pos == RunEnd(text, old(pos), IsIdentChar)
      ensures r == Run(text, old(pos), IsIdentChar)
    {
      r := "";
      while currentChar.Some? && IsIdentChar(currentChar.value)
        invariant Valid() && old(pos) <= pos
        invariant RunEnd(text, pos, IsIdentChar) == RunEnd(text, old(pos), IsIdentChar)
        invariant old(pos) < pos ==> pos <= |text| && r == text[old(pos)..pos]
        invariant old(pos) == pos ==> r == []
        decreases |text| - pos
      {
        r := r + [currentChar.value];
        Advance();
      }
    }

    method GetNextToken() returns (r: Result<Token>)
      requires Valid()
      modifies this
      ensures Valid()
      ensures match NextToken(text, old(pos))
        case Ok(scanned) => r == Ok(scanned.token) && pos == scanned.next
        case Err(e) => r == Err(e)
    {
      while currentChar.Some?
        invariant Valid() && NextToken(text, pos) == NextToken(text, old(pos))
        decreases |text| - pos
      {
        var c := currentChar.value;
        if IsSpace(c) {
          SkipWhitespace();
          continue;
        }
        if IsDigit(c) {
          var t :- GetNumber();
          return Ok(t);
        }
        if IsAlpha(c) {
          var name := GetIdentifier();
          return Ok(Identifier(name));
        }
        if c == '*' {
          if pos + 1 < |text| && text[pos + 1] == '*' {
            Advance();
            Advance();
            return Ok(Operator(Pow));
          }
          Advance();
          return Ok(Operator(Mul));
        }
        if c in "+-*/" {
          Advance();
          return Ok(Operator(if c == '+' then Add else if c == '-' then Sub else Div));
        }
        if c in "()" {
          Advance();
          return Ok(Paren(c == '('));
        }
        return Err(InvalidCharacter(c));
      }
      return Ok(Eof);
    }
  }
}
