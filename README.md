# KaCalc core in Dafny

A Dafny model of the calculator core of KaCalc, a desktop calculator with a
keypad and a voice input:

- `calculator_core.py`: the `Lexer` (a character cursor that produces one
  token per `get_next_token` call), the recursive-descent `Parser` with its
  `current_token`, the tree-walking `Interpreter`, `evaluate_expression`
  (the whole pipeline, every exception turned into `"Error: ..."`), the
  `BASIC_OPERATORS` and `FUNCTIONS` tables and the table of expected results
  at the end of the file;
- `main.py`: the editing handlers of `MainWindow` (`_on_button_click`,
  `_on_equals`, `_on_all_clear`, `_on_parentheses`, `_on_mic_click`,
  `_on_ai_command_ready`) on the window's fields and display texts;
- `ai_services.py`: `parse_command`, which rewrites a heard sentence into an
  expression.

Files and modules:

| file | module | what it holds |
|---|---|---|
| text.dfy | `Text` | ASCII character classes, `lower`, `count`, decimal rendering |
| tokens.dfy | `Tokens` | `Token`, operator and function names, the `Error` of every exception, `Result` |
| lexer.dfy | `Scanner` | `NextToken` / `Tokenize` (what the lexer produces) and `class Lexer` proved against them |
| parser.dfy | `Parsing` | the tree, `FactorAt` ... `ParseAt` over the token stream, and `class Parser` proved against them |
| interpreter.dfy | `Interpreting` | `Eval` (the `visit_*` methods) over a `MathLib` of floating-point routines |
| calculator.dfy | `Calculator` | `Evaluate` and the method `EvaluateExpression`, messages, result formatting |
| printer.dfy | `Printing` | a printer with minimal parentheses; printed trees parse back (precedence and grouping) |
| spelling.dfy | `Spelling` | tokens written out lex back; written trees lex and parse back |
| selftest.dfy | `SelfTest` | the expected-results table of `calculator_core.py`, each proved, plus grammar corner cases |
| window.dfy | `Window` | one function per handler on an `Editor` value, the reachable-state invariant, `class MainWindow` |
| voice.dfy | `Voice` | `Rewrite` (the specification of `parse_command`) and the method `ParseCommand` |
| voicesamples.dfy | `VoiceSamples` | the two commands `ai_services.py` tries, followed pass by pass |

How the model is organised:

- Each imperative class (`Lexer`, `Parser`, `MainWindow`) is a Dafny `class`
  with the source's fields. Each of its methods is proved equal to a pure
  specification function, and the properties are proved about those functions.
- The parser is specified over the whole token stream the lexer would
  produce. That stream ends either in EOF or in the lexing error that the
  next pull raises. So a lexing error surfaces exactly when the Python parser
  asks for the token at that character.
- Numbers are exact `real`s. The floating-point routines the core calls are
  the fields of a `MathLib` value passed in as a parameter: `math.sqrt`,
  `sin`, `cos`, `tan`, `log10`, `log`, non-natural powers, `.10g` and `repr`.

The model follows `calculator_core.py` as written, not the wider evaluator
that other KaCalc descriptions promise:

- There is no implicit multiplication: `5pi` and `5(3)` are refused
  (`SelfTest.NumberThenNameEvaluates`, `SelfTest.NumberThenGroupEvaluates`).
- There is no `^` operator in the core: `2^3` is an invalid character
  (`SelfTest.CaretEvaluates`). The window's `^` key types `**`.
- Only the six names of `FUNCTIONS` can be called.
- Input made only of white space is not empty. It gives
  "Error: Unexpected token: TOKEN(EOF, None)" rather than an empty result
  (`Calculator.BlankInput`).
- The table at the end of `calculator_core.py` expects
  "Error: Invalid syntax. Expected NUMBER, got EOF" for `5 + (`. The code
  raises from `factor`, not from `eat`, and gives
  "Error: Unexpected token: TOKEN(EOF, None)" (`SelfTest.OpenEvaluates`).

## Model

| member | source | states |
|---|---|---|
| Tokens.LookupFunctionFinds | calculator_core.py:13 | a name is found in `FUNCTIONS` exactly when it is the name of a function, and the lookup returns that function |
| Calculator.FunctionsListed | calculator_core.py:13 | the parser accepts a call name exactly when it is listed in `FUNCTIONS` |
| Calculator.BasicOperatorToken | calculator_core.py:12 | each of `BASIC_OPERATORS`, met by the lexer without a second `*` behind it, is one operator token with that symbol as value, one character long |
| Scanner.RunEnd | calculator_core.py:39-60 | the scanning loops stop at the first character outside the run; every character before it, from the start, is in the run |
| Scanner.Lexer.constructor | calculator_core.py:29-32 | a new lexer stands at position 0 with `current_char` the first character, or none for empty text |
| Scanner.Lexer.Advance | calculator_core.py:34-37 | `advance` moves one place on and keeps `current_char` the character at `pos` |
| Scanner.Lexer.SkipWhitespace | calculator_core.py:39-41 | `skip_whitespace` stops at the end of the run of white space |
| Scanner.Lexer.GetNumber | calculator_core.py:43-52 | `get_number` consumes the longest run of digits and points and returns its conversion: an int, a float, or "Invalid number format" with the run |
| Scanner.Lexer.GetIdentifier | calculator_core.py:54-60 | `get_identifier` consumes and returns the longest run of letters, digits and `_` |
| Scanner.Lexer.GetNextToken | calculator_core.py:62-98 | `get_next_token` returns the token `NextToken` describes and leaves the cursor after it, or raises the same error |
| Scanner.NextToken | calculator_core.py:62-98 | a token other than EOF consumes at least one character and stays within the text; EOF leaves the cursor at the end |
| Scanner.NumberFormat | calculator_core.py:43-52 | a run of digits and points fails to convert exactly when it holds two or more points, or no point and more digits than `int` accepts from text (4300); the error then names the whole run; with one point it is a float, with none an int |
| Scanner.ReadNumberShape | calculator_core.py:50-52 | with a point, the conversion fails exactly when a second point follows the first; without one, exactly when the run is longer than 4300 digits; it yields a float exactly when there is a point |
| Scanner.ReadNumber | calculator_core.py:49-52 | the conversion of a run gives a non-negative number, a float exactly when the run has a point; its only error is "Invalid number format" with the run |
| Scanner.NameIsLongest | calculator_core.py:72-73 | a letter starts an identifier that is the longest run of letters, digits and `_`, so `pi2` is one name |
| Scanner.StarLookAhead | calculator_core.py:75-83 | `*` followed by `*` is the single token `**`, otherwise `*` alone |
| Scanner.LexingFails | calculator_core.py:62-98 | after white space, lexing fails exactly on a malformed number or on a character that starts no token, and then names that character |
| Scanner.Tokenize | calculator_core.py:62-98 | the stream of tokens before EOF never holds EOF |
| Parsing.EatAt | calculator_core.py:140-147 | a successful `eat` moves to the next token of the stream, and stays put on the final EOF |
| Parsing.FactorAt | calculator_core.py:149-189 | a successful `factor` consumes at least one token and leaves the parser at a valid position |
| Parsing.SignedAt | calculator_core.py:155-160 | a sign and the factor after it consume at least one token |
| Parsing.GroupAt | calculator_core.py:166-170 | `( expr )` consumes at least one token |
| Parsing.NameAt | calculator_core.py:172-187 | a call, `pi`, `e` or an unknown name consumes at least one token when it succeeds |
| Parsing.PowerAt | calculator_core.py:191-198 | a successful `power` consumes at least one token |
| Parsing.TermAt | calculator_core.py:200-207 | a successful `term` consumes at least one token |
| Parsing.TermLoop | calculator_core.py:203-206 | the loop of `term` never moves backwards |
| Parsing.ExprAt | calculator_core.py:209-216 | a successful `expr` consumes at least one token |
| Parsing.ExprLoop | calculator_core.py:212-215 | the loop of `expr` never moves backwards |
| Parsing.Parser.Init | calculator_core.py:131-133 | a parser holds the lexer's first token as `current_token` |
| Parsing.Parser.Create | calculator_core.py:131-133 | `Parser(lexer)` pulls the first token; it fails exactly when lexing the first token fails, with that error |
| Parsing.Parser.Pull | calculator_core.py:143 | one pull from the lexer advances to the next token of the stream or raises the stream's lexing error |
| Parsing.Parser.Eat | calculator_core.py:140-147 | `eat` on the mutable parser does what `EatAt` says: the same move or the same error |
| Parsing.Parser.Factor | calculator_core.py:149-189 | `factor` returns the tree `FactorAt` gives and stands where it ends, or raises the same error |
| Parsing.Parser.Power | calculator_core.py:191-198 | `power` agrees with `PowerAt` |
| Parsing.Parser.Term | calculator_core.py:200-207 | `term` and its loop agree with `TermAt` |
| Parsing.Parser.Expr | calculator_core.py:209-216 | `expr` and its loop agree with `ExprAt` |
| Parsing.Parser.Parse | calculator_core.py:218-223 | `parse` agrees with `ParseAt`: a whole expression followed by EOF, or "Unexpected token after expression" |
| Parsing.Parse | calculator_core.py:131-223 | `Parser(Lexer(text)).parse()`: the first pull's lexing error, or what `parse` gives on the stream |
| Interpreting.EvalFailsIffFaulty | calculator_core.py:247-286 | evaluation fails exactly when some node divides by zero or calls `sqrt` or `log`/`ln` outside its domain after its operands evaluated; the error is one of those three |
| Interpreting.Eval | calculator_core.py:247-286 | the `visit_*` methods: a number is its value; a sign keeps or negates; a call evaluates its argument, checks the domain of `sqrt`, `log` and `ln`, then applies the library; a binary node evaluates left then right, refuses division by zero, and computes `x ** y` exactly for a natural exponent |
| Calculator.EvaluateExpression | calculator_core.py:310-339 | the pipeline run with the lexer and parser objects gives the string `Evaluate` describes: "" for empty text, the formatted value, or "Error: " and the message |
| Calculator.EvaluateOutcome | calculator_core.py:310-339 | empty text gives ""; otherwise the result starts with "Error: " exactly when a stage raised or the int result had too many digits to write, and a rendering that succeeds never contains "Error:" |
| Calculator.FormatIsPlain | calculator_core.py:324-328 | a number that renders holds only digits, signs, a point, an exponent or inf/nan, so no colon and no parenthesis |
| Calculator.IntToStringPlain | calculator_core.py:325-326 | an int that `str` writes is plain: a sign and digits |
| Calculator.Format | calculator_core.py:324-329 | only a whole number can fail to render, and only with the `ValueError` of the int string limit |
| Calculator.FormatRefuses | calculator_core.py:325-326 | rendering fails exactly for a whole number of size 10^4300 or more, whose `str` would exceed 4300 digits |
| Calculator.Outcome | calculator_core.py:318-330 | the `try` block: interpret the text, then render the value; the first exception raised |
| Calculator.Message | calculator_core.py:52-281 | the text of each exception, as raised: invalid number or character, "Invalid syntax. Expected", unexpected token, unknown function or constant, trailing token, the three interpreter errors, and the int string limit |
| Calculator.TokenRepr | calculator_core.py:22-23 | `TOKEN.__repr__`: `TOKEN(<type>, <repr of value>)` |
| Calculator.ValueRepr | calculator_core.py:22-23 | the `repr` of a token value: digits for an int, the library's repr for a float, a quoted string, `None` for EOF |
| Calculator.Interpret | calculator_core.py:288-293 | `interpret`: parse the whole text, then evaluate the tree |
| Calculator.NoColonNoError | calculator_core.py:324-339 | text without a colon never contains "Error:", so a rendered value cannot be mistaken for an error |
| Calculator.AllSpaceTokenize | calculator_core.py:39-41 | text of white space only lexes straight to EOF |
| Calculator.BlankInput | calculator_core.py:315-333 | non-empty white-space input gives "Error: Unexpected token: TOKEN(EOF, None)" |
| Calculator.BlankParse | calculator_core.py:189 | white-space input fails in `factor` with EOF as the unexpected token |
| Calculator.EofMessage | calculator_core.py:22-23 | EOF prints as `TOKEN(EOF, None)` in an error |
| Calculator.ParsedFailsOnlyInDomain | calculator_core.py:288-293 | once the text parses, evaluation fails exactly when a node divides by zero or leaves a function's domain |
| Printing.FitsFromAll | calculator_core.py:140-147 | the tokens match a sequence position by position |
| Printing.EatHeld | calculator_core.py:140-143 | eating a token that is there succeeds and moves one place on |
| Printing.FactorReads | calculator_core.py:149-189 | a printed factor is read back by `factor` |
| Printing.ParenReads | calculator_core.py:166-170 | a parenthesised tree is read by `expr` between the parentheses |
| Printing.SignReads | calculator_core.py:155-160 | a sign applies to the factor after it |
| Printing.CallReads | calculator_core.py:172-182 | a call reads its name, then its argument as an `expr` between parentheses |
| Printing.PowerReads | calculator_core.py:191-198 | a tree printed at the level of `**` is read back by `power` |
| Printing.RaiseReads | calculator_core.py:191-198 | `**` groups to the right: a factor on its left, a power on its right |
| Printing.TermReads | calculator_core.py:200-207 | a tree printed at the level of `* /` is read by `term` up to its end |
| Printing.ProductReads | calculator_core.py:203-206 | `*` and `/` group to the left |
| Printing.ExprReads | calculator_core.py:209-216 | a tree printed at the level of `+ -` is read by `expr` up to its end |
| Printing.SumReads | calculator_core.py:212-215 | `+` and `-` group to the left |
| Printing.ParsesBack | calculator_core.py:218-223 | the tokens of a printable tree, followed by EOF, parse back to the tree |
| Spelling.LexOne | calculator_core.py:62-98 | the written form of a token, ended where the lexer stops reading it, lexes to that token |
| Spelling.SkipGap | calculator_core.py:64-67 | the space between two written tokens is skipped |
| Spelling.LexWritten | calculator_core.py:62-98 | tokens written out, with the gaps that keep them apart, lex back to themselves and end in EOF |
| Spelling.WrittenParses | calculator_core.py:28-223 | a printable tree whose numerals `int` can read (at most 4300 digits) written out lexes and parses back to itself, whichever safe gaps are left out |
| Spelling.ShowParses | calculator_core.py:28-223 | such a tree written with a space between each two tokens parses back to itself |
| SelfTest.SumTight | calculator_core.py:347 | `5+3` gives 8 |
| SelfTest.SumSpaced | calculator_core.py:348 | `5 + 3` gives 8 |
| SelfTest.PrecedenceEvaluates | calculator_core.py:349 | `10 - 2 * 3` gives 4 |
| SelfTest.GroupedEvaluates | calculator_core.py:350 | `(10 - 2) * 3` gives 24 |
| SelfTest.SignedEvaluates | calculator_core.py:351 | `5 + -3` gives 2 |
| SelfTest.RootEvaluates | calculator_core.py:352 | `sqrt(9)` gives 3 when the library's square root of 9 is 3 |
| SelfTest.CallInSumEvaluates | calculator_core.py:353 | `2 * sqrt(16) + 1` gives 9 when the square root of 16 is 4 |
| SelfTest.CubeEvaluates | calculator_core.py:354 | `2**3` gives 8 |
| SelfTest.PowerFirstEvaluates | calculator_core.py:355 | `2 + 3**2` gives 11 |
| SelfTest.GroupedBaseEvaluates | calculator_core.py:356 | `(2 + 3)**2` gives 25 |
| SelfTest.ByZeroEvaluates | calculator_core.py:357 | `10 / 0` gives "Error: Division by zero" |
| SelfTest.NegativeRootEvaluates | calculator_core.py:358 | `sqrt(-4)` gives "Error: Domain error: sqrt of negative number" |
| SelfTest.OpenEvaluates | calculator_core.py:359 | `5 + (` gives "Error: Unexpected token: TOKEN(EOF, None)", not the table's "Expected NUMBER" |
| SelfTest.TowerEvaluates | calculator_core.py:191-198 | `2**3**2` gives 512: `**` groups to the right |
| SelfTest.StackedEvaluates | calculator_core.py:155-160 | `--3` gives 3: signs stack |
| SelfTest.RootOfQuotientEvaluates | calculator_core.py:262-265 | `sqrt(1/0)` fails on the division: the argument is evaluated before the domain check |
| SelfTest.NumberThenNameEvaluates | calculator_core.py:218-222 | `5pi` is refused as a token after the expression: no implicit multiplication |
| SelfTest.NumberThenGroupEvaluates | calculator_core.py:218-222 | `5(3)` is refused as a token after the expression |
| SelfTest.NameEvaluates | calculator_core.py:183-187 | `pi2` is one unknown constant |
| SelfTest.UnknownCallEvaluates | calculator_core.py:175-178 | `foo(1)` is an unknown function |
| SelfTest.TwoPointsEvaluates | calculator_core.py:43-52 | `1.2.3` is one invalid number |
| SelfTest.CaretEvaluates | calculator_core.py:96 | `2^3` stops at the invalid character `^` |
| SelfTest.Reads | calculator_core.py:28-223 | text written from the tokens of a printable tree with readable numerals parses to that tree |
| SelfTest.Lexes | calculator_core.py:62-98 | text written from tokens in a layout that keeps them apart lexes to them |
| Window.MainWindow.constructor | main.py:155-192 | a new window starts with an empty expression, no result shown, an empty upper display and "0" below |
| Window.MainWindow.OnButtonClick | main.py:310-354 | the handler leaves the fields as `ButtonClick` says |
| Window.MainWindow.OnEquals | main.py:356-376 | the handler leaves the fields as `Equals` says |
| Window.MainWindow.OnAllClear | main.py:378-386 | the handler leaves the fields as `AllClear` says |
| Window.MainWindow.OnParentheses | main.py:388-405 | the handler leaves the fields as `Parentheses` says |
| Window.MainWindow.OnMicClick | main.py:409-421 | the handler clears the upper display and shows "Listening..." |
| Window.MainWindow.OnAiCommandReady | main.py:423-443 | the handler leaves the fields as `AiCommandReady` says |
| Window.AllClearResets | main.py:327-329 | the AC key always returns to the initial state |
| Window.EqualsOutcome | main.py:356-376 | `=` on an empty expression does nothing; otherwise the expression moves up and is replaced by its rendered value, or cleared with the error shown when evaluating or rendering raised |
| Window.KeyAppends | main.py:335-354 | any other key appends its text; a shown result is dropped first unless the key is an operator; no result is shown afterwards |
| Window.ParenthesesAppendOne | main.py:388-405 | the bracket key appends one bracket; it closes exactly when a `(` is unmatched and the expression does not end in an operator or `(`, and closing keeps `)` at most `(` |
| Window.AiCommandOutcome | main.py:423-443 | an empty voice result resets with "Could not understand"; another is evaluated and rendered as if typed and `=` pressed |
| Window.EqualsKeepsInv | main.py:356-376 | `=` keeps the invariant: brackets never close more than they open, and a shown result is a plain number |
| Window.StepKeepsInv | main.py:310-443 | one keypad press or voice result keeps the invariant |
| Window.TypingKeepsInv | main.py:345-352 | a typing key adds no `)` |
| Window.KeyTextOpens | main.py:246-263 | no keypad key other than the bracket key types a `)` |
| Window.RunKeepsInv | main.py:310-443 | every state reached from the initial one satisfies the invariant |
| Voice.ReplaceAbsent | ai_services.py:71 | `replace` leaves text without the word unchanged |
| Voice.ReplaceSelf | ai_services.py:71 | replacing a word by itself changes nothing |
| Voice.ReplaceFront | ai_services.py:75 | a text starting with the word has it replaced there |
| Voice.ReplaceSkip | ai_services.py:75 | a prefix without the word's first letter is kept |
| Voice.ReplaceEachNext | ai_services.py:70-79 | the passes so far, then the next one |
| Voice.ReplaceEachOnly | ai_services.py:70-79 | a table of which exactly one word occurs once has that word's symbol put in its place |
| Voice.ReplaceAll | ai_services.py:70-79 | each `for word, symbol in table` loop gives `ReplaceEach` of the table |
| Voice.ParseCommand | ai_services.py:42-94 | the method computes `Rewrite`: "" for a missing command, otherwise lowercase, three table passes, clean-up, closing `sqrt(`, spacing |
| Voice.Filter | ai_services.py:84 | the clean-up returns only characters of its class and keeps every character of that class it is given |
| Voice.FilterKeeps | ai_services.py:84 | text made of kept characters passes the clean-up unchanged |
| Voice.FilterAppend | ai_services.py:84 | the clean-up works character by character |
| Voice.SplitJoin | ai_services.py:87 | splitting on `sqrt(` and joining back gives the text |
| Voice.SplitFindsSeparator | ai_services.py:87 | there is more than one part exactly when the separator occurs |
| Voice.SplitAppend | ai_services.py:87-88 | appending `)` extends the last part |
| Voice.CloseSqrtCloses | ai_services.py:86-88 | `)` is appended exactly when the text has `sqrt(` with no `)` after its last occurrence; afterwards the last `sqrt(` is always followed by a `)` |
| Voice.NormalizeShape | ai_services.py:91 | `' '.join(text.split())` leaves no space at the ends and none doubled, and every other character came from the text |
| Voice.NormalizeKeepsText | ai_services.py:91 | normalising keeps every non-space character, in order |
| Voice.JoinWellSpaced | ai_services.py:91 | words joined by one space are well spaced |
| Voice.RewriteShape | ai_services.py:42-94 | the result holds only digits, `+ - * / . ( )`, the letters `s q r t` and single inner spaces; a missing command gives "" |
| Voice.CaseInsensitive | ai_services.py:50 | case does not matter |
| Voice.KeepSymbolsLetters | ai_services.py:81-84 | the corrected clean-up leaves letters only inside `sqrt` |
| Voice.KeepSymbolsAgrees | ai_services.py:84 | on text without `s q r t` the corrected clean-up and the written one agree |
| Voice.KeepSymbolsAppend | ai_services.py:84 | before the first `s` the corrected clean-up also works character by character |
| VoiceSamples.PowerCommand | ai_services.py:101-103 | "what is five to the power of three" becomes "5 ** 3" |
| VoiceSamples.RootCommand | ai_services.py:105-107 | "calculate the square root of nine" becomes "t sqrt( 9)" |
| VoiceSamples.RootCommandRefused | ai_services.py:84 | the calculator refuses that result: `t` is an unknown constant |
| VoiceSamples.RootCommandFixed | ai_services.py:81-84 | with the corrected clean-up the command becomes "sqrt( 9)" |
| VoiceSamples.RootCommandFixedEvaluates | ai_services.py:81-84 | ... and the calculator shows 3 for it |

## Left out

- Python's limit on int-to-text conversion is taken at its default of
  4300 digits, as in Python 3.11 and later (`MaxIntDigits`). Python 3.10 and
  earlier have no limit, and `sys.set_int_max_str_digits` can change it; neither
  is modelled. A whole number of 10^4300 or more is taken to be an int: a float
  that large would already have overflowed.
- Floating point: values are exact reals. `math.sqrt`, `sin`, `cos`, `tan`,
  `log10` and `log` are fields of a `MathLib` parameter, and so are `x ** y`
  for an exponent that is not a natural number, the `.10g` rendering and
  `repr` of a float. Rounding, overflow, `inf` and `nan` are not modelled.
- Python's int/float distinction in arithmetic: every value is a real. The
  distinction is kept on number tokens only, because ints and floats print
  differently inside error messages.
- Complex results of `**` and the `ZeroDivisionError` of `0 ** -1` are not
  modelled: a non-natural power comes from the library as a real.
- `generic_visit` and the interpreter's "Unknown function" branch are not
  modelled: the tree is a datatype and the parser admits only the six
  functions, so neither can be reached. `interpret`'s `tree is None` branch
  cannot be reached either.
- Python's `isspace`, `isdigit`, `isalpha`, `isalnum` and `lower` accept
  Unicode. Here they are restricted to ASCII.
- `RecursionError` on very deep nesting and the catch-all
  `except Exception` of `evaluate_expression` are not modelled. Only the
  errors the model raises reach it.
- `print` calls, Qt widgets, alignment, styling, fonts, mouse dragging and
  the keypad's layout are left out. The keypad is kept only as its list of
  labels.
- `listen_for_command` is left out: it uses the microphone and Google's
  speech service. So are the worker thread started by `_on_mic_click` and
  the signal it emits. The heard command is a parameter: `ParseCommand` takes
  it, and `OnAiCommandReady` takes the expression it gives.
- Window.MainWindow.OnMicClick: models only the change to the displays, not
  the thread it starts.

## Findings

| source | as written | input that shows it | evidently intended | confidence | as-written member | corrected member |
|---|---|---|---|---|---|---|
| ai_services.py:84 | the clean-up pattern keeps the letters `s`, `q`, `r` and `t` wherever they occur | "calculate the square root of nine" becomes "t sqrt( 9)", which evaluates to "Error: Unknown constant: t" | keep the letters only where they spell `sqrt`, giving "sqrt( 9)", which evaluates to 3 | not executed | VoiceSamples.RootCommandRefused | VoiceSamples.RootCommandFixedEvaluates |

The as-written rewriting is `Voice.Rewrite` with `Voice.Filter`, and
`VoiceSamples.RootCommand` shows the letter that survives. The corrected
rewriting is `Voice.RewriteFixed` with `Voice.KeepSymbols`:

- `Voice.KeepSymbolsLetters` proves that it leaves letters only inside
  `sqrt`.
- `Voice.KeepSymbolsAgrees` proves that it agrees with the written clean-up
  on text without those letters.

`ParseCommand` keeps the code as written.
