/** The editing logic of `MainWindow` in main.py, without its widgets: the
    expression being typed, whether it is a shown result, and the texts of
    the two displays (`expression_display` above, `result_display` below).
    The functions `ButtonClick` ... `AiCommandReady` specify one handler
    each on an `Editor` value; the class `MainWindow` keeps the source's
    fields and is proved against them. */
module Window {
  import opened Text
  import opened Tokens
  import opened Interpreting
  import opened Calculator

  /** The microphone key's label. */
  const MicKey: string := "\U{1F399}\U{FE0F}"

  const SquareRootKey: string := "\U{221A}"

  /** The labels of the keypad, as laid out by `_create_buttons`. */
  const Keypad: seq<string> := TopRow + DigitRows + BottomRow

  const TopRow: seq<string> := ["AC", "()", "^", SquareRootKey, "/"]

  const DigitRows: seq<string> := [
    "sin", "7", "8", "9", "*",
    "cos", "4", "5", "6", "-",
    "tan", "1", "2", "3", "+"]

  const BottomRow: seq<string> := [MicKey, "0", ".", "="]

  /** Keys that keep a shown result as the left operand instead of clearing it. */
  const OperatorKeys: seq<string> := BasicOperators + ["^", SquareRootKey, "sin", "cos", "tan"]

  /** Endings after which the bracket key opens instead of closing. */
  const OpenAfter: seq<string> := BasicOperators + ["**", "sqrt(", "sin(", "cos(", "tan(", "("]

  /** The text a key adds to the expression. */
  function KeyText(key: string): string {
    if key in ["sin", "cos", "tan"] then key + "("
    else if key == SquareRootKey then "sqrt("
    else if key == "^" then "**"
    else key
  }

  /** `s.endswith(suffixes)` for a tuple of suffixes. */
  predicate EndsWithAny(s: string, suffixes: seq<string>) {
    exists k | 0 <= k < |suffixes| :: EndsWith(s, suffixes[k])
  }

  /** The bracket `_on_parentheses` adds to `expression`. */
  function ParenFor(expression: string): char {
    if Count(expression, '(') > Count(expression, ')') && !EndsWithAny(expression, OpenAfter) then ')' else '('
  }

  /** The editing fields and the two display texts. */
  datatype Editor = Editor(expression: string, resultShowing: bool, expressionDisplay: string, resultDisplay: string)

  const Initial: Editor := Editor("", false, "", "0")

  /** `_on_all_clear`. */
  function AllClear(st: Editor): Editor {
    Editor("", false, "", "0")
  }

  /** `_on_equals`. */
  function Equals(lib: MathLib, st: Editor): Editor {
    if st.expression == [] then st
    else
      var result := Evaluate(lib, st.expression);
      if !Contains(result, "Error:") then Editor(result, true, st.expression, result)
      else Editor("", false, st.expression, result)
  }

  /** `_on_parentheses`. */
  function Parentheses(st: Editor): Editor {
    var base := if st.resultShowing then "" else st.expression;
    var expression := base + [ParenFor(base)];
    Editor(expression, false, st.expressionDisplay, expression)
  }

  /** The display part of `_on_mic_click`; the listening thread it starts is not modelled. */
  function MicClick(st: Editor): Editor {
    st.(expressionDisplay := "", resultDisplay := "Listening...")
  }

  /** `_on_button_click`. */
  function ButtonClick(lib: MathLib, st: Editor, key: string): Editor {
    if key == MicKey then MicClick(st)
    else if key == "=" then Equals(lib, st)
    else if key == "AC" then AllClear(st)
    else if key == "()" then Parentheses(st)
    else
      var base := if st.resultShowing && key !in OperatorKeys then "" else st.expression;
      var expression := base + KeyText(key);
      Editor(expression, false, st.expressionDisplay, expression)
  }

  /** `_on_ai_command_ready`. */
  function AiCommandReady(lib: MathLib, st: Editor, expression: string): Editor {
    if expression == [] then Editor("", false, "Could not understand", "0")
    else Equals(lib, Editor(expression, st.resultShowing, st.expressionDisplay, expression))
  }

  /** What reaches the window: a key press, or an expression heard by the voice worker. */
  datatype Event = Press(key: string) | Heard(expression: string)

  function Step(lib: MathLib, st: Editor, e: Event): Editor {
    match e
    case Press(key) => ButtonClick(lib, st, key)
    case Heard(expression) => AiCommandReady(lib, st, expression)
  }

  function Run(lib: MathLib, st: Editor, events: seq<Event>): Editor
    decreases |events|
  {
    if events == [] then st else Run(lib, Step(lib, st, events[0]), events[1..])
  }

  /** What every reachable state satisfies: no more closing than opening
      brackets, and a shown result is a plain rendered number. */
  predicate Inv(st: Editor) {
    && Count(st.expression, ')') <= Count(st.expression, '(')
    && (st.resultShowing ==> IsPlain(st.expression) && !Contains(st.expression, "Error:"))
  }

  /** `_on_all_clear` always lands in the initial state. */
  lemma AllClearResets(lib: MathLib, st: Editor)
    ensures ButtonClick(lib, st, "AC") == Initial && Inv(Initial)
  {
  }

  /** `_on_equals` leaves an empty expression alone; otherwise the expression
      moves to the upper display and is replaced by its rendered value, or
      cleared when evaluating or rendering it raised. */
  lemma EqualsOutcome(lib: MathLib, st: Editor)
    requires FormatsPlainly(lib)
    ensures st.expression == [] ==> Equals(lib, st) == st
    ensures st.expression != [] && Outcome(lib, st.expression).Ok? ==>
      var shown := Outcome(lib, st.expression).value;
      Equals(lib, st) == Editor(shown, true, st.expression, shown)
    ensures st.expression != [] && Outcome(lib, st.expression).Err? ==>
      Equals(lib, st) == Editor("", false, st.expression, "Error: " + Message(lib, Outcome(lib, st.expression).error))
  {
    EvaluateOutcome(lib, st.expression);
  }

  /** A key that is not one of the four commands adds its text to the
      expression, after dropping a shown result unless the key is an
      operator; either way no result is shown afterwards. */
  lemma KeyAppends(lib: MathLib, st: Editor, key: string)
    requires key !in {MicKey, "=", "AC", "()"}
    ensures var next := ButtonClick(lib, st, key);
      && !next.resultShowing
      && next.resultDisplay == next.expression
      && (st.resultShowing && key !in OperatorKeys ==> next.expression == KeyText(key))
      && (!st.resultShowing || key in OperatorKeys ==> next.expression == st.expression + KeyText(key))
  {
  }

  /** The bracket key adds exactly one bracket; it closes only when an
      opening bracket is unmatched and the expression does not end in an
      operator or an opening bracket, and closing never leaves more `)` than `(`. */
  lemma {:induction false} ParenthesesAppendOne(st: Editor)
    ensures var base := if st.resultShowing then "" else st.expression;
      var next := Parentheses(st);
      && !next.resultShowing
      && |next.expression| == |base| + 1 && next.expression[..|base|] == base
      && (next.expression[|base|] == ')' <==> Count(base, '(') > Count(base, ')') && !EndsWithAny(base, OpenAfter))
      && (next.expression[|base|] != ')' ==> next.expression[|base|] == '(')
      && (next.expression[|base|] == ')' ==>
            base != [] && base[|base| - 1] !in "+-*/(" && Count(next.expression, ')') <= Count(next.expression, '('))
  {
    var base := if st.resultShowing then "" else st.expression;
    var next := Parentheses(st);
    assert next.expression == base + [ParenFor(base)];
    assert next.expression[..|base|] == base;
    if ParenFor(base) == ')' {
      ClosingCounts(base);
      ClosingFollows(base);
    }
  }

  /** Adding a closing bracket where one is unmatched keeps `)` at most `(`. */
  lemma ClosingCounts(base: string)
    requires Count(base, '(') > Count(base, ')')
    ensures Count(base + [')'], ')') <= Count(base + [')'], '(')
  {
    CountAppend(base, [')'], '(');
    CountAppend(base, [')'], ')');
  }

  /** An unmatched opening bracket means a non-empty expression, and one that
      does not end in an operator or an opening bracket ends in neither. */
  lemma ClosingFollows(base: string)
    requires Count(base, '(') > Count(base, ')') && !EndsWithAny(base, OpenAfter)
    ensures base != [] && base[|base| - 1] !in "+-*/("
  {
    if base != [] && base[|base| - 1] in "+-*/(" {
      EndsInOperator(base);
    }
  }

  /** An expression ending in `+`, `-`, `*`, `/` or `(` ends in one of `OpenAfter`. */
  lemma EndsInOperator(base: string)
    requires base != [] && base[|base| - 1] in "+-*/("
    ensures EndsWithAny(base, OpenAfter)
  {
    var last := base[|base| - 1];
    var k := if last == '+' then 0 else if last == '-' then 1 else if last == '*' then 2 else if last == '/' then 3 else 9;
    assert OpenAfter[k] == [last];
    assert base[|base| - 1..] == [last];
    assert EndsWith(base, OpenAfter[k]);
  }

  /** An empty voice result resets the editor with a notice; a non-empty
      one is typed in and evaluated as if `=` were pressed. */
  lemma AiCommandOutcome(lib: MathLib, st: Editor, expression: string)
    requires FormatsPlainly(lib)
    ensures expression == [] ==> AiCommandReady(lib, st, expression) == Editor("", false, "Could not understand", "0")
    ensures expression != [] ==>
      var next := AiCommandReady(lib, st, expression);
      && next.expressionDisplay == expression
      && (Outcome(lib, expression).Ok? ==> next.resultShowing && next.expression == Outcome(lib, expression).value)
      && (Outcome(lib, expression).Err? ==> !next.resultShowing && next.expression == "")
  {
    EvaluateOutcome(lib, expression);
  }

  lemma {:induction false} EqualsKeepsInv(lib: MathLib, st: Editor)
    requires FormatsPlainly(lib) && (st.expression == [] ==> Inv(st))
    ensures Inv(Equals(lib, st))
  {
    if st.expression != [] {
      EvaluateOutcome(lib, st.expression);
      var next := Equals(lib, st);
      if next.resultShowing {
        FormatIsPlain(lib, Interpret(lib, st.expression).value);
        CountAbsent(next.expression, ')');
      }
    }
  }

  /** One event from the keypad or the voice worker keeps the invariant. */
  lemma {:induction false} StepKeepsInv(lib: MathLib, st: Editor, e: Event)
    requires FormatsPlainly(lib) && Inv(st)
    requires e.Press? ==> e.key in Keypad
    ensures Inv(Step(lib, st, e))
  {
    match e
    case Heard(expression) =>
      if expression != [] {
        EqualsKeepsInv(lib, Editor(expression, st.resultShowing, st.expressionDisplay, expression));
      }
    case Press(key) =>
      if key == "=" {
        EqualsKeepsInv(lib, st);
      } else if key == "()" {
        ParenthesesAppendOne(st);
        var base := if st.resultShowing then "" else st.expression;
        if st.resultShowing {
          assert Count(base, '(') == 0;
        }
      } else if key !in {MicKey, "AC"} {
        TypingKeepsInv(lib, st, key);
      }
  }

  /** A key that types text keeps the invariant: it adds no `)`. */
  lemma TypingKeepsInv(lib: MathLib, st: Editor, key: string)
    requires Inv(st) && key in Keypad && key !in {MicKey, "=", "AC", "()"}
    ensures Inv(ButtonClick(lib, st, key))
  {
    var base := if st.resultShowing && key !in OperatorKeys then "" else st.expression;
    var added := KeyText(key);
    assert ButtonClick(lib, st, key).expression == base + added;
    assert Count(added, ')') == 0 by {
      KeyTextOpens(key);
      CountAbsent(added, ')');
    }
    CountAppend(base, added, ')');
    CountAppend(base, added, '(');
  }

  /** No key of the keypad other than the bracket key types a `)`. */
  lemma KeyTextOpens(key: string)
    requires key in Keypad && key != "()"
    ensures ')' !in KeyText(key)
  {
    if key in TopRow {
      TopRowOpens(key);
    } else if key in DigitRows {
      DigitRowsOpen(key);
    } else {
      BottomRowOpens(key);
    }
  }

  lemma TopRowOpens(key: string)
    requires key in TopRow && key != "()"
    ensures ')' !in KeyText(key)
  {
  }

  lemma DigitRowsOpen(key: string)
    requires key in DigitRows
    ensures ')' !in KeyText(key)
  {
  }

  lemma BottomRowOpens(key: string)
    requires key in BottomRow
    ensures ')' !in KeyText(key)
  {
  }

  /** Every state reached from the initial one by keypad presses and voice
      commands satisfies the invariant. */
  lemma {:induction false} RunKeepsInv(lib: MathLib, st: Editor, events: seq<Event>)
    requires FormatsPlainly(lib) && Inv(st)
    requires forall k | 0 <= k < |events| :: events[k].Press? ==> events[k].key in Keypad
    ensures Inv(Run(lib, st, events))
    decreases |events|
  {
    if events != [] {
      StepKeepsInv(lib, st, events[0]);
      RunKeepsInv(lib, Step(lib, st, events[0]), events[1..]);
    }
  }

  class MainWindow {
    const lib: MathLib
    var currentExpression: string
    var lastResultShowing: bool
    var expressionDisplay: string
    var resultDisplay: string

    function State(): Editor
      reads this
    {
      Editor(currentExpression, lastResultShowing, expressionDisplay, resultDisplay)
    }

    /** The fields as `__init__` leaves them, `_create_display` having called `_on_all_clear`. */
    constructor(lib: MathLib)
      ensures this.lib == lib && State() == Initial
    {
      this.lib := lib;
      new;
      OnAllClear();
      currentExpression := "";
      lastResultShowing := false;
    }

    method OnButtonClick(key: string)
      modifies this
      ensures State() == ButtonClick(lib, old(State()), key)
    {
      if key == MicKey {
        OnMicClick();
        return;
      }
      if key == "=" {
        OnEquals();
        return;
      }
      if key == "AC" {
        OnAllClear();
        return;
      }
      if key == "()" {
        OnParentheses();
        return;
      }
      if lastResultShowing {
        var isOperator := key in BasicOperators || key in ["^", SquareRootKey, "sin", "cos", "tan"];
        if !isOperator {
          currentExpression := "";
        }
        lastResultShowing := false;
      }
      if key in ["sin", "cos", "tan"] {
        currentExpression := currentExpression + key + "(";
      } else if key == SquareRootKey {
        currentExpression := currentExpression + "sqrt(";
      } else if key == "^" {
        currentExpression := currentExpression + "**";
      } else {
        currentExpression := currentExpression + key;
      }
      resultDisplay := currentExpression;
    }

    method OnEquals()
      modifies this
      ensures State() == Equals(lib, old(State()))
    {
      if currentExpression == [] {
        return;
      }
      var result := EvaluateExpression(lib, currentExpression);
      expressionDisplay := currentExpression;
      resultDisplay := result;
      if !Contains(result, "Error:") {
        currentExpression := result;
        lastResultShowing := true;
      } else {
        currentExpression := "";
        lastResultShowing := false;
      }
    }

    method OnAllClear()
      modifies this
      ensures State() == AllClear(old(State()))
    {
      currentExpression := "";
      expressionDisplay := "";
      resultDisplay := "0";
      lastResultShowing := false;
    }

    method OnParentheses()
      modifies this
      ensures State() == Parentheses(old(State()))
    {
      if lastResultShowing {
        currentExpression := "";
        lastResultShowing := false;
      }
      var openCount := Count(currentExpression, '(');
      var closeCount := Count(currentExpression, ')');
      if openCount > closeCount && !EndsWithAny(currentExpression, OpenAfter) {
        currentExpression := currentExpression + ")";
      } else {
        currentExpression := currentExpression + "(";
      }
      resultDisplay := currentExpression;
    }

    method OnMicClick()
      modifies this
      ensures State() == MicClick(old(State()))
    {
      expressionDisplay := "";
      resultDisplay := "Listening...";
    }

    method OnAiCommandReady(expression: string)
      modifies this
      ensures State() == AiCommandReady(lib, old(State()), expression)
    {
      if expression == [] {
        resultDisplay := "0";
        expressionDisplay := "Could not understand";
        currentExpression := "";
        lastResultShowing := false;
        return;
      }
      currentExpression := expression;
      resultDisplay := expression;
      OnEquals();
    }
  }
}
