/**
 * Key sequences typed on a fresh calculator, and what the display shows
 * at the end. The rendering of a result is a parameter; a session that
 * types on after `=` needs it to show the result as a number.
 */
module Sessions {
  import opened Tokens
  import opened Evaluator

  /** A typed digit followed by an operator key is recorded as the digit, then the operator. */
  lemma RecordsDigit(d: char, history: seq<string>, op: string)
    requires IsDigit(d)
    ensures Recorded([d], history, op) == history + [[d], op]
    ensures RecordedAsWritten([d], history, op) == history + [[d], op]
  {
    DigitValue(d);
    RecordedCases([d], history, op);
  }

  /** `=` after a typed digit with no bracket open evaluates the history followed by the digit. */
  lemma CommitsDigit(d: char, history: seq<string>)
    requires IsDigit(d)
    ensures Committed([d], history, 0) == history + [[d]]
  {
    DigitValue(d);
    CommittedNumber([d], history, 0);
  }

  lemma EightOverZero()
    ensures Evaluate(["8", "÷", "0"]) == Err(DivByZero)
  {
    DigitValue('8');
    DigitValue('0');
    TwoOperands("8", "÷", "0");
  }

  lemma SevenPlusFive()
    ensures Evaluate(["7", "+", "5"]) == Ok(12.0)
  {
    DigitValue('7');
    DigitValue('5');
    TwoOperands("7", "+", "5");
  }

  lemma OpenSumClosed()
    ensures Evaluate(["(", "2", "+", "3", ")"]) == Ok(5.0)
  {
    DigitValue('2');
    DigitValue('3');
    BracketedAlone("2", "+", "3");
  }

  lemma BracketedSumTimesFour()
    ensures Evaluate(["(", "2", "+", "3", ")", "×", "4"]) == Ok(20.0)
  {
    DigitValue('2');
    DigitValue('3');
    DigitValue('4');
    BracketedFirst("2", "+", "3", "×", "4");
  }

  lemma BracketedSumThenFour()
    ensures Evaluate(["(", "2", "+", "3", ")", "4"]).Err?
  {
    DigitValue('2');
    DigitValue('3');
    DigitValue('4');
    OperatorDroppedAfterClose("2", "+", "3", "4");
  }

  lemma TwoTimesThreePlusFour()
    ensures Evaluate(["2", "×", "3", "+", "4"]) == Ok(10.0)
  {
    DigitValue('2');
    DigitValue('3');
    DigitValue('4');
    ThreeOperands("2", "×", "3", "+", "4");
  }

  lemma TwoTimesBracketedSum()
    ensures Evaluate(["2", "×", "(", "3", "+", "4", ")"]) == Ok(14.0)
  {
    DigitValue('2');
    DigitValue('3');
    DigitValue('4');
    BracketedSecond("2", "×", "3", "+", "4");
  }

  lemma MinusFiveClosed()
    ensures Evaluate(["-", "5", ")"]) == Err(MismatchedParenthesis)
  {
    DigitValue('5');
    UnopenedClose("-", "5");
  }

  /** Types `1 + 2` on a fresh calculator. */
  method TypeOnePlusTwo() returns (c: Calculator)
    ensures fresh(c) && c.Valid()
    ensures c.history == ["1", "+"] && c.currentInput == "2"
    ensures c.parenCount == 0 && !c.clearOnNextDigit
  {
    c := new Calculator();
    c.InputNumber('1');
    RecordsDigit('1', [], "+");
    c.InputOperatorAsWritten("+");
    c.InputNumber('2');
  }

  /** `1 + 2 × 3 =` shows 7: multiplication binds tighter. */
  method PrecedenceSession(render: real -> string) returns (shown: string)
    ensures shown == render(7.0)
  {
    var c := TypeOnePlusTwo();
    RecordsDigit('2', ["1", "+"], "×");
    c.InputOperatorAsWritten("×");
    assert c.history == ["1", "+", "2", "×"];
    c.InputNumber('3');
    CommitsDigit('3', c.history);
    assert c.history + ["3"] == ["1", "+", "2", "×", "3"];
    MultiplicationFirst();
    shown := c.Calculate(render);
  }

  /** Types `8 ÷ 0 =` on a fresh calculator. */
  method DivideByZero(render: real -> string) returns (c: Calculator, shown: string)
    ensures fresh(c) && c.Valid()
    ensures shown == "Error" && c.currentInput == "0"
  {
    c := new Calculator();
    c.InputNumber('8');
    RecordsDigit('8', [], "÷");
    c.InputOperatorAsWritten("÷");
    c.InputNumber('0');
    CommitsDigit('0', c.history);
    assert c.history + ["0"] == ["8", "÷", "0"];
    EightOverZero();
    shown := c.Calculate(render);
  }

  /** `8 ÷ 0 =` shows "Error" and leaves "0" as the input; the clear key then shows "0". */
  method DivisionByZeroSession(render: real -> string) returns (shown: string, cleared: string)
    ensures shown == "Error" && cleared == "0"
  {
    var c;
    c, shown := DivideByZero(render);
    c.Clear();
    cleared := c.currentInput;
  }

  /** Types `7 =` on a fresh calculator. */
  method ShowSeven(render: real -> string) returns (c: Calculator, shown: string)
    ensures fresh(c) && c.Valid()
    ensures shown == render(7.0) && c.currentInput == render(7.0)
    ensures c.history == [] && c.parenCount == 0 && c.clearOnNextDigit
  {
    c := new Calculator();
    c.InputNumber('7');
    CommitsDigit('7', []);
    assert [] + ["7"] == ["7"];
    DigitValue('7');
    EvaluateNumber("7");
    shown := c.Calculate(render);
  }

  /** `7 = + 5 =` continues from the shown result and shows 12, when seven is shown as "7". */
  method ChainedSession(render: real -> string) returns (first: string, second: string)
    requires render(7.0) == "7"
    ensures first == "7" && second == render(12.0)
  {
    var c;
    c, first := ShowSeven(render);
    RecordsDigit('7', [], "+");
    c.InputOperatorAsWritten("+");
    c.InputNumber('5');
    CommitsDigit('5', c.history);
    assert c.history + ["5"] == ["7", "+", "5"];
    SevenPlusFive();
    second := c.Calculate(render);
  }

  /** `1 . 5 .` keeps "1.5": a second point is ignored. */
  method SecondPointSession() returns (typed: string)
    ensures typed == "1.5"
  {
    var c := new Calculator();
    c.InputNumber('1');
    c.InputNumber('.');
    c.InputNumber('5');
    assert c.currentInput == "1.5";
    c.InputNumber('.');
    typed := c.currentInput;
  }

  /** Types `( 2` on a fresh calculator. */
  method TypeOpenTwo() returns (c: Calculator)
    ensures fresh(c) && c.Valid()
    ensures c.history == ["("] && c.currentInput == "2"
    ensures c.parenCount == 1 && !c.clearOnNextDigit
  {
    c := new Calculator();
    c.OpenParenAsWritten();
    c.InputNumber('2');
  }

  /** `( 2 + 3 =` closes the open bracket itself and shows 5. */
  method AutoCloseSession(render: real -> string) returns (shown: string)
    ensures shown == render(5.0)
  {
    var c := TypeOpenTwo();
    RecordsDigit('2', ["("], "+");
    c.InputOperatorAsWritten("+");
    c.InputNumber('3');
    assert c.history == ["(", "2", "+"] && c.currentInput == "3" && c.parenCount == 1;
    DigitValue('3');
    CommittedNumber("3", c.history, 1);
    assert c.history + ["3", ")"] == ["(", "2", "+", "3", ")"];
    OpenSumClosed();
    shown := c.Calculate(render);
  }

  /** Types `( 2 + 3 )` on a fresh calculator. */
  method TypeClosedSum() returns (c: Calculator)
    ensures fresh(c) && c.Valid()
    ensures c.history == ["(", "2", "+", "3", ")"] && c.currentInput == ""
    ensures c.parenCount == 0 && !c.clearOnNextDigit
  {
    c := TypeOpenTwo();
    RecordsDigit('2', ["("], "+");
    c.InputOperatorAsWritten("+");
    c.InputNumber('3');
    c.CloseParen();
  }

  /** `( 2 + 3 ) × 4 =` shows 20 once the operator after `)` is recorded. */
  method BracketSession(render: real -> string) returns (shown: string)
    ensures shown == render(20.0)
  {
    var c := TypeClosedSum();
    RecordedCases("", c.history, "×");
    c.InputOperator("×");
    c.InputNumber('4');
    CommitsDigit('4', c.history);
    assert c.history + ["4"] == ["(", "2", "+", "3", ")", "×", "4"];
    BracketedSumTimesFour();
    shown := c.Calculate(render);
  }

  /** The same keys with the operator key as the source has it: the `×` is lost and the display shows "Error". */
  method BracketSessionAsWritten(render: real -> string) returns (shown: string)
    ensures shown == "Error"
  {
    var c := TypeClosedSum();
    RecordedCases("", c.history, "×");
    c.InputOperatorAsWritten("×");
    c.InputNumber('4');
    CommitsDigit('4', c.history);
    assert c.history + ["4"] == ["(", "2", "+", "3", ")", "4"];
    BracketedSumThenFour();
    shown := c.Calculate(render);
  }

  /** Types `2 ×` on a fresh calculator. */
  method TypeTwoTimes() returns (c: Calculator)
    ensures fresh(c) && c.Valid()
    ensures c.history == ["2", "×"] && c.currentInput == ""
    ensures c.parenCount == 0 && !c.clearOnNextDigit
  {
    c := new Calculator();
    c.InputNumber('2');
    RecordsDigit('2', [], "×");
    c.InputOperatorAsWritten("×");
  }

  /**
   * `2 × ( 3 + 4 ) =` with the `(` key as the source has it: the `(` is
   * refused after the operator, the `)` is then ignored, and the display
   * shows 10 rather than 14.
   */
  method NestedSessionAsWritten(render: real -> string) returns (shown: string)
    ensures shown == render(10.0)
  {
    var c := TypeTwoTimes();
    c.OpenParenAsWritten();
    assert c.history == ["2", "×"] && c.parenCount == 0;
    c.InputNumber('3');
    RecordsDigit('3', ["2", "×"], "+");
    c.InputOperatorAsWritten("+");
    c.InputNumber('4');
    c.CloseParen();
    assert c.history == ["2", "×", "3", "+"] && c.currentInput == "4" && c.parenCount == 0;
    CommitsDigit('4', c.history);
    assert c.history + ["4"] == ["2", "×", "3", "+", "4"];
    TwoTimesThreePlusFour();
    shown := c.Calculate(render);
  }

  /** Types `2 × (` with the corrected `(` key. */
  method TypeTwoTimesOpen() returns (c: Calculator)
    ensures fresh(c) && c.Valid()
    ensures c.history == ["2", "×", "("] && c.currentInput == ""
    ensures c.parenCount == 1 && !c.clearOnNextDigit
  {
    c := TypeTwoTimes();
    c.OpenParen();
  }

  /**
   * Types `2 × 0 (` with the `(` key as the source has it: the lone "0"
   * lets the `(` through and is discarded, leaving the same state as the
   * corrected key after `2 × (`.
   */
  method TypeTwoTimesZeroOpen() returns (c: Calculator)
    ensures fresh(c) && c.Valid()
    ensures c.history == ["2", "×", "("] && c.currentInput == ""
    ensures c.parenCount == 1 && !c.clearOnNextDigit
  {
    c := TypeTwoTimes();
    c.InputNumber('0');
    assert c.currentInput == "0";
    c.OpenParenAsWritten();
  }

  /** Continues `2 × (` with `3 +`. */
  method TypeNestedPrefix(c: Calculator)
    requires c.Valid()
    requires c.history == ["2", "×", "("] && c.currentInput == ""
    requires c.parenCount == 1 && !c.clearOnNextDigit
    modifies c
    ensures c.Valid()
    ensures c.history == ["2", "×", "(", "3", "+"] && c.currentInput == ""
    ensures c.parenCount == 1 && !c.clearOnNextDigit
  {
    c.InputNumber('3');
    assert c.currentInput == "3";
    RecordsDigit('3', ["2", "×", "("], "+");
    c.InputOperatorAsWritten("+");
  }

  /** Continues `2 × ( 3 +` with `4 )`. */
  method TypeNestedSum(c: Calculator)
    requires c.Valid()
    requires c.history == ["2", "×", "(", "3", "+"] && c.currentInput == ""
    requires c.parenCount == 1 && !c.clearOnNextDigit
    modifies c
    ensures c.Valid()
    ensures c.history == ["2", "×", "(", "3", "+", "4", ")"] && c.currentInput == ""
    ensures c.parenCount == 0 && !c.clearOnNextDigit
  {
    c.InputNumber('4');
    assert c.currentInput == "4";
    c.CloseParen();
    assert ["2", "×", "(", "3", "+"] + ["4"] + [")"] == ["2", "×", "(", "3", "+", "4", ")"];
  }

  /** `2 × ( 3 + 4 ) =` shows 14 once `(` is accepted after an operator. */
  method NestedSession(render: real -> string) returns (shown: string)
    ensures shown == render(14.0)
  {
    var c := TypeTwoTimesOpen();
    TypeNestedPrefix(c);
    TypeNestedSum(c);
    CommittedNothing(c.history);
    TwoTimesBracketedSum();
    shown := c.Calculate(render);
  }

  /**
   * `2 × 0 ( 3 + 4 ) =` with the keys as the source has them: typing 0
   * before `(` gets the bracket accepted, and the display shows 14.
   */
  method ZeroFirstSession(render: real -> string) returns (shown: string)
    ensures shown == render(14.0)
  {
    var c := TypeTwoTimesZeroOpen();
    TypeNestedPrefix(c);
    TypeNestedSum(c);
    CommittedNothing(c.history);
    TwoTimesBracketedSum();
    shown := c.Calculate(render);
  }

  /**
   * `( - 5 ) =`: the operator key overwrites the `(` while the bracket
   * stays counted, so the `)` finds no `(` and the display shows "Error".
   */
  method OverwrittenOpenSession(render: real -> string) returns (shown: string)
    ensures shown == "Error"
  {
    var c := new Calculator();
    c.OpenParenAsWritten();
    RecordedCases("", ["("], "-");
    c.InputOperatorAsWritten("-");
    assert c.history == ["-"] && c.parenCount == 1;
    c.InputNumber('5');
    c.CloseParen();
    assert c.history == ["-", "5", ")"] && c.currentInput == "" && c.parenCount == 0;
    CommittedNothing(c.history);
    MinusFiveClosed();
    shown := c.Calculate(render);
  }
}
