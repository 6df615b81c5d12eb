/**
 * The calculator's state and its input operations.
 *
 * The state is four variables: the number being typed (as text), the
 * committed token history, the "clear on next digit" mode flag, and the
 * count of open brackets. Digits, operators, brackets, the sign toggle and
 * the percent key change it step by step; `=` evaluates the history by
 * shunting-yard conversion and postfix evaluation and always ends in the
 * reset state, holding either the result or, after a failure, "0".
 */
module Evaluator {
  import opened Tokens
  import opened ShuntingYard
  import opened PostfixEval

  /** A run of `n` closing brackets. */
  function Closers(n: nat): (r: seq<string>)
    ensures |r| == n
    ensures forall i :: 0 <= i < n ==> r[i] == ")"
  {
    seq(n, _ => ")")
  }

  /** What `=` evaluates: the history, the typed text if it is a number, and one `)` per open bracket. */
  function Committed(input: string, history: seq<string>, open: nat): (r: seq<string>)
    ensures |r| == |history| + (if IsNumeric(input) then 1 else 0) + open
    ensures r[..|history|] == history
    ensures IsNumeric(input) ==> r[|history|] == input
    ensures forall i :: |r| - open <= i < |r| ==> r[i] == ")"
  {
    history + (if IsNumeric(input) then [input] else []) + Closers(open)
  }

  /** With a number typed, `=` commits it and then closes the open brackets. */
  lemma CommittedNumber(input: string, history: seq<string>, open: nat)
    requires IsNumeric(input)
    ensures open == 0 ==> Committed(input, history, open) == history + [input]
    ensures open == 1 ==> Committed(input, history, open) == history + [input, ")"]
  {
    if open == 0 {
      assert Closers(0) == [];
    } else if open == 1 {
      assert Closers(1) == [")"];
      assert history + [input] + [")"] == history + [input, ")"];
    }
  }

  /** Conversion to postfix, then evaluation of the queue. */
  function Evaluate(ts: seq<string>): Result<real> {
    match Postfix(ts)
    case Ok(q) => EvalPostfix(q)
    case Err(e) => Err(e)
  }

  /** The auto-closing loop of `calculate`: appends `n` closing brackets. */
  method CloseAll(ts: seq<string>, n: nat) returns (r: seq<string>)
    ensures |r| == |ts| + n && r[..|ts|] == ts
    ensures forall i :: |ts| <= i < |r| ==> r[i] == ")"
  {
    r := ts;
    var i := 0;
    while i < n
      invariant 0 <= i <= n
      invariant |r| == |ts| + i && r[..|ts|] == ts
      invariant forall j :: |ts| <= j < |r| ==> r[j] == ")"
    {
      r := r + [")"];
      i := i + 1;
    }
  }

  lemma {:induction false} ClosersBalance(n: nat)
    ensures Balance(Closers(n)) + n == 0
  {
    if n > 0 {
      assert Init(Closers(n)) == Closers(n - 1);
      ClosersBalance(n - 1);
    }
  }

  /**
   * Appending one `)` per still-open bracket to a list that never closes
   * more than it opened leaves every bracket matched.
   */
  lemma AutoCloseBalances(ts: seq<string>, n: nat)
    requires NeverOverClosed(ts) && Balance(ts) == n
    ensures Balanced(ts + Closers(n))
  {
    var all := ts + Closers(n);
    forall i | 0 <= i <= |all|
      ensures Balance(all[..i]) >= 0
    {
      if i <= |ts| {
        assert all[..i] == ts[..i];
      } else {
        assert all[..i] == ts + Closers(i - |ts|);
        BalanceAppend(ts, Closers(i - |ts|));
        ClosersBalance(i - |ts|);
      }
    }
    BalanceAppend(ts, Closers(n));
    ClosersBalance(n);
  }

  /**
   * With well-formed tokens, `=` fails on brackets exactly when they do not
   * match; every other failure is a division by zero or a malformed queue.
   */
  lemma EvaluateBrackets(ts: seq<string>)
    requires WellFormedOps(ts)
    ensures Evaluate(ts) == Err(MismatchedParenthesis) <==> !Balanced(ts)
    ensures Evaluate(ts).Err? && Evaluate(ts).error != MismatchedParenthesis ==>
      Evaluate(ts).error in {DivByZero, InvalidStructure, InvalidFinal}
  {
    PostfixMatchesBrackets(ts);
    if Postfix(ts).Ok? {
      var q := Postfix(ts).value;
      EvalPostfixShape(q);
      if EvalPostfix(q).Err? {
        RunErrorsOfEval(q);
      }
    }
  }

  lemma RunErrorsOfEval(q: seq<string>)
    requires EvalPostfix(q).Err?
    ensures EvalPostfix(q).error != MismatchedParenthesis
  {
    if Run(q).Err? {
      RunErrors(q);
    }
  }

  /** A lone number evaluates to its own value, so pressing `=` again repeats the result. */
  lemma EvaluateNumber(s: string)
    requires IsNumeric(s)
    ensures Evaluate([s]) == Ok(Value(s))
  {
    ScanSnoc([], s);
    assert [] + [s] == [s];
    assert Scan([s]) == Ok(State([s], []));
    RunSnoc([], s);
    assert [] + [Value(s)] == [Value(s)];
  }

  /**
   * After `=` has shown `render(v)`, the state it leaves evaluates to the
   * value that text reads as; when rendering that value again gives the
   * same text (as rounding to a fixed number of places does), a second
   * `=` shows the same text.
   */
  lemma RepeatedEquals(v: real, render: real -> string)
    requires IsNumeric(render(v))
    ensures Evaluate(Committed(render(v), [], 0)) == Ok(Value(render(v)))
    ensures render(Value(render(v))) == render(v) ==>
      Evaluate(Committed(render(v), [], 0)).Ok? && render(Evaluate(Committed(render(v), [], 0)).value) == render(v)
  {
    assert Committed(render(v), [], 0) == [render(v)];
    EvaluateNumber(render(v));
  }

  /** After a failed `=` the input is "0", which a further `=` evaluates to zero. */
  lemma EqualsAfterError()
    ensures Evaluate(Committed("0", [], 0)) == Ok(0.0)
  {
    DigitValue('0');
    assert Committed("0", [], 0) == ["0"];
    EvaluateNumber("0");
  }

  /**
   * Pressing `=` twice. When the first press succeeds and its text is
   * rendered again unchanged, the second shows the same text; after a
   * failure the second shows zero.
   */
  method EqualsTwice(c: Calculator, render: real -> string) returns (first: string, second: string)
    requires c.Valid()
    requires var r := Evaluate(Committed(c.currentInput, c.history, c.parenCount));
      r.Ok? ==> IsNumeric(render(r.value)) && render(Value(render(r.value))) == render(r.value)
    modifies c
    ensures var r := Evaluate(Committed(old(c.currentInput), old(c.history), old(c.parenCount)));
      && (r.Ok? ==> first == render(r.value) && second == first)
      && (r.Err? ==> first == "Error" && second == render(0.0))
    ensures c.currentInput == second && c.history == [] && c.parenCount == 0 && c.clearOnNextDigit
  {
    ghost var r := Evaluate(Committed(c.currentInput, c.history, c.parenCount));
    first := c.Calculate(render);
    if r.Ok? {
      RepeatedEquals(r.value, render);
    } else {
      EqualsAfterError();
    }
    second := c.Calculate(render);
  }

  /** After `a op b` the two numbers are out and the operator waits on the stack. */
  lemma ScanOfSum(a: string, op: string, b: string)
    requires IsNumeric(a) && IsNumeric(b) && IsOperator(op)
    ensures Scan([a, op, b]) == Ok(State([a, b], [op]))
  {
    ScanNumberOperator(a, op);
    ScanNumber([a, op], State([a], [op]), b);
    assert [a, op] + [b] == [a, op, b] && [a] + [b] == [a, b];
  }

  lemma ScanOneNumber(a: string)
    requires IsNumeric(a)
    ensures Scan([a]) == Ok(State([a], []))
  {
    ScanNumber([], State([], []), a);
    assert [] + [a] == [a];
  }

  lemma ScanNumberOperator(a: string, op: string)
    requires IsNumeric(a) && IsOperator(op)
    ensures Scan([a, op]) == Ok(State([a], [op]))
  {
    ScanOneNumber(a);
    ScanOperatorWaits([a], State([a], []), op);
    assert [a] + [op] == [a, op] && [] + [op] == [op];
  }

  /** `a op1 b op2 c` becomes a queue that applies the tighter (or, on a tie, the left) operator first. */
  lemma PostfixOfThree(a: string, op1: string, b: string, op2: string, c: string)
    requires IsNumeric(a) && IsNumeric(b) && IsNumeric(c) && IsOperator(op1) && IsOperator(op2)
    ensures Precedence(op1) >= Precedence(op2) ==> Postfix([a, op1, b, op2, c]) == Ok([a, b, op1, c, op2])
    ensures Precedence(op1) < Precedence(op2) ==> Postfix([a, op1, b, op2, c]) == Ok([a, b, c, op2, op1])
  {
    if Precedence(op1) >= Precedence(op2) {
      PostfixPopsFirst(a, op1, b, op2, c);
    } else {
      PostfixStacksSecond(a, op1, b, op2, c);
    }
  }

  /** A second operator that binds no tighter pops the first one to the output. */
  lemma PostfixPopsFirst(a: string, op1: string, b: string, op2: string, c: string)
    requires IsNumeric(a) && IsNumeric(b) && IsNumeric(c) && IsOperator(op1) && IsOperator(op2)
    requires Precedence(op1) >= Precedence(op2)
    ensures Postfix([a, op1, b, op2, c]) == Ok([a, b, op1, c, op2])
  {
    ScanPopsFirst(a, op1, b, op2);
    ScanNumber([a, op1, b, op2], State([a, b, op1], [op2]), c);
    assert [a, op1, b, op2] + [c] == [a, op1, b, op2, c];
    assert [a, b, op1] + [c] == [a, b, op1, c];
    DrainOne([a, b, op1, c], op2);
    assert [a, b, op1, c] + [op2] == [a, b, op1, c, op2];
  }

  lemma ScanPopsFirst(a: string, op1: string, b: string, op2: string)
    requires IsNumeric(a) && IsNumeric(b) && IsOperator(op1) && IsOperator(op2)
    requires Precedence(op1) >= Precedence(op2)
    ensures Scan([a, op1, b, op2]) == Ok(State([a, b, op1], [op2]))
  {
    ScanOfSum(a, op1, b);
    ScanOperatorPopsOne([a, op1, b], [a, b], op1, op2);
    assert [a, op1, b] + [op2] == [a, op1, b, op2];
    assert [a, b] + [op1] == [a, b, op1];
  }

  /** A second operator that binds tighter waits above the first one. */
  lemma PostfixStacksSecond(a: string, op1: string, b: string, op2: string, c: string)
    requires IsNumeric(a) && IsNumeric(b) && IsNumeric(c) && IsOperator(op1) && IsOperator(op2)
    requires Precedence(op1) < Precedence(op2)
    ensures Postfix([a, op1, b, op2, c]) == Ok([a, b, c, op2, op1])
  {
    ScanStacksSecond(a, op1, b, op2);
    ScanNumber([a, op1, b, op2], State([a, b], [op1, op2]), c);
    assert [a, op1, b, op2] + [c] == [a, op1, b, op2, c] && [a, b] + [c] == [a, b, c];
    DrainTwo([a, b, c], op1, op2);
    assert [a, b, c] + [op2, op1] == [a, b, c, op2, op1];
  }

  lemma ScanStacksSecond(a: string, op1: string, b: string, op2: string)
    requires IsNumeric(a) && IsNumeric(b) && IsOperator(op1) && IsOperator(op2)
    requires Precedence(op1) < Precedence(op2)
    ensures Scan([a, op1, b, op2]) == Ok(State([a, b], [op1, op2]))
  {
    ScanOfSum(a, op1, b);
    ScanOperatorWaits([a, op1, b], State([a, b], [op1]), op2);
    assert [a, op1, b] + [op2] == [a, op1, b, op2] && [op1] + [op2] == [op1, op2];
  }

  lemma RunOfTwo(a: string, b: string)
    requires IsNumeric(a) && IsNumeric(b)
    ensures Run([a, b]) == Ok([Value(a), Value(b)])
  {
    RunOneNumber(a);
    RunNumber([a], [Value(a)], b);
    assert [a] + [b] == [a, b] && [Value(a)] + [Value(b)] == [Value(a), Value(b)];
  }

  lemma RunOneNumber(a: string)
    requires IsNumeric(a)
    ensures Run([a]) == Ok([Value(a)])
  {
    RunNumber([], [], a);
    assert [] + [a] == [a] && [] + [Value(a)] == [Value(a)];
  }

  lemma RunOfThree(a: string, b: string, c: string)
    requires IsNumeric(a) && IsNumeric(b) && IsNumeric(c)
    ensures Run([a, b, c]) == Ok([Value(a), Value(b), Value(c)])
  {
    RunOfTwo(a, b);
    RunNumber([a, b], [Value(a), Value(b)], c);
    assert [a, b] + [c] == [a, b, c];
    assert [Value(a), Value(b)] + [Value(c)] == [Value(a), Value(b), Value(c)];
  }

  /** The queue `a b op` leaves the one value `a op b`. */
  lemma RunOneOperator(a: string, b: string, op: string)
    requires IsNumeric(a) && IsNumeric(b) && IsOperator(op)
    ensures Run([a, b, op]) == match Operate(Value(a), op, Value(b)) case Ok(u) => Ok([u]) case Err(e) => Err(e)
  {
    RunOfTwo(a, b);
    RunOperator([a, b], [Value(a), Value(b)], op);
    assert [a, b] + [op] == [a, b, op];
    match Operate(Value(a), op, Value(b))
    case Ok(u) =>
      assert [Value(a), Value(b)][..0] + [u] == [u];
    case Err(e) =>
  }

  /** The queue `a b c op` combines the last two values. */
  lemma RunInnerOperator(a: string, b: string, c: string, op: string)
    requires IsNumeric(a) && IsNumeric(b) && IsNumeric(c) && IsOperator(op)
    ensures Run([a, b, c, op]) ==
      match Operate(Value(b), op, Value(c)) case Ok(u) => Ok([Value(a), u]) case Err(e) => Err(e)
  {
    RunOfThree(a, b, c);
    RunOperator([a, b, c], [Value(a), Value(b), Value(c)], op);
    assert [a, b, c] + [op] == [a, b, c, op];
    match Operate(Value(b), op, Value(c))
    case Ok(u) =>
      assert [Value(a), Value(b), Value(c)][..1] + [u] == [Value(a), u];
    case Err(e) =>
  }

  /** The queue `a b op` computes `a op b`. */
  lemma EvalOneOperator(a: string, b: string, op: string)
    requires IsNumeric(a) && IsNumeric(b) && IsOperator(op)
    ensures EvalPostfix([a, b, op]) == Operate(Value(a), op, Value(b))
  {
    RunOneOperator(a, b, op);
  }

  /** The queue `a b op1 c op2` computes `(a op1 b) op2 c`. */
  lemma EvalLeftFirst(a: string, b: string, op1: string, c: string, op2: string)
    requires IsNumeric(a) && IsNumeric(b) && IsNumeric(c) && IsOperator(op1) && IsOperator(op2)
    ensures EvalPostfix([a, b, op1, c, op2]) ==
      match Operate(Value(a), op1, Value(b)) case Ok(u) => Operate(u, op2, Value(c)) case Err(e) => Err(e)
  {
    var q := [a, b, op1, c, op2];
    RunOperatorThenNumber(a, b, op1, c);
    match Operate(Value(a), op1, Value(b))
    case Ok(u) =>
      RunOperator([a, b, op1, c], [u, Value(c)], op2);
      assert [a, b, op1, c] + [op2] == q;
      assert [u, Value(c)][..0] == [];
    case Err(e) =>
      assert q[..4] == [a, b, op1, c];
      RunFailureSticks(q, 4);
  }

  /** The queue `a b op c` leaves `a op b` below `c`. */
  lemma RunOperatorThenNumber(a: string, b: string, op: string, c: string)
    requires IsNumeric(a) && IsNumeric(b) && IsNumeric(c) && IsOperator(op)
    ensures Run([a, b, op, c]) ==
      match Operate(Value(a), op, Value(b)) case Ok(u) => Ok([u, Value(c)]) case Err(e) => Err(e)
  {
    var q := [a, b, op, c];
    RunOneOperator(a, b, op);
    match Operate(Value(a), op, Value(b))
    case Ok(u) =>
      RunNumber([a, b, op], [u], c);
      assert [a, b, op] + [c] == q && [u] + [Value(c)] == [u, Value(c)];
    case Err(e) =>
      assert q[..3] == [a, b, op];
      RunFailureSticks(q, 3);
  }

  /** The queue `a b c op2 op1` computes `a op1 (b op2 c)`. */
  lemma EvalRightFirst(a: string, b: string, c: string, op2: string, op1: string)
    requires IsNumeric(a) && IsNumeric(b) && IsNumeric(c) && IsOperator(op1) && IsOperator(op2)
    ensures EvalPostfix([a, b, c, op2, op1]) ==
      match Operate(Value(b), op2, Value(c)) case Ok(u) => Operate(Value(a), op1, u) case Err(e) => Err(e)
  {
    var q := [a, b, c, op2, op1];
    RunInnerOperator(a, b, c, op2);
    match Operate(Value(b), op2, Value(c))
    case Ok(u) =>
      RunOperator([a, b, c, op2], [Value(a), u], op1);
      assert [a, b, c, op2] + [op1] == q;
      assert [Value(a), u][..0] == [];
    case Err(e) =>
      assert q[..4] == [a, b, c, op2];
      RunFailureSticks(q, 4);
  }

  /** `a op b` evaluates to one application of `Operate`. */
  lemma TwoOperands(a: string, op: string, b: string)
    requires IsNumeric(a) && IsNumeric(b) && IsOperator(op)
    ensures Evaluate([a, op, b]) == Operate(Value(a), op, Value(b))
  {
    ScanOfSum(a, op, b);
    DrainOne([a, b], op);
    assert [a, b] + [op] == [a, b, op];
    EvalOneOperator(a, b, op);
  }

  /**
   * Precedence and left associativity on three operands: the left operator
   * is applied first when it binds at least as tightly as the right one,
   * otherwise the right one is.
   */
  lemma ThreeOperands(a: string, op1: string, b: string, op2: string, c: string)
    requires IsNumeric(a) && IsNumeric(b) && IsNumeric(c) && IsOperator(op1) && IsOperator(op2)
    ensures Precedence(op1) >= Precedence(op2) ==>
      Evaluate([a, op1, b, op2, c]) ==
        match Operate(Value(a), op1, Value(b)) case Ok(u) => Operate(u, op2, Value(c)) case Err(e) => Err(e)
    ensures Precedence(op1) < Precedence(op2) ==>
      Evaluate([a, op1, b, op2, c]) ==
        match Operate(Value(b), op2, Value(c)) case Ok(u) => Operate(Value(a), op1, u) case Err(e) => Err(e)
  {
    PostfixOfThree(a, op1, b, op2, c);
    if Precedence(op1) >= Precedence(op2) {
      EvalLeftFirst(a, b, op1, c, op2);
    } else {
      EvalRightFirst(a, b, c, op2, op1);
    }
  }

  /** `1 + 2 × 3` is 7: multiplication binds tighter. */
  lemma MultiplicationFirst()
    ensures Evaluate(["1", "+", "2", "×", "3"]) == Ok(7.0)
  {
    DigitValue('1');
    DigitValue('2');
    DigitValue('3');
    ThreeOperands("1", "+", "2", "×", "3");
  }

  /** `8 - 3 - 2` is 3: equal precedence groups to the left. */
  lemma SubtractionGroupsLeft()
    ensures Evaluate(["8", "-", "3", "-", "2"]) == Ok(3.0)
  {
    DigitValue('8');
    DigitValue('3');
    DigitValue('2');
    ThreeOperands("8", "-", "3", "-", "2");
  }

  /** After `( a` the number is out and the bracket waits on the stack. */
  lemma OpenedNumber(a: string)
    requires IsNumeric(a)
    ensures Scan(["(", a]) == Ok(State([a], ["("]))
  {
    ScanOpen([], State([], []));
    assert [] + ["("] == ["("];
    ScanNumber(["("], State([], ["("]), a);
    assert ["("] + [a] == ["(", a] && [] + [a] == [a];
  }

  /** After `( a op1` the operator waits above the bracket. */
  lemma OpenedPrefix(a: string, op1: string)
    requires IsNumeric(a) && IsOperator(op1)
    ensures Scan(["(", a, op1]) == Ok(State([a], ["(", op1]))
  {
    OpenedNumber(a);
    ScanOperatorWaits(["(", a], State([a], ["("]), op1);
    assert ["(", a] + [op1] == ["(", a, op1] && ["("] + [op1] == ["(", op1];
  }

  /** After `( a op1 b` the bracket and the operator wait on the stack. */
  lemma OpenedSum(a: string, op1: string, b: string)
    requires IsNumeric(a) && IsNumeric(b) && IsOperator(op1)
    ensures Scan(["(", a, op1, b]) == Ok(State([a, b], ["(", op1]))
  {
    OpenedPrefix(a, op1);
    ScanNumber(["(", a, op1], State([a], ["(", op1]), b);
    assert ["(", a, op1] + [b] == ["(", a, op1, b] && [a] + [b] == [a, b];
  }

  /** After `( a op1 b )` the stack is empty and the queue is `a b op1`. */
  lemma BracketedPrefix(a: string, op1: string, b: string)
    requires IsNumeric(a) && IsNumeric(b) && IsOperator(op1)
    ensures Scan(["(", a, op1, b, ")"]) == Ok(State([a, b, op1], []))
  {
    OpenedSum(a, op1, b);
    OperatorIsNoNumber(op1);
    PopToOpenTop([a, b], [], op1);
    assert [] + ["(", op1] == ["(", op1] && [] + ["("] == ["("];
    assert [a, b] + [op1] == [a, b, op1];
    ScanClose(["(", a, op1, b], State([a, b], ["(", op1]));
    assert ["(", a, op1, b] + [")"] == ["(", a, op1, b, ")"];
  }

  /** `( a op1 b ) op2 c` applies `op1` first, whatever the precedences. */
  lemma BracketedFirst(a: string, op1: string, b: string, op2: string, c: string)
    requires IsNumeric(a) && IsNumeric(b) && IsNumeric(c) && IsOperator(op1) && IsOperator(op2)
    ensures Evaluate(["(", a, op1, b, ")", op2, c]) ==
      match Operate(Value(a), op1, Value(b)) case Ok(u) => Operate(u, op2, Value(c)) case Err(e) => Err(e)
  {
    PostfixBracketedFirst(a, op1, b, op2, c);
    EvalLeftFirst(a, b, op1, c, op2);
  }

  lemma PostfixBracketedFirst(a: string, op1: string, b: string, op2: string, c: string)
    requires IsNumeric(a) && IsNumeric(b) && IsNumeric(c) && IsOperator(op1) && IsOperator(op2)
    ensures Postfix(["(", a, op1, b, ")", op2, c]) == Ok([a, b, op1, c, op2])
  {
    var t6 := ["(", a, op1, b, ")", op2];
    ScanBracketedOperator(a, op1, b, op2);
    ScanNumber(t6, State([a, b, op1], [op2]), c);
    assert t6 + [c] == ["(", a, op1, b, ")", op2, c];
    assert [a, b, op1] + [c] == [a, b, op1, c];
    DrainOne([a, b, op1, c], op2);
    assert [a, b, op1, c] + [op2] == [a, b, op1, c, op2];
  }

  lemma ScanBracketedOperator(a: string, op1: string, b: string, op2: string)
    requires IsNumeric(a) && IsNumeric(b) && IsOperator(op1) && IsOperator(op2)
    ensures Scan(["(", a, op1, b, ")", op2]) == Ok(State([a, b, op1], [op2]))
  {
    var t5 := ["(", a, op1, b, ")"];
    BracketedPrefix(a, op1, b);
    ScanOperatorWaits(t5, State([a, b, op1], []), op2);
    assert t5 + [op2] == ["(", a, op1, b, ")", op2] && [] + [op2] == [op2];
  }

  /** `( a op1 b )` with nothing after it evaluates to `a op1 b`. */
  lemma BracketedAlone(a: string, op1: string, b: string)
    requires IsNumeric(a) && IsNumeric(b) && IsOperator(op1)
    ensures Evaluate(["(", a, op1, b, ")"]) == Operate(Value(a), op1, Value(b))
  {
    BracketedPrefix(a, op1, b);
    assert Drain(State([a, b, op1], [])) == Ok([a, b, op1]);
    EvalOneOperator(a, b, op1);
  }

  /** After `a op1 (` the bracket waits above the operator. */
  lemma NestedOpen(a: string, op1: string)
    requires IsNumeric(a) && IsOperator(op1)
    ensures Scan([a, op1, "("]) == Ok(State([a], [op1, "("]))
  {
    ScanNumberOperator(a, op1);
    ScanOpen([a, op1], State([a], [op1]));
    assert [a, op1] + ["("] == [a, op1, "("] && [op1] + ["("] == [op1, "("];
  }

  /** After `a op1 ( b op2` the inner operator waits above the bracket. */
  lemma NestedOperator(a: string, op1: string, b: string, op2: string)
    requires IsNumeric(a) && IsNumeric(b) && IsOperator(op1) && IsOperator(op2)
    ensures Scan([a, op1, "(", b, op2]) == Ok(State([a, b], [op1, "(", op2]))
  {
    NestedOpen(a, op1);
    ScanNumber([a, op1, "("], State([a], [op1, "("]), b);
    assert [a, op1, "("] + [b] == [a, op1, "(", b] && [a] + [b] == [a, b];
    ScanOperatorWaits([a, op1, "(", b], State([a, b], [op1, "("]), op2);
    assert [a, op1, "(", b] + [op2] == [a, op1, "(", b, op2];
    assert [op1, "("] + [op2] == [op1, "(", op2];
  }

  /** After `a op1 ( b op2 c )` the queue is `a b c op2` and the outer operator waits. */
  lemma NestedClosed(a: string, op1: string, b: string, op2: string, c: string)
    requires IsNumeric(a) && IsNumeric(b) && IsNumeric(c) && IsOperator(op1) && IsOperator(op2)
    ensures Scan([a, op1, "(", b, op2, c, ")"]) == Ok(State([a, b, c, op2], [op1]))
  {
    var t5 := [a, op1, "(", b, op2];
    NestedOperator(a, op1, b, op2);
    ScanNumber(t5, State([a, b], [op1, "(", op2]), c);
    assert t5 + [c] == [a, op1, "(", b, op2, c] && [a, b] + [c] == [a, b, c];
    OperatorIsNoNumber(op2);
    assert [op1] + ["(", op2] == [op1, "(", op2];
    ScanCloseOne([a, op1, "(", b, op2, c], [a, b, c], [op1], op2);
    assert [a, b, c] + [op2] == [a, b, c, op2];
    assert [a, op1, "(", b, op2, c] + [")"] == [a, op1, "(", b, op2, c, ")"];
  }

  /** `a op1 ( b op2 c )` becomes the queue `a b c op2 op1`. */
  lemma PostfixNested(a: string, op1: string, b: string, op2: string, c: string)
    requires IsNumeric(a) && IsNumeric(b) && IsNumeric(c) && IsOperator(op1) && IsOperator(op2)
    ensures Postfix([a, op1, "(", b, op2, c, ")"]) == Ok([a, b, c, op2, op1])
  {
    NestedClosed(a, op1, b, op2, c);
    DrainOne([a, b, c, op2], op1);
    assert [a, b, c, op2] + [op1] == [a, b, c, op2, op1];
  }

  /** `a op1 ( b op2 c )` applies `op2` first, whatever the precedences. */
  lemma BracketedSecond(a: string, op1: string, b: string, op2: string, c: string)
    requires IsNumeric(a) && IsNumeric(b) && IsNumeric(c) && IsOperator(op1) && IsOperator(op2)
    ensures Evaluate([a, op1, "(", b, op2, c, ")"]) ==
      match Operate(Value(b), op2, Value(c)) case Ok(u) => Operate(Value(a), op1, u) case Err(e) => Err(e)
  {
    PostfixNested(a, op1, b, op2, c);
    EvalRightFirst(a, b, c, op2, op1);
  }

  /**
   * `op a )`, the history left when an operator key overwrites a `(`,
   * fails: the `)` finds no `(` waiting.
   */
  lemma UnopenedClose(op: string, a: string)
    requires IsOperator(op) && IsNumeric(a)
    ensures Evaluate([op, a, ")"]) == Err(MismatchedParenthesis)
  {
    ScanOperatorWaits([], State([], []), op);
    assert [] + [op] == [op];
    ScanNumber([op], State([], [op]), a);
    assert [op] + [a] == [op, a] && [] + [a] == [a];
    OperatorIsNoNumber(op);
    ScanCloseUnopened([op, a], [a], op);
    assert [op, a] + [")"] == [op, a, ")"];
  }

  /** `=` with nothing typed and no bracket open evaluates the history as it is. */
  lemma CommittedNothing(history: seq<string>)
    ensures Committed("", history, 0) == history
  {
    assert Closers(0) == [];
  }

  /**
   * `( a op1 b ) c`, the history left when the operator typed after `)` is
   * not recorded, always fails: two values are left on the stack, unless
   * a division by zero inside the brackets fails first.
   */
  lemma OperatorDroppedAfterClose(a: string, op1: string, b: string, c: string)
    requires IsNumeric(a) && IsNumeric(b) && IsNumeric(c) && IsOperator(op1)
    ensures Evaluate(["(", a, op1, b, ")", c]).Err?
  {
    PostfixDropped(a, op1, b, c);
    RunOperatorThenNumber(a, b, op1, c);
  }

  lemma PostfixDropped(a: string, op1: string, b: string, c: string)
    requires IsNumeric(a) && IsNumeric(b) && IsNumeric(c) && IsOperator(op1)
    ensures Postfix(["(", a, op1, b, ")", c]) == Ok([a, b, op1, c])
  {
    BracketedPrefix(a, op1, b);
    ScanNumber(["(", a, op1, b, ")"], State([a, b, op1], []), c);
    assert ["(", a, op1, b, ")"] + [c] == ["(", a, op1, b, ")", c];
    assert [a, b, op1] + [c] == [a, b, op1, c];
  }

  /** A trailing token that a new operator overwrites: an operator or other non-number, but not `)`. */
  predicate Replaceable(t: string) {
    t != "" && !IsNumeric(t) && t != ")"
  }

  /** The history after an operator key, as `inputOperator` records it. */
  function RecordedAsWritten(input: string, history: seq<string>, op: string): (r: seq<string>)
    ensures input != "" ==> r != [] && Last(r) == op
    ensures input == "" ==> r == history || (history != [] && r == Init(history) + [op])
  {
    var h := if input != "" then history + [input] else history;
    if h != [] && Replaceable(Last(h)) then Init(h) + [op]
    else if input != "" then h + [op]
    else h
  }

  /** The history after an operator key, when an operator after `)` is appended. */
  function Recorded(input: string, history: seq<string>, op: string): (r: seq<string>)
    ensures input != "" || (history != [] && Last(history) == ")") ==> r != [] && Last(r) == op
    ensures input == "" ==> r == history || r == history + [op] || (history != [] && r == Init(history) + [op])
  {
    var h := if input != "" then history + [input] else history;
    if h != [] && Replaceable(Last(h)) then Init(h) + [op]
    else if input != "" || (h != [] && Last(h) == ")") then h + [op]
    else h
  }

  /**
   * What the operator key records: a pending number followed by the
   * operator; an operator (or `(`) just before is overwritten; after a
   * number with nothing typed, nothing is recorded; after `)` with nothing
   * typed, the source records nothing, while the corrected version appends
   * the operator.
   */
  lemma RecordedCases(input: string, history: seq<string>, op: string)
    requires input != "" || history != []
    ensures input != "" && !Replaceable(input) ==>
      RecordedAsWritten(input, history, op) == Recorded(input, history, op) == history + [input, op]
    ensures input == "" && Replaceable(Last(history)) ==>
      RecordedAsWritten(input, history, op) == Recorded(input, history, op) == Init(history) + [op]
    ensures input == "" && Last(history) == ")" ==>
      RecordedAsWritten(input, history, op) == history && Recorded(input, history, op) == history + [op]
    ensures input == "" && IsNumeric(Last(history)) ==>
      RecordedAsWritten(input, history, op) == Recorded(input, history, op) == history
    ensures |Recorded(input, history, op)| >= |RecordedAsWritten(input, history, op)|
  {
    if input != "" {
      assert Last(history + [input]) == input;
      assert history + [input] + [op] == history + [input, op];
    }
  }

  /** The calculator: the four state variables of the page and the operations on them. */
  class Calculator {
    var currentInput: string
    var history: seq<string>
    var clearOnNextDigit: bool
    var parenCount: nat

    /**
     * The invariant of every reachable state: clear-on-next-digit mode
     * holds no pending expression and no open bracket. The constructor
     * sets it up and every key keeps it, so a number started in clear
     * mode begins a fresh expression.
     */
    ghost predicate Valid()
      reads this
    {
      clearOnNextDigit ==> history == [] && parenCount == 0
    }

    /** The page's initial state, the same as after the clear key. */
    constructor ()
      ensures Valid()
      ensures currentInput == "0" && history == [] && clearOnNextDigit && parenCount == 0
    {
      currentInput := "0";
      history := [];
      clearOnNextDigit := true;
      parenCount := 0;
    }

    /** The clear key: back to "0" with nothing pending, from any state. */
    method Clear()
      modifies this
      ensures Valid()
      ensures currentInput == "0" && history == [] && clearOnNextDigit && parenCount == 0
    {
      currentInput := "0";
      history := [];
      parenCount := 0;
      clearOnNextDigit := true;
    }

    /**
     * A digit or point key. In clear mode it starts a fresh number ("0."
     * for a point) and drops the finished calculation; otherwise a second
     * point is ignored and a lone "0" is replaced by a digit.
     */
    method InputNumber(value: char)
      requires Valid()
      requires IsDigit(value) || value == '.'
      modifies this
      ensures Valid()
      ensures !clearOnNextDigit && parenCount == old(parenCount)
      ensures old(clearOnNextDigit) ==>
        history == [] && parenCount == 0 && currentInput == (if value == '.' then "0." else [value])
      ensures !old(clearOnNextDigit) ==> history == old(history)
      ensures !old(clearOnNextDigit) && value == '.' && '.' in old(currentInput) ==>
        currentInput == old(currentInput)
      ensures !old(clearOnNextDigit) && value != '.' && old(currentInput) == "0" ==>
        currentInput == [value]
      ensures !old(clearOnNextDigit) && !(value == '.' && '.' in old(currentInput)) && !(value != '.' && old(currentInput) == "0") ==>
        currentInput == old(currentInput) + [value]
      ensures old(clearOnNextDigit) || Points(old(currentInput)) <= 1 ==> Points(currentInput) <= 1
    {
      if clearOnNextDigit {
        currentInput := if value == '.' then "0." else [value];
        clearOnNextDigit := false;
        history := [];
        assert Init("0.") == "0" && Init([value]) == [];
      } else {
        if value == '.' && '.' in currentInput {
          return;
        }
        if currentInput == "0" && value != '.' {
          currentInput := [value];
          assert Init([value]) == [];
        } else {
          PointsAbsent(currentInput);
          assert Init(currentInput + [value]) == currentInput;
          currentInput := currentInput + [value];
        }
      }
    }

    /**
     * An operator key as the source has it: the pending number is
     * committed and followed by the operator, an operator just before is
     * overwritten in place, and with nothing typed after `)` the operator
     * is lost. With nothing typed and nothing recorded it does nothing.
     */
    method InputOperatorAsWritten(op: string)
      requires Valid()
      modifies this
      ensures Valid()
      ensures old(currentInput) == "" && old(history) == [] ==>
        currentInput == old(currentInput) && history == old(history) &&
        clearOnNextDigit == old(clearOnNextDigit) && parenCount == old(parenCount)
      ensures !(old(currentInput) == "" && old(history) == []) ==>
        && history == RecordedAsWritten(old(currentInput), old(history), op)
        && currentInput == "" && !clearOnNextDigit && parenCount == old(parenCount)
    {
      if currentInput == "" && history == [] {
        return;
      }
      var typed := currentInput;
      if typed != "" {
        history := history + [typed];
      }
      ghost var pending := history;
      if history != [] && Replaceable(history[|history| - 1]) {
        history := history[|history| - 1 := op];
        assert history == Init(pending) + [op];
      } else if typed != "" {
        history := history + [op];
      }
      currentInput := "";
      clearOnNextDigit := false;
    }

    /**
     * An operator key, corrected so that an operator typed right after `)`
     * is appended; otherwise as InputOperatorAsWritten.
     */
    method InputOperator(op: string)
      requires Valid()
      modifies this
      ensures Valid()
      ensures old(currentInput) == "" && old(history) == [] ==>
        currentInput == old(currentInput) && history == old(history) &&
        clearOnNextDigit == old(clearOnNextDigit) && parenCount == old(parenCount)
      ensures !(old(currentInput) == "" && old(history) == []) ==>
        && history == Recorded(old(currentInput), old(history), op)
        && currentInput == "" && !clearOnNextDigit && parenCount == old(parenCount)
    {
      if currentInput == "" && history == [] {
        return;
      }
      var typed := currentInput;
      if typed != "" {
        history := history + [typed];
      }
      ghost var pending := history;
      if history != [] && Replaceable(history[|history| - 1]) {
        history := history[|history| - 1 := op];
        assert history == Init(pending) + [op];
      } else if typed != "" || (history != [] && history[|history| - 1] == ")") {
        history := history + [op];
      }
      currentInput := "";
      clearOnNextDigit := false;
    }

    /**
     * The `(` key as the source has it: outside clear mode it is accepted
     * only on a lone "0", which it discards. That refuses it right after a
     * typed number, but also on the empty input an operator key, `(` or
     * `)` leaves, so there a 0 must be typed first. When accepted it
     * records `(`, counts it and starts a fresh number.
     */
    method OpenParenAsWritten()
      requires Valid()
      modifies this
      ensures Valid()
      ensures old(currentInput) != "0" && !old(clearOnNextDigit) ==>
        currentInput == old(currentInput) && history == old(history) &&
        clearOnNextDigit == old(clearOnNextDigit) && parenCount == old(parenCount)
      ensures !(old(currentInput) != "0" && !old(clearOnNextDigit)) ==>
        && history == old(history) + ["("] && parenCount == old(parenCount) + 1
        && currentInput == "" && !clearOnNextDigit
    {
      if currentInput != "0" && !clearOnNextDigit {
        return;
      }
      history := history + ["("];
      parenCount := parenCount + 1;
      clearOnNextDigit := false;
      currentInput := "";
    }

    /**
     * The `(` key, corrected so that it is refused only while a number
     * (other than a lone "0") is being typed; otherwise as
     * OpenParenAsWritten.
     */
    method OpenParen()
      requires Valid()
      modifies this
      ensures Valid()
      ensures old(currentInput) != "0" && old(currentInput) != "" && !old(clearOnNextDigit) ==>
        currentInput == old(currentInput) && history == old(history) &&
        clearOnNextDigit == old(clearOnNextDigit) && parenCount == old(parenCount)
      ensures !(old(currentInput) != "0" && old(currentInput) != "" && !old(clearOnNextDigit)) ==>
        && history == old(history) + ["("] && parenCount == old(parenCount) + 1
        && currentInput == "" && !clearOnNextDigit
    {
      if currentInput != "0" && currentInput != "" && !clearOnNextDigit {
        return;
      }
      history := history + ["("];
      parenCount := parenCount + 1;
      clearOnNextDigit := false;
      currentInput := "";
    }

    /**
     * The `)` key: ignored when no bracket is open, so the count never
     * goes below zero; otherwise commits the pending text, records `)` and
     * counts one bracket closed.
     */
    method CloseParen()
      requires Valid()
      modifies this
      ensures Valid()
      ensures old(parenCount) == 0 ==>
        currentInput == old(currentInput) && history == old(history) &&
        clearOnNextDigit == old(clearOnNextDigit) && parenCount == 0
      ensures old(parenCount) > 0 ==>
        && history == old(history) + (if old(currentInput) != "" then [old(currentInput)] else []) + [")"]
        && parenCount == old(parenCount) - 1
        && currentInput == "" && !clearOnNextDigit
    {
      if parenCount > 0 {
        if currentInput != "" {
          history := history + [currentInput];
        }
        history := history + [")"];
        parenCount := parenCount - 1;
        currentInput := "";
        clearOnNextDigit := false;
      }
    }

    /** The sign key: toggles a leading `-` on the typed text; nothing else changes. */
    method ToggleSign()
      requires Valid()
      modifies this`currentInput
      ensures Valid()
      ensures currentInput == ToggledSign(old(currentInput))
    {
      if currentInput != "0" && currentInput != "" {
        if currentInput[0] == '-' {
          currentInput := currentInput[1..];
        } else {
          currentInput := "-" + currentInput;
        }
      }
    }

    /**
     * The percent key: divides the typed number by 100 in place, the
     * result shown by `render`; text that is not a number becomes "NaN".
     * Leaves "" and "0" alone.
     */
    method Percent(render: real -> string)
      requires Valid()
      modifies this`currentInput
      ensures Valid()
      ensures old(currentInput) == "" || old(currentInput) == "0" ==> currentInput == old(currentInput)
      ensures old(currentInput) != "" && old(currentInput) != "0" ==>
        currentInput == if IsNumeric(old(currentInput)) then render(Value(old(currentInput)) / 100.0) else "NaN"
    {
      if currentInput != "" && currentInput != "0" {
        currentInput := if IsNumeric(currentInput) then render(Value(currentInput) / 100.0) else "NaN";
      }
    }

    /**
     * The `=` key. Commits the typed number, closes every open bracket,
     * converts to postfix and evaluates. Whatever happens it ends in the
     * reset state; on success the input holds the rendered result, on
     * failure "0" while "Error" is shown.
     */
    method Calculate(render: real -> string) returns (shown: string)
      requires Valid()
      modifies this
      ensures Valid()
      ensures history == [] && parenCount == 0 && clearOnNextDigit
      ensures var r := Evaluate(Committed(old(currentInput), old(history), old(parenCount)));
        && (r.Ok? ==> currentInput == render(r.value) && shown == currentInput)
        && (r.Err? ==> currentInput == "0" && shown == "Error")
    {
      ghost var committed := Committed(currentInput, history, parenCount);
      if IsNumeric(currentInput) {
        history := history + [currentInput];
      }
      var closed := CloseAll(history, parenCount);
      assert closed == committed;
      var queue := ToPostfix(closed);
      var result: Result<real>;
      if queue.Ok? {
        result := EvaluatePostfix(queue.value);
      } else {
        result := Err(queue.error);
      }
      if result.Ok? {
        currentInput := render(result.value);
        shown := currentInput;
      } else {
        shown := "Error";
        currentInput := "0";
      }
      history := [];
      parenCount := 0;
      clearOnNextDigit := true;
    }
  }
}
