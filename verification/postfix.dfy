/**
 * Evaluation of the postfix queue with a value stack, as the second half
 * of `calculate` does it: a number is pushed; any other token pops the
 * right operand, then the left one, and pushes the result of `Operate`.
 * The queue is well formed when every operator finds two values and
 * exactly one value is left at the end.
 */
module PostfixEval {
  import opened Tokens

  /** What one queue token does to the value stack (top at the end). */
  function Apply(st: seq<real>, token: string): (r: Result<seq<real>>)
    ensures r.Err? <==> !IsNumeric(token) && (|st| < 2 || (token == "÷" && st[|st| - 1] == 0.0))
    ensures r.Err? ==> r.error == (if |st| < 2 then InvalidStructure else DivByZero)
    ensures r.Ok? ==> |r.value| == |st| + (if IsNumeric(token) then 1 else -1)
    ensures r.Ok? ==> r.value[..|st| - (if IsNumeric(token) then 0 else 2)] == st[..|st| - (if IsNumeric(token) then 0 else 2)]
  {
    if IsNumeric(token) then Ok(st + [Value(token)])
    else if |st| < 2 then Err(InvalidStructure)
    else
      match Operate(st[|st| - 2], token, st[|st| - 1])
      case Ok(v) => Ok(st[..|st| - 2] + [v])
      case Err(e) => Err(e)
  }

  /** The value stack after the queue `q`; the first failure sticks. */
  function Run(q: seq<string>): Result<seq<real>> {
    if q == [] then Ok([])
    else
      match Run(Init(q))
      case Ok(st) => Apply(st, Last(q))
      case Err(e) => Err(e)
  }

  /** The single value the queue reduces to. */
  function EvalPostfix(q: seq<string>): Result<real> {
    match Run(q)
    case Ok(st) => if |st| != 1 then Err(InvalidFinal) else Ok(st[0])
    case Err(e) => Err(e)
  }

  /** Numbers pushed minus operators applied: the stack height the queue should leave. */
  function Height(q: seq<string>): int {
    if q == [] then 0 else Height(Init(q)) + (if IsNumeric(Last(q)) then 1 else -1)
  }

  /** Every operator of `q` comes after at least two values are on the stack. */
  ghost predicate OperandsAvailable(q: seq<string>) {
    forall i :: 0 <= i < |q| && !IsNumeric(q[i]) ==> Height(q[..i]) >= 2
  }

  /** A queue that reduces to exactly one value, whatever its numbers are. */
  ghost predicate WellShaped(q: seq<string>) {
    OperandsAvailable(q) && Height(q) == 1
  }

  lemma OperandsAvailableInit(q: seq<string>)
    requires q != []
    ensures OperandsAvailable(q) <==>
      OperandsAvailable(Init(q)) && (!IsNumeric(Last(q)) ==> Height(Init(q)) >= 2)
  {
    assert forall i :: 0 <= i < |Init(q)| ==> q[i] == Init(q)[i] && q[..i] == Init(q)[..i];
    assert q[..|q| - 1] == Init(q);
  }

  lemma RunSnoc(q: seq<string>, t: string)
    ensures Run(q + [t]) == match Run(q) case Ok(st) => Apply(st, t) case Err(e) => Err(e)
  {
    assert Init(q + [t]) == q;
  }

  lemma {:induction false} RunFailureSticks(q: seq<string>, k: nat)
    requires k <= |q| && Run(q[..k]).Err?
    ensures Run(q) == Run(q[..k])
    decreases |q| - k
  {
    if k < |q| {
      assert Init(q[..k + 1]) == q[..k];
      RunFailureSticks(q, k + 1);
    } else {
      assert q[..k] == q;
    }
  }
  /** A number after a run pushes its value. */
  lemma RunNumber(q: seq<string>, st: seq<real>, x: string)
    requires Run(q) == Ok(st) && IsNumeric(x)
    ensures Run(q + [x]) == Ok(st + [Value(x)])
  {
    RunSnoc(q, x);
  }

  /** An operator after a run combines the top two values. */
  lemma RunOperator(q: seq<string>, st: seq<real>, op: string)
    requires Run(q) == Ok(st) && |st| >= 2 && IsOperator(op)
    ensures Run(q + [op]) ==
      match Operate(st[|st| - 2], op, st[|st| - 1])
      case Ok(v) => Ok(st[..|st| - 2] + [v])
      case Err(e) => Err(e)
  {
    OperatorIsNoNumber(op);
    RunSnoc(q, op);
  }

  /** A successful run leaves `Height(q)` values, and every operator found its two operands. */
  lemma {:induction false} RunHeight(q: seq<string>)
    requires Run(q).Ok?
    ensures |Run(q).value| == Height(q)
    ensures OperandsAvailable(q)
    decreases |q|
  {
    if q != [] {
      assert Run(Init(q)).Ok?;
      RunHeight(Init(q));
      OperandsAvailableInit(q);
    }
  }

  /** When every operator finds its two operands, only a division by zero can fail. */
  lemma {:induction false} RunOnlyDividesByZero(q: seq<string>)
    requires OperandsAvailable(q)
    ensures Run(q).Ok? || Run(q) == Err(DivByZero)
    decreases |q|
  {
    if q != [] {
      OperandsAvailableInit(q);
      RunOnlyDividesByZero(Init(q));
      if Run(Init(q)).Ok? {
        RunHeight(Init(q));
      }
    }
  }

  /** The run itself fails only for a missing operand or a zero divisor. */
  lemma {:induction false} RunErrors(q: seq<string>)
    requires Run(q).Err?
    ensures Run(q).error == InvalidStructure || Run(q).error == DivByZero
    decreases |q|
  {
    if Run(Init(q)).Err? {
      RunErrors(Init(q));
    }
  }

  /** A division by zero needs a `÷` in the queue. */
  lemma {:induction false} DivByZeroNeedsDivision(q: seq<string>)
    requires Run(q) == Err(DivByZero)
    ensures "÷" in q
    decreases |q|
  {
    assert q != [];
    assert q == Init(q) + [Last(q)];
    if Run(Init(q)).Err? {
      DivByZeroNeedsDivision(Init(q));
    }
  }

  /**
   * Evaluation succeeds only on a well-shaped queue, and on a well-shaped
   * queue it fails only by dividing by zero; a structural failure says
   * which rule was broken.
   */
  lemma EvalPostfixShape(q: seq<string>)
    ensures EvalPostfix(q).Ok? ==> WellShaped(q)
    ensures WellShaped(q) ==> EvalPostfix(q).Ok? || EvalPostfix(q) == Err(DivByZero)
    ensures EvalPostfix(q) == Err(InvalidStructure) ==> !OperandsAvailable(q)
    ensures EvalPostfix(q) == Err(InvalidFinal) ==> OperandsAvailable(q) && Height(q) != 1
    ensures EvalPostfix(q) == Err(DivByZero) ==> "÷" in q
  {
    var run := Run(q);
    if run.Ok? {
      RunHeight(q);
      assert EvalPostfix(q) == if |run.value| != 1 then Err(InvalidFinal) else Ok(run.value[0]);
    } else {
      assert EvalPostfix(q) == Err(run.error);
      RunErrors(q);
      if OperandsAvailable(q) {
        RunOnlyDividesByZero(q);
      }
      if run.error == DivByZero {
        DivByZeroNeedsDivision(q);
      }
    }
  }

  /** The evaluation loop of `calculate`, on a value stack held as a sequence. */
  method EvaluatePostfix(q: seq<string>) returns (r: Result<real>)
    ensures r == EvalPostfix(q)
  {
    var stack: seq<real> := [];
    var i := 0;
    while i < |q|
      invariant 0 <= i <= |q|
      invariant Run(q[..i]) == Ok(stack)
    {
      var token := q[i];
      assert Init(q[..i + 1]) == q[..i] && Last(q[..i + 1]) == token;
      if IsNumeric(token) {
        stack := stack + [Value(token)];
      } else {
        if |stack| < 2 {
          RunFailureSticks(q, i + 1);
          return Err(InvalidStructure);
        }
        var right := stack[|stack| - 1];
        var left := stack[|stack| - 2];
        stack := stack[..|stack| - 2];
        var v := Operate(left, token, right);
        if v.Err? {
          RunFailureSticks(q, i + 1);
          return Err(v.error);
        }
        stack := stack + [v.value];
      }
      i := i + 1;
    }
    assert q[..i] == q;
    if |stack| != 1 {
      return Err(InvalidFinal);
    }
    r := Ok(stack[0]);
  }
}
