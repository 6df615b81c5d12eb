/**
 * Dijkstra's shunting-yard conversion of the committed tokens into a
 * postfix queue, as the first half of `calculate` does it: numbers go
 * straight to the output, `(` waits on the operator stack, `)` pops back
 * to its `(`, and an operator first pops every stacked token that binds at
 * least as tightly.
 *
 * The functions below give the conversion one token at a time; the method
 * ToPostfix runs the loops over a stack and an output queue and is proved
 * to agree with them.
 */
module ShuntingYard {
  import opened Tokens

  /** The output queue and the operator stack (top at the end). */
  datatype State = State(output: seq<string>, stack: seq<string>)

  /** Pops to the output while the top of the stack has precedence at least `p`. */
  function PopWhileBinding(st: State, p: nat): State
    decreases |st.stack|
  {
    if st.stack != [] && Precedence(Last(st.stack)) >= p then
      PopWhileBinding(State(st.output + [Last(st.stack)], Init(st.stack)), p)
    else
      st
  }

  /** Pops to the output until a `(` is on top or the stack is empty. */
  function PopToOpen(st: State): State
    decreases |st.stack|
  {
    if st.stack != [] && Last(st.stack) != "(" then
      PopToOpen(State(st.output + [Last(st.stack)], Init(st.stack)))
    else
      st
  }

  /** Popping the top of `s` and then down to height `k` outputs `s[k..]` top first. */
  lemma PoppedSegment(s: seq<string>, k: nat)
    requires k < |s|
    ensures s[k..] == Init(s)[k..] + [Last(s)]
    ensures Reverse(s[k..]) == [Last(s)] + Reverse(Init(s)[k..])
  {
    assert s[k..] == Init(s)[k..] + [Last(s)];
  }

  /**
   * Popping the top of `st` and then reaching `r` from there leaves a
   * prefix of the stack and outputs the rest of it top first.
   */
  lemma PopStep(st: State, r: State)
    requires st.stack != []
    requires var next := State(st.output + [Last(st.stack)], Init(st.stack));
      && |r.stack| <= |next.stack| && r.stack == next.stack[..|r.stack|]
      && r.output == next.output + Reverse(next.stack[|r.stack|..])
    ensures |r.stack| <= |st.stack| && r.stack == st.stack[..|r.stack|]
    ensures r.output == st.output + Reverse(st.stack[|r.stack|..])
  {
    PoppedSegment(st.stack, |r.stack|);
    assert st.output + [Last(st.stack)] + Reverse(Init(st.stack)[|r.stack|..])
        == st.output + ([Last(st.stack)] + Reverse(Init(st.stack)[|r.stack|..]));
  }

  /**
   * An operator pops exactly the run of stacked tokens that bind at least
   * as tightly as it does, top first; what stays has a weaker top.
   */
  lemma PopWhileBindingSpec(st: State, p: nat)
    ensures var r := PopWhileBinding(st, p);
      && |r.stack| <= |st.stack| && r.stack == st.stack[..|r.stack|]
      && r.output == st.output + Reverse(st.stack[|r.stack|..])
      && (forall i :: |r.stack| <= i < |st.stack| ==> Precedence(st.stack[i]) >= p)
      && (r.stack != [] ==> Precedence(Last(r.stack)) < p)
  {
    PopWhileBindingShape(st, p);
    PopWhileBindingPopped(st, p);
  }

  /** The stack left is a prefix, the popped rest goes to the output top first, and the new top binds weaker. */
  lemma {:induction false} PopWhileBindingShape(st: State, p: nat)
    ensures var r := PopWhileBinding(st, p);
      && |r.stack| <= |st.stack| && r.stack == st.stack[..|r.stack|]
      && r.output == st.output + Reverse(st.stack[|r.stack|..])
      && (r.stack != [] ==> Precedence(Last(r.stack)) < p)
    decreases |st.stack|
  {
    if st.stack != [] && Precedence(Last(st.stack)) >= p {
      var next := State(st.output + [Last(st.stack)], Init(st.stack));
      PopWhileBindingShape(next, p);
      PopStep(st, PopWhileBinding(next, p));
    }
  }

  /** Every popped token binds at least as tightly as `p`. */
  lemma {:induction false} PopWhileBindingPopped(st: State, p: nat)
    ensures |PopWhileBinding(st, p).stack| <= |st.stack|
    ensures forall i :: |PopWhileBinding(st, p).stack| <= i < |st.stack| ==> Precedence(st.stack[i]) >= p
    decreases |st.stack|
  {
    if st.stack != [] && Precedence(Last(st.stack)) >= p {
      var next := State(st.output + [Last(st.stack)], Init(st.stack));
      PopWhileBindingPopped(next, p);
      var k := |PopWhileBinding(next, p).stack|;
      forall i | k <= i < |st.stack|
        ensures Precedence(st.stack[i]) >= p
      {
        if i < |st.stack| - 1 {
          assert st.stack[i] == next.stack[i];
        }
      }
    }
  }

  /** A `)` pops exactly the tokens above the nearest `(`, top first. */
  lemma {:induction false} PopToOpenSpec(st: State)
    ensures var r := PopToOpen(st);
      && |r.stack| <= |st.stack| && r.stack == st.stack[..|r.stack|]
      && r.output == st.output + Reverse(st.stack[|r.stack|..])
      && (forall i :: |r.stack| <= i < |st.stack| ==> st.stack[i] != "(")
      && (r.stack != [] ==> Last(r.stack) == "(")
    decreases |st.stack|
  {
    if st.stack != [] && Last(st.stack) != "(" {
      var next := State(st.output + [Last(st.stack)], Init(st.stack));
      PopToOpenSpec(next);
      var r := PopToOpen(next);
      PopStep(st, r);
      forall i | |r.stack| <= i < |st.stack|
        ensures st.stack[i] != "("
      {
        if i < |st.stack| - 1 {
          assert st.stack[i] == next.stack[i];
        }
      }
    }
  }

  /** What one token does to the state; a `)` with no `(` below it fails. */
  function Step(st: State, token: string): Result<State> {
    if IsNumeric(token) then Ok(State(st.output + [token], st.stack))
    else if token == "(" then Ok(State(st.output, st.stack + [token]))
    else if token == ")" then
      var r := PopToOpen(st);
      if r.stack == [] then Err(MismatchedParenthesis) else Ok(State(r.output, Init(r.stack)))
    else
      var r := PopWhileBinding(st, Precedence(token));
      Ok(State(r.output, r.stack + [token]))
  }

  /** The state after the tokens `ts`, read left to right; the first failure sticks. */
  function Scan(ts: seq<string>): Result<State> {
    if ts == [] then Ok(State([], []))
    else
      match Scan(Init(ts))
      case Ok(st) => Step(st, Last(ts))
      case Err(e) => Err(e)
  }

  /** Moves what is left on the stack to the output; a `(` left there fails. */
  function Drain(st: State): (r: Result<seq<string>>)
    ensures r.Ok? <==> "(" !in st.stack
    ensures r.Err? ==> r.error == MismatchedParenthesis
    ensures r.Ok? ==> r.value == st.output + Reverse(st.stack)
    decreases |st.stack|
  {
    if st.stack == [] then Ok(st.output)
    else if Last(st.stack) == "(" then Err(MismatchedParenthesis)
    else
      var r := Drain(State(st.output + [Last(st.stack)], Init(st.stack)));
      assert st.stack == Init(st.stack) + [Last(st.stack)];
      r
  }

  /** The postfix queue of an infix token list. */
  function Postfix(ts: seq<string>): Result<seq<string>> {
    match Scan(ts)
    case Ok(st) => Drain(st)
    case Err(e) => Err(e)
  }

  lemma ScanSnoc(ts: seq<string>, t: string)
    ensures Scan(ts + [t]) == match Scan(ts) case Ok(st) => Step(st, t) case Err(e) => Err(e)
  {
    assert Init(ts + [t]) == ts;
  }

  lemma {:induction false} ScanFailureSticks(ts: seq<string>, k: nat)
    requires k <= |ts| && Scan(ts[..k]).Err?
    ensures Scan(ts) == Scan(ts[..k])
    decreases |ts| - k
  {
    if k < |ts| {
      assert Init(ts[..k + 1]) == ts[..k];
      ScanFailureSticks(ts, k + 1);
    } else {
      assert ts[..k] == ts;
    }
  }
  /** A number after a scanned prefix goes straight to the output. */
  lemma ScanNumber(ts: seq<string>, st: State, x: string)
    requires Scan(ts) == Ok(st) && IsNumeric(x)
    ensures Scan(ts + [x]) == Ok(State(st.output + [x], st.stack))
  {
    ScanSnoc(ts, x);
  }

  /** A `(` after a scanned prefix is pushed. */
  lemma ScanOpen(ts: seq<string>, st: State)
    requires Scan(ts) == Ok(st)
    ensures Scan(ts + ["("]) == Ok(State(st.output, st.stack + ["("]))
  {
    assert !IsNumeric("(");
    ScanSnoc(ts, "(");
  }

  /** An operator after a scanned prefix pops what binds at least as tightly, then waits. */
  lemma ScanOperator(ts: seq<string>, st: State, op: string)
    requires Scan(ts) == Ok(st) && IsOperator(op)
    ensures var r := PopWhileBinding(st, Precedence(op));
      Scan(ts + [op]) == Ok(State(r.output, r.stack + [op]))
  {
    OperatorIsNoNumber(op);
    ScanSnoc(ts, op);
  }

  /** An operator above a weaker top, or an empty stack, pops nothing and waits. */
  lemma ScanOperatorWaits(ts: seq<string>, st: State, op: string)
    requires Scan(ts) == Ok(st) && IsOperator(op)
    requires st.stack == [] || Precedence(Last(st.stack)) < Precedence(op)
    ensures Scan(ts + [op]) == Ok(State(st.output, st.stack + [op]))
  {
    ScanOperator(ts, st, op);
  }

  /** An operator pops a single waiting operator that binds at least as tightly, then waits. */
  lemma ScanOperatorPopsOne(ts: seq<string>, output: seq<string>, top: string, op: string)
    requires Scan(ts) == Ok(State(output, [top])) && IsOperator(op)
    requires Precedence(top) >= Precedence(op)
    ensures Scan(ts + [op]) == Ok(State(output + [top], [op]))
  {
    ScanOperator(ts, State(output, [top]), op);
    PopOne(output, top, Precedence(op));
    assert [] + [op] == [op];
  }

  /** A `)` after a scanned prefix with a `(` waiting pops down to it and drops it. */
  lemma ScanClose(ts: seq<string>, st: State)
    requires Scan(ts) == Ok(st) && PopToOpen(st).stack != []
    ensures Scan(ts + [")"]) == Ok(State(PopToOpen(st).output, Init(PopToOpen(st).stack)))
  {
    assert !IsNumeric(")");
    ScanSnoc(ts, ")");
  }

  /** `)` over one operator above a `(` outputs the operator and removes the `(`. */
  lemma ScanCloseOne(ts: seq<string>, output: seq<string>, below: seq<string>, op: string)
    requires Scan(ts) == Ok(State(output, below + ["(", op])) && op != "("
    ensures Scan(ts + [")"]) == Ok(State(output + [op], below))
  {
    PopToOpenTop(output, below, op);
    ScanClose(ts, State(output, below + ["(", op]));
    assert Init(below + ["("]) == below;
  }

  /** `)` over a single operator and no `(` fails with a bracket mismatch. */
  lemma ScanCloseUnopened(ts: seq<string>, output: seq<string>, op: string)
    requires Scan(ts) == Ok(State(output, [op])) && op != "("
    ensures Scan(ts + [")"]) == Err(MismatchedParenthesis)
  {
    assert PopToOpen(State(output, [op])) == State(output + [op], []) by {
      assert Init([op]) == [];
    }
    ScanSnoc(ts, ")");
  }

  /** One waiting token that binds at least as tightly is popped. */
  lemma PopOne(output: seq<string>, op: string, p: nat)
    requires Precedence(op) >= p
    ensures PopWhileBinding(State(output, [op]), p) == State(output + [op], [])
  {
    assert Init([op]) == [];
  }

  /** Draining one waiting operator moves it to the output. */
  lemma DrainOne(output: seq<string>, op: string)
    requires IsOperator(op)
    ensures Drain(State(output, [op])) == Ok(output + [op])
  {
    assert Reverse([op]) == [op];
  }

  /** Draining two waiting operators outputs the upper one first. */
  lemma DrainTwo(output: seq<string>, lower: string, upper: string)
    requires IsOperator(lower) && IsOperator(upper)
    ensures Drain(State(output, [lower, upper])) == Ok(output + [upper, lower])
  {
    assert Reverse([lower, upper]) == [upper, lower];
  }
  /** `)` pops the one operator above a `(`, whatever waits below it. */
  lemma PopToOpenTop(output: seq<string>, below: seq<string>, op: string)
    requires op != "("
    ensures PopToOpen(State(output, below + ["(", op])) == State(output + [op], below + ["("])
  {
    assert Init(below + ["(", op]) == below + ["("];
  }

  /** The loop that pops down to a `(` on a `)` token. */
  method PopToOpenLoop(output0: seq<string>, stack0: seq<string>) returns (output: seq<string>, stack: seq<string>)
    ensures State(output, stack) == PopToOpen(State(output0, stack0))
  {
    output, stack := output0, stack0;
    while stack != [] && Last(stack) != "("
      invariant PopToOpen(State(output, stack)) == PopToOpen(State(output0, stack0))
      decreases |stack|
    {
      output := output + [Last(stack)];
      stack := Init(stack);
    }
  }

  /** The loop that pops what binds at least as tightly as an incoming operator. */
  method PopWhileBindingLoop(output0: seq<string>, stack0: seq<string>, p: nat) returns (output: seq<string>, stack: seq<string>)
    ensures State(output, stack) == PopWhileBinding(State(output0, stack0), p)
  {
    output, stack := output0, stack0;
    while stack != [] && Precedence(Last(stack)) >= p
      invariant PopWhileBinding(State(output, stack), p) == PopWhileBinding(State(output0, stack0), p)
      decreases |stack|
    {
      output := output + [Last(stack)];
      stack := Init(stack);
    }
  }

  /** The loop that empties the stack once every token is read. */
  method DrainLoop(output0: seq<string>, stack0: seq<string>) returns (r: Result<seq<string>>)
    ensures r == Drain(State(output0, stack0))
  {
    var output, stack := output0, stack0;
    while stack != []
      invariant Drain(State(output, stack)) == Drain(State(output0, stack0))
      decreases |stack|
    {
      if Last(stack) == "(" {
        return Err(MismatchedParenthesis);
      }
      output := output + [Last(stack)];
      stack := Init(stack);
    }
    r := Ok(output);
  }

  /** The conversion loop of `calculate`, on a stack and a queue held as sequences. */
  method ToPostfix(ts: seq<string>) returns (r: Result<seq<string>>)
    ensures r == Postfix(ts)
  {
    var output: seq<string> := [];
    var stack: seq<string> := [];
    var i := 0;
    while i < |ts|
      invariant 0 <= i <= |ts|
      invariant Scan(ts[..i]) == Ok(State(output, stack))
    {
      var token := ts[i];
      assert Init(ts[..i + 1]) == ts[..i] && Last(ts[..i + 1]) == token;
      if IsNumeric(token) {
        output := output + [token];
      } else if token == "(" {
        stack := stack + [token];
      } else if token == ")" {
        output, stack := PopToOpenLoop(output, stack);
        if stack == [] {
          ScanFailureSticks(ts, i + 1);
          return Err(MismatchedParenthesis);
        }
        stack := Init(stack);
      } else {
        output, stack := PopWhileBindingLoop(output, stack, Precedence(token));
        stack := stack + [token];
      }
      i := i + 1;
    }
    assert ts[..i] == ts;
    r := DrainLoop(output, stack);
  }

  lemma ReverseHasSameElements(s: seq<string>)
    ensures forall x :: x in Reverse(s) <==> x in s
  {
    ReverseAt(s);
    forall x | x in s ensures x in Reverse(s) {
      var i :| 0 <= i < |s| && s[i] == x;
      assert Reverse(s)[|s| - 1 - i] == x;
    }
  }

  /**
   * The stack only ever holds non-numbers other than `)`, and the output
   * holds the numbers read so far, in their original order.
   */
  lemma {:induction false} ScanKeepsNumbers(ts: seq<string>)
    requires Scan(ts).Ok?
    ensures Numbers(Scan(ts).value.output) == Numbers(ts)
    ensures forall x :: x in Scan(ts).value.stack ==> !IsNumeric(x) && x != ")"
    decreases |ts|
  {
    if ts != [] {
      assert Scan(Init(ts)).Ok?;
      ScanKeepsNumbers(Init(ts));
      StepKeepsNumbers(Scan(Init(ts)).value, Last(ts));
    }
  }

  /** One step outputs the token if it is a number, and otherwise only tokens that are not. */
  lemma StepKeepsNumbers(st: State, tok: string)
    requires Step(st, tok).Ok?
    requires forall x :: x in st.stack ==> !IsNumeric(x) && x != ")"
    ensures Numbers(Step(st, tok).value.output) == Numbers(st.output) + (if IsNumeric(tok) then [tok] else [])
    ensures forall x :: x in Step(st, tok).value.stack ==> !IsNumeric(x) && x != ")"
  {
    if IsNumeric(tok) {
      assert Init(st.output + [tok]) == st.output;
    } else if tok == ")" {
      CloseKeepsNumbers(st);
    } else if tok != "(" {
      PushKeepsNumbers(st, tok);
    }
  }

  lemma CloseKeepsNumbers(st: State)
    requires Step(st, ")").Ok?
    requires forall x :: x in st.stack ==> !IsNumeric(x) && x != ")"
    ensures Numbers(Step(st, ")").value.output) == Numbers(st.output)
    ensures forall x :: x in Step(st, ")").value.stack ==> !IsNumeric(x) && x != ")"
  {
    PopToOpenSpec(st);
    var r := PopToOpen(st);
    PoppedNumbers(st.output, st.stack[|r.stack|..]);
    assert forall x :: x in Init(r.stack) ==> x in st.stack;
  }

  lemma PushKeepsNumbers(st: State, tok: string)
    requires !IsNumeric(tok) && tok != "(" && tok != ")"
    requires forall x :: x in st.stack ==> !IsNumeric(x) && x != ")"
    ensures Numbers(Step(st, tok).value.output) == Numbers(st.output)
    ensures forall x :: x in Step(st, tok).value.stack ==> !IsNumeric(x) && x != ")"
  {
    PopWhileBindingSpec(st, Precedence(tok));
    var r := PopWhileBinding(st, Precedence(tok));
    PoppedNumbers(st.output, st.stack[|r.stack|..]);
  }

  /** Popping tokens that are not numbers leaves the numbers of the output alone. */
  lemma PoppedNumbers(output: seq<string>, popped: seq<string>)
    requires forall x :: x in popped ==> !IsNumeric(x)
    ensures Numbers(output + Reverse(popped)) == Numbers(output)
  {
    ReverseHasSameElements(popped);
    NumbersAppend(output, Reverse(popped));
    NumbersOfNonNumeric(Reverse(popped));
  }

  /** Conversion never drops, adds or reorders a number. */
  lemma PostfixKeepsNumbers(ts: seq<string>)
    requires Postfix(ts).Ok?
    ensures Numbers(Postfix(ts).value) == Numbers(ts)
  {
    ScanKeepsNumbers(ts);
    var st := Scan(ts).value;
    ReverseHasSameElements(st.stack);
    NumbersAppend(st.output, Reverse(st.stack));
    NumbersOfNonNumeric(Reverse(st.stack));
  }

  /** The stack holds only `(` and operators; the output holds no bracket. */
  ghost predicate BracketFree(st: State) {
    && (forall x :: x in st.stack ==> x == "(" || IsOperator(x))
    && "(" !in st.output && ")" !in st.output
  }

  /** Tokens above the nearest `(`, on a stack without `)`, add nothing to its balance. */
  lemma PoppedAboveOpen(stack: seq<string>, k: nat)
    requires k <= |stack| && ")" !in stack
    requires forall i :: k <= i < |stack| ==> stack[i] != "("
    ensures Balance(stack[..k]) == Balance(stack)
    ensures forall x :: x in stack[k..] ==> x != "(" && x != ")"
  {
    var popped := stack[k..];
    assert stack == stack[..k] + popped;
    assert forall x :: x in popped ==> x in stack && x != "(";
    BalanceWithoutClose(popped);
    BalanceAppend(stack[..k], popped);
  }

  /** Popping down to a `(` keeps the count of waiting `(` and adds no bracket to the output. */
  lemma PopToOpenBrackets(st: State)
    requires BracketFree(st)
    ensures BracketFree(PopToOpen(st))
    ensures Balance(PopToOpen(st).stack) == Balance(st.stack)
  {
    PopToOpenSpec(st);
    var r := PopToOpen(st);
    assert ")" !in st.stack;
    PoppedAboveOpen(st.stack, |r.stack|);
    ReverseHasSameElements(st.stack[|r.stack|..]);
    assert forall x :: x in r.stack ==> x in st.stack;
  }

  /** Removing a `(` from the top of a bracket-free stack. */
  lemma DropOpen(st: State)
    requires BracketFree(st) && st.stack != [] && Last(st.stack) == "("
    ensures BracketFree(State(st.output, Init(st.stack)))
    ensures Balance(Init(st.stack)) == Balance(st.stack) - 1
    ensures Balance(st.stack) >= 1
  {
    var rest := Init(st.stack);
    assert st.stack == rest + ["("];
    assert forall x :: x in rest ==> x in st.stack;
    assert ")" !in st.stack;
    BalanceWithoutClose(rest);
    BalanceAppend(rest, ["("]);
    assert Balance(["("]) == 1;
  }

  /** A `)` fails exactly when no `(` is waiting, and otherwise removes one. */
  lemma CloseBrackets(st: State)
    requires BracketFree(st)
    ensures Step(st, ")").Err? <==> Balance(st.stack) == 0
    ensures Step(st, ")").Ok? ==>
      BracketFree(Step(st, ")").value) && Balance(Step(st, ")").value.stack) == Balance(st.stack) - 1
  {
    assert !IsNumeric(")");
    PopToOpenSpec(st);
    PopToOpenBrackets(st);
    var r := PopToOpen(st);
    if r.stack != [] {
      DropOpen(r);
    }
  }

  /** An operator never fails and leaves the count of waiting `(` alone. */
  lemma OperatorBrackets(st: State, tok: string)
    requires BracketFree(st) && IsOperator(tok)
    ensures Step(st, tok).Ok?
    ensures BracketFree(Step(st, tok).value) && Balance(Step(st, tok).value.stack) == Balance(st.stack)
  {
    assert !IsNumeric(tok);
    PopBindingBrackets(st, Precedence(tok));
    var r := PopWhileBinding(st, Precedence(tok));
    assert Init(r.stack + [tok]) == r.stack;
  }

  /** Popping operators moves no bracket and leaves the bracket count of the stack alone. */
  lemma PopBindingBrackets(st: State, p: nat)
    requires BracketFree(st) && p >= 2
    ensures BracketFree(PopWhileBinding(st, p))
    ensures Balance(PopWhileBinding(st, p).stack) == Balance(st.stack)
  {
    PopBindingPopsOperators(st, p);
    var r := PopWhileBinding(st, p);
    var popped := st.stack[|r.stack|..];
    BalanceWithoutClose(popped);
    BalanceAppend(r.stack, popped);
    ReverseHasSameElements(popped);
  }

  /** With `p` at least the precedence of `+`, only operators are popped. */
  lemma PopBindingPopsOperators(st: State, p: nat)
    requires p >= 2
    ensures var r := PopWhileBinding(st, p);
      && |r.stack| <= |st.stack|
      && st.stack == r.stack + st.stack[|r.stack|..]
      && r.output == st.output + Reverse(st.stack[|r.stack|..])
      && forall x :: x in st.stack[|r.stack|..] ==> IsOperator(x)
  {
    PopWhileBindingSpec(st, p);
    var r := PopWhileBinding(st, p);
    var popped := st.stack[|r.stack|..];
    forall x | x in popped ensures IsOperator(x) {
      var i :| 0 <= i < |popped| && popped[i] == x;
      assert Precedence(st.stack[|r.stack| + i]) >= p;
    }
  }

  /**
   * On a well-formed token, a step fails exactly on a `)` with no `(`
   * waiting, and otherwise moves the count of waiting `(` by the token's
   * bracket weight.
   */
  lemma StepBrackets(st: State, tok: string)
    requires BracketFree(st)
    requires IsNumeric(tok) || tok == "(" || tok == ")" || IsOperator(tok)
    ensures Step(st, tok).Err? <==> tok == ")" && Balance(st.stack) == 0
    ensures Step(st, tok).Ok? ==>
      && BracketFree(Step(st, tok).value)
      && Balance(Step(st, tok).value.stack) == Balance(st.stack) + BracketDelta(tok)
  {
    if IsNumeric(tok) {
      assert tok != "(" && tok != ")";
    } else if tok == "(" {
      BalanceAppend(st.stack, [tok]);
      assert Balance([tok]) == 1;
    } else if tok == ")" {
      CloseBrackets(st);
    } else {
      OperatorBrackets(st, tok);
    }
  }

  /**
   * When every token is a number, a bracket or a binary operator, the scan
   * fails exactly when some prefix closes more brackets than it opened;
   * otherwise the stack holds one `(` per bracket still open and the
   * output holds no bracket.
   */
  lemma {:induction false} ScanBrackets(ts: seq<string>)
    requires WellFormedOps(ts)
    ensures Scan(ts).Ok? <==> NeverOverClosed(ts)
    ensures Scan(ts).Ok? ==> BracketFree(Scan(ts).value) && Balance(Scan(ts).value.stack) == Balance(ts)
    decreases |ts|
  {
    if ts == [] {
      assert forall i :: 0 <= i <= |ts| ==> ts[..i] == [];
    } else {
      var pre := Init(ts);
      assert WellFormedOps(pre) by {
        assert forall i :: 0 <= i < |pre| ==> pre[i] == ts[i];
      }
      ScanBrackets(pre);
      ScanBracketsStep(ts);
    }
  }

  /** The inductive step of ScanBrackets: the last token, given the claim for the tokens before it. */
  lemma ScanBracketsStep(ts: seq<string>)
    requires ts != [] && WellFormedOps(ts)
    requires Scan(Init(ts)).Ok? <==> NeverOverClosed(Init(ts))
    requires Scan(Init(ts)).Ok? ==>
      BracketFree(Scan(Init(ts)).value) && Balance(Scan(Init(ts)).value.stack) == Balance(Init(ts))
    ensures Scan(ts).Ok? <==> NeverOverClosed(ts)
    ensures Scan(ts).Ok? ==> BracketFree(Scan(ts).value) && Balance(Scan(ts).value.stack) == Balance(ts)
  {
    var tok := Last(ts);
    var pre := Init(ts);
    assert tok == ts[|ts| - 1];
    NeverOverClosedInit(ts);
    if Scan(pre).Ok? {
      var st := Scan(pre).value;
      StepBrackets(st, tok);
      if Scan(ts).Ok? {
        assert ")" !in Scan(ts).value.stack;
        BalanceWithoutClose(Scan(ts).value.stack);
      }
    }
  }

  /**
   * When every token is a number, a bracket or a binary operator,
   * conversion succeeds exactly when the brackets match, and its queue
   * then holds no bracket.
   */
  lemma PostfixMatchesBrackets(ts: seq<string>)
    requires WellFormedOps(ts)
    ensures Postfix(ts).Ok? <==> Balanced(ts)
    ensures Postfix(ts).Ok? ==> "(" !in Postfix(ts).value && ")" !in Postfix(ts).value
    ensures Postfix(ts).Err? ==> Postfix(ts).error == MismatchedParenthesis
  {
    ScanBrackets(ts);
    if Scan(ts).Ok? {
      var st := Scan(ts).value;
      assert ")" !in st.stack;
      BalanceWithoutClose(st.stack);
      ReverseHasSameElements(st.stack);
    } else {
      assert Scan(ts).error == MismatchedParenthesis by {
        ScanFailsOnlyOnBrackets(ts);
      }
    }
  }

  lemma {:induction false} ScanFailsOnlyOnBrackets(ts: seq<string>)
    requires Scan(ts).Err?
    ensures Scan(ts).error == MismatchedParenthesis
    decreases |ts|
  {
    if Scan(Init(ts)).Err? {
      ScanFailsOnlyOnBrackets(Init(ts));
    }
  }
}
