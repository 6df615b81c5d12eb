/**
 * Tokens of the calculator's expression history and the arithmetic on them.
 *
 * The history holds text: typed numbers, the operator symbols `+ - × ÷ %`
 * and the brackets `(` `)`. Whether a piece of text is a number is decided
 * the way `parseFloat` does for the characters a user can type (an optional
 * sign, then a digit or a point followed by a digit); numbers are read as
 * exact reals.
 */
module Tokens {

  /** The four ways an evaluation can fail (the messages thrown by `calculate`). */
  datatype CalcError = DivByZero | MismatchedParenthesis | InvalidStructure | InvalidFinal

  datatype Result<T> = Ok(value: T) | Err(error: CalcError)

  function Last<T>(s: seq<T>): T
    requires |s| > 0
  {
    s[|s| - 1]
  }

  function Init<T>(s: seq<T>): seq<T>
    requires |s| > 0
  {
    s[..|s| - 1]
  }

  /** The elements of `s` in reverse order: the order in which a stack pops them. */
  function Reverse<T>(s: seq<T>): (r: seq<T>)
    ensures |r| == |s|
  {
    if s == [] then [] else [Last(s)] + Reverse(Init(s))
  }

  /** Position `i` of the reversal holds position `|s| - 1 - i` of the original. */
  lemma {:induction false} ReverseAt<T>(s: seq<T>)
    ensures forall i :: 0 <= i < |s| ==> Reverse(s)[i] == s[|s| - 1 - i]
    decreases |s|
  {
    if s != [] {
      ReverseAt(Init(s));
    }
  }

  predicate IsDigit(c: char) {
    '0' <= c <= '9'
  }

  /** The text after one leading sign, as `parseFloat` skips it. */
  function Unsigned(s: string): string {
    if |s| > 0 && (s[0] == '+' || s[0] == '-') then s[1..] else s
  }

  /** `!isNaN(parseFloat(s))` for text made of signs, digits and points. */
  predicate IsNumeric(s: string) {
    var t := Unsigned(s);
    (|t| > 0 && IsDigit(t[0])) || (|t| > 1 && t[0] == '.' && IsDigit(t[1]))
  }

  /** Length of the longest prefix of `s` made of digits. */
  function DigitRun(s: string): (n: nat)
    ensures n <= |s|
    ensures forall i :: 0 <= i < n ==> IsDigit(s[i])
    ensures n < |s| ==> !IsDigit(s[n])
  {
    if s == [] || !IsDigit(s[0]) then 0 else 1 + DigitRun(s[1..])
  }

  function DigitsValue(ds: string): nat
    requires forall i :: 0 <= i < |ds| ==> IsDigit(ds[i])
  {
    if ds == [] then 0
    else
      assert IsDigit(ds[|ds| - 1]);
      DigitsValue(Init(ds)) * 10 + (Last(ds) as int - '0' as int)
  }

  function Pow10(n: nat): (p: nat)
    ensures p >= 1
  {
    if n == 0 then 1 else 10 * Pow10(n - 1)
  }

  /** The unsigned decimal at the start of `t`: digits, then optionally a point and digits. */
  function Magnitude(t: string): (m: real)
    ensures m >= 0.0
  {
    var k := DigitRun(t);
    var whole := DigitsValue(t[..k]);
    var rest := t[k..];
    if |rest| > 0 && rest[0] == '.' then
      var f := rest[1..];
      var n := DigitRun(f);
      whole as real + DigitsValue(f[..n]) as real / Pow10(n) as real
    else
      whole as real
  }

  /** `parseFloat(s)` as an exact real: the sign, then the magnitude of what follows. */
  function Value(s: string): (r: real)
    ensures |s| > 0 && s[0] == '-' ==> r <= 0.0
    ensures !(|s| > 0 && s[0] == '-') ==> r >= 0.0
  {
    var m := Magnitude(Unsigned(s));
    if |s| > 0 && s[0] == '-' then -m else m
  }

  /** A single typed digit is a number worth that digit. */
  lemma DigitValue(c: char)
    requires IsDigit(c)
    ensures IsNumeric([c])
    ensures Value([c]) == (c as int - '0' as int) as real
  {
    assert Unsigned([c]) == [c];
    assert DigitRun([c]) == 1 by {
      assert DigitRun([c][1..]) == 0;
    }
    assert [c][..1] == [c] && [c][1..] == [];
    assert DigitsValue([c]) == c as int - '0' as int by {
      assert Init([c]) == [];
    }
  }

  /** How many decimal points the text holds. */
  function Points(s: string): nat {
    if s == [] then 0 else Points(Init(s)) + (if Last(s) == '.' then 1 else 0)
  }

  /** The text has no point exactly when it counts none. */
  lemma {:induction false} PointsAbsent(s: string)
    ensures '.' !in s <==> Points(s) == 0
    decreases |s|
  {
    if s != [] {
      assert s == Init(s) + [Last(s)];
      PointsAbsent(Init(s));
    }
  }

  /** The binary operators a button can produce. */
  predicate IsOperator(op: string) {
    op == "+" || op == "-" || op == "×" || op == "÷" || op == "%"
  }

  lemma OperatorIsNoNumber(op: string)
    requires IsOperator(op)
    ensures !IsNumeric(op) && op != "(" && op != ")"
  {
  }

  /**
   * Binding strength on the operator stack: `× ÷ %` bind tighter than
   * `+ -`, which bind tighter than a `(` waiting on the stack; anything
   * else is 0.
   */
  function Precedence(op: string): (p: nat)
    ensures p <= 3
    ensures p >= 2 <==> IsOperator(op)
    ensures p == 1 <==> op == "("
    ensures IsOperator(op) ==> (p == 3 <==> op != "+" && op != "-")
  {
    if op == "×" || op == "÷" || op == "%" then 3
    else if op == "+" || op == "-" then 2
    else if op == "(" then 1
    else 0
  }

  /**
   * One binary step. Division by an exact zero is the only failure; `%`
   * and every other symbol fall to the default case and yield the second
   * operand unchanged.
   */
  function Operate(a: real, op: string, b: real): (r: Result<real>)
    ensures r.Err? <==> op == "÷" && b == 0.0
    ensures r.Err? ==> r.error == DivByZero
    ensures r.Ok? && op == "+" ==> r.value - b == a
    ensures r.Ok? && op == "-" ==> r.value + b == a
    ensures r.Ok? && op == "×" ==> r.value == a * b
    ensures r.Ok? && op == "÷" ==> r.value * b == a
    ensures op != "+" && op != "-" && op != "×" && op != "÷" ==> r == Ok(b)
  {
    if op == "+" then Ok(a + b)
    else if op == "-" then Ok(a - b)
    else if op == "×" then Ok(a * b)
    else if op == "÷" then (if b == 0.0 then Err(DivByZero) else Ok(a / b))
    else Ok(b)
  }

  /** The numbers of a token list, in order. */
  function Numbers(ts: seq<string>): (r: seq<string>)
    ensures |r| <= |ts|
    ensures forall x :: x in r ==> IsNumeric(x) && x in ts
  {
    if ts == [] then []
    else Numbers(Init(ts)) + (if IsNumeric(Last(ts)) then [Last(ts)] else [])
  }

  lemma {:induction false} NumbersAppend(a: seq<string>, b: seq<string>)
    ensures Numbers(a + b) == Numbers(a) + Numbers(b)
    decreases |b|
  {
    if b == [] {
      assert a + b == a;
    } else {
      assert Init(a + b) == a + Init(b);
      NumbersAppend(a, Init(b));
    }
  }

  lemma {:induction false} NumbersOfNonNumeric(ts: seq<string>)
    requires forall x :: x in ts ==> !IsNumeric(x)
    ensures Numbers(ts) == []
    decreases |ts|
  {
    if ts != [] {
      assert forall x :: x in Init(ts) ==> x in ts;
      NumbersOfNonNumeric(Init(ts));
    }
  }

  /** Opening minus closing brackets in a token list. */
  function Balance(ts: seq<string>): int {
    if ts == [] then 0 else Balance(Init(ts)) + BracketDelta(Last(ts))
  }

  function BracketDelta(t: string): int {
    if t == "(" then 1 else if t == ")" then -1 else 0
  }

  lemma {:induction false} BalanceAppend(a: seq<string>, b: seq<string>)
    ensures Balance(a + b) == Balance(a) + Balance(b)
    decreases |b|
  {
    if b == [] {
      assert a + b == a;
    } else {
      assert Init(a + b) == a + Init(b);
      BalanceAppend(a, Init(b));
    }
  }

  /** Without a `)`, the balance counts the `(` tokens. */
  lemma {:induction false} BalanceWithoutClose(s: seq<string>)
    requires ")" !in s
    ensures Balance(s) >= 0
    ensures Balance(s) == 0 <==> "(" !in s
    decreases |s|
  {
    if s != [] {
      assert forall x :: x in Init(s) ==> x in s;
      assert s == Init(s) + [Last(s)];
      BalanceWithoutClose(Init(s));
    }
  }

  /** No prefix closes more brackets than it opened. */
  ghost predicate NeverOverClosed(ts: seq<string>) {
    forall i :: 0 <= i <= |ts| ==> Balance(ts[..i]) >= 0
  }

  /** No prefix closes more brackets than it opened, and all are closed at the end. */
  ghost predicate Balanced(ts: seq<string>) {
    NeverOverClosed(ts) && Balance(ts) == 0
  }

  lemma NeverOverClosedInit(ts: seq<string>)
    requires ts != []
    ensures NeverOverClosed(ts) <==> NeverOverClosed(Init(ts)) && Balance(ts) >= 0
  {
    assert ts[..|ts|] == ts;
    assert forall i :: 0 <= i <= |Init(ts)| ==> ts[..i] == Init(ts)[..i];
    if NeverOverClosed(Init(ts)) && Balance(ts) >= 0 {
      forall i | 0 <= i <= |ts| ensures Balance(ts[..i]) >= 0 {
        if i < |ts| {
          assert ts[..i] == Init(ts)[..i];
        }
      }
    }
  }

  /** Every token is a number, a bracket or a binary operator. */
  ghost predicate WellFormedOps(ts: seq<string>) {
    forall i :: 0 <= i < |ts| ==> IsNumeric(ts[i]) || ts[i] == "(" || ts[i] == ")" || IsOperator(ts[i])
  }

  /** The sign-toggle button: strips a leading `-` or adds one, leaving "0" and "" alone. */
  function ToggledSign(s: string): (r: string)
    ensures s == "0" || s == "" ==> r == s
    ensures s != "0" && s != "" ==> ("-" + r == s <==> s[0] == '-')
    ensures s != "0" && s != "" && s[0] != '-' ==> |r| == |s| + 1 && r[0] == '-' && r[1..] == s
  {
    if s == "0" || s == "" then s
    else if s[0] == '-' then s[1..]
    else
      assert ("-" + s)[1..] == s;
      "-" + s
  }

  /**
   * Toggling twice restores the text exactly when a leading `-` is not
   * followed by nothing, by a lone "0", or by another `-`.
   */
  lemma ToggleTwice(s: string)
    ensures ToggledSign(ToggledSign(s)) == s <==>
            !(|s| > 0 && s[0] == '-' && (s[1..] == "" || s[1..] == "0" || s[1] == '-'))
  {
    if |s| > 0 && s[0] == '-' && s != "-" && s[1..] != "0" && s[1] != '-' {
      assert ToggledSign(s) == s[1..];
      assert "-" + s[1..] == s;
    } else if |s| > 0 && s[0] == '-' && s != "-" && s[1..] != "0" {
      assert ToggledSign(ToggledSign(s)) == s[2..];
      assert |s[2..]| < |s|;
    } else if s != "0" && s != "" && s[0] != '-' {
      assert ToggledSign(s) == "-" + s;
      assert ("-" + s)[1..] == s;
    }
  }

  /** On a number without a `+` sign, toggling negates its value and keeps it a number. */
  lemma ToggleNegates(s: string)
    requires IsNumeric(s) && s[0] != '+'
    ensures IsNumeric(ToggledSign(s))
    ensures Value(ToggledSign(s)) == -Value(s)
  {
    if s == "0" {
      assert DigitRun("0") == 1;
      assert Magnitude("0") == 0.0;
    } else if s[0] == '-' {
      var t := s[1..];
      assert Unsigned(s) == t;
      assert Unsigned(t) == t;
    } else {
      var t := "-" + s;
      assert t[1..] == s;
      assert Unsigned(t) == s;
      assert Unsigned(s) == s;
    }
  }
}
