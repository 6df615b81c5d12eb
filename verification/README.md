# Bracket calculator evaluator

A model of the evaluator behind a browser calculator page (`script.js`).
The page keeps four state variables: the number being typed, as text; the
committed token history; a "clear on next digit" flag; and a count of open
brackets. The keys change this state:

- digits and point;
- the operators `+ - × ÷`;
- the brackets `(` and `)`;
- the sign toggle;
- percent;
- clear.

The `=` key then evaluates the history and always resets the state. It
commits the pending number and appends one `)` for each bracket still open.
It converts the tokens to postfix with Dijkstra's shunting-yard algorithm,
evaluates the queue on a value stack, and then shows either the result or
"Error".

The project has five modules:

- `Tokens` (`tokens.dfy`) covers the token text and the arithmetic:
  - the number test and the number reading of `parseFloat`, for the
    characters a user can type (a sign, digits and a point), read as exact
    reals;
  - `getPrecedence` as `Precedence`, and `operate` as `Operate`;
  - the text change made by the sign key.
- `ShuntingYard` (`shunting_yard.dfy`) models the conversion loop:
  - a specification one token at a time (`Step`, `Scan`, `Drain`, `Postfix`);
  - the loop itself, proved equal to it (`ToPostfix`);
  - lemmas: numbers keep their order, the queue holds no bracket, and the
    conversion fails exactly on mismatched brackets.
- `PostfixEval` (`postfix.dfy`) models the value-stack loop:
  - a specification (`Run`, `EvalPostfix`);
  - the loop itself (`EvaluatePostfix`);
  - lemmas: what can fail, and why.
- `Evaluator` (`evaluator.dfy`) holds the `Calculator` class:
  - the four state variables and one method per key;
  - what `=` evaluates (`Committed`, `Evaluate`);
  - lemmas on precedence, associativity and brackets;
  - how an operator key records itself in the history.
- `Sessions` (`sessions.dfy`) types concrete key sequences on a fresh
  calculator and proves what the display ends with.

The specification functions `IsNumeric`, `PopWhileBinding`, `PopToOpen`,
`Step`, `Scan`, `Postfix`, `Run`, `EvalPostfix`, `Evaluate` and
`Replaceable` have no contract of their own. Their rows say
what they compute and name the lemmas and methods that state their
properties.

Two key behaviours of the source matter in the sessions below.

- The `(` key (script.js:233-240) is accepted outside clear mode only on
  a lone "0", which it discards. It is refused right after a typed number,
  but also on the empty input left by an operator key, `(` or `)`; there a
  0 must be typed first (`Sessions.ZeroFirstSession`). This is listed
  under "## Findings".
- After `(`, the input is "". An operator key then overwrites the `(` in
  the history, since `(` is not a number and not `)` (script.js:190-191).
  The bracket count stays raised (script.js:238). `( - 5 ) =` therefore
  evaluates `- 5 )`, whose `)` finds no `(`, and shows "Error"
  (`Sessions.OverwrittenOpenSession`).

The number shown after `=` is rounded by `toFixed(10)` and reformatted by
`toString`. The percent key reformats by `toString`. Both are modelled by a
parameter `render: real -> string`.

## Model

| member | source | states |
|---|---|---|
| Tokens.Precedence | script.js:16-21 | `× ÷ %` have precedence 3 and `+ -` have 2, above `(` at 1. Every other token has 0. Precedence 2 or more holds exactly for the binary operators. |
| Tokens.Operate | script.js:26-41 | It fails, with DivByZero, exactly for `÷` with divisor 0. `+ - × ÷` give the sum, difference, product and quotient. Every other operator, `%` included, returns the second operand. |
| Tokens.DigitValue | script.js:63 | A single typed digit is a number, and its value is that digit. |
| Tokens.PointsAbsent | script.js:173 | Text holds no decimal point exactly when its count of points is 0. |
| Tokens.IsNumeric | script.js:48 | The `!isNaN(parseFloat(...))` test. After an optional sign, the text starts with a digit, or with a point followed by a digit. `DigitValue`, `EvaluateNumber` and the sessions use it on concrete text. |
| Tokens.Value | script.js:95 | The value read from a text is at most 0 when the text starts with `-`, and at least 0 otherwise. |
| Tokens.ToggledSign | script.js:251-256 | "" and "0" are left alone. Other text starting with `-` loses exactly that `-`. Any other text gains a leading `-`. |
| Tokens.ToggleTwice | script.js:251-256 | Pressing the sign key twice restores the text, except when a leading `-` is followed by nothing, by "0" or by another `-`. |
| Tokens.ToggleNegates | script.js:251-256 | On a number without a `+` sign, the sign key negates its value and keeps it a number. |
| ShuntingYard.PopWhileBinding | script.js:75-80 | The operator's popping, one token at a time: while the stack is not empty and its top has precedence at least `p`, the top moves to the end of the queue. `PopWhileBindingSpec`, `PopWhileBindingShape` and `PopWhileBindingPopped` state its result. |
| ShuntingYard.PopToOpen | script.js:68-70 | The popping for `)`, one token at a time: while the stack is not empty and its top is not `(`, the top moves to the end of the queue. `PopToOpenSpec` states its result. |
| ShuntingYard.PopWhileBindingSpec | script.js:75-80 | An incoming operator pops the longest run of stack-top tokens whose precedence is at least its own, top first into the output. The stack left is a prefix of the old one, and its top binds weaker. |
| ShuntingYard.PopWhileBindingShape | script.js:75-80 | The stack left is a prefix of the old one, and the popped rest goes to the output top first. |
| ShuntingYard.PopWhileBindingPopped | script.js:75-80 | Every popped token binds at least as tightly as the incoming operator. |
| ShuntingYard.PopToOpenSpec | script.js:68-70 | `)` pops exactly the tokens above the nearest `(`, top first into the output. What stays is empty or has `(` on top. |
| ShuntingYard.Drain | script.js:86-89 | Moving the rest of the stack succeeds exactly when no `(` is left; the error is a bracket mismatch. On success the queue is the output followed by the stack, top first. |
| ShuntingYard.Step | script.js:63-82 | One pass of the conversion loop over one token. A number goes to the queue and `(` is pushed. `)` pops down to the nearest `(` and removes it, or fails with a bracket mismatch. Any other token pops what binds at least as tightly, then waits. `ScanNumber`, `ScanOpen`, `ScanClose`, `ScanOperator` and `StepBrackets` state it case by case. |
| ShuntingYard.Scan | script.js:62-83 | `Step` applied to the tokens from left to right, stopping at the first failure. `ScanKeepsNumbers` and `ScanBrackets` state its properties. |
| ShuntingYard.Postfix | script.js:57-89 | `Scan` followed by `Drain`. `ToPostfix` is proved equal to it, and `PostfixKeepsNumbers` and `PostfixMatchesBrackets` state its properties. |
| ShuntingYard.ScanNumber | script.js:63-64 | A number token goes straight to the output queue. |
| ShuntingYard.ScanOpen | script.js:65-66 | A `(` token is pushed on the operator stack. |
| ShuntingYard.ScanOperator | script.js:74-81 | An operator token pops what binds at least as tightly, then waits on the stack. |
| ShuntingYard.ScanOperatorWaits | script.js:74-81 | An operator arriving above an empty stack, or above a top that binds weaker, pops nothing and waits on the stack. |
| ShuntingYard.ScanOperatorPopsOne | script.js:75-81 | An operator arriving above a single waiting operator that binds at least as tightly pops that operator to the queue, then waits alone. |
| ShuntingYard.ScanClose | script.js:67-73 | A `)` token with a `(` below pops down to it and removes it. |
| ShuntingYard.PopToOpenTop | script.js:68-70 | `)` with one operator above the nearest `(` moves that operator to the queue and stops at the `(`. |
| ShuntingYard.ScanCloseOne | script.js:67-73 | `)` over one operator above a `(` moves the operator to the queue and removes the `(`. |
| ShuntingYard.ScanCloseUnopened | script.js:67-73 | `)` over a single operator with no `(` below fails with a bracket mismatch. |
| ShuntingYard.PopToOpenLoop | script.js:68-70 | The inner loop for `)` leaves the same queue and stack as the specification `PopToOpen`. |
| ShuntingYard.PopWhileBindingLoop | script.js:75-80 | The inner loop for an operator leaves the same queue and stack as the specification `PopWhileBinding`. |
| ShuntingYard.DrainLoop | script.js:86-89 | The final loop fails on a leftover `(`, and otherwise yields the drained queue. |
| ShuntingYard.ToPostfix | script.js:57-89 | The conversion loop gives the same result, queue or error, as the token-by-token specification `Postfix`. |
| ShuntingYard.ScanKeepsNumbers | script.js:62-83 | After any prefix of tokens the stack holds no number and no `)`. The output holds the numbers read so far, in order. |
| ShuntingYard.StepKeepsNumbers | script.js:63-81 | One token adds itself to the numbers of the output if it is a number, and otherwise adds only non-numbers. |
| ShuntingYard.CloseKeepsNumbers | script.js:67-73 | A `)` moves no number into the output. |
| ShuntingYard.PushKeepsNumbers | script.js:74-81 | An operator moves no number into the output. |
| ShuntingYard.PoppedNumbers | script.js:69 | Appending popped non-numbers leaves the numbers of the queue unchanged. |
| ShuntingYard.PostfixKeepsNumbers | script.js:62-89 | A successful conversion keeps every number in its original order: none is dropped, added or reordered. |
| ShuntingYard.PopToOpenBrackets | script.js:68-70 | Popping down to `(` keeps the count of waiting `(` and puts no bracket in the output. |
| ShuntingYard.DropOpen | script.js:71 | Removing the `(` on top lowers the waiting-bracket count by one. |
| ShuntingYard.CloseBrackets | script.js:67-73 | A `)` fails exactly when no `(` is waiting, and otherwise removes one. |
| ShuntingYard.OperatorBrackets | script.js:74-81 | An operator never fails and leaves the count of waiting `(` unchanged. |
| ShuntingYard.PopBindingBrackets | script.js:75-80 | An operator's popping moves no bracket and leaves the stack's bracket count unchanged. |
| ShuntingYard.PopBindingPopsOperators | script.js:75-80 | With the incoming precedence at least that of `+`, only binary operators are popped. |
| ShuntingYard.StepBrackets | script.js:63-81 | On a well-formed token, a step fails exactly on `)` with no `(` waiting. Otherwise the waiting-bracket count moves by the token's bracket weight. |
| ShuntingYard.ScanBrackets | script.js:62-83 | On well-formed tokens, the scan fails exactly when some prefix closes more brackets than it opened. Otherwise the stack holds one `(` per open bracket and the output holds no bracket. |
| ShuntingYard.ScanBracketsStep | script.js:63-82 | If the bracket property of `ScanBrackets` holds for a prefix, it still holds after one more well-formed token. |
| ShuntingYard.PostfixMatchesBrackets | script.js:62-89 | On well-formed tokens, conversion succeeds exactly when the brackets match, and it fails only with a bracket mismatch. Its queue then holds neither `(` nor `)`. |
| ShuntingYard.ScanFailsOnlyOnBrackets | script.js:71-73 | The only way the scan fails is a bracket mismatch. |
| PostfixEval.Run | script.js:93-102 | `Apply` over the queue from left to right, from an empty value stack, stopping at the first failure. `RunHeight`, `RunErrors` and `RunOnlyDividesByZero` state its properties. |
| PostfixEval.EvalPostfix | script.js:92-106 | `Run`, then the single value left, or an error when the number of values left is not 1. `EvaluatePostfix` is proved equal to it, and `EvalPostfixShape` states when it succeeds. |
| PostfixEval.Apply | script.js:94-100 | A token fails exactly when it is not a number and either fewer than two values wait, or it is `÷` over a zero top. The error is then a missing operand or a division by zero. Otherwise a number adds one value and an operator removes two and adds one, leaving the values below untouched. |
| PostfixEval.RunNumber | script.js:94-95 | A number in the queue pushes its value. |
| PostfixEval.RunOperator | script.js:96-100 | An operator replaces the top two values by `Operate` on them, the lower one as left operand, or fails as `Operate` does. |
| PostfixEval.RunHeight | script.js:93-102 | A successful run leaves as many values as numbers minus operators, and every operator found two operands. |
| PostfixEval.RunOnlyDividesByZero | script.js:96-100 | When every operator finds two operands, only a division by zero can fail. |
| PostfixEval.RunErrors | script.js:97-100 | The run fails only for a missing operand or a zero divisor. |
| PostfixEval.DivByZeroNeedsDivision | script.js:34-37 | A division-by-zero failure needs a `÷` in the queue. |
| PostfixEval.EvalPostfixShape | script.js:92-104 | Evaluation succeeds only on a well-shaped queue, and on one it fails only by dividing by zero. A missing operand means some operator lacked two values. A wrong final count means the height is not 1. |
| PostfixEval.EvaluatePostfix | script.js:92-106 | The value-stack loop gives the same result or error as the specification `EvalPostfix`. |
| Evaluator.Closers | script.js:53-55 | The tokens the auto-closing loop appends: exactly `n` tokens, each `)`. |
| Evaluator.Committed | script.js:48-55 | `=` evaluates the history unchanged, then the typed text only if it is a number, then exactly one `)` per open bracket. |
| Evaluator.Evaluate | script.js:60-106 | The `try` block of `calculate`: `Postfix`, then `EvalPostfix` on its queue. `EvaluateBrackets` states its failures, and the concrete lemmas below its values. |
| Evaluator.CommittedNumber | script.js:48-55 | With a number typed and zero or one open bracket, `=` evaluates the history, then the number, then that bracket's `)`. |
| Evaluator.CommittedNothing | script.js:48-55 | With nothing typed and no bracket open, `=` evaluates the history as it is. |
| Evaluator.CloseAll | script.js:53-55 | The auto-closing loop appends exactly `n` tokens, all `)`, and keeps what was there. |
| Evaluator.AutoCloseBalances | script.js:52-55 | A history that never closes more than it opened, plus one `)` per open bracket, has matching brackets. |
| Evaluator.EvaluateBrackets | script.js:60-121 | On well-formed tokens, `=` fails with a bracket mismatch exactly when the brackets do not match. Every other failure is a division by zero or a malformed queue. |
| Evaluator.RunErrorsOfEval | script.js:92-104 | Postfix evaluation never reports a bracket mismatch. |
| Evaluator.EvaluateNumber | script.js:62-106 | A lone number evaluates to its own value. |
| Evaluator.RepeatedEquals | script.js:46-113 | After `=` has shown the text of a value, a second `=` evaluates to the value that text reads as. When rendering that value gives the same text again, the second `=` shows the same text. |
| Evaluator.EqualsAfterError | script.js:115-120 | After a failed `=` the input is "0", and a further `=` evaluates it to 0. |
| Evaluator.EqualsTwice | script.js:46-122 | Pressing `=` twice from any reachable state. After a success, the second press shows the same text as the first when the rendering is stable. After a failure, the first shows "Error" and the second shows 0. Both leave the reset state. |
| Evaluator.TwoOperands | script.js:62-104 | `a op b` evaluates to one application of `Operate`. |
| Evaluator.ThreeOperands | script.js:75-101 | `a op1 b op2 c` applies `op1` first when it binds at least as tightly as `op2` (left associativity), and `op2` first otherwise. |
| Evaluator.MultiplicationFirst | script.js:16-101 | `1 + 2 × 3` evaluates to 7. |
| Evaluator.SubtractionGroupsLeft | script.js:75-81 | `8 - 3 - 2` evaluates to 3. |
| Evaluator.ScanOfSum | script.js:62-83 | After `a op b` the two numbers are in the queue and the operator waits on the stack. |
| Evaluator.ScanPopsFirst | script.js:75-81 | After `a op1 b op2`, where `op2` binds no tighter than `op1`, `op1` has been popped to the queue and `op2` waits. |
| Evaluator.ScanStacksSecond | script.js:75-81 | After `a op1 b op2`, where `op2` binds tighter, `op2` waits above `op1`. |
| Evaluator.PostfixOfThree | script.js:62-89 | `a op1 b op2 c` becomes `a b op1 c op2` when `op1` binds at least as tightly, and `a b c op2 op1` otherwise. |
| Evaluator.PostfixPopsFirst | script.js:62-89 | The queue for the case where `op1` binds at least as tightly is `a b op1 c op2`. |
| Evaluator.PostfixStacksSecond | script.js:62-89 | The queue for the case where `op2` binds tighter is `a b c op2 op1`. |
| Evaluator.RunOneOperator | script.js:93-101 | The queue `a b op` leaves the single value `a op b`, or fails as `Operate` does. |
| Evaluator.RunInnerOperator | script.js:93-101 | The queue `a b c op` leaves `a` below `b op c`. |
| Evaluator.RunOperatorThenNumber | script.js:93-101 | The queue `a b op c` leaves `a op b` below `c`. |
| Evaluator.EvalOneOperator | script.js:92-106 | The queue `a b op` evaluates to `a op b`. |
| Evaluator.EvalLeftFirst | script.js:93-101 | The queue `a b op1 c op2` computes `(a op1 b) op2 c`. |
| Evaluator.EvalRightFirst | script.js:93-101 | The queue `a b c op2 op1` computes `a op1 (b op2 c)`. |
| Evaluator.OpenedSum | script.js:62-83 | After `( a op1 b` the queue holds `a b` and the stack holds `(` below `op1`. |
| Evaluator.BracketedPrefix | script.js:62-83 | After `( a op1 b )` the stack is empty and the queue is `a b op1`. |
| Evaluator.ScanBracketedOperator | script.js:62-83 | After `( a op1 b ) op2` the queue is `a b op1` and `op2` waits alone on the stack. |
| Evaluator.PostfixBracketedFirst | script.js:62-89 | `( a op1 b ) op2 c` becomes the queue `a b op1 c op2`. |
| Evaluator.PostfixDropped | script.js:62-89 | `( a op1 b ) c` becomes the queue `a b op1 c`. |
| Evaluator.BracketedFirst | script.js:65-81 | `( a op1 b ) op2 c` applies `op1` first, whatever the precedences. |
| Evaluator.BracketedAlone | script.js:65-73 | `( a op1 b )` evaluates to `a op1 b`. |
| Evaluator.NestedOpen | script.js:63-81 | After `a op1 (` the queue holds `a` and `(` waits above `op1`. |
| Evaluator.NestedOperator | script.js:63-81 | After `a op1 ( b op2` the queue holds `a b` and `op2` waits above `(` and `op1`. |
| Evaluator.NestedClosed | script.js:63-81 | After `a op1 ( b op2 c )` the queue is `a b c op2` and only `op1` waits. |
| Evaluator.PostfixNested | script.js:62-89 | `a op1 ( b op2 c )` becomes the queue `a b c op2 op1`. |
| Evaluator.BracketedSecond | script.js:62-104 | `a op1 ( b op2 c )` applies `op2` first, whatever the precedences. |
| Evaluator.UnopenedClose | script.js:67-73 | `op a )` fails with a bracket mismatch, because the `)` finds no `(` waiting. |
| Evaluator.OperatorDroppedAfterClose | script.js:62-104 | `( a op1 b ) c` always fails. Two values are left at the end, unless a division by zero inside the brackets fails first. |
| Evaluator.Replaceable | script.js:190 | The overwrite test on the last history token: present (not empty), not a number, and not `)`. `RecordedCases` states what it leads to. |
| Evaluator.RecordedAsWritten | script.js:181-194 | With a typed text, the history ends with the operator. With nothing typed, the history is unchanged or has its last token replaced by the operator. |
| Evaluator.Recorded | script.js:181-194 | As `RecordedAsWritten`, except that with nothing typed after `)` the operator is appended, so the history then ends with it too. |
| Evaluator.RecordedCases | script.js:181-194 | After a typed number, the operator key records the number, then the operator. With nothing typed, an operator or `(` just before is overwritten. With nothing typed after a number, nothing is recorded. With nothing typed after `)`, the source records nothing and the corrected version appends the operator. |
| Evaluator.Calculator.constructor | script.js:6-9 | The initial state is "0", with no history, clear mode on and no open bracket. |
| Evaluator.Calculator.Clear | script.js:159-165 | Back to "0", with no history, clear mode on and no open bracket. |
| Evaluator.Calculator.InputNumber | script.js:167-176 | Clear mode starts a fresh number ("0." for a point) and empties the history. Otherwise a second point is ignored and a lone "0" is replaced by a digit. The typed text never holds two points. |
| Evaluator.Calculator.InputOperatorAsWritten | script.js:180-197 | A no-op when both the input and the history are empty. Otherwise the history is recorded as the source does it and the input becomes "". |
| Evaluator.Calculator.InputOperator | script.js:180-197 | As above, but with the corrected recording: an operator right after `)` is appended. |
| Evaluator.Calculator.OpenParenAsWritten | script.js:232-240 | Outside clear mode, `(` is accepted only on a lone "0", and it discards that "0". It is refused on a typed number, and also on the empty input left by an operator, `(` or `)`. When accepted it is recorded and counted, clear mode ends and the input becomes "". |
| Evaluator.Calculator.OpenParen | script.js:232-240 | Corrected: `(` is refused only while a number other than "0" is being typed outside clear mode. Otherwise it is recorded and counted, clear mode ends and the input becomes "". |
| Evaluator.Calculator.CloseParen | script.js:241-247 | `)` is ignored with no bracket open, so the count never goes negative. Otherwise it commits the pending text, records `)` and lowers the count. |
| Evaluator.Calculator.ToggleSign | script.js:249-258 | Only the typed text changes, to its sign-toggled form. |
| Evaluator.Calculator.Percent | script.js:220-225 | "" and "0" are left alone. Other number text becomes its value divided by 100, rendered. Non-number text becomes "NaN". |
| Evaluator.Calculator.Calculate | script.js:46-122 | It ends with no history, no open bracket and clear mode on. It evaluates the history plus the typed number plus one `)` per open bracket. On success it shows and keeps the rendered result. On failure it shows "Error" and keeps "0". |
| Sessions.RecordsDigit | script.js:184-194 | A typed digit followed by an operator key records the digit, then the operator. |
| Sessions.CommitsDigit | script.js:48-50 | `=` after a typed digit, with no bracket open, evaluates the history followed by the digit. |
| Sessions.EightOverZero | script.js:34-37 | `8 ÷ 0` fails with a division by zero. |
| Sessions.SevenPlusFive | script.js:31 | `7 + 5` evaluates to 12. |
| Sessions.OpenSumClosed | script.js:65-73 | `( 2 + 3 )` evaluates to 5. |
| Sessions.BracketedSumTimesFour | script.js:65-81 | `( 2 + 3 ) × 4` evaluates to 20. |
| Sessions.BracketedSumThenFour | script.js:104 | `( 2 + 3 ) 4` fails. |
| Sessions.TwoTimesThreePlusFour | script.js:75-101 | `2 × 3 + 4` evaluates to 10. |
| Sessions.TwoTimesBracketedSum | script.js:65-101 | `2 × ( 3 + 4 )` evaluates to 14. |
| Sessions.MinusFiveClosed | script.js:67-73 | `- 5 )` fails with a bracket mismatch. |
| Sessions.PrecedenceSession | script.js:46-199 | Typing `1 + 2 × 3 =` shows 7. |
| Sessions.DivisionByZeroSession | script.js:115-165 | `8 ÷ 0 =` shows "Error" and leaves "0"; clear then shows "0". |
| Sessions.ChainedSession | script.js:109-194 | After `7 =`, `+ 5 =` continues from the result and shows 12. |
| Sessions.SecondPointSession | script.js:173 | `1 . 5 .` keeps "1.5". |
| Sessions.AutoCloseSession | script.js:53-55 | `( 2 + 3 =` closes the bracket itself and shows 5. |
| Sessions.BracketSession | script.js:190-194 | With the corrected operator key, `( 2 + 3 ) × 4 =` shows 20. |
| Sessions.BracketSessionAsWritten | script.js:190-194 | With the operator key as written, `( 2 + 3 ) × 4 =` shows "Error". |
| Sessions.NestedSessionAsWritten | script.js:233-236 | With the `(` key as written, `2 × ( 3 + 4 ) =` refuses the `(`, ignores the `)`, and shows 10. |
| Sessions.NestedSession | script.js:233-240 | With the corrected `(` key, `2 × ( 3 + 4 ) =` shows 14. |
| Sessions.TypeTwoTimesZeroOpen | script.js:233-240 | With the keys as written, `2 × 0 (` accepts the `(` on the lone "0" and discards it. The state is the same as after `2 × (` with the corrected key. |
| Sessions.ZeroFirstSession | script.js:233-240 | With the keys as written, `2 × 0 ( 3 + 4 ) =` shows 14. |
| Sessions.OverwrittenOpenSession | script.js:188-194 | `( - 5 ) =` overwrites the `(` with `-` while the bracket stays counted, and shows "Error". |

## Left out

- The page (`document`, `display.innerText`, the click listener and its class tests, script.js:3-4, 205-219, 226-229) is not modelled. Each key is a method of `Calculator` instead.
- `updateDisplay` (script.js:128-157) only builds the display text, so it is not modelled. A method returns the text shown only where it writes `display.innerText` itself: `Calculate` shows "Error".
- Floating point is not modelled. Numbers are exact reals, so there is no rounding, overflow, `Infinity` or `NaN` value.
- Calculator.Calculate: the `toFixed(10)` and `toString` formatting of the result is the parameter `render`. Whether a shown text renders again to itself depends on `render`. `RepeatedEquals` and `EqualsTwice` therefore take it as a hypothesis and do not prove it.
- Calculator.Percent: `/ 100` is exact real division, and `toString` is the parameter `render`.
- Tokens.IsNumeric: `parseFloat` is modelled only on text made of signs, digits and points. Leading whitespace, exponents and "Infinity" are not modelled.
- Tokens.Value: exponent text such as "1e-8", which `render` may return for very small or very large results (`toString` after `=` or percent), is read as its leading digits ("1e-8" reads as 1), whereas `parseFloat` honours the exponent.
- ShuntingYard.PostfixMatchesBrackets: the link between bracket matching and conversion failure is proved only when every token is a number, a bracket or a binary operator. For other text the conversion gives precedence 0, which pops even a waiting `(`.
- Sessions.ChainedSession: it requires that `render` shows seven as "7". The `+` key commits the shown text as a token (script.js:184-185), and the second `=` reads that token back.
- The start-up call of `clearDisplay` (script.js:263) is modelled only by the `Calculator` constructor, which sets the same state.

## Findings

| source | as written | input that shows it | evidently intended | confidence | as-written member | corrected member |
|---|---|---|---|---|---|---|
| script.js:190-194 | With nothing typed, an operator key pressed right after `)` is not recorded. The `)` is not replaceable, and the push only happens when something was typed. The display still shows the operator. | `( 2 + 3 ) × 4 =` evaluates `( 2 + 3 ) 4`, which leaves two values, so it shows "Error". | The operator is appended after `)`, so the input shows 20. | not executed | Evaluator.Calculator.InputOperatorAsWritten (with Evaluator.OperatorDroppedAfterClose and Sessions.BracketSessionAsWritten) | Evaluator.Calculator.InputOperator (with Evaluator.BracketedFirst and Sessions.BracketSession) |
| script.js:233-236 | Outside clear mode, `(` is accepted only on a lone "0", which it discards. After an operator, `(` or `)` the input is empty, so `(` is refused there unless a 0 is typed first. | `2 × ( 3 + 4 ) =` drops both brackets, evaluates `2 × 3 + 4` and shows 10. | The guard refuses `(` only right after a typed number, as its comment says, so the input shows 14. | not executed | Evaluator.Calculator.OpenParenAsWritten (with Sessions.NestedSessionAsWritten) | Evaluator.Calculator.OpenParen (with Evaluator.BracketedSecond and Sessions.NestedSession) |
