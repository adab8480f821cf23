# RPN calculator engine — a verified model

This project models the evaluation engine of an RPN (Reverse Polish Notation)
calculator: the `RPNCalculator` class. The engine owns a LIFO stack of numbers
and a one-message error slot. It offers `push` (parse a token and put the
number on top), `pop`, `peek`, `clear`, `drop`, `duplicate`, `swap`, and
`operation`, which dispatches on an operator token (`swap`, `sqrt`, `pow`,
`+`, `-`, `*`, `/`). Every call checks its arity or domain first. A successful
call clears the error slot. A failing call writes a fixed message and pushes
back any operand it already popped, so a failed call never changes the stack.

The numbers are an abstract type `T`. The engine only handles them through
the host's primitives: the parse-and-NaN test of `push`, the square root,
the four arithmetic operators, and the tests `a < 0` and `b === 0`. These
are gathered as function values in `Semantics.Numerics<T>`. An engine object
is built with one such record, so every proof holds for any behaviour of
these primitives.

Modules:
- `Wrappers`: `Option`, used for nullable results and the error slot.
- `Operators`: the operator tokens as a datatype `Op`, with `Unknown(token)`
  for every other token. `ParseOp` classifies a token the way the chain of
  string comparisons in `operation` does.
- `Semantics`: one function per operation. Each gives the new stack and
  error slot from the old stack and states the exact shape in its contract.
  Also lemmas relating operations (swap twice, push then pop, duplicate then
  drop, a failing operation repeated).
- `Calculator`: the class `RPNCalculator` with fields `stack: seq<T>` and
  `errorMessage: Option<string>`. Its methods update the fields with the
  original's own steps: pop with `TakeTop`, push by appending, and early
  returns. Each method is proved to leave exactly the state the matching
  `Semantics` function gives. The `sqrt`, `pow` and arithmetic branches of
  `operation` are separate methods (`SquareRoot`, `Square`, `Arithmetic`)
  that `Operation` calls after the same token tests.
- `Session`: a sequence of calls (`Command`, `Step`, `Run`). It proves that
  the rollback contract composes: no sequence of calls touches the part of
  the stack below the lowest point any call reached.
- `Scenarios`: a client that uses only the method contracts to check the
  engine's documented examples. These are division by zero with `[6, 0]`,
  an unknown token, subtraction order, squaring, drop then duplicate on a
  one-element stack, and snapshot independence of `getStack`.

## Model

| member | source | states |
|---|---|---|
| Operators.ParseOp | srcts/RPNCalculator.ts:85-181 | every token is classified, and the classified operator's token is the input; a token is unknown exactly when it is none of `swap sqrt pow + - * /`, and binary exactly when it is one of the four the guard at line 134 admits |
| Operators.ParseOpToken | srcts/RPNCalculator.ts:85-181 | classifying an operator's own token gives back that operator |
| Semantics.PushValue | srcts/RPNCalculator.ts:17-31 | succeeds exactly when the token parses; then the old stack is kept and the parsed number is the new top, one element higher; otherwise the stack is unchanged and the error is `Invalid number: <token>` |
| Semantics.RemoveTop | srcts/RPNCalculator.ts:33-40 | effect of `pop` and of `drop`: succeeds exactly on a non-empty stack; then pushing the old top back onto the result gives the old stack; on an empty stack the stack stays empty and the error is `Stack empty` |
| Semantics.DuplicateTop | srcts/RPNCalculator.ts:63-70 | on a non-empty stack, one element higher, old stack as prefix, new top equal to old top, error cleared; on an empty stack unchanged with `Stack empty - nothing to duplicate` |
| Semantics.SwapTop | srcts/RPNCalculator.ts:72-83 | with at least two elements: same length, everything below the top two unchanged, the top two exchanged, error cleared; otherwise unchanged with `Need at least 2 values on stack` |
| Semantics.SqrtTop | srcts/RPNCalculator.ts:91-113 | empty stack: unchanged with `Need at least 1 value for sqrt`; negative top: unchanged with `Cannot take square root of negative number`; otherwise same length, only the top replaced by its square root, error cleared |
| Semantics.PowTop | srcts/RPNCalculator.ts:115-131 | empty stack: unchanged with `Need at least 1 value for power`; otherwise same length, only the top replaced by its square, error cleared |
| Semantics.BinaryTop | srcts/RPNCalculator.ts:133-179 | fewer than two elements: unchanged with `Need at least 2 values for <op>`; `/` with a zero top: unchanged with `Division by zero`; otherwise one element shorter, everything below the top two unchanged, new top is `a op b` with `b` the old top and `a` the element below it, error cleared |
| Semantics.OperationOn | srcts/RPNCalculator.ts:85-182 | succeeds exactly when the operator is known, has enough operands and its operand is in its domain; on success only the topmost `Consumed(op)` elements are replaced by `Produced(op)` new ones; on failure the stack is exactly as before and the error is one of that operator's own messages (`Unknown operation: <op>` for an unknown token) |
| Semantics.SwapTopTwice | srcts/RPNCalculator.ts:72-83 | swapping twice restores the original stack and leaves no error |
| Semantics.PushThenRemove | srcts/RPNCalculator.ts:17-40 | after a successful push the top is the parsed number, and popping it gives back the stack from before the push |
| Semantics.DuplicateThenRemove | srcts/RPNCalculator.ts:54-70 | dropping right after a successful duplicate restores the stack |
| Semantics.DropThenDuplicateOnSingleton | srcts/RPNCalculator.ts:54-70 | on a one-element stack, drop then duplicate leaves the stack empty with `Stack empty - nothing to duplicate` |
| Semantics.FailedOperationRepeats | srcts/RPNCalculator.ts:85-182 | repeating a failed operation fails in the same way and still leaves the stack unchanged |
| Calculator.RPNCalculator.constructor | srcts/RPNCalculator.ts:1-3 | a new engine has an empty stack and no error |
| Calculator.RPNCalculator.GetStack | srcts/RPNCalculator.ts:5-7 | returns a value equal to the stack; it is a value, so later calls cannot change it |
| Calculator.RPNCalculator.GetError | srcts/RPNCalculator.ts:9-11 | returns the error slot |
| Calculator.RPNCalculator.ClearError | srcts/RPNCalculator.ts:13-15 | the error slot becomes empty and the stack is unchanged |
| Calculator.RPNCalculator.Push | srcts/RPNCalculator.ts:17-31 | returns true exactly when the token parses; the new state is `PushValue` of the old stack |
| Calculator.RPNCalculator.Pop | srcts/RPNCalculator.ts:33-40 | returns None exactly on an empty stack, otherwise the old top; the new state is `RemoveTop` of the old stack |
| Calculator.RPNCalculator.Peek | srcts/RPNCalculator.ts:42-47 | returns None exactly on an empty stack, otherwise the top; changes nothing |
| Calculator.RPNCalculator.Clear | srcts/RPNCalculator.ts:49-52 | the stack is empty and the error slot is empty |
| Calculator.RPNCalculator.Drop | srcts/RPNCalculator.ts:54-61 | the new state is `RemoveTop` of the old stack |
| Calculator.RPNCalculator.Duplicate | srcts/RPNCalculator.ts:63-70 | the new state is `DuplicateTop` of the old stack |
| Calculator.RPNCalculator.Swap | srcts/RPNCalculator.ts:72-83 | pops two values and pushes them back in popping order; the new state is `SwapTop` of the old stack |
| Calculator.RPNCalculator.SquareRoot | srcts/RPNCalculator.ts:91-113 | pops the operand and pushes it back if it is negative; the new state is `SqrtTop` of the old stack |
| Calculator.RPNCalculator.Square | srcts/RPNCalculator.ts:115-131 | the new state is `PowTop` of the old stack |
| Calculator.RPNCalculator.Arithmetic | srcts/RPNCalculator.ts:133-179 | pops `b` then `a`, and on a zero divisor pushes `a` then `b` back; the new state is `BinaryTop` of the old stack |
| Calculator.RPNCalculator.Operation | srcts/RPNCalculator.ts:85-182 | the string dispatch reaches the state `OperationOn` gives for the classified token |
| Session.Step | srcts/RPNCalculator.ts:13-182 | after any single call, a non-empty error slot means the stack is exactly as before; the call rewrites at most its `Reach` topmost elements and keeps everything below |
| Session.RunKeepsBelowLowWater | srcts/RPNCalculator.ts:13-182 | after any sequence of calls, the stack still holds at least the low-water mark's worth of elements, and the elements below that mark are the original ones |
| Session.FailingRunKeepsStack | srcts/RPNCalculator.ts:13-182 | a sequence of calls that each fail leaves the stack exactly as it was |

## Left out

- Floating-point semantics are not modelled. The model does not capture the
  leniency of `parseFloat` (prefix parsing, `Infinity`), the values of
  `Math.sqrt` and the arithmetic operators, overflow to `Infinity`, NaN
  results, `-0 === 0`, or `NaN < 0` being false. All of these are the
  abstract primitives in `Numerics`, so every property holds for any
  behaviour of them.
- The `try`/`catch` blocks around parsing, the square root and the
  arithmetic (srcts/RPNCalculator.ts:18-30, 104-111, 122-129, 143-177) are
  not modelled: these host operations do not throw. Their recovery paths
  would also push the operands back.
- The `default` case of the arithmetic `switch` (srcts/RPNCalculator.ts:164-168)
  cannot be reached, because the guard at line 134 admits only the four
  tokens it lists. `Calculator.RPNCalculator.Arithmetic` asserts that only
  `/` remains in its last branch.
- The React user interface (srcts/components/App.tsx and its input-buffer
  rules), the service worker (srcts/sw.ts, docs/sw.js), the install prompt
  (srcts/hooks/useInstallPrompt.tsx, srcts/components/InstallPrompt.tsx,
  srcts/main.tsx) and the build script (build.ts) are not part of this
  model. They are presentation and platform code around the engine.
