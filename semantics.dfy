/**
 * What each engine operation does to the stack and to the error slot, as
 * functions of the stack before the call. The numbers themselves are
 * abstract: the engine never inspects them except through the primitives
 * collected in `Numerics`.
 */
module Semantics {

  import opened Wrappers
  import opened Operators

  /**
   * The host platform's numeric primitives. `parse` is `parseFloat`
   * followed by the `isNaN` test (None when no number is read), `isNeg` is
   * the test `a < 0` and `isZero` the test `b === 0`.
   */
  datatype Numerics<!T> = Numerics(
    parse: string -> Option<T>,
    sqrt: T -> T,
    add: (T, T) -> T,
    sub: (T, T) -> T,
    mul: (T, T) -> T,
    div: (T, T) -> T,
    isNeg: T -> bool,
    isZero: T -> bool)

  /** The stack (top = last element) and the most recent error, if any. */
  datatype State<T> = State(stack: seq<T>, error: Option<string>)

  // The error messages the engine writes.
  const StackEmpty := "Stack empty"
  const NothingToDuplicate := "Stack empty - nothing to duplicate"
  const NeedTwoOnStack := "Need at least 2 values on stack"
  const NeedOneForSqrt := "Need at least 1 value for sqrt"
  const NeedOneForPower := "Need at least 1 value for power"
  const NegativeSqrt := "Cannot take square root of negative number"
  const DivisionByZero := "Division by zero"

  function NeedTwoFor(op: string): string { "Need at least 2 values for " + op }
  function InvalidNumber(value: string): string { "Invalid number: " + value }
  function UnknownOperation(op: string): string { "Unknown operation: " + op }

  /** `a op b` for a binary operator, `b` being the operand that was on top. */
  function Apply<T>(num: Numerics<T>, op: Op, a: T, b: T): T
    requires op.IsBinary()
  {
    match op
    case Add => num.add(a, b)
    case Sub => num.sub(a, b)
    case Mul => num.mul(a, b)
    case Div => num.div(a, b)
  }

  /** `push(value)`: a parsed number goes on top; otherwise nothing moves. */
  function PushValue<T>(num: Numerics<T>, s: seq<T>, value: string): (r: State<T>)
    ensures r.error.None? <==> num.parse(value).Some?
    ensures r.error.None? ==>
      |r.stack| == |s| + 1 && r.stack[..|s|] == s && r.stack[|s|] == num.parse(value).value
    ensures r.error.Some? ==> r.stack == s && r.error.value == InvalidNumber(value)
  {
    match num.parse(value)
    case Some(x) => State(s + [x], None)
    case None => State(s, Some(InvalidNumber(value)))
  }

  /** `pop()` and `drop()`: the top leaves the stack, or the stack is empty. */
  function RemoveTop<T>(s: seq<T>): (r: State<T>)
    ensures r.error.None? <==> s != []
    ensures s != [] ==> r.stack + [s[|s| - 1]] == s
    ensures s == [] ==> r.stack == s && r.error == Some(StackEmpty)
  {
    if s == [] then State(s, Some(StackEmpty)) else State(s[..|s| - 1], None)
  }

  /** `duplicate()`: a copy of the top goes on top. */
  function DuplicateTop<T>(s: seq<T>): (r: State<T>)
    ensures s == [] ==> r == State(s, Some(NothingToDuplicate))
    ensures s != [] ==>
      r.error == None && |r.stack| == |s| + 1 && r.stack[..|s|] == s && r.stack[|s|] == s[|s| - 1]
  {
    if s == [] then State(s, Some(NothingToDuplicate)) else State(s + [s[|s| - 1]], None)
  }

  /** `swap()`: the two topmost elements trade places. */
  function SwapTop<T>(s: seq<T>): (r: State<T>)
    ensures |s| < 2 ==> r == State(s, Some(NeedTwoOnStack))
    ensures |s| >= 2 ==>
      && r.error == None
      && |r.stack| == |s|
      && r.stack[..|s| - 2] == s[..|s| - 2]
      && r.stack[|s| - 2] == s[|s| - 1]
      && r.stack[|s| - 1] == s[|s| - 2]
  {
    if |s| < 2 then State(s, Some(NeedTwoOnStack))
    else State(s[..|s| - 2] + [s[|s| - 1], s[|s| - 2]], None)
  }

  /** `operation("sqrt")`: the top is replaced by its square root. */
  function SqrtTop<T>(num: Numerics<T>, s: seq<T>): (r: State<T>)
    ensures s == [] ==> r == State(s, Some(NeedOneForSqrt))
    ensures s != [] && num.isNeg(s[|s| - 1]) ==> r == State(s, Some(NegativeSqrt))
    ensures s != [] && !num.isNeg(s[|s| - 1]) ==>
      && r.error == None
      && |r.stack| == |s|
      && r.stack[..|s| - 1] == s[..|s| - 1]
      && r.stack[|s| - 1] == num.sqrt(s[|s| - 1])
  {
    if s == [] then State(s, Some(NeedOneForSqrt))
    else if num.isNeg(s[|s| - 1]) then State(s, Some(NegativeSqrt))
    else State(s[..|s| - 1] + [num.sqrt(s[|s| - 1])], None)
  }

  /** `operation("pow")`: the top is replaced by its square. */
  function PowTop<T>(num: Numerics<T>, s: seq<T>): (r: State<T>)
    ensures s == [] ==> r == State(s, Some(NeedOneForPower))
    ensures s != [] ==>
      && r.error == None
      && |r.stack| == |s|
      && r.stack[..|s| - 1] == s[..|s| - 1]
      && r.stack[|s| - 1] == num.mul(s[|s| - 1], s[|s| - 1])
  {
    if s == [] then State(s, Some(NeedOneForPower))
    else State(s[..|s| - 1] + [num.mul(s[|s| - 1], s[|s| - 1])], None)
  }

  /**
   * `operation` with `+`, `-`, `*` or `/`: the two topmost elements `a`
   * (below) and `b` (top) are replaced by `a op b`, except that a zero
   * divisor leaves the stack as it was.
   */
  function BinaryTop<T>(num: Numerics<T>, s: seq<T>, op: Op): (r: State<T>)
    requires op.IsBinary()
    ensures |s| < 2 ==> r == State(s, Some(NeedTwoFor(op.Token())))
    ensures |s| >= 2 && op == Div && num.isZero(s[|s| - 1]) ==> r == State(s, Some(DivisionByZero))
    ensures |s| >= 2 && !(op == Div && num.isZero(s[|s| - 1])) ==>
      && r.error == None
      && |r.stack| == |s| - 1
      && r.stack[..|s| - 2] == s[..|s| - 2]
      && r.stack[|s| - 2] == Apply(num, op, s[|s| - 2], s[|s| - 1])
  {
    if |s| < 2 then State(s, Some(NeedTwoFor(op.Token())))
    else
      var b, a := s[|s| - 1], s[|s| - 2];
      if op == Div && num.isZero(b) then State(s, Some(DivisionByZero))
      else State(s[..|s| - 2] + [Apply(num, op, a, b)], None)
  }

  /** How many elements an operator takes off the top when it succeeds. */
  function Consumed(op: Op): nat {
    match op
    case Swap => 2
    case Sqrt => 1
    case Pow => 1
    case Unknown(_) => 0
    case _ => 2
  }

  /** How many elements an operator puts back on top when it succeeds. */
  function Produced(op: Op): nat {
    match op
    case Swap => 2
    case Unknown(_) => 0
    case _ => 1
  }

  /** The operator is known, has enough operands, and its operand is in its domain. */
  predicate Succeeds<T>(num: Numerics<T>, s: seq<T>, op: Op) {
    && !op.Unknown?
    && Consumed(op) <= |s|
    && (op == Sqrt ==> !num.isNeg(s[|s| - 1]))
    && (op == Div ==> !num.isZero(s[|s| - 1]))
  }

  /** The messages a failing `operation(op.Token())` may leave in the error slot. */
  function FailureMessages(op: Op): set<string> {
    match op
    case Swap => {NeedTwoOnStack}
    case Sqrt => {NeedOneForSqrt, NegativeSqrt}
    case Pow => {NeedOneForPower}
    case Div => {NeedTwoFor("/"), DivisionByZero}
    case Unknown(t) => {UnknownOperation(t)}
    case _ => {NeedTwoFor(op.Token())}
  }

  /**
   * `operation(op.Token())`. It succeeds exactly when `Succeeds` holds, and
   * then rewrites only the topmost `Consumed(op)` elements; when it fails
   * the stack is exactly as before and the error is one of the operator's
   * own messages.
   */
  function OperationOn<T>(num: Numerics<T>, s: seq<T>, op: Op): (r: State<T>)
    ensures r.error.None? <==> Succeeds(num, s, op)
    ensures r.error.Some? ==> r.stack == s && r.error.value in FailureMessages(op)
    ensures Succeeds(num, s, op) ==>
      && |r.stack| == |s| - Consumed(op) + Produced(op)
      && r.stack[..|s| - Consumed(op)] == s[..|s| - Consumed(op)]
  {
    match op
    case Swap => SwapTop(s)
    case Sqrt => SqrtTop(num, s)
    case Pow => PowTop(num, s)
    case Unknown(t) => State(s, Some(UnknownOperation(t)))
    case _ => BinaryTop(num, s, op)
  }

  /** Swapping twice puts the two topmost elements back where they were. */
  lemma SwapTopTwice<T>(s: seq<T>)
    requires |s| >= 2
    ensures SwapTop(SwapTop(s).stack) == State(s, None)
  {
  }

  /** Popping right after a successful push removes what was pushed, and nothing else. */
  lemma PushThenRemove<T>(num: Numerics<T>, s: seq<T>, value: string)
    requires num.parse(value).Some?
    ensures var pushed := PushValue(num, s, value).stack;
      pushed[|pushed| - 1] == num.parse(value).value && RemoveTop(pushed) == State(s, None)
  {
  }

  /** Dropping right after a successful duplicate restores the stack. */
  lemma DuplicateThenRemove<T>(s: seq<T>)
    requires s != []
    ensures RemoveTop(DuplicateTop(s).stack) == State(s, None)
  {
  }

  /** On a one-element stack, `drop()` then `duplicate()` reports the empty stack. */
  lemma DropThenDuplicateOnSingleton<T>(x: T)
    ensures DuplicateTop(RemoveTop([x]).stack) == State([], Some(NothingToDuplicate))
  {
  }

  /** A failed operation, repeated, fails the same way and still changes nothing. */
  lemma FailedOperationRepeats<T>(num: Numerics<T>, s: seq<T>, op: Op)
    requires !Succeeds(num, s, op)
    ensures OperationOn(num, OperationOn(num, s, op).stack, op) == OperationOn(num, s, op)
  {
  }
}
