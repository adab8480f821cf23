/**
 * A session is the sequence of calls the presentation layer makes on one
 * engine. This module folds the per-call effects over such a sequence and
 * proves that the rollback contract composes: whatever a session does, the
 * part of the stack below the lowest point any of its calls reached is
 * never touched.
 */
module Session {

  import opened Wrappers
  import Operators
  import opened Semantics

  /** One call into the engine. */
  datatype Command =
    | Push(value: string)
    | Pop
    | Peek
    | Clear
    | ClearError
    | Drop
    | Duplicate
    | Swap
    | Operation(token: string)

  /** The state after one call. */
  function Step<T>(num: Numerics<T>, st: State<T>, cmd: Command): (r: State<T>)
    ensures r.error.Some? ==> r.stack == st.stack
    ensures |st.stack| - Reach(num, st.stack, cmd) <= |r.stack|
    ensures r.stack[..|st.stack| - Reach(num, st.stack, cmd)]
         == st.stack[..|st.stack| - Reach(num, st.stack, cmd)]
  {
    match cmd
    case Push(v) => PushValue(num, st.stack, v)
    case Pop => RemoveTop(st.stack)
    case Peek => st
    case Clear => State([], None)
    case ClearError => State(st.stack, None)
    case Drop => RemoveTop(st.stack)
    case Duplicate => DuplicateTop(st.stack)
    case Swap => SwapTop(st.stack)
    case Operation(t) => OperationOn(num, st.stack, Operators.ParseOp(t))
  }

  /** How many elements at the top of `s` a call may rewrite. */
  function Reach<T>(num: Numerics<T>, s: seq<T>, cmd: Command): (k: nat)
    ensures k <= |s|
  {
    match cmd
    case Pop => if s == [] then 0 else 1
    case Drop => if s == [] then 0 else 1
    case Clear => |s|
    case Swap => if |s| < 2 then 0 else 2
    case Operation(t) =>
      var op := Operators.ParseOp(t);
      if Succeeds(num, s, op) then Consumed(op) else 0
    case _ => 0
  }

  /** The state after a whole sequence of calls. */
  function Run<T>(num: Numerics<T>, st: State<T>, cmds: seq<Command>): State<T>
    decreases |cmds|
  {
    if cmds == [] then st else Run(num, Step(num, st, cmds[0]), cmds[1..])
  }

  /** The lowest stack height any call of the sequence leaves untouched. */
  function LowWater<T>(num: Numerics<T>, st: State<T>, cmds: seq<Command>): (k: nat)
    ensures k <= |st.stack|
    decreases |cmds|
  {
    if cmds == [] then |st.stack|
    else
      var here := |st.stack| - Reach(num, st.stack, cmds[0]);
      var later := LowWater(num, Step(num, st, cmds[0]), cmds[1..]);
      if later < here then later else here
  }

  /** Every session leaves the stack below its low-water mark as it found it. */
  lemma {:induction false} RunKeepsBelowLowWater<T>(num: Numerics<T>, st: State<T>, cmds: seq<Command>)
    ensures LowWater(num, st, cmds) <= |Run(num, st, cmds).stack|
    ensures Run(num, st, cmds).stack[..LowWater(num, st, cmds)] == st.stack[..LowWater(num, st, cmds)]
    decreases |cmds|
  {
    if cmds != [] {
      var next := Step(num, st, cmds[0]);
      var k := LowWater(num, st, cmds);
      var here := |st.stack| - Reach(num, st.stack, cmds[0]);
      RunKeepsBelowLowWater(num, next, cmds[1..]);
      var later := LowWater(num, next, cmds[1..]);
      assert k <= later && k <= here;
      var final := Run(num, st, cmds).stack;
      assert final[..k] == final[..later][..k] == next.stack[..later][..k];
      assert next.stack[..k] == next.stack[..here][..k] == st.stack[..here][..k];
    }
  }

  /** The calls of a sequence each end with an error. */
  predicate AllFail<T>(num: Numerics<T>, st: State<T>, cmds: seq<Command>)
    decreases |cmds|
  {
    cmds != [] ==>
      var next := Step(num, st, cmds[0]);
      next.error.Some? && AllFail(num, next, cmds[1..])
  }

  /** A session in which every call fails leaves the stack exactly as it was. */
  lemma {:induction false} FailingRunKeepsStack<T>(num: Numerics<T>, st: State<T>, cmds: seq<Command>)
    requires AllFail(num, st, cmds)
    ensures Run(num, st, cmds).stack == st.stack
    decreases |cmds|
  {
    if cmds != [] {
      FailingRunKeepsStack(num, Step(num, st, cmds[0]), cmds[1..]);
    }
  }
}
