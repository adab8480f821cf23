/**
 * The engine object. Its two fields are updated in place by every mutating
 * method, with the same pop and push steps and early returns as the
 * original; each method is proved to leave exactly the state that the
 * matching function of `Semantics` describes.
 */
module Calculator {

  import opened Wrappers
  import Operators
  import opened Semantics

  class RPNCalculator<!T> {
    /** The host's numeric primitives (parsing, square root, arithmetic, tests). */
    const num: Numerics<T>
    /** The operand stack; the top is the last element. */
    var stack: seq<T>
    /** The outcome of the most recent mutating call: None after a success. */
    var errorMessage: Option<string>

    /** The engine's state as a value. */
    ghost function Abs(): State<T>
      reads this
    {
      State(stack, errorMessage)
    }

    constructor (num: Numerics<T>)
      ensures this.num == num
      ensures stack == [] && errorMessage == None
    {
      this.num := num;
      stack := [];
      errorMessage := None;
    }

    /** A snapshot of the stack: a value, so later calls cannot change it. */
    method GetStack() returns (s: seq<T>)
      ensures s == stack
    {
      s := stack;
    }

    method GetError() returns (e: Option<string>)
      ensures e == errorMessage
    {
      e := errorMessage;
    }

    method ClearError()
      modifies this
      ensures stack == old(stack) && errorMessage == None
    {
      errorMessage := None;
    }

    /** Removes and returns the top element, as the host array's own `pop` does. */
    method TakeTop() returns (x: T)
      requires stack != []
      modifies this
      ensures x == old(stack)[|old(stack)| - 1]
      ensures stack == old(stack)[..|old(stack)| - 1]
      ensures errorMessage == old(errorMessage)
    {
      x := stack[|stack| - 1];
      stack := stack[..|stack| - 1];
    }

    method Push(value: string) returns (ok: bool)
      modifies this
      ensures ok <==> num.parse(value).Some?
      ensures Abs() == PushValue(num, old(stack), value)
    {
      var parsed := num.parse(value);
      if parsed.None? {
        errorMessage := Some(InvalidNumber(value));
        return false;
      }
      stack := stack + [parsed.value];
      errorMessage := None;
      return true;
    }

    method Pop() returns (r: Option<T>)
      modifies this
      ensures r.None? <==> old(stack) == []
      ensures r.Some? ==> r.value == old(stack)[|old(stack)| - 1]
      ensures Abs() == RemoveTop(old(stack))
    {
      if |stack| == 0 {
        errorMessage := Some(StackEmpty);
        return None;
      }
      errorMessage := None;
      var x := TakeTop();
      return Some(x);
    }

    /** The top element, if any; neither the stack nor the error slot changes. */
    method Peek() returns (r: Option<T>)
      ensures r.None? <==> stack == []
      ensures r.Some? ==> r.value == stack[|stack| - 1]
    {
      if |stack| == 0 {
        return None;
      }
      return Some(stack[|stack| - 1]);
    }

    method Clear()
      modifies this
      ensures stack == [] && errorMessage == None
    {
      stack := [];
      errorMessage := None;
    }

    method Drop()
      modifies this
      ensures Abs() == RemoveTop(old(stack))
    {
      if |stack| > 0 {
        var _ := TakeTop();
        errorMessage := None;
      } else {
        errorMessage := Some(StackEmpty);
      }
    }

    method Duplicate()
      modifies this
      ensures Abs() == DuplicateTop(old(stack))
    {
      if |stack| > 0 {
        stack := stack + [stack[|stack| - 1]];
        errorMessage := None;
      } else {
        errorMessage := Some(NothingToDuplicate);
      }
    }

    method Swap()
      modifies this
      ensures Abs() == SwapTop(old(stack))
    {
      if |stack| < 2 {
        errorMessage := Some(NeedTwoOnStack);
        return;
      }
      var val1 := TakeTop();
      var val2 := TakeTop();
      stack := stack + [val1];
      stack := stack + [val2];
      errorMessage := None;
    }

    /** The `sqrt` branch of `operation`. */
    method SquareRoot()
      modifies this
      ensures Abs() == SqrtTop(num, old(stack))
    {
      if |stack| < 1 {
        errorMessage := Some(NeedOneForSqrt);
        return;
      }
      var a := TakeTop();
      if num.isNeg(a) {
        errorMessage := Some(NegativeSqrt);
        stack := stack + [a];
        return;
      }
      var result := num.sqrt(a);
      stack := stack + [result];
      errorMessage := None;
    }

    /** The `pow` branch of `operation`: squaring only. */
    method Square()
      modifies this
      ensures Abs() == PowTop(num, old(stack))
    {
      if |stack| < 1 {
        errorMessage := Some(NeedOneForPower);
        return;
      }
      var a := TakeTop();
      var result := num.mul(a, a);
      stack := stack + [result];
      errorMessage := None;
    }

    /** The branch of `operation` for `+`, `-`, `*` and `/`. */
    method Arithmetic(op: string)
      requires op in Operators.BinaryTokens
      modifies this
      ensures Abs() == BinaryTop(num, old(stack), Operators.ParseOp(op))
    {
      if |stack| < 2 {
        errorMessage := Some(NeedTwoFor(op));
        return;
      }
      var b := TakeTop();
      var a := TakeTop();
      var result: T;
      if op == "+" {
        result := num.add(a, b);
      } else if op == "-" {
        result := num.sub(a, b);
      } else if op == "*" {
        result := num.mul(a, b);
      } else {
        // Only "/" is left, so the original's `default` case cannot be reached.
        assert op == "/";
        if num.isZero(b) {
          errorMessage := Some(DivisionByZero);
          stack := stack + [a];
          stack := stack + [b];
          return;
        }
        result := num.div(a, b);
      }
      stack := stack + [result];
      errorMessage := None;
    }

    /** Dispatches on the operator token; see `Semantics.OperationOn`. */
    method Operation(op: string)
      modifies this
      ensures Abs() == OperationOn(num, old(stack), Operators.ParseOp(op))
    {
      if op == "swap" {
        Swap();
        return;
      }
      if op == "sqrt" {
        SquareRoot();
        return;
      }
      if op == "pow" {
        Square();
        return;
      }
      if op == "+" || op == "-" || op == "*" || op == "/" {
        Arithmetic(op);
        return;
      }
      errorMessage := Some(UnknownOperation(op));
    }
  }
}
