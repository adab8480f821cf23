/**
 * A client of the engine, as the presentation layer uses it, checking the
 * engine's documented examples from the method contracts alone.
 */
module Scenarios {

  import opened Wrappers
  import opened Semantics
  import opened Calculator

  /**
   * `six` and `zero` are tokens the host parses to a number and to a zero
   * divisor; `three` parses to a value whose square is `nine`.
   */
  method DocumentedExamples<T>(num: Numerics<T>, six: string, zero: string, three: string)
    requires num.parse(six).Some? && num.parse(zero).Some? && num.parse(three).Some?
    requires num.isZero(num.parse(zero).value)
  {
    var c := new RPNCalculator(num);
    var a, z := num.parse(six).value, num.parse(zero).value;

    // Division by zero leaves both operands in place.
    var ok := c.Push(six);
    ok := c.Push(zero);
    var before := c.GetStack();
    c.Operation("/");
    var after := c.GetStack();
    var e := c.GetError();
    assert before == after == [a, z];
    assert e == Some(DivisionByZero);

    // An unknown token changes nothing but the error slot; the earlier
    // snapshot is unaffected by later calls.
    c.Operation("foo");
    e := c.GetError();
    assert c.stack == before && e == Some(UnknownOperation("foo"));

    // Subtraction takes the top as its right operand.
    c.Operation("-");
    assert c.stack == [num.sub(a, z)] && c.errorMessage == None;
    assert before == [a, z];

    // Squaring replaces the single element by its square.
    c.Clear();
    ok := c.Push(three);
    c.Operation("pow");
    var t := num.parse(three).value;
    assert c.stack == [num.mul(t, t)];

    // Drop then duplicate on a one-element stack reports the empty stack.
    c.Drop();
    c.Duplicate();
    assert c.stack == [] && c.errorMessage == Some(NothingToDuplicate);
    var top := c.Pop();
    assert top == None && c.errorMessage == Some(StackEmpty);
  }
}
