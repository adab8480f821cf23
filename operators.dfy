/**
 * The operator tokens accepted by `operation`. The engine dispatches on the
 * token string; here the tokens become a datatype with one constructor per
 * recognised operator and `Unknown` for everything else.
 */
module Operators {

  datatype Op = Swap | Sqrt | Pow | Add | Sub | Mul | Div | Unknown(token: string)
  {
    /** The four operators that pop two operands and push one result. */
    predicate IsBinary() {
      Add? || Sub? || Mul? || Div?
    }

    /** The token string this operator is written as. */
    function Token(): string {
      match this
      case Swap => "swap"
      case Sqrt => "sqrt"
      case Pow => "pow"
      case Add => "+"
      case Sub => "-"
      case Mul => "*"
      case Div => "/"
      case Unknown(t) => t
    }
  }

  /** The tokens the engine recognises. */
  const Keywords: set<string> := {"swap", "sqrt", "pow", "+", "-", "*", "/"}

  /** The tokens the binary-operation guard accepts. */
  const BinaryTokens: set<string> := {"+", "-", "*", "/"}

  /**
   * Classifies a token the way the chain of string comparisons in
   * `operation` does. Every token is classified, so no token is lost, and
   * a token is binary exactly when the guard before the `switch` admits it.
   */
  function ParseOp(s: string): (op: Op)
    ensures op.Token() == s
    ensures op.Unknown? <==> s !in Keywords
    ensures op.IsBinary() <==> s in BinaryTokens
  {
    if s == "swap" then Swap
    else if s == "sqrt" then Sqrt
    else if s == "pow" then Pow
    else if s == "+" then Add
    else if s == "-" then Sub
    else if s == "*" then Mul
    else if s == "/" then Div
    else Unknown(s)
  }

  /** Reading back an operator's token yields the same operator. */
  lemma ParseOpToken(op: Op)
    requires op.Unknown? ==> op.token !in Keywords
    ensures ParseOp(op.Token()) == op
  {
  }
}
