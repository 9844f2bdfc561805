/**
 * Which symbols and names the operators accept, what they do with their
 * operands, and what a number token's value is.
 */
module Dispatch {
  import opened Wrappers
  import opened Int32Arith
  import opened Tokens

  /** Every binary operation is selected by exactly its own symbol. */
  lemma BinarySymbolsSelectOperations(k: ArithmeticKind, a: Double, b: Double)
    ensures EvaluateBinary(SymbolOf(k), a, b) == Success(DoubleCall(k, a, b))
  {
  }

  /** Distinct operations have distinct symbols. */
  lemma SymbolOfInjective(k1: ArithmeticKind, k2: ArithmeticKind)
    requires SymbolOf(k1) == SymbolOf(k2)
    ensures k1 == k2
  {
  }

  /** `=` has a priority but no binary evaluation: evaluating it throws. */
  lemma AssignmentNotEvaluable(basePriority: int32, a: Double, b: Double)
    ensures ArithmeticPriority('=', basePriority).Success?
    ensures EvaluateBinary('=', a, b) == Failure(EvalException("Unknown operator: ="))
  {
    assert "Unknown operator: " + ['='] == "Unknown operator: =";
  }

  /** Every symbol binary Evaluate accepts also has a priority. */
  lemma EvaluableHasPriority(op: char, basePriority: int32, a: Double, b: Double)
    requires EvaluateBinary(op, a, b).Success?
    ensures ArithmeticPriority(op, basePriority).Success?
  {
  }

  /** Every library function is selected by exactly its own name. */
  lemma FunctionNamesSelectFunctions(fn: MathFunction, f: Double)
    ensures EvaluateFunction(NameOf(fn), f).Success?
    ensures EvaluateFunction(NameOf(fn), f).value.fn == fn
  {
  }

  /** Distinct library functions have distinct names. */
  lemma NameOfInjective(fn1: MathFunction, fn2: MathFunction)
    requires NameOf(fn1) == NameOf(fn2)
    ensures fn1 == fn2
  {
  }

  /** Unary `-` negates; any other unary symbol leaves the operand as it is. */
  lemma UnarySign(u: char, f: Double)
    ensures ApplyUnary(u, f) == f <==> u != '-' || f == 0.0
    ensures u == '-' ==> ApplyUnary(u, f) + f == 0.0
  {
  }

  /** Applying a unary operator twice gives back the operand. */
  lemma UnaryInvolution(u: char, f: Double)
    ensures ApplyUnary(u, ApplyUnary(u, f)) == f
  {
  }

  /**
   * A literal's value does not depend on the variables at all; a
   * variable's value depends on the lookup of its name only.
   */
  lemma ValueOfNumbers(t: Token, g1: string -> Double, g2: string -> Double)
    requires t.IsNumber()
    ensures t.TLiteral? ==> Value(t, g1) == Value(t, g2)
    ensures t.TVariable? && g1(t.name) == g2(t.name) ==> Value(t, g1) == Value(t, g2)
  {
  }
}
