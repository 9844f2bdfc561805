/**
 * The ordering of operator priorities: what precedence climbing relies on.
 * While the nesting offset stays at most MAX - 4 no priority wraps; the
 * last lemma shows what the unchecked C# addition does beyond that.
 */
module Priorities {
  import opened Wrappers
  import opened Int32Arith
  import opened Tokens

  /** The priority table, offset by the nesting level. */
  lemma TableValues(basePriority: int32)
    requires basePriority <= MAX - 4
    ensures ArithmeticPriority('+', basePriority) == Success(basePriority + 1)
    ensures ArithmeticPriority('-', basePriority) == Success(basePriority + 1)
    ensures ArithmeticPriority('*', basePriority) == Success(basePriority + 2)
    ensures ArithmeticPriority('/', basePriority) == Success(basePriority + 2)
    ensures ArithmeticPriority('^', basePriority) == Success(basePriority + 3)
    ensures ArithmeticPriority('=', basePriority) == Success(basePriority + 4)
  {
  }

  /** At one nesting level: `+` = `-` < `*` = `/` < `^` < `=` = any function. */
  lemma StrictOrder(basePriority: int32)
    requires basePriority <= MAX - 4
    ensures ArithmeticPriority('+', basePriority) == ArithmeticPriority('-', basePriority)
    ensures ArithmeticPriority('-', basePriority).value < ArithmeticPriority('*', basePriority).value
    ensures ArithmeticPriority('*', basePriority) == ArithmeticPriority('/', basePriority)
    ensures ArithmeticPriority('/', basePriority).value < ArithmeticPriority('^', basePriority).value
    ensures ArithmeticPriority('^', basePriority).value < ArithmeticPriority('=', basePriority).value
    ensures ArithmeticPriority('=', basePriority).value == FunctionPriority(basePriority)
  {
  }

  /**
   * A function outranks every evaluable binary operator at the same level
   * and ties with `=`; the tie holds even where the addition wraps.
   */
  lemma FunctionOutranksBinary(op: char, basePriority: int32)
    requires op in PrioritizedSymbols
    ensures op != '=' && basePriority <= MAX - 4 ==>
              ArithmeticPriority(op, basePriority).value < FunctionPriority(basePriority)
    ensures op == '=' ==> ArithmeticPriority(op, basePriority).value == FunctionPriority(basePriority)
  {
  }

  /**
   * Raising the nesting offset by k raises every arithmetic and function
   * priority by exactly k, and leaves the unary priority unchanged.
   */
  lemma ShiftByOffset(t: Token, basePriority: int32, k: int)
    requires t.IsOperator()
    requires basePriority <= MAX - 4 && MIN <= basePriority + k <= MAX - 4
    ensures Priority(t, basePriority + k).Success? == Priority(t, basePriority).Success?
    ensures Priority(t, basePriority).Success? && !t.TOpUnary? ==>
              Priority(t, basePriority + k).value == Priority(t, basePriority).value + k
    ensures t.TOpUnary? ==> Priority(t, basePriority + k) == Priority(t, basePriority)
  {
  }

  /** With a non-negative offset the unary operator never outranks another operator. */
  lemma UnaryNeverAbove(u: char, t: Token, basePriority: int32)
    requires t.IsOperator() && Priority(t, basePriority).Success?
    requires 0 <= basePriority <= MAX - 4
    ensures Priority(TOpUnary(u), basePriority).value <= Priority(t, basePriority).value
  {
  }

  /**
   * An operator one nesting step deeper outranks every operator outside it
   * exactly when the step is at least 4, the spread of the table.
   */
  lemma NestingDominates(outer: Token, inner: Token, outerBase: int32, innerBase: int32)
    requires outer.IsOperator() && !outer.TOpUnary? && Priority(outer, outerBase).Success?
    requires inner.IsOperator() && !inner.TOpUnary? && Priority(inner, innerBase).Success?
    requires outerBase <= MAX - 4 && innerBase <= MAX - 4
    requires innerBase >= outerBase + 4
    ensures Priority(inner, innerBase).value > Priority(outer, outerBase).value
  {
  }

  /** A nesting step below 4 lets `=` outside tie with or outrank `+` inside. */
  lemma NestingStepTooSmall(outerBase: int32, step: int)
    requires 0 <= step < 4 && outerBase <= MAX - 4 - step
    ensures ArithmeticPriority('+', outerBase + step).value <= ArithmeticPriority('=', outerBase).value
  {
  }

  /**
   * The C# addition is unchecked: at an offset of MAX - 3 the priority of
   * `=` wraps to MIN and falls below that of `+`.
   */
  lemma OrderBreaksOnOverflow()
    ensures ArithmeticPriority('=', MAX - 3) == Success(MIN)
    ensures ArithmeticPriority('+', MAX - 3) == Success(MAX - 2)
    ensures FunctionPriority(MAX - 3) == MIN
  {
  }
}
