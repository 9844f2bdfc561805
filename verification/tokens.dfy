/**
 * The token model of the expression evaluator: the closed family of token
 * kinds, their priorities, the dispatch of the operators' evaluation and
 * the diagnostic text of each token.
 *
 * The evaluator that owns the tokens is not part of this model. Its
 * current nesting offset (`BasePriority`) and its variable lookup
 * (`GetVariable`) are parameters of the functions that read them.
 */
module Tokens {
  import opened Wrappers
  import opened Int32Arith
  import opened Decimal

  /** A double-precision number; only exact operations (negation) are interpreted. */
  type Double = real

  /** One token; the abstract C# bases TNumber and TOperator become the predicates below. */
  datatype Token =
    | TLiteral(value: Double)
    | TVariable(name: string)
    | TOpArithmetic(op: char)
    | TOpUnary(unary: char)
    | TOpFunction(func: string)
    | TPunctuation(punct: char)
    | TEnd
    | TError(message: string)
  {
    /** The kinds deriving from TNumber, which have a Value. */
    predicate IsNumber() { TLiteral? || TVariable? }

    /** The kinds deriving from TOperator, which have a Priority. */
    predicate IsOperator() { TOpArithmetic? || TOpUnary? || TOpFunction? }
  }

  /** The exceptions the token members throw. */
  datatype Exception =
    | EvalException(message: string)
    | KeyNotFoundException(key: char)  // the priority dictionary has no entry for the symbol

  /** The intrinsic priorities of the binary operators. */
  const PriorityTable: map<char, int32> :=
    map['+' := 1, '-' := 1, '*' := 2, '/' := 2, '^' := 3, '=' := 4]

  /** The symbols with an intrinsic priority. */
  const PrioritizedSymbols: set<char> := {'+', '-', '*', '/', '^', '='}

  /** The symbols binary Evaluate accepts. */
  const EvaluableSymbols: set<char> := {'+', '-', '*', '/', '^'}

  /** The names function Evaluate accepts. */
  const FunctionNames: set<string> :=
    {"sin", "cos", "tan", "sqrt", "log", "exp", "asin", "acos", "atan"}

  /** The value of a number token; a variable is looked up when the value is read. */
  function Value(t: Token, getVariable: string -> Double): (r: Double)
    requires t.IsNumber()
    ensures t.TLiteral? ==> r == t.value
    ensures t.TVariable? ==> r == getVariable(t.name)
  {
    match t
    case TLiteral(v) => v
    case TVariable(n) => getVariable(n)
  }

  /** TOpArithmetic.Priority: the table entry plus the nesting offset, added as C# `int`. */
  function ArithmeticPriority(op: char, basePriority: int32): (r: Result<int32, Exception>)
    ensures r.Success? <==> op in PrioritizedSymbols
    ensures r.Failure? ==> r.error == KeyNotFoundException(op)
    ensures r.Success? && basePriority <= MAX - 4 ==>
              basePriority + 1 <= r.value <= basePriority + 4
  {
    if op in PriorityTable then Success(Add(PriorityTable[op], basePriority))
    else Failure(KeyNotFoundException(op))
  }

  /** TOpUnary.Priority: fixed, whatever the nesting offset. */
  const UnaryPriority: int32 := 1

  /** TOpFunction.Priority: `4 + BasePriority`, added as C# `int`. */
  function FunctionPriority(basePriority: int32): (r: int32)
    ensures basePriority <= MAX - 4 ==> r == basePriority + 4
  {
    Add(4, basePriority)
  }

  /** The virtual TOperator.Priority, dispatched on the operator kind. */
  function Priority(t: Token, basePriority: int32): (r: Result<int32, Exception>)
    requires t.IsOperator()
    ensures r.Failure? <==> t.TOpArithmetic? && t.op !in PrioritizedSymbols
    ensures t.TOpUnary? ==> r == Success(1)
    ensures r.Success? && !t.TOpUnary? && basePriority <= MAX - 4 ==>
              basePriority + 1 <= r.value <= basePriority + 4
  {
    match t
    case TOpArithmetic(op) => ArithmeticPriority(op, basePriority)
    case TOpUnary(_) => Success(UnaryPriority)
    case TOpFunction(_) => Success(FunctionPriority(basePriority))
  }

  /** The double operation a binary operator performs. */
  datatype ArithmeticKind = Sum | Difference | Product | Quotient | Power

  /** The symbol that selects each operation. */
  function SymbolOf(k: ArithmeticKind): (c: char)
    ensures c in EvaluableSymbols
  {
    match k
    case Sum => '+'
    case Difference => '-'
    case Product => '*'
    case Quotient => '/'
    case Power => '^'
  }

  /** An IEEE-754 double operation applied to its operands, left unevaluated. */
  datatype DoubleCall = DoubleCall(kind: ArithmeticKind, lhs: Double, rhs: Double)

  /** TOpArithmetic.Evaluate: which operation `a op b` performs, or the exception it throws. */
  function EvaluateBinary(op: char, a: Double, b: Double): (r: Result<DoubleCall, Exception>)
    ensures r.Success? <==> op in EvaluableSymbols
    ensures r.Success? ==> SymbolOf(r.value.kind) == op && r.value.lhs == a && r.value.rhs == b
    ensures r.Failure? ==> r.error == EvalException("Unknown operator: " + [op])
  {
    match op
    case '+' => Success(DoubleCall(Sum, a, b))
    case '-' => Success(DoubleCall(Difference, a, b))
    case '*' => Success(DoubleCall(Product, a, b))
    case '/' => Success(DoubleCall(Quotient, a, b))
    case '^' => Success(DoubleCall(Power, a, b))
    case _ => Failure(EvalException("Unknown operator: " + [op]))
  }

  /** TOpUnary.Apply: the sign a unary operator gives its operand. */
  function ApplyUnary(unary: char, f: Double): (r: Double)
    ensures unary == '-' ==> r + f == 0.0
    ensures unary != '-' ==> r == f
  {
    match unary
    case '-' => -f
    case _ => f
  }

  /** The Math library function a function token calls. */
  datatype MathFunction = Sin | Cos | Tan | Sqrt | Log | Exp | Asin | Acos | Atan

  /** The degree/radian conversion applied around the library call. */
  datatype AngleConversion = Unconverted | DegreesToRadians | RadiansToDegrees

  /**
   * `output(fn(input(arg)))`, left unevaluated: the library call with the
   * conversion of its argument (`f * PI / 180`) and of its result (`f * 180 / PI`).
   */
  datatype MathCall = MathCall(input: AngleConversion, fn: MathFunction, output: AngleConversion, arg: Double)

  /** The name that selects each library function. */
  function NameOf(fn: MathFunction): (name: string)
    ensures name in FunctionNames
  {
    match fn
    case Sin => "sin"
    case Cos => "cos"
    case Tan => "tan"
    case Sqrt => "sqrt"
    case Log => "log"
    case Exp => "exp"
    case Asin => "asin"
    case Acos => "acos"
    case Atan => "atan"
  }

  /** TOpFunction.Evaluate: which library call `func(f)` makes, or the exception it throws. */
  function EvaluateFunction(func: string, f: Double): (r: Result<MathCall, Exception>)
    ensures r.Success? <==> func in FunctionNames
    ensures r.Success? ==> NameOf(r.value.fn) == func && r.value.arg == f
    ensures r.Success? ==>
              (r.value.input == DegreesToRadians <==> r.value.fn in {Sin, Cos, Tan}) &&
              (r.value.output == RadiansToDegrees <==> r.value.fn in {Asin, Acos, Atan}) &&
              r.value.input != RadiansToDegrees && r.value.output != DegreesToRadians
    ensures r.Failure? ==> r.error == EvalException("Unknown function: " + func)
  {
    match func
    case "sin" => Success(MathCall(DegreesToRadians, Sin, Unconverted, f))
    case "cos" => Success(MathCall(DegreesToRadians, Cos, Unconverted, f))
    case "tan" => Success(MathCall(DegreesToRadians, Tan, Unconverted, f))
    case "sqrt" => Success(MathCall(Unconverted, Sqrt, Unconverted, f))
    case "log" => Success(MathCall(Unconverted, Log, Unconverted, f))
    case "exp" => Success(MathCall(Unconverted, Exp, Unconverted, f))
    case "asin" => Success(MathCall(Unconverted, Asin, RadiansToDegrees, f))
    case "acos" => Success(MathCall(Unconverted, Acos, RadiansToDegrees, f))
    case "atan" => Success(MathCall(Unconverted, Atan, RadiansToDegrees, f))
    case _ => Failure(EvalException("Unknown function: " + func))
  }

  /** The text C#'s Object.ToString gives a class that does not override it. */
  const UnaryTypeName: string := "Eval.TOpUnary"

  /**
   * ToString of every token but a literal. An operator shows the priority
   * it has at the current nesting offset, so an arithmetic symbol without
   * a table entry throws while being shown.
   */
  function ToString(t: Token, basePriority: int32): (r: Result<string, Exception>)
    requires !t.TLiteral?
    ensures r.Failure? <==> t.TOpArithmetic? && t.op !in PrioritizedSymbols
    ensures r.Failure? ==> r.error == KeyNotFoundException(t.op)
    ensures r.Success? ==> |r.value| >= 3
  {
    match t
    case TVariable(n) => Success("var:" + n)
    case TOpArithmetic(c) =>
      (match ArithmeticPriority(c, basePriority)
       case Success(p) => Success("op:" + [c] + ":" + IntToString(p))
       case Failure(e) => Failure(e))
    case TOpUnary(_) => Success(UnaryTypeName)
    case TOpFunction(f) => Success("func:" + f + ":" + IntToString(FunctionPriority(basePriority)))
    case TPunctuation(c) => Success("punct:" + [c])
    case TEnd => Success("end")
    case TError(m) => Success("error:" + m)
  }
}
