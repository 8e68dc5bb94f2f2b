/**
 * The operator semantics of the tree-walking interpreter: truthiness,
 * equality, the operand checks and dispatch of the unary and binary
 * operators, and the text a value prints as.
 *
 * Numbers are exact reals rather than IEEE doubles, so the arithmetic is
 * exact; a division by zero, whose double result is an infinity or NaN, is
 * kept apart as `NotFinite` instead of being given a value.
 */
module Interpreting {
  import opened Lexicon
  import opened Syntax

  /** How evaluating an expression ends. */
  datatype Evaluation =
    | Ok(value: Value)
      /** `throw RuntimeError(token, message)`. */
    | Raised(token: Token, message: string)
      /** A Kotlin cast `as Double` of a value that is not a number (ClassCastException). */
    | CastFailure(token: Token)
      /** A division by zero: the double result has no real counterpart. */
    | NotFinite(token: Token)
      /** An expression kind the interpreter has no visitor for. */
    | NotEvaluated

  const OperandsMustBeNumbers := "Operands must be numbers"
  const NumbersOrStrings := "Both operands must be numbers or strings"

  /** `isTruthy`: nil and false are false; every other value, 0 and "" included, is true. */
  predicate IsTruthy(v: Value)
    ensures v.Nil? ==> !IsTruthy(v)
    ensures v.Bool? ==> (IsTruthy(v) <==> v.b)
    ensures v.Num? || v.Str? ==> IsTruthy(v)
  {
    if v.Nil? then false
    else if v.Bool? then v.b
    else true
  }

  /** `isEqual`: nil equals only nil; otherwise values are equal when they are the same kind and content. */
  predicate IsEqual(a: Value, b: Value)
    ensures a.Nil? ==> (IsEqual(a, b) <==> b.Nil?)
    ensures IsEqual(a, b) <==> a == b
  {
    if a.Nil? && b.Nil? then true
    else if a.Nil? then false
    else a == b
  }

  predicate BothNumbers(left: Value, right: Value) {
    left.Num? && right.Num?
  }

  /** `checkNumberOperands`: the operator's error unless both operands are numbers. */
  function CheckNumberOperands(operator: Token, left: Value, right: Value): (r: Option<Evaluation>)
    ensures r.None? <==> BothNumbers(left, right)
    ensures r.Some? ==> r.value == Raised(operator, OperandsMustBeNumbers)
  {
    if BothNumbers(left, right) then None else Some(Raised(operator, OperandsMustBeNumbers))
  }

  /** The unary operators on an evaluated operand: `-` casts without a check; `!` negates truthiness. */
  function ApplyUnary(operator: Token, right: Value): (r: Evaluation)
    ensures operator.kind == Minus ==> (r.Ok? <==> right.Num?)
    ensures operator.kind == Minus && right.Num? ==> r == Ok(Num(-right.n))
    ensures operator.kind == Minus && !right.Num? ==> r == CastFailure(operator)
    ensures operator.kind == Bang ==> r == Ok(Bool(!IsTruthy(right)))
    ensures operator.kind != Minus && operator.kind != Bang ==> r == Ok(Value.Nil)
  {
    if operator.kind == Minus then
      if right.Num? then Ok(Num(right.n * -1.0)) else CastFailure(operator)
    else if operator.kind == Bang then Ok(Bool(!IsTruthy(right)))
    else Ok(Value.Nil)
  }

  /** The numeric operators other than `/`: checked, then applied. */
  function Arithmetic(operator: Token, left: Value, right: Value): (r: Evaluation)
    requires operator.kind in {Minus, Star, Greater, GreaterEqual, Less, LessEqual}
    ensures r.Ok? <==> BothNumbers(left, right)
    ensures !r.Ok? ==> r == Raised(operator, OperandsMustBeNumbers)
  {
    match CheckNumberOperands(operator, left, right)
    case Some(error) => error
    case None =>
      match operator.kind
      case Minus => Ok(Num(left.n - right.n))
      case Star => Ok(Num(left.n * right.n))
      case Greater => Ok(Bool(left.n > right.n))
      case GreaterEqual => Ok(Bool(left.n >= right.n))
      case Less => Ok(Bool(left.n < right.n))
      case LessEqual => Ok(Bool(left.n <= right.n))
  }

  /** `/`: checked, then divided; a zero divisor has no exact result. */
  function Divide(operator: Token, left: Value, right: Value): (r: Evaluation)
    ensures !BothNumbers(left, right) ==> r == Raised(operator, OperandsMustBeNumbers)
    ensures BothNumbers(left, right) && right.n != 0.0 ==> r == Ok(Num(left.n / right.n))
    ensures BothNumbers(left, right) && right.n == 0.0 ==> r == NotFinite(operator)
  {
    match CheckNumberOperands(operator, left, right)
    case Some(error) => error
    case None => if right.n == 0.0 then NotFinite(operator) else Ok(Num(left.n / right.n))
  }

  /** `+`: numbers add, strings concatenate, anything else is an error. */
  function Add(operator: Token, left: Value, right: Value): (r: Evaluation)
    ensures r.Ok? <==> BothNumbers(left, right) || (left.Str? && right.Str?)
    ensures !r.Ok? ==> r == Raised(operator, NumbersOrStrings)
  {
    if BothNumbers(left, right) then Ok(Num(left.n + right.n))
    else if left.Str? && right.Str? then Ok(Str(left.s + right.s))
    else Raised(operator, NumbersOrStrings)
  }

  /** The binary operators on evaluated operands, by the operator's kind. */
  function ApplyBinary(operator: Token, left: Value, right: Value): (r: Evaluation)
    ensures operator.kind in {EqualEqual, BangEqual} ==> r.Ok? && r.value.Bool?
    ensures r.Raised? ==> r.token == operator
    ensures operator.kind !in {Minus, Slash, Star, Plus, Greater, GreaterEqual, Less, LessEqual, EqualEqual, BangEqual} ==>
      r == Ok(Value.Nil)
  {
    match operator.kind
    case Minus => Arithmetic(operator, left, right)
    case Slash => Divide(operator, left, right)
    case Star => Arithmetic(operator, left, right)
    case Plus => Add(operator, left, right)
    case Greater => Arithmetic(operator, left, right)
    case GreaterEqual => Arithmetic(operator, left, right)
    case Less => Arithmetic(operator, left, right)
    case LessEqual => Arithmetic(operator, left, right)
    case EqualEqual => Ok(Bool(IsEqual(left, right)))
    case BangEqual => Ok(Bool(!IsEqual(left, right)))
    case _ => Ok(Value.Nil)
  }

  /** The expression kinds this interpreter evaluates: literals, groupings, unary and binary operators. */
  predicate Evaluable(e: Expr) {
    match e
    case Literal(_) => true
    case Grouping(inner) => Evaluable(inner)
    case Unary(_, right) => Evaluable(right)
    case Binary(left, _, right) => Evaluable(left) && Evaluable(right)
    case _ => false
  }

  /**
   * `evaluate`: the operands of a unary or binary operator are evaluated
   * first, the left before the right, and the first failure ends the
   * evaluation; the operator is applied to their values.
   */
  function Evaluate(e: Expr): (r: Evaluation)
    ensures r.Ok? ==> Evaluable(e)
    ensures Evaluable(e) ==> !r.NotEvaluated?
  {
    match e
    case Literal(v) => Ok(v)
    case Grouping(inner) => Evaluate(inner)
    case Unary(operator, right) =>
      var operand := Evaluate(right);
      if !operand.Ok? then operand else ApplyUnary(operator, operand.value)
    case Binary(left, operator, right) =>
      var first := Evaluate(left);
      if !first.Ok? then first
      else
        var second := Evaluate(right);
        if !second.Ok? then second else ApplyBinary(operator, first.value, second.value)
    case _ => NotEvaluated
  }

  /** The text of a `Value`, given the text Kotlin's `Double.toString` gives a number. */
  function Stringify(v: Value, doubleText: string): (text: string)
    ensures v.Nil? ==> text == "nil"
    ensures v.Bool? ==> text == if v.b then "true" else "false"
    ensures v.Str? ==> text == v.s
    ensures v.Num? && EndsWithPointZero(doubleText) ==> text + ".0" == doubleText
    ensures v.Num? && !EndsWithPointZero(doubleText) ==> text == doubleText
  {
    match v
    case Nil => "nil"
    case Num(_) => if EndsWithPointZero(doubleText) then doubleText[..|doubleText| - 2] else doubleText
    case Bool(b) => if b then "true" else "false"
    case Str(s) => s
  }

  predicate EndsWithPointZero(text: string) {
    |text| >= 2 && text[|text| - 2..] == ".0"
  }
}
