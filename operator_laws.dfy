/**
 * Laws of the interpreter's operators: how truthiness, equality and the
 * operand checks show through whole expressions.
 */
module OperatorLaws {
  import opened Lexicon
  import opened Syntax
  import opened Interpreting

  /** Zero and the empty string are true, like every value but nil and false. */
  lemma ZeroAndEmptyAreTruthy()
    ensures IsTruthy(Num(0.0)) && IsTruthy(Str(""))
    ensures !IsTruthy(Value.Nil) && !IsTruthy(Bool(false))
  {
  }

  /** `a != b` is exactly the negation of `a == b`, and neither raises. */
  lemma {:induction false} NotEqualNegatesEqual(eq: Token, ne: Token, a: Expr, b: Expr)
    requires eq.kind == EqualEqual && ne.kind == BangEqual
    requires Evaluate(a).Ok? && Evaluate(b).Ok?
    ensures Evaluate(Binary(a, eq, b)) == Ok(Bool(Evaluate(a).value == Evaluate(b).value))
    ensures Evaluate(Binary(a, ne, b)) == Ok(Bool(Evaluate(a).value != Evaluate(b).value))
  {
    assert Evaluate(Binary(a, eq, b)) == ApplyBinary(eq, Evaluate(a).value, Evaluate(b).value);
    assert Evaluate(Binary(a, ne, b)) == ApplyBinary(ne, Evaluate(a).value, Evaluate(b).value);
  }

  /** `!x` is exactly the negation of the truthiness of `x`. */
  lemma {:induction false} BangNegatesTruthiness(bang: Token, e: Expr)
    requires bang.kind == Bang && Evaluate(e).Ok?
    ensures Evaluate(Unary(bang, e)) == Ok(Bool(!IsTruthy(Evaluate(e).value)))
  {
    assert Evaluate(Unary(bang, e)) == ApplyUnary(bang, Evaluate(e).value);
  }

  /**
   * Both operands are evaluated, the left first, before the operator looks at
   * their types: a failing left operand decides the outcome, then a failing
   * right one, and only then the operator.
   */
  lemma {:induction false} OperandsFirst(left: Expr, operator: Token, right: Expr)
    ensures !Evaluate(left).Ok? ==> Evaluate(Binary(left, operator, right)) == Evaluate(left)
    ensures Evaluate(left).Ok? && !Evaluate(right).Ok? ==> Evaluate(Binary(left, operator, right)) == Evaluate(right)
    ensures Evaluate(left).Ok? && Evaluate(right).Ok? ==>
      Evaluate(Binary(left, operator, right)) == ApplyBinary(operator, Evaluate(left).value, Evaluate(right).value)
  {
    var e := Binary(left, operator, right);
    assert Evaluate(e) == if !Evaluate(left).Ok? then Evaluate(left)
      else if !Evaluate(right).Ok? then Evaluate(right)
      else ApplyBinary(operator, Evaluate(left).value, Evaluate(right).value);
  }

  /** `-"a" + -true`: the left negation's failed cast ends the evaluation before `+` checks its operands. */
  lemma {:induction false} LeftFailureWins(minus: Token, plus: Token, other: Token, s: string)
    requires minus.kind == Minus && plus.kind == Plus && other.kind == Minus
    ensures Evaluate(Binary(Unary(minus, Literal(Str(s))), plus, Unary(other, Literal(Bool(true))))) == CastFailure(minus)
  {
    var left := Unary(minus, Literal(Str(s)));
    assert Evaluate(left) == CastFailure(minus) by {
      assert Evaluate(left) == ApplyUnary(minus, Str(s));
    }
    OperandsFirst(left, plus, Unary(other, Literal(Bool(true))));
  }

  /** `+` on literals: numbers add, strings concatenate, every other pair raises. */
  lemma {:induction false} PlusDispatch(plus: Token, a: Value, b: Value)
    requires plus.kind == Plus
    ensures a.Num? && b.Num? ==> Evaluate(Binary(Literal(a), plus, Literal(b))) == Ok(Num(a.n + b.n))
    ensures a.Str? && b.Str? ==> Evaluate(Binary(Literal(a), plus, Literal(b))) == Ok(Str(a.s + b.s))
    ensures !(a.Num? && b.Num?) && !(a.Str? && b.Str?) ==>
      Evaluate(Binary(Literal(a), plus, Literal(b))) == Raised(plus, NumbersOrStrings)
  {
    OperandsFirst(Literal(a), plus, Literal(b));
    assert ApplyBinary(plus, a, b) == Add(plus, a, b);
  }

  /** `-`, `*`, `>`, `>=`, `<` and `<=` on literals raise exactly when an operand is not a number. */
  lemma {:induction false} NumericOperands(operator: Token, a: Value, b: Value)
    requires operator.kind in {Minus, Star, Greater, GreaterEqual, Less, LessEqual}
    ensures Evaluate(Binary(Literal(a), operator, Literal(b))).Ok? <==> a.Num? && b.Num?
    ensures !(a.Num? && b.Num?) ==> Evaluate(Binary(Literal(a), operator, Literal(b))) == Raised(operator, OperandsMustBeNumbers)
  {
    OperandsFirst(Literal(a), operator, Literal(b));
    assert ApplyBinary(operator, a, b) == Arithmetic(operator, a, b);
  }

  /** `/` on literals raises exactly when an operand is not a number. */
  lemma {:induction false} DivisionOperands(slash: Token, a: Value, b: Value)
    requires slash.kind == Slash
    ensures Evaluate(Binary(Literal(a), slash, Literal(b))).Raised? <==> !(a.Num? && b.Num?)
    ensures !(a.Num? && b.Num?) ==> Evaluate(Binary(Literal(a), slash, Literal(b))) == Raised(slash, OperandsMustBeNumbers)
  {
    OperandsFirst(Literal(a), slash, Literal(b));
    assert ApplyBinary(slash, a, b) == Divide(slash, a, b);
  }

  /** A whole number prints without its `.0`: the text of 3.0 is "3". */
  lemma {:induction false} IntegralNumberText(n: real, digits: string)
    ensures Stringify(Num(n), digits + ".0") == digits
  {
    var text := digits + ".0";
    assert text[|text| - 2..] == ".0";
    assert text[..|text| - 2] == digits;
  }
}
