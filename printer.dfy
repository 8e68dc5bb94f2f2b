/**
 * The syntax-tree printer: an expression as parenthesized prefix text.
 *
 * Kotlin's `toString` of a number and of a token are not part of this model;
 * the printer is given them as `Texts`.
 */
module Printing {
  import opened Lexicon
  import opened Syntax

  /** The text of a number literal and of a token, as their `toString` gives it. */
  datatype Texts = Texts(number: real -> string, token: Token -> string)

  /** `" " + part` for each part, in order. */
  function Spaced(parts: seq<string>): (text: string)
    ensures |text| >= |parts|
    decreases |parts|
  {
    if |parts| == 0 then "" else Spaced(parts[..|parts| - 1]) + " " + parts[|parts| - 1]
  }

  /** `parenthesize(name, e1, ..., en)` once the operands are printed. */
  function Parens(name: string, parts: seq<string>): (text: string)
    ensures |text| >= 2 && text[0] == '(' && text[|text| - 1] == ')'
  {
    "(" + name + Spaced(parts) + ")"
  }

  /** A literal's text: "nil" for the null value, otherwise the value's `toString`. */
  function LiteralText(v: Value, texts: Texts): (text: string)
    ensures v.Nil? ==> text == "nil"
    ensures v.Bool? ==> text == (if v.b then "true" else "false")
    ensures v.Str? ==> text == v.s
    ensures v.Num? ==> text == texts.number(v.n)
  {
    match v
    case Nil => "nil"
    case Bool(b) => if b then "true" else "false"
    case Num(n) => texts.number(n)
    case Str(s) => s
  }

  /** `print`: what each visitor renders. */
  function Render(e: Expr, texts: Texts): string {
    match e
    case Binary(left, operator, right) => Parens(operator.lexeme, [Render(left, texts), Render(right, texts)])
    case Call(_, paren, _) => Parens("Call " + paren.lexeme, [])
    case GetExpr(_, _) => Parens("getExpr", [])
    case Logical(_, operator, _) => Parens(operator.lexeme, [])
    case SetExpr(_, _, _) => Parens("setExpr", [])
    case SuperExpr(_, _) => Parens("super", [])
    case ThisExpr(_, _) => Parens("this", [])
    case Grouping(expression) => Parens("group", [Render(expression, texts)])
    case Literal(v) => LiteralText(v, texts)
    case Variable(_, name) => Parens(texts.token(name), [])
    case Assign(_, name, _) => texts.token(name)
    case Unary(operator, right) => Parens(operator.lexeme, [Render(right, texts)])
  }

  /** Each expression printed, in order. */
  function RenderAll(exprs: seq<Expr>, texts: Texts): (parts: seq<string>)
    ensures |parts| == |exprs|
    ensures forall i | 0 <= i < |exprs| :: parts[i] == Render(exprs[i], texts)
    decreases |exprs|
  {
    if |exprs| == 0 then [] else RenderAll(exprs[..|exprs| - 1], texts) + [Render(exprs[|exprs| - 1], texts)]
  }

  /** The number of nodes the printer visits. */
  function Size(e: Expr): (n: nat)
    ensures n >= 1
  {
    match e
    case Binary(left, _, right) => 1 + Size(left) + Size(right)
    case Grouping(expression) => 1 + Size(expression)
    case Unary(_, right) => 1 + Size(right)
    case _ => 1
  }

  /** `print(expr)`, dispatching to the visitors. */
  method Print(e: Expr, texts: Texts) returns (text: string)
    ensures text == Render(e, texts)
    decreases Size(e), 1
  {
    match e
    case Binary(left, operator, right) =>
      text := Parenthesize(operator.lexeme, [left, right], texts, Size(e));
      assert RenderAll([left, right], texts) == [Render(left, texts), Render(right, texts)];
    case Call(_, paren, _) => text := Parenthesize("Call " + paren.lexeme, [], texts, Size(e));
    case GetExpr(_, _) => text := Parenthesize("getExpr", [], texts, Size(e));
    case Logical(_, operator, _) => text := Parenthesize(operator.lexeme, [], texts, Size(e));
    case SetExpr(_, _, _) => text := Parenthesize("setExpr", [], texts, Size(e));
    case SuperExpr(_, _) => text := Parenthesize("super", [], texts, Size(e));
    case ThisExpr(_, _) => text := Parenthesize("this", [], texts, Size(e));
    case Grouping(expression) =>
      text := Parenthesize("group", [expression], texts, Size(e));
      assert RenderAll([expression], texts) == [Render(expression, texts)];
    case Literal(v) => text := LiteralText(v, texts);
    case Variable(_, name) => text := Parenthesize(texts.token(name), [], texts, Size(e));
    case Assign(_, name, _) => text := texts.token(name);
    case Unary(operator, right) =>
      text := Parenthesize(operator.lexeme, [right], texts, Size(e));
      assert RenderAll([right], texts) == [Render(right, texts)];
  }

  /**
   * `parenthesize`: a builder that appends "(", the name, a space and the
   * printed text of each operand, then ")". `bound` exceeds the size of every
   * operand: the operands are children of the node being printed.
   */
  method Parenthesize(name: string, exprs: seq<Expr>, texts: Texts, ghost bound: nat) returns (text: string)
    requires forall x | x in exprs :: Size(x) < bound
    ensures text == Parens(name, RenderAll(exprs, texts))
    decreases bound, 0
  {
    var builder := "(" + name;
    for i := 0 to |exprs|
      invariant builder == "(" + name + Spaced(RenderAll(exprs[..i], texts))
    {
      ghost var before := RenderAll(exprs[..i], texts);
      builder := builder + " ";
      var part := Print(exprs[i], texts);
      builder := builder + part;
      RenderStep(exprs, i, texts);
      assert Spaced(before + [part]) == Spaced(before) + " " + part by {
        assert (before + [part])[..|before|] == before;
      }
    }
    assert exprs[..|exprs|] == exprs;
    text := builder + ")";
  }

  lemma RenderStep(exprs: seq<Expr>, i: nat, texts: Texts)
    requires i < |exprs|
    ensures RenderAll(exprs[..i + 1], texts) == RenderAll(exprs[..i], texts) + [Render(exprs[i], texts)]
  {
    assert exprs[..i + 1][..i] == exprs[..i];
  }

  /** Every node but a literal and an assignment prints inside one pair of parentheses. */
  lemma Parenthesized(e: Expr, texts: Texts)
    requires !e.Literal? && !e.Assign?
    ensures var text := Render(e, texts); |text| >= 2 && text[0] == '(' && text[|text| - 1] == ')'
  {
  }

  /** One operand: a space and its text. */
  lemma SpacedOne(a: string)
    ensures Spaced([a]) == " " + a
  {
    assert [a][..0] == [];
  }

  /** Two operands: each preceded by a space. */
  lemma {:induction false} SpacedTwo(a: string, b: string)
    ensures Spaced([a, b]) == " " + a + " " + b
  {
    assert [a, b][..1] == [a];
    SpacedOne(a);
  }

  /** A binary node prints as `(op left right)`. */
  lemma {:induction false} BinaryText(left: Expr, operator: Token, right: Expr, texts: Texts)
    ensures Render(Binary(left, operator, right), texts) ==
      "(" + operator.lexeme + " " + Render(left, texts) + " " + Render(right, texts) + ")"
  {
    SpacedTwo(Render(left, texts), Render(right, texts));
  }

  /** A unary node prints as `(op right)` and a grouping as `(group inner)`. */
  lemma {:induction false} UnaryText(operator: Token, right: Expr, texts: Texts)
    ensures Render(Unary(operator, right), texts) == "(" + operator.lexeme + " " + Render(right, texts) + ")"
    ensures Render(Grouping(right), texts) == "(group " + Render(right, texts) + ")"
  {
    SpacedOne(Render(right, texts));
  }

  /** Calls, property reads and writes, logical operators, `this` and `super` print only a head in parentheses. */
  lemma {:induction false} HeadOnlyText(e: Expr, texts: Texts)
    ensures e.Call? ==> Render(e, texts) == "(Call " + e.paren.lexeme + ")"
    ensures e.GetExpr? ==> Render(e, texts) == "(getExpr)"
    ensures e.SetExpr? ==> Render(e, texts) == "(setExpr)"
    ensures e.Logical? ==> Render(e, texts) == "(" + e.operator.lexeme + ")"
    ensures e.ThisExpr? ==> Render(e, texts) == "(this)"
    ensures e.SuperExpr? ==> Render(e, texts) == "(super)"
  {
    assert Spaced([]) == "";
  }

  /** A nil literal prints "nil"; an assignment prints its name token's text alone, without parentheses. */
  lemma LeafText(id: nat, name: Token, value: Expr, texts: Texts)
    ensures Render(Literal(Value.Nil), texts) == "nil"
    ensures Render(Literal(Bool(true)), texts) == "true"
    ensures Render(Assign(id, name, value), texts) == texts.token(name)
  {
  }

  /** The printer's own sample tree, `-123 * (45.67)`, prints as `(* (- 123) (group 45.67))`. */
  lemma {:induction false} SampleTree(minus: Token, star: Token, texts: Texts)
    requires minus.lexeme == "-" && star.lexeme == "*"
    requires texts.number(123.0) == "123" && texts.number(45.67) == "45.67"
    ensures Render(Binary(Unary(minus, Literal(Num(123.0))), star, Grouping(Literal(Num(45.67)))), texts) ==
      "(* (- 123) (group 45.67))"
  {
    var negated := Unary(minus, Literal(Num(123.0)));
    var grouped := Grouping(Literal(Num(45.67)));
    BinaryText(negated, star, grouped, texts);
    UnaryText(minus, Literal(Num(123.0)), texts);
    UnaryText(minus, Literal(Num(45.67)), texts);
    assert Render(negated, texts) == "(- 123)";
    assert Render(grouped, texts) == "(group 45.67)";
  }
}
