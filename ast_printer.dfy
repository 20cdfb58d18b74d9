// lib/rlox/ast_printer.rb: renders an expression tree in prefix form, each
// operator node as a parenthesised list of its name and its operands.
module AstPrinter {
  import opened Tokens
  import opened Ast

  /** The node kinds the printer has a visitor for. */
  predicate Printable(e: Expr)
  {
    match e
    case Binary(left, _, right) => Printable(left) && Printable(right)
    case Grouping(expression) => Printable(expression)
    case Literal(_) => true
    case Unary(_, right) => Printable(right)
    case _ => false
  }

  /** A literal's text: `nil` for nil, otherwise the value's own text. A
      number literal prints as its lexeme. */
  function LiteralText(lit: Lit): string
  {
    match lit
    case LitNil => "nil"
    case LitBool(b) => if b then "true" else "false"
    case LitNumber(text) => text
    case LitString(text) => text
  }

  /** `print`: an operator node as `(name operand operand)`, a literal as
      its text. */
  function Print(e: Expr): (r: string)
    requires Printable(e)
    ensures !e.Literal? ==> |r| >= 2 && r[0] == '(' && r[|r| - 1] == ')'
    ensures e.Literal? ==> r == LiteralText(e.lit)
  {
    match e
    case Binary(left, operator, right) => Parenthesize(operator.lexeme, [Print(left), Print(right)])
    case Grouping(expression) => Parenthesize("group", [Print(expression)])
    case Literal(lit) => LiteralText(lit)
    case Unary(operator, right) => Parenthesize(operator.lexeme, [Print(right)])
  }

  /** The operands' texts separated by single spaces. */
  function Joined(parts: seq<string>): string
  {
    if parts == [] then "" else if |parts| == 1 then parts[0] else parts[0] + " " + Joined(parts[1..])
  }

  /** `parenthesize`: the name and the operands' texts, space separated,
      inside one pair of parentheses. */
  function Parenthesize(name: string, parts: seq<string>): (r: string)
    ensures |r| >= 2 && r[0] == '(' && r[|r| - 1] == ')'
  {
    "(" + name + " " + Joined(parts) + ")"
  }

  function Occurrences(s: string, c: char): nat
  {
    if s == [] then 0 else (if s[0] == c then 1 else 0) + Occurrences(s[1..], c)
  }

  lemma {:induction false} OccurrencesAppend(a: string, b: string, c: char)
    ensures Occurrences(a + b, c) == Occurrences(a, c) + Occurrences(b, c)
  {
    if a == [] {
      assert a + b == b;
    } else {
      assert (a + b)[0] == a[0] && (a + b)[1..] == a[1..] + b;
      OccurrencesAppend(a[1..], b, c);
    }
  }

  /** No operator lexeme and no literal text in the tree contains a
      parenthesis. */
  predicate Parenless(e: Expr)
    requires Printable(e)
  {
    match e
    case Binary(left, operator, right) =>
      Occurrences(operator.lexeme, '(') == 0 && Occurrences(operator.lexeme, ')') == 0
      && Parenless(left) && Parenless(right)
    case Grouping(expression) => Parenless(expression)
    case Literal(lit) => Occurrences(LiteralText(lit), '(') == 0 && Occurrences(LiteralText(lit), ')') == 0
    case Unary(operator, right) =>
      Occurrences(operator.lexeme, '(') == 0 && Occurrences(operator.lexeme, ')') == 0 && Parenless(right)
  }

  /** Every operator node contributes exactly one pair of parentheses. */
  function OperatorNodes(e: Expr): nat
  {
    match e
    case Binary(left, _, right) => 1 + OperatorNodes(left) + OperatorNodes(right)
    case Grouping(expression) => 1 + OperatorNodes(expression)
    case Unary(_, right) => 1 + OperatorNodes(right)
    case _ => 0
  }

  lemma OccurrencesOfParenthesized(name: string, parts: seq<string>, c: char)
    requires |parts| == 1 || |parts| == 2
    ensures Occurrences(Parenthesize(name, parts), c) ==
      Occurrences("(", c) + Occurrences(name, c) + Occurrences(" ", c)
      + Occurrences(parts[0], c) + (if |parts| == 2 then Occurrences(" ", c) + Occurrences(parts[1], c) else 0)
      + Occurrences(")", c)
  {
    var j := Joined(parts);
    if |parts| == 2 {
      assert Joined(parts[1..]) == parts[1];
      OccurrencesAppend(parts[0] + " ", parts[1], c);
      OccurrencesAppend(parts[0], " ", c);
    }
    OccurrencesAppend("(" + name + " " + j, ")", c);
    OccurrencesAppend("(" + name + " ", j, c);
    OccurrencesAppend("(" + name, " ", c);
    OccurrencesAppend("(", name, c);
  }

  /** With no parenthesis in the name, parenthesizing adds exactly one
      opening and one closing parenthesis to those of the parts. */
  lemma ParenthesizedCount(name: string, parts: seq<string>, c: char)
    requires |parts| == 1 || |parts| == 2
    requires (c == '(' || c == ')') && Occurrences(name, c) == 0
    ensures Occurrences(Parenthesize(name, parts), c)
      == 1 + Occurrences(parts[0], c) + (if |parts| == 2 then Occurrences(parts[1], c) else 0)
  {
    OccurrencesOfParenthesized(name, parts, c);
    assert Occurrences(" ", c) == 0 by { assert " "[1..] == ""; }
    assert Occurrences("(", c) + Occurrences(")", c) == 1 by {
      assert "("[1..] == "" && ")"[1..] == "";
    }
  }

  /** Without parentheses in the lexemes and literals, the printed form has
      one opening and one closing parenthesis per operator node, so its
      parentheses balance. */
  lemma {:induction false} PrintBalances(e: Expr)
    requires Printable(e) && Parenless(e)
    ensures Occurrences(Print(e), '(') == OperatorNodes(e)
    ensures Occurrences(Print(e), ')') == OperatorNodes(e)
  {
    match e
    case Binary(left, operator, right) =>
      PrintBalances(left);
      PrintBalances(right);
      ParenthesizedCount(operator.lexeme, [Print(left), Print(right)], '(');
      ParenthesizedCount(operator.lexeme, [Print(left), Print(right)], ')');
    case Grouping(expression) =>
      PrintBalances(expression);
      assert Occurrences("group", '(') == 0 && Occurrences("group", ')') == 0;
      ParenthesizedCount("group", [Print(expression)], '(');
      ParenthesizedCount("group", [Print(expression)], ')');
    case Literal(_) =>
    case Unary(operator, right) =>
      PrintBalances(right);
      ParenthesizedCount(operator.lexeme, [Print(right)], '(');
      ParenthesizedCount(operator.lexeme, [Print(right)], ')');
  }

  lemma PrintsNegation()
    ensures Print(Unary(Token(TokenType.Minus, "-", NoLiteral, 1), Literal(LitNumber("123")))) == "(- 123)"
  {
    assert Joined(["123"]) == "123";
  }

  lemma PrintsGroup()
    ensures Print(Grouping(Literal(LitNumber("45.67")))) == "(group 45.67)"
  {
    assert Joined(["45.67"]) == "45.67";
  }

  lemma ParenthesizeTwo(name: string, a: string, b: string)
    ensures Parenthesize(name, [a, b]) == "(" + name + " " + a + " " + b + ")"
  {
    assert [a, b][1..] == [b];
    assert Joined([a, b]) == a + " " + b;
  }

  /** The rendering the repository's printer test expects. */
  lemma PrintsTestExpression()
    ensures Print(Binary(
      Unary(Token(TokenType.Minus, "-", NoLiteral, 1), Literal(LitNumber("123"))),
      Token(TokenType.Star, "*", NoLiteral, 1),
      Grouping(Literal(LitNumber("45.67"))))) == "(* (- 123) (group 45.67))"
  {
    PrintsNegation();
    PrintsGroup();
    ParenthesizeTwo("*", "(- 123)", "(group 45.67)");
  }
}
