// The recursive-descent parser of lib/rlox/parser.rb. The class Parser
// moves its `current` cursor over the token list; a ParseError, which the
// Ruby raises and rescues in `declaration`, is an Err result that every
// method passes up with `:-`. The grammar levels are the predicate Shaped,
// and each parsing method promises that what it builds has the shape of its
// level.
module Parser {
  import opened Wrappers
  import opened Tokens
  import opened Errors
  import opened Ast

  datatype ParseError = ParseError

  // ---------------------------------------------------------------------
  // Grammar levels, loosest to tightest.

  const AssignmentLevel: nat := 1
  const OrLevel: nat := 2
  const AndLevel: nat := 3
  const EqualityLevel: nat := 4
  const ComparisonLevel: nat := 5
  const TermLevel: nat := 6
  const FactorLevel: nat := 7
  const UnaryLevel: nat := 8
  const CallLevel: nat := 9
  const PrimaryLevel: nat := 10

  /** The level at which a binary or logical operator token is parsed. */
  function OperatorLevel(kind: TokenType): nat
  {
    match kind
    case Or => OrLevel
    case And => AndLevel
    case BangEqual => EqualityLevel
    case EqualEqual => EqualityLevel
    case Greater => ComparisonLevel
    case GreaterEqual => ComparisonLevel
    case Less => ComparisonLevel
    case LessEqual => ComparisonLevel
    case Minus => TermLevel
    case Plus => TermLevel
    case Slash => FactorLevel
    case Star => FactorLevel
    case _ => 0
  }

  /** Shaped(e, p): `e` is a tree the parsing method of level `p` can build.
      A level accepts every tree of the next tighter level; a binary level
      adds operator nodes whose left operand is of the same level and whose
      right operand is of the next tighter one (left associativity); the
      assignment level adds Assign nodes whose value is again of the
      assignment level (right associativity). */
  predicate Shaped(e: Expr, p: nat)
    requires 1 <= p <= PrimaryLevel
    decreases e, PrimaryLevel - p
  {
    if p == PrimaryLevel then
      match e
      case Literal(_) => true
      case Variable(_, name) => name.kind == Identifier
      case Grouping(inner) => Shaped(inner, AssignmentLevel)
      case _ => false
    else
      Shaped(e, p + 1) ||
      if p == CallLevel then
        e.Call? && e.paren.kind == RightParen && Shaped(e.callee, CallLevel)
        && forall a | a in e.arguments :: Shaped(a, AssignmentLevel)
      else if p == UnaryLevel then
        e.Unary? && e.operator.kind in {Bang, Minus} && Shaped(e.right, UnaryLevel)
      else if p == AssignmentLevel then
        e.Assign? && e.name.kind == Identifier && Shaped(e.value, AssignmentLevel)
      else if p == OrLevel || p == AndLevel then
        e.Logical? && OperatorLevel(e.operator.kind) == p && Shaped(e.left, p) && Shaped(e.right, p + 1)
      else
        e.Binary? && OperatorLevel(e.operator.kind) == p && Shaped(e.left, p) && Shaped(e.right, p + 1)
  }

  /** How tightly the top node of a tree binds. */
  function Power(e: Expr): nat
  {
    match e
    case Assign(_, _, _) => AssignmentLevel
    case Logical(_, op, _) => OperatorLevel(op.kind)
    case Binary(_, op, _) => OperatorLevel(op.kind)
    case Unary(_, _) => UnaryLevel
    case Call(_, _, _) => CallLevel
    case _ => PrimaryLevel
  }

  /** Every operator node binds no tighter than its left operand and strictly
      looser than its right operand; unary operands and callees bind at least
      as tightly as their node. */
  predicate WellNested(e: Expr)
  {
    match e
    case Binary(l, _, r) => Power(l) >= Power(e) && Power(r) > Power(e) && WellNested(l) && WellNested(r)
    case Logical(l, _, r) => Power(l) >= Power(e) && Power(r) > Power(e) && WellNested(l) && WellNested(r)
    case Unary(_, r) => Power(r) >= Power(e) && WellNested(r)
    case Call(c, _, args) => Power(c) >= Power(e) && WellNested(c) && forall a | a in args :: WellNested(a)
    case Assign(_, _, v) => WellNested(v)
    case Grouping(inner) => WellNested(inner)
    case _ => true
  }

  /** A tree of level p binds at least as tightly as p. */
  lemma {:induction false} ShapedPower(e: Expr, p: nat)
    requires 1 <= p <= PrimaryLevel && Shaped(e, p)
    ensures Power(e) >= p
    decreases PrimaryLevel - p
  {
    if p < PrimaryLevel && Shaped(e, p + 1) {
      ShapedPower(e, p + 1);
    }
  }

  /** Precedence and associativity: every tree the parser builds nests its
      operators by binding power, with left-associative binary and logical
      operators. */
  lemma {:induction false} ShapedIsWellNested(e: Expr, p: nat)
    requires 1 <= p <= PrimaryLevel && Shaped(e, p)
    ensures WellNested(e)
    decreases e, PrimaryLevel - p
  {
    if p == PrimaryLevel {
      if e.Grouping? {
        ShapedIsWellNested(e.expression, AssignmentLevel);
      }
    } else if Shaped(e, p + 1) {
      ShapedIsWellNested(e, p + 1);
    } else if p == CallLevel {
      ShapedIsWellNested(e.callee, CallLevel);
      ShapedPower(e.callee, CallLevel);
      forall a | a in e.arguments ensures WellNested(a) {
        ShapedIsWellNested(a, AssignmentLevel);
      }
    } else if p == UnaryLevel {
      ShapedIsWellNested(e.right, UnaryLevel);
      ShapedPower(e.right, UnaryLevel);
    } else if p == AssignmentLevel {
      ShapedIsWellNested(e.value, AssignmentLevel);
    } else {
      ShapedIsWellNested(e.left, p);
      ShapedIsWellNested(e.right, p + 1);
      ShapedPower(e.left, p);
      ShapedPower(e.right, p + 1);
    }
  }

  /** A tree with no operator at its top is a primary tree, whatever level
      it was parsed at. */
  lemma {:induction false} ShapedAtom(e: Expr, p: nat)
    requires 1 <= p <= PrimaryLevel && Shaped(e, p)
    requires !(e.Assign? || e.Logical? || e.Binary? || e.Unary? || e.Call?)
    ensures Shaped(e, PrimaryLevel)
    decreases PrimaryLevel - p
  {
    if p < PrimaryLevel {
      ShapedAtom(e, p + 1);
    }
  }

  /** A tree of a tighter level is also a tree of every looser level. */
  lemma {:induction false} ShapedWidens(e: Expr, p: nat, q: nat)
    requires 1 <= p <= q <= PrimaryLevel && Shaped(e, q)
    ensures Shaped(e, p)
    decreases q - p
  {
    if p < q {
      ShapedWidens(e, p + 1, q);
    }
  }

  /** `a - b - c` can only be read as `(a - b) - c`: the right operand of a
      term-level operator is never itself an unparenthesised term operator. */
  lemma TermIsLeftAssociative(e: Expr)
    requires Shaped(e, TermLevel) && e.Binary? && e.operator.kind in {Minus, Plus}
    ensures Shaped(e.left, TermLevel)
    ensures !(e.right.Binary? && e.right.operator.kind in {Minus, Plus})
  {
    if Shaped(e, FactorLevel) {
      ShapedPower(e, FactorLevel);
    }
    ShapedPower(e.right, FactorLevel);
  }

  /** `a = b = c` can only be read as `a = (b = c)`. */
  lemma AssignmentIsRightAssociative(e: Expr)
    requires Shaped(e, AssignmentLevel) && e.Assign?
    ensures Shaped(e.value, AssignmentLevel) && e.name.kind == Identifier
  {
    if Shaped(e, OrLevel) {
      ShapedPower(e, OrLevel);
    }
  }

  // ---------------------------------------------------------------------
  // Statements.

  /** A statement that ends in an `if` without an `else`, which a following
      `else` would belong to. */
  predicate DanglingIf(s: Stmt)
  {
    match s
    case If(_, _, elseBranch) => elseBranch.None? || DanglingIf(elseBranch.value)
    case While(_, body) => DanglingIf(body)
    case _ => false
  }

  /** The `for` desugaring: the increment runs after the body inside the
      loop, a missing condition is `true`, and the initializer runs once in
      a block around the loop. */
  function DesugarFor(initializer: Option<Stmt>, condition: Option<Expr>, increment: Option<Expr>, body: Stmt): (r: Stmt)
    ensures initializer.Some? <==> r.Block?
    ensures initializer.Some? ==> |r.statements| == 2 && r.statements[0] == initializer.value
    ensures var loop := if initializer.Some? then r.statements[1] else r;
      loop.While?
      && loop.condition == (if condition.Some? then condition.value else Literal(LitBool(true)))
      && loop.body == (if increment.Some? then Block([body, Expression(increment.value)]) else body)
  {
    var body := if increment.Some? then Block([body, Expression(increment.value)]) else body;
    var cond := if condition.Some? then condition.value else Literal(LitBool(true));
    var loop := Stmt.While(cond, body);
    if initializer.Some? then Block([initializer.value, loop]) else loop
  }

  /** A desugared `for` leaves an `else` dangling only when it has neither
      initializer nor increment and its body does. */
  lemma DesugarForDangling(initializer: Option<Stmt>, condition: Option<Expr>, increment: Option<Expr>, body: Stmt)
    ensures DanglingIf(DesugarFor(initializer, condition, increment, body)) ==>
      initializer.None? && increment.None? && DanglingIf(body)
  {
    var r := DesugarFor(initializer, condition, increment, body);
    if initializer.None? && increment.Some? {
      assert r.body == Block([body, Expression(increment.value)]);
      assert !DanglingIf(r.body);
    }
  }

  /** The statements of the declarations that parsed, in order; a failed
      declaration, None, leaves nothing. */
  function Completed(parsed: seq<Option<Stmt>>): (r: seq<Stmt>)
    ensures |r| <= |parsed|
  {
    if parsed == [] then []
    else
      var last := parsed[|parsed| - 1];
      Completed(parsed[..|parsed| - 1]) + (if last.Some? then [last.value] else [])
  }

  /** A block keeps exactly the statements that parsed, and every one of
      them. */
  lemma {:induction false} CompletedKeepsParsed(parsed: seq<Option<Stmt>>)
    ensures forall s :: s in Completed(parsed) <==> Some(s) in parsed
  {
    if parsed != [] {
      var last := parsed[|parsed| - 1];
      CompletedKeepsParsed(parsed[..|parsed| - 1]);
      assert forall o :: o in parsed <==> o in parsed[..|parsed| - 1] || o == last;
    }
  }
  /** Completed grows with each declaration that parsed. */
  lemma CompletedAppend(parsed: seq<Option<Stmt>>, d: Option<Stmt>)
    ensures d.Some? ==> Completed(parsed + [d]) == Completed(parsed) + [d.value]
    ensures d.None? ==> Completed(parsed + [d]) == Completed(parsed)
  {
    assert (parsed + [d])[..|parsed|] == parsed;
  }


  /** Where `synchronize` may stop: at the end, just after a `;`, or just
      before a keyword that starts a statement. */
  predicate SyncPoint(tokens: seq<Token>, k: nat)
    requires k < |tokens|
  {
    tokens[k].kind == Eof
    || (k > 0 && tokens[k - 1].kind == Semicolon)
    || tokens[k].kind in {TokenType.Class, Fun, TokenType.Var, For, TokenType.If, TokenType.While, TokenType.Print, TokenType.Return}
  }

  predicate ValidTokens(tokens: seq<Token>)
  {
    |tokens| > 0 && tokens[|tokens| - 1].kind == Eof
  }

  function LiteralOf(literal: TokenLiteral): Lit
  {
    match literal
    case NoLiteral => LitNil
    case StringLiteral(text) => LitString(text)
    case NumberLiteral(text) => LitNumber(text)
  }

  // ---------------------------------------------------------------------
  // The parser as functions of the tokens. Each parsing method of the class
  // below leaves the result and the state that the function of its name
  // here computes from the state it starts in; what the grammar promises is
  // proved about the functions.

  /** The parser's state as a value: the cursor, the next node id, and the
      reporter's static-error flag and lines. */
  datatype Cursor = Cursor(current: nat, nextId: nat, hadError: bool, log: seq<string>)

  /** A parsing step's result, with the state it leaves. */
  datatype Parsed<T> = Parsed(result: Result<T, ParseError>, after: Cursor)

  /** The result of a step that recovers from its own errors, with the state
      it leaves. */
  datatype Declared<T> = Declared(value: T, after: Cursor)

  predicate Inside(tokens: seq<Token>, c: Cursor)
  {
    ValidTokens(tokens) && c.current < |tokens|
  }

  /** at_end? */
  predicate AtEof(tokens: seq<Token>, c: Cursor)
    requires Inside(tokens, c)
  {
    tokens[c.current].kind == Eof
  }

  /** check: false at the end, else whether the next token has this kind. */
  predicate Sees(tokens: seq<Token>, c: Cursor, kind: TokenType)
    requires Inside(tokens, c)
  {
    !AtEof(tokens, c) && tokens[c.current].kind == kind
  }

  /** Whether `match?` of these kinds consumes the next token. */
  predicate SeesOneOf(tokens: seq<Token>, c: Cursor, kinds: seq<TokenType>)
    requires Inside(tokens, c)
  {
    !AtEof(tokens, c) && tokens[c.current].kind in kinds
  }

  /** advance: one token on, but never past the EOF token. */
  function Advanced(tokens: seq<Token>, c: Cursor): (r: Cursor)
    requires Inside(tokens, c)
    ensures Inside(tokens, r)
  {
    if AtEof(tokens, c) then c else c.(current := c.current + 1)
  }

  /** The state after `error` has reported at `token`. */
  function Reporting(c: Cursor, token: Token, message: string): Cursor
  {
    c.(hadError := true, log := c.log + [ReportText(token.line, Where(AtToken(token)), message)])
  }

  function Failed<T>(after: Cursor): Parsed<T>
  {
    Parsed(Err(ParseError), after)
  }
  /** A failed step's ParseError, passed on unchanged. */
  function Propagated<T, U>(p: Parsed<T>): (r: Parsed<U>)
    requires p.result.Err?
    ensures r.result.Err? && r.after == p.after
  {
    Parsed(p.result.PropagateFailure(), p.after)
  }


  /** What every parsing step keeps: the cursor only moves forward, ids are
      only handed out, and the static-error flag is set when the step failed
      and is never cleared. */
  predicate Follows(before: Cursor, after: Cursor, failed: bool)
  {
    before.current <= after.current && before.nextId <= after.nextId
    && (failed ==> after.hadError) && (before.hadError ==> after.hadError)
  }

  /** A parsing step's result: a state inside the tokens that follows the
      one it started from. */
  predicate Steps<T>(tokens: seq<Token>, c: Cursor, r: Parsed<T>)
  {
    Inside(tokens, r.after) && Follows(c, r.after, r.result.Err?)
  }

  /** A statement that ends in an `if` without an `else` is not followed by
      an `else`: that `if` would have taken it. */
  predicate NoDanglingElse(tokens: seq<Token>, r: Parsed<Stmt>)
  {
    Inside(tokens, r.after) && (r.result.Ok? && DanglingIf(r.result.value) ==> !Sees(tokens, r.after, Else))
  }

  /** The token just consumed has this kind. */
  predicate JustAfter(tokens: seq<Token>, c: Cursor, kind: TokenType)
  {
    0 < c.current <= |tokens| && tokens[c.current - 1].kind == kind
  }

  /** The last line reported is this message at the token at `at`. */
  predicate ReportedAt(tokens: seq<Token>, c: Cursor, at: nat, message: string)
    requires at < |tokens|
  {
    c.hadError && |c.log| > 0
    && c.log[|c.log| - 1] == ReportText(tokens[at].line, Where(AtToken(tokens[at])), message)
  }

  /** consume: the expected token, or an error reported at the next token. */
  function ConsumeAt(tokens: seq<Token>, c: Cursor, kind: TokenType, message: string): (r: Parsed<Token>)
    requires Inside(tokens, c)
    ensures Steps(tokens, c, r)
    ensures r.result.Ok? <==> Sees(tokens, c, kind)
    ensures r.result.Ok? ==> r.result.value == tokens[c.current] && r.after == c.(current := c.current + 1)
    ensures r.result.Err? ==> r.after == Reporting(c, tokens[c.current], message)
  {
    if Sees(tokens, c, kind) then Parsed(Ok(tokens[c.current]), Advanced(tokens, c))
    else Failed(Reporting(c, tokens[c.current], message))
  }

  /** synchronize: one token on, then on to the next statement boundary;
      nothing but the cursor changes. */
  function Synchronized(tokens: seq<Token>, c: Cursor): (r: Cursor)
    requires Inside(tokens, c)
    ensures Inside(tokens, r) && r == c.(current := r.current)
    ensures var from := Advanced(tokens, c).current;
      from <= r.current && SyncPoint(tokens, r.current)
      && forall k :: from <= k < r.current ==> !SyncPoint(tokens, k)
  {
    SkipToBoundary(tokens, Advanced(tokens, c))
  }

  /** The loop of `synchronize`. */
  function SkipToBoundary(tokens: seq<Token>, c: Cursor): (r: Cursor)
    requires Inside(tokens, c)
    ensures Inside(tokens, r) && r == c.(current := r.current)
    ensures c.current <= r.current && SyncPoint(tokens, r.current)
    ensures forall k :: c.current <= k < r.current ==> !SyncPoint(tokens, k)
    decreases |tokens| - c.current
  {
    if AtEof(tokens, c) then c
    else if c.current > 0 && tokens[c.current - 1].kind == Semicolon then c
    else if tokens[c.current].kind in {TokenType.Class, Fun, TokenType.Var, For, TokenType.If, TokenType.While, TokenType.Print, TokenType.Return} then c
    else SkipToBoundary(tokens, Advanced(tokens, c))
  }

  // Declarations and statements.

  /** parse: declarations until the EOF token, a failed one being None,
      which only a reported error leaves. */
  function ParseProgram(tokens: seq<Token>, c: Cursor): (r: Declared<seq<Option<Stmt>>>)
    requires Inside(tokens, c)
    ensures Inside(tokens, r.after) && AtEof(tokens, r.after) && Follows(c, r.after, false)
    ensures None in r.value ==> r.after.hadError
    ensures AtEof(tokens, c) <==> r.value == []
    decreases |tokens| - c.current
  {
    if AtEof(tokens, c) then Declared([], c)
    else
      var first := ParseDeclaration(tokens, c);
      var rest := ParseProgram(tokens, first.after);
      Declared([first.value] + rest.value, rest.after)
  }

  lemma Associative<T>(a: seq<T>, b: seq<T>, c: seq<T>)
    ensures a + (b + c) == (a + b) + c
  {
  }

  /** One declaration of a program, then the rest. */
  lemma ProgramStep(tokens: seq<Token>, c: Cursor)
    requires Inside(tokens, c) && !AtEof(tokens, c)
    ensures var first := ParseDeclaration(tokens, c);
      var rest := ParseProgram(tokens, first.after);
      ParseProgram(tokens, c) == Declared([first.value] + rest.value, rest.after)
  {
  }

  /** declaration: a var declaration or a statement; after a ParseError it
      synchronizes and yields None. It always consumes a token. */
  function ParseDeclaration(tokens: seq<Token>, c: Cursor): (r: Declared<Option<Stmt>>)
    requires Inside(tokens, c) && !AtEof(tokens, c)
    ensures Inside(tokens, r.after) && c.current < r.after.current && Follows(c, r.after, r.value.None?)
    ensures r.value.None? ==> SyncPoint(tokens, r.after.current)
    ensures r.value.Some? && r.value.value.Var? ==> tokens[c.current].kind == TokenType.Var
    decreases |tokens| - c.current, 14
  {
    var declared :=
      if Sees(tokens, c, TokenType.Var) then ParseVarDeclaration(tokens, Advanced(tokens, c))
      else ParseStatement(tokens, c);
    if declared.result.Err? then Declared(None, Synchronized(tokens, declared.after))
    else Declared(Some(declared.result.value), declared.after)
  }

  /** statement: the tests of `statement` for `for` and `if`; the rest are
      ParseOtherStatement's. An `else` is never left after a statement whose
      last `if` it could belong to. */
  function ParseStatement(tokens: seq<Token>, c: Cursor): (r: Parsed<Stmt>)
    requires Inside(tokens, c)
    ensures Steps(tokens, c, r)
    ensures r.result.Ok? ==> c.current < r.after.current && !r.result.value.Var?
    ensures NoDanglingElse(tokens, r)
    decreases |tokens| - c.current, 13
  {
    if Sees(tokens, c, For) then ParseFor(tokens, Advanced(tokens, c))
    else if Sees(tokens, c, TokenType.If) then ParseIf(tokens, Advanced(tokens, c))
    else ParseOtherStatement(tokens, c)
  }

  /** The rest of `statement`'s tests: print, while, a block, or else an
      expression statement. */
  function ParseOtherStatement(tokens: seq<Token>, c: Cursor): (r: Parsed<Stmt>)
    requires Inside(tokens, c)
    ensures Steps(tokens, c, r)
    ensures r.result.Ok? ==> c.current < r.after.current && !r.result.value.Var?
    ensures NoDanglingElse(tokens, r)
    ensures r.result.Ok? ==> (r.result.value.Print? <==> Sees(tokens, c, TokenType.Print))
    decreases |tokens| - c.current, 12
  {
    if Sees(tokens, c, TokenType.Print) then ParsePrint(tokens, Advanced(tokens, c))
    else if Sees(tokens, c, TokenType.While) then ParseWhile(tokens, Advanced(tokens, c))
    else ParseBlockOrExpressionStatement(tokens, c)
  }

  /** A block after its `{`, or else an expression statement. Neither ends
      in an `if`. */
  function ParseBlockOrExpressionStatement(tokens: seq<Token>, c: Cursor): (r: Parsed<Stmt>)
    requires Inside(tokens, c)
    ensures Steps(tokens, c, r)
    ensures r.result.Ok? ==> c.current < r.after.current && !DanglingIf(r.result.value)
    ensures r.result.Ok? ==> (r.result.value.Block? <==> Sees(tokens, c, LeftBrace))
    ensures r.result.Ok? ==> r.result.value.Block? || r.result.value.Expression?
    decreases |tokens| - c.current, 11
  {
    if Sees(tokens, c, LeftBrace) then ParseBlockStatement(tokens, Advanced(tokens, c))
    else ParseExpressionStatement(tokens, c)
  }

  /** A block statement after its `{`. */
  function ParseBlockStatement(tokens: seq<Token>, c: Cursor): (r: Parsed<Stmt>)
    requires Inside(tokens, c)
    ensures Steps(tokens, c, r)
    ensures r.result.Ok? ==> c.current < r.after.current && r.result.value.Block?
    decreases |tokens| - c.current, 17
  {
    var block := ParseBlock(tokens, c);
    if block.result.Err? then Propagated(block)
    else Parsed(Ok(Stmt.Block(block.result.value)), block.after)
  }

  /** for_statement after `for`: `(`, then the clauses and the body,
      desugared. */
  function ParseFor(tokens: seq<Token>, c: Cursor): (r: Parsed<Stmt>)
    requires Inside(tokens, c)
    ensures Steps(tokens, c, r)
    ensures r.result.Ok? ==> c.current < r.after.current
    ensures r.result.Ok? ==>
      Sees(tokens, c, LeftParen) && (r.result.value.Block? <==> !Sees(tokens, Advanced(tokens, c), Semicolon))
    ensures NoDanglingElse(tokens, r)
    ensures r.result.Ok? ==> r.result.value.Block? || r.result.value.While?
    ensures !Sees(tokens, c, LeftParen) ==> r.after == Reporting(c, tokens[c.current], "Expect '(' after 'for'.")
    decreases |tokens| - c.current, 12
  {
    var open := ConsumeAt(tokens, c, LeftParen, "Expect '(' after 'for'.");
    if open.result.Err? then Propagated(open)
    else ParseForClauses(tokens, open.after)
  }

  /** The clauses of a `for` after its `(`, and its body. There is an
      initializer, and so a block around the loop, exactly when the first
      token is not the `;` of an empty clause. */
  function ParseForClauses(tokens: seq<Token>, c: Cursor): (r: Parsed<Stmt>)
    requires Inside(tokens, c)
    ensures Steps(tokens, c, r)
    ensures r.result.Ok? ==> c.current < r.after.current
    ensures r.result.Ok? ==> (r.result.value.Block? <==> !Sees(tokens, c, Semicolon))
    ensures NoDanglingElse(tokens, r)
    ensures r.result.Ok? ==> r.result.value.Block? || r.result.value.While?
    decreases |tokens| - c.current, 13
  {
    var initializer := ParseForInitializer(tokens, c);
    if initializer.result.Err? then Propagated(initializer)
    else
      ParseForLoop(tokens, initializer.after, initializer.result.value)
  }

  /** The rest of a `for` after its initializer: the condition clause ended
      by `;`, the increment clause ended by `)`, and the body, desugared with
      the initializer. A missing condition is `true`; the loop's body is the
      parsed body alone exactly when there is no increment. */
  function ParseForLoop(tokens: seq<Token>, c: Cursor, initializer: Option<Stmt>): (r: Parsed<Stmt>)
    requires Inside(tokens, c)
    ensures Steps(tokens, c, r)
    ensures r.result.Ok? ==> c.current < r.after.current
    ensures r.result.Ok? ==> (r.result.value.Block? <==> initializer.Some?) && (r.result.value.Block? || r.result.value.While?)
    ensures r.result.Ok? && initializer.Some? ==>
      |r.result.value.statements| == 2 && r.result.value.statements[0] == initializer.value
    ensures r.result.Ok? && Sees(tokens, c, Semicolon) ==>
      var loop := if initializer.Some? then r.result.value.statements[1] else r.result.value;
      loop.While? && loop.condition == Literal(LitBool(true))
    ensures NoDanglingElse(tokens, r)
    decreases |tokens| - c.current, 12
  {
    var condition := ParseForClause(tokens, c, Semicolon, "Expect ';' after loop condition.");
    if condition.result.Err? then Propagated(condition)
    else
      var increment := ParseForClause(tokens, condition.after, RightParen, "Expect ')' after for clauses.");
      if increment.result.Err? then Propagated(increment)
      else
        var body := ParseStatement(tokens, increment.after);
        if body.result.Err? then Propagated(body)
        else
          DesugarForDangling(initializer, condition.result.value, increment.result.value, body.result.value);
          Parsed(Ok(DesugarFor(initializer, condition.result.value, increment.result.value, body.result.value)), body.after)
  }

  /** The first clause of a `for`: nothing when it starts with `;`, a var
      declaration when it starts with `var`, else an expression statement;
      each ends with its `;`. */
  function ParseForInitializer(tokens: seq<Token>, c: Cursor): (r: Parsed<Option<Stmt>>)
    requires Inside(tokens, c)
    ensures Steps(tokens, c, r)
    ensures r.result.Ok? ==> c.current < r.after.current && JustAfter(tokens, r.after, Semicolon)
    ensures r.result.Ok? ==> (r.result.value.None? <==> Sees(tokens, c, Semicolon))
    ensures r.result.Ok? && r.result.value.Some? ==>
      (r.result.value.value.Var? <==> Sees(tokens, c, TokenType.Var))
      && (r.result.value.value.Var? || r.result.value.value.Expression?)
    decreases |tokens| - c.current, 12
  {
    if Sees(tokens, c, Semicolon) then Parsed(Ok(None), Advanced(tokens, c))
    else if Sees(tokens, c, TokenType.Var) then
      var declaration := ParseVarDeclaration(tokens, Advanced(tokens, c));
      if declaration.result.Err? then Propagated(declaration)
      else Parsed(Ok(Some(declaration.result.value)), declaration.after)
    else
      var statement := ParseExpressionStatement(tokens, c);
      if statement.result.Err? then Propagated(statement)
      else Parsed(Ok(Some(statement.result.value)), statement.after)
  }

  /** The condition or increment clause of a `for`: an expression unless the
      terminator comes first, then the terminator. */
  function ParseForClause(tokens: seq<Token>, c: Cursor, terminator: TokenType, message: string): (r: Parsed<Option<Expr>>)
    requires Inside(tokens, c)
    ensures Steps(tokens, c, r)
    ensures r.result.Ok? ==> c.current < r.after.current && JustAfter(tokens, r.after, terminator)
    ensures r.result.Ok? ==> (r.result.value.None? <==> Sees(tokens, c, terminator))
    ensures r.result.Ok? && r.result.value.None? ==> r.after.current == c.current + 1
    ensures r.result.Ok? && r.result.value.Some? ==> Shaped(r.result.value.value, AssignmentLevel)
    decreases |tokens| - c.current, 12
  {
    var clause := ParseClauseExpression(tokens, c, terminator);
    if clause.result.Err? then Propagated(clause)
    else
      var close := ConsumeAt(tokens, clause.after, terminator, message);
      if close.result.Err? then Propagated(close) else Parsed(Ok(clause.result.value), close.after)
  }

  /** A clause's expression, absent when the terminator comes first. */
  function ParseClauseExpression(tokens: seq<Token>, c: Cursor, terminator: TokenType): (r: Parsed<Option<Expr>>)
    requires Inside(tokens, c)
    ensures Steps(tokens, c, r)
    ensures r.result.Ok? ==> (r.result.value.None? <==> Sees(tokens, c, terminator))
    ensures r.result.Ok? && r.result.value.None? ==> r.after == c
    ensures r.result.Ok? && r.result.value.Some? ==> Shaped(r.result.value.value, AssignmentLevel)
  {
    if Sees(tokens, c, terminator) then Parsed(Ok(None), c)
    else
      var e := ParseExpression(tokens, c);
      if e.result.Err? then Propagated(e) else Parsed(Ok(Some(e.result.value)), e.after)
  }

  /** if_statement after `if`; an `else` right after the then-branch
      belongs to this `if`. */
  function ParseIf(tokens: seq<Token>, c: Cursor): (r: Parsed<Stmt>)
    requires Inside(tokens, c)
    ensures Steps(tokens, c, r)
    ensures r.result.Ok? ==> c.current < r.after.current && r.result.value.If?
    ensures r.result.Ok? ==> Shaped(r.result.value.condition, AssignmentLevel)
    ensures NoDanglingElse(tokens, r)
    ensures r.result.Ok? && r.result.value.elseBranch.Some? ==> !DanglingIf(r.result.value.thenBranch)
    decreases |tokens| - c.current, 12
  {
    var open := ConsumeAt(tokens, c, LeftParen, "Expect '(' after 'if'.");
    if open.result.Err? then Propagated(open)
    else
      var condition := ParseExpression(tokens, open.after);
      if condition.result.Err? then Propagated(condition)
      else
        var close := ConsumeAt(tokens, condition.after, RightParen, "Expect ')' after if condition.");
        if close.result.Err? then Propagated(close)
        else ParseIfBranches(tokens, close.after, condition.result.value)
  }

  /** The branches of an `if`, after its condition: an else branch exactly
      when an `else` follows the then-branch. */
  function ParseIfBranches(tokens: seq<Token>, c: Cursor, condition: Expr): (r: Parsed<Stmt>)
    requires Inside(tokens, c)
    ensures Steps(tokens, c, r)
    ensures r.result.Ok? ==> c.current < r.after.current && r.result.value.If? && r.result.value.condition == condition
    ensures r.result.Ok? ==>
      var thenBranch := ParseStatement(tokens, c);
      thenBranch.result.Ok? && r.result.value.thenBranch == thenBranch.result.value
      && (r.result.value.elseBranch.Some? <==> Sees(tokens, thenBranch.after, Else))
    ensures NoDanglingElse(tokens, r)
    ensures r.result.Ok? && r.result.value.elseBranch.Some? ==> !DanglingIf(r.result.value.thenBranch)
    decreases |tokens| - c.current, 14
  {
    var thenBranch := ParseStatement(tokens, c);
    if thenBranch.result.Err? then Propagated(thenBranch)
    else if Sees(tokens, thenBranch.after, Else) then
      var elseBranch := ParseStatement(tokens, Advanced(tokens, thenBranch.after));
      if elseBranch.result.Err? then Propagated(elseBranch)
      else Parsed(Ok(Stmt.If(condition, thenBranch.result.value, Some(elseBranch.result.value))), elseBranch.after)
    else Parsed(Ok(Stmt.If(condition, thenBranch.result.value, None)), thenBranch.after)
  }

  /** print_statement after `print`: an expression and its `;`. */
  function ParsePrint(tokens: seq<Token>, c: Cursor): (r: Parsed<Stmt>)
    requires Inside(tokens, c)
    ensures Steps(tokens, c, r)
    ensures r.result.Ok? ==> c.current < r.after.current && JustAfter(tokens, r.after, Semicolon)
    ensures r.result.Ok? ==> r.result.value.Print? && Shaped(r.result.value.expression, AssignmentLevel)
    decreases |tokens| - c.current, 12
  {
    var value := ParseExpression(tokens, c);
    if value.result.Err? then Propagated(value)
    else
      var semicolon := ConsumeAt(tokens, value.after, Semicolon, "Expect ';' after value.");
      if semicolon.result.Err? then Propagated(semicolon)
      else Parsed(Ok(Stmt.Print(value.result.value)), semicolon.after)
  }

  /** while_statement after `while`: the parenthesised condition and the body. */
  function ParseWhile(tokens: seq<Token>, c: Cursor): (r: Parsed<Stmt>)
    requires Inside(tokens, c)
    ensures Steps(tokens, c, r)
    ensures r.result.Ok? ==> c.current < r.after.current && r.result.value.While?
    ensures r.result.Ok? ==> Shaped(r.result.value.condition, AssignmentLevel)
    ensures NoDanglingElse(tokens, r)
    decreases |tokens| - c.current, 12
  {
    var open := ConsumeAt(tokens, c, LeftParen, "Expect '(' after 'while'.");
    if open.result.Err? then Propagated(open)
    else
      var condition := ParseExpression(tokens, open.after);
      if condition.result.Err? then Propagated(condition)
      else
        var close := ConsumeAt(tokens, condition.after, RightParen, "Expect ')' after 'while'.");
        if close.result.Err? then Propagated(close)
        else
          var body := ParseStatement(tokens, close.after);
          if body.result.Err? then Propagated(body)
          else Parsed(Ok(Stmt.While(condition.result.value, body.result.value)), body.after)
  }

  /** expression_statement: an expression and its `;`. */
  function ParseExpressionStatement(tokens: seq<Token>, c: Cursor): (r: Parsed<Stmt>)
    requires Inside(tokens, c)
    ensures Steps(tokens, c, r)
    ensures r.result.Ok? ==> c.current < r.after.current && JustAfter(tokens, r.after, Semicolon)
    ensures r.result.Ok? ==> r.result.value.Expression? && Shaped(r.result.value.expression, AssignmentLevel)
    decreases |tokens| - c.current, 12
  {
    var expr := ParseExpression(tokens, c);
    if expr.result.Err? then Propagated(expr)
    else
      var semicolon := ConsumeAt(tokens, expr.after, Semicolon, "Expect ';' after expression.");
      if semicolon.result.Err? then Propagated(semicolon)
      else Parsed(Ok(Stmt.Expression(expr.result.value)), semicolon.after)
  }

  /** block after `{`: the declarations up to the closing brace, a failed
      one left out. Only the end of the input can stop a block before its
      `}`, and that is reported at the EOF token. */
  function ParseBlock(tokens: seq<Token>, c: Cursor): (r: Parsed<seq<Stmt>>)
    requires Inside(tokens, c)
    ensures Steps(tokens, c, r)
    ensures r.result.Ok? ==> c.current < r.after.current && JustAfter(tokens, r.after, RightBrace)
    ensures r.result.Ok? ==> r.result.value == Completed(ParseBlockItems(tokens, c).value)
    ensures r.result.Err? ==> AtEof(tokens, r.after) && ReportedAt(tokens, r.after, r.after.current, "Expect '}' after block.")
    decreases |tokens| - c.current, 16
  {
    var items := ParseBlockItems(tokens, c);
    var close := ConsumeAt(tokens, items.after, RightBrace, "Expect '}' after block.");
    if close.result.Err? then Propagated(close)
    else Parsed(Ok(Completed(items.value)), close.after)
  }

  /** The declarations of a block, each one's result in order, up to the
      first `}` or the end; none when the block's first token is one of
      those. A failed declaration is None, which only a reported error
      leaves. */
  function ParseBlockItems(tokens: seq<Token>, c: Cursor): (r: Declared<seq<Option<Stmt>>>)
    requires Inside(tokens, c)
    ensures Inside(tokens, r.after) && Follows(c, r.after, false)
    ensures Sees(tokens, r.after, RightBrace) || AtEof(tokens, r.after)
    ensures r.value == [] <==> (Sees(tokens, c, RightBrace) || AtEof(tokens, c))
    ensures r.value == [] ==> r.after == c
    ensures None in r.value ==> r.after.hadError
    decreases |tokens| - c.current, 15
  {
    if Sees(tokens, c, RightBrace) || AtEof(tokens, c) then Declared([], c)
    else
      var first := ParseDeclaration(tokens, c);
      var rest := ParseBlockItems(tokens, first.after);
      Declared([first.value] + rest.value, rest.after)
  }

  /** One declaration of a block, then the rest. */
  lemma BlockItemsStep(tokens: seq<Token>, c: Cursor)
    requires Inside(tokens, c) && !Sees(tokens, c, RightBrace) && !AtEof(tokens, c)
    ensures var first := ParseDeclaration(tokens, c);
      var rest := ParseBlockItems(tokens, first.after);
      ParseBlockItems(tokens, c) == Declared([first.value] + rest.value, rest.after)
  {
  }

  /** var_declaration after `var`: the name, an optional initializer and
      the `;`. */
  function ParseVarDeclaration(tokens: seq<Token>, c: Cursor): (r: Parsed<Stmt>)
    requires Inside(tokens, c)
    ensures Steps(tokens, c, r)
    ensures r.result.Ok? ==> c.current < r.after.current && JustAfter(tokens, r.after, Semicolon)
    ensures r.result.Ok? ==>
      r.result.value.Var? && r.result.value.name == tokens[c.current] && r.result.value.name.kind == Identifier
    ensures r.result.Ok? && r.result.value.initializer.Some? ==> Shaped(r.result.value.initializer.value, AssignmentLevel)
    ensures r.result.Ok? ==> (r.result.value.initializer.Some? <==> Sees(tokens, Advanced(tokens, c), Equal))
    decreases |tokens| - c.current, 12
  {
    var name := ConsumeAt(tokens, c, Identifier, "Expect variable name.");
    if name.result.Err? then Propagated(name)
    else ParseVarRest(tokens, name.after, name.result.value)
  }

  /** The rest of a var declaration after its name. */
  function ParseVarRest(tokens: seq<Token>, c: Cursor, name: Token): (r: Parsed<Stmt>)
    requires Inside(tokens, c)
    ensures Steps(tokens, c, r)
    ensures r.result.Ok? ==> c.current < r.after.current && JustAfter(tokens, r.after, Semicolon)
    ensures r.result.Ok? ==> r.result.value.Var? && r.result.value.name == name
    ensures r.result.Ok? && r.result.value.initializer.Some? ==> Shaped(r.result.value.initializer.value, AssignmentLevel)
    ensures r.result.Ok? ==> (r.result.value.initializer.Some? <==> Sees(tokens, c, Equal))
    decreases |tokens| - c.current, 13
  {
    var initializer := ParseVarInitializer(tokens, c);
    if initializer.result.Err? then Propagated(initializer)
    else
      var semicolon := ConsumeAt(tokens, initializer.after, Semicolon, "Expect ';' after variable declaration.");
      if semicolon.result.Err? then Propagated(semicolon)
      else Parsed(Ok(Stmt.Var(name, initializer.result.value)), semicolon.after)
  }

  /** The optional `= expression` of a var declaration: present exactly
      when an `=` comes next. */
  function ParseVarInitializer(tokens: seq<Token>, c: Cursor): (r: Parsed<Option<Expr>>)
    requires Inside(tokens, c)
    ensures Steps(tokens, c, r)
    ensures r.result.Ok? ==> (r.result.value.Some? <==> Sees(tokens, c, Equal))
    ensures r.result.Ok? && r.result.value.None? ==> r.after == c
    ensures r.result.Ok? && r.result.value.Some? ==> Shaped(r.result.value.value, AssignmentLevel)
    decreases |tokens| - c.current, 12
  {
    if Sees(tokens, c, Equal) then
      var e := ParseExpression(tokens, Advanced(tokens, c));
      if e.result.Err? then Propagated(e) else Parsed(Ok(Some(e.result.value)), e.after)
    else Parsed(Ok(None), c)
  }

  // Expressions, loosest to tightest.

  /** The operators of a binary or logical level, in `match?`'s order. */
  function Operators(p: nat): (r: seq<TokenType>)
    requires OrLevel <= p <= FactorLevel
    ensures forall kind :: kind in r ==> OperatorLevel(kind) == p
  {
    if p == OrLevel then [Or]
    else if p == AndLevel then [And]
    else if p == EqualityLevel then [BangEqual, EqualEqual]
    else if p == ComparisonLevel then [Greater, GreaterEqual, Less, LessEqual]
    else if p == TermLevel then [Minus, Plus]
    else [Slash, Star]
  }

  /** expression: an assignment. */
  function ParseExpression(tokens: seq<Token>, c: Cursor): (r: Parsed<Expr>)
    requires Inside(tokens, c)
    ensures Steps(tokens, c, r)
    ensures r.result.Ok? ==> c.current < r.after.current && Shaped(r.result.value, AssignmentLevel)
    decreases |tokens| - c.current, 11
  {
    ParseAssignment(tokens, c)
  }

  /** assignment: a logical-or expression, and what follows it. */
  function ParseAssignment(tokens: seq<Token>, c: Cursor): (r: Parsed<Expr>)
    requires Inside(tokens, c)
    ensures Steps(tokens, c, r)
    ensures r.result.Ok? ==> c.current < r.after.current && Shaped(r.result.value, AssignmentLevel)
    decreases |tokens| - c.current, 10
  {
    var target := ParseBinary(tokens, c, OrLevel);
    if target.result.Err? then Propagated(target)
    else ParseAssignmentRest(tokens, target.after, target.result.value)
  }

  /** What follows the target in `assignment`: nothing, or `=` and the
      value, right-associatively. A variable target makes an Assign of its
      name with a fresh id; once the value has parsed, any other target
      reports 'Invalid assignment target.' at the `=` and raises. */
  function ParseAssignmentRest(tokens: seq<Token>, c: Cursor, target: Expr): (r: Parsed<Expr>)
    requires Inside(tokens, c)
    ensures Steps(tokens, c, r)
    ensures Shaped(target, OrLevel) && r.result.Ok? ==> Shaped(r.result.value, AssignmentLevel)
    ensures !Sees(tokens, c, Equal) ==> r == Parsed(Ok(target), c)
    ensures Sees(tokens, c, Equal) ==>
      var value := ParseAssignment(tokens, Advanced(tokens, c));
      && (r.result.Ok? <==> value.result.Ok? && target.Variable?)
      && (r.result.Ok? ==>
            && r.result.value == Assign(value.after.nextId, target.name, value.result.value)
            && r.after.nextId == r.result.value.id + 1)
      && (value.result.Ok? && !target.Variable? ==>
            r.after == Reporting(value.after, tokens[c.current], "Invalid assignment target."))
    decreases |tokens| - c.current, 10
  {
    if Sees(tokens, c, Equal) then
      var equals := tokens[c.current];
      var value := ParseAssignment(tokens, Advanced(tokens, c));
      if value.result.Err? then Propagated(value)
      else if target.Variable? then
        VariableTargetIsIdentifier(target);
        Parsed(Ok(Assign(value.after.nextId, target.name, value.result.value)), value.after.(nextId := value.after.nextId + 1))
      else Failed(Reporting(value.after, equals, "Invalid assignment target."))
    else if Shaped(target, OrLevel) then
      ShapedWidens(target, AssignmentLevel, OrLevel);
      Parsed(Ok(target), c)
    else Parsed(Ok(target), c)
  }

  lemma VariableTargetIsIdentifier(target: Expr)
    requires target.Variable?
    ensures Shaped(target, OrLevel) ==> target.name.kind == Identifier
  {
    if Shaped(target, OrLevel) {
      ShapedAtom(target, OrLevel);
    }
  }

  /** A binary or logical level: an operand of the next tighter level, and
      then the level's operators with their right operands, left to right. */
  function ParseBinary(tokens: seq<Token>, c: Cursor, p: nat): (r: Parsed<Expr>)
    requires Inside(tokens, c) && OrLevel <= p <= FactorLevel
    ensures Steps(tokens, c, r)
    ensures r.result.Ok? ==> c.current < r.after.current && Shaped(r.result.value, p)
    decreases |tokens| - c.current, 11 - p
  {
    var left := if p == FactorLevel then ParseUnary(tokens, c) else ParseBinary(tokens, c, p + 1);
    if left.result.Err? then Propagated(left)
    else ParseBinaryRest(tokens, left.after, left.result.value, p)
  }

  /** The loop of a binary or logical level: while the next token is one of
      its operators, the operator and a right operand extend the tree to the
      left. */
  function ParseBinaryRest(tokens: seq<Token>, c: Cursor, left: Expr, p: nat): (r: Parsed<Expr>)
    requires Inside(tokens, c) && OrLevel <= p <= FactorLevel
    ensures Steps(tokens, c, r)
    ensures Shaped(left, p) && r.result.Ok? ==> Shaped(r.result.value, p)
    ensures !SeesOneOf(tokens, c, Operators(p)) ==> r == Parsed(Ok(left), c)
    decreases |tokens| - c.current, 11 - p
  {
    if SeesOneOf(tokens, c, Operators(p)) then
      var operator := tokens[c.current];
      var right := if p == FactorLevel then ParseUnary(tokens, Advanced(tokens, c)) else ParseBinary(tokens, Advanced(tokens, c), p + 1);
      if right.result.Err? then Propagated(right)
      else
        var tree := if p <= AndLevel then Logical(left, operator, right.result.value) else Binary(left, operator, right.result.value);
        ParseBinaryRest(tokens, right.after, tree, p)
    else Parsed(Ok(left), c)
  }

  /** unary: `!` or `-` and a unary operand, right-associatively, or else a call. */
  function ParseUnary(tokens: seq<Token>, c: Cursor): (r: Parsed<Expr>)
    requires Inside(tokens, c)
    ensures Steps(tokens, c, r)
    ensures r.result.Ok? ==> c.current < r.after.current && Shaped(r.result.value, UnaryLevel)
    ensures r.result.Ok? && SeesOneOf(tokens, c, [Bang, Minus]) ==>
      r.result.value.Unary? && r.result.value.operator == tokens[c.current]
    decreases |tokens| - c.current, 3
  {
    if SeesOneOf(tokens, c, [Bang, Minus]) then
      var right := ParseUnary(tokens, Advanced(tokens, c));
      if right.result.Err? then Propagated(right)
      else Parsed(Ok(Expr.Unary(tokens[c.current], right.result.value)), right.after)
    else ParseCall(tokens, c)
  }

  /** call: a primary expression and then its argument lists, left to right. */
  function ParseCall(tokens: seq<Token>, c: Cursor): (r: Parsed<Expr>)
    requires Inside(tokens, c)
    ensures Steps(tokens, c, r)
    ensures r.result.Ok? ==> c.current < r.after.current && Shaped(r.result.value, CallLevel)
    decreases |tokens| - c.current, 2
  {
    var callee := ParsePrimary(tokens, c);
    if callee.result.Err? then Propagated(callee)
    else ParseCallRest(tokens, callee.after, callee.result.value)
  }

  /** The loop of `call`: each `(` starts an argument list that finish_call
      completes, the call so far being the callee. */
  function ParseCallRest(tokens: seq<Token>, c: Cursor, callee: Expr): (r: Parsed<Expr>)
    requires Inside(tokens, c)
    ensures Steps(tokens, c, r)
    ensures Shaped(callee, CallLevel) && r.result.Ok? ==> Shaped(r.result.value, CallLevel)
    ensures !Sees(tokens, c, LeftParen) ==> r == Parsed(Ok(callee), c)
    decreases |tokens| - c.current, 2
  {
    if Sees(tokens, c, LeftParen) then
      var call := ParseFinishCall(tokens, Advanced(tokens, c), callee);
      if call.result.Err? then Propagated(call)
      else ParseCallRest(tokens, call.after, call.result.value)
    else Parsed(Ok(callee), c)
  }

  /** finish_call: the comma-separated arguments, none when `)` comes first,
      and the closing paren, which the call keeps. */
  function ParseFinishCall(tokens: seq<Token>, c: Cursor, callee: Expr): (r: Parsed<Expr>)
    requires Inside(tokens, c)
    ensures Steps(tokens, c, r)
    ensures r.result.Ok? ==> c.current < r.after.current && r.result.value.Call? && r.result.value.callee == callee
    ensures r.result.Ok? ==> r.result.value.paren == tokens[r.after.current - 1] && r.result.value.paren.kind == RightParen
    ensures r.result.Ok? ==> (r.result.value.arguments == [] <==> Sees(tokens, c, RightParen))
    ensures Shaped(callee, CallLevel) && r.result.Ok? ==> Shaped(r.result.value, CallLevel)
    decreases |tokens| - c.current, 14
  {
    var arguments := ParseArgumentList(tokens, c);
    if arguments.result.Err? then Propagated(arguments)
    else
      var paren := ConsumeAt(tokens, arguments.after, RightParen, "Expect ')' after arguments.");
      if paren.result.Err? then Propagated(paren)
      else Parsed(Ok(Expr.Call(callee, paren.result.value, arguments.result.value)), paren.after)
  }

  /** The arguments of `finish_call`: none when `)` comes first. */
  function ParseArgumentList(tokens: seq<Token>, c: Cursor): (r: Parsed<seq<Expr>>)
    requires Inside(tokens, c)
    ensures Steps(tokens, c, r)
    ensures r.result.Ok? ==> (r.result.value == [] <==> Sees(tokens, c, RightParen))
    ensures r.result.Ok? ==> forall a | a in r.result.value :: Shaped(a, AssignmentLevel)
    decreases |tokens| - c.current, 13
  {
    if Sees(tokens, c, RightParen) then Parsed(Ok([]), c) else ParseArguments(tokens, c, [])
  }

  /** The argument loop of `finish_call`: an expression, and another after
      each comma; `parsed` are the arguments before. */
  function ParseArguments(tokens: seq<Token>, c: Cursor, parsed: seq<Expr>): (r: Parsed<seq<Expr>>)
    requires Inside(tokens, c)
    ensures Steps(tokens, c, r)
    ensures r.result.Ok? ==> c.current < r.after.current && |parsed| < |r.result.value|
    ensures (forall a | a in parsed :: Shaped(a, AssignmentLevel)) && r.result.Ok? ==>
      forall a | a in r.result.value :: Shaped(a, AssignmentLevel)
    decreases |tokens| - c.current, 12
  {
    var argument := ParseExpression(tokens, c);
    if argument.result.Err? then Propagated(argument)
    else if Sees(tokens, argument.after, Comma) then
      ParseArguments(tokens, Advanced(tokens, argument.after), parsed + [argument.result.value])
    else Parsed(Ok(parsed + [argument.result.value]), argument.after)
  }

  /** primary: the literals, or else a variable or a parenthesised
      expression (ParseNameOrGroup); any other token reports 'Expect
      expression.' there. */
  function ParsePrimary(tokens: seq<Token>, c: Cursor): (r: Parsed<Expr>)
    requires Inside(tokens, c)
    ensures Steps(tokens, c, r)
    ensures r.result.Ok? ==> c.current < r.after.current && Shaped(r.result.value, PrimaryLevel)
    ensures r.result.Ok? && tokens[c.current].kind == Identifier ==>
      r.result.value == Variable(c.nextId, tokens[c.current]) && r.after.nextId == c.nextId + 1
    ensures tokens[c.current].kind !in {False, True, Nil, Number, TokenType.String, Identifier, LeftParen} ==>
      r == Failed(Reporting(c, tokens[c.current], "Expect expression."))
    decreases |tokens| - c.current, 1
  {
    if SeesOneOf(tokens, c, [False]) then Parsed(Ok(Literal(LitBool(false))), Advanced(tokens, c))
    else if SeesOneOf(tokens, c, [True]) then Parsed(Ok(Literal(LitBool(true))), Advanced(tokens, c))
    else if SeesOneOf(tokens, c, [Nil]) then Parsed(Ok(Literal(LitNil)), Advanced(tokens, c))
    else if SeesOneOf(tokens, c, [Number, TokenType.String]) then
      Parsed(Ok(Literal(LiteralOf(tokens[c.current].literal))), Advanced(tokens, c))
    else ParseNameOrGroup(tokens, c)
  }

  /** The rest of `primary`: a variable with a fresh id, or a parenthesised
      expression, or else the error. */
  function ParseNameOrGroup(tokens: seq<Token>, c: Cursor): (r: Parsed<Expr>)
    requires Inside(tokens, c)
    ensures Steps(tokens, c, r)
    ensures r.result.Ok? ==> c.current < r.after.current && Shaped(r.result.value, PrimaryLevel)
    ensures r.result.Ok? && tokens[c.current].kind == Identifier ==>
      r.result.value == Variable(c.nextId, tokens[c.current]) && r.after.nextId == c.nextId + 1
    ensures tokens[c.current].kind !in {Identifier, LeftParen} ==>
      r == Failed(Reporting(c, tokens[c.current], "Expect expression."))
    decreases |tokens| - c.current, 0
  {
    if SeesOneOf(tokens, c, [Identifier]) then
      var after := Advanced(tokens, c);
      Parsed(Ok(Variable(after.nextId, tokens[c.current])), after.(nextId := after.nextId + 1))
    else if SeesOneOf(tokens, c, [LeftParen]) then
      var expr := ParseExpression(tokens, Advanced(tokens, c));
      if expr.result.Err? then Propagated(expr)
      else
        var close := ConsumeAt(tokens, expr.after, RightParen, "Expect ')' after expression.");
        if close.result.Err? then Propagated(close)
        else Parsed(Ok(Grouping(expr.result.value)), close.after)
    else Failed(Reporting(c, tokens[c.current], "Expect expression."))
  }

  class Parser {
    const tokens: seq<Token>
    const reporter: Reporter
    var current: nat
    /** The next node id to hand out to a Variable or Assign node. */
    var nextId: nat

    ghost predicate Valid()
      reads this
    {
      ValidTokens(tokens) && current < |tokens|
    }

    /** The node ids handed out start at `firstId`, so that nodes of
        different runs stay distinct, as distinct Ruby objects are. */
    constructor (tokens: seq<Token>, reporter: Reporter, firstId: nat)
      requires ValidTokens(tokens)
      ensures Valid() && this.tokens == tokens && this.reporter == reporter && current == 0 && nextId == firstId
    {
      this.tokens := tokens;
      this.reporter := reporter;
      current, nextId := 0, firstId;
    }

    /** The parser's state as a value, the reporter's part included. */
    function Snapshot(): Cursor
      reads this, reporter
    {
      Cursor(current, nextId, reporter.hadError, reporter.log)
    }

    // -------------------------------------------------------------------
    // Cursor helpers.

    function Peek(): Token
      reads this
      requires Valid()
    {
      tokens[current]
    }

    predicate AtEnd()
      reads this
      requires Valid()
    {
      Peek().kind == Eof
    }

    /** check: false at the end, else whether the next token has this kind. */
    predicate Check(kind: TokenType)
      reads this
      requires Valid()
    {
      if AtEnd() then false else Peek().kind == kind
    }

    function Previous(): Option<Token>
      reads this
      requires Valid()
    {
      if current == 0 then None else Some(tokens[current - 1])
    }

    /** advance: moves one token on, but never past the EOF token. */
    method Advance() returns (previous: Option<Token>)
      requires Valid()
      modifies this`current
      ensures Valid() && Snapshot() == Advanced(tokens, old(Snapshot()))
      ensures previous == Previous()
    {
      if !AtEnd() {
        current := current + 1;
      }
      previous := Previous();
    }

    /** match?: consumes the next token when its kind is one of `kinds`. */
    method Match(kinds: seq<TokenType>) returns (matched: bool)
      requires Valid()
      modifies this`current
      ensures Valid() && matched == SeesOneOf(tokens, old(Snapshot()), kinds)
      ensures Snapshot() == if matched then Advanced(tokens, old(Snapshot())) else old(Snapshot())
      ensures matched ==> Previous() == Some(old(Peek()))
    {
      var i := 0;
      while i < |kinds|
        invariant 0 <= i <= |kinds| && current == old(current)
        invariant forall j :: 0 <= j < i ==> !Check(kinds[j])
      {
        if Check(kinds[i]) {
          var _ := Advance();
          return true;
        }
        i := i + 1;
      }
      return false;
    }

    /** consume: the expected token, or a reported error at the next token. */
    method Consume(kind: TokenType, message: string) returns (r: Result<Token, ParseError>)
      requires Valid()
      modifies this, reporter`hadError, reporter`log
      ensures Valid() && Parsed(r, Snapshot()) == ConsumeAt(tokens, old(Snapshot()), kind, message)
    {
      if Check(kind) {
        var previous := Advance();
        return Ok(previous.value);
      }
      r := Error(Peek(), message);
    }

    /** error: reports at `token` and raises a ParseError. */
    method Error(token: Token, message: string) returns (r: Result<Token, ParseError>)
      modifies reporter`hadError, reporter`log
      ensures r == Err(ParseError) && reporter.hadError
      ensures reporter.log == old(reporter.log) + [ReportText(token.line, Where(AtToken(token)), message)]
    {
      reporter.Error(message, AtToken(token));
      return Err(ParseError);
    }

    method FreshId() returns (id: NodeId)
      modifies this`nextId
      ensures id == old(nextId) && nextId == old(nextId) + 1
    {
      id := nextId;
      nextId := nextId + 1;
    }

    /** synchronize: skips to the next statement boundary after an error. */
    method Synchronize()
      requires Valid()
      modifies this`current
      ensures Valid() && Snapshot() == Synchronized(tokens, old(Snapshot()))
    {
      var _ := Advance();
      while !AtEnd()
        invariant Valid() && SkipToBoundary(tokens, Snapshot()) == Synchronized(tokens, old(Snapshot()))
        decreases |tokens| - current
      {
        if Previous().Some? && Previous().value.kind == Semicolon {
          return;
        }
        if Peek().kind in {TokenType.Class, Fun, TokenType.Var, For, TokenType.If, TokenType.While, TokenType.Print, TokenType.Return} {
          return;
        }
        var _ := Advance();
      }
    }

    // -------------------------------------------------------------------
    // Declarations and statements.

    /** parse: declarations until the EOF token; a failed declaration is None. */
    method Parse() returns (statements: seq<Option<Stmt>>)
      requires Valid()
      modifies this, reporter`hadError, reporter`log
      ensures Valid() && Declared(statements, Snapshot()) == ParseProgram(tokens, old(Snapshot()))
    {
      statements := [];
      ghost var program := ParseProgram(tokens, Snapshot());
      assert program.value == statements + program.value;
      while !AtEnd()
        invariant Valid()
        invariant program.value == statements + ParseProgram(tokens, Snapshot()).value
        invariant program.after == ParseProgram(tokens, Snapshot()).after
        decreases |tokens| - current
      {
        ProgramStep(tokens, Snapshot());
        var d := Declaration();
        Associative(statements, [d], ParseProgram(tokens, Snapshot()).value);
        statements := statements + [d];
      }
      assert ParseProgram(tokens, Snapshot()) == Declared([], Snapshot());
      assert statements + [] == statements;
    }

    method Declaration() returns (r: Option<Stmt>)
      requires Valid() && !AtEnd()
      modifies this, reporter`hadError, reporter`log
      ensures Valid() && Declared(r, Snapshot()) == ParseDeclaration(tokens, old(Snapshot()))
      decreases |tokens| - current, 14
    {
      var res: Result<Stmt, ParseError>;
      if Check(TokenType.Var) {
        var _ := Advance();
        res := VarDeclaration();
      } else {
        res := Statement();
      }
      if res.Err? {
        Synchronize();
        return None;
      }
      return Some(res.value);
    }

    method Statement() returns (r: Result<Stmt, ParseError>)
      requires Valid()
      modifies this, reporter`hadError, reporter`log
      ensures Valid() && Parsed(r, Snapshot()) == ParseStatement(tokens, old(Snapshot()))
      decreases |tokens| - current, 13
    {
      // Each `match?` of a single kind is a check followed by an advance.
      if Check(For) {
        var _ := Advance();
        r := ForStatement();
      } else if Check(TokenType.If) {
        var _ := Advance();
        r := IfStatement();
      } else {
        r := OtherStatement();
      }
    }

    method OtherStatement() returns (r: Result<Stmt, ParseError>)
      requires Valid()
      modifies this, reporter`hadError, reporter`log
      ensures Valid() && Parsed(r, Snapshot()) == ParseOtherStatement(tokens, old(Snapshot()))
      decreases |tokens| - current, 12
    {
      if Check(TokenType.Print) {
        var _ := Advance();
        r := PrintStatement();
      } else if Check(TokenType.While) {
        var _ := Advance();
        r := WhileStatement();
      } else {
        r := BlockOrExpressionStatement();
      }
    }

    method BlockOrExpressionStatement() returns (r: Result<Stmt, ParseError>)
      requires Valid()
      modifies this, reporter`hadError, reporter`log
      ensures Valid() && Parsed(r, Snapshot()) == ParseBlockOrExpressionStatement(tokens, old(Snapshot()))
      decreases |tokens| - current, 11
    {
      if Check(LeftBrace) {
        var _ := Advance();
        var statements :- Block();
        r := Ok(Stmt.Block(statements));
      } else {
        r := ExpressionStatement();
      }
    }

    /** for_statement, desugared into a while loop. */
    method ForStatement() returns (r: Result<Stmt, ParseError>)
      requires Valid()
      modifies this, reporter`hadError, reporter`log
      ensures Valid() && Parsed(r, Snapshot()) == ParseFor(tokens, old(Snapshot()))
      decreases |tokens| - current, 12
    {
      var _ :- Consume(LeftParen, "Expect '(' after 'for'.");
      r := ForClauses();
    }

    method ForClauses() returns (r: Result<Stmt, ParseError>)
      requires Valid()
      modifies this, reporter`hadError, reporter`log
      ensures Valid() && Parsed(r, Snapshot()) == ParseForClauses(tokens, old(Snapshot()))
      decreases |tokens| - current, 13
    {
      var initializer :- ForInitializer();
      r := ForLoop(initializer);
    }

    method ForLoop(initializer: Option<Stmt>) returns (r: Result<Stmt, ParseError>)
      requires Valid()
      modifies this, reporter`hadError, reporter`log
      ensures Valid() && Parsed(r, Snapshot()) == ParseForLoop(tokens, old(Snapshot()), initializer)
      decreases |tokens| - current, 12
    {
      var condition :- ForClause(Semicolon, "Expect ';' after loop condition.");
      var increment :- ForClause(RightParen, "Expect ')' after for clauses.");
      var body :- Statement();
      r := Ok(DesugarFor(initializer, condition, increment, body));
    }

    method ForInitializer() returns (r: Result<Option<Stmt>, ParseError>)
      requires Valid()
      modifies this, reporter`hadError, reporter`log
      ensures Valid() && Parsed(r, Snapshot()) == ParseForInitializer(tokens, old(Snapshot()))
      decreases |tokens| - current, 12
    {
      if Check(Semicolon) {
        var _ := Advance();
        return Ok(None);
      }
      if Check(TokenType.Var) {
        var _ := Advance();
        var s :- VarDeclaration();
        return Ok(Some(s));
      }
      var s :- ExpressionStatement();
      return Ok(Some(s));
    }

    method ForClause(terminator: TokenType, message: string) returns (r: Result<Option<Expr>, ParseError>)
      requires Valid()
      modifies this, reporter`hadError, reporter`log
      ensures Valid() && Parsed(r, Snapshot()) == ParseForClause(tokens, old(Snapshot()), terminator, message)
      decreases |tokens| - current, 12
    {
      var clause :- ClauseExpression(terminator);
      var _ :- Consume(terminator, message);
      r := Ok(clause);
    }

    method ClauseExpression(terminator: TokenType) returns (r: Result<Option<Expr>, ParseError>)
      requires Valid()
      modifies this, reporter`hadError, reporter`log
      ensures Valid() && Parsed(r, Snapshot()) == ParseClauseExpression(tokens, old(Snapshot()), terminator)
      decreases |tokens| - current, 12
    {
      r := Ok(None);
      if !Check(terminator) {
        var e :- Expression();
        r := Ok(Some(e));
      }
    }

    method IfStatement() returns (r: Result<Stmt, ParseError>)
      requires Valid()
      modifies this, reporter`hadError, reporter`log
      ensures Valid() && Parsed(r, Snapshot()) == ParseIf(tokens, old(Snapshot()))
      decreases |tokens| - current, 12
    {
      var _ :- Consume(LeftParen, "Expect '(' after 'if'.");
      var condition :- Expression();
      var _ :- Consume(RightParen, "Expect ')' after if condition.");
      r := IfBranches(condition);
    }

    method IfBranches(condition: Expr) returns (r: Result<Stmt, ParseError>)
      requires Valid()
      modifies this, reporter`hadError, reporter`log
      ensures Valid() && Parsed(r, Snapshot()) == ParseIfBranches(tokens, old(Snapshot()), condition)
      decreases |tokens| - current, 14
    {
      var thenBranch :- Statement();
      var elseBranch: Option<Stmt> := None;
      if Check(Else) {
        var _ := Advance();
        var e :- Statement();
        elseBranch := Some(e);
      }
      r := Ok(Stmt.If(condition, thenBranch, elseBranch));
    }

    method PrintStatement() returns (r: Result<Stmt, ParseError>)
      requires Valid()
      modifies this, reporter`hadError, reporter`log
      ensures Valid() && Parsed(r, Snapshot()) == ParsePrint(tokens, old(Snapshot()))
      decreases |tokens| - current, 12
    {
      var value :- Expression();
      var _ :- Consume(Semicolon, "Expect ';' after value.");
      r := Ok(Stmt.Print(value));
    }

    method WhileStatement() returns (r: Result<Stmt, ParseError>)
      requires Valid()
      modifies this, reporter`hadError, reporter`log
      ensures Valid() && Parsed(r, Snapshot()) == ParseWhile(tokens, old(Snapshot()))
      decreases |tokens| - current, 12
    {
      var _ :- Consume(LeftParen, "Expect '(' after 'while'.");
      var condition :- Expression();
      var _ :- Consume(RightParen, "Expect ')' after 'while'.");
      var body :- Statement();
      r := Ok(Stmt.While(condition, body));
    }

    method ExpressionStatement() returns (r: Result<Stmt, ParseError>)
      requires Valid()
      modifies this, reporter`hadError, reporter`log
      ensures Valid() && Parsed(r, Snapshot()) == ParseExpressionStatement(tokens, old(Snapshot()))
      decreases |tokens| - current, 12
    {
      var expr :- Expression();
      var _ :- Consume(Semicolon, "Expect ';' after expression.");
      r := Ok(Stmt.Expression(expr));
    }

    /** block: declarations up to the closing brace; a declaration that
        failed (reported, and so never resolved or run) is left out. */
    method Block() returns (r: Result<seq<Stmt>, ParseError>)
      requires Valid()
      modifies this, reporter`hadError, reporter`log
      ensures Valid() && Parsed(r, Snapshot()) == ParseBlock(tokens, old(Snapshot()))
      decreases |tokens| - current, 16
    {
      var statements := BlockItems();
      var _ :- Consume(RightBrace, "Expect '}' after block.");
      r := Ok(statements);
    }

    /** The loop of `block`. */
    method BlockItems() returns (statements: seq<Stmt>)
      requires Valid()
      modifies this, reporter`hadError, reporter`log
      ensures Valid()
      ensures var items := ParseBlockItems(tokens, old(Snapshot()));
        statements == Completed(items.value) && Snapshot() == items.after
      decreases |tokens| - current, 15
    {
      statements := [];
      ghost var parsed: seq<Option<Stmt>> := [];
      ghost var items := ParseBlockItems(tokens, Snapshot());
      assert items.value == parsed + items.value;
      while !Check(RightBrace) && !AtEnd()
        invariant Valid()
        invariant statements == Completed(parsed)
        invariant items.value == parsed + ParseBlockItems(tokens, Snapshot()).value
        invariant items.after == ParseBlockItems(tokens, Snapshot()).after
        decreases |tokens| - current
      {
        ghost var before := Snapshot();
        BlockItemsStep(tokens, before);
        var d := Declaration();
        Associative(parsed, [d], ParseBlockItems(tokens, Snapshot()).value);
        CompletedAppend(parsed, d);
        parsed := parsed + [d];
        if d.Some? {
          statements := statements + [d.value];
        }
      }
      assert parsed + ParseBlockItems(tokens, Snapshot()).value == parsed;
    }

    method VarDeclaration() returns (r: Result<Stmt, ParseError>)
      requires Valid()
      modifies this, reporter`hadError, reporter`log
      ensures Valid() && Parsed(r, Snapshot()) == ParseVarDeclaration(tokens, old(Snapshot()))
      decreases |tokens| - current, 12
    {
      var name :- Consume(Identifier, "Expect variable name.");
      r := VarRest(name);
    }

    method VarRest(name: Token) returns (r: Result<Stmt, ParseError>)
      requires Valid()
      modifies this, reporter`hadError, reporter`log
      ensures Valid() && Parsed(r, Snapshot()) == ParseVarRest(tokens, old(Snapshot()), name)
      decreases |tokens| - current, 13
    {
      var initializer :- VarInitializer();
      var _ :- Consume(Semicolon, "Expect ';' after variable declaration.");
      r := Ok(Stmt.Var(name, initializer));
    }

    method VarInitializer() returns (r: Result<Option<Expr>, ParseError>)
      requires Valid()
      modifies this, reporter`hadError, reporter`log
      ensures Valid() && Parsed(r, Snapshot()) == ParseVarInitializer(tokens, old(Snapshot()))
      decreases |tokens| - current, 12
    {
      var m := Match([Equal]);
      if !m {
        return Ok(None);
      }
      var e :- Expression();
      r := Ok(Some(e));
    }

    // -------------------------------------------------------------------
    // Expressions, loosest to tightest.

    method Expression() returns (r: Result<Expr, ParseError>)
      requires Valid()
      modifies this, reporter`hadError, reporter`log
      ensures Valid() && Parsed(r, Snapshot()) == ParseExpression(tokens, old(Snapshot()))
      decreases |tokens| - current, 11
    {
      r := Assignment();
    }

    method Assignment() returns (r: Result<Expr, ParseError>)
      requires Valid()
      modifies this, reporter`hadError, reporter`log
      ensures Valid() && Parsed(r, Snapshot()) == ParseAssignment(tokens, old(Snapshot()))
      decreases |tokens| - current, 10
    {
      var expr :- LogicalOr();
      r := AssignmentRest(expr);
    }

    method AssignmentRest(expr: Expr) returns (r: Result<Expr, ParseError>)
      requires Valid()
      modifies this, reporter`hadError, reporter`log
      ensures Valid() && Parsed(r, Snapshot()) == ParseAssignmentRest(tokens, old(Snapshot()), expr)
      decreases |tokens| - current, 10
    {
      var m := Match([Equal]);
      if m {
        var equals := Previous().value;
        var value :- Assignment();
        if expr.Variable? {
          var id := FreshId();
          r := Ok(Assign(id, expr.name, value));
          return;
        }
        var _ := Error(equals, "Invalid assignment target.");
        r := Err(ParseError);
        return;
      }
      r := Ok(expr);
    }

    method LogicalOr() returns (r: Result<Expr, ParseError>)
      requires Valid()
      modifies this, reporter`hadError, reporter`log
      ensures Valid() && Parsed(r, Snapshot()) == ParseBinary(tokens, old(Snapshot()), OrLevel)
      decreases |tokens| - current, 9
    {
      var expr :- LogicalAnd();
      while true
        invariant Valid()
        invariant ParseBinaryRest(tokens, Snapshot(), expr, OrLevel) == ParseBinary(tokens, old(Snapshot()), OrLevel)
        decreases |tokens| - current
      {
        var m := Match([Or]);
        if !m { break; }
        var operator := Previous().value;
        var right :- LogicalAnd();
        expr := Logical(expr, operator, right);
      }
      r := Ok(expr);
    }

    method LogicalAnd() returns (r: Result<Expr, ParseError>)
      requires Valid()
      modifies this, reporter`hadError, reporter`log
      ensures Valid() && Parsed(r, Snapshot()) == ParseBinary(tokens, old(Snapshot()), AndLevel)
      decreases |tokens| - current, 8
    {
      var expr :- Equality();
      while true
        invariant Valid()
        invariant ParseBinaryRest(tokens, Snapshot(), expr, AndLevel) == ParseBinary(tokens, old(Snapshot()), AndLevel)
        decreases |tokens| - current
      {
        var m := Match([And]);
        if !m { break; }
        var operator := Previous().value;
        var right :- Equality();
        expr := Logical(expr, operator, right);
      }
      r := Ok(expr);
    }

    method Equality() returns (r: Result<Expr, ParseError>)
      requires Valid()
      modifies this, reporter`hadError, reporter`log
      ensures Valid() && Parsed(r, Snapshot()) == ParseBinary(tokens, old(Snapshot()), EqualityLevel)
      decreases |tokens| - current, 7
    {
      var expr :- Comparison();
      while true
        invariant Valid()
        invariant ParseBinaryRest(tokens, Snapshot(), expr, EqualityLevel) == ParseBinary(tokens, old(Snapshot()), EqualityLevel)
        decreases |tokens| - current
      {
        var m := Match([BangEqual, EqualEqual]);
        if !m { break; }
        var operator := Previous().value;
        var right :- Comparison();
        expr := Binary(expr, operator, right);
      }
      r := Ok(expr);
    }

    method Comparison() returns (r: Result<Expr, ParseError>)
      requires Valid()
      modifies this, reporter`hadError, reporter`log
      ensures Valid() && Parsed(r, Snapshot()) == ParseBinary(tokens, old(Snapshot()), ComparisonLevel)
      decreases |tokens| - current, 6
    {
      var expr :- Term();
      while true
        invariant Valid()
        invariant ParseBinaryRest(tokens, Snapshot(), expr, ComparisonLevel) == ParseBinary(tokens, old(Snapshot()), ComparisonLevel)
        decreases |tokens| - current
      {
        var m := Match([Greater, GreaterEqual, Less, LessEqual]);
        if !m { break; }
        var operator := Previous().value;
        var right :- Term();
        expr := Binary(expr, operator, right);
      }
      r := Ok(expr);
    }

    method Term() returns (r: Result<Expr, ParseError>)
      requires Valid()
      modifies this, reporter`hadError, reporter`log
      ensures Valid() && Parsed(r, Snapshot()) == ParseBinary(tokens, old(Snapshot()), TermLevel)
      decreases |tokens| - current, 5
    {
      var expr :- Factor();
      while true
        invariant Valid()
        invariant ParseBinaryRest(tokens, Snapshot(), expr, TermLevel) == ParseBinary(tokens, old(Snapshot()), TermLevel)
        decreases |tokens| - current
      {
        var m := Match([Minus, Plus]);
        if !m { break; }
        var operator := Previous().value;
        var right :- Factor();
        expr := Binary(expr, operator, right);
      }
      r := Ok(expr);
    }

    method Factor() returns (r: Result<Expr, ParseError>)
      requires Valid()
      modifies this, reporter`hadError, reporter`log
      ensures Valid() && Parsed(r, Snapshot()) == ParseBinary(tokens, old(Snapshot()), FactorLevel)
      decreases |tokens| - current, 4
    {
      var expr :- Unary();
      while true
        invariant Valid()
        invariant ParseBinaryRest(tokens, Snapshot(), expr, FactorLevel) == ParseBinary(tokens, old(Snapshot()), FactorLevel)
        decreases |tokens| - current
      {
        var m := Match([Slash, Star]);
        if !m { break; }
        var operator := Previous().value;
        var right :- Unary();
        expr := Binary(expr, operator, right);
      }
      r := Ok(expr);
    }

    method Unary() returns (r: Result<Expr, ParseError>)
      requires Valid()
      modifies this, reporter`hadError, reporter`log
      ensures Valid() && Parsed(r, Snapshot()) == ParseUnary(tokens, old(Snapshot()))
      decreases |tokens| - current, 3
    {
      var m := Match([Bang, Minus]);
      if m {
        var operator := Previous().value;
        var right :- Unary();
        return Ok(Expr.Unary(operator, right));
      }
      r := Call();
    }

    method Call() returns (r: Result<Expr, ParseError>)
      requires Valid()
      modifies this, reporter`hadError, reporter`log
      ensures Valid() && Parsed(r, Snapshot()) == ParseCall(tokens, old(Snapshot()))
      decreases |tokens| - current, 2
    {
      var expr :- Primary();
      while true
        invariant Valid()
        invariant ParseCallRest(tokens, Snapshot(), expr) == ParseCall(tokens, old(Snapshot()))
        decreases |tokens| - current
      {
        var m := Match([LeftParen]);
        if !m { break; }
        expr :- FinishCall(expr);
      }
      r := Ok(expr);
    }

    method FinishCall(callee: Expr) returns (r: Result<Expr, ParseError>)
      requires Valid()
      modifies this, reporter`hadError, reporter`log
      ensures Valid() && Parsed(r, Snapshot()) == ParseFinishCall(tokens, old(Snapshot()), callee)
      decreases |tokens| - current, 14
    {
      var arguments :- ArgumentList();
      var paren :- Consume(RightParen, "Expect ')' after arguments.");
      r := Ok(Expr.Call(callee, paren, arguments));
    }

    /** The argument loop of `finish_call`. */
    method ArgumentList() returns (r: Result<seq<Expr>, ParseError>)
      requires Valid()
      modifies this, reporter`hadError, reporter`log
      ensures Valid() && Parsed(r, Snapshot()) == ParseArgumentList(tokens, old(Snapshot()))
      decreases |tokens| - current, 13
    {
      var arguments: seq<Expr> := [];
      if !Check(RightParen) {
        ghost var goal := ParseArguments(tokens, Snapshot(), []);
        while true
          invariant Valid()
          invariant ParseArguments(tokens, Snapshot(), arguments) == goal
          decreases |tokens| - current
        {
          var argument :- Expression();
          arguments := arguments + [argument];
          var m := Match([Comma]);
          if !m { break; }
        }
      }
      r := Ok(arguments);
    }

    method Primary() returns (r: Result<Expr, ParseError>)
      requires Valid()
      modifies this, reporter`hadError, reporter`log
      ensures Valid() && Parsed(r, Snapshot()) == ParsePrimary(tokens, old(Snapshot()))
      decreases |tokens| - current, 1
    {
      var m := Match([False]);
      if m { return Ok(Literal(LitBool(false))); }
      m := Match([True]);
      if m { return Ok(Literal(LitBool(true))); }
      m := Match([Nil]);
      if m { return Ok(Literal(LitNil)); }
      m := Match([Number, TokenType.String]);
      if m { return Ok(Literal(LiteralOf(Previous().value.literal))); }
      r := NameOrGroup();
    }

    method NameOrGroup() returns (r: Result<Expr, ParseError>)
      requires Valid()
      modifies this, reporter`hadError, reporter`log
      ensures Valid() && Parsed(r, Snapshot()) == ParseNameOrGroup(tokens, old(Snapshot()))
      decreases |tokens| - current, 0
    {
      var m := Match([Identifier]);
      if m {
        var name := Previous().value;
        var id := FreshId();
        return Ok(Variable(id, name));
      }
      m := Match([LeftParen]);
      if m {
        var expr :- Expression();
        var _ :- Consume(RightParen, "Expect ')' after expression.");
        return Ok(Grouping(expr));
      }
      var _ := Error(Peek(), "Expect expression.");
      return Err(ParseError);
    }
  }
}
