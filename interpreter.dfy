// The evaluator of lib/rlox/interpreter.rb, with Function#call and
// Class#call. Evaluation is a family of functions over a State that stands
// for the Ruby heap: every environment frame ever created sits in `envs`,
// and a frame's parent is an index into that list, so frames are shared
// exactly as Ruby objects are. The current environment is a parameter, so
// a block or a call that runs in another frame hands back a state that is
// seen again from the caller's frame on every exit, normal or not.
//
// Ruby exceptions become outcomes: a RLox::RuntimeError is Raised, the
// Return signal is Thrown, and a host failure (a node kind with no visitor,
// a distance that walks past the outermost frame, an IEEE division by zero)
// is a Fault that names it. Loops and calls may not terminate, so each
// function carries fuel and gives up with OutOfFuel when it runs out.
module Interpreter {
  import opened Wrappers
  import T = Tokens
  import opened Errors
  import opened Ast
  import opened Values
  import opened Environments

  /** One environment receiver: its bindings and the index of its parent. */
  datatype Env = Env(values: Frame, enclosing: Option<nat>)

  datatype State = State(envs: seq<Env>, heap: map<nat, Fields>, nextId: nat, output: seq<string>)

  /** The index of `globals`, the first frame created. */
  const Globals: nat := 0

  /** What stays fixed while statements run: the resolver's side table and
      the reading `clock` returns. */
  datatype Context = Context(locals: map<NodeId, nat>, clock: real)

  datatype Outcome =
    | Normal(value: Value)
    | Thrown(signal: Return)
    | Raised(error: LoxError)
    | Fault(reason: string)
    | OutOfFuel

  /** An outcome with the state it leaves. `:-` passes on every outcome
      that is not Normal. */
  datatype Run = Run(outcome: Outcome, state: State) {
    predicate IsFailure() { !outcome.Normal? }
    function PropagateFailure(): Run requires IsFailure() { this }
    function Extract(): Run requires !IsFailure() { this }
  }

  /** The outcome and the argument values of a list of arguments. */
  datatype Evaluated = Evaluated(outcome: Outcome, values: seq<Value>, state: State)

  /** What a run may do to the state: frames, objects and printed lines are
      only ever added. */
  predicate Grows(before: State, after: State)
  {
    |before.envs| <= |after.envs| && before.nextId <= after.nextId && before.output <= after.output
  }

  function InitialState(): State
  {
    State([Env(map["clock" := Clock], None)], map[], 0, [])
  }

  // ---------------------------------------------------------------------
  // Values.

  /** `truthy?` returns the receiver itself, so Ruby's truthiness applies:
      nil and false are falsy, everything else is truthy. */
  predicate Truthy(v: Value)
  {
    !(v.Nil? || v == Bool(false))
  }

  function DigitOf(c: char): nat
  {
    if '0' <= c <= '9' then c as int - '0' as int else 0
  }

  function WholeValue(s: string): nat
  {
    if s == [] then 0 else WholeValue(s[..|s| - 1]) * 10 + DigitOf(s[|s| - 1])
  }

  function Pow10(k: nat): (r: nat)
    ensures r >= 1
  {
    if k == 0 then 1 else 10 * Pow10(k - 1)
  }

  function DotIndex(s: string): (i: nat)
    ensures i <= |s|
    ensures i < |s| ==> s[i] == '.'
    ensures forall j :: 0 <= j < i ==> s[j] != '.'
  {
    if s == [] then 0 else if s[0] == '.' then 0 else 1 + DotIndex(s[1..])
  }

  /** The number a literal's lexeme denotes, exactly. Ruby's `to_f` rounds
      it to the nearest double. */
  function NumberValue(text: string): real
  {
    var dot := DotIndex(text);
    var fraction := if dot < |text| then text[dot + 1..] else [];
    WholeValue(text[..dot]) as real + WholeValue(fraction) as real / Pow10(|fraction|) as real
  }

  function LiteralValue(lit: Lit): Value
  {
    match lit
    case LitNil => Nil
    case LitBool(b) => Bool(b)
    case LitNumber(text) => Num(NumberValue(text))
    case LitString(text) => Str(text)
  }

  /** `k` digits of `n`, with leading zeros. */
  function Padded(n: nat, k: nat): (r: string)
    ensures |r| == k
  {
    if k == 0 then [] else Padded(n / 10, k - 1) + [DigitChar(n % 10)]
  }

  function StripTrailingZeros(s: string): (r: string)
    ensures r <= s
    ensures r == [] || r[|r| - 1] != '0'
  {
    if s == [] || s[|s| - 1] != '0' then s
    else
      assert s[..|s| - 1] <= s;
      StripTrailingZeros(s[..|s| - 1])
  }

  /** The fractional digits Float#to_s writes, at most 16 and without
      trailing zeros, after a point; nothing for a whole number. */
  function FractionText(fraction: real): string
  {
    var scaled := (fraction * Pow10(16) as real).Floor;
    var digits := StripTrailingZeros(Padded(if scaled < 0 then 0 else scaled, 16));
    if digits == [] then "" else "." + digits
  }

  /** Float#to_s of a non-negative number, with the ".0" of a whole number
      dropped as `stringify` does. */
  function MagnitudeText(r: real): string
    requires r >= 0.0
  {
    var whole: nat := r.Floor;
    NatText(whole) + FractionText(r - whole as real)
  }

  function NumberText(r: real): string
  {
    if r < 0.0 then "-" + MagnitudeText(-r) else MagnitudeText(r)
  }

  /** `stringify`: "nil" for nil, the number text for a number, and `to_s`
      for everything else. */
  function Stringify(v: Value): string
  {
    match v
    case Nil => "nil"
    case Bool(b) => if b then "true" else "false"
    case Num(n) => NumberText(n)
    case Str(s) => s
    case _ => ObjectText(v)
  }

  // ---------------------------------------------------------------------
  // Operators.

  function NumberOperandError(operator: T.Token): LoxError
  {
    LoxError(operator, "Operand must be a number.")
  }

  function NumberOperandsError(operator: T.Token): LoxError
  {
    LoxError(operator, "Operand must be numbers.")
  }

  /** `visit_unary_expr` once the operand is evaluated; an operator it has
      no case for yields nil. */
  function UnaryOp(operator: T.Token, right: Value): Outcome
  {
    if operator.kind == T.Bang then Normal(Bool(!Truthy(right)))
    else if operator.kind == T.Minus then
      if right.Num? then Normal(Num(-right.n)) else Raised(NumberOperandError(operator))
    else Normal(Nil)
  }

  /** The operators `check_number_operands` guards. */
  predicate NumericOperator(kind: T.TokenType)
  {
    kind in {T.Greater, T.GreaterEqual, T.Less, T.LessEqual, T.Minus, T.Slash, T.Star}
  }

  /** `visit_binary_expr` once both operands are evaluated. */
  function BinaryOp(operator: T.Token, left: Value, right: Value): Outcome
  {
    var kind := operator.kind;
    if kind == T.BangEqual then Normal(Bool(left != right))
    else if kind == T.EqualEqual then Normal(Bool(left == right))
    else if kind == T.Plus then
      if left.Num? && right.Num? then Normal(Num(left.n + right.n))
      else if left.Str? && right.Str? then Normal(Str(left.s + right.s))
      else Raised(LoxError(operator, "Operands must be two numbers or two strings."))
    else if NumericOperator(kind) then
      if !(left.Num? && right.Num?) then Raised(NumberOperandsError(operator))
      else if kind == T.Greater then Normal(Bool(left.n > right.n))
      else if kind == T.GreaterEqual then Normal(Bool(left.n >= right.n))
      else if kind == T.Less then Normal(Bool(left.n < right.n))
      else if kind == T.LessEqual then Normal(Bool(left.n <= right.n))
      else if kind == T.Minus then Normal(Num(left.n - right.n))
      else if kind == T.Star then Normal(Num(left.n * right.n))
      else if right.n == 0.0 then Fault("IEEE division by zero")
      else Normal(Num(left.n / right.n))
    else Normal(Nil)
  }

  function ArityMessage(arity: nat, count: nat): string
  {
    "Expected " + NatText(arity) + " arguments but got " + NatText(count) + "."
  }

  // ---------------------------------------------------------------------
  // Environments in the store.

  /** The frame `distance` parent links away from `env`, if the chain is
      that long. */
  function AncestorIndex(envs: seq<Env>, env: nat, distance: nat): (r: Option<nat>)
    ensures r.Some? ==> r.value < |envs|
    decreases distance
  {
    if env >= |envs| then None
    else if distance == 0 then Some(env)
    else if envs[env].enclosing.None? then None
    else AncestorIndex(envs, envs[env].enclosing.value, distance - 1)
  }

  /** `environment.define` on the frame `env`. */
  function DefineIn(st: State, env: nat, name: string, value: Value): (r: State)
    requires env < |st.envs|
    ensures |r.envs| == |st.envs| && r.heap == st.heap && r.nextId == st.nextId && r.output == st.output
    ensures r.envs[env].values == Defined(st.envs[env].values, name, value)
    ensures r.envs[env].enclosing == st.envs[env].enclosing
    ensures forall i :: 0 <= i < |st.envs| && i != env ==> r.envs[i] == st.envs[i]
  {
    st.(envs := st.envs[env := st.envs[env].(values := Defined(st.envs[env].values, name, value))])
  }

  /** `look_up_variable`: by resolved distance when the resolver recorded
      one for this node, otherwise in globals. */
  function LookUpVariable(name: T.Token, id: NodeId, env: nat, st: State, ctx: Context): Outcome
    requires env < |st.envs|
  {
    if id in ctx.locals then
      match AncestorIndex(st.envs, env, ctx.locals[id])
      case None => Fault("walked past the outermost environment")
      case Some(a) => Normal(ValueOrNil(st.envs[a].values, name.lexeme))
    else
      match Lookup(st.envs[Globals].values, name)
      case Ok(v) => Normal(v)
      case Err(e) => Raised(e)
  }

  /** The assignment half of `visit_assign_expr`: `assign_at` by resolved
      distance, otherwise `globals.assign`; the result is the value. */
  function AssignVariable(name: T.Token, id: NodeId, value: Value, env: nat, st: State, ctx: Context): (r: Run)
    requires env < |st.envs|
    ensures |r.state.envs| == |st.envs| && r.state.heap == st.heap && r.state.nextId == st.nextId && r.state.output == st.output
    ensures r.outcome.Normal? ==> r.outcome.value == value
  {
    if id in ctx.locals then
      match AncestorIndex(st.envs, env, ctx.locals[id])
      case None => Run(Fault("walked past the outermost environment"), st)
      case Some(a) => Run(Normal(value), DefineIn(st, a, name.lexeme, value))
    else
      match Assigned(st.envs[Globals].values, name, value)
      case Ok(values) => Run(Normal(value), st.(envs := st.envs[Globals := st.envs[Globals].(values := values)]))
      case Err(e) => Run(Raised(e), st)
  }

  function FieldsOf(st: State, id: nat): Fields
  {
    // Every instance is created together with its entry in the heap.
    if id in st.heap then st.heap[id] else map[]
  }

  /** The `times` loop of Function#call: parameter i is defined as
      argument i, in order, so a repeated name keeps the later argument. */
  function Bind(frame: Frame, params: seq<T.Token>, arguments: seq<Value>): (r: Frame)
    requires |params| == |arguments|
    decreases |params|
  {
    if params == [] then frame
    else Bind(Defined(frame, params[0].lexeme, arguments[0]), params[1..], arguments[1..])
  }

  // ---------------------------------------------------------------------
  // Evaluation.

  function Eval(e: Expr, env: nat, st: State, ctx: Context, fuel: nat): (r: Run)
    requires env < |st.envs|
    ensures Grows(st, r.state)
    decreases fuel, 0
  {
    if fuel == 0 then Run(OutOfFuel, st) else
    match e
    case Literal(lit) => Run(Normal(LiteralValue(lit)), st)
    case Grouping(inner) => Eval(inner, env, st, ctx, fuel - 1)
    case Unary(operator, right) =>
      var o :- Eval(right, env, st, ctx, fuel - 1);
      Run(UnaryOp(operator, o.outcome.value), o.state)
    case Binary(left, operator, right) =>
      var l :- Eval(left, env, st, ctx, fuel - 1);
      var o :- Eval(right, env, l.state, ctx, fuel - 1);
      Run(BinaryOp(operator, l.outcome.value, o.outcome.value), o.state)
    case Logical(left, operator, right) =>
      var l :- Eval(left, env, st, ctx, fuel - 1);
      if operator.kind == T.Or then
        if Truthy(l.outcome.value) then l else Eval(right, env, l.state, ctx, fuel - 1)
      else
        if !Truthy(l.outcome.value) then l else Eval(right, env, l.state, ctx, fuel - 1)
    case Variable(id, name) => Run(LookUpVariable(name, id, env, st, ctx), st)
    case This(id, keyword) => Run(LookUpVariable(keyword, id, env, st, ctx), st)
    case Assign(id, name, value) =>
      var v :- Eval(value, env, st, ctx, fuel - 1);
      AssignVariable(name, id, v.outcome.value, env, v.state, ctx)
    case Call(callee, paren, arguments) =>
      var c :- Eval(callee, env, st, ctx, fuel - 1);
      var a := EvalArgs(arguments, env, c.state, ctx, fuel - 1);
      var fn := c.outcome.value;
      if !a.outcome.Normal? then Run(a.outcome, a.state)
      else if !Callable(fn) then
        Run(Raised(LoxError(paren, "Can only call functions and classes.")), a.state)
      else if |a.values| != Arity(fn) then
        Run(Raised(LoxError(paren, ArityMessage(Arity(fn), |a.values|))), a.state)
      else CallValue(fn, a.values, a.state, ctx, fuel - 1)
    case Get(obj, name) =>
      var o :- Eval(obj, env, st, ctx, fuel - 1);
      var receiver := o.outcome.value;
      if !receiver.Inst? then Run(Raised(LoxError(name, "Only instances have properties.")), o.state)
      else
        (match GetField(FieldsOf(o.state, receiver.id), name)
         case Ok(v) => Run(Normal(v), o.state)
         case Err(error) => Run(Raised(error), o.state))
    case Set(obj, name, value) =>
      var o :- Eval(obj, env, st, ctx, fuel - 1);
      var receiver := o.outcome.value;
      if !receiver.Inst? then Run(Raised(LoxError(name, "Only instances have fields.")), o.state)
      else
        var v :- Eval(value, env, o.state, ctx, fuel - 1);
        var fields := SetField(FieldsOf(v.state, receiver.id), name, v.outcome.value);
        Run(Normal(v.outcome.value), v.state.(heap := v.state.heap[receiver.id := fields]))
    case Super(_, _, _) => Run(Fault("no visitor for Super"), st)
  }

  /** `expr.arguments.map { evaluate }`: left to right, stopping at the
      first argument that does not evaluate normally. */
  function EvalArgs(arguments: seq<Expr>, env: nat, st: State, ctx: Context, fuel: nat): (r: Evaluated)
    requires env < |st.envs|
    ensures Grows(st, r.state)
    ensures r.outcome.Normal? ==> |r.values| == |arguments|
    decreases fuel, |arguments|
  {
    if arguments == [] then Evaluated(Normal(Nil), [], st)
    else
      var first := Eval(arguments[0], env, st, ctx, fuel);
      if !first.outcome.Normal? then Evaluated(first.outcome, [], first.state)
      else
        var rest := EvalArgs(arguments[1..], env, first.state, ctx, fuel);
        Evaluated(rest.outcome, [first.outcome.value] + rest.values, rest.state)
  }

  /** Function#call, Class#call and the clock native, once the arity check
      has passed. */
  function CallValue(fn: Value, arguments: seq<Value>, st: State, ctx: Context, fuel: nat): (r: Run)
    requires Callable(fn) && |arguments| == Arity(fn)
    ensures Grows(st, r.state)
    ensures !r.outcome.Thrown?
    decreases fuel, 0
  {
    match fn
    case Clock => Run(Normal(Num(ctx.clock)), st)
    case Cls(klass) =>
      var id := st.nextId;
      Run(Normal(Inst(id, klass)), st.(heap := st.heap[id := map[]], nextId := id + 1))
    case Fn(_, declaration) =>
      if fuel == 0 then Run(OutOfFuel, st) else
      // As written, the fresh frame's parent is globals, not the frame the
      // function was declared in.
      var frame := Env(Bind(map[], declaration.params, arguments), Some(Globals));
      var body := ExecSeq(declaration.body, |st.envs|, st.(envs := st.envs + [frame]), ctx, fuel - 1);
      match body.outcome
      case Thrown(signal) => Run(Normal(signal.value), body.state)
      case Normal(_) => Run(Normal(Nil), body.state)
      case _ => body
  }

  function Exec(s: Stmt, env: nat, st: State, ctx: Context, fuel: nat): (r: Run)
    requires env < |st.envs|
    ensures Grows(st, r.state)
    ensures r.outcome.Normal? ==> r.outcome.value == Nil
    decreases fuel, 0
  {
    if fuel == 0 then Run(OutOfFuel, st) else
    match s
    case Expression(e) =>
      var o :- Eval(e, env, st, ctx, fuel - 1);
      Run(Normal(Nil), o.state)
    case Function(declaration) =>
      // Function.new is also handed `environment`, which it does not take.
      var fn := Fn(st.nextId, declaration);
      Run(Normal(Nil), DefineIn(st.(nextId := st.nextId + 1), env, declaration.name.lexeme, fn))
    case Print(e) =>
      var o :- Eval(e, env, st, ctx, fuel - 1);
      Run(Normal(Nil), o.state.(output := o.state.output + [Stringify(o.outcome.value)]))
    case Return(_, value) =>
      if value.None? then Run(Thrown(Returning(Nil)), st)
      else
        var o :- Eval(value.value, env, st, ctx, fuel - 1);
        Run(Thrown(Returning(o.outcome.value)), o.state)
    case Var(name, initializer) =>
      if initializer.None? then Run(Normal(Nil), DefineIn(st, env, name.lexeme, Nil))
      else
        var o :- Eval(initializer.value, env, st, ctx, fuel - 1);
        Run(Normal(Nil), DefineIn(o.state, env, name.lexeme, o.outcome.value))
    case Block(statements) =>
      var inner := st.(envs := st.envs + [Env(map[], Some(env))]);
      ExecSeq(statements, |st.envs|, inner, ctx, fuel - 1)
    case Class(name, _) =>
      // Class.new is also handed the method table, which it does not take.
      var declared := DefineIn(st, env, name.lexeme, Nil);
      var klass := Cls(LoxClass(st.nextId, name.lexeme));
      var st1 := declared.(nextId := st.nextId + 1);
      (match Assigned(st1.envs[env].values, name, klass)
       case Ok(values) => Run(Normal(Nil), st1.(envs := st1.envs[env := st1.envs[env].(values := values)]))
       case Err(error) => Run(Raised(error), st1))
    case If(condition, thenBranch, elseBranch) =>
      var c :- Eval(condition, env, st, ctx, fuel - 1);
      if Truthy(c.outcome.value) then Exec(thenBranch, env, c.state, ctx, fuel - 1)
      else if elseBranch.Some? then Exec(elseBranch.value, env, c.state, ctx, fuel - 1)
      else Run(Normal(Nil), c.state)
    case While(condition, body) =>
      var c :- Eval(condition, env, st, ctx, fuel - 1);
      if !Truthy(c.outcome.value) then Run(Normal(Nil), c.state)
      else
        var b :- Exec(body, env, c.state, ctx, fuel - 1);
        Exec(s, env, b.state, ctx, fuel - 1)
  }

  /** `statements.each { execute }`, stopping at the first statement that
      does not complete normally. */
  function ExecSeq(statements: seq<Stmt>, env: nat, st: State, ctx: Context, fuel: nat): (r: Run)
    requires env < |st.envs|
    ensures Grows(st, r.state)
    ensures r.outcome.Normal? ==> r.outcome.value == Nil
    decreases fuel, |statements|
  {
    if statements == [] then Run(Normal(Nil), st)
    else
      var first :- Exec(statements[0], env, st, ctx, fuel);
      ExecSeq(statements[1..], env, first.state, ctx, fuel)
  }

  // ---------------------------------------------------------------------
  // Properties.

  /** When an operator raises, and with which message: `+` unless both
      operands are numbers or both are strings, a comparison or other
      arithmetic operator unless both are numbers, and never `==` or `!=`. */
  lemma BinaryRaises(operator: T.Token, left: Value, right: Value)
    ensures BinaryOp(operator, left, right).Raised? <==>
      (operator.kind == T.Plus && !(left.Num? && right.Num?) && !(left.Str? && right.Str?))
      || (NumericOperator(operator.kind) && !(left.Num? && right.Num?))
    ensures operator.kind == T.Plus && BinaryOp(operator, left, right).Raised? ==>
      BinaryOp(operator, left, right).error == LoxError(operator, "Operands must be two numbers or two strings.")
    ensures NumericOperator(operator.kind) && BinaryOp(operator, left, right).Raised? ==>
      BinaryOp(operator, left, right).error == NumberOperandsError(operator)
  {
  }

  /** Prefix operators applied twice: `!!e` is the truthiness of `e`'s
      value for every value, `- -e` is `e`'s value when that is a number,
      and otherwise the inner `-` raises "Operand must be a number.". The
      operand is evaluated once, and nothing else changes the state. */
  lemma UnaryRules(outer: T.Token, inner: T.Token, e: Expr, env: nat, st: State, ctx: Context, fuel: nat)
    requires env < |st.envs| && fuel > 1 && outer.kind == inner.kind
    ensures var operand := Eval(e, env, st, ctx, fuel - 2);
      var r := Eval(Unary(outer, Unary(inner, e)), env, st, ctx, fuel);
      operand.outcome.Normal? ==>
        && r.state == operand.state
        && (outer.kind == T.Bang ==> r.outcome == Normal(Bool(Truthy(operand.outcome.value))))
        && (outer.kind == T.Minus && operand.outcome.value.Num? ==> r.outcome == operand.outcome)
        && (outer.kind == T.Minus && !operand.outcome.value.Num? ==> r.outcome == Raised(NumberOperandError(inner)))
  {
    var operand := Eval(e, env, st, ctx, fuel - 2);
    if operand.outcome.Normal? {
      var once := Eval(Unary(inner, e), env, st, ctx, fuel - 1);
      assert once == Run(UnaryOp(inner, operand.outcome.value), operand.state);
      if outer.kind == T.Minus && operand.outcome.value.Num? {
        assert -(-operand.outcome.value.n) == operand.outcome.value.n;
      }
    }
  }

  /** A prefix operator applied once: `!e` is the negation of the
      truthiness of `e`'s value, `-e` the negated number, or when the
      value is not a number the error "Operand must be a number." at the
      operator. The state is the one the operand left, and an operand that
      does not evaluate normally ends the expression with its own run. */
  lemma UnaryOperators(operator: T.Token, e: Expr, env: nat, st: State, ctx: Context, fuel: nat)
    requires env < |st.envs| && fuel > 0
    ensures var operand := Eval(e, env, st, ctx, fuel - 1);
      var r := Eval(Unary(operator, e), env, st, ctx, fuel);
      && (!operand.outcome.Normal? ==> r == operand)
      && (operand.outcome.Normal? ==>
            && r.state == operand.state
            && (operator.kind == T.Bang ==> r.outcome == Normal(Bool(!Truthy(operand.outcome.value))))
            && (operator.kind == T.Minus && operand.outcome.value.Num? ==> r.outcome == Normal(Num(-operand.outcome.value.n)))
            && (operator.kind == T.Minus && !operand.outcome.value.Num? ==> r.outcome == Raised(NumberOperandError(operator))))
  {
    UnaryStep(operator, e, env, st, ctx, fuel);
  }

  /** One step of `visit_unary_expr`: the operand's run when it does not
      evaluate normally, otherwise the operator applied to its value. */
  lemma UnaryStep(operator: T.Token, e: Expr, env: nat, st: State, ctx: Context, fuel: nat)
    requires env < |st.envs| && fuel > 0
    ensures var operand := Eval(e, env, st, ctx, fuel - 1);
      Eval(Unary(operator, e), env, st, ctx, fuel)
        == if operand.outcome.Normal? then Run(UnaryOp(operator, operand.outcome.value), operand.state) else operand
  {
  }
  /** A binary expression evaluates its left operand, then its right one
      from the state the left one left, and applies the operator to the two
      values; an operand that does not evaluate normally ends the
      expression with its own run, and the right one is then not run. */
  lemma BinaryEvaluatesLeftThenRight(left: Expr, operator: T.Token, right: Expr, env: nat, st: State, ctx: Context, fuel: nat)
    requires env < |st.envs| && fuel > 0
    ensures var l := Eval(left, env, st, ctx, fuel - 1);
      var r := Eval(Binary(left, operator, right), env, st, ctx, fuel);
      && (!l.outcome.Normal? ==> r == l)
      && (l.outcome.Normal? ==>
            var o := Eval(right, env, l.state, ctx, fuel - 1);
            && (!o.outcome.Normal? ==> r == o)
            && (o.outcome.Normal? ==> r == Run(BinaryOp(operator, l.outcome.value, o.outcome.value), o.state)))
  {
  }



  /** `or` with a truthy left operand, and `and` with a falsy one, give the
      same run whatever the right operand is: it is never evaluated. So
      does a left operand that does not evaluate normally. */
  lemma LogicalIgnoresRight(left: Expr, operator: T.Token, right: Expr, other: Expr, env: nat, st: State, ctx: Context, fuel: nat)
    requires env < |st.envs| && fuel > 0
    ensures var l := Eval(left, env, st, ctx, fuel - 1);
      (!l.outcome.Normal? || (operator.kind == T.Or <==> Truthy(l.outcome.value))) ==>
        Eval(Logical(left, operator, right), env, st, ctx, fuel) == Eval(Logical(left, operator, other), env, st, ctx, fuel)
  {
  }

  /** The value of `or` is truthy exactly when one operand is, and that of
      `and` exactly when both are, the right operand being evaluated in the
      state the left one leaves. */
  lemma LogicalTruthiness(left: Expr, operator: T.Token, right: Expr, env: nat, st: State, ctx: Context, fuel: nat)
    requires env < |st.envs| && fuel > 0
    ensures var l := Eval(left, env, st, ctx, fuel - 1);
      var o := Eval(right, env, l.state, ctx, fuel - 1);
      var r := Eval(Logical(left, operator, right), env, st, ctx, fuel);
      r.outcome.Normal? ==>
        && l.outcome.Normal?
        && (operator.kind == T.Or ==>
              (Truthy(r.outcome.value) <==> Truthy(l.outcome.value) || (o.outcome.Normal? && Truthy(o.outcome.value))))
        && (operator.kind != T.Or ==>
              (Truthy(r.outcome.value) <==> Truthy(l.outcome.value) && o.outcome.Normal? && Truthy(o.outcome.value)))
  {
  }

  /** An assignment that completes evaluates to the value assigned. */
  lemma AssignYieldsValue(id: NodeId, name: T.Token, value: Expr, env: nat, st: State, ctx: Context, fuel: nat)
    requires env < |st.envs| && fuel > 0
    ensures var v := Eval(value, env, st, ctx, fuel - 1);
      var r := Eval(Assign(id, name, value), env, st, ctx, fuel);
      r.outcome.Normal? ==> v.outcome.Normal? && r.outcome.value == v.outcome.value
  {
  }

  /** Reading a variable right after assigning it yields the value
      assigned, when the read's node was placed at the same distance as the
      assignment's, or both were left to globals. */
  lemma AssignThenRead(id: NodeId, name: T.Token, value: Expr, readId: NodeId, readName: T.Token, env: nat, st: State, ctx: Context, fuel: nat, readFuel: nat)
    requires env < |st.envs| && readFuel > 0 && readName.lexeme == name.lexeme
    requires (id in ctx.locals && readId in ctx.locals && ctx.locals[readId] == ctx.locals[id])
      || (id !in ctx.locals && readId !in ctx.locals)
    ensures var r := Eval(Assign(id, name, value), env, st, ctx, fuel);
      r.outcome.Normal? ==> Eval(Variable(readId, readName), env, r.state, ctx, readFuel) == r
  {
    var r := Eval(Assign(id, name, value), env, st, ctx, fuel);
    if r.outcome.Normal? {
      var v := Eval(value, env, st, ctx, fuel - 1);
      assert r == AssignVariable(name, id, v.outcome.value, env, v.state, ctx);
      AssignedReadsBack(name, id, v.outcome.value, readId, readName, env, v.state, ctx);
    }
  }

  /** The store-level half of `AssignThenRead`: the frame an assignment
      writes is the frame a read at the same distance looks in. */
  lemma AssignedReadsBack(name: T.Token, id: NodeId, value: Value, readId: NodeId, readName: T.Token, env: nat, st: State, ctx: Context)
    requires env < |st.envs| && readName.lexeme == name.lexeme
    requires (id in ctx.locals && readId in ctx.locals && ctx.locals[readId] == ctx.locals[id])
      || (id !in ctx.locals && readId !in ctx.locals)
    ensures var r := AssignVariable(name, id, value, env, st, ctx);
      r.outcome.Normal? ==> LookUpVariable(readName, readId, env, r.state, ctx) == Normal(value)
  {
    var r := AssignVariable(name, id, value, env, st, ctx);
    if r.outcome.Normal? && id in ctx.locals {
      SameLinksSameAncestors(st.envs, r.state.envs, env, ctx.locals[id]);
    }
  }

  /** `var x = v;` and then `x`, read through a node placed at distance 0
      (or, in globals, through one left unplaced), yields v; a declaration
      without an initializer binds nil. */
  lemma DeclareThenRead(name: T.Token, initializer: Option<Expr>, readId: NodeId, readName: T.Token, env: nat, st: State, ctx: Context, fuel: nat, readFuel: nat)
    requires env < |st.envs| && fuel > 0 && readFuel > 0 && readName.lexeme == name.lexeme
    requires (readId in ctx.locals && ctx.locals[readId] == 0) || (readId !in ctx.locals && env == Globals)
    ensures var r := Exec(Var(name, initializer), env, st, ctx, fuel);
      initializer.None? ==> r.outcome.Normal? && Eval(Variable(readId, readName), env, r.state, ctx, readFuel).outcome == Normal(Nil)
    ensures var r := Exec(Var(name, initializer), env, st, ctx, fuel);
      var v := if initializer.Some? then Eval(initializer.value, env, st, ctx, fuel - 1) else Run(Normal(Nil), st);
      initializer.Some? && v.outcome.Normal? ==>
        r.outcome.Normal? && Eval(Variable(readId, readName), env, r.state, ctx, readFuel).outcome == v.outcome
  {
  }
  /** `this` is looked up exactly as a variable named by the keyword and
      resolved for the same node would be, and changes nothing. */
  lemma ThisIsVariableLookup(id: NodeId, keyword: T.Token, env: nat, st: State, ctx: Context, fuel: nat)
    requires env < |st.envs|
    ensures Eval(This(id, keyword), env, st, ctx, fuel) == Eval(Variable(id, keyword), env, st, ctx, fuel)
    ensures fuel > 0 ==> Eval(This(id, keyword), env, st, ctx, fuel).state == st
  {
  }


  /** The walk follows parent links only: stores with the same links give
      the same walk, whatever their frames bind. */
  lemma {:induction false} SameLinksSameAncestors(envs: seq<Env>, other: seq<Env>, env: nat, distance: nat)
    requires |envs| == |other| && forall i :: 0 <= i < |envs| ==> envs[i].enclosing == other[i].enclosing
    ensures AncestorIndex(envs, env, distance) == AncestorIndex(other, env, distance)
    decreases distance
  {
    if env < |envs| && distance > 0 && envs[env].enclosing.Some? {
      SameLinksSameAncestors(envs, other, envs[env].enclosing.value, distance - 1);
    }
  }

  /** Walking `a + b` links is walking `a` links and then `b` more. */
  lemma {:induction false} AncestorIndexAdds(envs: seq<Env>, env: nat, a: nat, b: nat)
    ensures AncestorIndex(envs, env, a + b) ==
      match AncestorIndex(envs, env, a)
      case None => None
      case Some(middle) => AncestorIndex(envs, middle, b)
    decreases a
  {
    if env < |envs| && a > 0 && envs[env].enclosing.Some? {
      AncestorIndexAdds(envs, envs[env].enclosing.value, a - 1, b);
    }
  }

  /** A declaration with no initializer or a literal one. */
  predicate PlainDeclaration(s: Stmt)
  {
    s.Var? && (s.initializer.None? || s.initializer.value.Literal?)
  }

  function DeclaredNames(statements: seq<Stmt>): set<string>
    requires forall i :: 0 <= i < |statements| ==> PlainDeclaration(statements[i])
  {
    if statements == [] then {}
    else
      var first := statements[0];
      assert PlainDeclaration(first);
      {first.name.lexeme} + DeclaredNames(statements[1..])
  }

  /** Plain declarations run in a frame bind their names in that frame and
      leave every other frame exactly as it was. */
  lemma {:induction false} DeclarationsStayInTheirFrame(statements: seq<Stmt>, env: nat, st: State, ctx: Context, fuel: nat)
    requires env < |st.envs| && forall i :: 0 <= i < |statements| ==> PlainDeclaration(statements[i])
    ensures var r := ExecSeq(statements, env, st, ctx, fuel);
      && |r.state.envs| == |st.envs|
      && (forall i :: 0 <= i < |st.envs| && i != env ==> r.state.envs[i] == st.envs[i])
      && (fuel > 1 ==> r.outcome.Normal? && r.state.envs[env].values.Keys == st.envs[env].values.Keys + DeclaredNames(statements))
    decreases |statements|
  {
    if statements != [] {
      var s := statements[0];
      var first := Exec(s, env, st, ctx, fuel);
      var value := if s.initializer.None? then Nil else LiteralValue(s.initializer.value.lit);
      if fuel == 0 || (fuel == 1 && s.initializer.Some?) {
        assert first.state == st && !first.outcome.Normal?;
      } else {
        assert s.initializer.Some? ==> Eval(s.initializer.value, env, st, ctx, fuel - 1) == Run(Normal(value), st);
        assert first == Run(Normal(Nil), DefineIn(st, env, s.name.lexeme, value));
        DeclarationsStayInTheirFrame(statements[1..], env, first.state, ctx, fuel);
      }
    }
  }

  /** A block's plain declarations go into the block's own fresh frame:
      every frame that existed before the block is left as it was. */
  lemma BlockDeclarationsAreLocal(statements: seq<Stmt>, env: nat, st: State, ctx: Context, fuel: nat)
    requires env < |st.envs| && fuel > 0
    requires forall i :: 0 <= i < |statements| ==> PlainDeclaration(statements[i])
    ensures var r := Exec(Block(statements), env, st, ctx, fuel);
      |st.envs| < |r.state.envs| && forall i :: 0 <= i < |st.envs| ==> r.state.envs[i] == st.envs[i]
  {
    var inner := st.(envs := st.envs + [Env(map[], Some(env))]);
    DeclarationsStayInTheirFrame(statements, |st.envs|, inner, ctx, fuel - 1);
  }
  /** A block runs its statements, in order, in a new empty frame added at
      the end of the store, whose parent is the current frame; its outcome
      and state are those of the statement list. */
  lemma BlockRunsInNewFrame(statements: seq<Stmt>, env: nat, st: State, ctx: Context, fuel: nat)
    requires env < |st.envs| && fuel > 0
    ensures var inner := st.(envs := st.envs + [Env(map[], Some(env))]);
      && inner.envs[|st.envs|] == Env(map[], Some(env))
      && Exec(Block(statements), env, st, ctx, fuel) == ExecSeq(statements, |st.envs|, inner, ctx, fuel - 1)
  {
  }


  /** Evaluating two argument lists one after the other: the second starts
      from the state the first leaves, and only when the first completes;
      the values are the first list's followed by the second's. */
  lemma {:induction false} EvalArgsAppend(first: seq<Expr>, second: seq<Expr>, env: nat, st: State, ctx: Context, fuel: nat)
    requires env < |st.envs|
    ensures var a := EvalArgs(first, env, st, ctx, fuel);
      EvalArgs(first + second, env, st, ctx, fuel) ==
        if a.outcome.Normal? then
          var b := EvalArgs(second, env, a.state, ctx, fuel);
          Evaluated(b.outcome, a.values + b.values, b.state)
        else a
    decreases |first|
  {
    if first == [] {
      assert first + second == second;
    } else {
      assert (first + second)[0] == first[0];
      assert (first + second)[1..] == first[1..] + second;
      var h := Eval(first[0], env, st, ctx, fuel);
      if h.outcome.Normal? {
        EvalArgsAppend(first[1..], second, env, h.state, ctx, fuel);
        var rest := EvalArgs(first[1..], env, h.state, ctx, fuel);
        if rest.outcome.Normal? {
          var b := EvalArgs(second, env, rest.state, ctx, fuel);
          assert [h.outcome.value] + (rest.values + b.values) == [h.outcome.value] + rest.values + b.values;
        }
      }
    }
  }

  /** Arguments are evaluated left to right: argument i runs in the state
      the arguments before it leave, and its value is the i-th value. */
  lemma EvalArgsInOrder(arguments: seq<Expr>, i: nat, env: nat, st: State, ctx: Context, fuel: nat)
    requires env < |st.envs| && i < |arguments|
    ensures var r := EvalArgs(arguments, env, st, ctx, fuel);
      var before := EvalArgs(arguments[..i], env, st, ctx, fuel);
      var o := Eval(arguments[i], env, before.state, ctx, fuel);
      r.outcome.Normal? ==>
        before.outcome.Normal? && before.values == r.values[..i]
        && o.outcome.Normal? && r.values[i] == o.outcome.value
  {
    assert arguments[..i] + arguments[i..] == arguments;
    EvalArgsAppend(arguments[..i], arguments[i..], env, st, ctx, fuel);
    assert arguments[i..][0] == arguments[i];
  }

  /** A call evaluates its callee and then its arguments exactly as the
      list `[callee] + arguments` is evaluated; then a callee that is not
      callable, or an argument count that does not match, raises with
      nothing more run, and otherwise the callee is called with the values. */
  lemma CallEvaluatesCalleeThenArguments(callee: Expr, paren: T.Token, arguments: seq<Expr>, env: nat, st: State, ctx: Context, fuel: nat)
    requires env < |st.envs| && fuel > 0
    ensures var all := EvalArgs([callee] + arguments, env, st, ctx, fuel - 1);
      var r := Eval(Call(callee, paren, arguments), env, st, ctx, fuel);
      && (!all.outcome.Normal? ==> r == Run(all.outcome, all.state))
      && (all.outcome.Normal? && !Callable(all.values[0]) ==>
            r == Run(Raised(LoxError(paren, "Can only call functions and classes.")), all.state))
      && (all.outcome.Normal? && Callable(all.values[0]) && |arguments| != Arity(all.values[0]) ==>
            r == Run(Raised(LoxError(paren, ArityMessage(Arity(all.values[0]), |arguments|))), all.state))
      && (all.outcome.Normal? && Callable(all.values[0]) && |arguments| == Arity(all.values[0]) ==>
            r == CallValue(all.values[0], all.values[1..], all.state, ctx, fuel - 1))
  {
    assert ([callee] + arguments)[0] == callee;
    assert ([callee] + arguments)[1..] == arguments;
  }

  /** A field write evaluates to the value written, and a later read of the
      same field on the same instance yields it. */
  lemma SetThenGetField(obj: Expr, name: T.Token, value: Expr, env: nat, st: State, ctx: Context, fuel: nat)
    requires env < |st.envs| && fuel > 0
    ensures var r := Eval(Set(obj, name, value), env, st, ctx, fuel);
      var o := Eval(obj, env, st, ctx, fuel - 1);
      r.outcome.Normal? ==>
        o.outcome.Normal? && o.outcome.value.Inst?
        && GetField(FieldsOf(r.state, o.outcome.value.id), name) == Ok(r.outcome.value)
  {
    var o := Eval(obj, env, st, ctx, fuel - 1);
    if o.outcome.Normal? && o.outcome.value.Inst? {
      var id := o.outcome.value.id;
      var v := Eval(value, env, o.state, ctx, fuel - 1);
      if v.outcome.Normal? {
        var fields := SetField(FieldsOf(v.state, id), name, v.outcome.value);
        assert Eval(Set(obj, name, value), env, st, ctx, fuel)
          == Run(Normal(v.outcome.value), v.state.(heap := v.state.heap[id := fields]));
        SetThenGet(FieldsOf(v.state, id), name, name, v.outcome.value);
      }
    }
  }

  /** A field write leaves every other field of the instance as the
      evaluation of the value left it. */
  lemma SetKeepsOtherFields(obj: Expr, name: T.Token, other: T.Token, value: Expr, env: nat, st: State, ctx: Context, fuel: nat)
    requires env < |st.envs| && fuel > 0 && other.lexeme != name.lexeme
    ensures var r := Eval(Set(obj, name, value), env, st, ctx, fuel);
      var o := Eval(obj, env, st, ctx, fuel - 1);
      var v := Eval(value, env, o.state, ctx, fuel - 1);
      r.outcome.Normal? ==>
        o.outcome.Normal? && o.outcome.value.Inst?
        && GetField(FieldsOf(r.state, o.outcome.value.id), other) == GetField(FieldsOf(v.state, o.outcome.value.id), other)
  {
    var o := Eval(obj, env, st, ctx, fuel - 1);
    if o.outcome.Normal? && o.outcome.value.Inst? {
      var id := o.outcome.value.id;
      var v := Eval(value, env, o.state, ctx, fuel - 1);
      if v.outcome.Normal? {
        var fields := SetField(FieldsOf(v.state, id), name, v.outcome.value);
        assert Eval(Set(obj, name, value), env, st, ctx, fuel)
          == Run(Normal(v.outcome.value), v.state.(heap := v.state.heap[id := fields]));
        SetThenGet(FieldsOf(v.state, id), name, other, v.outcome.value);
      }
    }
  }
  /** A property read on a value that is not an instance raises "Only
      instances have properties." at the property name, in the state the
      object expression left. */
  lemma NonInstanceGetRaises(obj: Expr, name: T.Token, env: nat, st: State, ctx: Context, fuel: nat)
    requires env < |st.envs| && fuel > 0
    ensures var o := Eval(obj, env, st, ctx, fuel - 1);
      o.outcome.Normal? && !o.outcome.value.Inst? ==>
        Eval(Get(obj, name), env, st, ctx, fuel) == Run(Raised(LoxError(name, "Only instances have properties.")), o.state)
  {
  }

  /** A property read on an instance yields the field of that name, or
      raises the error the field lookup gives, and changes nothing the
      object expression did not. */
  lemma GetReadsField(obj: Expr, name: T.Token, env: nat, st: State, ctx: Context, fuel: nat)
    requires env < |st.envs| && fuel > 0
    ensures var o := Eval(obj, env, st, ctx, fuel - 1);
      var r := Eval(Get(obj, name), env, st, ctx, fuel);
      o.outcome.Normal? && o.outcome.value.Inst? ==>
        && r.state == o.state
        && (GetField(FieldsOf(o.state, o.outcome.value.id), name).Ok? ==>
              r.outcome == Normal(GetField(FieldsOf(o.state, o.outcome.value.id), name).value))
        && (GetField(FieldsOf(o.state, o.outcome.value.id), name).Err? ==>
              r.outcome == Raised(GetField(FieldsOf(o.state, o.outcome.value.id), name).error))
  {
  }

  /** A field write on a value that is not an instance raises "Only
      instances have fields." at the field name before the value is
      evaluated: the run is the same whatever the value expression is. */
  lemma NonInstanceSetIgnoresValue(obj: Expr, name: T.Token, value: Expr, other: Expr, env: nat, st: State, ctx: Context, fuel: nat)
    requires env < |st.envs| && fuel > 0
    ensures var o := Eval(obj, env, st, ctx, fuel - 1);
      o.outcome.Normal? && !o.outcome.value.Inst? ==>
        && Eval(Set(obj, name, value), env, st, ctx, fuel) == Eval(Set(obj, name, other), env, st, ctx, fuel)
        && Eval(Set(obj, name, value), env, st, ctx, fuel) == Run(Raised(LoxError(name, "Only instances have fields.")), o.state)
  {
  }


  /** Class#call returns a new instance of that class, numbered by the
      object counter, which moves past it, with no fields; every other
      object is left as it was. */
  lemma ClassCallMakesFreshInstance(klass: LoxClass, st: State, ctx: Context, fuel: nat)
    ensures var r := CallValue(Cls(klass), [], st, ctx, fuel);
      r.outcome.Normal? && r.outcome.value.Inst? && r.outcome.value.klass == klass
      && r.outcome.value.id == st.nextId < r.state.nextId
      && FieldsOf(r.state, r.outcome.value.id) == map[]
      && (forall k | k in st.heap && k != st.nextId :: k in r.state.heap && r.state.heap[k] == st.heap[k])
  {
  }

  /** No two class calls hand out the same instance: whatever runs between
      them, the counter only grows, so a later call's instance differs
      from an earlier one's. */
  lemma LaterInstancesDiffer(first: LoxClass, second: LoxClass, st: State, later: State, ctx: Context, fuel: nat)
    requires Grows(CallValue(Cls(first), [], st, ctx, fuel).state, later)
    ensures CallValue(Cls(second), [], later, ctx, fuel).outcome.value.id
         != CallValue(Cls(first), [], st, ctx, fuel).outcome.value.id
  {
    ClassCallMakesFreshInstance(first, st, ctx, fuel);
    ClassCallMakesFreshInstance(second, later, ctx, fuel);
  }

  /** A `return` signal never escapes an expression: a call turns its
      body's signal into the call's value. */
  lemma {:induction false} EvalNeverThrows(e: Expr, env: nat, st: State, ctx: Context, fuel: nat)
    requires env < |st.envs|
    ensures !Eval(e, env, st, ctx, fuel).outcome.Thrown?
    decreases fuel, 1
  {
    if fuel > 0 {
      match e
      case Grouping(inner) => EvalNeverThrows(inner, env, st, ctx, fuel - 1);
      case Unary(_, right) => EvalNeverThrows(right, env, st, ctx, fuel - 1);
      case Assign(_, _, value) => EvalNeverThrows(value, env, st, ctx, fuel - 1);
      case Get(obj, _) => EvalNeverThrows(obj, env, st, ctx, fuel - 1);
      case Binary(left, operator, right) => BinaryNeverThrows(left, operator, right, env, st, ctx, fuel);
      case Logical(left, operator, right) => LogicalNeverThrows(left, operator, right, env, st, ctx, fuel);
      case Set(obj, name, value) => SetNeverThrows(obj, name, value, env, st, ctx, fuel);
      case Call(callee, paren, arguments) => CallNeverThrows(callee, paren, arguments, env, st, ctx, fuel);
      case _ =>
    }
  }

  lemma {:induction false} BinaryNeverThrows(left: Expr, operator: T.Token, right: Expr, env: nat, st: State, ctx: Context, fuel: nat)
    requires env < |st.envs| && fuel > 0
    ensures !Eval(Binary(left, operator, right), env, st, ctx, fuel).outcome.Thrown?
    decreases fuel, 0
  {
    EvalNeverThrows(left, env, st, ctx, fuel - 1);
    var l := Eval(left, env, st, ctx, fuel - 1);
    if l.outcome.Normal? {
      EvalNeverThrows(right, env, l.state, ctx, fuel - 1);
      var o := Eval(right, env, l.state, ctx, fuel - 1);
      if o.outcome.Normal? {
        OperatorsNeverThrow(operator, l.outcome.value, o.outcome.value);
      }
    }
  }

  /** Operators yield a value or an error, never a `return` signal. */
  lemma OperatorsNeverThrow(operator: T.Token, left: Value, right: Value)
    ensures !BinaryOp(operator, left, right).Thrown? && !UnaryOp(operator, right).Thrown?
  {
  }

  lemma {:induction false} LogicalNeverThrows(left: Expr, operator: T.Token, right: Expr, env: nat, st: State, ctx: Context, fuel: nat)
    requires env < |st.envs| && fuel > 0
    ensures !Eval(Logical(left, operator, right), env, st, ctx, fuel).outcome.Thrown?
    decreases fuel, 0
  {
    EvalNeverThrows(left, env, st, ctx, fuel - 1);
    var l := Eval(left, env, st, ctx, fuel - 1);
    if l.outcome.Normal? {
      EvalNeverThrows(right, env, l.state, ctx, fuel - 1);
    }
  }

  lemma {:induction false} SetNeverThrows(obj: Expr, name: T.Token, value: Expr, env: nat, st: State, ctx: Context, fuel: nat)
    requires env < |st.envs| && fuel > 0
    ensures !Eval(Set(obj, name, value), env, st, ctx, fuel).outcome.Thrown?
    decreases fuel, 0
  {
    EvalNeverThrows(obj, env, st, ctx, fuel - 1);
    var o := Eval(obj, env, st, ctx, fuel - 1);
    if o.outcome.Normal? {
      EvalNeverThrows(value, env, o.state, ctx, fuel - 1);
    }
  }

  lemma {:induction false} CallNeverThrows(callee: Expr, paren: T.Token, arguments: seq<Expr>, env: nat, st: State, ctx: Context, fuel: nat)
    requires env < |st.envs| && fuel > 0
    ensures !Eval(Call(callee, paren, arguments), env, st, ctx, fuel).outcome.Thrown?
    decreases fuel, 0
  {
    EvalNeverThrows(callee, env, st, ctx, fuel - 1);
    var c := Eval(callee, env, st, ctx, fuel - 1);
    if c.outcome.Normal? {
      EvalArgsNeverThrow(arguments, env, c.state, ctx, fuel - 1);
    }
  }

  lemma {:induction false} EvalArgsNeverThrow(arguments: seq<Expr>, env: nat, st: State, ctx: Context, fuel: nat)
    requires env < |st.envs|
    ensures !EvalArgs(arguments, env, st, ctx, fuel).outcome.Thrown?
    decreases fuel, |arguments| + 1
  {
    if arguments != [] {
      EvalNeverThrows(arguments[0], env, st, ctx, fuel);
      var first := Eval(arguments[0], env, st, ctx, fuel);
      if first.outcome.Normal? {
        EvalArgsNeverThrow(arguments[1..], env, first.state, ctx, fuel);
      }
    }
  }

  /** A statement with no `return` in it, outside the bodies of the
      functions it declares. */
  predicate NoReturn(s: Stmt)
  {
    match s
    case Return(_, _) => false
    case Block(statements) => forall i | 0 <= i < |statements| :: NoReturn(statements[i])
    case If(_, thenBranch, elseBranch) => NoReturn(thenBranch) && (elseBranch.None? || NoReturn(elseBranch.value))
    case While(_, body) => NoReturn(body)
    case _ => true
  }

  /** Statements without a `return` never end with a `return` signal. */
  lemma {:induction false} NoReturnNeverThrows(s: Stmt, env: nat, st: State, ctx: Context, fuel: nat)
    requires env < |st.envs| && NoReturn(s)
    ensures !Exec(s, env, st, ctx, fuel).outcome.Thrown?
    decreases fuel, 0
  {
    if fuel > 0 {
      match s
      case Expression(e) => EvalNeverThrows(e, env, st, ctx, fuel - 1);
      case Function(_) =>
      case Print(e) => EvalNeverThrows(e, env, st, ctx, fuel - 1);
      case Var(_, initializer) =>
        if initializer.Some? {
          EvalNeverThrows(initializer.value, env, st, ctx, fuel - 1);
        }
      case Block(statements) =>
        var inner := st.(envs := st.envs + [Env(map[], Some(env))]);
        NoReturnSeqNeverThrows(statements, |st.envs|, inner, ctx, fuel - 1);
      case Class(_, _) =>
      case If(condition, thenBranch, elseBranch) =>
        EvalNeverThrows(condition, env, st, ctx, fuel - 1);
        var c := Eval(condition, env, st, ctx, fuel - 1);
        if c.outcome.Normal? {
          NoReturnNeverThrows(thenBranch, env, c.state, ctx, fuel - 1);
          if elseBranch.Some? {
            NoReturnNeverThrows(elseBranch.value, env, c.state, ctx, fuel - 1);
          }
        }
      case While(condition, body) =>
        EvalNeverThrows(condition, env, st, ctx, fuel - 1);
        var c := Eval(condition, env, st, ctx, fuel - 1);
        if c.outcome.Normal? && Truthy(c.outcome.value) {
          NoReturnNeverThrows(body, env, c.state, ctx, fuel - 1);
          var b := Exec(body, env, c.state, ctx, fuel - 1);
          if b.outcome.Normal? {
            NoReturnNeverThrows(s, env, b.state, ctx, fuel - 1);
          }
        }
    }
  }

  lemma {:induction false} NoReturnSeqNeverThrows(statements: seq<Stmt>, env: nat, st: State, ctx: Context, fuel: nat)
    requires env < |st.envs| && forall i | 0 <= i < |statements| :: NoReturn(statements[i])
    ensures !ExecSeq(statements, env, st, ctx, fuel).outcome.Thrown?
    decreases fuel, |statements|
  {
    if statements != [] {
      NoReturnNeverThrows(statements[0], env, st, ctx, fuel);
      var first := Exec(statements[0], env, st, ctx, fuel);
      if first.outcome.Normal? {
        NoReturnSeqNeverThrows(statements[1..], env, first.state, ctx, fuel);
      }
    }
  }

  /** `return` ends the statement with a Return signal: nil for a bare
      `return`, otherwise the value of its expression, in the state the
      expression left; an expression that does not evaluate normally ends
      the statement with its own run instead. */
  lemma ReturnStatementThrowsValue(keyword: T.Token, value: Option<Expr>, env: nat, st: State, ctx: Context, fuel: nat)
    requires env < |st.envs| && fuel > 0
    ensures var r := Exec(Return(keyword, value), env, st, ctx, fuel);
      && (value.None? ==> r == Run(Thrown(Returning(Nil)), st))
      && (value.Some? ==>
            var o := Eval(value.value, env, st, ctx, fuel - 1);
            && (o.outcome.Normal? ==> r == Run(Thrown(Returning(o.outcome.value)), o.state))
            && (!o.outcome.Normal? ==> r == o))
  {
  }

  /** Function#call catches the Return signal: a body that ends with one
      gives the value it carries, a body that completes gives nil, each in
      the state the body left, and any other outcome of the body is the
      call's own. */
  lemma CallYieldsReturnedValue(id: nat, declaration: FunctionDecl, arguments: seq<Value>, st: State, ctx: Context, fuel: nat)
    requires |arguments| == |declaration.params| && fuel > 0
    ensures var frame := Env(Bind(map[], declaration.params, arguments), Some(Globals));
      var body := ExecSeq(declaration.body, |st.envs|, st.(envs := st.envs + [frame]), ctx, fuel - 1);
      var r := CallValue(Fn(id, declaration), arguments, st, ctx, fuel);
      && (body.outcome.Thrown? ==> r == Run(Normal(body.outcome.signal.value), body.state))
      && (body.outcome.Normal? ==> r == Run(Normal(Nil), body.state))
      && (!body.outcome.Thrown? && !body.outcome.Normal? ==> r == body)
  {
  }

  /** A function whose body starts with `return` hands back the value of
      the returned expression (nil for a bare `return`, the literal's value
      for a literal), evaluated in the call's new frame; the rest of the
      body never runs, and an expression that does not evaluate normally
      is the call's outcome. */
  lemma ReturnEndsCall(id: nat, declaration: FunctionDecl, arguments: seq<Value>, st: State, ctx: Context, fuel: nat)
    requires |arguments| == |declaration.params| && fuel > 2
    requires |declaration.body| > 0 && declaration.body[0].Return?
    ensures var frame := Env(Bind(map[], declaration.params, arguments), Some(Globals));
      var inner := st.(envs := st.envs + [frame]);
      var returned := declaration.body[0].value;
      var r := CallValue(Fn(id, declaration), arguments, st, ctx, fuel);
      && (returned.None? ==> r == Run(Normal(Nil), inner))
      && (returned.Some? ==>
            var o := Eval(returned.value, |st.envs|, inner, ctx, fuel - 2);
            && (o.outcome.Normal? ==> r == Run(Normal(o.outcome.value), o.state))
            && (!o.outcome.Normal? ==> r == o))
      && (returned.Some? && returned.value.Literal? ==> r == Run(Normal(LiteralValue(returned.value.lit)), inner))
  {
    var frame := Env(Bind(map[], declaration.params, arguments), Some(Globals));
    var inner := st.(envs := st.envs + [frame]);
    var first := Exec(declaration.body[0], |st.envs|, inner, ctx, fuel - 1);
    assert ExecSeq(declaration.body, |st.envs|, inner, ctx, fuel - 1) == first;
    if declaration.body[0].value.Some? {
      EvalNeverThrows(declaration.body[0].value.value, |st.envs|, inner, ctx, fuel - 2);
    }
  }

  /** A function whose body has no `return` yields nil once the body
      completes, from the state the body leaves, and otherwise passes on
      the body's error. */
  lemma CallWithoutReturnYieldsNil(id: nat, declaration: FunctionDecl, arguments: seq<Value>, st: State, ctx: Context, fuel: nat)
    requires |arguments| == |declaration.params| && fuel > 0
    requires forall i | 0 <= i < |declaration.body| :: NoReturn(declaration.body[i])
    ensures var frame := Env(Bind(map[], declaration.params, arguments), Some(Globals));
      var body := ExecSeq(declaration.body, |st.envs|, st.(envs := st.envs + [frame]), ctx, fuel - 1);
      CallValue(Fn(id, declaration), arguments, st, ctx, fuel) == (if body.outcome.Normal? then Run(Normal(Nil), body.state) else body)
  {
    var frame := Env(Bind(map[], declaration.params, arguments), Some(Globals));
    NoReturnSeqNeverThrows(declaration.body, |st.envs|, st.(envs := st.envs + [frame]), ctx, fuel - 1);
  }

  /** Parameters are bound in the call's own frame: a function whose body
      returns its parameter i, read at distance 0, returns argument i,
      unless a later parameter has the same name. */
  lemma CallBindsParameter(id: nat, name: T.Token, params: seq<T.Token>, i: nat, keyword: T.Token, readId: NodeId,
                           arguments: seq<Value>, st: State, ctx: Context, fuel: nat)
    requires |params| == |arguments| && i < |params|
    requires forall j | i < j < |params| :: params[j].lexeme != params[i].lexeme
    requires readId in ctx.locals && ctx.locals[readId] == 0 && fuel > 3
    ensures var declaration := FunctionDecl(name, params, [Return(keyword, Some(Variable(readId, params[i])))]);
      CallValue(Fn(id, declaration), arguments, st, ctx, fuel).outcome == Normal(arguments[i])
  {
    var body := [Return(keyword, Some(Variable(readId, params[i])))];
    var frame := Env(Bind(map[], params, arguments), Some(Globals));
    BindBindsParameters(map[], params, arguments, i, params[i].lexeme);
    var inner := st.(envs := st.envs + [frame]);
    var read := Eval(Variable(readId, params[i]), |st.envs|, inner, ctx, fuel - 2);
    assert AncestorIndex(inner.envs, |st.envs|, 0) == Some(|st.envs|);
    assert read.outcome == Normal(arguments[i]);
    var first := Exec(body[0], |st.envs|, inner, ctx, fuel - 1);
    assert first.outcome == Thrown(Returning(arguments[i]));
    assert ExecSeq(body, |st.envs|, inner, ctx, fuel - 1) == first;
  }

  /** Parameter binding: a name that is no parameter keeps its binding, and
      parameter i is bound to argument i unless a later parameter has the
      same name. */
  lemma {:induction false} BindBindsParameters(frame: Frame, params: seq<T.Token>, arguments: seq<Value>, i: nat, other: string)
    requires |params| == |arguments| && i < |params|
    ensures (forall j | i < j < |params| :: params[j].lexeme != params[i].lexeme) ==>
      params[i].lexeme in Bind(frame, params, arguments)
      && Bind(frame, params, arguments)[params[i].lexeme] == arguments[i]
    ensures (forall j | 0 <= j < |params| :: params[j].lexeme != other) ==>
      (other in Bind(frame, params, arguments) <==> other in frame)
      && (other in frame ==> Bind(frame, params, arguments)[other] == frame[other])
    decreases |params|
  {
    var next := Defined(frame, params[0].lexeme, arguments[0]);
    if i == 0 {
      BindKeeps(next, params[1..], arguments[1..], params[0].lexeme);
    } else {
      BindBindsParameters(next, params[1..], arguments[1..], i - 1, other);
    }
    if |params| > 1 {
      BindKeeps(next, params[1..], arguments[1..], other);
    } 
  }

  /** Binding parameters leaves a name that no parameter has as it was. */
  lemma {:induction false} BindKeeps(frame: Frame, params: seq<T.Token>, arguments: seq<Value>, name: string)
    requires |params| == |arguments|
    ensures (forall j | 0 <= j < |params| :: params[j].lexeme != name) ==>
      (name in Bind(frame, params, arguments) <==> name in frame)
      && (name in frame ==> Bind(frame, params, arguments)[name] == frame[name])
    decreases |params|
  {
    if params != [] {
      BindKeeps(Defined(frame, params[0].lexeme, arguments[0]), params[1..], arguments[1..], name);
    }
  }

  /** Running two statement lists one after the other: the second runs only
      when the first completes, and from the state the first leaves. In
      particular nothing after a raised error runs. */
  lemma {:induction false} ExecSeqAppend(first: seq<Stmt>, second: seq<Stmt>, env: nat, st: State, ctx: Context, fuel: nat)
    requires env < |st.envs|
    ensures var r := ExecSeq(first, env, st, ctx, fuel);
      ExecSeq(first + second, env, st, ctx, fuel) ==
        if r.outcome.Normal? then ExecSeq(second, env, r.state, ctx, fuel) else r
    decreases |first|
  {
    if first == [] {
      assert first + second == second;
    } else {
      assert (first + second)[0] == first[0];
      assert (first + second)[1..] == first[1..] + second;
      var h := Exec(first[0], env, st, ctx, fuel);
      if h.outcome.Normal? {
        ExecSeqAppend(first[1..], second, env, h.state, ctx, fuel);
      }
    }
  }

  /** The statements before the first one that does not complete all ran
      normally, and that statement's outcome ends the list. */
  lemma {:induction false} ExecSeqStopsAtFirstFailure(statements: seq<Stmt>, i: nat, env: nat, st: State, ctx: Context, fuel: nat)
    requires env < |st.envs| && i < |statements|
    requires ExecSeq(statements[..i], env, st, ctx, fuel).outcome.Normal?
    ensures var before := ExecSeq(statements[..i], env, st, ctx, fuel);
      var r := Exec(statements[i], env, before.state, ctx, fuel);
      !r.outcome.Normal? ==> ExecSeq(statements, env, st, ctx, fuel) == r
  {
    var before := ExecSeq(statements[..i], env, st, ctx, fuel);
    assert statements == statements[..i] + statements[i..];
    ExecSeqAppend(statements[..i], statements[i..], env, st, ctx, fuel);
  }
  /** An expression statement evaluates its expression and discards the
      value: it completes with nil in the state the expression left. */
  lemma ExpressionDiscardsValue(e: Expr, env: nat, st: State, ctx: Context, fuel: nat)
    requires env < |st.envs| && fuel > 0
    ensures var o := Eval(e, env, st, ctx, fuel - 1);
      var r := Exec(Expression(e), env, st, ctx, fuel);
      && (o.outcome.Normal? ==> r == Run(Normal(Nil), o.state))
      && (!o.outcome.Normal? ==> r == o)
  {
  }

  /** `print` appends exactly one line, the stringified value, to the
      output, and leaves frames, objects and the counter as the expression
      left them; an expression that does not evaluate normally prints
      nothing. */
  lemma PrintAppendsOneLine(e: Expr, env: nat, st: State, ctx: Context, fuel: nat)
    requires env < |st.envs| && fuel > 0
    ensures var o := Eval(e, env, st, ctx, fuel - 1);
      var r := Exec(Stmt.Print(e), env, st, ctx, fuel);
      && (o.outcome.Normal? ==>
            && r.outcome == Normal(Nil)
            && r.state.envs == o.state.envs && r.state.heap == o.state.heap && r.state.nextId == o.state.nextId
            && r.state.output == o.state.output + [Stringify(o.outcome.value)])
      && (!o.outcome.Normal? ==> r == o)
  {
  }
  /** A function declaration binds its name, in the current frame, to a
      new function object numbered by the object counter, which moves past
      it; it prints nothing, touches no instance and no other frame. */
  lemma FunctionDeclarationBindsName(declaration: FunctionDecl, env: nat, st: State, ctx: Context, fuel: nat)
    requires env < |st.envs| && fuel > 0
    ensures var r := Exec(Function(declaration), env, st, ctx, fuel);
      && r.outcome == Normal(Nil)
      && |r.state.envs| == |st.envs|
      && r.state.envs[env].values == st.envs[env].values[declaration.name.lexeme := Fn(st.nextId, declaration)]
      && (forall i :: 0 <= i < |st.envs| && i != env ==> r.state.envs[i] == st.envs[i])
      && r.state.nextId == st.nextId + 1 && r.state.heap == st.heap && r.state.output == st.output
  {
  }

  /** A class declaration binds its name, in the current frame, to a new
      class of that name numbered by the object counter, which moves past
      it; the name is defined before it is assigned, so the assignment
      cannot fail. */
  lemma ClassDeclarationBindsName(name: T.Token, methods: seq<FunctionDecl>, env: nat, st: State, ctx: Context, fuel: nat)
    requires env < |st.envs| && fuel > 0
    ensures var r := Exec(Class(name, methods), env, st, ctx, fuel);
      && r.outcome == Normal(Nil)
      && |r.state.envs| == |st.envs|
      && r.state.envs[env].values == st.envs[env].values[name.lexeme := Cls(LoxClass(st.nextId, name.lexeme))]
      && (forall i :: 0 <= i < |st.envs| && i != env ==> r.state.envs[i] == st.envs[i])
      && r.state.nextId == st.nextId + 1 && r.state.heap == st.heap && r.state.output == st.output
  {
  }


  /** `if` runs the then-branch when the condition is truthy, otherwise
      the else-branch when there is one, otherwise nothing, each from the
      state the condition left. */
  lemma IfRunsChosenBranch(condition: Expr, thenBranch: Stmt, elseBranch: Option<Stmt>, env: nat, st: State, ctx: Context, fuel: nat)
    requires env < |st.envs| && fuel > 0
    ensures var c := Eval(condition, env, st, ctx, fuel - 1);
      var r := Exec(If(condition, thenBranch, elseBranch), env, st, ctx, fuel);
      && (!c.outcome.Normal? ==> r == c)
      && (c.outcome.Normal? && Truthy(c.outcome.value) ==> r == Exec(thenBranch, env, c.state, ctx, fuel - 1))
      && (c.outcome.Normal? && !Truthy(c.outcome.value) && elseBranch.Some? ==> r == Exec(elseBranch.value, env, c.state, ctx, fuel - 1))
      && (c.outcome.Normal? && !Truthy(c.outcome.value) && elseBranch.None? ==> r == Run(Normal(Nil), c.state))
  {
  }

  /** `while` evaluates its condition first: a falsy one ends the loop
      with nil in the state the condition left; a truthy one runs the body
      and then the whole loop again from the state the body left, unless
      the body does not complete normally, which ends the loop with the
      body's run. */
  lemma WhileUnrolls(condition: Expr, body: Stmt, env: nat, st: State, ctx: Context, fuel: nat)
    requires env < |st.envs| && fuel > 0
    ensures var c := Eval(condition, env, st, ctx, fuel - 1);
      var r := Exec(While(condition, body), env, st, ctx, fuel);
      && (!c.outcome.Normal? ==> r == c)
      && (c.outcome.Normal? && !Truthy(c.outcome.value) ==> r == Run(Normal(Nil), c.state))
      && (c.outcome.Normal? && Truthy(c.outcome.value) ==>
            var b := Exec(body, env, c.state, ctx, fuel - 1);
            && (!b.outcome.Normal? ==> r == b)
            && (b.outcome.Normal? ==> r == Exec(While(condition, body), env, b.state, ctx, fuel - 1)))
  {
  }


  lemma {:induction false} WholeValueOfDecimal(s: string)
    requires IsDecimal(s)
    ensures WholeValue(s) == DigitsValue(s)
    decreases |s|
  {
    if s != [] {
      WholeValueOfDecimal(s[..|s| - 1]);
    }
  }

  lemma {:induction false} StripZeroPadding(k: nat)
    ensures StripTrailingZeros(Padded(0, k)) == []
  {
    if k > 0 {
      StripZeroPadding(k - 1);
      assert Padded(0, k)[..k - 1] == Padded(0, k - 1);
    }
  }

  lemma NoFractionText()
    ensures FractionText(0.0) == ""
  {
    assert 0.0 * Pow10(16) as real == 0.0;
    StripZeroPadding(16);
  }

  lemma MagnitudeOfWholeNumber(n: nat)
    ensures MagnitudeText(n as real) == NatText(n)
  {
    assert (n as real).Floor == n;
    NoFractionText();
  }

  /** `stringify` drops the ".0" Float#to_s gives a whole number. */
  lemma WholeNumberText(i: int)
    ensures Stringify(Num(i as real)) == (if i < 0 then "-" + NatText(-i) else NatText(i))
  {
    assert Stringify(Num(i as real)) == NumberText(i as real);
    if i < 0 {
      var n: nat := -i;
      assert -(i as real) == n as real;
      MagnitudeOfWholeNumber(n);
      assert NumberText(i as real) == "-" + MagnitudeText(n as real);
    } else {
      MagnitudeOfWholeNumber(i);
      assert NumberText(i as real) == MagnitudeText(i as real);
    }
  }

  /** A literal without a fraction denotes its digits' value. */
  lemma NumberValueOfDigits(text: string)
    requires IsDecimal(text)
    ensures NumberValue(text) == DigitsValue(text) as real
  {
    var dot := DotIndex(text);
    assert forall j :: 0 <= j < |text| ==> text[j] != '.';
    assert text[..dot] == text;
    WholeValueOfDecimal(text);
    assert WholeValue([]) == 0;
  }

  /** An integer literal prints exactly as it was written, without the
      ".0" of Float#to_s. */
  lemma IntegerLiteralPrintsAsWritten(n: nat)
    ensures Stringify(LiteralValue(LitNumber(NatText(n)))) == NatText(n)
  {
    NatTextRoundTrip(n);
    NumberValueOfDigits(NatText(n));
    WholeNumberText(n);
  }

  // ---------------------------------------------------------------------
  // The interpreter object.

  class Interpreter {
    var state: State
    /** The environment cursor that `execute_block` moves and restores. */
    var environment: nat
    /** The resolver's side table: node id to distance. */
    var locals: map<NodeId, nat>
    const reporter: Reporter

    ghost predicate Valid()
      reads this
    {
      Globals < |state.envs| && environment < |state.envs|
    }

    /** `initialize`: globals holds `clock`, and it is the current environment. */
    constructor (reporter: Reporter)
      ensures Valid() && state == InitialState() && environment == Globals && locals == map[]
      ensures this.reporter == reporter
    {
      state := InitialState();
      environment := Globals;
      locals := map[];
      this.reporter := reporter;
    }

    /** `resolve`: records the distance of one node. */
    method Resolve(id: NodeId, depth: nat)
      modifies this`locals
      ensures locals == old(locals)[id := depth]
    {
      locals := locals[id := depth];
    }

    /** `execute_block`: runs the statements in `env` and puts the previous
        environment back on every exit. */
    method ExecuteBlock(statements: seq<Stmt>, env: nat, clock: real, fuel: nat) returns (outcome: Outcome)
      requires Valid() && env < |state.envs|
      modifies this`state, this`environment
      ensures Valid() && environment == old(environment)
      ensures Run(outcome, state) == ExecSeq(statements, env, old(state), Context(locals, clock), fuel)
    {
      var previous := environment;
      environment := env;
      ghost var goal := ExecSeq(statements, env, state, Context(locals, clock), fuel);
      outcome := Normal(Nil);
      var i := 0;
      while i < |statements|
        invariant i <= |statements| && environment == env && env < |state.envs|
        invariant Grows(old(state), state)
        invariant goal == ExecSeq(statements[i..], env, state, Context(locals, clock), fuel)
      {
        var r := Exec(statements[i], environment, state, Context(locals, clock), fuel);
        assert statements[i..][1..] == statements[i + 1..];
        state := r.state;
        if !r.outcome.Normal? {
          outcome := r.outcome;
          break;
        }
        i := i + 1;
      }
      environment := previous;
    }

    /** `interpret`: the statements in order; the first runtime error stops
        the rest and is reported once. A Return signal or a host failure is
        not a runtime error: it leaves `interpret` unreported, as `escaped`. */
    method Interpret(statements: seq<Stmt>, clock: real, fuel: nat) returns (escaped: Outcome)
      requires Valid()
      modifies this`state, reporter
      ensures Valid()
      ensures var run := ExecSeq(statements, environment, old(state), Context(locals, clock), fuel);
        && state == run.state
        && escaped == (if run.outcome.Raised? then Normal(Nil) else run.outcome)
        && reporter.log == old(reporter.log) + (if run.outcome.Raised? then [RuntimeErrorText(run.outcome.error)] else [])
        && reporter.hadRuntimeError == (old(reporter.hadRuntimeError) || run.outcome.Raised?)
        && reporter.hadError == old(reporter.hadError)
    {
      ghost var goal := ExecSeq(statements, environment, state, Context(locals, clock), fuel);
      escaped := Normal(Nil);
      var i := 0;
      while i < |statements|
        invariant i <= |statements| && Valid()
        invariant Grows(old(state), state)
        invariant goal == ExecSeq(statements[i..], environment, state, Context(locals, clock), fuel)
        invariant reporter.log == old(reporter.log) && reporter.hadRuntimeError == old(reporter.hadRuntimeError)
        invariant reporter.hadError == old(reporter.hadError)
      {
        var r := Exec(statements[i], environment, state, Context(locals, clock), fuel);
        assert statements[i..][1..] == statements[i + 1..];
        state := r.state;
        if r.outcome.Raised? {
          reporter.RuntimeError(r.outcome.error);
          return;
        }
        if !r.outcome.Normal? {
          escaped := r.outcome;
          return;
        }
        i := i + 1;
      }
    }
  }
}
