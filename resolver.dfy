// lib/rlox/resolver.rb: the static pass that walks the tree with a stack
// of scopes, each mapping a name to whether its declaration is complete,
// records for each local reference how many scopes out its binding is, in
// the interpreter's side table, and reports scope errors.
//
// `resolve` as written dispatches on undefined `stmt`/`expr` for a single
// node, and `declare` tests and writes an undefined `scope`; modelled are
// the evident intents: dispatch on the node given, and a check-then-set on
// the innermost scope.
module Resolver {
  import opened Wrappers
  import opened Tokens
  import opened Errors
  import opened Ast
  import I = Interpreter

  type Scope = map<string, bool>

  /** The scope stack after setting `name`'s flag in the innermost scope;
      unchanged at global scope. */
  function Mark(scopes: seq<Scope>, name: string, ready: bool): (r: seq<Scope>)
    ensures |r| == |scopes| && (scopes != [] ==> r[..|r| - 1] == scopes[..|scopes| - 1])
  {
    if scopes == [] then [] else scopes[..|scopes| - 1] + [scopes[|scopes| - 1][name := ready]]
  }

  /** A later mark of the same name overrides an earlier one. */
  lemma MarkOverrides(scopes: seq<Scope>, name: string, first: bool, second: bool)
    ensures Mark(Mark(scopes, name, first), name, second) == Mark(scopes, name, second)
  {
    if scopes != [] {
      var n := |scopes| - 1;
      assert Mark(scopes, name, first)[n] == scopes[n][name := first];
      assert scopes[n][name := first][name := second] == scopes[n][name := second];
    }
  }

  /** How many scopes out from the innermost one `name` is declared, if any
      scope declares it. */
  function Distance(scopes: seq<Scope>, name: string): (r: Option<nat>)
    ensures r.Some? ==> r.value < |scopes| && name in scopes[|scopes| - 1 - r.value]
    ensures r.Some? ==> forall j | |scopes| - 1 - r.value < j < |scopes| :: name !in scopes[j]
    ensures r.None? ==> forall j | 0 <= j < |scopes| :: name !in scopes[j]
  {
    if scopes == [] then None
    else if name in scopes[|scopes| - 1] then Some(0)
    else
      match Distance(scopes[..|scopes| - 1], name)
      case None => None
      case Some(d) => Some(d + 1)
  }

  /** A name just declared in a local scope resolves to that scope. */
  lemma DeclaredNameIsInnermost(scopes: seq<Scope>, name: string, ready: bool)
    requires scopes != []
    ensures Distance(Mark(scopes, name, ready), name) == Some(0)
  {
    var n := |scopes| - 1;
    assert Mark(scopes, name, ready)[n] == scopes[n][name := ready];
  }

  /** Entering a scope puts every binding one scope further out, and
      leaves global names global. */
  lemma BeginScopeShiftsDistance(scopes: seq<Scope>, name: string)
    ensures Distance(scopes + [map[]], name) ==
      match Distance(scopes, name) case None => None case Some(d) => Some(d + 1)
  {
    assert (scopes + [map[]])[..|scopes|] == scopes;
  }

  /** The report for reading a name whose declaration is still in progress
      in the innermost scope (the message keeps the source's spelling). */
  function SelfReadErrors(scopes: seq<Scope>, name: Token): seq<string>
  {
    if scopes != [] && name.lexeme in scopes[|scopes| - 1] && !scopes[|scopes| - 1][name.lexeme]
    then [ReportText(name.line, Where(AtToken(name)), "Can't read local vafiable in its own initializer.")]
    else []
  }

  /** The report for declaring a name the innermost scope already has. */
  function RedeclareErrors(scopes: seq<Scope>, name: Token): seq<string>
  {
    if scopes != [] && name.lexeme in scopes[|scopes| - 1]
    then [ReportText(name.line, Where(AtToken(name)), "Already a variable with this name in this scope")]
    else []
  }

  /** Where a reference to `name` resolves: recorded for the node when some
      scope declares it, otherwise left to globals. */
  function Recorded(locals: map<NodeId, nat>, id: NodeId, scopes: seq<Scope>, name: string): (r: map<NodeId, nat>)
    ensures locals.Keys <= r.Keys
    ensures id in r <==> id in locals || Distance(scopes, name).Some?
  {
    match Distance(scopes, name)
    case Some(d) => locals[id := d]
    case None => locals
  }

  /** The side table after resolving an expression against `scopes`:
      every variable, assignment, `this` and `super` node is recorded as
      Recorded says, in the order `resolve` visits them (an assignment's
      value before its target, a field write's value before its object). */
  function ExprLocals(locals: map<NodeId, nat>, e: Expr, scopes: seq<Scope>): (r: map<NodeId, nat>)
    ensures locals.Keys <= r.Keys
    decreases e, 0
  {
    match e
    case Assign(id, name, value) => Recorded(ExprLocals(locals, value, scopes), id, scopes, name.lexeme)
    case Variable(id, name) => Recorded(locals, id, scopes, name.lexeme)
    case Binary(left, _, right) => ExprLocals(ExprLocals(locals, left, scopes), right, scopes)
    case Call(callee, _, arguments) => ArgsLocals(ExprLocals(locals, callee, scopes), arguments, scopes)
    case Grouping(expression) => ExprLocals(locals, expression, scopes)
    case Literal(_) => locals
    case Logical(left, _, right) => ExprLocals(ExprLocals(locals, left, scopes), right, scopes)
    case Unary(_, right) => ExprLocals(locals, right, scopes)
    case Get(obj, _) => ExprLocals(locals, obj, scopes)
    case Set(obj, _, value) => ExprLocals(ExprLocals(locals, value, scopes), obj, scopes)
    case This(id, keyword) => Recorded(locals, id, scopes, keyword.lexeme)
    case Super(id, keyword, _) => Recorded(locals, id, scopes, keyword.lexeme)
  }

  /** The side table after resolving arguments left to right. */
  function ArgsLocals(locals: map<NodeId, nat>, arguments: seq<Expr>, scopes: seq<Scope>): (r: map<NodeId, nat>)
    ensures locals.Keys <= r.Keys
    decreases arguments, 1
  {
    if arguments == [] then locals
    else ExprLocals(ArgsLocals(locals, arguments[..|arguments| - 1], scopes), arguments[|arguments| - 1], scopes)
  }

  /** The ids of the nodes `resolve` may record in an expression. */
  function NodeIds(e: Expr): set<NodeId>
    decreases e, 0
  {
    match e
    case Assign(id, _, value) => {id} + NodeIds(value)
    case Variable(id, _) => {id}
    case Binary(left, _, right) => NodeIds(left) + NodeIds(right)
    case Call(callee, _, arguments) => NodeIds(callee) + ArgsNodeIds(arguments)
    case Grouping(expression) => NodeIds(expression)
    case Literal(_) => {}
    case Logical(left, _, right) => NodeIds(left) + NodeIds(right)
    case Unary(_, right) => NodeIds(right)
    case Get(obj, _) => NodeIds(obj)
    case Set(obj, _, value) => NodeIds(obj) + NodeIds(value)
    case This(id, _) => {id}
    case Super(id, _, _) => {id}
  }

  function ArgsNodeIds(arguments: seq<Expr>): set<NodeId>
    decreases arguments, 1
  {
    if arguments == [] then {}
    else ArgsNodeIds(arguments[..|arguments| - 1]) + NodeIds(arguments[|arguments| - 1])
  }

  /** Resolving an expression records its own nodes and no others: every
      entry for an id that no node of it carries is kept as it was, and
      only ids added are its nodes'. */
  lemma {:induction false} ExprLocalsKeepsOthers(locals: map<NodeId, nat>, e: Expr, scopes: seq<Scope>, id: NodeId)
    requires id !in NodeIds(e)
    ensures id in ExprLocals(locals, e, scopes) <==> id in locals
    ensures id in locals ==> ExprLocals(locals, e, scopes)[id] == locals[id]
    decreases e, 0
  {
    match e
    case Assign(_, _, value) => ExprLocalsKeepsOthers(locals, value, scopes, id);
    case Variable(_, _) =>
    case Binary(left, _, right) =>
      ExprLocalsKeepsOthers(locals, left, scopes, id);
      ExprLocalsKeepsOthers(ExprLocals(locals, left, scopes), right, scopes, id);
    case Call(callee, _, arguments) =>
      ExprLocalsKeepsOthers(locals, callee, scopes, id);
      ArgsLocalsKeepsOthers(ExprLocals(locals, callee, scopes), arguments, scopes, id);
    case Grouping(expression) => ExprLocalsKeepsOthers(locals, expression, scopes, id);
    case Literal(_) =>
    case Logical(left, _, right) =>
      ExprLocalsKeepsOthers(locals, left, scopes, id);
      ExprLocalsKeepsOthers(ExprLocals(locals, left, scopes), right, scopes, id);
    case Unary(_, right) => ExprLocalsKeepsOthers(locals, right, scopes, id);
    case Get(obj, _) => ExprLocalsKeepsOthers(locals, obj, scopes, id);
    case Set(obj, _, value) =>
      ExprLocalsKeepsOthers(locals, value, scopes, id);
      ExprLocalsKeepsOthers(ExprLocals(locals, value, scopes), obj, scopes, id);
    case This(_, _) =>
    case Super(_, _, _) =>
  }

  lemma {:induction false} ArgsLocalsKeepsOthers(locals: map<NodeId, nat>, arguments: seq<Expr>, scopes: seq<Scope>, id: NodeId)
    requires id !in ArgsNodeIds(arguments)
    ensures id in ArgsLocals(locals, arguments, scopes) <==> id in locals
    ensures id in locals ==> ArgsLocals(locals, arguments, scopes)[id] == locals[id]
    decreases arguments, 1
  {
    if arguments != [] {
      var init := arguments[..|arguments| - 1];
      ArgsLocalsKeepsOthers(locals, init, scopes, id);
      ExprLocalsKeepsOthers(ArgsLocals(locals, init, scopes), arguments[|arguments| - 1], scopes, id);
    }
  }

  /** At global scope nothing is recorded: every reference is left to
      globals. */
  lemma {:induction false} GlobalScopeRecordsNothing(locals: map<NodeId, nat>, e: Expr)
    ensures ExprLocals(locals, e, []) == locals
    decreases e, 0
  {
    match e
    case Assign(_, _, value) => GlobalScopeRecordsNothing(locals, value);
    case Variable(_, _) =>
    case Binary(left, _, right) =>
      GlobalScopeRecordsNothing(locals, left);
      GlobalScopeRecordsNothing(locals, right);
    case Call(callee, _, arguments) =>
      GlobalScopeRecordsNothing(locals, callee);
      ArgsAtGlobalScopeRecordNothing(locals, arguments);
    case Grouping(expression) => GlobalScopeRecordsNothing(locals, expression);
    case Literal(_) =>
    case Logical(left, _, right) =>
      GlobalScopeRecordsNothing(locals, left);
      GlobalScopeRecordsNothing(locals, right);
    case Unary(_, right) => GlobalScopeRecordsNothing(locals, right);
    case Get(obj, _) => GlobalScopeRecordsNothing(locals, obj);
    case Set(obj, _, value) =>
      GlobalScopeRecordsNothing(locals, value);
      GlobalScopeRecordsNothing(locals, obj);
    case This(_, _) =>
    case Super(_, _, _) =>
  }

  lemma {:induction false} ArgsAtGlobalScopeRecordNothing(locals: map<NodeId, nat>, arguments: seq<Expr>)
    ensures ArgsLocals(locals, arguments, []) == locals
    decreases arguments, 1
  {
    if arguments != [] {
      ArgsAtGlobalScopeRecordNothing(locals, arguments[..|arguments| - 1]);
      GlobalScopeRecordsNothing(locals, arguments[|arguments| - 1]);
    }
  }

  /** The innermost scope `resolve_function` makes: every parameter
      declared and defined. */
  function ParameterScope(params: seq<Token>): (r: Scope)
    ensures forall i :: 0 <= i < |params| ==> params[i].lexeme in r && r[params[i].lexeme]
    ensures forall name | name in r :: exists i :: 0 <= i < |params| && params[i].lexeme == name
  {
    var names := ParameterNames(params);
    map name | name in names :: true
  }

  function ParameterNames(params: seq<Token>): set<string>
  {
    set i | 0 <= i < |params| :: params[i].lexeme
  }

  /** One more parameter declared and defined. */
  lemma ParameterScopeGrows(params: seq<Token>, i: nat)
    requires i < |params|
    ensures ParameterScope(params[..i + 1]) == ParameterScope(params[..i])[params[i].lexeme := true]
  {
    assert ParameterNames(params[..i + 1]) == ParameterNames(params[..i]) + {params[i].lexeme} by {
      assert forall j :: 0 <= j < i ==> params[..i + 1][j] == params[..i][j];
      assert params[..i + 1][i] == params[i];
    }
  }

  /** The innermost scope is the only one a statement may change. */
  predicate OnlyInnermostChanged(before: seq<Scope>, after: seq<Scope>)
  {
    |before| == |after| && (before != [] ==> before[..|before| - 1] == after[..|after| - 1])
  }

  // ---------------------------------------------------------------------
  // The pass as functions of its state. Each method of the class below
  // leaves the state that the function of its name computes from the state
  // it starts in; what the pass promises is proved about the functions.

  /** The self-read reports resolving an expression makes, in the order the
      visitors reach the variable reads. */
  function ExprErrors(e: Expr, scopes: seq<Scope>): seq<string>
    decreases e, 0
  {
    match e
    case Assign(_, _, value) => ExprErrors(value, scopes)
    case Variable(_, name) => SelfReadErrors(scopes, name)
    case Binary(left, _, right) => ExprErrors(left, scopes) + ExprErrors(right, scopes)
    case Call(callee, _, arguments) => ExprErrors(callee, scopes) + ArgsErrors(arguments, scopes)
    case Grouping(expression) => ExprErrors(expression, scopes)
    case Literal(_) => []
    case Logical(left, _, right) => ExprErrors(left, scopes) + ExprErrors(right, scopes)
    case Unary(_, right) => ExprErrors(right, scopes)
    case Get(obj, _) => ExprErrors(obj, scopes)
    case Set(obj, _, value) => ExprErrors(value, scopes) + ExprErrors(obj, scopes)
    case This(_, _) => []
    case Super(_, _, _) => []
  }

  function ArgsErrors(arguments: seq<Expr>, scopes: seq<Scope>): seq<string>
    decreases arguments, 1
  {
    if arguments == [] then []
    else ArgsErrors(arguments[..|arguments| - 1], scopes) + ExprErrors(arguments[|arguments| - 1], scopes)
  }

  /** The resolver's state as a value: its scope stack, the interpreter's
      side table, and the reporter's static-error flag and lines. */
  datatype Resolution = Resolution(scopes: seq<Scope>, locals: map<NodeId, nat>, hadError: bool, log: seq<string>)

  /** The state after `lines` have been reported; no lines, no change. */
  function Reported(st: Resolution, lines: seq<string>): Resolution
  {
    st.(hadError := st.hadError || lines != [], log := st.log + lines)
  }

  /** What every step of the pass keeps: only the innermost scope may
      change, entries are only added to the side table, lines are only
      appended to the log, and the error flag is up exactly when it was
      before or a line was reported. */
  predicate Extends(before: Resolution, after: Resolution)
  {
    OnlyInnermostChanged(before.scopes, after.scopes)
    && before.locals.Keys <= after.locals.Keys
    && before.log <= after.log
    && after.hadError == (before.hadError || |after.log| > |before.log|)
  }

  lemma ExtendsTransitive(a: Resolution, b: Resolution, c: Resolution)
    requires Extends(a, b) && Extends(b, c)
    ensures Extends(a, c)
  {
    if a.scopes != [] {
      assert a.scopes[..|a.scopes| - 1] == b.scopes[..|b.scopes| - 1];
    }
  }

  /** Resolving an expression: the side table as ExprLocals says, and the
      self-read reports; the scopes do not change. */
  function ExprResolved(st: Resolution, e: Expr): (r: Resolution)
    ensures r.scopes == st.scopes
  {
    var lines := ExprErrors(e, st.scopes);
    Resolution(st.scopes, ExprLocals(st.locals, e, st.scopes), st.hadError || lines != [], st.log + lines)
  }

  /** Resolving call arguments, left to right. */
  function ArgsResolved(st: Resolution, arguments: seq<Expr>): (r: Resolution)
    ensures r.scopes == st.scopes
  {
    var lines := ArgsErrors(arguments, st.scopes);
    Resolution(st.scopes, ArgsLocals(st.locals, arguments, st.scopes), st.hadError || lines != [], st.log + lines)
  }

  /** Resolving two parts in turn is resolving them against the same
      scopes, the second's records and reports after the first's. */
  lemma ResolvedInTurn(st: Resolution, first: Expr, second: Expr)
    ensures var lines := ExprErrors(first, st.scopes) + ExprErrors(second, st.scopes);
      ExprResolved(ExprResolved(st, first), second)
      == Resolution(st.scopes, ExprLocals(ExprLocals(st.locals, first, st.scopes), second, st.scopes),
                    st.hadError || lines != [], st.log + lines)
  {
    var e1, e2 := ExprErrors(first, st.scopes), ExprErrors(second, st.scopes);
    var mid := Resolution(st.scopes, ExprLocals(st.locals, first, st.scopes), st.hadError || e1 != [], st.log + e1);
    assert ExprResolved(st, first) == mid;
    assert ExprResolved(mid, second)
        == Resolution(st.scopes, ExprLocals(mid.locals, second, st.scopes), mid.hadError || e2 != [], mid.log + e2);
    assert st.log + e1 + e2 == st.log + (e1 + e2);
    assert (e1 + e2 != []) == (e1 != [] || e2 != []);
  }

  lemma CalleeThenArguments(st: Resolution, callee: Expr, arguments: seq<Expr>)
    ensures var lines := ExprErrors(callee, st.scopes) + ArgsErrors(arguments, st.scopes);
      ArgsResolved(ExprResolved(st, callee), arguments)
      == Resolution(st.scopes, ArgsLocals(ExprLocals(st.locals, callee, st.scopes), arguments, st.scopes),
                    st.hadError || lines != [], st.log + lines)
  {
    var e1, e2 := ExprErrors(callee, st.scopes), ArgsErrors(arguments, st.scopes);
    var mid := Resolution(st.scopes, ExprLocals(st.locals, callee, st.scopes), st.hadError || e1 != [], st.log + e1);
    assert ExprResolved(st, callee) == mid;
    assert ArgsResolved(mid, arguments)
        == Resolution(st.scopes, ArgsLocals(mid.locals, arguments, st.scopes), mid.hadError || e2 != [], mid.log + e2);
    assert st.log + e1 + e2 == st.log + (e1 + e2);
    assert (e1 + e2 != []) == (e1 != [] || e2 != []);
  }

  /** `declare`: a redeclaration in the innermost scope is reported, and the
      name is marked not ready; nothing at global scope. */
  function Declared(st: Resolution, name: Token): Resolution
  {
    Reported(st.(scopes := Mark(st.scopes, name.lexeme, false)), RedeclareErrors(st.scopes, name))
  }

  /** `define`: the name is marked ready; nothing at global scope. */
  function Defined(st: Resolution, name: Token): Resolution
  {
    st.(scopes := Mark(st.scopes, name.lexeme, true))
  }

  /** `begin_scope`. */
  function Opened(st: Resolution): Resolution
  {
    st.(scopes := st.scopes + [map[]])
  }

  /** `end_scope`. */
  function Closed(st: Resolution): Resolution
    requires st.scopes != []
  {
    st.(scopes := st.scopes[..|st.scopes| - 1])
  }

  /** One statement, by the visitor for its kind. */
  function StmtResolved(st: Resolution, s: Stmt): (r: Resolution)
    ensures Extends(st, r)
    decreases s, 1
  {
    match s
    case Block(statements) => BlockResolved(st, s)
    case Var(name, initializer) => VarResolved(st, name, initializer)
    case Function(decl) => FunctionStmtResolved(st, s)
    case Expression(expression) => ExprResolved(st, expression)
    case If(_, _, _) => IfResolved(st, s)
    case Print(expression) => ExprResolved(st, expression)
    case Return(_, value) => if value.Some? then ExprResolved(st, value.value) else st
    case While(_, _) => WhileResolved(st, s)
    case Class(name, _) =>
      // No visitor in this version; as the interpreter binds the name,
      // it is declared and defined.
      Defined(Declared(st, name), name)
  }

  /** `visit_block_stmt`: the statements in a scope of their own. */
  function BlockResolved(st: Resolution, s: Stmt): (r: Resolution)
    requires s.Block?
    ensures Extends(st, r)
    decreases s, 0
  {
    var inner := StmtsResolved(Opened(st), s.statements);
    ClosedExtends(st, inner);
    Closed(inner)
  }

  /** `visit_var_stmt`: declared, then the initializer while the name is
      not ready, then defined. */
  function VarResolved(st: Resolution, name: Token, initializer: Option<Expr>): (r: Resolution)
    ensures Extends(st, r)
  {
    var declared := Declared(st, name);
    var initialized := if initializer.Some? then ExprResolved(declared, initializer.value) else declared;
    Defined(initialized, name)
  }

  /** `visit_function_stmt`: the name is bound before the body is
      resolved. */
  function FunctionStmtResolved(st: Resolution, s: Stmt): (r: Resolution)
    requires s.Function?
    ensures Extends(st, r)
    decreases s, 0
  {
    var named := Defined(Declared(st, s.decl.name), s.decl.name);
    var r := FunctionResolved(named, s.decl);
    ExtendsTransitive(st, named, r);
    r
  }

  /** `visit_if_stmt`: the condition, then both branches. */
  function IfResolved(st: Resolution, s: Stmt): (r: Resolution)
    requires s.If?
    ensures Extends(st, r)
    decreases s, 0
  {
    var afterCondition := ExprResolved(st, s.condition);
    var afterThen := StmtResolved(afterCondition, s.thenBranch);
    ExtendsTransitive(st, afterCondition, afterThen);
    if s.elseBranch.Some? then
      var r := StmtResolved(afterThen, s.elseBranch.value);
      ExtendsTransitive(st, afterThen, r);
      r
    else afterThen
  }

  /** `visit_while_stmt`: the condition, then the body. */
  function WhileResolved(st: Resolution, s: Stmt): (r: Resolution)
    requires s.While?
    ensures Extends(st, r)
    decreases s, 0
  {
    var afterCondition := ExprResolved(st, s.condition);
    var r := StmtResolved(afterCondition, s.body);
    ExtendsTransitive(st, afterCondition, r);
    r
  }

  /** A list of statements, in order. */
  function StmtsResolved(st: Resolution, statements: seq<Stmt>): (r: Resolution)
    ensures Extends(st, r)
    decreases statements, 2
  {
    if statements == [] then st
    else
      var before := StmtsResolved(st, statements[..|statements| - 1]);
      var r := StmtResolved(before, statements[|statements| - 1]);
      ExtendsTransitive(st, before, r);
      r
  }

  /** `resolve_function`: a fresh scope holding the parameters, declared
      and defined in order, the body resolved in it, and the scope dropped. */
  function FunctionResolved(st: Resolution, decl: FunctionDecl): (r: Resolution)
    ensures Extends(st, r)
    decreases decl, 0
  {
    var params := ParamsDeclared(Opened(st), decl.params);
    var body := StmtsResolved(params, decl.body);
    ExtendsTransitive(Opened(st), params, body);
    ClosedExtends(st, body);
    Closed(body)
  }

  /** The parameters' loop of `resolve_function`. */
  function ParamsDeclared(st: Resolution, params: seq<Token>): (r: Resolution)
    ensures Extends(st, r)
  {
    if params == [] then st
    else
      var before := ParamsDeclared(st, params[..|params| - 1]);
      var r := Defined(Declared(before, params[|params| - 1]), params[|params| - 1]);
      ExtendsTransitive(st, before, r);
      r
  }

  /** Closing the scope a step opened gets back to the scopes before it,
      with what the step added kept. */
  lemma ClosedExtends(st: Resolution, inner: Resolution)
    requires Extends(Opened(st), inner)
    ensures inner.scopes != [] && Extends(st, Closed(inner)) && Closed(inner).scopes == st.scopes
  {
    assert inner.scopes[..|inner.scopes| - 1] == (st.scopes + [map[]])[..|st.scopes|] == st.scopes;
  }

  // What the pass promises, stated about the functions.

  /** A block and a function body leave the scope stack exactly as they
      found it: the scope they push is popped. */
  lemma BlockRestoresScopes(st: Resolution, statements: seq<Stmt>, decl: FunctionDecl)
    ensures StmtResolved(st, Block(statements)).scopes == st.scopes
    ensures FunctionResolved(st, decl).scopes == st.scopes
  {
    ClosedExtends(st, StmtsResolved(Opened(st), statements));
    var params := ParamsDeclared(Opened(st), decl.params);
    ExtendsTransitive(Opened(st), params, StmtsResolved(params, decl.body));
    ClosedExtends(st, StmtsResolved(params, decl.body));
  }

  /** The parameters' loop leaves one scope, holding every parameter ready,
      on top of the enclosing ones; it records nothing, and reports only
      parameters declared twice. */
  lemma {:induction false} ParamsScope(st: Resolution, params: seq<Token>)
    ensures var r := ParamsDeclared(Opened(st), params);
      r.scopes == st.scopes + [ParameterScope(params)] && r.locals == st.locals
  {
    if params == [] {
      assert ParameterScope(params) == map[];
    } else {
      var n := |params| - 1;
      var before := ParamsDeclared(Opened(st), params[..n]);
      ParamsScope(st, params[..n]);
      assert params[..n] == params[..n + 1][..n];
      MarkOverrides(before.scopes, params[n].lexeme, false, true);
      ParameterScopeGrows(params, n);
      assert params[..n + 1] == params;
      assert Mark(before.scopes, params[n].lexeme, true)
          == st.scopes + [ParameterScope(params[..n])[params[n].lexeme := true]];
    }
  }

  /** `visit_var_stmt`: the initializer is resolved while the name is
      declared but not ready in the innermost scope, and the name ends
      ready. */
  lemma VarResolvesInitializerWhileNotReady(st: Resolution, name: Token, initializer: Expr)
    ensures var r := StmtResolved(st, Stmt.Var(name, Some(initializer)));
      var during := Mark(st.scopes, name.lexeme, false);
      && r.scopes == Mark(st.scopes, name.lexeme, true)
      && r.locals == ExprLocals(st.locals, initializer, during)
      && r.log == st.log + RedeclareErrors(st.scopes, name) + ExprErrors(initializer, during)
  {
    MarkOverrides(st.scopes, name.lexeme, false, true);
  }

  /** A local `var a = a;` is reported as a read in its own initializer;
      at global scope it is not. */
  lemma SelfInitializerReported(st: Resolution, name: Token, id: NodeId, read: Token)
    requires read.lexeme == name.lexeme
    ensures var r := StmtResolved(st, Stmt.Var(name, Some(Variable(id, read))));
      && (st.scopes != [] ==>
            r.hadError && r.log[|r.log| - 1] == ReportText(read.line, Where(AtToken(read)), "Can't read local vafiable in its own initializer."))
      && (st.scopes == [] ==> r == st)
  {
    var during := Mark(st.scopes, name.lexeme, false);
    VarResolvesInitializerWhileNotReady(st, name, Variable(id, read));
    if st.scopes != [] {
      var n := |st.scopes| - 1;
      assert during[n] == st.scopes[n][name.lexeme := false];
    }
  }

  /** A name declared again in the same local scope is reported once, at
      the second declaration; a global redeclaration is not an error. */
  lemma RedeclarationReported(st: Resolution, name: Token)
    ensures var r := Declared(st, name);
      && (st.scopes != [] && name.lexeme in st.scopes[|st.scopes| - 1] ==>
            r.hadError && r.log == st.log + [ReportText(name.line, Where(AtToken(name)), "Already a variable with this name in this scope")])
      && (st.scopes == [] ==> r == st)
  {
  }

  /** Inside a function declared in a local scope, its own name resolves
      one scope out, to the binding made before the body was resolved,
      unless a parameter of the same name shadows it. */
  lemma FunctionNameVisibleInBody(st: Resolution, decl: FunctionDecl)
    requires st.scopes != []
    ensures var named := Defined(Declared(st, decl.name), decl.name);
      var bodyScopes := named.scopes + [ParameterScope(decl.params)];
      && ParamsDeclared(Opened(named), decl.params).scopes == bodyScopes
      && Distance(bodyScopes, decl.name.lexeme) == Some(if decl.name.lexeme in ParameterScope(decl.params) then 0 else 1)
  {
    var named := Defined(Declared(st, decl.name), decl.name);
    ParamsScope(named, decl.params);
    var bodyScopes := named.scopes + [ParameterScope(decl.params)];
    MarkOverrides(st.scopes, decl.name.lexeme, false, true);
    DeclaredNameIsInnermost(st.scopes, decl.name.lexeme, true);
    assert bodyScopes[..|bodyScopes| - 1] == named.scopes;
  }

  /** In `{ var a = ...; print a; }` the read of `a` is recorded at
      distance 0, whatever scopes enclose the block, and without a report
      when the initializer reads nothing in progress. */
  lemma BlockLocalReadRecorded(st: Resolution, name: Token, initializer: Expr, id: NodeId, read: Token)
    requires read.lexeme == name.lexeme
    ensures var r := StmtResolved(st, Block([Stmt.Var(name, Some(initializer)), Stmt.Print(Variable(id, read))]));
      id in r.locals && r.locals[id] == 0
  {
    var declaration, use := Stmt.Var(name, Some(initializer)), Stmt.Print(Variable(id, read));
    var inBlock := Opened(st);
    var afterVar := VarResolved(inBlock, name, Some(initializer));
    var afterUse := ExprResolved(afterVar, Variable(id, read));
    assert StmtsResolved(inBlock, [declaration, use]) == afterUse by {
      TwoStatements(inBlock, declaration, use);
    }
    assert Distance(afterVar.scopes, read.lexeme) == Some(0) by {
      VarResolvesInitializerWhileNotReady(inBlock, name, initializer);
      DeclaredNameIsInnermost(inBlock.scopes, name.lexeme, true);
    }
    assert afterUse.locals == afterVar.locals[id := 0];
    ClosedExtends(st, afterUse);
  }

  lemma TwoStatements(st: Resolution, first: Stmt, second: Stmt)
    ensures StmtsResolved(st, [first, second]) == StmtResolved(StmtResolved(st, first), second)
  {
    var statements := [first, second];
    assert [first][..0] == [];
    assert StmtsResolved(st, [first]) == StmtResolved(st, first);
    assert statements[..1] == [first];
  }

  /** `resolve_function` resolves the body against the enclosing scopes
      with the parameter scope on top: for a body of one expression
      statement the side table is that expression's, resolved there. */
  lemma FunctionBodyResolvedInParameterScope(st: Resolution, name: Token, params: seq<Token>, e: Expr)
    ensures FunctionResolved(st, FunctionDecl(name, params, [Stmt.Expression(e)])).locals
         == ExprLocals(st.locals, e, st.scopes + [ParameterScope(params)])
  {
    var decl := FunctionDecl(name, params, [Stmt.Expression(e)]);
    var declared := ParamsDeclared(Opened(st), params);
    ParamsScope(st, params);
    assert StmtsResolved(declared, decl.body) == ExprResolved(declared, e) by {
      assert decl.body[..0] == [];
    }
  }

  /** A statement list at global scope records nothing in the side table
      for its expression statements: those references are left to globals. */
  lemma GlobalExpressionStatementsRecordNothing(st: Resolution, e: Expr)
    requires st.scopes == []
    ensures StmtResolved(st, Expression(e)).locals == st.locals
    ensures StmtResolved(st, Stmt.Print(e)).locals == st.locals
  {
    GlobalScopeRecordsNothing(st.locals, e);
  }

  class Resolver {
    const interpreter: I.Interpreter
    const reporter: Reporter
    var scopes: seq<Scope>

    constructor (interpreter: I.Interpreter, reporter: Reporter)
      ensures this.interpreter == interpreter && this.reporter == reporter && scopes == []
    {
      this.interpreter := interpreter;
      this.reporter := reporter;
      scopes := [];
    }

    /** The pass's state as a value, the side table and the reporter's
        part included. */
    function Snapshot(): Resolution
      reads this, interpreter, reporter
    {
      Resolution(scopes, interpreter.locals, reporter.hadError, reporter.log)
    }

    method BeginScope()
      modifies this`scopes
      ensures Snapshot() == Opened(old(Snapshot()))
    {
      scopes := scopes + [map[]];
    }

    method EndScope()
      requires scopes != []
      modifies this`scopes
      ensures Snapshot() == Closed(old(Snapshot()))
    {
      scopes := scopes[..|scopes| - 1];
    }

    /** `declare`: marks the name not ready in the innermost scope, after
        reporting a redeclaration; nothing at global scope. */
    method Declare(name: Token)
      modifies this`scopes, reporter
      ensures Snapshot() == Declared(old(Snapshot()), name)
      ensures reporter.hadRuntimeError == old(reporter.hadRuntimeError)
    {
      if scopes == [] {
        return;
      }
      if name.lexeme in scopes[|scopes| - 1] {
        reporter.Error("Already a variable with this name in this scope", AtToken(name));
      }
      scopes := scopes[..|scopes| - 1] + [scopes[|scopes| - 1][name.lexeme := false]];
    }

    /** `define`: marks the name ready in the innermost scope; nothing at
        global scope. */
    method Define(name: Token)
      modifies this`scopes
      ensures Snapshot() == Defined(old(Snapshot()), name)
    {
      if scopes == [] {
        return;
      }
      scopes := scopes[..|scopes| - 1] + [scopes[|scopes| - 1][name.lexeme := true]];
    }

    /** `resolve_local`: searches from the innermost scope outwards and
        records the distance to the first scope that has the name. */
    method ResolveLocal(id: NodeId, name: Token)
      modifies interpreter`locals
      ensures interpreter.locals == Recorded(old(interpreter.locals), id, scopes, name.lexeme)
    {
      var i := |scopes| - 1;
      while i >= 0
        invariant -1 <= i < |scopes|
        invariant forall j | i < j < |scopes| :: name.lexeme !in scopes[j]
        invariant interpreter.locals == old(interpreter.locals)
      {
        if name.lexeme in scopes[i] {
          interpreter.Resolve(id, |scopes| - 1 - i);
          return;
        }
        i := i - 1;
      }
    }

    /** `resolve` on a list of statements. */
    method Resolve(statements: seq<Stmt>)
      modifies this`scopes, interpreter`locals, reporter
      ensures Snapshot() == StmtsResolved(old(Snapshot()), statements)
      ensures reporter.hadRuntimeError == old(reporter.hadRuntimeError)
      decreases statements, 2
    {
      var i := 0;
      while i < |statements|
        invariant i <= |statements|
        invariant Snapshot() == StmtsResolved(old(Snapshot()), statements[..i])
        invariant reporter.hadRuntimeError == old(reporter.hadRuntimeError)
      {
        assert statements[..i + 1][..i] == statements[..i];
        ResolveStmt(statements[i]);
        i := i + 1;
      }
      assert statements[..i] == statements;
    }

    /** `resolve_function`: the parameters are declared and defined in a
        fresh scope, the body is resolved there, and the scope is dropped. */
    method ResolveFunction(declaration: FunctionDecl)
      modifies this`scopes, interpreter`locals, reporter
      ensures Snapshot() == FunctionResolved(old(Snapshot()), declaration)
      ensures reporter.hadRuntimeError == old(reporter.hadRuntimeError)
      decreases declaration, 0
    {
      BeginScope();
      DeclareParameters(declaration.params);
      Resolve(declaration.body);
      EndScope();
    }

    /** The parameters' loop of `resolve_function`. */
    method DeclareParameters(params: seq<Token>)
      modifies this`scopes, reporter
      ensures Snapshot() == ParamsDeclared(old(Snapshot()), params)
      ensures reporter.hadRuntimeError == old(reporter.hadRuntimeError)
    {
      var i := 0;
      while i < |params|
        invariant i <= |params|
        invariant Snapshot() == ParamsDeclared(old(Snapshot()), params[..i])
        invariant reporter.hadRuntimeError == old(reporter.hadRuntimeError)
      {
        assert params[..i + 1][..i] == params[..i];
        DeclareParameter(params[i]);
        i := i + 1;
      }
      assert params[..i] == params;
    }

    /** One pass of the parameters' loop: declared, then defined. */
    method DeclareParameter(name: Token)
      modifies this`scopes, reporter
      ensures Snapshot() == Defined(Declared(old(Snapshot()), name), name)
      ensures reporter.hadRuntimeError == old(reporter.hadRuntimeError)
    {
      Declare(name);
      Define(name);
    }

    /** `resolve` on one statement: dispatches to the visitor for its kind. */
    method ResolveStmt(s: Stmt)
      modifies this`scopes, interpreter`locals, reporter
      ensures Snapshot() == StmtResolved(old(Snapshot()), s)
      ensures reporter.hadRuntimeError == old(reporter.hadRuntimeError)
      decreases s, 1
    {
      match s
      case Block(_) => VisitBlockStmt(s);
      case Var(_, _) => VisitVarStmt(s);
      case Function(_) => VisitFunctionStmt(s);
      case Expression(expression) => ResolveExpr(expression);
      case If(_, _, _) => VisitIfStmt(s);
      case Print(expression) => ResolveExpr(expression);
      case Return(_, value) =>
        if value.Some? {
          ResolveExpr(value.value);
        }
      case While(_, _) => VisitWhileStmt(s);
      case Class(name, _) =>
        // No visitor in this version; as the interpreter binds the name,
        // declare and define it.
        Declare(name);
        Define(name);
    }

    /** `visit_block_stmt`: the block's statements in a scope of their own. */
    method VisitBlockStmt(s: Stmt)
      requires s.Block?
      modifies this`scopes, interpreter`locals, reporter
      ensures Snapshot() == StmtResolved(old(Snapshot()), s)
      ensures reporter.hadRuntimeError == old(reporter.hadRuntimeError)
      decreases s, 0
    {
      BeginScope();
      Resolve(s.statements);
      EndScope();
    }

    /** `visit_var_stmt`: declared, then the initializer is resolved while
        the name is not ready, then defined. */
    method VisitVarStmt(s: Stmt)
      requires s.Var?
      modifies this`scopes, interpreter`locals, reporter
      ensures Snapshot() == StmtResolved(old(Snapshot()), s)
      ensures reporter.hadRuntimeError == old(reporter.hadRuntimeError)
      decreases s, 0
    {
      Declare(s.name);
      if s.initializer.Some? {
        ResolveExpr(s.initializer.value);
      }
      Define(s.name);
    }

    /** `visit_function_stmt`: the name is bound before the body is
        resolved, so that the function can call itself. */
    method VisitFunctionStmt(s: Stmt)
      requires s.Function?
      modifies this`scopes, interpreter`locals, reporter
      ensures Snapshot() == StmtResolved(old(Snapshot()), s)
      ensures reporter.hadRuntimeError == old(reporter.hadRuntimeError)
      decreases s, 0
    {
      Declare(s.decl.name);
      Define(s.decl.name);
      ResolveFunction(s.decl);
    }

    /** `visit_if_stmt`: the condition, then both branches. */
    method VisitIfStmt(s: Stmt)
      requires s.If?
      modifies this`scopes, interpreter`locals, reporter
      ensures Snapshot() == StmtResolved(old(Snapshot()), s)
      ensures reporter.hadRuntimeError == old(reporter.hadRuntimeError)
      decreases s, 0
    {
      ResolveExpr(s.condition);
      ResolveStmt(s.thenBranch);
      if s.elseBranch.Some? {
        ResolveStmt(s.elseBranch.value);
      }
    }

    /** `visit_while_stmt`: the condition, then the body. */
    method VisitWhileStmt(s: Stmt)
      requires s.While?
      modifies this`scopes, interpreter`locals, reporter
      ensures Snapshot() == StmtResolved(old(Snapshot()), s)
      ensures reporter.hadRuntimeError == old(reporter.hadRuntimeError)
      decreases s, 0
    {
      ResolveExpr(s.condition);
      ResolveStmt(s.body);
    }

    /** `resolve` on one expression. */
    method ResolveExpr(e: Expr)
      modifies interpreter`locals, reporter
      ensures Snapshot() == ExprResolved(old(Snapshot()), e)
      ensures reporter.hadRuntimeError == old(reporter.hadRuntimeError)
      decreases e, 1
    {
      match e
      case Assign(id, name, value) =>
        // The value first, then the target.
        ResolveExpr(value);
        ResolveLocal(id, name);
      case Variable(_, _) =>
        VisitVariableExpr(e);
      // This and Super have no visitor in this version; they are resolved
      // as their keyword.
      case This(id, keyword) =>
        ResolveLocal(id, keyword);
      case Super(id, keyword, _) =>
        ResolveLocal(id, keyword);
      case Literal(_) =>
      case _ =>
        ResolveOperands(e);
    }

    /** `visit_variable_expr`: a read of a name declared but not yet ready
        in the innermost scope is reported; the distance is recorded. */
    method VisitVariableExpr(e: Expr)
      requires e.Variable?
      modifies interpreter`locals, reporter
      ensures Snapshot() == ExprResolved(old(Snapshot()), e)
      ensures reporter.hadRuntimeError == old(reporter.hadRuntimeError)
    {
      var name := e.name;
      ghost var before := Snapshot();
      assert ExprResolved(before, e) == Reported(before.(locals := Recorded(before.locals, e.id, scopes, name.lexeme)), SelfReadErrors(scopes, name));
      if scopes != [] && name.lexeme in scopes[|scopes| - 1] && !scopes[|scopes| - 1][name.lexeme] {
        reporter.Error("Can't read local vafiable in its own initializer.", AtToken(name));
      }
      ResolveLocal(e.id, name);
    }

    /** The visitors of the nodes that only resolve their operands, in the
        order the visitors take them. */
    method ResolveOperands(e: Expr)
      requires !e.Assign? && !e.Variable? && !e.This? && !e.Super? && !e.Literal?
      modifies interpreter`locals, reporter
      ensures Snapshot() == ExprResolved(old(Snapshot()), e)
      ensures reporter.hadRuntimeError == old(reporter.hadRuntimeError)
      decreases e, 0
    {
      match e
      case Binary(left, _, right) =>
        ResolvedInTurn(Snapshot(), left, right);
        ResolveExpr(left);
        ResolveExpr(right);
      case Call(callee, _, arguments) =>
        CalleeThenArguments(Snapshot(), callee, arguments);
        ResolveExpr(callee);
        ResolveExprs(arguments);
      case Grouping(expression) =>
        ResolveExpr(expression);
      case Logical(left, _, right) =>
        ResolvedInTurn(Snapshot(), left, right);
        ResolveExpr(left);
        ResolveExpr(right);
      case Unary(_, right) =>
        ResolveExpr(right);
      // Get and Set have no visitor in this version; they are resolved as
      // their parts.
      case Get(obj, _) =>
        ResolveExpr(obj);
      case Set(obj, _, value) =>
        ResolvedInTurn(Snapshot(), value, obj);
        ResolveExpr(value);
        ResolveExpr(obj);
    }

    /** The argument loop of `visit_call_expr`: left to right. */
    method ResolveExprs(arguments: seq<Expr>)
      modifies interpreter`locals, reporter
      ensures Snapshot() == ArgsResolved(old(Snapshot()), arguments)
      ensures reporter.hadRuntimeError == old(reporter.hadRuntimeError)
      decreases arguments, 1
    {
      var i := 0;
      while i < |arguments|
        invariant i <= |arguments|
        invariant Snapshot() == ArgsResolved(old(Snapshot()), arguments[..i])
        invariant reporter.hadRuntimeError == old(reporter.hadRuntimeError)
      {
        assert arguments[..i + 1][..i] == arguments[..i];
        ResolveExpr(arguments[i]);
        i := i + 1;
      }
      assert arguments[..i] == arguments;
    }
  }
}
