// The syntax tree: one constructor per record class under lib/rlox/expr and
// lib/rlox/stmt. Variable, Assign, This and Super nodes carry a node id, so
// that the resolver's side table is keyed by node identity, as the Ruby hash
// keyed by node objects is.
module Ast {
  import opened Wrappers
  import opened Tokens

  type NodeId = nat

  /** The value of a Literal node. A number literal keeps its lexeme. */
  datatype Lit = LitNil | LitBool(b: bool) | LitNumber(text: string) | LitString(text: string)

  datatype Expr =
    | Assign(id: NodeId, name: Token, value: Expr)
    | Binary(left: Expr, operator: Token, right: Expr)
    | Call(callee: Expr, paren: Token, arguments: seq<Expr>)
    | Get(obj: Expr, name: Token)
    | Grouping(expression: Expr)
    | Literal(lit: Lit)
    | Logical(left: Expr, operator: Token, right: Expr)
    | Set(obj: Expr, name: Token, value: Expr)
    | Super(id: NodeId, keyword: Token, methodName: Token)
    | This(id: NodeId, keyword: Token)
    | Unary(operator: Token, right: Expr)
    | Variable(id: NodeId, name: Token)

  datatype FunctionDecl = FunctionDecl(name: Token, params: seq<Token>, body: seq<Stmt>)

  datatype Stmt =
    | Block(statements: seq<Stmt>)
    | Class(name: Token, methods: seq<FunctionDecl>)
    | Expression(expression: Expr)
    | Function(decl: FunctionDecl)
    | If(condition: Expr, thenBranch: Stmt, elseBranch: Option<Stmt>)
    | Print(expression: Expr)
    | Return(keyword: Token, value: Option<Expr>)
    | Var(name: Token, initializer: Option<Expr>)
    | While(condition: Expr, body: Stmt)
}
