/**
  The syntax tree the parser builds (the `{type: ...}` objects of parser.js)
  and that the semantic analyzer and the interpreter walk.
*/
module Ast {

  /** The value of a `Literal` node: `Number(token.value)`, a string, or the null of `caramelo x;`. */
  datatype Lit = NumberLit(n: nat) | StringLit(s: string) | NullLit

  /** Expression nodes: parser.js:202-228. */
  datatype Expr =
    | Literal(value: Lit)
    | Identifier(name: string)
    | BinaryExpression(operator: string, left: Expr, right: Expr)

  /** Statement nodes: parser.js:49-194. */
  datatype Stmt =
    | VarDecl(name: string, expr: Expr)
    | Assignment(name: string, expr: Expr)
    | FunctionDecl(name: string, params: seq<string>, body: seq<Stmt>)
    | FunctionCall(name: string, args: seq<Expr>)
    | IfStatement(condition: Expr, thenBranch: seq<Stmt>, elseBranch: seq<Stmt>)
    | WhileStatement(condition: Expr, body: seq<Stmt>)
    | ForStatement(initializer: Stmt, condition: Expr, increment: Stmt, body: seq<Stmt>)
    | Mostrame(expr: Expr)
    | ReturnStatement(expr: Expr)
}
