// The syntax tree the parser of parser.rs builds, and the literals it carries.

module ExprTree {

  datatype Literal =
    | Number(n: real)
    | Bool(b: bool)
    | String(s: string)

  /**
   * One expression. Each node owns its children; `Chain` is a `;`-separated
   * sequence of statements and `None` the empty expression.
   */
  datatype ExprAST =
    | Literal(lit: Literal)
    | Unary(op: string, rhs: ExprAST)
    | Binary(op: string, lhs: ExprAST, rhs: ExprAST)
    | Postfix(lhs: ExprAST, op: string)
    | Ternary(cond: ExprAST, lhs: ExprAST, rhs: ExprAST)
    | Reference(name: string)
    | Function(name: string, args: seq<ExprAST>)
    | List(items: seq<ExprAST>)
    | Map(pairs: seq<(ExprAST, ExprAST)>)
    | Chain(exprs: seq<ExprAST>)
    | None
}
