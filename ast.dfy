/**
 * The ArcScript syntax tree shared by the parser and the interpreter.
 *
 * Every node is an immutable value; `Expr` and `Stmt` are finite trees whose
 * children are sub-terms or sequences of sub-terms, so structural recursion
 * over them terminates. Names and string contents are byte strings.
 */
module Ast {
  import opened Wrappers
  import opened Text

  /**
   * A literal. A float literal keeps the decimal text of its token; the
   * interpreter converts it to a 64-bit float when it is evaluated.
   */
  datatype Literal =
    | IntLit(n: I64)
    | FloatLit(text: Bytes)
    | BoolLit(b: bool)
    | StrLit(s: Bytes)
    | NilLit

  datatype UnaryOp = Negate | Not

  datatype BinaryOp =
    | Add | Sub | Mul | Div
    | Equal | NotEqual
    | Less | LessEqual | Greater | GreaterEqual
    | And | Or

  datatype Expr =
    | Lit(lit: Literal)
    | Ident(name: Bytes)
    | Unary(uop: UnaryOp, operand: Expr)
    | Binary(left: Expr, op: BinaryOp, right: Expr)
    | Call(callee: Expr, args: seq<Expr>)
    | Member(receiver: Expr, field: Bytes)
    | Index(receiver: Expr, index: Expr)
    | TableLiteral(fields: seq<TableField>)

  /** A table-literal entry: `key: value`, or a positional value. */
  datatype TableField =
    | KeyValue(key: Bytes, value: Expr)
    | Positional(value: Expr)

  datatype Param = Param(name: Bytes)

  datatype Stmt =
    | VarDecl(name: Bytes, init: Expr)
    | ExprStmt(expr: Expr)
    | Block(stmts: seq<Stmt>)
    | If(condition: Expr, thenBranch: Stmt, elifBranches: seq<(Expr, Stmt)>, elseBranch: Option<Stmt>)
    | While(condition: Expr, body: Stmt)
    | Return(value: Option<Expr>)
    | Func(decl: FuncDecl)
    | Object(obj: ObjectDecl)

  datatype FuncDecl = FuncDecl(name: Bytes, params: seq<Param>, body: Stmt)

  datatype EventDecl = EventDecl(name: Bytes, params: seq<Param>, body: Stmt)

  datatype ObjectDecl = ObjectDecl(name: Bytes, members: seq<ObjectMember>)

  datatype ObjectMember =
    | Var(decl: Stmt)
    | Method(func: FuncDecl)
    | Event(event: EventDecl)

  datatype Program = Program(body: seq<Stmt>)
}
