/**
 * What the ArcScript recursive-descent parser computes.
 *
 * The parser reads a pre-lexed token sequence whose last token is the
 * end-of-input `Eof`; its state is the index of the current token and the
 * errors recorded so far. Advancing past the last token stays on it, as the
 * lexer keeps returning `Eof` once the input is exhausted.
 *
 * Every parsing function returns `Done` with the node and the new state, or
 * `Fail` with the error and the state at which it was raised; errors reach
 * the recorded list only where a statement loop catches them.
 */
module ParseSpec {
  import opened Wrappers
  import opened Text
  import opened Lexing
  import opened Ast

  /** An error message: `expected <kind>: <context>`, a fixed text, or the primary-expression error. */
  datatype Message =
    | Expected(kind: TokenKind, context: string)
    | Note(text: string)
    | NoPrimary(found: TokenKind)

  datatype ParseError = ParseError(line: nat, column: nat, message: Message)

  datatype PState = PState(pos: nat, errors: seq<ParseError>)

  /** A successful step: the node built and the state after it. */
  datatype Got<+T> = Got(v: T, st: PState)

  datatype Parsed<+T> = Done(value: T, st: PState) | Fail(error: ParseError, st: PState) {
    predicate IsFailure() {
      Fail?
    }

    function PropagateFailure<U>(): Parsed<U>
      requires Fail?
    {
      Fail(error, st)
    }

    function Extract(): Got<T>
      requires Done?
    {
      Got(value, st)
    }
  }

  /** A token stream as the lexer delivers it: non-empty, ending with `Eof`. */
  predicate WellFormed(toks: seq<Token>) {
    |toks| > 0 && toks[|toks| - 1].kind == Eof
  }

  predicate Ready(toks: seq<Token>, st: PState) {
    WellFormed(toks) && st.pos < |toks|
  }

  /** `st1` is reachable from `st0`: the parser never moves back and never forgets an error. */
  predicate Within(toks: seq<Token>, st0: PState, st1: PState) {
    st0.pos <= st1.pos < |toks| && st0.errors <= st1.errors
  }

  function Kind(toks: seq<Token>, st: PState): TokenKind
    requires st.pos < |toks|
  {
    toks[st.pos].kind
  }

  function Lexeme(toks: seq<Token>, st: PState): Bytes
    requires st.pos < |toks|
  {
    toks[st.pos].lexeme
  }

  /** The error raised at the current token. */
  function ErrorAt(toks: seq<Token>, st: PState, m: Message): (e: ParseError)
    requires st.pos < |toks|
    ensures e.line == toks[st.pos].line && e.column == toks[st.pos].column && e.message == m
  {
    ParseError(toks[st.pos].line, toks[st.pos].column, m)
  }

  /** Moves to the next token; on the final `Eof` it stays put. */
  function Advance(toks: seq<Token>, st: PState): (r: PState)
    requires Ready(toks, st)
    ensures Within(toks, st, r) && r.errors == st.errors
    ensures Kind(toks, st) != Eof ==> r.pos == st.pos + 1
  {
    if st.pos + 1 < |toks| then st.(pos := st.pos + 1) else st
  }

  /** `consume`: the current token must have kind `kind`, and is then skipped. */
  function Consume(toks: seq<Token>, st: PState, kind: TokenKind, context: string): (r: Parsed<()>)
    requires Ready(toks, st)
    ensures Within(toks, st, r.st) && r.st.errors == st.errors
    ensures r.Done? <==> Kind(toks, st) == kind
    ensures r.Done? && kind != Eof ==> r.st.pos == st.pos + 1
    ensures r.Fail? ==> r == Fail(ErrorAt(toks, st, Expected(kind, context)), st)
  {
    if Kind(toks, st) == kind then Done((), Advance(toks, st))
    else Fail(ErrorAt(toks, st, Expected(kind, context)), st)
  }

  function SkipSemicolon(toks: seq<Token>, st: PState): (r: PState)
    requires Ready(toks, st)
    ensures Within(toks, st, r) && r.errors == st.errors
  {
    if Kind(toks, st) == Semicolon then Advance(toks, st) else st
  }

  /** An optional `: Type` annotation, read and thrown away. */
  function SkipAnnotation(toks: seq<Token>, st: PState): (r: PState)
    requires Ready(toks, st)
    ensures Within(toks, st, r) && r.errors == st.errors
  {
    if Kind(toks, st) == Colon then
      var st1 := Advance(toks, st);
      if Kind(toks, st1) == Identifier then Advance(toks, st1) else st1
    else st
  }

  /* ---------- error recovery and statement lists ---------- */

  predicate StartsStatement(k: TokenKind) {
    k == KwFunc || k == KwVar || k == KwIf || k == KwWhile || k == KwReturn
  }

  /** `synchronize`: skip the current token, then up to just after a `;` or up to a statement keyword or `Eof`. */
  function Synchronize(toks: seq<Token>, st: PState): (r: PState)
    requires Ready(toks, st)
    ensures Within(toks, st, r) && r.errors == st.errors
    ensures st.pos + 1 < |toks| ==> st.pos < r.pos
  {
    SyncLoop(toks, Advance(toks, st))
  }

  function SyncLoop(toks: seq<Token>, st: PState): (r: PState)
    requires Ready(toks, st)
    ensures Within(toks, st, r) && r.errors == st.errors
    decreases |toks| - st.pos
  {
    var k := Kind(toks, st);
    if k == Eof then st
    else if k == Semicolon then Advance(toks, st)
    else if StartsStatement(k) then st
    else SyncLoop(toks, Advance(toks, st))
  }

  /** Records a statement's error and resynchronizes after it. */
  function Recover(toks: seq<Token>, e: ParseError, st: PState): (r: PState)
    requires Ready(toks, st)
    ensures Within(toks, st, r) && r.errors == st.errors + [e]
  {
    Synchronize(toks, st.(errors := st.errors + [e]))
  }

  /** The statements of a program, from the current token to `Eof`. */
  function ProgramLoop(toks: seq<Token>, body: seq<Stmt>, st: PState): (r: (seq<Stmt>, PState))
    requires Ready(toks, st)
    ensures Within(toks, st, r.1) && body <= r.0
    ensures Kind(toks, r.1) == Eof
    decreases |toks| - st.pos, 50
  {
    if Kind(toks, st) == Eof then (body, st)
    else
      match ParseStatement(toks, st)
      case Done(s, st1) => ProgramLoop(toks, body + [s], st1)
      case Fail(e, st1) => ProgramLoop(toks, body, Recover(toks, e, st1))
  }

  /** `parse_program` from a parser state: the program, or every error recorded on the way. */
  function ParseProgramAt(toks: seq<Token>, st: PState): (r: (Result<Program, seq<ParseError>>, PState))
    requires Ready(toks, st)
  {
    var (body, st1) := ProgramLoop(toks, [], st);
    if st1.errors == [] then (Ok(Program(body)), st1)
    else (Err(st1.errors), st1.(errors := []))
  }

  function ParseProgram(toks: seq<Token>): Result<Program, seq<ParseError>>
    requires WellFormed(toks)
  {
    ParseProgramAt(toks, PState(0, [])).0
  }

  /** The statements of a block, up to its `}` or `Eof`. */
  function BlockLoop(toks: seq<Token>, stmts: seq<Stmt>, st: PState): (r: (seq<Stmt>, PState))
    requires Ready(toks, st)
    ensures Within(toks, st, r.1) && stmts <= r.0
    ensures Kind(toks, r.1) == RBrace || Kind(toks, r.1) == Eof
    decreases |toks| - st.pos, 50
  {
    if Kind(toks, st) == RBrace || Kind(toks, st) == Eof then (stmts, st)
    else
      match ParseStatement(toks, st)
      case Done(s, st1) => BlockLoop(toks, stmts + [s], st1)
      case Fail(e, st1) => BlockLoop(toks, stmts, Recover(toks, e, st1))
  }

  /* ---------- statements ---------- */

  function ParseStatement(toks: seq<Token>, st: PState): (r: Parsed<Stmt>)
    requires Ready(toks, st)
    ensures Within(toks, st, r.st) && (r.Done? ==> st.pos < r.st.pos)
    decreases |toks| - st.pos, 45
  {
    var k := Kind(toks, st);
    if k == KwVar then ParseVarDecl(toks, st)
    else if k == KwIf then ParseIf(toks, st)
    else if k == KwWhile then ParseWhile(toks, st)
    else if k == KwReturn then ParseReturn(toks, st)
    else ParseOtherStatement(toks, st)
  }

  /** Function and object declarations, blocks, and expression statements. */
  function ParseOtherStatement(toks: seq<Token>, st: PState): (r: Parsed<Stmt>)
    requires Ready(toks, st)
    ensures Within(toks, st, r.st) && (r.Done? ==> st.pos < r.st.pos)
    decreases |toks| - st.pos, 44
  {
    var k := Kind(toks, st);
    if k == KwFunc then
      var f :- ParseFuncDecl(toks, st);
      Done(Func(f.v), f.st)
    else if k == KwObject then
      var o :- ParseObjectDecl(toks, st);
      Done(Object(o.v), o.st)
    else if k == LBrace then
      var b :- ParseBlock(toks, st);
      Done(Block(b.v), b.st)
    else
      var e :- ParseExpression(toks, st);
      Done(ExprStmt(e.v), SkipSemicolon(toks, e.st))
  }

  /** `var NAME [: TYPE] = expr [;]`, entered on the `var` keyword. */
  function ParseVarDecl(toks: seq<Token>, st: PState): (r: Parsed<Stmt>)
    requires Ready(toks, st) && Kind(toks, st) == KwVar
    ensures Within(toks, st, r.st) && (r.Done? ==> st.pos < r.st.pos)
    decreases |toks| - st.pos, 40
  {
    var st1 := Advance(toks, st);
    if Kind(toks, st1) != Identifier then Fail(ErrorAt(toks, st1, Note("expected identifier after 'var'")), st1)
    else
      var name := Lexeme(toks, st1);
      var st2 := SkipAnnotation(toks, Advance(toks, st1));
      var eq :- Consume(toks, st2, TokenKind.Equal, "expected '=' in var declaration");
      var init :- ParseExpression(toks, eq.st);
      Done(VarDecl(name, init.v), SkipSemicolon(toks, init.st))
  }

  /** `{ statements }`; a failing inner statement is recorded and skipped. */
  function ParseBlock(toks: seq<Token>, st: PState): (r: Parsed<seq<Stmt>>)
    requires Ready(toks, st)
    ensures Within(toks, st, r.st) && (r.Done? ==> st.pos < r.st.pos)
    decreases |toks| - st.pos, 40
  {
    var open :- Consume(toks, st, LBrace, "expected '{' to start block");
    var (stmts, st1) := BlockLoop(toks, [], open.st);
    var close :- Consume(toks, st1, RBrace, "expected '}' to close block");
    Done(stmts, close.st)
  }

  /** `if cond then block {elif cond then block} [else block] end`. */
  function ParseIf(toks: seq<Token>, st: PState): (r: Parsed<Stmt>)
    requires Ready(toks, st)
    ensures Within(toks, st, r.st) && (r.Done? ==> st.pos < r.st.pos)
    decreases |toks| - st.pos, 40
  {
    var kw :- Consume(toks, st, KwIf, "expected 'if'");
    var cond :- ParseExpression(toks, kw.st);
    var th :- Consume(toks, cond.st, KwThen, "expected 'then' after if condition");
    var body :- ParseBlock(toks, th.st);
    IfTail(toks, cond.v, Block(body.v), body.st)
  }

  /** The `elif` and `else` clauses and the `end` of an `if` whose first branch is parsed. */
  function IfTail(toks: seq<Token>, cond: Expr, thenBranch: Stmt, st: PState): (r: Parsed<Stmt>)
    requires Ready(toks, st)
    ensures Within(toks, st, r.st) && (r.Done? ==> st.pos < r.st.pos)
    decreases |toks| - st.pos, 42
  {
    var elifs :- ElifLoop(toks, [], st);
    IfEnd(toks, cond, thenBranch, elifs.v, elifs.st)
  }

  /** The optional `else` block and the `end` of an `if`. */
  function IfEnd(toks: seq<Token>, cond: Expr, thenBranch: Stmt, elifs: seq<(Expr, Stmt)>, st: PState): (r: Parsed<Stmt>)
    requires Ready(toks, st)
    ensures Within(toks, st, r.st)
    decreases |toks| - st.pos, 41
    ensures r.Done? ==> && r.value.If? && r.value.thenBranch == thenBranch && r.value.elifBranches == elifs
                        && (r.value.elseBranch.Some? ==> r.value.elseBranch.value.Block?)
  {
    var other :- ParseElse(toks, st);
    var end :- Consume(toks, other.st, KwEnd, "expected 'end' after if statement");
    Done(If(cond, thenBranch, elifs, other.v), end.st)
  }

  /** Every clause body is a `Block` statement. */
  predicate BlockBodies(clauses: seq<(Expr, Stmt)>) {
    forall i | 0 <= i < |clauses| :: clauses[i].1.Block?
  }

  /** The `elif cond then block` clauses, in source order. */
  function ElifLoop(toks: seq<Token>, elifs: seq<(Expr, Stmt)>, st: PState): (r: Parsed<seq<(Expr, Stmt)>>)
    requires Ready(toks, st)
    ensures Within(toks, st, r.st)
    ensures r.Done? ==> Kind(toks, r.st) != KwElif
    decreases |toks| - st.pos, 40
  {
    if Kind(toks, st) != KwElif then Done(elifs, st)
    else
      var clause :- ElifClause(toks, st);
      ElifLoop(toks, elifs + [clause.v], clause.st)
  }

  /** One `elif cond then block` clause, from its `elif`. */
  function ElifClause(toks: seq<Token>, st: PState): (r: Parsed<(Expr, Stmt)>)
    requires Ready(toks, st) && Kind(toks, st) == KwElif
    ensures Within(toks, st, r.st) && (r.Done? ==> st.pos < r.st.pos && r.value.1.Block?)
    decreases |toks| - st.pos, 39
  {
    var cond :- ParseExpression(toks, Advance(toks, st));
    var th :- Consume(toks, cond.st, KwThen, "expected 'then' after elif condition");
    var body :- ParseBlock(toks, th.st);
    Done((cond.v, Block(body.v)), body.st)
  }

  function ParseElse(toks: seq<Token>, st: PState): (r: Parsed<Option<Stmt>>)
    requires Ready(toks, st)
    ensures Within(toks, st, r.st)
    ensures r.Done? ==> (r.value.Some? <==> Kind(toks, st) == KwElse)
    decreases |toks| - st.pos, 40
  {
    if Kind(toks, st) != KwElse then Done(None, st)
    else
      var body :- ParseBlock(toks, Advance(toks, st));
      Done(Some(Block(body.v)), body.st)
  }

  /** `while cond do block end`. */
  function ParseWhile(toks: seq<Token>, st: PState): (r: Parsed<Stmt>)
    requires Ready(toks, st)
    ensures Within(toks, st, r.st) && (r.Done? ==> st.pos < r.st.pos)
    decreases |toks| - st.pos, 40
    ensures r.Done? ==> r.value.While? && r.value.body.Block?
  {
    var kw :- Consume(toks, st, KwWhile, "expected 'while'");
    var cond :- ParseExpression(toks, kw.st);
    var d :- Consume(toks, cond.st, KwDo, "expected 'do' after while condition");
    var body :- ParseBlock(toks, d.st);
    var end :- Consume(toks, body.st, KwEnd, "expected 'end' after while statement");
    Done(While(cond.v, Block(body.v)), end.st)
  }

  /** `return [expr] [;]`: a value is parsed unless a `;` follows directly. */
  function ParseReturn(toks: seq<Token>, st: PState): (r: Parsed<Stmt>)
    requires Ready(toks, st)
    ensures Within(toks, st, r.st) && (r.Done? ==> st.pos < r.st.pos)
    decreases |toks| - st.pos, 40
  {
    var kw :- Consume(toks, st, KwReturn, "expected 'return'");
    if Kind(toks, kw.st) != Semicolon then
      var e :- ParseExpression(toks, kw.st);
      Done(Return(Some(e.v)), SkipSemicolon(toks, e.st))
    else
      Done(Return(None), Advance(toks, kw.st))
  }

  /** A parenthesised parameter list body: empty, or identifiers separated by `,`. */
  function ParamList(toks: seq<Token>, st: PState): (r: Parsed<seq<Param>>)
    requires Ready(toks, st)
    ensures Within(toks, st, r.st) && r.st.errors == st.errors
    decreases |toks| - st.pos
  {
    if Kind(toks, st) == RParen then Done([], st) else ParamsLoop(toks, [], st)
  }

  function ParamsLoop(toks: seq<Token>, params: seq<Param>, st: PState): (r: Parsed<seq<Param>>)
    requires Ready(toks, st)
    ensures Within(toks, st, r.st) && r.st.errors == st.errors
    ensures r.Done? ==> params <= r.value && st.pos < r.st.pos
    decreases |toks| - st.pos
  {
    if Kind(toks, st) != Identifier then Fail(ErrorAt(toks, st, Note("expected parameter name")), st)
    else
      var params' := params + [Param(Lexeme(toks, st))];
      var st1 := Advance(toks, st);
      if Kind(toks, st1) == Comma then ParamsLoop(toks, params', Advance(toks, st1))
      else Done(params', st1)
  }

  /** `func NAME ( params )`: the part of a function declaration before its body. */
  function FuncHeader(toks: seq<Token>, st: PState): (r: Parsed<(Bytes, seq<Param>)>)
    requires Ready(toks, st)
    ensures Within(toks, st, r.st) && r.st.errors == st.errors && (r.Done? ==> st.pos < r.st.pos)
  {
    var kw :- Consume(toks, st, KwFunc, "expected 'func'");
    if Kind(toks, kw.st) != Identifier then
      Fail(ErrorAt(toks, kw.st, Note("expected function name after 'func'")), kw.st)
    else
      var name := Lexeme(toks, kw.st);
      var open :- Consume(toks, Advance(toks, kw.st), LParen, "expected '(' after function name");
      var params :- ParamList(toks, open.st);
      var close :- Consume(toks, params.st, RParen, "expected ')' after parameter list");
      Done((name, params.v), close.st)
  }

  /**
   * `func NAME(params) [: TYPE] : block end` as the declaration is written:
   * the optional return-type check takes the `:` that the body needs, so a
   * declaration without a return type is always rejected.
   */
  function ParseFuncDeclAsWritten(toks: seq<Token>, st: PState): (r: Parsed<FuncDecl>)
    requires Ready(toks, st)
    ensures Within(toks, st, r.st) && (r.Done? ==> st.pos < r.st.pos)
    decreases |toks| - st.pos, 40
    ensures r.Done? ==> r.value.body.Block?
  {
    var head :- FuncHeader(toks, st);
    var colon :- Consume(toks, SkipAnnotation(toks, head.st), Colon, "expected ':' before function body");
    FuncBody(toks, head.v, colon.st)
  }

  /**
   * `func NAME(params) [: TYPE] : block end`: the `:` before the body is
   * required; an identifier right after it is the return type, which needs
   * a second `:` before the body.
   */
  function ParseFuncDecl(toks: seq<Token>, st: PState): (r: Parsed<FuncDecl>)
    requires Ready(toks, st)
    ensures Within(toks, st, r.st) && (r.Done? ==> st.pos < r.st.pos)
    decreases |toks| - st.pos, 40
    ensures r.Done? ==> r.value.body.Block?
  {
    var head :- FuncHeader(toks, st);
    var colon :- Consume(toks, head.st, Colon, "expected ':' before function body");
    var typed :- ReturnType(toks, colon.st);
    FuncBody(toks, head.v, typed.st)
  }

  /** `block end`: the body that completes a declaration whose header is `head`. */
  function FuncBody(toks: seq<Token>, head: (Bytes, seq<Param>), st: PState): (r: Parsed<FuncDecl>)
    requires Ready(toks, st)
    ensures Within(toks, st, r.st) && (r.Done? ==> st.pos < r.st.pos)
    decreases |toks| - st.pos, 41
    ensures r.Done? ==> r.value.body.Block?
  {
    var body :- ParseBlock(toks, st);
    var end :- Consume(toks, body.st, KwEnd, "expected 'end' after function body");
    Done(FuncDecl(head.0, head.1, Block(body.v)), end.st)
  }

  /** After the first `:`, an optional return type and the `:` that then introduces the body. */
  function ReturnType(toks: seq<Token>, st: PState): (r: Parsed<()>)
    requires Ready(toks, st)
    ensures Within(toks, st, r.st) && r.st.errors == st.errors
  {
    if Kind(toks, st) == Identifier then Consume(toks, Advance(toks, st), Colon, "expected ':' before function body")
    else Done((), st)
  }

  /** `object NAME : { members } end`. */
  function ParseObjectDecl(toks: seq<Token>, st: PState): (r: Parsed<ObjectDecl>)
    requires Ready(toks, st)
    ensures Within(toks, st, r.st) && (r.Done? ==> st.pos < r.st.pos)
    decreases |toks| - st.pos, 40
  {
    var head :- ObjectHeader(toks, st);
    ObjectBody(toks, head.v, head.st)
  }

  /** `object NAME : {`: the object's name, up to the start of its members. */
  function ObjectHeader(toks: seq<Token>, st: PState): (r: Parsed<Bytes>)
    requires Ready(toks, st)
    ensures Within(toks, st, r.st) && r.st.errors == st.errors && (r.Done? ==> st.pos < r.st.pos)
  {
    var kw :- Consume(toks, st, KwObject, "expected 'object'");
    if Kind(toks, kw.st) != Identifier then
      Fail(ErrorAt(toks, kw.st, Note("expected object name after 'object'")), kw.st)
    else
      var name := Lexeme(toks, kw.st);
      var colon :- Consume(toks, Advance(toks, kw.st), Colon, "expected ':' after object name");
      var open :- Consume(toks, colon.st, LBrace, "expected '{' to start object body");
      Done(name, open.st)
  }

  /** `members } end`: the rest of an object declaration after its `{`. */
  function ObjectBody(toks: seq<Token>, name: Bytes, st: PState): (r: Parsed<ObjectDecl>)
    requires Ready(toks, st)
    ensures Within(toks, st, r.st) && (r.Done? ==> st.pos < r.st.pos)
    decreases |toks| - st.pos, 43
  {
    var members :- MembersLoop(toks, [], st);
    var close :- Consume(toks, members.st, RBrace, "expected '}' to close object body");
    var end :- Consume(toks, close.st, KwEnd, "expected 'end' after object");
    Done(ObjectDecl(name, members.v), end.st)
  }

  /** Object members up to `}` or `Eof`. */
  function MembersLoop(toks: seq<Token>, members: seq<ObjectMember>, st: PState): (r: Parsed<seq<ObjectMember>>)
    requires Ready(toks, st)
    ensures Within(toks, st, r.st)
    ensures r.Done? ==> members <= r.value && (Kind(toks, r.st) == RBrace || Kind(toks, r.st) == Eof)
    decreases |toks| - st.pos, 42
  {
    if Kind(toks, st) == RBrace || Kind(toks, st) == Eof then Done(members, st)
    else
      var m :- ParseMember(toks, st);
      MembersLoop(toks, members + [m.v], m.st)
  }

  /** One object member: `var`, `func` or `on`; anything else is an error. */
  function ParseMember(toks: seq<Token>, st: PState): (r: Parsed<ObjectMember>)
    requires Ready(toks, st)
    ensures Within(toks, st, r.st) && (r.Done? ==> st.pos < r.st.pos)
    decreases |toks| - st.pos, 41
  {
    var k := Kind(toks, st);
    if k == KwVar then
      var m :- ParseVarDecl(toks, st);
      Done(Var(m.v), m.st)
    else if k == KwFunc then
      var m :- ParseFuncDecl(toks, st);
      Done(Method(m.v), m.st)
    else if k == KwOn then
      var m :- ParseEventDecl(toks, st);
      Done(Event(m.v), m.st)
    else
      Fail(ErrorAt(toks, st, Note("expected 'var', 'func', or 'on' in object body")), st)
  }

  /** `on NAME(params): block end`. */
  function ParseEventDecl(toks: seq<Token>, st: PState): (r: Parsed<EventDecl>)
    requires Ready(toks, st)
    ensures Within(toks, st, r.st) && (r.Done? ==> st.pos < r.st.pos)
    decreases |toks| - st.pos, 40
    ensures r.Done? ==> r.value.body.Block?
  {
    var head :- EventHeader(toks, st);
    var colon :- Consume(toks, head.st, Colon, "expected ':' before event body");
    var body :- ParseBlock(toks, colon.st);
    var end :- Consume(toks, body.st, KwEnd, "expected 'end' after event body");
    Done(EventDecl(head.v.0, head.v.1, Block(body.v)), end.st)
  }

  /** `on NAME ( params )`: the part of an event declaration before its body. */
  function EventHeader(toks: seq<Token>, st: PState): (r: Parsed<(Bytes, seq<Param>)>)
    requires Ready(toks, st)
    ensures Within(toks, st, r.st) && r.st.errors == st.errors && (r.Done? ==> st.pos < r.st.pos)
  {
    var kw :- Consume(toks, st, KwOn, "expected 'on'");
    if Kind(toks, kw.st) != Identifier then
      Fail(ErrorAt(toks, kw.st, Note("expected event name after 'on'")), kw.st)
    else
      var name := Lexeme(toks, kw.st);
      var open :- Consume(toks, Advance(toks, kw.st), LParen, "expected '(' after event name");
      var params :- ParamList(toks, open.st);
      var close :- Consume(toks, params.st, RParen, "expected ')' after parameter list");
      Done((name, params.v), close.st)
  }

  /* ---------- expressions ---------- */

  /** Binary precedence levels, loosest first: or, and, equality, comparison, term, factor. */
  const FactorLevel: nat := 5

  /** The binary operator a token stands for, if any. */
  function BinaryOpOf(k: TokenKind): (r: Option<BinaryOp>)
    ensures r.Some? ==> k != Eof
  {
    if k == KwOr then Some(Or)
    else if k == KwAnd then Some(And)
    else if k == EqualEqual then Some(BinaryOp.Equal)
    else if k == BangEqual then Some(NotEqual)
    else if k == TokenKind.Less then Some(BinaryOp.Less)
    else if k == TokenKind.LessEqual then Some(BinaryOp.LessEqual)
    else if k == TokenKind.Greater then Some(BinaryOp.Greater)
    else if k == TokenKind.GreaterEqual then Some(BinaryOp.GreaterEqual)
    else if k == Plus then Some(Add)
    else if k == Minus then Some(Sub)
    else if k == Star then Some(Mul)
    else if k == Slash then Some(Div)
    else None
  }

  /** The level at which an operator is parsed: 0 `or`, 1 `and`, 2 equality, 3 comparison, 4 `+ -`, 5 `* /`. */
  function Precedence(op: BinaryOp): (r: nat)
    ensures r <= FactorLevel
  {
    match op
    case Or => 0
    case And => 1
    case Equal | NotEqual => 2
    case Less | LessEqual | Greater | GreaterEqual => 3
    case Add | Sub => 4
    case Mul | Div => FactorLevel
  }

  /** `k` spells no binary operator of precedence `level` or tighter. */
  predicate NoOpFrom(level: nat, k: TokenKind) {
    BinaryOpOf(k).None? || Precedence(BinaryOpOf(k).value) < level
  }

  /** The operator a token stands for at a precedence level, if any. */
  function LevelOp(level: nat, k: TokenKind): (r: Option<BinaryOp>)
    requires level <= FactorLevel
  {
    var op := BinaryOpOf(k);
    if op.Some? && Precedence(op.value) == level then op else None
  }

  function ParseExpression(toks: seq<Token>, st: PState): (r: Parsed<Expr>)
    requires Ready(toks, st)
    ensures Within(toks, st, r.st) && r.st.errors == st.errors && (r.Done? ==> st.pos < r.st.pos)
    ensures r.Done? ==> BinaryOpOf(Kind(toks, r.st)).None?
    decreases |toks| - st.pos, 30
  {
    ParseLevel(toks, 0, st)
  }

  /**
   * One precedence level: an operand, then any number of `op operand` pairs.
   * It stops only at a token that is no operator of this level or a tighter
   * one: every tighter operator has been taken into an operand.
   */
  function ParseLevel(toks: seq<Token>, level: nat, st: PState): (r: Parsed<Expr>)
    requires Ready(toks, st) && level <= FactorLevel
    ensures Within(toks, st, r.st) && r.st.errors == st.errors && (r.Done? ==> st.pos < r.st.pos)
    ensures r.Done? ==> NoOpFrom(level, Kind(toks, r.st))
    decreases |toks| - st.pos, 20 - 2 * level
  {
    var left :- ParseOperand(toks, level, st);
    LevelLoop(toks, level, left.v, left.st)
  }

  /** The operand of a level: the next tighter level, or a unary expression below factors. */
  function ParseOperand(toks: seq<Token>, level: nat, st: PState): (r: Parsed<Expr>)
    requires Ready(toks, st) && level <= FactorLevel
    ensures Within(toks, st, r.st) && r.st.errors == st.errors && (r.Done? ==> st.pos < r.st.pos)
    ensures r.Done? ==> NoOpFrom(level + 1, Kind(toks, r.st))
    decreases |toks| - st.pos, 19 - 2 * level
  {
    if level == FactorLevel then ParseUnary(toks, st) else ParseLevel(toks, level + 1, st)
  }

  /** The loop of one level: each operator folds the expression so far into the left operand. */
  function LevelLoop(toks: seq<Token>, level: nat, left: Expr, st: PState): (r: Parsed<Expr>)
    requires Ready(toks, st) && level <= FactorLevel
    ensures Within(toks, st, r.st) && r.st.errors == st.errors
    ensures r.Done? ==> LevelOp(level, Kind(toks, r.st)).None?
    ensures r.Done? && NoOpFrom(level + 1, Kind(toks, st)) ==> NoOpFrom(level, Kind(toks, r.st))
    decreases |toks| - st.pos, 19 - 2 * level
  {
    match LevelOp(level, Kind(toks, st))
    case None => Done(left, st)
    case Some(op) =>
      var right :- ParseOperand(toks, level, Advance(toks, st));
      LevelLoop(toks, level, Binary(left, op, right.v), right.st)
  }

  /** `-` and `not` nest to the right over a primary expression. */
  function ParseUnary(toks: seq<Token>, st: PState): (r: Parsed<Expr>)
    requires Ready(toks, st)
    ensures Within(toks, st, r.st) && r.st.errors == st.errors && (r.Done? ==> st.pos < r.st.pos)
    decreases |toks| - st.pos, 8
  {
    var k := Kind(toks, st);
    if k == Minus || k == KwNot then
      var operand :- ParseUnary(toks, Advance(toks, st));
      Done(Unary(if k == Minus then Negate else Not, operand.v), operand.st)
    else ParsePrimary(toks, st)
  }

  /** A primary expression followed by its postfix calls, fields and indexes. */
  function ParsePrimary(toks: seq<Token>, st: PState): (r: Parsed<Expr>)
    requires Ready(toks, st)
    ensures Within(toks, st, r.st) && r.st.errors == st.errors && (r.Done? ==> st.pos < r.st.pos)
    decreases |toks| - st.pos, 7
  {
    var head :- PrimaryHead(toks, st);
    PostfixLoop(toks, head.v, head.st)
  }

  /** The literal, name, parenthesised expression or table that starts a primary expression. */
  function PrimaryHead(toks: seq<Token>, st: PState): (r: Parsed<Expr>)
    requires Ready(toks, st)
    ensures Within(toks, st, r.st) && r.st.errors == st.errors && (r.Done? ==> st.pos < r.st.pos)
    decreases |toks| - st.pos, 6
  {
    var k := Kind(toks, st);
    var text := Lexeme(toks, st);
    if k == Int then Done(Lit(IntLit(ParseI64(text).GetOr(0))), Advance(toks, st))
    else if k == Float then Done(Lit(FloatLit(text)), Advance(toks, st))
    else if k == KwTrue then Done(Lit(BoolLit(true)), Advance(toks, st))
    else if k == KwFalse then Done(Lit(BoolLit(false)), Advance(toks, st))
    else if k == KwNil then Done(Lit(NilLit), Advance(toks, st))
    else if k == String then Done(Lit(StrLit(text)), Advance(toks, st))
    else if k == Identifier then Done(Ident(text), Advance(toks, st))
    else if k == LParen then
      var inner :- ParseExpression(toks, Advance(toks, st));
      var close :- Consume(toks, inner.st, RParen, "expected ')' after expression");
      Done(inner.v, close.st)
    else if k == LBrace then
      var fields :- ParseTableLiteral(toks, st);
      Done(TableLiteral(fields.v), fields.st)
    else Fail(ErrorAt(toks, st, NoPrimary(k)), st)
  }

  predicate IsPostfix(k: TokenKind) {
    k == LParen || k == Dot || k == LBracket
  }

  /** Calls, `.field` and `[index]` applied left to right. */
  function PostfixLoop(toks: seq<Token>, e: Expr, st: PState): (r: Parsed<Expr>)
    requires Ready(toks, st)
    ensures Within(toks, st, r.st) && r.st.errors == st.errors
    ensures r.Done? ==> !IsPostfix(Kind(toks, r.st))
    decreases |toks| - st.pos, 5
  {
    var k := Kind(toks, st);
    if k == LParen then
      var args :- ArgList(toks, Advance(toks, st));
      var close :- Consume(toks, args.st, RParen, "expected ')' after arguments");
      PostfixLoop(toks, Call(e, args.v), close.st)
    else if k == Dot then
      var st1 := Advance(toks, st);
      if Kind(toks, st1) != Identifier then Fail(ErrorAt(toks, st1, Note("expected field name after '.'")), st1)
      else PostfixLoop(toks, Member(e, Lexeme(toks, st1)), Advance(toks, st1))
    else if k == LBracket then
      var index :- ParseExpression(toks, Advance(toks, st));
      var close :- Consume(toks, index.st, RBracket, "expected ']' after index");
      PostfixLoop(toks, Index(e, index.v), close.st)
    else Done(e, st)
  }

  /** Call arguments: empty, or expressions separated by `,`. */
  function ArgList(toks: seq<Token>, st: PState): (r: Parsed<seq<Expr>>)
    requires Ready(toks, st)
    ensures Within(toks, st, r.st) && r.st.errors == st.errors
    decreases |toks| - st.pos, 32
  {
    if Kind(toks, st) == RParen then Done([], st) else ArgsLoop(toks, [], st)
  }

  function ArgsLoop(toks: seq<Token>, args: seq<Expr>, st: PState): (r: Parsed<seq<Expr>>)
    requires Ready(toks, st)
    ensures Within(toks, st, r.st) && r.st.errors == st.errors
    ensures r.Done? ==> args <= r.value && Kind(toks, r.st) != Comma
    decreases |toks| - st.pos, 31
  {
    var arg :- ParseExpression(toks, st);
    if Kind(toks, arg.st) == Comma then ArgsLoop(toks, args + [arg.v], Advance(toks, arg.st))
    else Done(args + [arg.v], arg.st)
  }

  /** `{ fields }`: comma-separated, a trailing comma allowed. */
  function ParseTableLiteral(toks: seq<Token>, st: PState): (r: Parsed<seq<TableField>>)
    requires Ready(toks, st)
    ensures Within(toks, st, r.st) && r.st.errors == st.errors && (r.Done? ==> st.pos < r.st.pos)
    decreases |toks| - st.pos, 5
  {
    var open :- Consume(toks, st, LBrace, "expected '{'");
    var fields :- FieldsLoop(toks, [], open.st);
    var close :- Consume(toks, fields.st, RBrace, "expected '}' to close table literal");
    Done(fields.v, close.st)
  }

  function FieldsLoop(toks: seq<Token>, fields: seq<TableField>, st: PState): (r: Parsed<seq<TableField>>)
    requires Ready(toks, st)
    ensures Within(toks, st, r.st) && r.st.errors == st.errors
    ensures r.Done? ==> fields <= r.value
    decreases |toks| - st.pos, 32
  {
    if Kind(toks, st) == RBrace || Kind(toks, st) == Eof then Done(fields, st)
    else
      var field :- ParseField(toks, st);
      if Kind(toks, field.st) == Comma then FieldsLoop(toks, fields + [field.v], Advance(toks, field.st))
      else Done(fields + [field.v], field.st)
  }

  /** `name : expr` is keyed; a bare name or any other expression is positional. */
  function ParseField(toks: seq<Token>, st: PState): (r: Parsed<TableField>)
    requires Ready(toks, st)
    ensures Within(toks, st, r.st) && r.st.errors == st.errors && (r.Done? ==> st.pos < r.st.pos)
    decreases |toks| - st.pos, 31
  {
    if Kind(toks, st) == Identifier then
      var key := Lexeme(toks, st);
      var st1 := Advance(toks, st);
      if Kind(toks, st1) == Colon then
        var value :- ParseExpression(toks, Advance(toks, st1));
        Done(KeyValue(key, value.v), value.st)
      else Done(Positional(Ident(key)), st1)
    else
      var value :- ParseExpression(toks, st);
      Done(Positional(value.v), value.st)
  }
}
