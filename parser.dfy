/**
 * The ArcScript parser as a stateful object: the current token, its index in
 * the pre-lexed stream and the list of recorded errors are fields that the
 * parsing methods update in place. Each method is proved to compute what
 * the function of the same name in `ParseSpec` states.
 */
module Parsing {
  import opened Wrappers
  import opened Text
  import opened Lexing
  import opened Ast
  import opened ParseSpec

  /** A method's result together with the state it leaves, in the shape of the spec functions. */
  function Outcome<T>(r: Result<T, ParseError>, st: PState): Parsed<T> {
    match r
    case Ok(v) => Done(v, st)
    case Err(e) => Fail(e, st)
  }

  // One unfolding of a grammar function, for the method proofs below.

  lemma IfTailUnfolds(toks: seq<Token>, cond: Expr, thenBranch: Stmt, st: PState)
    requires Ready(toks, st)
    ensures var e := ElifLoop(toks, [], st);
      IfTail(toks, cond, thenBranch, st) == if e.Fail? then Fail(e.error, e.st) else IfEnd(toks, cond, thenBranch, e.value, e.st)
  {
  }

  lemma IfEndUnfolds(toks: seq<Token>, cond: Expr, thenBranch: Stmt, elifs: seq<(Expr, Stmt)>, st: PState)
    requires Ready(toks, st)
    ensures var o := ParseElse(toks, st);
      IfEnd(toks, cond, thenBranch, elifs, st)
        == if o.Fail? then Fail(o.error, o.st)
           else var c := Consume(toks, o.st, KwEnd, "expected 'end' after if statement");
             if c.Fail? then Fail(c.error, c.st) else Done(If(cond, thenBranch, elifs, o.value), c.st)
  {
  }

  lemma BlockUnfolds(toks: seq<Token>, st: PState)
    requires Ready(toks, st)
    ensures var o := Consume(toks, st, LBrace, "expected '{' to start block");
      ParseBlock(toks, st)
        == if o.Fail? then Fail(o.error, o.st)
           else var (stmts, st1) := BlockLoop(toks, [], o.st);
             var c := Consume(toks, st1, RBrace, "expected '}' to close block");
             if c.Fail? then Fail(c.error, c.st) else Done(stmts, c.st)
  {
  }

  lemma OtherStatementUnfolds(toks: seq<Token>, st: PState)
    requires Ready(toks, st)
    ensures var k := Kind(toks, st);
      ParseOtherStatement(toks, st)
        == if k == KwFunc then
             var f := ParseFuncDecl(toks, st); if f.Fail? then Fail(f.error, f.st) else Done(Func(f.value), f.st)
           else if k == KwObject then
             var o := ParseObjectDecl(toks, st); if o.Fail? then Fail(o.error, o.st) else Done(Object(o.value), o.st)
           else if k == LBrace then
             var b := ParseBlock(toks, st); if b.Fail? then Fail(b.error, b.st) else Done(Block(b.value), b.st)
           else
             var e := ParseExpression(toks, st); if e.Fail? then Fail(e.error, e.st) else Done(ExprStmt(e.value), SkipSemicolon(toks, e.st))
  {
  }

  lemma BlockLoopUnfolds(toks: seq<Token>, stmts: seq<Stmt>, st: PState)
    requires Ready(toks, st) && Kind(toks, st) != RBrace && Kind(toks, st) != Eof
    ensures var p := ParseStatement(toks, st);
      BlockLoop(toks, stmts, st)
        == if p.Done? then BlockLoop(toks, stmts + [p.value], p.st) else BlockLoop(toks, stmts, Recover(toks, p.error, p.st))
  {
  }

  lemma MembersLoopUnfolds(toks: seq<Token>, members: seq<ObjectMember>, st: PState)
    requires Ready(toks, st) && Kind(toks, st) != RBrace && Kind(toks, st) != Eof
    ensures var m := ParseMember(toks, st);
      MembersLoop(toks, members, st)
        == if m.Fail? then Fail(m.error, m.st) else MembersLoop(toks, members + [m.value], m.st)
  {
  }

  lemma PostfixUnfolds(toks: seq<Token>, e: Expr, st: PState)
    requires Ready(toks, st) && IsPostfix(Kind(toks, st))
    ensures var k := Kind(toks, st);
      PostfixLoop(toks, e, st)
        == if k == LParen then
             var args := ArgList(toks, Advance(toks, st));
             if args.Fail? then Fail(args.error, args.st)
             else var close := Consume(toks, args.st, RParen, "expected ')' after arguments");
               if close.Fail? then Fail(close.error, close.st) else PostfixLoop(toks, Call(e, args.value), close.st)
           else if k == Dot then
             var st1 := Advance(toks, st);
             if Kind(toks, st1) != Identifier then Fail(ErrorAt(toks, st1, Note("expected field name after '.'")), st1)
             else PostfixLoop(toks, Member(e, Lexeme(toks, st1)), Advance(toks, st1))
           else
             var index := ParseExpression(toks, Advance(toks, st));
             if index.Fail? then Fail(index.error, index.st)
             else var close := Consume(toks, index.st, RBracket, "expected ']' after index");
               if close.Fail? then Fail(close.error, close.st) else PostfixLoop(toks, Index(e, index.value), close.st)
  {
  }

  lemma ElseUnfolds(toks: seq<Token>, st: PState)
    requires Ready(toks, st) && Kind(toks, st) == KwElse
    ensures var b := ParseBlock(toks, Advance(toks, st));
      ParseElse(toks, st) == if b.Fail? then Fail(b.error, b.st) else Done(Some(Block(b.value)), b.st)
  {
  }

  lemma ObjectBodyUnfolds(toks: seq<Token>, name: Bytes, st: PState)
    requires Ready(toks, st)
    ensures var m := MembersLoop(toks, [], st);
      ObjectBody(toks, name, st)
        == if m.Fail? then Fail(m.error, m.st)
           else var c := Consume(toks, m.st, RBrace, "expected '}' to close object body");
             if c.Fail? then Fail(c.error, c.st)
             else var e := Consume(toks, c.st, KwEnd, "expected 'end' after object");
               if e.Fail? then Fail(e.error, e.st) else Done(ObjectDecl(name, m.value), e.st)
  {
  }

  class Parser {
    const tokens: seq<Token>
    var pos: nat
    var current: Token
    var errors: seq<ParseError>

    ghost predicate Valid()
      reads this
    {
      WellFormed(tokens) && pos < |tokens| && current == tokens[pos]
    }

    function State(): PState
      reads this
    {
      PState(pos, errors)
    }

    /** A parser positioned on the first token, with no errors recorded. */
    constructor (tokens: seq<Token>)
      requires WellFormed(tokens)
      ensures Valid() && this.tokens == tokens && State() == PState(0, [])
    {
      this.tokens := tokens;
      pos := 0;
      current := tokens[0];
      errors := [];
    }

    function Error(m: Message): ParseError
      reads this
      requires Valid()
    {
      ErrorAt(tokens, State(), m)
    }

    method Advance()
      requires Valid()
      modifies this`pos, this`current
      ensures Valid() && State() == ParseSpec.Advance(tokens, old(State()))
    {
      if pos + 1 < |tokens| {
        pos := pos + 1;
        current := tokens[pos];
      }
    }

    method Consume(kind: TokenKind, context: string) returns (r: Result<(), ParseError>)
      requires Valid()
      modifies this`pos, this`current
      ensures Valid() && Outcome(r, State()) == ParseSpec.Consume(tokens, old(State()), kind, context)
    {
      if current.kind == kind {
        Advance();
        r := Ok(());
      } else {
        r := Err(Error(Expected(kind, context)));
      }
    }

    method SkipSemicolon()
      requires Valid()
      modifies this`pos, this`current
      ensures Valid() && State() == ParseSpec.SkipSemicolon(tokens, old(State()))
    {
      if current.kind == Semicolon {
        Advance();
      }
    }

    method SkipAnnotation()
      requires Valid()
      modifies this`pos, this`current
      ensures Valid() && State() == ParseSpec.SkipAnnotation(tokens, old(State()))
    {
      if current.kind == Colon {
        Advance();
        if current.kind == Identifier {
          Advance();
        }
      }
    }

    method Synchronize()
      requires Valid()
      modifies this`pos, this`current
      ensures Valid() && State() == ParseSpec.Synchronize(tokens, old(State()))
    {
      Advance();
      while current.kind != Eof
        invariant Valid() && SyncLoop(tokens, State()) == ParseSpec.Synchronize(tokens, old(State()))
        decreases |tokens| - pos
      {
        if current.kind == Semicolon {
          Advance();
          return;
        } else if StartsStatement(current.kind) {
          return;
        }
        Advance();
      }
    }

    /** Parses statements up to `Eof`; the program if no error was recorded, else all errors, which are cleared. */
    method ParseProgram() returns (r: Result<Program, seq<ParseError>>)
      requires Valid()
      modifies this
      ensures Valid() && (r, State()) == ParseProgramAt(tokens, old(State()))
    {
      var body := ParseProgramBody();
      if errors == [] {
        r := Ok(Program(body));
      } else {
        r := Err(errors);
        errors := [];
      }
    }

    /** The statement loop of a program: each failing statement is recorded and skipped. */
    method ParseProgramBody() returns (body: seq<Stmt>)
      requires Valid()
      modifies this
      ensures Valid() && (body, State()) == ProgramLoop(tokens, [], old(State()))
    {
      body := [];
      while current.kind != Eof
        invariant Valid() && ProgramLoop(tokens, body, State()) == ProgramLoop(tokens, [], old(State()))
        decreases |tokens| - pos
      {
        ghost var before, body0 := State(), body;
        var s := ParseStatement();
        match s
        case Ok(stmt) =>
          body := body + [stmt];
          assert ProgramLoop(tokens, body0, before) == ProgramLoop(tokens, body, State());
        case Err(e) =>
          ghost var failed := State();
          errors := errors + [e];
          Synchronize();
          assert State() == Recover(tokens, e, failed);
          assert ProgramLoop(tokens, body0, before) == ProgramLoop(tokens, body, State());
      }
    }

    method ParseStatement() returns (r: Result<Stmt, ParseError>)
      requires Valid()
      modifies this
      ensures Valid() && Outcome(r, State()) == ParseSpec.ParseStatement(tokens, old(State()))
      decreases |tokens| - pos, 45
    {
      var k := current.kind;
      if k == KwVar {
        r := ParseVarDecl();
      } else if k == KwIf {
        r := ParseIf();
      } else if k == KwWhile {
        r := ParseWhile();
      } else if k == KwReturn {
        r := ParseReturn();
      } else {
        r := ParseOtherStatement();
      }
    }

    method ParseOtherStatement() returns (r: Result<Stmt, ParseError>)
      requires Valid()
      modifies this
      ensures Valid() && Outcome(r, State()) == ParseSpec.ParseOtherStatement(tokens, old(State()))
      decreases |tokens| - pos, 44
    {
      OtherStatementUnfolds(tokens, State());
      var k := current.kind;
      if k == KwFunc {
        var f :- ParseFuncDecl();
        r := Ok(Func(f));
      } else if k == KwObject {
        var o :- ParseObjectDecl();
        r := Ok(Object(o));
      } else if k == LBrace {
        var b :- ParseBlock();
        r := Ok(Block(b));
      } else {
        var e :- ParseExpression();
        SkipSemicolon();
        r := Ok(ExprStmt(e));
      }
    }

    method ParseVarDecl() returns (r: Result<Stmt, ParseError>)
      requires Valid() && current.kind == KwVar
      modifies this
      ensures Valid() && Outcome(r, State()) == ParseSpec.ParseVarDecl(tokens, old(State()))
      decreases |tokens| - pos, 40
    {
      Advance();
      if current.kind != Identifier {
        return Err(Error(Note("expected identifier after 'var'")));
      }
      var name := current.lexeme;
      Advance();
      SkipAnnotation();
      var _ :- Consume(TokenKind.Equal, "expected '=' in var declaration");
      var init :- ParseExpression();
      SkipSemicolon();
      r := Ok(VarDecl(name, init));
    }

    method ParseBlock() returns (r: Result<seq<Stmt>, ParseError>)
      requires Valid()
      modifies this
      ensures Valid() && Outcome(r, State()) == ParseSpec.ParseBlock(tokens, old(State()))
      decreases |tokens| - pos, 40
    {
      BlockUnfolds(tokens, State());
      var _ :- Consume(LBrace, "expected '{' to start block");
      ghost var start := State();
      var stmts := ParseStatements();
      assert (stmts, State()) == BlockLoop(tokens, [], start);
      var _ :- Consume(RBrace, "expected '}' to close block");
      r := Ok(stmts);
    }

    /** The statement loop of a block: each failing statement is recorded and skipped. */
    method ParseStatements() returns (stmts: seq<Stmt>)
      requires Valid()
      modifies this
      ensures Valid() && (stmts, State()) == BlockLoop(tokens, [], old(State()))
      decreases |tokens| - pos, 50
    {
      stmts := [];
      while current.kind != RBrace && current.kind != Eof
        invariant Valid() && BlockLoop(tokens, stmts, State()) == BlockLoop(tokens, [], old(State()))
        decreases |tokens| - pos
      {
        ghost var before, stmts0 := State(), stmts;
        BlockLoopUnfolds(tokens, stmts, before);
        var s := ParseStatement();
        match s
        case Ok(stmt) =>
          stmts := stmts + [stmt];
          assert BlockLoop(tokens, stmts0, before) == BlockLoop(tokens, stmts, State());
        case Err(e) =>
          ghost var failed := State();
          errors := errors + [e];
          Synchronize();
          assert State() == Recover(tokens, e, failed);
          assert BlockLoop(tokens, stmts0, before) == BlockLoop(tokens, stmts, State());
      }
    }

    method ParseIf() returns (r: Result<Stmt, ParseError>)
      requires Valid()
      modifies this
      ensures Valid() && Outcome(r, State()) == ParseSpec.ParseIf(tokens, old(State()))
      decreases |tokens| - pos, 40
    {
      var _ :- Consume(KwIf, "expected 'if'");
      var cond :- ParseExpression();
      var _ :- Consume(KwThen, "expected 'then' after if condition");
      var body :- ParseBlock();
      r := ParseIfTail(cond, Block(body));
    }

    method ParseIfTail(cond: Expr, thenBranch: Stmt) returns (r: Result<Stmt, ParseError>)
      requires Valid()
      modifies this
      ensures Valid() && Outcome(r, State()) == IfTail(tokens, cond, thenBranch, old(State()))
      decreases |tokens| - pos, 42
    {
      IfTailUnfolds(tokens, cond, thenBranch, State());
      var elifs :- ParseElifs();
      r := ParseIfEnd(cond, thenBranch, elifs);
    }

    method ParseIfEnd(cond: Expr, thenBranch: Stmt, elifs: seq<(Expr, Stmt)>) returns (r: Result<Stmt, ParseError>)
      requires Valid()
      modifies this
      ensures Valid() && Outcome(r, State()) == IfEnd(tokens, cond, thenBranch, elifs, old(State()))
      decreases |tokens| - pos, 41
    {
      IfEndUnfolds(tokens, cond, thenBranch, elifs, State());
      var other :- ParseElse();
      var _ :- Consume(KwEnd, "expected 'end' after if statement");
      r := Ok(If(cond, thenBranch, elifs, other));
    }

    /** The `elif` clauses of an `if`, in source order. */
    method ParseElifs() returns (r: Result<seq<(Expr, Stmt)>, ParseError>)
      requires Valid()
      modifies this
      ensures Valid() && Outcome(r, State()) == ElifLoop(tokens, [], old(State()))
      decreases |tokens| - pos, 40
    {
      ghost var start := State();
      var elifs := [];
      while current.kind == KwElif
        invariant Valid() && Within(tokens, start, State())
        invariant ElifLoop(tokens, elifs, State()) == ElifLoop(tokens, [], start)
        decreases |tokens| - pos
      {
        var clause :- ParseElifClause();
        elifs := elifs + [clause];
      }
      r := Ok(elifs);
    }

    /** One `elif cond then block` clause. */
    method ParseElifClause() returns (r: Result<(Expr, Stmt), ParseError>)
      requires Valid() && current.kind == KwElif
      modifies this
      ensures Valid() && Outcome(r, State()) == ElifClause(tokens, old(State()))
      decreases |tokens| - pos, 39
    {
      Advance();
      var cond :- ParseExpression();
      var _ :- Consume(KwThen, "expected 'then' after elif condition");
      var block :- ParseBlock();
      r := Ok((cond, Block(block)));
    }

    /** An optional `else` block. */
    method ParseElse() returns (r: Result<Option<Stmt>, ParseError>)
      requires Valid()
      modifies this
      ensures Valid() && Outcome(r, State()) == ParseSpec.ParseElse(tokens, old(State()))
      decreases |tokens| - pos, 40
    {
      if current.kind != KwElse {
        return Ok(None);
      }
      ElseUnfolds(tokens, State());
      Advance();
      var block :- ParseBlock();
      r := Ok(Some(Block(block)));
    }

    method ParseWhile() returns (r: Result<Stmt, ParseError>)
      requires Valid()
      modifies this
      ensures Valid() && Outcome(r, State()) == ParseSpec.ParseWhile(tokens, old(State()))
      decreases |tokens| - pos, 40
    {
      var _ :- Consume(KwWhile, "expected 'while'");
      var cond :- ParseExpression();
      var _ :- Consume(KwDo, "expected 'do' after while condition");
      var body :- ParseBlock();
      var _ :- Consume(KwEnd, "expected 'end' after while statement");
      r := Ok(While(cond, Block(body)));
    }

    method ParseReturn() returns (r: Result<Stmt, ParseError>)
      requires Valid()
      modifies this
      ensures Valid() && Outcome(r, State()) == ParseSpec.ParseReturn(tokens, old(State()))
      decreases |tokens| - pos, 40
    {
      var _ :- Consume(KwReturn, "expected 'return'");
      var value: Option<Expr> := None;
      if current.kind != Semicolon {
        var e :- ParseExpression();
        value := Some(e);
      }
      SkipSemicolon();
      r := Ok(Return(value));
    }

    /** A parameter list between `(` and `)`: identifiers separated by `,`. */
    method ParseParams() returns (r: Result<seq<Param>, ParseError>)
      requires Valid()
      modifies this`pos, this`current
      ensures Valid() && Outcome(r, State()) == ParamList(tokens, old(State()))
    {
      var params := [];
      if current.kind != RParen {
        while true
          invariant Valid() && ParamsLoop(tokens, params, State()) == ParamList(tokens, old(State()))
          decreases |tokens| - pos
        {
          if current.kind != Identifier {
            return Err(Error(Note("expected parameter name")));
          }
          params := params + [Param(current.lexeme)];
          Advance();
          if current.kind == Comma {
            Advance();
            continue;
          }
          break;
        }
      }
      r := Ok(params);
    }

    /** `func NAME(params) [: TYPE] : block end`, with the return type read after the body's `:`. */
    method ParseFuncDecl() returns (r: Result<FuncDecl, ParseError>)
      requires Valid()
      modifies this
      ensures Valid() && Outcome(r, State()) == ParseSpec.ParseFuncDecl(tokens, old(State()))
      decreases |tokens| - pos, 40
    {
      var head :- ParseFuncHeader();
      var _ :- Consume(Colon, "expected ':' before function body");
      if current.kind == Identifier {
        Advance();
        var _ :- Consume(Colon, "expected ':' before function body");
      }
      r := ParseFuncBody(head.0, head.1);
    }

    method ParseFuncHeader() returns (r: Result<(Bytes, seq<Param>), ParseError>)
      requires Valid()
      modifies this`pos, this`current
      ensures Valid() && Outcome(r, State()) == FuncHeader(tokens, old(State()))
    {
      var _ :- Consume(KwFunc, "expected 'func'");
      if current.kind != Identifier {
        return Err(Error(Note("expected function name after 'func'")));
      }
      var name := current.lexeme;
      Advance();
      var _ :- Consume(LParen, "expected '(' after function name");
      var params :- ParseParams();
      var _ :- Consume(RParen, "expected ')' after parameter list");
      r := Ok((name, params));
    }

    method ParseFuncBody(name: Bytes, params: seq<Param>) returns (r: Result<FuncDecl, ParseError>)
      requires Valid()
      modifies this
      ensures Valid() && Outcome(r, State()) == FuncBody(tokens, (name, params), old(State()))
      decreases |tokens| - pos, 41
    {
      var body :- ParseBlock();
      var _ :- Consume(KwEnd, "expected 'end' after function body");
      r := Ok(FuncDecl(name, params, Block(body)));
    }

    method ParseObjectDecl() returns (r: Result<ObjectDecl, ParseError>)
      requires Valid()
      modifies this
      ensures Valid() && Outcome(r, State()) == ParseSpec.ParseObjectDecl(tokens, old(State()))
      decreases |tokens| - pos, 40
    {
      var name :- ParseObjectHeader();
      r := ParseObjectBody(name);
    }

    method ParseObjectHeader() returns (r: Result<Bytes, ParseError>)
      requires Valid()
      modifies this`pos, this`current
      ensures Valid() && Outcome(r, State()) == ObjectHeader(tokens, old(State()))
    {
      var _ :- Consume(KwObject, "expected 'object'");
      if current.kind != Identifier {
        return Err(Error(Note("expected object name after 'object'")));
      }
      var name := current.lexeme;
      Advance();
      var _ :- Consume(Colon, "expected ':' after object name");
      var _ :- Consume(LBrace, "expected '{' to start object body");
      r := Ok(name);
    }

    method ParseObjectBody(name: Bytes) returns (r: Result<ObjectDecl, ParseError>)
      requires Valid()
      modifies this
      ensures Valid() && Outcome(r, State()) == ObjectBody(tokens, name, old(State()))
      decreases |tokens| - pos, 43
    {
      ObjectBodyUnfolds(tokens, name, State());
      var members :- ParseMembers();
      var _ :- Consume(RBrace, "expected '}' to close object body");
      var _ :- Consume(KwEnd, "expected 'end' after object");
      r := Ok(ObjectDecl(name, members));
    }

    /** Object members up to `}` or `Eof`; anything but `var`, `func` or `on` is an error. */
    method ParseMembers() returns (r: Result<seq<ObjectMember>, ParseError>)
      requires Valid()
      modifies this
      ensures Valid() && Outcome(r, State()) == MembersLoop(tokens, [], old(State()))
      decreases |tokens| - pos, 42
    {
      ghost var start := State();
      var members := [];
      while current.kind != RBrace && current.kind != Eof
        invariant Valid() && Within(tokens, start, State())
        invariant MembersLoop(tokens, members, State()) == MembersLoop(tokens, [], start)
        decreases |tokens| - pos
      {
        MembersLoopUnfolds(tokens, members, State());
        if current.kind == KwVar {
          var v :- ParseVarDecl();
          members := members + [Var(v)];
        } else if current.kind == KwFunc {
          var f :- ParseFuncDecl();
          members := members + [Method(f)];
        } else if current.kind == KwOn {
          var e :- ParseEventDecl();
          members := members + [Event(e)];
        } else {
          return Err(Error(Note("expected 'var', 'func', or 'on' in object body")));
        }
      }
      r := Ok(members);
    }

    method ParseEventDecl() returns (r: Result<EventDecl, ParseError>)
      requires Valid()
      modifies this
      ensures Valid() && Outcome(r, State()) == ParseSpec.ParseEventDecl(tokens, old(State()))
      decreases |tokens| - pos, 40
    {
      var head :- ParseEventHeader();
      var _ :- Consume(Colon, "expected ':' before event body");
      var body :- ParseBlock();
      var _ :- Consume(KwEnd, "expected 'end' after event body");
      r := Ok(EventDecl(head.0, head.1, Block(body)));
    }

    method ParseEventHeader() returns (r: Result<(Bytes, seq<Param>), ParseError>)
      requires Valid()
      modifies this`pos, this`current
      ensures Valid() && Outcome(r, State()) == EventHeader(tokens, old(State()))
    {
      var _ :- Consume(KwOn, "expected 'on'");
      if current.kind != Identifier {
        return Err(Error(Note("expected event name after 'on'")));
      }
      var name := current.lexeme;
      Advance();
      var _ :- Consume(LParen, "expected '(' after event name");
      var params :- ParseParams();
      var _ :- Consume(RParen, "expected ')' after parameter list");
      r := Ok((name, params));
    }

    method ParseExpression() returns (r: Result<Expr, ParseError>)
      requires Valid()
      modifies this`pos, this`current
      ensures Valid() && Outcome(r, State()) == ParseSpec.ParseExpression(tokens, old(State()))
      decreases |tokens| - pos, 30
    {
      r := ParseLevel(0);
    }

    /**
     * `parse_or`, `parse_and`, `parse_equality`, `parse_comparison`,
     * `parse_term` and `parse_factor`: one loop per precedence level that
     * folds each operator and its right operand into the left operand.
     */
    method ParseLevel(level: nat) returns (r: Result<Expr, ParseError>)
      requires Valid() && level <= FactorLevel
      modifies this`pos, this`current
      ensures Valid() && Outcome(r, State()) == ParseSpec.ParseLevel(tokens, level, old(State()))
      decreases |tokens| - pos, 20 - 2 * level
    {
      var left :- ParseOperand(level);
      while LevelOp(level, current.kind).Some?
        invariant Valid() && LevelLoop(tokens, level, left, State()) == ParseSpec.ParseLevel(tokens, level, old(State()))
        decreases |tokens| - pos
      {
        var op := LevelOp(level, current.kind).value;
        Advance();
        var right :- ParseOperand(level);
        left := Binary(left, op, right);
      }
      r := Ok(left);
    }

    method ParseOperand(level: nat) returns (r: Result<Expr, ParseError>)
      requires Valid() && level <= FactorLevel
      modifies this`pos, this`current
      ensures Valid() && Outcome(r, State()) == ParseSpec.ParseOperand(tokens, level, old(State()))
      decreases |tokens| - pos, 19 - 2 * level
    {
      if level == FactorLevel {
        r := ParseUnary();
      } else {
        r := ParseLevel(level + 1);
      }
    }

    method ParseUnary() returns (r: Result<Expr, ParseError>)
      requires Valid()
      modifies this`pos, this`current
      ensures Valid() && Outcome(r, State()) == ParseSpec.ParseUnary(tokens, old(State()))
      decreases |tokens| - pos, 8
    {
      if current.kind == Minus {
        Advance();
        var operand :- ParseUnary();
        r := Ok(Unary(Negate, operand));
      } else if current.kind == KwNot {
        Advance();
        var operand :- ParseUnary();
        r := Ok(Unary(Not, operand));
      } else {
        r := ParsePrimary();
      }
    }

    method ParsePrimary() returns (r: Result<Expr, ParseError>)
      requires Valid()
      modifies this`pos, this`current
      ensures Valid() && Outcome(r, State()) == ParseSpec.ParsePrimary(tokens, old(State()))
      decreases |tokens| - pos, 7
    {
      var e :- ParseHead();
      while IsPostfix(current.kind)
        invariant Valid() && PostfixLoop(tokens, e, State()) == ParseSpec.ParsePrimary(tokens, old(State()))
        decreases |tokens| - pos
      {
        PostfixUnfolds(tokens, e, State());
        if current.kind == LParen {
          Advance();
          var args :- ParseArguments();
          var _ :- Consume(RParen, "expected ')' after arguments");
          e := Call(e, args);
        } else if current.kind == Dot {
          Advance();
          if current.kind != Identifier {
            return Err(Error(Note("expected field name after '.'")));
          }
          e := Member(e, current.lexeme);
          Advance();
        } else {
          Advance();
          var index :- ParseExpression();
          var _ :- Consume(RBracket, "expected ']' after index");
          e := Index(e, index);
        }
      }
      r := Ok(e);
    }

    /** The literal, name, parenthesised expression or table that starts a primary expression. */
    method ParseHead() returns (r: Result<Expr, ParseError>)
      requires Valid()
      modifies this`pos, this`current
      ensures Valid() && Outcome(r, State()) == PrimaryHead(tokens, old(State()))
      decreases |tokens| - pos, 6
    {
      var k := current.kind;
      var text := current.lexeme;
      if k == LParen {
        Advance();
        var inner :- ParseExpression();
        var _ :- Consume(RParen, "expected ')' after expression");
        r := Ok(inner);
      } else if k == LBrace {
        var fields :- ParseTableLiteral();
        r := Ok(TableLiteral(fields));
      } else if k in {Int, Float, KwTrue, KwFalse, KwNil, String, Identifier} {
        r := Ok(
          if k == Int then Lit(IntLit(ParseI64(text).GetOr(0)))
          else if k == Float then Lit(FloatLit(text))
          else if k == KwTrue then Lit(BoolLit(true))
          else if k == KwFalse then Lit(BoolLit(false))
          else if k == KwNil then Lit(NilLit)
          else if k == String then Lit(StrLit(text))
          else Ident(text));
        Advance();
      } else {
        r := Err(Error(NoPrimary(k)));
      }
    }

    /** Call arguments after `(`: empty, or expressions separated by `,`. */
    method ParseArguments() returns (r: Result<seq<Expr>, ParseError>)
      requires Valid()
      modifies this`pos, this`current
      ensures Valid() && Outcome(r, State()) == ArgList(tokens, old(State()))
      decreases |tokens| - pos, 32
    {
      var args := [];
      if current.kind != RParen {
        while true
          invariant Valid() && ArgsLoop(tokens, args, State()) == ArgList(tokens, old(State()))
          decreases |tokens| - pos
        {
          var arg :- ParseExpression();
          args := args + [arg];
          if current.kind == Comma {
            Advance();
            continue;
          }
          break;
        }
      }
      r := Ok(args);
    }

    method ParseTableLiteral() returns (r: Result<seq<TableField>, ParseError>)
      requires Valid()
      modifies this`pos, this`current
      ensures Valid() && Outcome(r, State()) == ParseSpec.ParseTableLiteral(tokens, old(State()))
      decreases |tokens| - pos, 5
    {
      var _ :- Consume(LBrace, "expected '{'");
      ghost var start := State();
      var fields := [];
      while current.kind != RBrace && current.kind != Eof
        invariant Valid() && Within(tokens, start, State())
        invariant FieldsLoop(tokens, fields, State()) == FieldsLoop(tokens, [], start)
        decreases |tokens| - pos
      {
        var field :- ParseField();
        fields := fields + [field];
        if current.kind == Comma {
          Advance();
        } else {
          break;
        }
      }
      var _ :- Consume(RBrace, "expected '}' to close table literal");
      r := Ok(fields);
    }

    /** `name : expr` is keyed; a bare name or any other expression is positional. */
    method ParseField() returns (r: Result<TableField, ParseError>)
      requires Valid()
      modifies this`pos, this`current
      ensures Valid() && Outcome(r, State()) == ParseSpec.ParseField(tokens, old(State()))
      decreases |tokens| - pos, 31
    {
      if current.kind == Identifier {
        var key := current.lexeme;
        Advance();
        if current.kind == Colon {
          Advance();
          var value :- ParseExpression();
          r := Ok(KeyValue(key, value));
        } else {
          r := Ok(Positional(Ident(key)));
        }
      } else {
        var value :- ParseExpression();
        r := Ok(Positional(value));
      }
    }
  }

  /** Lexes and parses a whole source text, as the interpreter's caller does. */
  method ParseSource(source: Bytes) returns (r: Result<Program, seq<ParseError>>)
    ensures r == ParseProgram(Tokenize(source))
  {
    var tokens := LexAll(source);
    var parser := new Parser(tokens);
    r := parser.ParseProgram();
  }
}
