/**
 * What the parser guarantees: error recovery, the shape of the expression
 * trees it builds (precedence, left associativity, unary and postfix
 * nesting), table literals, optional syntax, and the function-declaration
 * defect together with its correction.
 */
module ParserProperties {
  import opened Wrappers
  import opened Text
  import opened Lexing
  import opened Ast
  import opened ParseSpec

  /* ---------- programs and recovery ---------- */

  /**
   * `parse_program` succeeds exactly when no error was recorded; otherwise it
   * returns the whole list, which is never empty, and clears it.
   */
  lemma ProgramOkIffNoErrors(toks: seq<Token>, st: PState)
    requires Ready(toks, st)
    ensures var (r, st1) := ParseProgramAt(toks, st);
            var recorded := ProgramLoop(toks, [], st).1.errors;
            && (r.Ok? <==> recorded == [])
            && (r.Err? ==> r.error == recorded && r.error != [])
            && st1.errors == []
            && st.errors <= recorded
  {
  }

  /**
   * A statement that fails is recorded right after the errors recorded
   * before and inside it, and kept to the end.
   */
  lemma FailedStatementIsReported(toks: seq<Token>, body: seq<Stmt>, st: PState)
    requires Ready(toks, st) && Kind(toks, st) != Eof && ParseStatement(toks, st).Fail?
    ensures var f := ParseStatement(toks, st);
            var recorded := ProgramLoop(toks, body, st).1.errors;
            st.errors <= f.st.errors && |f.st.errors| < |recorded| && recorded[|f.st.errors|] == f.error
  {
    var f := ParseStatement(toks, st);
    var next := Recover(toks, f.error, f.st);
    assert ProgramLoop(toks, body, st) == ProgramLoop(toks, body, next);
    assert next.errors <= ProgramLoop(toks, body, next).1.errors;
  }

  predicate StopsSync(k: TokenKind) {
    k == Eof || StartsStatement(k)
  }

  /**
   * Scanning from offset `a` stopped at `r`: either at a statement keyword or
   * `Eof`, or just after a `;`, with neither met on the way.
   */
  ghost predicate SyncedAt(toks: seq<Token>, a: nat, r: PState)
    requires r.pos < |toks|
  {
    || (StopsSync(Kind(toks, r)) && forall i | a <= i < r.pos :: !StopsSync(toks[i].kind) && toks[i].kind != Semicolon)
    || (a < r.pos && toks[r.pos - 1].kind == Semicolon
        && forall i | a <= i < r.pos - 1 :: !StopsSync(toks[i].kind) && toks[i].kind != Semicolon)
  }

  lemma {:induction false} SyncLoopStops(toks: seq<Token>, st: PState)
    requires Ready(toks, st)
    ensures SyncedAt(toks, st.pos, SyncLoop(toks, st))
    decreases |toks| - st.pos
  {
    var k := Kind(toks, st);
    if StopsSync(k) {
      assert SyncLoop(toks, st) == st;
    } else if k == Semicolon {
      assert SyncLoop(toks, st) == Advance(toks, st);
    } else {
      var s1 := Advance(toks, st);
      assert SyncLoop(toks, st) == SyncLoop(toks, s1);
      SyncLoopStops(toks, s1);
      SyncedBefore(toks, st.pos, SyncLoop(toks, s1));
    }
  }

  /** A token that neither stops nor ends the scan can be put in front of it. */
  lemma SyncedBefore(toks: seq<Token>, a: nat, r: PState)
    requires r.pos < |toks| && a < r.pos && !StopsSync(toks[a].kind) && toks[a].kind != Semicolon
    requires SyncedAt(toks, a + 1, r)
    ensures SyncedAt(toks, a, r)
  {
    if StopsSync(Kind(toks, r)) && forall i | a + 1 <= i < r.pos :: !StopsSync(toks[i].kind) && toks[i].kind != Semicolon {
      assert forall i | a <= i < r.pos :: !StopsSync(toks[i].kind) && toks[i].kind != Semicolon;
    } else {
      assert forall i | a <= i < r.pos - 1 :: !StopsSync(toks[i].kind) && toks[i].kind != Semicolon;
    }
  }

  /**
   * `synchronize` always skips the current token unless it is the final
   * `Eof`, then stops just after the first `;`, or at the first statement
   * keyword or `Eof`, whichever comes first.
   */
  lemma SynchronizeStops(toks: seq<Token>, st: PState)
    requires Ready(toks, st)
    ensures st.pos + 1 < |toks| ==> st.pos < Synchronize(toks, st).pos
    ensures SyncedAt(toks, Advance(toks, st).pos, Synchronize(toks, st))
  {
    SyncLoopStops(toks, Advance(toks, st));
  }

  /* ---------- precedence and associativity ---------- */

  /** `left op1 e1 op2 e2 ...` grouped to the left. */
  function FoldLeft(left: Expr, rest: seq<(BinaryOp, Expr)>): Expr
    decreases |rest|
  {
    if rest == [] then left else FoldLeft(Binary(left, rest[0].0, rest[0].1), rest[1..])
  }

  /** From `st` to `end` the tokens are `op operand` pairs of `level` that parse to `rest`. */
  ghost predicate Chain(toks: seq<Token>, level: nat, st: PState, rest: seq<(BinaryOp, Expr)>, end: PState)
    requires Ready(toks, st) && level <= FactorLevel
    decreases |rest|
  {
    if rest == [] then end == st
    else
      && LevelOp(level, Kind(toks, st)) == Some(rest[0].0)
      && var r := ParseOperand(toks, level, Advance(toks, st));
         r.Done? && r.value == rest[0].1 && Chain(toks, level, r.st, rest[1..], end)
  }

  lemma {:induction false} LevelLoopFoldsLeft(toks: seq<Token>, level: nat, left: Expr, st: PState, rest: seq<(BinaryOp, Expr)>, end: PState)
    requires Ready(toks, st) && level <= FactorLevel && end.pos < |toks|
    requires Chain(toks, level, st, rest, end) && LevelOp(level, Kind(toks, end)).None?
    ensures LevelLoop(toks, level, left, st) == Done(FoldLeft(left, rest), end)
    decreases |rest|
  {
    if rest != [] {
      var r := ParseOperand(toks, level, Advance(toks, st));
      LevelLoopFoldsLeft(toks, level, Binary(left, rest[0].0, rest[0].1), r.st, rest[1..], end);
    }
  }

  /**
   * Left associativity: operators of one precedence level, with operands
   * parsed at the next tighter level, group to the left — `a - b - c` is
   * `(a - b) - c`.
   */
  lemma LevelFoldsLeft(toks: seq<Token>, level: nat, st: PState, first: Expr, mid: PState, rest: seq<(BinaryOp, Expr)>, end: PState)
    requires Ready(toks, st) && level <= FactorLevel && end.pos < |toks|
    requires ParseOperand(toks, level, st) == Done(first, mid)
    requires Chain(toks, level, mid, rest, end) && LevelOp(level, Kind(toks, end)).None?
    ensures ParseLevel(toks, level, st) == Done(FoldLeft(first, rest), end)
  {
    LevelLoopFoldsLeft(toks, level, first, mid, rest, end);
  }

  /** Having no operator from `level` on rules out this level's operators and leaves none from the next. */
  lemma NoOpBelow(level: nat, k: TokenKind)
    requires level <= FactorLevel && NoOpFrom(level, k)
    ensures LevelOp(level, k).None? && NoOpFrom(level + 1, k)
  {
  }

  /**
   * A `+`/`-` level expression followed by no operator at all is the whole
   * expression: the comparison, equality, `and` and `or` levels add nothing.
   */
  lemma TermIsExpression(toks: seq<Token>, st: PState, e: Expr, end: PState)
    requires Ready(toks, st) && ParseLevel(toks, 4, st) == Done(e, end) && NoOpFrom(0, Kind(toks, end))
    ensures ParseExpression(toks, st) == Done(e, end)
  {
    TermIsLevel(toks, 0, st, e, end);
  }

  /** The same for every level from `level` up to that of `+` and `-`. */
  lemma {:induction false} TermIsLevel(toks: seq<Token>, level: nat, st: PState, e: Expr, end: PState)
    requires Ready(toks, st) && level <= 4 && ParseLevel(toks, 4, st) == Done(e, end) && NoOpFrom(0, Kind(toks, end))
    ensures ParseLevel(toks, level, st) == Done(e, end)
    decreases 4 - level
  {
    if level < 4 {
      TermIsLevel(toks, level + 1, st, e, end);
      LevelPassesUp(toks, level, st, e, end);
    }
  }

  /** A level none of whose operators follows the next level's expression is that expression. */
  lemma LevelPassesUp(toks: seq<Token>, level: nat, st: PState, e: Expr, end: PState)
    requires Ready(toks, st) && level < FactorLevel
    requires ParseLevel(toks, level + 1, st) == Done(e, end) && LevelOp(level, Kind(toks, end)).None?
    ensures ParseLevel(toks, level, st) == Done(e, end)
  {
    LevelIsOperand(toks, level, st);
  }

  /** A level whose operator does not follow its operand is that operand. */
  lemma LevelIsOperand(toks: seq<Token>, level: nat, st: PState)
    requires Ready(toks, st) && level <= FactorLevel
    requires var r := ParseOperand(toks, level, st); r.Done? && LevelOp(level, Kind(toks, r.st)).None?
    ensures ParseLevel(toks, level, st) == ParseOperand(toks, level, st)
  {
  }

  /* ---------- building blocks for concrete token streams ---------- */

  function Tok(k: TokenKind): Token {
    Token(k, [], 1, 1)
  }

  function Name(b: byte): Token {
    Token(Identifier, [b], 1, 1)
  }

  /** The expression a single literal or name token parses to. */
  function Atom(t: Token): (r: Option<Expr>)
    ensures r.Some? ==> t.kind != Eof && !IsPostfix(t.kind) && t.kind != LParen && t.kind != LBrace
  {
    if t.kind == Identifier then Some(Ident(t.lexeme))
    else if t.kind == String then Some(Lit(StrLit(t.lexeme)))
    else if t.kind == Int then Some(Lit(IntLit(ParseI64(t.lexeme).GetOr(0))))
    else None
  }

  lemma AtomUnary(toks: seq<Token>, st: PState)
    requires Ready(toks, st) && Atom(toks[st.pos]).Some?
    requires st.pos + 1 < |toks| && !IsPostfix(toks[st.pos + 1].kind)
    ensures ParseUnary(toks, st) == Done(Atom(toks[st.pos]).value, st.(pos := st.pos + 1))
  {
    var st1 := st.(pos := st.pos + 1);
    var atom := Atom(toks[st.pos]).value;
    assert Advance(toks, st) == st1;
    assert PrimaryHead(toks, st) == Done(atom, st1);
    assert PostfixLoop(toks, atom, st1) == Done(atom, st1);
  }

  /** An atom at `st`, then a token that is no postfix and no operator from `level` on. */
  predicate AtomThenStop(toks: seq<Token>, level: nat, st: PState) {
    && Ready(toks, st) && st.pos + 1 < |toks| && Atom(toks[st.pos]).Some?
    && !IsPostfix(toks[st.pos + 1].kind) && NoOpFrom(level, toks[st.pos + 1].kind)
  }

  lemma {:induction false} AtomLevel(toks: seq<Token>, level: nat, st: PState)
    requires level <= FactorLevel && AtomThenStop(toks, level, st)
    ensures ParseLevel(toks, level, st) == Done(Atom(toks[st.pos]).value, st.(pos := st.pos + 1))
    decreases FactorLevel - level
  {
    var st1 := st.(pos := st.pos + 1);
    var atom := Atom(toks[st.pos]).value;
    NoOpBelow(level, Kind(toks, st1));
    if level < FactorLevel {
      AtomLevel(toks, level + 1, st);
    } else {
      AtomUnary(toks, st);
    }
    assert ParseOperand(toks, level, st) == Done(atom, st1);
    assert LevelLoop(toks, level, atom, st1) == Done(atom, st1);
  }

  /** A single atom followed by a token that continues no expression is a whole expression. */
  lemma AtomExpression(toks: seq<Token>, st: PState)
    requires AtomThenStop(toks, 0, st)
    ensures ParseExpression(toks, st) == Done(Atom(toks[st.pos]).value, st.(pos := st.pos + 1))
  {
    AtomLevel(toks, 0, st);
  }

  const A: byte := 'a' as byte
  const B: byte := 'b' as byte
  const C: byte := 'c' as byte

  /** A token after which no expression goes on: no binary operator, no postfix. */
  predicate Ends(k: TokenKind) {
    !IsPostfix(k) && NoOpFrom(0, k)
  }

  /** Every level's loop stops at such a token. */
  lemma EndsStop(toks: seq<Token>, level: nat, left: Expr, st: PState)
    requires Ready(toks, st) && level <= FactorLevel && Ends(Kind(toks, st))
    ensures LevelLoop(toks, level, left, st) == Done(left, st)
  {
  }

  /** One turn of a level's loop: `op right` folded into the left operand. */
  lemma LevelStep(toks: seq<Token>, level: nat, left: Expr, st: PState, op: BinaryOp, right: Expr, next: PState)
    requires Ready(toks, st) && level <= FactorLevel && LevelOp(level, Kind(toks, st)) == Some(op)
    requires ParseOperand(toks, level, Advance(toks, st)) == Done(right, next)
    ensures LevelLoop(toks, level, left, st) == LevelLoop(toks, level, Binary(left, op, right), next)
  {
  }

  /** A name as the operand of `+` and `-`, when no `*` or `/` and no postfix follows it. */
  lemma NameTerm(toks: seq<Token>, st: PState)
    requires Ready(toks, st) && toks[st.pos].kind == Identifier
    requires st.pos + 1 < |toks| && !IsPostfix(toks[st.pos + 1].kind) && NoOpFrom(FactorLevel, toks[st.pos + 1].kind)
    ensures ParseOperand(toks, 4, st) == Done(Ident(toks[st.pos].lexeme), st.(pos := st.pos + 1))
  {
    AtomLevel(toks, FactorLevel, st);
  }

  /** `a - b - c` is `(a - b) - c`. */
  lemma SubtractionIsLeftAssociative(toks: seq<Token>, st: PState)
    requires Ready(toks, st) && st.pos + 5 < |toks|
    requires toks[st.pos].kind == Identifier && toks[st.pos + 1].kind == Minus
    requires toks[st.pos + 2].kind == Identifier && toks[st.pos + 3].kind == Minus
    requires toks[st.pos + 4].kind == Identifier && Ends(toks[st.pos + 5].kind)
    ensures ParseExpression(toks, st)
         == Done(Binary(Binary(Ident(toks[st.pos].lexeme), Sub, Ident(toks[st.pos + 2].lexeme)), Sub, Ident(toks[st.pos + 4].lexeme)),
                 st.(pos := st.pos + 5))
  {
    SubtractionTerm(toks, st);
    TermIsExpression(toks, st, Binary(Binary(Ident(toks[st.pos].lexeme), Sub, Ident(toks[st.pos + 2].lexeme)), Sub, Ident(toks[st.pos + 4].lexeme)),
                     st.(pos := st.pos + 5));
  }

  lemma SubtractionTerm(toks: seq<Token>, st: PState)
    requires Ready(toks, st) && st.pos + 5 < |toks|
    requires toks[st.pos].kind == Identifier && toks[st.pos + 1].kind == Minus
    requires toks[st.pos + 2].kind == Identifier && toks[st.pos + 3].kind == Minus
    requires toks[st.pos + 4].kind == Identifier && Ends(toks[st.pos + 5].kind)
    ensures ParseLevel(toks, 4, st)
         == Done(Binary(Binary(Ident(toks[st.pos].lexeme), Sub, Ident(toks[st.pos + 2].lexeme)), Sub, Ident(toks[st.pos + 4].lexeme)),
                 st.(pos := st.pos + 5))
  {
    var a := Ident(toks[st.pos].lexeme);
    NameThenLoop(toks, st);
    MinusMinus(toks, a, st.(pos := st.pos + 1));
  }

  /** A name as the first operand of `+` and `-`, then the loop of that level. */
  lemma NameThenLoop(toks: seq<Token>, st: PState)
    requires Ready(toks, st) && toks[st.pos].kind == Identifier
    requires st.pos + 1 < |toks| && !IsPostfix(toks[st.pos + 1].kind) && NoOpFrom(FactorLevel, toks[st.pos + 1].kind)
    ensures ParseLevel(toks, 4, st) == LevelLoop(toks, 4, Ident(toks[st.pos].lexeme), st.(pos := st.pos + 1))
  {
    NameTerm(toks, st);
    LevelFromOperand(toks, 4, st, Ident(toks[st.pos].lexeme), st.(pos := st.pos + 1));
  }

  /** The loop of the `+` level after its first operand `a`, on `- b - c` and then an end. */
  lemma MinusMinus(toks: seq<Token>, a: Expr, st: PState)
    requires Ready(toks, st) && st.pos + 4 < |toks| && toks[st.pos].kind == Minus
    requires toks[st.pos + 1].kind == Identifier && toks[st.pos + 2].kind == Minus
    requires toks[st.pos + 3].kind == Identifier && Ends(toks[st.pos + 4].kind)
    ensures LevelLoop(toks, 4, a, st)
         == Done(Binary(Binary(a, Sub, Ident(toks[st.pos + 1].lexeme)), Sub, Ident(toks[st.pos + 3].lexeme)), st.(pos := st.pos + 4))
  {
    var p := st.pos;
    var ab := Binary(a, Sub, Ident(toks[p + 1].lexeme));
    NameStep(toks, 4, a, st);
    NameStep(toks, 4, ab, st.(pos := p + 2));
    EndsStop(toks, 4, Binary(ab, Sub, Ident(toks[p + 3].lexeme)), st.(pos := p + 4));
  }

  /** `op name` taken by the loop of `+` and `-`, when no `*`, `/` or postfix follows the name. */
  lemma NameStep(toks: seq<Token>, level: nat, left: Expr, st: PState)
    requires Ready(toks, st) && level == 4 && LevelOp(level, Kind(toks, st)).Some?
    requires st.pos + 2 < |toks| && toks[st.pos + 1].kind == Identifier
    requires !IsPostfix(toks[st.pos + 2].kind) && NoOpFrom(FactorLevel, toks[st.pos + 2].kind)
    ensures LevelLoop(toks, level, left, st)
         == LevelLoop(toks, level, Binary(left, LevelOp(level, Kind(toks, st)).value, Ident(toks[st.pos + 1].lexeme)), st.(pos := st.pos + 2))
  {
    NameTerm(toks, st.(pos := st.pos + 1));
    LevelStep(toks, level, left, st, LevelOp(level, Kind(toks, st)).value, Ident(toks[st.pos + 1].lexeme), st.(pos := st.pos + 2));
  }

  /** `*` binds tighter than `+`: `a + b * c` is `a + (b * c)`. */
  lemma ProductBindsTighter(toks: seq<Token>, st: PState)
    requires Ready(toks, st) && st.pos + 5 < |toks|
    requires toks[st.pos].kind == Identifier && toks[st.pos + 1].kind == Plus
    requires toks[st.pos + 2].kind == Identifier && toks[st.pos + 3].kind == Star
    requires toks[st.pos + 4].kind == Identifier && Ends(toks[st.pos + 5].kind)
    ensures ParseExpression(toks, st)
         == Done(Binary(Ident(toks[st.pos].lexeme), Add, Binary(Ident(toks[st.pos + 2].lexeme), Mul, Ident(toks[st.pos + 4].lexeme))),
                 st.(pos := st.pos + 5))
  {
    SumOfProductTerm(toks, st);
    TermIsExpression(toks, st, Binary(Ident(toks[st.pos].lexeme), Add, Binary(Ident(toks[st.pos + 2].lexeme), Mul, Ident(toks[st.pos + 4].lexeme))),
                     st.(pos := st.pos + 5));
  }

  lemma SumOfProductTerm(toks: seq<Token>, st: PState)
    requires Ready(toks, st) && st.pos + 5 < |toks|
    requires toks[st.pos].kind == Identifier && toks[st.pos + 1].kind == Plus
    requires toks[st.pos + 2].kind == Identifier && toks[st.pos + 3].kind == Star
    requires toks[st.pos + 4].kind == Identifier && Ends(toks[st.pos + 5].kind)
    ensures ParseLevel(toks, 4, st)
         == Done(Binary(Ident(toks[st.pos].lexeme), Add, Binary(Ident(toks[st.pos + 2].lexeme), Mul, Ident(toks[st.pos + 4].lexeme))),
                 st.(pos := st.pos + 5))
  {
    NameThenLoop(toks, st);
    PlusProduct(toks, Ident(toks[st.pos].lexeme), st.(pos := st.pos + 1));
  }

  /** The loop of the `+` level after its first operand `a`, on `+ b * c` and then an end. */
  lemma PlusProduct(toks: seq<Token>, a: Expr, st: PState)
    requires Ready(toks, st) && st.pos + 4 < |toks| && toks[st.pos].kind == Plus
    requires toks[st.pos + 1].kind == Identifier && toks[st.pos + 2].kind == Star
    requires toks[st.pos + 3].kind == Identifier && Ends(toks[st.pos + 4].kind)
    ensures LevelLoop(toks, 4, a, st)
         == Done(Binary(a, Add, Binary(Ident(toks[st.pos + 1].lexeme), Mul, Ident(toks[st.pos + 3].lexeme))),
                 st.(pos := st.pos + 4))
  {
    var bc := Binary(Ident(toks[st.pos + 1].lexeme), Mul, Ident(toks[st.pos + 3].lexeme));
    var end := st.(pos := st.pos + 4);
    ProductOperand(toks, st.(pos := st.pos + 1));
    assert Advance(toks, st) == st.(pos := st.pos + 1);
    LevelStep(toks, 4, a, st, Add, bc, end);
    EndsStop(toks, 4, Binary(a, Add, bc), end);
  }

  /** `b * c` as one operand of `+`. */
  lemma ProductOperand(toks: seq<Token>, st: PState)
    requires Ready(toks, st) && st.pos + 3 < |toks|
    requires toks[st.pos].kind == Identifier && toks[st.pos + 1].kind == Star
    requires toks[st.pos + 2].kind == Identifier && Ends(toks[st.pos + 3].kind)
    ensures ParseOperand(toks, 4, st)
         == Done(Binary(Ident(toks[st.pos].lexeme), Mul, Ident(toks[st.pos + 2].lexeme)), st.(pos := st.pos + 3))
  {
    ProductLevel(toks, st);
  }

  /** `b * c` at the level of `*` and `/`. */
  lemma ProductLevel(toks: seq<Token>, st: PState)
    requires Ready(toks, st) && st.pos + 3 < |toks|
    requires toks[st.pos].kind == Identifier && toks[st.pos + 1].kind == Star
    requires toks[st.pos + 2].kind == Identifier && Ends(toks[st.pos + 3].kind)
    ensures ParseLevel(toks, FactorLevel, st)
         == Done(Binary(Ident(toks[st.pos].lexeme), Mul, Ident(toks[st.pos + 2].lexeme)), st.(pos := st.pos + 3))
  {
    var b := Ident(toks[st.pos].lexeme);
    var s1 := st.(pos := st.pos + 1);
    assert ParseOperand(toks, FactorLevel, st) == Done(b, s1) by {
      AtomUnary(toks, st);
    }
    assert ParseLevel(toks, FactorLevel, st) == LevelLoop(toks, FactorLevel, b, s1) by {
      LevelFromOperand(toks, FactorLevel, st, b, s1);
    }
    ProductTail(toks, b, s1);
  }

  /** A level parses its operand, then runs its loop from there. */
  lemma LevelFromOperand(toks: seq<Token>, level: nat, st: PState, left: Expr, mid: PState)
    requires Ready(toks, st) && level <= FactorLevel && ParseOperand(toks, level, st) == Done(left, mid)
    ensures ParseLevel(toks, level, st) == LevelLoop(toks, level, left, mid)
  {
  }

  /** `* c` after the left operand `b`. */
  lemma ProductTail(toks: seq<Token>, b: Expr, st: PState)
    requires Ready(toks, st) && st.pos + 2 < |toks|
    requires toks[st.pos].kind == Star && toks[st.pos + 1].kind == Identifier && Ends(toks[st.pos + 2].kind)
    ensures LevelLoop(toks, FactorLevel, b, st) == Done(Binary(b, Mul, Ident(toks[st.pos + 1].lexeme)), st.(pos := st.pos + 2))
  {
    var s1, end := st.(pos := st.pos + 1), st.(pos := st.pos + 2);
    var c := Ident(toks[st.pos + 1].lexeme);
    AtomUnary(toks, s1);
    assert ParseOperand(toks, FactorLevel, s1) == Done(c, end);
    assert Advance(toks, st) == s1;
    LevelStep(toks, FactorLevel, b, st, Mul, c, end);
    assert LevelOp(FactorLevel, Kind(toks, end)).None?;
  }

  /** A call: the arguments up to `)` are applied to the expression so far. */
  lemma PostfixCall(toks: seq<Token>, e: Expr, st: PState, args: seq<Expr>, mid: PState)
    requires Ready(toks, st) && Kind(toks, st) == LParen
    requires ArgList(toks, Advance(toks, st)) == Done(args, mid) && Kind(toks, mid) == RParen
    ensures PostfixLoop(toks, e, st) == PostfixLoop(toks, Call(e, args), Advance(toks, mid))
  {
  }

  /** A field access: `.name` selects from the expression so far. */
  lemma PostfixMember(toks: seq<Token>, e: Expr, st: PState)
    requires Ready(toks, st) && Kind(toks, st) == Dot && st.pos + 1 < |toks| && toks[st.pos + 1].kind == Identifier
    ensures PostfixLoop(toks, e, st) == PostfixLoop(toks, Member(e, toks[st.pos + 1].lexeme), st.(pos := st.pos + 2))
  {
    var st1 := st.(pos := st.pos + 1);
    assert Advance(toks, st) == st1;
    assert Kind(toks, st1) == Identifier && Lexeme(toks, st1) == toks[st.pos + 1].lexeme;
    assert Advance(toks, st1) == st.(pos := st.pos + 2);
  }

  /** An index: the expression up to `]` indexes the expression so far. */
  lemma PostfixIndex(toks: seq<Token>, e: Expr, st: PState, index: Expr, mid: PState)
    requires Ready(toks, st) && Kind(toks, st) == LBracket
    requires ParseExpression(toks, Advance(toks, st)) == Done(index, mid) && Kind(toks, mid) == RBracket
    ensures PostfixLoop(toks, e, st) == PostfixLoop(toks, Index(e, index), Advance(toks, mid))
  {
    assert Consume(toks, mid, RBracket, "expected ']' after index") == Done((), Advance(toks, mid));
  }

  /** A call with the single argument `x`: `( x )`. */
  lemma OneArgument(toks: seq<Token>, st: PState)
    requires Ready(toks, st) && st.pos + 1 < |toks|
    requires toks[st.pos].kind == Identifier && toks[st.pos + 1].kind == RParen
    ensures ArgList(toks, st) == Done([Ident(toks[st.pos].lexeme)], st.(pos := st.pos + 1))
  {
    var x, s1 := Ident(toks[st.pos].lexeme), st.(pos := st.pos + 1);
    AtomExpression(toks, st);
    assert ParseExpression(toks, st) == Done(x, s1) && Kind(toks, s1) == RParen;
    assert [] + [x] == [x];
  }

  /** The tokens `f ( x ) . y [ z ]` from `st` on, then a token that is not a postfix. */
  predicate PostfixChainAt(toks: seq<Token>, st: PState) {
    && Ready(toks, st) && st.pos + 9 < |toks|
    && toks[st.pos].kind == Identifier && toks[st.pos + 1].kind == LParen
    && toks[st.pos + 2].kind == Identifier && toks[st.pos + 3].kind == RParen
    && toks[st.pos + 4].kind == Dot && toks[st.pos + 5].kind == Identifier
    && toks[st.pos + 6].kind == LBracket && toks[st.pos + 7].kind == Identifier
    && toks[st.pos + 8].kind == RBracket && !IsPostfix(toks[st.pos + 9].kind)
  }

  /**
   * A prefix operator takes the whole primary expression after it, with all
   * its calls, fields and indexes, as its operand: `- f(x).y` is `-((f(x)).y)`.
   */
  lemma PrefixOverPostfix(toks: seq<Token>, st: PState, e: Expr, end: PState)
    requires Ready(toks, st) && (Kind(toks, st) == Minus || Kind(toks, st) == KwNot)
    requires Kind(toks, Advance(toks, st)) != Minus && Kind(toks, Advance(toks, st)) != KwNot
    requires ParsePrimary(toks, Advance(toks, st)) == Done(e, end)
    ensures ParseUnary(toks, st) == Done(Unary(if Kind(toks, st) == Minus then Negate else Not, e), end)
  {
    UnaryIsPrimary(toks, Advance(toks, st));
    PrefixStep(toks, st, e, end);
  }

  /** Prefix operators nest to the right: each applies to the unary expression after it. */
  lemma PrefixStep(toks: seq<Token>, st: PState, e: Expr, end: PState)
    requires Ready(toks, st) && (Kind(toks, st) == Minus || Kind(toks, st) == KwNot)
    requires ParseUnary(toks, Advance(toks, st)) == Done(e, end)
    ensures ParseUnary(toks, st) == Done(Unary(if Kind(toks, st) == Minus then Negate else Not, e), end)
  {
  }

  /** Without a prefix operator, a unary expression is a primary one. */
  lemma UnaryIsPrimary(toks: seq<Token>, st: PState)
    requires Ready(toks, st) && Kind(toks, st) != Minus && Kind(toks, st) != KwNot
    ensures ParseUnary(toks, st) == ParsePrimary(toks, st)
  {
  }

  /** `f(x).y[z]` as a primary expression. */
  lemma PostfixChain(toks: seq<Token>, st: PState)
    requires PostfixChainAt(toks, st)
    ensures ParsePrimary(toks, st)
         == Done(Index(Member(Call(Ident(toks[st.pos].lexeme), [Ident(toks[st.pos + 2].lexeme)]), toks[st.pos + 5].lexeme),
                       Ident(toks[st.pos + 7].lexeme)),
                 st.(pos := st.pos + 9))
  {
    var call := Call(Ident(toks[st.pos].lexeme), [Ident(toks[st.pos + 2].lexeme)]);
    CallHead(toks, st);
    MemberThenIndex(toks, call, st.(pos := st.pos + 4));
  }

  /** `f ( x )` at the head of a primary expression. */
  lemma CallHead(toks: seq<Token>, st: PState)
    requires Ready(toks, st) && st.pos + 4 < |toks|
    requires toks[st.pos].kind == Identifier && toks[st.pos + 1].kind == LParen
    requires toks[st.pos + 2].kind == Identifier && toks[st.pos + 3].kind == RParen
    ensures ParsePrimary(toks, st)
         == PostfixLoop(toks, Call(Ident(toks[st.pos].lexeme), [Ident(toks[st.pos + 2].lexeme)]), st.(pos := st.pos + 4))
  {
    var f := Ident(toks[st.pos].lexeme);
    assert PrimaryHead(toks, st) == Done(f, st.(pos := st.pos + 1));
    OneArgument(toks, st.(pos := st.pos + 2));
    PostfixCall(toks, f, st.(pos := st.pos + 1), [Ident(toks[st.pos + 2].lexeme)], st.(pos := st.pos + 3));
  }

  /** `. y [ z ]` after the expression `e`, then a token that is not a postfix. */
  lemma MemberThenIndex(toks: seq<Token>, e: Expr, st: PState)
    requires Ready(toks, st) && st.pos + 5 < |toks|
    requires toks[st.pos].kind == Dot && toks[st.pos + 1].kind == Identifier
    requires toks[st.pos + 2].kind == LBracket && toks[st.pos + 3].kind == Identifier
    requires toks[st.pos + 4].kind == RBracket && !IsPostfix(toks[st.pos + 5].kind)
    ensures PostfixLoop(toks, e, st)
         == Done(Index(Member(e, toks[st.pos + 1].lexeme), Ident(toks[st.pos + 3].lexeme)), st.(pos := st.pos + 5))
  {
    PostfixMember(toks, e, st);
    IndexThenStop(toks, Member(e, toks[st.pos + 1].lexeme), st.(pos := st.pos + 2));
  }

  lemma IndexThenStop(toks: seq<Token>, e: Expr, st: PState)
    requires Ready(toks, st) && st.pos + 3 < |toks|
    requires toks[st.pos].kind == LBracket && toks[st.pos + 1].kind == Identifier
    requires toks[st.pos + 2].kind == RBracket && !IsPostfix(toks[st.pos + 3].kind)
    ensures PostfixLoop(toks, e, st) == Done(Index(e, Ident(toks[st.pos + 1].lexeme)), st.(pos := st.pos + 3))
  {
    var index := Ident(toks[st.pos + 1].lexeme);
    var end := st.(pos := st.pos + 3);
    var mid := st.(pos := st.pos + 2);
    AtomExpression(toks, st.(pos := st.pos + 1));
    assert Advance(toks, st) == st.(pos := st.pos + 1);
    PostfixIndex(toks, e, st, index, mid);
    assert Advance(toks, mid) == end;
    PostfixEnds(toks, Index(e, index), end);
  }

  /** The postfix loop stops at a token that starts no postfix operation. */
  lemma PostfixEnds(toks: seq<Token>, e: Expr, st: PState)
    requires Ready(toks, st) && !IsPostfix(Kind(toks, st))
    ensures PostfixLoop(toks, e, st) == Done(e, st)
  {
  }

  /* ---------- table literals ---------- */

  /** In a field, the expression after `name:` is a full expression, but a bare name is taken as it is. */
  lemma FieldShapes(toks: seq<Token>, st: PState)
    requires Ready(toks, st)
    ensures var r := ParseField(toks, st);
            && (r.Done? && r.value.KeyValue? ==> Kind(toks, st) == Identifier && r.value.key == Lexeme(toks, st))
            && (Kind(toks, st) == Identifier && Kind(toks, Advance(toks, st)) != Colon
                ==> r == Done(Positional(Ident(Lexeme(toks, st))), Advance(toks, st)))
  {
  }

  /** Fields are collected in source order, and a `,` right before the closing `}` is accepted. */
  lemma TrailingComma(toks: seq<Token>, fields: seq<TableField>, st: PState, f: TableField, next: PState)
    requires Ready(toks, st) && Kind(toks, st) != RBrace && Kind(toks, st) != Eof
    requires ParseField(toks, st) == Done(f, next) && Kind(toks, next) == Comma
    requires Kind(toks, Advance(toks, next)) == RBrace
    ensures FieldsLoop(toks, fields, st) == Done(fields + [f], Advance(toks, next))
  {
    assert FieldsLoop(toks, fields, st) == FieldsLoop(toks, fields + [f], Advance(toks, next));
  }

  /* ---------- optional syntax ---------- */

  /** `var NAME : TYPE = expr`: the annotation leaves no trace, and a `;` after the value is skipped. */
  lemma TypedVarDecl(toks: seq<Token>, st: PState, e: Expr, next: PState)
    requires Ready(toks, st) && st.pos + 5 < |toks|
    requires toks[st.pos].kind == KwVar && toks[st.pos + 1].kind == Identifier
    requires toks[st.pos + 2].kind == Colon && toks[st.pos + 3].kind == Identifier
    requires toks[st.pos + 4].kind == TokenKind.Equal && ParseExpression(toks, st.(pos := st.pos + 5)) == Done(e, next)
    ensures ParseStatement(toks, st) == Done(VarDecl(toks[st.pos + 1].lexeme, e), SkipSemicolon(toks, next))
  {
    var s1 := st.(pos := st.pos + 1);
    assert SkipAnnotation(toks, s1.(pos := s1.pos + 1)) == st.(pos := st.pos + 4);
    VarDeclFrom(toks, st, st.(pos := st.pos + 4), e, next);
    VarStatement(toks, st);
  }

  /** `var NAME = expr`: the same declaration as with an annotation. */
  lemma PlainVarDecl(toks: seq<Token>, st: PState, e: Expr, next: PState)
    requires Ready(toks, st) && st.pos + 3 < |toks|
    requires toks[st.pos].kind == KwVar && toks[st.pos + 1].kind == Identifier
    requires toks[st.pos + 2].kind == TokenKind.Equal && ParseExpression(toks, st.(pos := st.pos + 3)) == Done(e, next)
    ensures ParseStatement(toks, st) == Done(VarDecl(toks[st.pos + 1].lexeme, e), SkipSemicolon(toks, next))
  {
    assert SkipAnnotation(toks, st.(pos := st.pos + 2)) == st.(pos := st.pos + 2);
    VarDeclFrom(toks, st, st.(pos := st.pos + 2), e, next);
    VarStatement(toks, st);
  }

  /** `var NAME`, then whatever the annotation skip leaves, `=` at `eq` and the value. */
  lemma VarDeclFrom(toks: seq<Token>, st: PState, eq: PState, e: Expr, next: PState)
    requires Ready(toks, st) && st.pos + 2 < |toks| && eq.pos + 1 < |toks|
    requires toks[st.pos].kind == KwVar && toks[st.pos + 1].kind == Identifier
    requires SkipAnnotation(toks, st.(pos := st.pos + 2)) == eq && toks[eq.pos].kind == TokenKind.Equal
    requires ParseExpression(toks, eq.(pos := eq.pos + 1)) == Done(e, next)
    ensures ParseVarDecl(toks, st) == Done(VarDecl(toks[st.pos + 1].lexeme, e), SkipSemicolon(toks, next))
  {
    assert Advance(toks, st) == st.(pos := st.pos + 1);
    assert Consume(toks, eq, TokenKind.Equal, "expected '=' in var declaration") == Done((), eq.(pos := eq.pos + 1));
  }

  lemma VarStatement(toks: seq<Token>, st: PState)
    requires Ready(toks, st) && Kind(toks, st) == KwVar
    ensures ParseStatement(toks, st) == ParseVarDecl(toks, st)
  {
  }

  lemma FuncStatement(toks: seq<Token>, st: PState)
    requires Ready(toks, st) && Kind(toks, st) == KwFunc
    ensures var f := ParseFuncDecl(toks, st);
            ParseStatement(toks, st) == if f.Fail? then Fail(f.error, f.st) else Done(Func(f.value), f.st)
  {
    OtherStatement(toks, st);
  }

  lemma OtherStatement(toks: seq<Token>, st: PState)
    requires Ready(toks, st) && Kind(toks, st) != KwVar && Kind(toks, st) != KwIf
    requires Kind(toks, st) != KwWhile && Kind(toks, st) != KwReturn
    ensures ParseStatement(toks, st) == ParseOtherStatement(toks, st)
  {
  }

  /** A `return` right before `;` has no value; otherwise it takes an expression, `;` or not. */
  lemma ReturnValue(toks: seq<Token>, st: PState)
    requires Ready(toks, st) && Kind(toks, st) == KwReturn
    ensures var s1 := Advance(toks, st);
            && (Kind(toks, s1) == Semicolon ==> ParseReturn(toks, st) == Done(Return(None), Advance(toks, s1)))
            && (Kind(toks, s1) != Semicolon && ParseExpression(toks, s1).Done? ==>
                  var e := ParseExpression(toks, s1);
                  ParseReturn(toks, st) == Done(Return(Some(e.value)), SkipSemicolon(toks, e.st)))
  {
  }

  /** An integer literal that does not fit in an `i64` becomes 0. */
  lemma IntegerLiteralValue(toks: seq<Token>, st: PState)
    requires Ready(toks, st) && Kind(toks, st) == Int
    requires Lexeme(toks, st) != [] && AllDigits(Lexeme(toks, st))
    ensures var v := DecimalValue(Lexeme(toks, st));
            PrimaryHead(toks, st) == Done(Lit(IntLit(if v <= I64_MAX then v else 0)), Advance(toks, st))
  {
    assert IsDigit(Lexeme(toks, st)[0]);
  }

  /* ---------- statement bodies ---------- */

  /** Every `elif` clause body the loop adds is a `Block` statement. */
  lemma {:induction false} ElifsAreBlocks(toks: seq<Token>, elifs: seq<(Expr, Stmt)>, st: PState)
    requires Ready(toks, st) && BlockBodies(elifs)
    ensures var r := ElifLoop(toks, elifs, st);
            r.Done? ==> BlockBodies(r.value)
    decreases |toks| - st.pos
  {
    if Kind(toks, st) == KwElif {
      var clause := ElifClause(toks, st);
      if clause.Done? {
        assert ElifLoop(toks, elifs, st) == ElifLoop(toks, elifs + [clause.value], clause.st);
        ElifsAreBlocks(toks, elifs + [clause.value], clause.st);
      }
    }
  }

  /** Every branch of a parsed `if`, `elif` and `else` is a `Block` statement. */
  lemma IfBranchesAreBlocks(toks: seq<Token>, st: PState)
    requires Ready(toks, st)
    ensures var r := ParseIf(toks, st);
            r.Done? ==> && r.value.If? && r.value.thenBranch.Block?
                        && (forall i | 0 <= i < |r.value.elifBranches| :: r.value.elifBranches[i].1.Block?)
                        && (r.value.elseBranch.Some? ==> r.value.elseBranch.value.Block?)
  {
    var kw := Consume(toks, st, KwIf, "expected 'if'");
    if kw.Done? {
      var cond := ParseExpression(toks, kw.st);
      if cond.Done? {
        var th := Consume(toks, cond.st, KwThen, "expected 'then' after if condition");
        if th.Done? {
          var body := ParseBlock(toks, th.st);
          if body.Done? {
            assert ParseIf(toks, st) == IfTail(toks, cond.value, Block(body.value), body.st);
            IfTailBlocks(toks, cond.value, Block(body.value), body.st);
          }
        }
      }
    }
  }

  lemma IfTailBlocks(toks: seq<Token>, cond: Expr, thenBranch: Stmt, st: PState)
    requires Ready(toks, st) && thenBranch.Block?
    ensures var r := IfTail(toks, cond, thenBranch, st);
            r.Done? ==> && r.value.If? && r.value.thenBranch.Block?
                        && (forall i | 0 <= i < |r.value.elifBranches| :: r.value.elifBranches[i].1.Block?)
                        && (r.value.elseBranch.Some? ==> r.value.elseBranch.value.Block?)
  {
    var elifs := ElifLoop(toks, [], st);
    ElifsAreBlocks(toks, [], st);
    if elifs.Done? {
      assert IfTail(toks, cond, thenBranch, st) == IfEnd(toks, cond, thenBranch, elifs.value, elifs.st);
    }
  }

  /* ---------- error reporting ---------- */

  /**
   * `func NAME (` followed by something that is neither a name nor `)`:
   * the statement fails with `expected parameter name` at that token.
   */
  lemma MalformedParameters(toks: seq<Token>, st: PState)
    requires BadParameterAt(toks, st)
    ensures var bad := st.(pos := st.pos + 3);
            ParseStatement(toks, st) == Fail(ErrorAt(toks, bad, Note("expected parameter name")), bad)
  {
    HeaderRejectsParameters(toks, st);
    HeaderFailureIsFinal(toks, st);
    FuncStatement(toks, st);
  }

  /** `func NAME (` followed by a token that is neither a name nor `)`. */
  predicate BadParameterAt(toks: seq<Token>, st: PState) {
    && Ready(toks, st) && st.pos + 3 < |toks|
    && toks[st.pos].kind == KwFunc && toks[st.pos + 1].kind == Identifier && toks[st.pos + 2].kind == LParen
    && toks[st.pos + 3].kind != Identifier && toks[st.pos + 3].kind != RParen
  }

  /** A declaration whose header fails fails with the header's error. */
  lemma HeaderFailureIsFinal(toks: seq<Token>, st: PState)
    requires Ready(toks, st) && FuncHeader(toks, st).Fail?
    ensures ParseFuncDecl(toks, st) == Fail(FuncHeader(toks, st).error, FuncHeader(toks, st).st)
  {
  }

  lemma HeaderRejectsParameters(toks: seq<Token>, st: PState)
    requires BadParameterAt(toks, st)
    ensures var bad := st.(pos := st.pos + 3);
            FuncHeader(toks, st) == Fail(ErrorAt(toks, bad, Note("expected parameter name")), bad)
  {
    var bad := st.(pos := st.pos + 3);
    assert Consume(toks, st, KwFunc, "expected 'func'") == Done((), st.(pos := st.pos + 1));
    assert Advance(toks, st.(pos := st.pos + 1)) == st.(pos := st.pos + 2);
    assert Consume(toks, st.(pos := st.pos + 2), LParen, "expected '(' after function name") == Done((), bad);
    assert ParamList(toks, bad) == Fail(ErrorAt(toks, bad, Note("expected parameter name")), bad);
  }

  /* ---------- function declarations: as written and corrected ---------- */

  /** `: NAME :` — a return type between two colons. */
  predicate TypedColons(toks: seq<Token>, st: PState)
    requires Ready(toks, st)
  {
    Kind(toks, st) == Colon
    && Kind(toks, Advance(toks, st)) == Identifier
    && Kind(toks, Advance(toks, Advance(toks, st))) == Colon
  }

  /** `: NAME :` or `: :` — the only ways the as-written declaration gets past its return type. */
  predicate TwoColons(toks: seq<Token>, st: PState)
    requires Ready(toks, st)
  {
    TypedColons(toks, st) || (Kind(toks, st) == Colon && Kind(toks, Advance(toks, st)) == Colon)
  }

  /**
   * As written, a declaration is accepted only with a second `:` after the
   * parameter list: the annotation check takes the first one.
   */
  lemma AsWrittenNeedsTwoColons(toks: seq<Token>, st: PState)
    requires Ready(toks, st)
    ensures ParseFuncDeclAsWritten(toks, st).Done? ==>
              FuncHeader(toks, st).Done? && TwoColons(toks, FuncHeader(toks, st).st)
  {
    if ParseFuncDeclAsWritten(toks, st).Done? {
      AsWrittenColonAfterAnnotation(toks, st);
      AnnotationThenColon(toks, FuncHeader(toks, st).st);
    }
  }

  lemma AsWrittenColonAfterAnnotation(toks: seq<Token>, st: PState)
    requires Ready(toks, st) && ParseFuncDeclAsWritten(toks, st).Done?
    ensures FuncHeader(toks, st).Done? && Kind(toks, SkipAnnotation(toks, FuncHeader(toks, st).st)) == Colon
  {
  }

  lemma AnnotationThenColon(toks: seq<Token>, st: PState)
    requires Ready(toks, st) && Kind(toks, SkipAnnotation(toks, st)) == Colon
    ensures TwoColons(toks, st)
  {
  }

  /**
   * `func f(): { ... } end`, the declaration form ArcScript programs use, is
   * rejected as written: the `:` is taken as the start of a return type, and
   * `expected ':'` is reported at the `{`.
   */
  lemma UntypedRejectedAsWritten(toks: seq<Token>, st: PState)
    requires Ready(toks, st) && FuncHeader(toks, st).Done?
    requires var h := FuncHeader(toks, st).st;
             Kind(toks, h) == Colon && Kind(toks, Advance(toks, h)) != Identifier && Kind(toks, Advance(toks, h)) != Colon
    ensures var at := Advance(toks, FuncHeader(toks, st).st);
            ParseFuncDeclAsWritten(toks, st) == Fail(ErrorAt(toks, at, Expected(Colon, "expected ':' before function body")), at)
  {
    var h := FuncHeader(toks, st).st;
    assert SkipAnnotation(toks, h) == Advance(toks, h);
  }

  /** With the correction, a declaration without a return type has its body right after the `:`. */
  lemma CorrectedUntypedBody(toks: seq<Token>, st: PState)
    requires Ready(toks, st) && FuncHeader(toks, st).Done?
    requires var h := FuncHeader(toks, st).st; Kind(toks, h) == Colon && Kind(toks, Advance(toks, h)) != Identifier
    ensures var h := FuncHeader(toks, st);
            var body := ParseBlock(toks, Advance(toks, h.st));
            body.Done? && Kind(toks, body.st) == KwEnd ==>
              ParseFuncDecl(toks, st) == Done(FuncDecl(h.value.0, h.value.1, Block(body.value)), Advance(toks, body.st))
  {
  }

  /**
   * Outside the untyped form `: ` followed by no name, the correction and the
   * code as written agree on every input: same declaration, same error.
   */
  lemma CorrectionAgreesElsewhere(toks: seq<Token>, st: PState)
    requires Ready(toks, st) && FuncHeader(toks, st).Done?
    requires var h := FuncHeader(toks, st).st; Kind(toks, h) != Colon || Kind(toks, Advance(toks, h)) == Identifier
    ensures ParseFuncDecl(toks, st) == ParseFuncDeclAsWritten(toks, st)
  {
    var head := FuncHeader(toks, st);
    if Kind(toks, head.st) == Colon {
      TypedAgree(toks, head.value, head.st);
    }
  }

  lemma TypedAgree(toks: seq<Token>, head: (Bytes, seq<Param>), h: PState)
    requires Ready(toks, h) && Kind(toks, h) == Colon && Kind(toks, Advance(toks, h)) == Identifier
    ensures var colon := Consume(toks, h, Colon, "expected ':' before function body");
            var typed := ReturnType(toks, colon.st);
            var asWritten := Consume(toks, SkipAnnotation(toks, h), Colon, "expected ':' before function body");
            typed.st == asWritten.st && typed.Done? == asWritten.Done?
            && (typed.Fail? ==> typed.error == asWritten.error)
  {
  }
}
