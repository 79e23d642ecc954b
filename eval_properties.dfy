/**
 * Properties of ArcScript evaluation (src/interpreter.rs): scoping, how
 * `return` travels, what a call binds, what an object or table literal
 * holds, and the scenarios of the interpreter's own unit tests.
 */
module EvalProperties {
  import opened Wrappers
  import opened Text
  import opened Ast
  import opened Values
  import opened Evaluation

  // ---------------------------------------------------------------------
  // Expressions leave the environment alone
  // ---------------------------------------------------------------------

  /**
   * Evaluating an expression never changes the environment, whatever the
   * outcome: calls run in scopes of their own and put the caller's back.
   * Only the output can grow.
   */
  lemma {:induction false} ExpressionKeepsEnv(h: FloatHost, e: Expr, st: State, fuel: nat)
    ensures Expression(h, e, st, fuel).st.env == st.env
    decreases fuel, e, 3
  {
    match e
    case Lit(_) =>
    case Ident(_) =>
    case Unary(_, operand) => ExpressionKeepsEnv(h, operand, st, fuel);
    case Binary(_, _, _) => BinaryKeepsEnv(h, e, st, fuel);
    case Call(_, _) => CallKeepsEnv(h, e, st, fuel);
    case Member(receiver, _) => ExpressionKeepsEnv(h, receiver, st, fuel);
    case Index(_, _) => IndexKeepsEnv(h, e, st, fuel);
    case TableLiteral(_) => FieldsKeepEnv(h, e, 0, map[], st, fuel);
  }

  lemma {:induction false} BinaryKeepsEnv(h: FloatHost, e: Expr, st: State, fuel: nat)
    requires e.Binary?
    ensures BinaryExpression(h, e, st, fuel).st.env == st.env
    decreases fuel, e, 2
  {
    ExpressionKeepsEnv(h, e.left, st, fuel);
    var a := Expression(h, e.left, st, fuel);
    if a.Ran? {
      ExpressionKeepsEnv(h, e.right, a.st, fuel);
    }
  }

  lemma {:induction false} IndexKeepsEnv(h: FloatHost, e: Expr, st: State, fuel: nat)
    requires e.Index?
    ensures IndexExpression(h, e, st, fuel).st.env == st.env
    decreases fuel, e, 2
  {
    ExpressionKeepsEnv(h, e.receiver, st, fuel);
    var a := Expression(h, e.receiver, st, fuel);
    if a.Ran? {
      ExpressionKeepsEnv(h, e.index, a.st, fuel);
    }
  }

  lemma {:induction false} FieldsKeepEnv(h: FloatHost, e: Expr, i: nat, acc: map<Bytes, Value>, st: State, fuel: nat)
    requires e.TableLiteral? && i <= |e.fields|
    ensures Fields(h, e, i, acc, st, fuel).st.env == st.env
    decreases fuel, e, 2, |e.fields| - i
  {
    if i < |e.fields| {
      ExpressionKeepsEnv(h, e.fields[i].value, st, fuel);
      var a := Expression(h, e.fields[i].value, st, fuel);
      if a.Ran? {
        FieldsKeepEnv(h, e, i + 1, acc[FieldKey(e.fields[i], i) := a.value], a.st, fuel);
      }
    }
  }

  lemma {:induction false} CallKeepsEnv(h: FloatHost, e: Expr, st: State, fuel: nat)
    requires e.Call?
    ensures CallExpression(h, e, st, fuel).st.env == st.env
    decreases fuel, e, 2
  {
    ExpressionKeepsEnv(h, e.callee, st, fuel);
    var c := Expression(h, e.callee, st, fuel);
    if c.Ran? {
      match c.value
      case Builtin(name) => CallBuiltinKeepsEnv(h, name, e, c.st, fuel);
      case Function(decl, closure) => CallFunctionKeepsEnv(h, decl, closure, e, c.st, fuel);
      case _ =>
    }
  }

  lemma {:induction false} CallFunctionKeepsEnv(h: FloatHost, decl: FuncDecl, closure: Option<Env>, e: Expr, st: State, fuel: nat)
    requires e.Call?
    ensures CallFunction(h, decl, closure, e, st, fuel).st.env == st.env
    decreases fuel, e, 1
  {
    var parent := if closure.Some? then closure.value else st.env;
    BindKeepsEnv(h, decl.params, e, 0, Child(parent), st, fuel);
  }

  lemma {:induction false} BindKeepsEnv(h: FloatHost, params: seq<Param>, e: Expr, i: nat, callEnv: Env, st: State, fuel: nat)
    requires e.Call? && i <= |params|
    ensures Bind(h, params, e, i, callEnv, st, fuel).st.env == st.env
    decreases fuel, e, 0, |params| - i
  {
    if i < |params| {
      if i < |e.args| {
        ExpressionKeepsEnv(h, e.args[i], st, fuel);
        var a := Expression(h, e.args[i], st, fuel);
        if a.Ran? {
          BindKeepsEnv(h, params, e, i + 1, callEnv.Define(params[i].name, a.value), a.st, fuel);
        }
      } else {
        BindKeepsEnv(h, params, e, i + 1, callEnv.Define(params[i].name, Nil), st, fuel);
      }
    }
  }

  lemma {:induction false} CallBuiltinKeepsEnv(h: FloatHost, name: Bytes, e: Expr, st: State, fuel: nat)
    requires e.Call?
    ensures CallBuiltin(h, name, e, st, fuel).st.env == st.env
    decreases fuel, e, 1
  {
    if name == PRINT || name == PRINTLN {
      PrintKeepsEnv(h, e, 0, st, fuel);
    } else if IsUnaryBuiltin(name) && |e.args| > 0 {
      ExpressionKeepsEnv(h, e.args[0], st, fuel);
    }
  }

  lemma {:induction false} PrintKeepsEnv(h: FloatHost, e: Expr, i: nat, st: State, fuel: nat)
    requires e.Call? && i <= |e.args|
    ensures Print(h, e, i, st, fuel).st.env == st.env
    decreases fuel, e, 0, |e.args| - i
  {
    if i < |e.args| {
      var before := if i > 0 then st.(out := st.out + [SPACE]) else st;
      ExpressionKeepsEnv(h, e.args[i], before, fuel);
      var a := Expression(h, e.args[i], before, fuel);
      if a.Ran? {
        PrintKeepsEnv(h, e, i + 1, a.st.(out := a.st.out + Show(h, a.value)), fuel);
      }
    }
  }

  /** An identifier evaluates to its innermost binding, and is an error exactly when no scope binds it. */
  lemma IdentifierLookup(h: FloatHost, name: Bytes, st: State, fuel: nat)
    ensures var r := Expression(h, Ident(name), st, fuel);
      r.st == st && (r.Failed? <==> st.env.Get(name).None?) &&
      (r.Ran? ==> Some(r.value) == st.env.Get(name)) &&
      (r.Failed? ==> r.fault == Raised(UndefinedIdentifier(name)))
  {
  }

  /**
   * `and` does not short-circuit: with a false left operand the right one is
   * still evaluated, and its error raised.
   */
  lemma AndEvaluatesBoth(h: FloatHost, right: Expr, st: State, fuel: nat)
    ensures var b := Expression(h, right, st, fuel);
      Expression(h, Binary(Lit(BoolLit(false)), And, right), st, fuel)
        == (if b.Failed? then b else Ran(Bool(false), b.st))
  {
    var conj := Binary(Lit(BoolLit(false)), And, right);
    assert Expression(h, Lit(BoolLit(false)), st, fuel) == Ran(Bool(false), st);
    assert forall v :: ApplyBinary(h, And, Bool(false), v) == Ok(Bool(false));
    assert Expression(h, conj, st, fuel) == BinaryExpression(h, conj, st, fuel);
  }

  /** `or` does not short-circuit either: a true left operand still has the right one evaluated. */
  lemma OrEvaluatesBoth(h: FloatHost, right: Expr, st: State, fuel: nat)
    ensures var b := Expression(h, right, st, fuel);
      Expression(h, Binary(Lit(BoolLit(true)), Or, right), st, fuel)
        == (if b.Failed? then b else Ran(Bool(true), b.st))
  {
    var disj := Binary(Lit(BoolLit(true)), Or, right);
    assert Expression(h, Lit(BoolLit(true)), st, fuel) == Ran(Bool(true), st);
    assert forall v :: ApplyBinary(h, Or, Bool(true), v) == Ok(Bool(true));
    assert Expression(h, disj, st, fuel) == BinaryExpression(h, disj, st, fuel);
  }

  // ---------------------------------------------------------------------
  // A failing call and the caller's scope
  // ---------------------------------------------------------------------

  /**
   * `func f(): T: { y; } end` called as `f()` with `y` undefined everywhere:
   * as written, the interpreter is left in the call scope, where `f` itself
   * is no longer visible, so a later `f()` is an undefined identifier; with
   * the scope put back, `f` is still defined.
   */
  lemma FailingCallScope(h: FloatHost, f: Bytes, y: Bytes, closure: Env, st: State, fuel: nat)
    requires fuel > 0 && closure.Get(y).None? && closure.Get(f).None?
    requires st.env.Get(f).Some?
    ensures var decl := FuncDecl(f, [], Block([ExprStmt(Ident(y))]));
      var e := Call(Ident(f), []);
      var b := Bind(h, decl.params, e, 0, Child(closure), st, fuel);
      var asWritten := EnterAsWritten(h, decl, e, b, fuel);
      var corrected := Enter(h, decl, e, b, fuel);
      asWritten == Failed(Raised(UndefinedIdentifier(y)), State(Child(closure), st.out)) &&
      asWritten.st.env.Get(f).None? &&
      corrected == Failed(Raised(UndefinedIdentifier(y)), st) &&
      corrected.st.env.Get(f).Some?
  {
    var decl := FuncDecl(f, [], Block([ExprStmt(Ident(y))]));
    var e := Call(Ident(f), []);
    var inner := State(Child(closure), st.out);
    assert Statement(h, ExprStmt(Ident(y)), inner, fuel - 1) == Failed(Raised(UndefinedIdentifier(y)), inner);
    assert Body(h, decl.body, inner, fuel - 1) == Failed(Raised(UndefinedIdentifier(y)), inner);
  }

  // ---------------------------------------------------------------------
  // Blocks, `return`, `if` and `while`
  // ---------------------------------------------------------------------

  /**
   * A block runs in a child scope and puts the enclosing environment back on
   * every exit (completion, `return` or error); what it yields is what its
   * statements yield.
   */
  lemma BlockScope(h: FloatHost, stmts: seq<Stmt>, st: State, fuel: nat)
    ensures var r := Statement(h, Block(stmts), st, fuel);
      var inner := Statements(h, Block(stmts), 0, st.(env := Child(st.env)), fuel);
      r.st == State(st.env, inner.st.out) && (r.Ran? <==> inner.Ran?) &&
      (r.Ran? ==> r.value == inner.value) && (r.Failed? ==> r.fault == inner.fault)
  {
  }

  /**
   * Once a statement of a block returns or fails, the statements after it do
   * not run: appending statements to such a block changes nothing.
   */
  lemma {:induction false} ReturnSkipsRest(h: FloatHost, stmts: seq<Stmt>, rest: seq<Stmt>, i: nat, st: State, fuel: nat)
    requires i <= |stmts|
    requires var r := Statements(h, Block(stmts), i, st, fuel); r.Failed? || r.value.Some?
    ensures Statements(h, Block(stmts + rest), i, st, fuel) == Statements(h, Block(stmts), i, st, fuel)
    decreases |stmts| - i
  {
    if i < |stmts| {
      assert (stmts + rest)[i] == stmts[i];
      var r := Statement(h, stmts[i], st, fuel);
      if !(r.Failed? || r.value.Some?) {
        ReturnSkipsRest(h, stmts, rest, i + 1, r.st, fuel);
      }
    }
  }

  /** An `if` statement always completes with no value: a `return` inside a branch is dropped. */
  lemma IfYieldsNone(h: FloatHost, s: Stmt, st: State, fuel: nat)
    requires s.If?
    ensures var r := Statement(h, s, st, fuel); r.Ran? ==> r.value.None?
  {
    var c := Expression(h, s.condition, st, fuel);
    if c.Ran? && !Truthy(c.value) {
      ElifsYieldNone(h, s, 0, c.st, fuel);
    }
  }

  lemma {:induction false} ElifsYieldNone(h: FloatHost, s: Stmt, i: nat, st: State, fuel: nat)
    requires s.If? && i <= |s.elifBranches|
    ensures var r := Elifs(h, s, i, st, fuel); r.Ran? ==> r.value.None?
    decreases |s.elifBranches| - i
  {
    if i < |s.elifBranches| {
      var c := Expression(h, s.elifBranches[i].0, st, fuel);
      if c.Ran? && !Truthy(c.value) {
        ElifsYieldNone(h, s, i + 1, c.st, fuel);
      }
    }
  }

  /** A `while` statement always completes with no value: a `return` in its body is dropped and the loop goes on. */
  lemma {:induction false} WhileYieldsNone(h: FloatHost, s: Stmt, st: State, fuel: nat)
    requires s.While?
    ensures var r := Statement(h, s, st, fuel); r.Ran? ==> r.value.None?
    decreases fuel
  {
    var c := Expression(h, s.condition, st, fuel);
    if c.Ran? && Truthy(c.value) && fuel > 0 {
      var b := Statement(h, s.body, c.st, fuel);
      if b.Ran? {
        assert Statement(h, s, st, fuel) == WhileStatement(h, s, b.st, fuel - 1);
        WhileYieldsNone(h, s, b.st, fuel - 1);
      }
    }
  }

  // ---------------------------------------------------------------------
  // Programs
  // ---------------------------------------------------------------------

  /**
   * A program is its statements in sequence: running `a + b` runs `a`, stops
   * there if it failed, and otherwise runs `b` from where `a` left off.
   */
  lemma ProgramSequence(h: FloatHost, a: seq<Stmt>, b: seq<Stmt>, st: State, fuel: nat)
    ensures var r := Run(h, Program(a), st, fuel);
      Run(h, Program(a + b), st, fuel) == if r.Failed? then r else Run(h, Program(b), r.st, fuel)
  {
    ProgramFromSequence(h, a, b, 0, st, fuel);
  }

  lemma {:induction false} ProgramFromSequence(h: FloatHost, a: seq<Stmt>, b: seq<Stmt>, i: nat, st: State, fuel: nat)
    requires i <= |a|
    ensures var r := ProgramFrom(h, Program(a), i, st, fuel);
      ProgramFrom(h, Program(a + b), i, st, fuel) == if r.Failed? then r else ProgramFrom(h, Program(b), 0, r.st, fuel)
    decreases |a| - i
  {
    if i == |a| {
      ProgramFromShift(h, a, b, 0, st, fuel);
    } else {
      assert (a + b)[i] == a[i];
      var r := Statement(h, a[i], st, fuel);
      if r.Ran? {
        ProgramFromSequence(h, a, b, i + 1, r.st, fuel);
      }
    }
  }

  /** Running `a + b` from position `|a| + j` is running `b` from position `j`. */
  lemma {:induction false} ProgramFromShift(h: FloatHost, a: seq<Stmt>, b: seq<Stmt>, j: nat, st: State, fuel: nat)
    requires j <= |b|
    ensures ProgramFrom(h, Program(a + b), |a| + j, st, fuel) == ProgramFrom(h, Program(b), j, st, fuel)
    decreases |b| - j
  {
    if j < |b| {
      assert (a + b)[|a| + j] == b[j];
      var r := Statement(h, b[j], st, fuel);
      if r.Ran? {
        ProgramFromShift(h, a, b, j + 1, r.st, fuel);
      }
    }
  }

  /** A `return` at the top level does not stop the program: the statements after it still run. */
  lemma TopLevelReturnContinues(h: FloatHost, value: Option<Expr>, rest: seq<Stmt>, st: State, fuel: nat)
    ensures var r := Statement(h, Return(value), st, fuel);
      r.Ran? ==> Run(h, Program([Return(value)] + rest), st, fuel) == Run(h, Program(rest), r.st, fuel)
  {
    var r := Statement(h, Return(value), st, fuel);
    if r.Ran? {
      assert Run(h, Program([Return(value)]), st, fuel) == ProgramFrom(h, Program([Return(value)]), 1, r.st, fuel);
      ProgramSequence(h, [Return(value)], rest, st, fuel);
    }
  }

  // ---------------------------------------------------------------------
  // Calls
  // ---------------------------------------------------------------------

  /** Calling a value that is neither a function nor a built-in is an error, raised after the callee is evaluated. */
  lemma CallingNonFunction(h: FloatHost, callee: Expr, args: seq<Expr>, st: State, fuel: nat)
    ensures var c := Expression(h, callee, st, fuel);
      c.Ran? && !c.value.Builtin? && !c.value.Function? ==>
        Expression(h, Call(callee, args), st, fuel) == Failed(Raised(Values.CallNonFunction), c.st)
  {
    assert Expression(h, Call(callee, args), st, fuel) == CallExpression(h, Call(callee, args), st, fuel);
  }

  /** The names of the parameters from `i` on. */
  ghost function ParamNames(params: seq<Param>, i: nat): set<Bytes> {
    set j | i <= j < |params| :: params[j].name
  }

  /**
   * Binding puts every parameter from `i` on, and nothing else, into the
   * call scope, and leaves the scope's parent alone.
   */
  lemma {:induction false} BindDefinesParams(h: FloatHost, params: seq<Param>, e: Expr, i: nat, callEnv: Env, st: State, fuel: nat)
    requires e.Call? && i <= |params|
    ensures var r := Bind(h, params, e, i, callEnv, st, fuel);
      r.Ran? ==> r.value.parent == callEnv.parent && r.value.values.Keys == callEnv.values.Keys + ParamNames(params, i)
    decreases |params| - i
  {
    if i < |params| {
      assert ParamNames(params, i) == {params[i].name} + ParamNames(params, i + 1);
      var v := if i < |e.args| then Expression(h, e.args[i], st, fuel) else Ran(Nil, st);
      if v.Ran? {
        BindDefinesParams(h, params, e, i + 1, callEnv.Define(params[i].name, v.value), v.st, fuel);
      }
    }
  }

  /**
   * Parameters without an argument are bound to `nil`, without evaluating
   * anything; every other name keeps its binding.
   */
  lemma {:induction false} MissingArgumentsAreNil(h: FloatHost, params: seq<Param>, e: Expr, i: nat, callEnv: Env, st: State, fuel: nat)
    requires e.Call? && |e.args| <= i <= |params|
    ensures var r := Bind(h, params, e, i, callEnv, st, fuel);
      r.Ran? && r.st == st &&
      (forall j | i <= j < |params| :: r.value.Get(params[j].name) == Some(Nil)) &&
      (forall name | name !in ParamNames(params, i) :: r.value.Get(name) == callEnv.Get(name))
    decreases |params| - i
  {
    if i < |params| {
      assert ParamNames(params, i) == {params[i].name} + ParamNames(params, i + 1);
      MissingArgumentsAreNil(h, params, e, i + 1, callEnv.Define(params[i].name, Nil), st, fuel);
    }
  }

  /** Arguments beyond the parameters are never evaluated: dropping them changes nothing. */
  lemma {:induction false} ExtraArgumentsIgnored(h: FloatHost, params: seq<Param>, callee: Expr, args: seq<Expr>, i: nat, callEnv: Env, st: State, fuel: nat)
    requires i <= |params| <= |args|
    ensures Bind(h, params, Call(callee, args), i, callEnv, st, fuel)
         == Bind(h, params, Call(callee, args[..|params|]), i, callEnv, st, fuel)
    decreases |params| - i
  {
    if i < |params| {
      assert args[..|params|][i] == args[i];
      var a := Expression(h, args[i], st, fuel);
      if a.Ran? {
        ExtraArgumentsIgnored(h, params, callee, args, i + 1, callEnv.Define(params[i].name, a.value), a.st, fuel);
      }
    }
  }

  /**
   * A function declaration captures the scope before its own name is
   * defined, so the closure does not see the function: a body that calls
   * the function by name fails with an undefined identifier.
   */
  lemma SelfCallUndefined(h: FloatHost, f: Bytes, st: State, fuel: nat)
    requires st.env.Get(f).None? && fuel > 0
    ensures var decl := FuncDecl(f, [], Block([ExprStmt(Call(Ident(f), []))]));
      var r := Run(h, Program([Func(decl), ExprStmt(Call(Ident(f), []))]), st, fuel);
      r.Failed? && r.fault == Raised(UndefinedIdentifier(f))
  {
    var decl := FuncDecl(f, [], Block([ExprStmt(Call(Ident(f), []))]));
    var call := Call(Ident(f), []);
    var st1 := st.(env := st.env.Define(f, Function(decl, Some(st.env))));
    var inner := State(Child(st.env), st.out);
    assert Child(st.env).Get(f).None?;
    assert Expression(h, Ident(f), inner, fuel - 1) == Failed(Raised(UndefinedIdentifier(f)), inner);
    assert Expression(h, call, inner, fuel - 1) == CallExpression(h, call, inner, fuel - 1);
    assert Expression(h, call, inner, fuel - 1) == Failed(Raised(UndefinedIdentifier(f)), inner);
    assert Statement(h, ExprStmt(call), inner, fuel - 1) == Failed(Raised(UndefinedIdentifier(f)), inner);
    assert Body(h, decl.body, inner, fuel - 1) == Failed(Raised(UndefinedIdentifier(f)), inner);
    assert st1.env.Get(f) == Some(Function(decl, Some(st.env)));
    assert Bind(h, decl.params, call, 0, Child(st.env), st1, fuel) == Ran(Child(st.env), st1);
    assert CallFunction(h, decl, Some(st.env), call, st1, fuel) == Failed(Raised(UndefinedIdentifier(f)), st1);
    assert Expression(h, Ident(f), st1, fuel) == Ran(Function(decl, Some(st.env)), st1);
    assert Expression(h, call, st1, fuel) == CallExpression(h, call, st1, fuel);
    assert Expression(h, call, st1, fuel) == Failed(Raised(UndefinedIdentifier(f)), st1);
    var p := Program([Func(decl), ExprStmt(call)]);
    assert Statement(h, Func(decl), st, fuel) == Ran(None, st1);
    assert ProgramFrom(h, p, 1, st1, fuel) == Failed(Raised(UndefinedIdentifier(f)), st1);
  }

  // ---------------------------------------------------------------------
  // Table literals and objects
  // ---------------------------------------------------------------------

  /** The keys of the fields from `i` on: a name, or the position among all fields in decimal. */
  ghost function FieldKeys(fields: seq<TableField>, i: nat): set<Bytes> {
    set j | i <= j < |fields| :: FieldKey(fields[j], j)
  }

  /** A table literal builds a table with one key per field and no other. */
  lemma {:induction false} TableLiteralKeys(h: FloatHost, e: Expr, i: nat, acc: map<Bytes, Value>, st: State, fuel: nat)
    requires e.TableLiteral? && i <= |e.fields|
    ensures var r := Fields(h, e, i, acc, st, fuel);
      r.Ran? ==> r.value.Table? && r.value.entries.Keys == acc.Keys + FieldKeys(e.fields, i)
    decreases |e.fields| - i
  {
    if i < |e.fields| {
      assert FieldKeys(e.fields, i) == {FieldKey(e.fields[i], i)} + FieldKeys(e.fields, i + 1);
      var a := Expression(h, e.fields[i].value, st, fuel);
      if a.Ran? {
        TableLiteralKeys(h, e, i + 1, acc[FieldKey(e.fields[i], i) := a.value], a.st, fuel);
      }
    }
  }

  /** The table key a member contributes: `var` declarations and methods have one, events none. */
  predicate HasEntry(m: ObjectMember) {
    (m.Var? && m.decl.VarDecl?) || m.Method?
  }

  function EntryName(m: ObjectMember): Bytes
    requires HasEntry(m)
  {
    if m.Var? then m.decl.name else m.func.name
  }

  ghost function MemberNames(members: seq<ObjectMember>, i: nat): set<Bytes> {
    set j | i <= j < |members| && HasEntry(members[j]) :: EntryName(members[j])
  }

  /**
   * An object's table has an entry for each `var` and method member and
   * none for events; building it leaves the environment alone.
   */
  lemma {:induction false} ObjectMembers(h: FloatHost, s: Stmt, i: nat, acc: map<Bytes, Value>, st: State, fuel: nat)
    requires s.Object? && i <= |s.obj.members|
    ensures var r := Members(h, s, i, acc, st, fuel);
      r.st.env == st.env && (r.Ran? ==> r.value.Keys == acc.Keys + MemberNames(s.obj.members, i))
    decreases |s.obj.members| - i
  {
    var ms := s.obj.members;
    if i < |ms| {
      assert MemberNames(ms, i) == (if HasEntry(ms[i]) then {EntryName(ms[i])} else {}) + MemberNames(ms, i + 1);
      match ms[i]
      case Var(decl) =>
        if decl.VarDecl? {
          ExpressionKeepsEnv(h, decl.init, st, fuel);
          var a := Expression(h, decl.init, st, fuel);
          if a.Ran? {
            ObjectMembers(h, s, i + 1, acc[decl.name := a.value], a.st, fuel);
          }
        } else {
          ObjectMembers(h, s, i + 1, acc, st, fuel);
        }
      case Method(f) => ObjectMembers(h, s, i + 1, acc[f.name := Function(f, Some(st.env))], st, fuel);
      case Event(_) => ObjectMembers(h, s, i + 1, acc, st, fuel);
    }
  }
}
