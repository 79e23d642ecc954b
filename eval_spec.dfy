/**
 * The meaning of an ArcScript program: what `Interpreter::eval_expr`,
 * `eval_stmt`, `eval_call`, `call_builtin`, `eval_function_body` and
 * `eval_program` (src/interpreter.rs) compute, as functions of the syntax
 * tree and the interpreter state.
 *
 * The state is the current environment and everything `print`/`println` has
 * written so far. Every evaluation ends with a value and the new state, or
 * with a fault and the state at the point where it stopped, as the Rust
 * code leaves `self.env` when an error propagates through `?`. The one
 * exception is a call whose body fails: the caller's environment is put back
 * here, where the Rust code leaves the call scope in place (`EnterAsWritten`).
 *
 * An ArcScript program need not terminate (`while true do ... end`, or a
 * function that calls itself through an argument), so each function takes a
 * `fuel` budget: a function call and a loop iteration each cost one unit, and
 * running out stops evaluation with `OutOfFuel`, which the Rust code has no
 * counterpart for.
 */
module Evaluation {
  import opened Wrappers
  import opened Text
  import opened Ast
  import opened Values

  /** `self.env`, and the output written so far. */
  datatype State = State(env: Env, out: Bytes)

  /** The outcome of evaluating something that yields a `T`. */
  datatype Eval<+T> = Ran(value: T, st: State) | Failed(fault: Fault, st: State)

  /** The evaluation came to an end within its fuel: it did not stop with `OutOfFuel`. */
  predicate Finishes<T>(r: Eval<T>) {
    !(r.Failed? && r.fault == OutOfFuel)
  }

  /** A pure operation's result, in state `st`. */
  function Lift(r: Result<Value, Fault>, st: State): (e: Eval<Value>)
    ensures e.st == st && (e.Ran? <==> r.Ok?)
    ensures r.Ok? ==> e.value == r.value
    ensures r.Err? ==> e.fault == r.error
  {
    if r.Ok? then Ran(r.value, st) else Failed(r.error, st)
  }

  function Expression(h: FloatHost, e: Expr, st: State, fuel: nat): Eval<Value>
    decreases fuel, e, 3
  {
    match e
    case Lit(l) => Ran(EvalLiteral(h, l), st)
    case Ident(name) =>
      var v := st.env.Get(name);
      if v.Some? then Ran(v.value, st) else Failed(Raised(UndefinedIdentifier(name)), st)
    case Unary(op, operand) =>
      var a := Expression(h, operand, st, fuel);
      if a.Failed? then a else Lift(ApplyUnary(op, a.value), a.st)
    case Binary(_, _, _) => BinaryExpression(h, e, st, fuel)
    case Call(_, _) => CallExpression(h, e, st, fuel)
    case Member(receiver, field) =>
      var a := Expression(h, receiver, st, fuel);
      if a.Failed? then a else Lift(MemberOf(a.value, field), a.st)
    case Index(_, _) => IndexExpression(h, e, st, fuel)
    case TableLiteral(_) => Fields(h, e, 0, map[], st, fuel)
  }

  /** Both operands, left first, then the operator. */
  function BinaryExpression(h: FloatHost, e: Expr, st: State, fuel: nat): Eval<Value>
    requires e.Binary?
    decreases fuel, e, 2
  {
    var a := Expression(h, e.left, st, fuel);
    if a.Failed? then a
    else
      var b := Expression(h, e.right, a.st, fuel);
      if b.Failed? then b else Lift(ApplyBinary(h, e.op, a.value, b.value), b.st)
  }

  /** The receiver, then the index, then the lookup. */
  function IndexExpression(h: FloatHost, e: Expr, st: State, fuel: nat): Eval<Value>
    requires e.Index?
    decreases fuel, e, 2
  {
    var a := Expression(h, e.receiver, st, fuel);
    if a.Failed? then a
    else
      var b := Expression(h, e.index, a.st, fuel);
      if b.Failed? then b else Lift(IndexOf(a.value, b.value), b.st)
  }

  /** The key a table-literal field is stored under: its name, or its position among all fields. */
  function FieldKey(f: TableField, idx: nat): Bytes {
    if f.KeyValue? then f.key else ToDecimal(idx)
  }

  /** The fields from `i` on, in order, into the table `acc`; a later key overwrites. */
  function Fields(h: FloatHost, e: Expr, i: nat, acc: map<Bytes, Value>, st: State, fuel: nat): Eval<Value>
    requires e.TableLiteral? && i <= |e.fields|
    decreases fuel, e, 2, |e.fields| - i
  {
    if i == |e.fields| then Ran(Table(acc), st)
    else
      var a := Expression(h, e.fields[i].value, st, fuel);
      if a.Failed? then a
      else Fields(h, e, i + 1, acc[FieldKey(e.fields[i], i) := a.value], a.st, fuel)
  }

  /** `eval_call`: the callee, then a built-in or a function; anything else cannot be called. */
  function CallExpression(h: FloatHost, e: Expr, st: State, fuel: nat): Eval<Value>
    requires e.Call?
    decreases fuel, e, 2
  {
    var c := Expression(h, e.callee, st, fuel);
    if c.Failed? then c
    else match c.value
      case Builtin(name) => CallBuiltin(h, name, e, c.st, fuel)
      case Function(decl, closure) => CallFunction(h, decl, closure, e, c.st, fuel)
      case _ => Failed(Raised(CallNonFunction), c.st)
  }

  /**
   * A call of a user function: the arguments are bound in a fresh scope inside
   * the closure (or, without one, inside the caller's scope), then the body
   * runs there.
   */
  function CallFunction(h: FloatHost, decl: FuncDecl, closure: Option<Env>, e: Expr, st: State, fuel: nat): Eval<Value>
    requires e.Call?
    decreases fuel, e, 1
  {
    var parent := if closure.Some? then closure.value else st.env;
    Enter(h, decl, e, Bind(h, decl.params, e, 0, Child(parent), st, fuel), fuel)
  }

  /**
   * The body of `decl` in the call scope `b` has built, at the cost of one
   * unit of fuel. The caller's environment comes back on every exit, and a
   * body without `return` gives `nil`.
   */
  function Enter(h: FloatHost, decl: FuncDecl, e: Expr, b: Eval<Env>, fuel: nat): Eval<Value>
    requires e.Call?
    decreases fuel, e, 0
  {
    if b.Failed? then Failed(b.fault, b.st)
    else if fuel == 0 then Failed(OutOfFuel, b.st)
    else
      var r := Body(h, decl.body, State(b.value, b.st.out), fuel - 1);
      if r.Failed? then Failed(r.fault, State(b.st.env, r.st.out))
      else Ran(r.value.GetOr(Nil), State(b.st.env, r.st.out))
  }

  /**
   * `Enter` as src/interpreter.rs:160-162 is written: when the body fails, `?`
   * returns before `self.env = saved_env`, so the interpreter is left in the
   * call scope.
   */
  function EnterAsWritten(h: FloatHost, decl: FuncDecl, e: Expr, b: Eval<Env>, fuel: nat): Eval<Value>
    requires e.Call?
  {
    if b.Failed? then Failed(b.fault, b.st)
    else if fuel == 0 then Failed(OutOfFuel, b.st)
    else
      var r := Body(h, decl.body, State(b.value, b.st.out), fuel - 1);
      if r.Failed? then Failed(r.fault, r.st)
      else Ran(r.value.GetOr(Nil), State(b.st.env, r.st.out))
  }

  /**
   * Parameters from `i` on: parameter `j` gets argument `j`, evaluated in the
   * caller's scope, or `nil` when there are fewer arguments.
   */
  function Bind(h: FloatHost, params: seq<Param>, e: Expr, i: nat, callEnv: Env, st: State, fuel: nat): Eval<Env>
    requires e.Call? && i <= |params|
    decreases fuel, e, 0, |params| - i
  {
    if i == |params| then Ran(callEnv, st)
    else if i < |e.args| then
      var a := Expression(h, e.args[i], st, fuel);
      if a.Failed? then Failed(a.fault, a.st)
      else Bind(h, params, e, i + 1, callEnv.Define(params[i].name, a.value), a.st, fuel)
    else Bind(h, params, e, i + 1, callEnv.Define(params[i].name, Nil), st, fuel)
  }

  /** `call_builtin`. */
  function CallBuiltin(h: FloatHost, name: Bytes, e: Expr, st: State, fuel: nat): Eval<Value>
    requires e.Call?
    decreases fuel, e, 1
  {
    if name == PRINT || name == PRINTLN then Printed(name, Print(h, e, 0, st, fuel))
    else if IsUnaryBuiltin(name) then
      if |e.args| == 0 then Failed(Raised(MissingArgument(name)), st)
      else
        var a := Expression(h, e.args[0], st, fuel);
        if a.Failed? then a else Lift(ApplyBuiltin(h, name, a.value), a.st)
    else Failed(Raised(UnknownBuiltin(name)), st)
  }

  /** `print` returns `nil`; `println` also ends the line. */
  function Printed(name: Bytes, p: Eval<()>): Eval<Value> {
    if p.Failed? then Failed(p.fault, p.st)
    else if name == PRINTLN then Ran(Nil, p.st.(out := p.st.out + [NEWLINE]))
    else Ran(Nil, p.st)
  }

  const SPACE: byte := ' ' as byte
  const NEWLINE: byte := '\n' as byte

  /**
   * The arguments of `print` from `i` on: a space before each one after the
   * first (written before the argument is evaluated), then its text.
   */
  function Print(h: FloatHost, e: Expr, i: nat, st: State, fuel: nat): Eval<()>
    requires e.Call? && i <= |e.args|
    decreases fuel, e, 0, |e.args| - i
  {
    if i == |e.args| then Ran((), st)
    else
      var before := if i > 0 then st.(out := st.out + [SPACE]) else st;
      var a := Expression(h, e.args[i], before, fuel);
      if a.Failed? then Failed(a.fault, a.st)
      else Print(h, e, i + 1, a.st.(out := a.st.out + Show(h, a.value)), fuel)
  }

  /** `eval_function_body`: a block body runs in the call scope itself, without a scope of its own. */
  function Body(h: FloatHost, body: Stmt, st: State, fuel: nat): Eval<Option<Value>>
    decreases fuel, body, 3
  {
    if body.Block? then Statements(h, body, 0, st, fuel) else Statement(h, body, st, fuel)
  }

  /** The statements of a block from `i` on, until one fails or returns. */
  function Statements(h: FloatHost, block: Stmt, i: nat, st: State, fuel: nat): Eval<Option<Value>>
    requires block.Block? && i <= |block.stmts|
    decreases fuel, block, 1, |block.stmts| - i
  {
    if i == |block.stmts| then Ran(None, st)
    else
      var r := Statement(h, block.stmts[i], st, fuel);
      if r.Failed? || r.value.Some? then r else Statements(h, block, i + 1, r.st, fuel)
  }

  /** `Ok(Some(v))` means `return v`; `Ok(None)` means the statement completed. */
  function Statement(h: FloatHost, s: Stmt, st: State, fuel: nat): Eval<Option<Value>>
    decreases fuel, s, 2
  {
    match s
    case VarDecl(name, init) =>
      var a := Expression(h, init, st, fuel);
      if a.Failed? then Failed(a.fault, a.st)
      else Ran(None, a.st.(env := a.st.env.Define(name, a.value)))
    case ExprStmt(x) =>
      var a := Expression(h, x, st, fuel);
      if a.Failed? then Failed(a.fault, a.st) else Ran(None, a.st)
    case Block(_) =>
      var r := Statements(h, s, 0, st.(env := Child(st.env)), fuel);
      Restore(r, st.env)
    case If(_, _, _, _) => IfStatement(h, s, st, fuel)
    case While(_, _) => WhileStatement(h, s, st, fuel)
    case Return(value) =>
      if value.None? then Ran(Some(Nil), st)
      else
        var a := Expression(h, value.value, st, fuel);
        if a.Failed? then Failed(a.fault, a.st) else Ran(Some(a.value), a.st)
    case Func(decl) =>
      Ran(None, st.(env := st.env.Define(decl.name, Function(decl, Some(st.env)))))
    case Object(obj) => Declare(obj.name, Members(h, s, 0, map[], st, fuel))
  }

  /** An object's name bound to the table of its members. */
  function Declare(name: Bytes, m: Eval<map<Bytes, Value>>): (r: Eval<Option<Value>>)
    ensures r.Ran? <==> m.Ran?
    ensures r.Ran? ==> r.value.None? && r.st.env.Get(name) == Some(Table(m.value))
  {
    if m.Failed? then Failed(m.fault, m.st)
    else Ran(None, m.st.(env := m.st.env.Define(name, Table(m.value))))
  }

  /** A block's outcome with the environment it started with put back. */
  function Restore<T>(r: Eval<T>, env: Env): (o: Eval<T>)
    ensures o.st == State(env, r.st.out)
    ensures o.Ran? <==> r.Ran?
    ensures r.Ran? ==> o.value == r.value
    ensures r.Failed? ==> o.fault == r.fault
  {
    if r.Ran? then Ran(r.value, State(env, r.st.out)) else Failed(r.fault, State(env, r.st.out))
  }

  /** A branch runs for its effect; a `return` inside it is dropped. */
  function Discard(r: Eval<Option<Value>>): (o: Eval<Option<Value>>)
    ensures o.st == r.st && (o.Ran? <==> r.Ran?)
    ensures o.Ran? ==> o.value == None
    ensures r.Failed? ==> o.fault == r.fault
  {
    if r.Ran? then Ran(None, r.st) else r
  }

  function IfStatement(h: FloatHost, s: Stmt, st: State, fuel: nat): Eval<Option<Value>>
    requires s.If?
    decreases fuel, s, 1
  {
    var c := Expression(h, s.condition, st, fuel);
    if c.Failed? then Failed(c.fault, c.st)
    else if Truthy(c.value) then Discard(Statement(h, s.thenBranch, c.st, fuel))
    else Elifs(h, s, 0, c.st, fuel)
  }

  /** The `elif` conditions from `i` on, in order; the first that holds runs its block, else the `else`. */
  function Elifs(h: FloatHost, s: Stmt, i: nat, st: State, fuel: nat): Eval<Option<Value>>
    requires s.If? && i <= |s.elifBranches|
    decreases fuel, s, 0, |s.elifBranches| - i
  {
    if i == |s.elifBranches| then
      if s.elseBranch.Some? then Discard(Statement(h, s.elseBranch.value, st, fuel)) else Ran(None, st)
    else
      var c := Expression(h, s.elifBranches[i].0, st, fuel);
      if c.Failed? then Failed(c.fault, c.st)
      else if Truthy(c.value) then Discard(Statement(h, s.elifBranches[i].1, c.st, fuel))
      else Elifs(h, s, i + 1, c.st, fuel)
  }

  /** The condition, then the body, while the condition holds; each iteration costs one unit of fuel. */
  function WhileStatement(h: FloatHost, s: Stmt, st: State, fuel: nat): Eval<Option<Value>>
    requires s.While?
    decreases fuel, s, 1
  {
    var c := Expression(h, s.condition, st, fuel);
    if c.Failed? then Failed(c.fault, c.st)
    else if !Truthy(c.value) then Ran(None, c.st)
    else if fuel == 0 then Failed(OutOfFuel, c.st)
    else
      var b := Statement(h, s.body, c.st, fuel);
      if b.Failed? then b else WhileStatement(h, s, b.st, fuel - 1)
  }

  /**
   * The members of an object from `i` on into the table `acc`: a `var` member
   * is evaluated, a method becomes a closure over the current scope, an event
   * adds nothing.
   */
  function Members(h: FloatHost, s: Stmt, i: nat, acc: map<Bytes, Value>, st: State, fuel: nat): Eval<map<Bytes, Value>>
    requires s.Object? && i <= |s.obj.members|
    decreases fuel, s, 1, |s.obj.members| - i
  {
    if i == |s.obj.members| then Ran(acc, st)
    else match s.obj.members[i]
      case Var(decl) =>
        if decl.VarDecl? then
          var a := Expression(h, decl.init, st, fuel);
          if a.Failed? then Failed(a.fault, a.st)
          else Members(h, s, i + 1, acc[decl.name := a.value], a.st, fuel)
        else Members(h, s, i + 1, acc, st, fuel)
      case Method(f) => Members(h, s, i + 1, acc[f.name := Function(f, Some(st.env))], st, fuel)
      case Event(_) => Members(h, s, i + 1, acc, st, fuel)
  }

  /** `eval_program`: the statements in order, stopping at the first fault; a top-level `return` does not stop it. */
  function Run(h: FloatHost, p: Program, st: State, fuel: nat): Eval<()> {
    ProgramFrom(h, p, 0, st, fuel)
  }

  function ProgramFrom(h: FloatHost, p: Program, i: nat, st: State, fuel: nat): Eval<()>
    requires i <= |p.body|
    decreases |p.body| - i
  {
    if i == |p.body| then Ran((), st)
    else
      var r := Statement(h, p.body[i], st, fuel);
      if r.Failed? then Failed(r.fault, r.st) else ProgramFrom(h, p, i + 1, r.st, fuel)
  }
}
