/**
 * The ArcScript interpreter as a stateful object (src/interpreter.rs): the
 * current environment is a field that the evaluation methods replace as
 * scopes are entered and left, and `print` appends to the output. Each
 * method is proved to compute what the function of the same name in
 * `Evaluation` states, for every run that finishes within the given ghost
 * fuel.
 */
module Interpreting {
  import opened Wrappers
  import opened Text
  import opened Ast
  import opened Values
  import opened Evaluation

  /** A method's result together with the state it leaves, in the shape of the spec functions. */
  function Outcome<T>(r: Result<T, Fault>, st: State): Eval<T> {
    match r
    case Ok(v) => Ran(v, st)
    case Err(f) => Failed(f, st)
  }

  class Interpreter {
    const host: FloatHost
    var env: Env
    var out: Bytes

    function Current(): State
      reads this
    {
      State(env, out)
    }

    /** `Interpreter::new`: the built-ins bound in a global scope, nothing written yet. */
    constructor(h: FloatHost)
      ensures host == h && env == Globals() && out == []
    {
      host := h;
      env := Globals();
      out := [];
    }

    /** `get_global`: the innermost binding of `name` in the current environment. */
    function GetGlobal(name: Bytes): (r: Option<Value>)
      reads this
      ensures name in env.values ==> r == Some(env.values[name])
    {
      env.Get(name)
    }

    /** `eval_program`: the statements in order, up to the first fault. */
    method EvalProgram(p: Program, ghost fuel: nat) returns (r: Result<(), Fault>)
      requires Finishes(Run(host, p, Current(), fuel))
      modifies this
      ensures Outcome(r, Current()) == old(Run(host, p, Current(), fuel))
    {
      var i := 0;
      while i < |p.body|
        invariant i <= |p.body|
        invariant ProgramFrom(host, p, i, Current(), fuel) == old(Run(host, p, Current(), fuel))
      {
        var ignored :- EvalStmt(p.body[i], fuel);
        i := i + 1;
      }
      r := Ok(());
    }

    /** `eval_stmt`. */
    method EvalStmt(s: Stmt, ghost fuel: nat) returns (r: Result<Option<Value>, Fault>)
      requires Finishes(Statement(host, s, Current(), fuel))
      modifies this
      ensures Outcome(r, Current()) == old(Statement(host, s, Current(), fuel))
      decreases fuel, s, 2
    {
      match s
      case VarDecl(name, init) =>
        var v :- EvalExpr(init, fuel);
        env := env.Define(name, v);
        r := Ok(None);
      case ExprStmt(x) =>
        var ignored :- EvalExpr(x, fuel);
        r := Ok(None);
      case Block(_) =>
        r := EvalBlock(s, fuel);
      case If(_, _, _, _) =>
        r := EvalIf(s, fuel);
      case While(_, _) =>
        r := EvalWhile(s, fuel);
      case Return(value) =>
        if value.None? {
          r := Ok(Some(Nil));
        } else {
          var v :- EvalExpr(value.value, fuel);
          r := Ok(Some(v));
        }
      case Func(decl) =>
        var closure := env;
        env := env.Define(decl.name, Function(decl, Some(closure)));
        r := Ok(None);
      case Object(_) =>
        r := EvalObject(s, fuel);
    }

    /** A block: a child scope for its statements, and the previous environment back however it ends. */
    method EvalBlock(s: Stmt, ghost fuel: nat) returns (r: Result<Option<Value>, Fault>)
      requires s.Block? && Finishes(Statement(host, s, Current(), fuel))
      modifies this
      ensures Outcome(r, Current()) == old(Statement(host, s, Current(), fuel))
      decreases fuel, s, 1
    {
      var saved := env;
      env := Child(saved);
      var i := 0;
      while i < |s.stmts|
        invariant i <= |s.stmts|
        invariant Restore(Statements(host, s, i, Current(), fuel), saved) == old(Statement(host, s, Current(), fuel))
      {
        var x := EvalStmt(s.stmts[i], fuel);
        if x.Err? || x.value.Some? {
          env := saved;
          return x;
        }
        i := i + 1;
      }
      env := saved;
      r := Ok(None);
    }

    /** `if`/`elif`/`else`: at most one branch runs, and what it returns is dropped. */
    method EvalIf(s: Stmt, ghost fuel: nat) returns (r: Result<Option<Value>, Fault>)
      requires s.If? && Finishes(Statement(host, s, Current(), fuel))
      modifies this
      ensures Outcome(r, Current()) == old(Statement(host, s, Current(), fuel))
      decreases fuel, s, 1
    {
      assert Statement(host, s, Current(), fuel) == IfStatement(host, s, Current(), fuel);
      var c :- EvalExpr(s.condition, fuel);
      if Truthy(c) {
        var ignored :- EvalStmt(s.thenBranch, fuel);
      } else {
        var handled := false;
        var i := 0;
        while i < |s.elifBranches| && !handled
          invariant i <= |s.elifBranches|
          invariant !handled ==> Elifs(host, s, i, Current(), fuel) == old(Statement(host, s, Current(), fuel))
          invariant handled ==> Ran(None, Current()) == old(Statement(host, s, Current(), fuel))
        {
          var ci :- EvalExpr(s.elifBranches[i].0, fuel);
          if Truthy(ci) {
            var ignored :- EvalStmt(s.elifBranches[i].1, fuel);
            handled := true;
          }
          i := i + 1;
        }
        if !handled && s.elseBranch.Some? {
          var ignored :- EvalStmt(s.elseBranch.value, fuel);
        }
      }
      r := Ok(None);
    }

    /** `while`: the body runs as long as the condition holds; what it returns is dropped. */
    method EvalWhile(s: Stmt, ghost fuel: nat) returns (r: Result<Option<Value>, Fault>)
      requires s.While? && Finishes(Statement(host, s, Current(), fuel))
      modifies this
      ensures Outcome(r, Current()) == old(Statement(host, s, Current(), fuel))
      decreases fuel, s, 1
    {
      ghost var f: nat := fuel;
      while true
        invariant f <= fuel
        invariant WhileStatement(host, s, Current(), f) == old(Statement(host, s, Current(), fuel))
        decreases f
      {
        var c :- EvalExpr(s.condition, f);
        if !Truthy(c) {
          break;
        }
        var ignored :- EvalStmt(s.body, f);
        f := f - 1;
      }
      r := Ok(None);
    }

    /** An object declaration: a table of its `var` members and method closures, bound to its name. */
    method EvalObject(s: Stmt, ghost fuel: nat) returns (r: Result<Option<Value>, Fault>)
      requires s.Object? && Finishes(Statement(host, s, Current(), fuel))
      modifies this
      ensures Outcome(r, Current()) == old(Statement(host, s, Current(), fuel))
      decreases fuel, s, 1
    {
      var table: map<Bytes, Value> := map[];
      var i := 0;
      while i < |s.obj.members|
        invariant i <= |s.obj.members|
        invariant Declare(s.obj.name, Members(host, s, i, table, Current(), fuel)) == old(Statement(host, s, Current(), fuel))
      {
        match s.obj.members[i] {
          case Var(decl) =>
            if decl.VarDecl? {
              var v :- EvalExpr(decl.init, fuel);
              table := table[decl.name := v];
            }
          case Method(f) =>
            table := table[f.name := Function(f, Some(env))];
          case Event(_) =>
        }
        i := i + 1;
      }
      env := env.Define(s.obj.name, Table(table));
      r := Ok(None);
    }

    /** `eval_expr`. */
    method EvalExpr(e: Expr, ghost fuel: nat) returns (r: Result<Value, Fault>)
      requires Finishes(Expression(host, e, Current(), fuel))
      modifies this
      ensures Outcome(r, Current()) == old(Expression(host, e, Current(), fuel))
      decreases fuel, e, 3
    {
      match e
      case Lit(l) =>
        r := Ok(EvalLiteral(host, l));
      case Ident(name) =>
        var v := env.Get(name);
        if v.Some? {
          r := Ok(v.value);
        } else {
          r := Err(Raised(UndefinedIdentifier(name)));
        }
      case Unary(op, operand) =>
        var v :- EvalExpr(operand, fuel);
        r := ApplyUnary(op, v);
      case Binary(left, op, right) =>
        assert Expression(host, e, Current(), fuel) == BinaryExpression(host, e, Current(), fuel);
        var a :- EvalExpr(left, fuel);
        var b :- EvalExpr(right, fuel);
        r := ApplyBinary(host, op, a, b);
      case Call(_, _) =>
        r := EvalCall(e, fuel);
      case Member(receiver, field) =>
        var v :- EvalExpr(receiver, fuel);
        r := MemberOf(v, field);
      case Index(receiver, index) =>
        assert Expression(host, e, Current(), fuel) == IndexExpression(host, e, Current(), fuel);
        var v :- EvalExpr(receiver, fuel);
        var k :- EvalExpr(index, fuel);
        r := IndexOf(v, k);
      case TableLiteral(_) =>
        r := EvalTable(e, fuel);
    }

    /** A table literal: its fields in order, a positional one keyed by its index. */
    method EvalTable(e: Expr, ghost fuel: nat) returns (r: Result<Value, Fault>)
      requires e.TableLiteral? && Finishes(Expression(host, e, Current(), fuel))
      modifies this
      ensures Outcome(r, Current()) == old(Expression(host, e, Current(), fuel))
      decreases fuel, e, 2
    {
      var table: map<Bytes, Value> := map[];
      var i := 0;
      while i < |e.fields|
        invariant i <= |e.fields|
        invariant Fields(host, e, i, table, Current(), fuel) == old(Expression(host, e, Current(), fuel))
      {
        var v :- EvalExpr(e.fields[i].value, fuel);
        table := table[FieldKey(e.fields[i], i) := v];
        i := i + 1;
      }
      r := Ok(Table(table));
    }

    /** `eval_call`. */
    method EvalCall(e: Expr, ghost fuel: nat) returns (r: Result<Value, Fault>)
      requires e.Call? && Finishes(Expression(host, e, Current(), fuel))
      modifies this
      ensures Outcome(r, Current()) == old(Expression(host, e, Current(), fuel))
      decreases fuel, e, 2
    {
      assert Expression(host, e, Current(), fuel) == CallExpression(host, e, Current(), fuel);
      var callee :- EvalExpr(e.callee, fuel);
      match callee
      case Builtin(name) =>
        r := CallBuiltin(name, e, fuel);
      case Function(decl, closure) =>
        r := CallFunction(decl, closure, e, fuel);
      case _ =>
        r := Err(Raised(CallNonFunction));
    }

    /**
     * Binds the parameters in a scope inside the closure, swaps it in, runs
     * the body and swaps the caller's environment back. The swap back comes
     * before a failure of the body is passed on, so the caller's environment
     * is restored on every exit (see `Evaluation.EnterAsWritten` for the
     * order of src/interpreter.rs:160-162, which skips it on failure).
     */
    method CallFunction(decl: FuncDecl, closure: Option<Env>, e: Expr, ghost fuel: nat) returns (r: Result<Value, Fault>)
      requires e.Call? && Finishes(Evaluation.CallFunction(host, decl, closure, e, Current(), fuel))
      modifies this
      ensures Outcome(r, Current()) == old(Evaluation.CallFunction(host, decl, closure, e, Current(), fuel))
      decreases fuel, e, 1
    {
      var parent := if closure.Some? then closure.value else env;
      var callEnv := Child(parent);
      var i := 0;
      while i < |decl.params|
        invariant i <= |decl.params|
        invariant Enter(host, decl, e, Bind(host, decl.params, e, i, callEnv, Current(), fuel), fuel)
          == old(Evaluation.CallFunction(host, decl, closure, e, Current(), fuel))
      {
        var v: Value;
        if i < |e.args| {
          v :- EvalExpr(e.args[i], fuel);
        } else {
          v := Nil;
        }
        callEnv := callEnv.Define(decl.params[i].name, v);
        i := i + 1;
      }
      var saved := env;
      env := callEnv;
      var result := EvalBody(decl.body, fuel - 1);
      env := saved;
      var returned :- result;
      r := Ok(returned.GetOr(Nil));
    }

    /** `eval_function_body`: a block body runs its statements in the call scope directly. */
    method EvalBody(body: Stmt, ghost fuel: nat) returns (r: Result<Option<Value>, Fault>)
      requires Finishes(Body(host, body, Current(), fuel))
      modifies this
      ensures Outcome(r, Current()) == old(Body(host, body, Current(), fuel))
      decreases fuel, body, 3
    {
      if body.Block? {
        var i := 0;
        while i < |body.stmts|
          invariant i <= |body.stmts|
          invariant Statements(host, body, i, Current(), fuel) == old(Body(host, body, Current(), fuel))
        {
          var x := EvalStmt(body.stmts[i], fuel);
          if x.Err? || x.value.Some? {
            return x;
          }
          i := i + 1;
        }
        r := Ok(None);
      } else {
        r := EvalStmt(body, fuel);
      }
    }

    /** `call_builtin`. */
    method CallBuiltin(name: Bytes, e: Expr, ghost fuel: nat) returns (r: Result<Value, Fault>)
      requires e.Call? && Finishes(Evaluation.CallBuiltin(host, name, e, Current(), fuel))
      modifies this
      ensures Outcome(r, Current()) == old(Evaluation.CallBuiltin(host, name, e, Current(), fuel))
      decreases fuel, e, 1
    {
      if name == PRINT || name == PRINTLN {
        var i := 0;
        while i < |e.args|
          invariant i <= |e.args|
          invariant Printed(name, Print(host, e, i, Current(), fuel)) == old(Evaluation.CallBuiltin(host, name, e, Current(), fuel))
        {
          if i > 0 {
            out := out + [SPACE];
          }
          var v :- EvalExpr(e.args[i], fuel);
          out := out + Show(host, v);
          i := i + 1;
        }
        if name == PRINTLN {
          out := out + [NEWLINE];
        }
        r := Ok(Nil);
      } else if IsUnaryBuiltin(name) {
        if |e.args| == 0 {
          return Err(Raised(MissingArgument(name)));
        }
        var v :- EvalExpr(e.args[0], fuel);
        r := ApplyBuiltin(host, name, v);
      } else {
        r := Err(Raised(UnknownBuiltin(name)));
      }
    }
  }
}
