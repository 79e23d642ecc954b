/**
 * The scenarios of the interpreter's unit tests (src/interpreter.rs:586-722),
 * stated over syntax trees for any names and any starting state, with the
 * names kept apart where the scenario needs it.
 */
module EvalScenarios {
  import opened Wrappers
  import opened Text
  import opened Ast
  import opened Values
  import opened Evaluation

  /** `var x = 1; { var x = 2; }` leaves `x` at 1: the inner declaration shadows and disappears. */
  lemma BlockShadowing(h: FloatHost, x: Bytes, st: State, fuel: nat)
    ensures var p := Program([VarDecl(x, Lit(IntLit(1))), Block([VarDecl(x, Lit(IntLit(2)))])]);
      var r := Run(h, p, st, fuel);
      r.Ran? && r.st.env.Get(x) == Some(Int(1))
  {
    var p := Program([VarDecl(x, Lit(IntLit(1))), Block([VarDecl(x, Lit(IntLit(2)))])]);
    var st1 := st.(env := st.env.Define(x, Int(1)));
    assert Statement(h, p.body[0], st, fuel) == Ran(None, st1);
    var inner := st1.(env := Child(st1.env));
    var st2 := inner.(env := inner.env.Define(x, Int(2)));
    assert Statement(h, VarDecl(x, Lit(IntLit(2))), inner, fuel) == Ran(None, st2);
    assert Statements(h, p.body[1], 0, inner, fuel) == Statements(h, p.body[1], 1, st2, fuel);
    assert Statements(h, p.body[1], 1, st2, fuel) == Ran(None, st2);
    assert Statement(h, p.body[1], st1, fuel) == Ran(None, st1);
    assert ProgramFrom(h, p, 1, st1, fuel) == Ran((), st1);
  }

  /** `var x = 1 / 0;` stops with the division-by-zero error. */
  lemma DivisionByZeroStops(h: FloatHost, x: Bytes, st: State, fuel: nat)
    ensures var p := Program([VarDecl(x, Binary(Lit(IntLit(1)), Div, Lit(IntLit(0))))]);
      Run(h, p, st, fuel) == Failed(Raised(DivisionByZero), st)
  {
    var e := Binary(Lit(IntLit(1)), Div, Lit(IntLit(0)));
    assert Expression(h, e, st, fuel) == BinaryExpression(h, e, st, fuel);
    assert Expression(h, e, st, fuel) == Failed(Raised(DivisionByZero), st);
  }

  /** `var t = {x: 10, y: 20};` binds `t` to a table holding exactly those two entries. */
  lemma TableLiteralEntries(h: FloatHost, t: Bytes, x: Bytes, y: Bytes, st: State, fuel: nat)
    requires x != y
    ensures var lit := TableLiteral([KeyValue(x, Lit(IntLit(10))), KeyValue(y, Lit(IntLit(20)))]);
      var r := Run(h, Program([VarDecl(t, lit)]), st, fuel);
      r.Ran? && r.st.env.Get(t) == Some(Table(map[x := Int(10), y := Int(20)]))
  {
    var lit := TableLiteral([KeyValue(x, Lit(IntLit(10))), KeyValue(y, Lit(IntLit(20)))]);
    assert Fields(h, lit, 0, map[], st, fuel) == Fields(h, lit, 1, map[x := Int(10)], st, fuel);
    assert Fields(h, lit, 1, map[x := Int(10)], st, fuel) == Ran(Table(map[x := Int(10), y := Int(20)]), st);
    var st1 := st.(env := st.env.Define(t, Table(map[x := Int(10), y := Int(20)])));
    var p := Program([VarDecl(t, lit)]);
    assert Statement(h, p.body[0], st, fuel) == Ran(None, st1);
    assert ProgramFrom(h, p, 1, st1, fuel) == Ran((), st1);
  }

  /** `var t = {x: 5}; var result = t.x;` gives `result` the value 5. */
  lemma MemberAccess(h: FloatHost, t: Bytes, x: Bytes, result: Bytes, st: State, fuel: nat)
    ensures var lit := TableLiteral([KeyValue(x, Lit(IntLit(5)))]);
      var p := Program([VarDecl(t, lit), VarDecl(result, Member(Ident(t), x))]);
      var r := Run(h, p, st, fuel);
      r.Ran? && r.st.env.Get(result) == Some(Int(5))
  {
    var lit := TableLiteral([KeyValue(x, Lit(IntLit(5)))]);
    var p := Program([VarDecl(t, lit), VarDecl(result, Member(Ident(t), x))]);
    assert Fields(h, lit, 0, map[], st, fuel) == Fields(h, lit, 1, map[x := Int(5)], st, fuel);
    var st1 := st.(env := st.env.Define(t, Table(map[x := Int(5)])));
    assert Statement(h, p.body[0], st, fuel) == Ran(None, st1);
    assert Expression(h, Member(Ident(t), x), st1, fuel) == Ran(Int(5), st1);
    assert ProgramFrom(h, p, 1, st1, fuel) == Ran((), st1.(env := st1.env.Define(result, Int(5))));
  }

  /** `var t = {name: "test"}; var result = t["name"];` gives `result` the string. */
  lemma IndexAccess(h: FloatHost, t: Bytes, key: Bytes, text: Bytes, result: Bytes, st: State, fuel: nat)
    ensures var lit := TableLiteral([KeyValue(key, Lit(StrLit(text)))]);
      var p := Program([VarDecl(t, lit), VarDecl(result, Index(Ident(t), Lit(StrLit(key))))]);
      var r := Run(h, p, st, fuel);
      r.Ran? && r.st.env.Get(result) == Some(Str(text))
  {
    var lit := TableLiteral([KeyValue(key, Lit(StrLit(text)))]);
    var index := Index(Ident(t), Lit(StrLit(key)));
    var p := Program([VarDecl(t, lit), VarDecl(result, index)]);
    assert Fields(h, lit, 0, map[], st, fuel) == Fields(h, lit, 1, map[key := Str(text)], st, fuel);
    var st1 := st.(env := st.env.Define(t, Table(map[key := Str(text)])));
    assert Statement(h, p.body[0], st, fuel) == Ran(None, st1);
    assert Expression(h, Ident(t), st1, fuel) == Ran(Table(map[key := Str(text)]), st1);
    assert Expression(h, Lit(StrLit(key)), st1, fuel) == Ran(Str(key), st1);
    assert Expression(h, index, st1, fuel) == IndexExpression(h, index, st1, fuel);
    assert Expression(h, index, st1, fuel) == Ran(Str(text), st1);
    assert ProgramFrom(h, p, 1, st1, fuel) == Ran((), st1.(env := st1.env.Define(result, Str(text))));
  }

  /** `object Player: { var hp = 100; } end var p_hp = Player.hp;` gives `p_hp` the value 100. */
  lemma ObjectDeclaration(h: FloatHost, player: Bytes, hp: Bytes, pHp: Bytes, st: State, fuel: nat)
    ensures var obj := Object(ObjectDecl(player, [Var(VarDecl(hp, Lit(IntLit(100))))]));
      var p := Program([obj, VarDecl(pHp, Member(Ident(player), hp))]);
      var r := Run(h, p, st, fuel);
      r.Ran? && r.st.env.Get(pHp) == Some(Int(100))
  {
    var obj := Object(ObjectDecl(player, [Var(VarDecl(hp, Lit(IntLit(100))))]));
    var p := Program([obj, VarDecl(pHp, Member(Ident(player), hp))]);
    assert Members(h, obj, 0, map[], st, fuel) == Members(h, obj, 1, map[hp := Int(100)], st, fuel);
    var st1 := st.(env := st.env.Define(player, Table(map[hp := Int(100)])));
    assert Statement(h, obj, st, fuel) == Ran(None, st1);
    assert Expression(h, Member(Ident(player), hp), st1, fuel) == Ran(Int(100), st1);
    assert ProgramFrom(h, p, 1, st1, fuel) == Ran((), st1.(env := st1.env.Define(pHp, Int(100))));
  }

  /** `var g = 10; func f(): { return g; } end var r = f();` gives `r` the global's value 10. */
  lemma FunctionSeesGlobal(h: FloatHost, g: Bytes, f: Bytes, r: Bytes, st: State, fuel: nat)
    requires g != f && fuel > 0
    ensures var decl := FuncDecl(f, [], Block([Return(Some(Ident(g)))]));
      var p := Program([VarDecl(g, Lit(IntLit(10))), Func(decl), VarDecl(r, Call(Ident(f), []))]);
      var res := Run(h, p, st, fuel);
      res.Ran? && res.st.env.Get(r) == Some(Int(10))
  {
    var decl := FuncDecl(f, [], Block([Return(Some(Ident(g)))]));
    var p := Program([VarDecl(g, Lit(IntLit(10))), Func(decl), VarDecl(r, Call(Ident(f), []))]);
    var st1 := st.(env := st.env.Define(g, Int(10)));
    var st2 := st1.(env := st1.env.Define(f, Function(decl, Some(st1.env))));
    var st3 := st2.(env := st2.env.Define(r, Int(10)));
    assert Statement(h, p.body[0], st, fuel) == Ran(None, st1);
    assert Statement(h, p.body[1], st1, fuel) == Ran(None, st2);
    assert st1.env.values[g] == Int(10);
    CallReturnsCaptured(h, g, f, st1.env, st2, fuel);
    assert Statement(h, p.body[2], st2, fuel) == Ran(None, st3);
    assert ProgramFrom(h, p, 2, st2, fuel) == Ran((), st3);
    assert ProgramFrom(h, p, 1, st1, fuel) == Ran((), st3);
  }

  /** `f()` where `f` is `func f(): { return g; } end` closed over a scope in which `g` is 10. */
  lemma CallReturnsCaptured(h: FloatHost, g: Bytes, f: Bytes, closure: Env, st: State, fuel: nat)
    requires fuel > 0 && g in closure.values && closure.values[g] == Int(10)
    requires st.env.Get(f) == Some(Function(FuncDecl(f, [], Block([Return(Some(Ident(g)))])), Some(closure)))
    ensures Expression(h, Call(Ident(f), []), st, fuel) == Ran(Int(10), st)
  {
    var decl := FuncDecl(f, [], Block([Return(Some(Ident(g)))]));
    var call := Call(Ident(f), []);
    var inner := State(Child(closure), st.out);
    assert Statement(h, Return(Some(Ident(g))), inner, fuel - 1) == Ran(Some(Int(10)), inner);
    assert Body(h, decl.body, inner, fuel - 1) == Ran(Some(Int(10)), inner);
    assert Bind(h, decl.params, call, 0, Child(closure), st, fuel) == Ran(Child(closure), st);
    assert CallFunction(h, decl, Some(closure), call, st, fuel) == Ran(Int(10), st);
    assert Expression(h, call, st, fuel) == CallExpression(h, call, st, fuel);
  }

  /** `func inner(n): { return x + n; } end` */
  function InnerDecl(inner: Bytes, x: Bytes, n: Bytes): FuncDecl {
    FuncDecl(inner, [Param(n)], Block([Return(Some(Binary(Ident(x), Add, Ident(n))))]))
  }

  /** `func makeAdder(): { func inner(n): ... end return inner; } end` */
  function MakeAdderDecl(makeAdder: Bytes, inner: Bytes, x: Bytes, n: Bytes): FuncDecl {
    FuncDecl(makeAdder, [], Block([Func(InnerDecl(inner, x, n)), Return(Some(Ident(inner)))]))
  }

  /**
   * `var x = 10; func makeAdder(): { func inner(n): { return x + n; } end
   * return inner; } end var adder = makeAdder(); var result = adder(5);`
   */
  function ClosureProgram(x: Bytes, makeAdder: Bytes, inner: Bytes, n: Bytes, adder: Bytes, result: Bytes): Program {
    Program([
      VarDecl(x, Lit(IntLit(10))),
      Func(MakeAdderDecl(makeAdder, inner, x, n)),
      VarDecl(adder, Call(Ident(makeAdder), [])),
      VarDecl(result, Call(Ident(adder), [Lit(IntLit(5))]))])
  }

  /** The closure program gives `result` the value 15: the closure `makeAdder` returns still sees `x`. */
  lemma ClosureCapturesOuterVariable(h: FloatHost, x: Bytes, makeAdder: Bytes, inner: Bytes, n: Bytes,
                                     adder: Bytes, result: Bytes, st: State, fuel: nat)
    requires x != n && fuel > 0
    ensures var r := Run(h, ClosureProgram(x, makeAdder, inner, n, adder, result), st, fuel);
      r.Ran? && r.st.env.Get(result) == Some(Int(15))
  {
    var p := ClosureProgram(x, makeAdder, inner, n, adder, result);
    var mk := MakeAdderDecl(makeAdder, inner, x, n);
    var st1 := st.(env := st.env.Define(x, Int(10)));
    var st2 := st1.(env := st1.env.Define(makeAdder, Function(mk, Some(st1.env))));
    DefineStep(h, p, 0, st, Int(10), fuel);
    assert Statement(h, p.body[1], st1, fuel) == Ran(None, st2);
    assert st1.env.values[x] == Int(10);
    ClosureCalls(h, x, makeAdder, inner, n, adder, result, st1.env, st2, fuel);
  }

  /** The two calls of the closure program, once `makeAdder` is defined over a scope where `x` is 10. */
  lemma ClosureCalls(h: FloatHost, x: Bytes, makeAdder: Bytes, inner: Bytes, n: Bytes,
                     adder: Bytes, result: Bytes, outer: Env, st: State, fuel: nat)
    requires x != n && fuel > 0
    requires x in outer.values && outer.values[x] == Int(10)
    requires makeAdder in st.env.values && st.env.values[makeAdder] == Function(MakeAdderDecl(makeAdder, inner, x, n), Some(outer))
    ensures var r := ProgramFrom(h, ClosureProgram(x, makeAdder, inner, n, adder, result), 2, st, fuel);
      r.Ran? && r.st.env.Get(result) == Some(Int(15))
  {
    var p := ClosureProgram(x, makeAdder, inner, n, adder, result);
    var closure := Function(InnerDecl(inner, x, n), Some(Child(outer)));
    var st3 := st.(env := st.env.Define(adder, closure));
    var st4 := st3.(env := st3.env.Define(result, Int(15)));
    MakeAdderReturnsInner(h, makeAdder, inner, x, n, outer, st, fuel);
    DefineStep(h, p, 2, st, closure, fuel);
    AdderAddsToCaptured(h, inner, x, n, adder, outer, st3, fuel);
    DefineStep(h, p, 3, st3, Int(15), fuel);
    assert ProgramFrom(h, p, 4, st4, fuel) == Ran((), st4);
  }

  /** A `var` statement whose initialiser yields `v` without touching the state binds its name to `v` and moves on. */
  lemma DefineStep(h: FloatHost, p: Program, i: nat, st: State, v: Value, fuel: nat)
    requires i < |p.body| && p.body[i].VarDecl? && Expression(h, p.body[i].init, st, fuel) == Ran(v, st)
    ensures ProgramFrom(h, p, i, st, fuel)
         == ProgramFrom(h, p, i + 1, st.(env := st.env.Define(p.body[i].name, v)), fuel)
  {
  }

  /** `makeAdder()` returns `inner` closed over the scope of that call. */
  lemma MakeAdderReturnsInner(h: FloatHost, makeAdder: Bytes, inner: Bytes, x: Bytes, n: Bytes, closure: Env, st: State, fuel: nat)
    requires fuel > 0
    requires makeAdder in st.env.values && st.env.values[makeAdder] == Function(MakeAdderDecl(makeAdder, inner, x, n), Some(closure))
    ensures Expression(h, Call(Ident(makeAdder), []), st, fuel)
         == Ran(Function(InnerDecl(inner, x, n), Some(Child(closure))), st)
  {
    var mk := MakeAdderDecl(makeAdder, inner, x, n);
    var call := Call(Ident(makeAdder), []);
    var f := Function(InnerDecl(inner, x, n), Some(Child(closure)));
    var scope := State(Child(closure), st.out);
    var scope2 := scope.(env := scope.env.Define(inner, f));
    assert Statement(h, mk.body.stmts[0], scope, fuel - 1) == Ran(None, scope2);
    assert Statement(h, mk.body.stmts[1], scope2, fuel - 1) == Ran(Some(f), scope2);
    assert Statements(h, mk.body, 1, scope2, fuel - 1) == Ran(Some(f), scope2);
    assert Body(h, mk.body, scope, fuel - 1) == Ran(Some(f), scope2);
    assert Bind(h, mk.params, call, 0, Child(closure), st, fuel) == Ran(Child(closure), st);
    assert CallFunction(h, mk, Some(closure), call, st, fuel) == Ran(f, st);
    assert Expression(h, call, st, fuel) == CallExpression(h, call, st, fuel);
  }

  /** `adder(5)`, with `adder` the closure over a call scope of `makeAdder` where `x` is 10, gives 15. */
  lemma AdderAddsToCaptured(h: FloatHost, inner: Bytes, x: Bytes, n: Bytes, adder: Bytes, outer: Env, st: State, fuel: nat)
    requires fuel > 0 && x != n
    requires x in outer.values && outer.values[x] == Int(10)
    requires adder in st.env.values && st.env.values[adder] == Function(InnerDecl(inner, x, n), Some(Child(outer)))
    ensures Expression(h, Call(Ident(adder), [Lit(IntLit(5))]), st, fuel) == Ran(Int(15), st)
  {
    var decl := InnerDecl(inner, x, n);
    var call := Call(Ident(adder), [Lit(IntLit(5))]);
    var callEnv := Child(Child(outer)).Define(n, Int(5));
    assert Bind(h, decl.params, call, 1, callEnv, st, fuel) == Ran(callEnv, st);
    assert Bind(h, decl.params, call, 0, Child(Child(outer)), st, fuel) == Ran(callEnv, st);
    var scope := State(callEnv, st.out);
    assert callEnv.Get(x) == Some(Int(10));
    var sum := Binary(Ident(x), Add, Ident(n));
    assert Expression(h, Ident(x), scope, fuel - 1) == Ran(Int(10), scope);
    assert Expression(h, Ident(n), scope, fuel - 1) == Ran(Int(5), scope);
    assert ApplyBinary(h, Add, Int(10), Int(5)) == Ok(Int(15));
    assert Expression(h, sum, scope, fuel - 1) == BinaryExpression(h, sum, scope, fuel - 1);
    assert Expression(h, sum, scope, fuel - 1) == Ran(Int(15), scope);
    assert Statement(h, decl.body.stmts[0], scope, fuel - 1) == Ran(Some(Int(15)), scope);
    assert Body(h, decl.body, scope, fuel - 1) == Ran(Some(Int(15)), scope);
    assert CallFunction(h, decl, Some(Child(outer)), call, st, fuel) == Ran(Int(15), st);
    assert Expression(h, Ident(adder), st, fuel) == Ran(Function(decl, Some(Child(outer))), st);
    assert Expression(h, call, st, fuel) == CallExpression(h, call, st, fuel);
  }
}
