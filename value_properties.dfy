/**
 * Properties of environments and of the pure value operations of the
 * interpreter: lookup finds the innermost binding, `define` touches only the
 * current scope, truthiness, equality, arithmetic and its errors, and the
 * table accessors.
 */
module ValueProperties {
  import opened Wrappers
  import opened Text
  import opened Ast
  import opened Values

  // Environments

  /** `v` is bound to `name` in scope `i` of `chain`, and no scope before it binds `name`. */
  ghost predicate InnermostIn(chain: seq<map<Bytes, Value>>, name: Bytes, i: nat, v: Value) {
    i < |chain| && name in chain[i] && chain[i][name] == v
    && forall j | 0 <= j < i :: name !in chain[j]
  }

  /** Lookup fails exactly when no scope binds the name, and otherwise finds the innermost binding. */
  lemma {:induction false} GetIsInnermost(env: Env, name: Bytes)
    ensures env.Get(name).None? <==> forall i | 0 <= i < |env.Chain()| :: name !in env.Chain()[i]
    ensures env.Get(name).Some? ==> exists i :: InnermostIn(env.Chain(), name, i, env.Get(name).value)
    decreases env
  {
    var chain := env.Chain();
    if name in env.values {
      assert InnermostIn(chain, name, 0, env.Get(name).value);
    } else if env.parent.Some? {
      var p := env.parent.value;
      GetIsInnermost(p, name);
      assert chain == [env.values] + p.Chain();
      if p.Get(name).Some? {
        var k: nat :| InnermostIn(p.Chain(), name, k, p.Get(name).value);
        assert chain[k + 1] == p.Chain()[k];
        assert InnermostIn(env.Chain(), name, k + 1, env.Get(name).value);
        assert name in env.Chain()[k + 1];
      } else {
        forall i | 0 <= i < |chain|
          ensures name !in chain[i]
        {
          if i > 0 {
            assert chain[i] == p.Chain()[i - 1];
          }
        }
      }
    }
  }

  /** `define` rewrites the current scope and leaves every enclosing scope as it was. */
  lemma DefineKeepsOuterScopes(env: Env, name: Bytes, v: Value)
    ensures env.Define(name, v).Chain() == [env.values[name := v]] + env.Chain()[1..]
  {
  }

  /** A name defined in a child scope hides the outer binding only inside that scope. */
  lemma ShadowInChild(env: Env, name: Bytes, v: Value)
    ensures Child(env).Define(name, v).Get(name) == Some(v)
    ensures Child(env).Define(name, v).parent == Some(env)
  {
  }

  // Truthiness and equality

  /** Only `false` and `nil` are falsy. */
  lemma FalsyValues(v: Value)
    ensures !Truthy(v) <==> v == Bool(false) || v == Nil
  {
  }

  /** Which variant of `Value` a value is. */
  function Variant(v: Value): nat {
    match v
    case Int(_) => 0
    case Float(_) => 1
    case Bool(_) => 2
    case Str(_) => 3
    case Function(_, _) => 4
    case Table(_) => 5
    case Builtin(_) => 6
    case Nil => 7
  }

  /**
   * `==` and `!=` never fail; values of different variants are never equal,
   * `!=` is the negation of `==`, and functions, tables and built-ins are not
   * even equal to themselves.
   */
  lemma EqualityNeverFails(h: FloatHost, l: Value, r: Value)
    ensures ApplyBinary(h, Equal, l, r).Ok? && ApplyBinary(h, NotEqual, l, r).Ok?
    ensures ApplyBinary(h, NotEqual, l, r).value == Bool(!ApplyBinary(h, Equal, l, r).value.b)
    ensures Variant(l) != Variant(r) ==> ApplyBinary(h, Equal, l, r) == Ok(Bool(false))
    ensures l.Function? || l.Table? || l.Builtin? ==> ApplyBinary(h, Equal, l, r) == Ok(Bool(false))
  {
  }

  /** Integers, booleans, strings and `nil` are equal exactly when they are the same value. */
  lemma EqualityOnPlainValues(h: FloatHost, l: Value, r: Value)
    requires l.Int? || l.Bool? || l.Str? || l.Nil?
    ensures ApplyBinary(h, Equal, l, r) == Ok(Bool(l == r))
  {
  }

  /** `and` and `or` always give a `Bool`, computed from the truthiness of both operands. */
  lemma LogicalOperators(h: FloatHost, l: Value, r: Value)
    ensures ApplyBinary(h, And, l, r) == Ok(Bool(Truthy(l) && Truthy(r)))
    ensures ApplyBinary(h, Or, l, r) == Ok(Bool(Truthy(l) || Truthy(r)))
    ensures ApplyUnary(Not, l) == Ok(Bool(!Truthy(l)))
  {
  }

  // Arithmetic

  predicate IsArithmetic(op: BinaryOp) {
    op == Add || op == Sub || op == Mul || op == Div
  }

  /** The type error each arithmetic operator reports. */
  function TypeErrorOf(op: BinaryOp): RuntimeError
    requires IsArithmetic(op)
  {
    match op
    case Add => CannotAdd
    case Sub => CannotSubtract
    case Mul => CannotMultiply
    case Div => CannotDivide
  }

  /**
   * `+ - * /` accept two numbers, and `+` also two strings; any other pair of
   * operands is that operator's type error.
   */
  lemma ArithmeticTypeErrors(h: FloatHost, op: BinaryOp, l: Value, r: Value)
    requires IsArithmetic(op)
    ensures ApplyBinary(h, op, l, r) == Err(Raised(TypeErrorOf(op)))
        <==> !(IsNumber(l) && IsNumber(r)) && !(op == Add && l.Str? && r.Str?)
  {
  }

  /**
   * On two integers `+ - *` give the exact integer result, or the overflow
   * panic when it does not fit in an `i64`; they never give a float or a type
   * error.
   */
  lemma IntArithmetic(h: FloatHost, a: I64, b: I64)
    ensures ApplyBinary(h, Add, Int(a), Int(b)) == if InI64(a + b) then Ok(Int(a + b)) else Err(Overflow)
    ensures ApplyBinary(h, Sub, Int(a), Int(b)) == if InI64(a - b) then Ok(Int(a - b)) else Err(Overflow)
    ensures ApplyBinary(h, Mul, Int(a), Int(b)) == if InI64(a * b) then Ok(Int(a * b)) else Err(Overflow)
    ensures forall op | op == Add || op == Sub || op == Mul ::
      var r := ApplyBinary(h, op, Int(a), Int(b)); r.Ok? ==> r.value.Int?
    ensures forall op | op == Add || op == Sub || op == Mul ::
      var r := ApplyBinary(h, op, Int(a), Int(b)); r.Err? ==> r.error == Overflow
  {
  }

  /** `+` on two strings concatenates them. */
  lemma StringConcatenation(h: FloatHost, a: Bytes, b: Bytes)
    ensures ApplyBinary(h, Add, Str(a), Str(b)) == Ok(Str(a + b))
  {
  }

  /** A zero divisor of either numeric kind is a division by zero, and nothing else is. */
  lemma DivisionByZero(h: FloatHost, l: Value, r: Value)
    ensures ApplyBinary(h, Div, l, r) == Err(Raised(Values.DivisionByZero))
        <==> IsNumber(l) && IsZero(r)
  {
  }

  /**
   * Rust's `/` on integers truncates: the remainder `a - q*b` is smaller than
   * the divisor in magnitude and has the sign of the dividend.
   */
  lemma TruncDivRounds(a: int, b: int)
    requires b != 0
    ensures var q := TruncDiv(a, b); var rem := a - q * b;
      Abs(rem) < Abs(b) && (rem == 0 || (rem < 0) == (a < 0))
    ensures Abs(TruncDiv(a, b)) <= Abs(a)
  {
    var m, r := Abs(a) / Abs(b), Abs(a) % Abs(b);
    QuotientBounds(Abs(a), Abs(b));
    assert Abs(a) == m * Abs(b) + r && r < Abs(b) && m <= Abs(a);
    RoundsBySign(a, b, m, r);
    assert TruncDiv(a, b) == if (a < 0) != (b < 0) then -(m as int) else m;
  }

  /** The rounding facts for a quotient magnitude `m` and remainder `r` of `|a|` by `|b|`. */
  lemma RoundsBySign(a: int, b: int, m: nat, r: nat)
    requires b != 0 && Abs(a) == m * Abs(b) + r && r < Abs(b) && m <= Abs(a)
    ensures var q := if (a < 0) != (b < 0) then -(m as int) else m; var rem := a - q * b;
      Abs(rem) < Abs(b) && (rem == 0 || (rem < 0) == (a < 0)) && Abs(q) <= Abs(a)
  {
    SignedProduct(m, a, b);
  }

  /** Quotient and remainder of naturals; the quotient is at most the dividend. */
  lemma QuotientBounds(x: nat, y: nat)
    requires y > 0
    ensures x == (x / y) * y + x % y && 0 <= x % y < y
    ensures x / y <= x
  {
    MultiplyByPositive(x / y, y);
  }

  lemma MultiplyByPositive(m: nat, y: nat)
    requires y > 0
    ensures m * y >= m
  {
  }

  /** The truncated quotient `q` of magnitude `m` times `b` is `m * |b|` with the sign of `a`. */
  lemma SignedProduct(m: nat, a: int, b: int)
    ensures var q := if (a < 0) != (b < 0) then -(m as int) else m;
      q * b == if a < 0 then -(m * Abs(b)) else m * Abs(b)
  {
    if b < 0 {
      assert m * b == -(m * Abs(b));
    }
  }

  /** Integer division overflows only for `i64::MIN / -1`. */
  lemma IntDivisionOverflow(h: FloatHost, a: I64, b: I64)
    requires b != 0
    ensures ApplyBinary(h, Div, Int(a), Int(b)) == Err(Overflow) <==> a == I64_MIN && b == -1
    ensures ApplyBinary(h, Div, Int(a), Int(b)) != Err(Overflow) ==> ApplyBinary(h, Div, Int(a), Int(b)) == Ok(Int(TruncDiv(a, b)))
  {
    if a == I64_MIN && b == -1 {
      assert TruncDiv(a, b) == -(a as int);
    } else {
      TruncDivInRange(a, b);
    }
  }

  lemma TruncDivInRange(a: I64, b: I64)
    requires b != 0 && !(a == I64_MIN && b == -1)
    ensures InI64(TruncDiv(a, b))
  {
    QuotientMagnitude(Abs(a), Abs(b));
    SignedQuotientInRange(a, b, Abs(a) / Abs(b));
  }

  /** The bounds on a quotient of naturals that keep a truncated quotient within 64 bits. */
  lemma QuotientMagnitude(x: nat, y: nat)
    requires y > 0
    ensures 0 <= x / y <= x
    ensures y == 1 ==> x / y == x
    ensures y >= 2 ==> (x / y) * 2 <= x
  {
    QuotientBounds(x, y);
    if y >= 2 {
      QuotientHalves(x, y);
    }
  }

  /** A quotient magnitude `m` within the bounds above, given the sign of `a / b`, fits in 64 bits. */
  lemma SignedQuotientInRange(a: I64, b: I64, m: nat)
    requires b != 0 && !(a == I64_MIN && b == -1)
    requires m <= Abs(a)
    requires Abs(b) == 1 ==> m == Abs(a)
    requires Abs(b) >= 2 ==> m * 2 <= Abs(a)
    ensures InI64(if (a < 0) != (b < 0) then -(m as int) else m)
  {
    assert InI64(a);
    if a == I64_MIN {
      if Abs(b) == 1 {
        assert b == 1;
      }
    }
  }

  /** Dividing by at least two at least halves. */
  lemma QuotientHalves(x: nat, y: nat)
    requires y >= 2
    ensures (x / y) * 2 <= x
  {
    QuotientBounds(x, y);
    assert (x / y) * 2 <= (x / y) * y;
  }

  /** The ordering operators need two numbers; otherwise they report a comparison error. */
  lemma ComparisonErrors(h: FloatHost, op: BinaryOp, l: Value, r: Value)
    requires IsComparison(op)
    ensures ApplyBinary(h, op, l, r).Err? <==> !(IsNumber(l) && IsNumber(r))
    ensures ApplyBinary(h, op, l, r).Err? ==> ApplyBinary(h, op, l, r).error == Raised(CannotCompare)
    ensures ApplyBinary(h, op, l, r).Ok? ==> ApplyBinary(h, op, l, r).value.Bool?
  {
  }

  /** Unary `-` negates an integer (overflowing only on `i64::MIN`) and flips a float's sign. */
  lemma Negation(v: Value)
    ensures v.Int? && v.i != I64_MIN ==> ApplyUnary(Negate, v) == Ok(Int(-v.i))
    ensures v.Int? && v.i == I64_MIN ==> ApplyUnary(Negate, v) == Err(Overflow)
    ensures v.Float? ==> ApplyUnary(Negate, v).Ok? && ApplyUnary(Negate, v).value.f ^ SIGN_BIT == v.f
    ensures !IsNumber(v) ==> ApplyUnary(Negate, v) == Err(Raised(NegateNonNumber))
  {
  }

  // Tables

  /** `t.field` on a table is the entry or `nil`; on anything else it is an error naming the field. */
  lemma MemberAccess(v: Value, field: Bytes)
    ensures MemberOf(v, field).Ok? <==> v.Table?
    ensures v.Table? && field in v.entries ==> MemberOf(v, field) == Ok(v.entries[field])
    ensures v.Table? && field !in v.entries ==> MemberOf(v, field) == Ok(Nil)
    ensures !v.Table? ==> MemberOf(v, field) == Err(Raised(MemberOnNonTable(field)))
  {
  }

  /** `t[k]` needs a table and a string key; a missing key gives `nil`. */
  lemma IndexAccess(v: Value, key: Value)
    ensures IndexOf(v, key).Ok? <==> v.Table? && key.Str?
    ensures v.Table? && key.Str? ==> IndexOf(v, key) == Ok(if key.s in v.entries then v.entries[key.s] else Nil)
    ensures v.Table? && !key.Str? ==> IndexOf(v, key) == Err(Raised(IndexNotString))
    ensures !v.Table? ==> IndexOf(v, key) == Err(Raised(IndexNonTable))
  {
  }

  /** `t.f` and `t["f"]` read the same entry. */
  lemma MemberIsStringIndex(v: Value, field: Bytes)
    requires v.Table?
    ensures MemberOf(v, field) == IndexOf(v, Str(field))
  {
  }

  // Built-ins

  /** `int(str(n))` gives `n` back for every integer. */
  lemma IntOfStrRoundTrip(h: FloatHost, n: I64)
    ensures ApplyBuiltin(h, STR, Int(n)) == Ok(Str(ToDecimal(n)))
    ensures ApplyBuiltin(h, INT, Str(ToDecimal(n))) == Ok(Int(n))
  {
    ParseI64RoundTrip(n);
  }

  /** `len` counts the bytes of a string and the entries of a table. */
  lemma LengthCounts(v: Value)
    ensures v.Str? && |v.s| <= I64_MAX ==> Length(v) == Ok(Int(|v.s|))
    ensures v.Table? && |v.entries| <= I64_MAX ==> Length(v) == Ok(Int(|v.entries|))
    ensures !v.Str? && !v.Table? ==> Length(v) == Err(Raised(LenNeedsStringOrTable))
  {
  }
}
