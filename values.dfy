/**
 * Runtime values, environments and the pure operations of the ArcScript
 * interpreter (src/interpreter.rs).
 *
 * Floats are Rust `f64`. The model keeps a float as its 64-bit IEEE-754 bit
 * pattern and takes the rounding operations (arithmetic, comparison,
 * conversion, parsing and printing) from a `FloatHost` parameter, so that
 * nothing is claimed about them beyond what the interpreter's own code does.
 * Negation and the comparison with zero are exact bit operations and are
 * written out.
 *
 * Integer arithmetic is Rust `i64`. An overflow of `+`, `-`, `*`, unary `-`
 * or of `i64::MIN / -1` panics in a debug build; the model reports it as the
 * `Overflow` fault instead of a value.
 */
module Values {
  import opened Wrappers
  import opened Text
  import opened Ast

  /** A Rust `f64`, as its IEEE-754 bit pattern. */
  type F64 = bv64

  const SIGN_BIT: F64 := 0x8000_0000_0000_0000

  /** `0.0`, the value of a float literal whose text does not parse. */
  const ZERO: F64 := 0

  /**
   * The `f64` operations of the host: `parse` is `str::parse::<f64>`,
   * `fromInt` is `i as f64`, `toInt` is the saturating `f as i64`, `show` is
   * `f.to_string()`, and `less`/`lessEq` are IEEE `<` and `<=` (false when
   * either side is NaN; `a > b` is `b < a` and `a >= b` is `b <= a`).
   */
  datatype FloatHost = FloatHost(
    parse: Bytes -> Option<F64>,
    fromInt: I64 -> F64,
    toInt: F64 -> I64,
    add: (F64, F64) -> F64,
    sub: (F64, F64) -> F64,
    mul: (F64, F64) -> F64,
    div: (F64, F64) -> F64,
    equal: (F64, F64) -> bool,
    less: (F64, F64) -> bool,
    lessEq: (F64, F64) -> bool,
    show: F64 -> Bytes)

  /** IEEE negation flips the sign bit and nothing else. */
  function FloatNeg(f: F64): (r: F64)
    ensures r ^ SIGN_BIT == f
  {
    f ^ SIGN_BIT
  }

  /** `f == 0.0`: every bit but the sign is clear (`0.0` and `-0.0`). */
  predicate FloatIsZero(f: F64) {
    f & !SIGN_BIT == 0
  }

  datatype Value =
    | Int(i: I64)
    | Float(f: F64)
    | Bool(b: bool)
    | Str(s: Bytes)
    | Function(decl: FuncDecl, closure: Option<Env>)
    | Table(entries: map<Bytes, Value>)
    | Builtin(name: Bytes)
    | Nil

  /**
   * A scope: its own bindings and the enclosing scope. An environment is a
   * value; capturing it for a closure takes a copy.
   */
  datatype Env = Env(values: map<Bytes, Value>, parent: Option<Env>) {

    /** The scopes from this one outwards. */
    function Chain(): (r: seq<map<Bytes, Value>>)
      ensures |r| >= 1 && r[0] == values
      decreases this
    {
      if parent.None? then [values] else [values] + parent.value.Chain()
    }

    /** The innermost binding of `name`, walking out through the parents. */
    function Get(name: Bytes): (r: Option<Value>)
      ensures name in values ==> r == Some(values[name])
      ensures name !in values && parent.None? ==> r.None?
      decreases this
    {
      if name in values then Some(values[name])
      else if parent.Some? then parent.value.Get(name)
      else None
    }

    /** Binds `name` in this scope only, replacing a binding it already has here. */
    function Define(name: Bytes, v: Value): (r: Env)
      ensures r.Get(name) == Some(v)
      ensures forall other | other != name :: r.Get(other) == Get(other)
      ensures r.parent == parent && r.values.Keys == values.Keys + {name}
    {
      Env(values[name := v], parent)
    }
  }

  /** A scope with no bindings of its own inside `parent`. */
  function Child(parent: Env): (r: Env)
    ensures forall name :: r.Get(name) == parent.Get(name)
  {
    Env(map[], Some(parent))
  }

  /** What `RuntimeError::new` is given, one constructor per message. */
  datatype RuntimeError =
    | UndefinedIdentifier(name: Bytes)
    | NegateNonNumber
    | MemberOnNonTable(field: Bytes)
    | IndexNotString
    | IndexNonTable
    | CallNonFunction
    | MissingArgument(builtin: Bytes)
    | LenNeedsStringOrTable
    | StringNotInt
    | NotConvertibleToInt
    | StringNotFloat
    | NotConvertibleToFloat
    | UnknownBuiltin(name: Bytes)
    | CannotAdd
    | CannotSubtract
    | CannotMultiply
    | CannotDivide
    | DivisionByZero
    | CannotCompare

  /** The error's message text. */
  function Message(e: RuntimeError): Bytes {
    match e
    case UndefinedIdentifier(name) => Ascii("Undefined identifier '") + name + Ascii("'")
    case NegateNonNumber => Ascii("type error: unary - on non-number")
    case MemberOnNonTable(field) => Ascii("cannot access member '") + field + Ascii("' on non-table")
    case IndexNotString => Ascii("table index must be a string")
    case IndexNonTable => Ascii("cannot index non-table")
    case CallNonFunction => Ascii("attempt to call non-function")
    case MissingArgument(builtin) => builtin + Ascii("() requires 1 argument")
    case LenNeedsStringOrTable => Ascii("len() requires string or table argument")
    case StringNotInt => Ascii("cannot convert string to int")
    case NotConvertibleToInt => Ascii("cannot convert to int")
    case StringNotFloat => Ascii("cannot convert string to float")
    case NotConvertibleToFloat => Ascii("cannot convert to float")
    case UnknownBuiltin(name) => Ascii("unknown built-in function: ") + name
    case CannotAdd => Ascii("type error: cannot add the given operands")
    case CannotSubtract => Ascii("type error: cannot subtract the given operands")
    case CannotMultiply => Ascii("type error: cannot multiply the given operands")
    case CannotDivide => Ascii("type error: cannot divide the given operands")
    case DivisionByZero => Ascii("division by zero")
    case CannotCompare => Ascii("type error: cannot compare given operands")
  }

  /**
   * Why evaluation stopped without a value: a `RuntimeError` returned by the
   * interpreter, an `i64` overflow (a panic in Rust), or, in the model only,
   * the evaluation budget running out.
   */
  datatype Fault = Raised(error: RuntimeError) | Overflow | OutOfFuel

  /** Names of the built-in functions, bound in the global scope. */
  const PRINT: Bytes := Ascii("print")
  const PRINTLN: Bytes := Ascii("println")
  const TYPE: Bytes := Ascii("type")
  const LEN: Bytes := Ascii("len")
  const STR: Bytes := Ascii("str")
  const INT: Bytes := Ascii("int")
  const FLOAT: Bytes := Ascii("float")

  /** The environment of a fresh interpreter: every built-in bound to itself. */
  function Globals(): Env {
    Env(map[PRINT := Builtin(PRINT), PRINTLN := Builtin(PRINTLN), TYPE := Builtin(TYPE),
            LEN := Builtin(LEN), STR := Builtin(STR), INT := Builtin(INT), FLOAT := Builtin(FLOAT)],
        None)
  }

  /** Only `false` and `nil` are false. */
  predicate Truthy(v: Value) {
    match v
    case Bool(b) => b
    case Nil => false
    case _ => true
  }

  /** An integer result that fits in `i64`, or the overflow panic. */
  function IntResult(n: int): (r: Result<Value, Fault>)
    ensures InI64(n) <==> r.Ok?
    ensures r.Ok? ==> r.value == Int(n)
    ensures r.Err? ==> r.error == Overflow
  {
    if InI64(n) then Ok(Int(n)) else Err(Overflow)
  }

  function Abs(n: int): nat {
    if n < 0 then -n else n
  }

  /** Rust's integer `/`: the quotient truncated toward zero. */
  function TruncDiv(a: int, b: int): int
    requires b != 0
  {
    var m := Abs(a) / Abs(b);
    if (a < 0) != (b < 0) then -m else m
  }

  /** The two operands as `f64`s, converting an `Int` with `as f64`. */
  function Numbers(h: FloatHost, l: Value, r: Value): Option<(F64, F64)> {
    match (l, r)
    case (Int(a), Int(b)) => Some((h.fromInt(a), h.fromInt(b)))
    case (Float(a), Float(b)) => Some((a, b))
    case (Int(a), Float(b)) => Some((h.fromInt(a), b))
    case (Float(a), Int(b)) => Some((a, h.fromInt(b)))
    case _ => None
  }

  predicate IsNumber(v: Value) {
    v.Int? || v.Float?
  }

  function AddValues(h: FloatHost, l: Value, r: Value): Result<Value, Fault> {
    match (l, r)
    case (Int(a), Int(b)) => IntResult(a + b)
    case (Str(a), Str(b)) => Ok(Str(a + b))
    case _ =>
      var ns := Numbers(h, l, r);
      if ns.Some? then Ok(Float(h.add(ns.value.0, ns.value.1))) else Err(Raised(CannotAdd))
  }

  function SubValues(h: FloatHost, l: Value, r: Value): Result<Value, Fault> {
    match (l, r)
    case (Int(a), Int(b)) => IntResult(a - b)
    case _ =>
      var ns := Numbers(h, l, r);
      if ns.Some? then Ok(Float(h.sub(ns.value.0, ns.value.1))) else Err(Raised(CannotSubtract))
  }

  function MulValues(h: FloatHost, l: Value, r: Value): Result<Value, Fault> {
    match (l, r)
    case (Int(a), Int(b)) => IntResult(a * b)
    case _ =>
      var ns := Numbers(h, l, r);
      if ns.Some? then Ok(Float(h.mul(ns.value.0, ns.value.1))) else Err(Raised(CannotMultiply))
  }

  /** A zero divisor of either numeric kind, `0` or `0.0`. */
  predicate IsZero(v: Value) {
    (v.Int? && v.i == 0) || (v.Float? && FloatIsZero(v.f))
  }

  function DivValues(h: FloatHost, l: Value, r: Value): Result<Value, Fault> {
    var ns := Numbers(h, l, r);
    if ns.None? then Err(Raised(CannotDivide))
    else if IsZero(r) then Err(Raised(DivisionByZero))
    else if l.Int? && r.Int? then IntResult(TruncDiv(l.i, r.i))
    else Ok(Float(h.div(ns.value.0, ns.value.1)))
  }

  /** `==`: equal payloads of the same variant; functions and tables are never equal. */
  predicate ValuesEqual(h: FloatHost, l: Value, r: Value) {
    match (l, r)
    case (Int(a), Int(b)) => a == b
    case (Float(a), Float(b)) => h.equal(a, b)
    case (Bool(a), Bool(b)) => a == b
    case (Str(a), Str(b)) => a == b
    case (Nil, Nil) => true
    case _ => false
  }

  predicate IsComparison(op: BinaryOp) {
    op == Less || op == LessEqual || op == Greater || op == GreaterEqual
  }

  /** An ordering operator applied to two `f64`s. */
  predicate Holds(h: FloatHost, op: BinaryOp, a: F64, b: F64)
    requires IsComparison(op)
  {
    match op
    case Less => h.less(a, b)
    case LessEqual => h.lessEq(a, b)
    case Greater => h.less(b, a)
    case GreaterEqual => h.lessEq(b, a)
  }

  /** `<`, `<=`, `>`, `>=` compare the operands as `f64`s. */
  function CompareValues(h: FloatHost, op: BinaryOp, l: Value, r: Value): Result<Value, Fault>
    requires IsComparison(op)
  {
    var ns := Numbers(h, l, r);
    if ns.Some? then Ok(Bool(Holds(h, op, ns.value.0, ns.value.1))) else Err(Raised(CannotCompare))
  }

  /** A binary operator on two evaluated operands; `and`/`or` see both. */
  function ApplyBinary(h: FloatHost, op: BinaryOp, l: Value, r: Value): Result<Value, Fault> {
    match op
    case Add => AddValues(h, l, r)
    case Sub => SubValues(h, l, r)
    case Mul => MulValues(h, l, r)
    case Div => DivValues(h, l, r)
    case Equal => Ok(Bool(ValuesEqual(h, l, r)))
    case NotEqual => Ok(Bool(!ValuesEqual(h, l, r)))
    case And => Ok(Bool(Truthy(l) && Truthy(r)))
    case Or => Ok(Bool(Truthy(l) || Truthy(r)))
    case _ => CompareValues(h, op, l, r)
  }

  /** Unary `-` and `not`. */
  function ApplyUnary(op: UnaryOp, v: Value): Result<Value, Fault> {
    match op
    case Negate =>
      (match v
       case Int(i) => IntResult(-(i as int))
       case Float(f) => Ok(Float(FloatNeg(f)))
       case _ => Err(Raised(NegateNonNumber)))
    case Not => Ok(Bool(!Truthy(v)))
  }

  /** `t.field`: the entry, or `nil` when the table has none. */
  function MemberOf(v: Value, field: Bytes): Result<Value, Fault> {
    match v
    case Table(m) => Ok(if field in m then m[field] else Nil)
    case _ => Err(Raised(MemberOnNonTable(field)))
  }

  /** `t[key]`: only a string indexes a table; a missing key gives `nil`. */
  function IndexOf(v: Value, key: Value): Result<Value, Fault> {
    match (v, key)
    case (Table(m), Str(k)) => Ok(if k in m then m[k] else Nil)
    case (Table(_), _) => Err(Raised(IndexNotString))
    case _ => Err(Raised(IndexNonTable))
  }

  function EvalLiteral(h: FloatHost, l: Literal): Value {
    match l
    case IntLit(n) => Int(n)
    case FloatLit(text) => Float(h.parse(text).GetOr(ZERO))
    case BoolLit(b) => Bool(b)
    case StrLit(s) => Str(s)
    case NilLit => Nil
  }

  /** What `type(v)` returns. */
  function TypeName(v: Value): Bytes {
    match v
    case Int(_) => Ascii("int")
    case Float(_) => Ascii("float")
    case Bool(_) => Ascii("bool")
    case Str(_) => Ascii("string")
    case Function(_, _) => Ascii("function")
    case Table(_) => Ascii("table")
    case Builtin(_) => Ascii("builtin_function")
    case Nil => Ascii("nil")
  }

  /** The text `print` writes for a value, and what `str(v)` returns. */
  function Show(h: FloatHost, v: Value): Bytes {
    match v
    case Int(i) => ToDecimal(i)
    case Float(f) => h.show(f)
    case Bool(b) => if b then Ascii("true") else Ascii("false")
    case Str(s) => s
    case Function(_, _) => Ascii("<function>")
    case Table(_) => Ascii("<table>")
    case Builtin(name) => Ascii("<builtin: ") + name + Ascii(">")
    case Nil => Ascii("nil")
  }

  /** Rust's `n as i64` for a `usize` length: the low 64 bits, two's complement. */
  function LengthAsI64(n: nat): (r: I64)
    ensures n <= I64_MAX ==> r == n
  {
    var w := n % 0x1_0000_0000_0000_0000;
    if w <= I64_MAX then w else w - 0x1_0000_0000_0000_0000
  }

  /** `len(v)`: the byte length of a string or the entry count of a table. */
  function Length(v: Value): Result<Value, Fault> {
    match v
    case Str(s) => Ok(Int(LengthAsI64(|s|)))
    case Table(m) => Ok(Int(LengthAsI64(|m|)))
    case _ => Err(Raised(LenNeedsStringOrTable))
  }

  /** `int(v)`. */
  function ToInt(h: FloatHost, v: Value): Result<Value, Fault> {
    match v
    case Int(i) => Ok(Int(i))
    case Float(f) => Ok(Int(h.toInt(f)))
    case Str(s) => (var n := ParseI64(s); if n.Some? then Ok(Int(n.value)) else Err(Raised(StringNotInt)))
    case Bool(b) => Ok(Int(if b then 1 else 0))
    case _ => Err(Raised(NotConvertibleToInt))
  }

  /** `float(v)`. */
  function ToFloat(h: FloatHost, v: Value): Result<Value, Fault> {
    match v
    case Int(i) => Ok(Float(h.fromInt(i)))
    case Float(f) => Ok(Float(f))
    case Str(s) => (var f := h.parse(s); if f.Some? then Ok(Float(f.value)) else Err(Raised(StringNotFloat)))
    case _ => Err(Raised(NotConvertibleToFloat))
  }

  /** The built-ins that take exactly one evaluated argument. */
  predicate IsUnaryBuiltin(name: Bytes) {
    name == TYPE || name == LEN || name == STR || name == INT || name == FLOAT
  }

  /** A one-argument built-in applied to its evaluated argument. */
  function ApplyBuiltin(h: FloatHost, name: Bytes, v: Value): Result<Value, Fault>
    requires IsUnaryBuiltin(name)
  {
    if name == TYPE then Ok(Str(TypeName(v)))
    else if name == LEN then Length(v)
    else if name == STR then Ok(Str(Show(h, v)))
    else if name == INT then ToInt(h, v)
    else ToFloat(h, v)
  }
}
