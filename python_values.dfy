/**
 * The Python values a Lambda event can carry, the numeric tower the handler
 * relies on (`bool` is a subclass of `int`; mixing `int` and `float` gives a
 * `float`), and the parts of the interpreter that the model does not fix
 * (IEEE-754 arithmetic, float rendering, exception texts), passed in as a
 * `Runtime`.
 */
module PythonValues {
  import opened Wrappers
  import opened Decimal

  /** An IEEE-754 binary64 value, kept as its bit pattern. */
  datatype Float = Binary64(bits: bv64)

  datatype Value =
    | VNone
    | VBool(b: bool)
    | VInt(i: int)
    | VFloat(f: Float)
    | VStr(s: string)
    | VList(items: seq<Value>)
    | VDict(entries: map<string, Value>)

  /** The exceptions the handler's try block can raise. */
  datatype PyException =
    | AttributeError(typeName: string, attribute: string)  // the event has no such method
    | OverflowError                                         // int too large to convert to float
    | ValueError                                            // int exceeds the str() digit limit

  /** What the interpreter contributes and the model leaves open. */
  datatype Runtime = Runtime(
    intToFloat: int -> Option<Float>,   // float(n); None when it raises OverflowError
    floatAdd: (Float, Float) -> Float,  // IEEE-754 addition
    floatRepr: Float -> string,         // str(x) for a float
    maxStrDigits: nat,                  // sys.get_int_max_str_digits(); 0 disables the limit
    describe: PyException -> string)    // str(e)

  /**
   * What CPython guarantees of these parts: the digit limit is 0 (no limit) or
   * at least 640, and `float(n)` succeeds for every int below 10^308 in
   * absolute value (binary64 overflows only near 1.8 * 10^308).
   */
  ghost predicate ValidRuntime(rt: Runtime) {
    (rt.maxStrDigits == 0 || rt.maxStrDigits >= 640) &&
    (forall n: int :: Abs(n) < Pow10(308) ==> rt.intToFloat(n).Some?)
  }

  /** `type(v).__name__` */
  function TypeName(v: Value): string {
    match v
    case VNone => "NoneType"
    case VBool(_) => "bool"
    case VInt(_) => "int"
    case VFloat(_) => "float"
    case VStr(_) => "str"
    case VList(_) => "list"
    case VDict(_) => "dict"
  }

  /** `v.get(key)`: only a dict has it; a missing key gives None. */
  function Get(v: Value, key: string): Result<Value, PyException> {
    match v
    case VDict(m) => Success(if key in m then m[key] else VNone)
    case _ => Failure(AttributeError(TypeName(v), "get"))
  }

  /** `isinstance(v, (int, float))`; a bool is an int. */
  predicate IsNumeric(v: Value) {
    v.VInt? || v.VBool? || v.VFloat?
  }

  predicate IsIntLike(v: Value) {
    v.VInt? || v.VBool?
  }

  /** The result of adding two numbers: Python never returns a bool from +. */
  datatype Number = NInt(n: int) | NFloat(x: Float)

  /** The integer an int or a bool stands for (True is 1, False is 0). */
  function IntOf(v: Value): int
    requires IsIntLike(v)
  {
    if v.VBool? then (if v.b then 1 else 0) else v.i
  }

  /** The number a numeric value stands for, as `+` sees it. */
  function AsNumber(v: Value): (r: Number)
    requires IsNumeric(v)
    ensures r.NInt? <==> IsIntLike(v)
  {
    if IsIntLike(v) then NInt(IntOf(v)) else NFloat(v.f)
  }

  /** `a + b` on two numbers. */
  function Add(a: Number, b: Number, rt: Runtime): (r: Result<Number, PyException>)
    ensures a.NInt? && b.NInt? ==> r == Success(NInt(a.n + b.n))
    ensures r.Success? && (a.NFloat? || b.NFloat?) ==> r.value.NFloat?
    ensures a.NFloat? && b.NFloat? ==> r.Success?
    ensures r.Failure? ==> r.error == OverflowError && a.NInt? != b.NInt?
    ensures r.Failure? <==>
              (a.NInt? && b.NFloat? && rt.intToFloat(a.n).None?) ||
              (a.NFloat? && b.NInt? && rt.intToFloat(b.n).None?)
  {
    match (a, b)
    case (NInt(x), NInt(y)) => Success(NInt(x + y))
    case (NFloat(x), NFloat(y)) => Success(NFloat(rt.floatAdd(x, y)))
    case (NInt(x), NFloat(y)) =>
      if rt.intToFloat(x).None? then Failure(OverflowError)
      else Success(NFloat(rt.floatAdd(rt.intToFloat(x).value, y)))
    case (NFloat(x), NInt(y)) =>
      if rt.intToFloat(y).None? then Failure(OverflowError)
      else Success(NFloat(rt.floatAdd(x, rt.intToFloat(y).value)))
  }

  /** Whether `str(i)` is allowed under the interpreter's digit limit. */
  predicate WithinDigitLimit(i: int, rt: Runtime) {
    rt.maxStrDigits == 0 || DigitCount(i) <= rt.maxStrDigits
  }

  /** `str(n)` (what an f-string placeholder without a format specifier produces). */
  function Str(n: Number, rt: Runtime): (r: Result<string, PyException>)
    ensures n.NInt? ==> (r.Success? <==> WithinDigitLimit(n.n, rt))
    ensures n.NInt? && r.Success? ==> ParseInt(r.value) == Some(n.n)
    ensures r.Failure? ==> r.error == ValueError
  {
    match n
    case NInt(i) =>
      if WithinDigitLimit(i, rt) then
        ParseIntToString(i);
        Success(IntToString(i))
      else Failure(ValueError)
    case NFloat(x) => Success(rt.floatRepr(x))
  }

  /** The digit limit in arithmetic terms: |i| < 10^limit. */
  lemma WithinDigitLimitIff(i: int, rt: Runtime)
    requires rt.maxStrDigits > 0
    ensures WithinDigitLimit(i, rt) <==> Abs(i) < Pow10(rt.maxStrDigits)
  {
    DigitCountBound(Abs(i), rt.maxStrDigits);
  }

  /** Any integer with at most 640 digits renders under every valid runtime. */
  lemma SmallIntsRender(i: int, rt: Runtime)
    requires ValidRuntime(rt)
    requires Abs(i) < Pow10(640)
    ensures WithinDigitLimit(i, rt)
  {
    if rt.maxStrDigits > 0 {
      WithinDigitLimitIff(i, rt);
      PowMonotone(640, rt.maxStrDigits);
    }
  }

  lemma {:induction false} PowMonotone(j: nat, k: nat)
    requires j <= k
    ensures Pow10(j) <= Pow10(k)
    decreases k
  {
    if j < k {
      PowMonotone(j, k - 1);
    }
  }
}
