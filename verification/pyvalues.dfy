/**
 * The Python values that parameters and properties hold, and the numpy and
 * string operations the validation logic applies to them.
 *
 * Floating-point numbers are mathematical reals; numpy arrays keep their
 * element type as a tag, their shape, and their elements in row-major order.
 */
module PyValues {
  import opened Wrappers

  /** Element type of a numpy array (what `value.item(0)` returns). */
  datatype DType = IntDT | FloatDT | ComplexDT | BoolDT

  /** Python classes that `isinstance` tests distinguish in the model. */
  datatype TypeTag = IntT | FloatT | ComplexT | BoolT | StrT | ListT | DictT | ArrayT | NoneT

  /** An `expected_type`: one class, or a tuple of classes such as `(np.float, np.int)`. */
  datatype PyType = Only(t: TypeTag) | AnyOf(ts: seq<TypeTag>)

  /** Hashable scalars: members of value sets, `acceptable_vals` entries and dict values. */
  datatype Leaf = LNone | LInt(i: int) | LFloat(r: real) | LStr(s: string)

  datatype Value =
    | VNone
    | VInt(i: int)
    | VFloat(r: real)
    | VStr(s: string)
    | VStrList(items: seq<string>)
    | VArr(dtype: DType, shape: seq<nat>, elems: seq<real>)
    | VDict(entries: seq<(string, Leaf)>)

  /** What a Python operation raised. */
  datatype Raised =
    | TypeErr                        // operation not supported for the operand's type
    | IndexErr                       // first element of an empty list or array
    | AttrErr(attr: string)          // missing attribute
    | MissingShapeParam(name: string) // ValueError: a form refers to a parameter whose value is None
    | NegativeDim                     // ValueError: an array dimension below zero

  /** Python class of a value, for `isinstance(a, b.__class__)`. */
  function ClassOf(v: Value): TypeTag {
    match v
    case VNone => NoneT
    case VInt(_) => IntT
    case VFloat(_) => FloatT
    case VStr(_) => StrT
    case VStrList(_) => ListT
    case VArr(_, _, _) => ArrayT
    case VDict(_) => DictT
  }

  function DTypeTag(d: DType): TypeTag {
    match d
    case IntDT => IntT
    case FloatDT => FloatT
    case ComplexDT => ComplexT
    case BoolDT => BoolT
  }

  /** `isinstance(x, cls)` for an object of class `tag`; bool is a subclass of int. */
  predicate IsA(tag: TypeTag, cls: TypeTag) {
    tag == cls || (tag == BoolT && cls == IntT)
  }

  /** `isinstance(x, expected_type)`, where a tuple of classes accepts any of them. */
  predicate IsInstance(tag: TypeTag, ty: PyType) {
    match ty
    case Only(t) => IsA(tag, t)
    case AnyOf(ts) => exists k :: 0 <= k < |ts| && IsA(tag, ts[k])
  }

  /** `np.shape(v)`: scalars, strings and dicts have the empty shape. */
  function ShapeOf(v: Value): seq<nat> {
    match v
    case VStrList(items) => [|items|]
    case VArr(_, shape, _) => shape
    case _ => []
  }

  /** `d == v` for one entry of a shape tuple: a sibling's int or float value equal to the dimension. */
  predicate DimMatches(d: nat, v: Value) {
    (v.VInt? && v.i == d) || (v.VFloat? && v.r == d as real)
  }

  /** `np.shape(value) == dims` for a tuple of expected dimensions. */
  predicate ShapeMatches(shape: seq<nat>, dims: seq<Value>) {
    |shape| == |dims| && forall k :: 0 <= k < |shape| ==> DimMatches(shape[k], dims[k])
  }

  // ---------------------------------------------------------------- strings

  /** Characters `str.strip()` removes (the ASCII whitespace of Python's `str.isspace`). */
  predicate IsSpace(c: char) {
    c == ' ' || c == '\t' || c == '\n' || c == '\r' || c == '\U{b}' || c == '\U{c}'
    || c == '\U{1c}' || c == '\U{1d}' || c == '\U{1e}' || c == '\U{1f}'
  }

  function TrimLeft(s: string): (r: string)
    ensures |r| <= |s|
    ensures r == [] || !IsSpace(r[0])
  {
    if s != [] && IsSpace(s[0]) then TrimLeft(s[1..]) else s
  }

  function TrimRight(s: string): (r: string)
    ensures |r| <= |s|
    ensures r == [] || !IsSpace(r[|r| - 1])
  {
    if s != [] && IsSpace(s[|s| - 1]) then TrimRight(s[..|s| - 1]) else s
  }

  /** `s.strip()`. */
  function Strip(s: string): string {
    TrimRight(TrimLeft(s))
  }

  /** `[x.strip() for x in xs]`. */
  function StripAll(xs: seq<string>): (r: seq<string>)
    ensures |r| == |xs|
    ensures forall k :: 0 <= k < |xs| ==> r[k] == Strip(xs[k])
  {
    if xs == [] then [] else [Strip(xs[0])] + StripAll(xs[1..])
  }

  /** `s` without every character for which `drop` holds. */
  function Without(s: string, drop: char -> bool): string {
    if s == [] then [] else (if drop(s[0]) then [] else [s[0]]) + Without(s[1..], drop)
  }

  predicate IsNewline(c: char) {
    c == '\n'
  }

  predicate IsNewlineOrSpace(c: char) {
    c == '\n' || c == ' '
  }

  /** `s.replace('\n', '').replace(' ', '')`. */
  function Squeeze(s: string): string {
    Without(s, IsNewlineOrSpace)
  }

  /** `s.replace('\n', '')`. */
  function NoNewlines(s: string): string {
    Without(s, IsNewline)
  }

  /** `s.lower()` on ASCII letters. */
  function Lower(s: string): (r: string)
    ensures |r| == |s|
  {
    if s == [] then []
    else [if 'A' <= s[0] <= 'Z' then (s[0] as int + 32) as char else s[0]] + Lower(s[1..])
  }

  /** `s.endswith(suffix)`. */
  predicate EndsWith(s: string, suffix: string) {
    |suffix| <= |s| && s[|s| - |suffix|..] == suffix
  }

  // ---------------------------------------------------------------- numbers

  function Abs(x: real): real {
    if x < 0.0 then -x else x
  }

  /** The `np.isclose` rule: |a - b| <= atol + rtol * |b|. */
  predicate IsClose(a: real, b: real, rtol: real, atol: real) {
    Abs(a - b) <= atol + rtol * Abs(b)
  }

  /** `np.allclose` on two arrays of the same shape. */
  predicate AllClose(xs: seq<real>, ys: seq<real>, rtol: real, atol: real) {
    |xs| == |ys| && forall k :: 0 <= k < |xs| ==> IsClose(xs[k], ys[k], rtol, atol)
  }

  /** numpy's default tolerances, also the default `tols` of a parameter. */
  const DefaultRtol: real := 0.00001
  const DefaultAtol: real := 0.00000001

  function SumAbs(xs: seq<real>): (r: real)
    ensures r >= 0.0
  {
    if xs == [] then 0.0 else Abs(xs[0]) + SumAbs(xs[1..])
  }

  /**
   * `np.mean(np.abs(v))`. `Success(None)` is numpy's NaN, the mean of an
   * empty array; values numpy cannot take the absolute value of raise.
   */
  function MeanAbs(v: Value): Result<Option<real>, Raised> {
    match v
    case VInt(i) => Success(Some(Abs(i as real)))
    case VFloat(r) => Success(Some(Abs(r)))
    case VArr(_, _, elems) =>
      if elems == [] then Success(None) else Success(Some(SumAbs(elems) / (|elems| as real)))
    case _ => Failure(TypeErr)
  }

  /** The `tols` argument of a parameter: one absolute tolerance, or a (relative, absolute) pair. */
  datatype TolsArg = SingleTol(t: real) | TolPair(rtol: real, atol: real)

  /** `np.pi`. */
  const Pi: real := 3.141592653589793

  /** Result type of multiplying an array by a Python float. */
  function FloatProduct(d: DType): DType {
    if d == ComplexDT then ComplexDT else FloatDT
  }

  /** `v * num / den`, element-wise for arrays; None passes through, as in the angle accessors. */
  function Scale(v: Value, num: real, den: real): (r: Result<Value, Raised>)
    requires den != 0.0
    ensures r.Success? <==> v.VNone? || v.VInt? || v.VFloat? || v.VArr?
    ensures v.VNone? ==> r == Success(VNone)
    ensures r.Success? && v.VArr? ==>
      && r.value.VArr? && r.value.shape == v.shape && |r.value.elems| == |v.elems|
      && forall k :: 0 <= k < |v.elems| ==> r.value.elems[k] == v.elems[k] * num / den
  {
    match v
    case VNone => Success(VNone)
    case VInt(i) => Success(VFloat(i as real * num / den))
    case VFloat(x) => Success(VFloat(x * num / den))
    case VArr(d, shape, elems) =>
      Success(VArr(FloatProduct(d), shape, seq(|elems|, k requires 0 <= k < |elems| => elems[k] * num / den)))
    case _ => Failure(TypeErr)   // strings, lists and dicts cannot be multiplied by a float
  }

  /** `value * 180. / np.pi`. */
  function ToDegrees(v: Value): Result<Value, Raised> {
    Scale(v, 180.0, Pi)
  }

  /** `degree_val * np.pi / 180.`. */
  function FromDegrees(v: Value): Result<Value, Raised> {
    Scale(v, Pi, 180.0)
  }

  /**
   * True for the Python ints numpy stores natively: as int64, or as uint64
   * above that. Any other int becomes an object array, on which the
   * `isfinite` inside `np.isclose` raises TypeError.
   */
  predicate NativeInt(i: int) {
    -0x8000_0000_0000_0000 <= i < 0x1_0000_0000_0000_0000
  }

  /** True for the `Leaf`s numpy treats as numbers. */
  predicate IsNumber(x: Leaf) {
    x.LInt? || x.LFloat?
  }

  function AsReal(x: Leaf): real
    requires IsNumber(x)
  {
    if x.LInt? then x.i as real else x.r
  }

  /** True for the numbers `np.isclose` accepts: floats, and ints numpy stores natively. */
  predicate IsCloseable(x: Leaf) {
    x.LFloat? || (x.LInt? && NativeInt(x.i))
  }

  /** Python `==` on scalars: numbers compare by value across int and float. */
  predicate LeafEq(x: Leaf, y: Leaf) {
    if IsNumber(x) && IsNumber(y) then AsReal(x) == AsReal(y)
    else x == y
  }

  // ---------------------------------------------------------------- dicts

  /** The mapping a dict literal with these entries denotes (a later entry wins). */
  function DictOf(entries: seq<(string, Leaf)>): map<string, Leaf> {
    if entries == [] then map[]
    else DictOf(entries[..|entries| - 1])[entries[|entries| - 1].0 := entries[|entries| - 1].1]
  }

  /** `{k.lower(): v for k, v in d.items()}`: keys that collide after lower-casing keep the later value. */
  function LowerKeys(entries: seq<(string, Leaf)>): map<string, Leaf> {
    if entries == [] then map[]
    else LowerKeys(entries[..|entries| - 1])[Lower(entries[|entries| - 1].0) := entries[|entries| - 1].1]
  }

  /** Python `==` on two dicts. */
  predicate DictEq(m1: map<string, Leaf>, m2: map<string, Leaf>) {
    m1.Keys == m2.Keys && forall k :: k in m1 ==> LeafEq(m1[k], m2[k])
  }
}
