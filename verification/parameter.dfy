/**
 * `UVParameter` and its subclasses: a named value with a symbolic expected
 * shape (`form`), an expected type, an optional acceptability test and a pair
 * of comparison tolerances.
 */
module Parameter {
  import opened Wrappers
  import opened PyValues
  import opened Forms

  /** The concrete class of a parameter; every subclass derives from `UVParameter` (`Plain`). */
  datatype ParamKind = Plain | AntPosition | Angle

  /** `isinstance(other, self.__class__)` for parameters of classes `otherKind` and `selfKind`. */
  predicate IsInstanceOf(otherKind: ParamKind, selfKind: ParamKind) {
    otherKind == selfKind || selfKind == Plain
  }

  /** `expected_shape`'s result: the tag 'str' or a tuple of dimensions. */
  datatype Shape = StrShape | Dims(dims: seq<Value>)

  // ---------------------------------------------------------------- equality

  /** Why two parameters compare unequal (the diagnostic the source prints). */
  datatype Mismatch =
    | ParamClass | ValueClass | ArrayShape | ArrayValues | NotClose
    | StringValues | StringListValues | DictKeys | DictValues
    | NotCastable  // numpy raised TypeError and the exact `!=` found the values different

  /** Outcome of `self == other`: equal, unequal for a reason, or an exception. */
  datatype Verdict = Same | Differ(why: Mismatch) | Raises(err: Raised)

  /**
   * `np.isclose` on two dict values with default tolerances, or `==` where
   * numpy raises: on None, strings and ints outside int64/uint64.
   */
  predicate LeafClose(x: Leaf, y: Leaf) {
    if IsCloseable(x) && IsCloseable(y) then IsClose(AsReal(x), AsReal(y), DefaultRtol, DefaultAtol)
    else LeafEq(x, y)
  }

  /** Equality of two dict values that passed the class check. */
  function DictEquals(ea: seq<(string, Leaf)>, eb: seq<(string, Leaf)>): (r: Verdict)
    ensures r == Same || r == Differ(DictKeys) || r == Differ(DictValues)
    ensures r == Differ(DictKeys) ==> LowerKeys(ea).Keys != LowerKeys(eb).Keys
    ensures LowerKeys(ea) == LowerKeys(eb) ==> r == Same
  {
    if DictEq(DictOf(ea), DictOf(eb)) then Same
    else
      var la := LowerKeys(ea);
      var lb := LowerKeys(eb);
      if DictEq(la, lb) then Same
      else if la.Keys != lb.Keys then Differ(DictKeys)
      else if forall k :: k in la ==> LeafClose(la[k], lb[k]) then Same
      else Differ(DictValues)
  }

  /**
   * Equality of the values of two parameters of compatible classes, with the
   * left operand's tolerances. The first element of an array or list is read
   * to decide whether it holds strings, so an empty one raises.
   */
  function ValueEquals(a: Value, b: Value, rtol: real, atol: real): (r: Verdict)
    ensures r == Differ(ValueClass) <==> !IsA(ClassOf(a), ClassOf(b))
    ensures r.Raises? ==> r.err == IndexErr && (a.VArr? || a.VStrList?)
  {
    match (a, b)
    case (VArr(_, sa, ea), VArr(_, sb, eb)) =>
      if sa == [] || sa[0] == 0 then Raises(IndexErr)
      else if sa != sb then Differ(ArrayShape)
      else if AllClose(ea, eb, rtol, atol) then Same
      else Differ(ArrayValues)
    case (VStrList(xa), VStrList(xb)) =>
      if xa == [] then Raises(IndexErr)
      else if StripAll(xa) != StripAll(xb) then Differ(StringListValues)
      else Same
    case (VStr(sa), VStr(sb)) =>
      if Strip(sa) == Strip(sb) || Squeeze(sa) == Squeeze(sb) then Same else Differ(StringValues)
    case (VInt(ia), VInt(ib)) =>
      if !NativeInt(ia) || !NativeInt(ib) then (if ia == ib then Same else Differ(NotCastable))
      else if IsClose(ia as real, ib as real, rtol, atol) then Same else Differ(NotClose)
    case (VFloat(xa), VFloat(xb)) =>
      if IsClose(xa, xb, rtol, atol) then Same else Differ(NotClose)
    case (VNone, VNone) => Same
    case (VDict(ea), VDict(eb)) => DictEquals(ea, eb)
    case _ => Differ(ValueClass)
  }

  /** `self == other` for parameters `(selfKind, a, tols)` and `(otherKind, b)`. */
  function ParamEquals(selfKind: ParamKind, a: Value, tols: (real, real), otherKind: ParamKind, b: Value): (r: Verdict)
    ensures r == Differ(ParamClass) <==> !IsInstanceOf(otherKind, selfKind)
    ensures r == Same ==> IsInstanceOf(otherKind, selfKind) && IsA(ClassOf(a), ClassOf(b))
  {
    if !IsInstanceOf(otherKind, selfKind) then Differ(ParamClass)
    else ValueEquals(a, b, tols.0, tols.1)
  }

  /**
   * The `==` operator on two parameters. When the right operand's class is a
   * proper subclass of the left one's, Python asks the right operand first.
   */
  function OperatorEquals(leftKind: ParamKind, a: Value, leftTols: (real, real),
                          rightKind: ParamKind, b: Value, rightTols: (real, real)): (r: Verdict)
    ensures leftKind != rightKind ==> r == Differ(ParamClass)
    ensures leftKind == rightKind ==> r == ValueEquals(a, b, leftTols.0, leftTols.1)
  {
    if rightKind != leftKind && leftKind == Plain then ParamEquals(rightKind, b, rightTols, leftKind, a)
    else ParamEquals(leftKind, a, leftTols, rightKind, b)
  }

  // ---------------------------------------------------------------- acceptability

  /** `check_acceptability`'s verdict: its boolean is `Passes`, its message the rest. */
  datatype Acceptability =
    | NoCheck
    | Acceptable
    | NotAllowed(elem: Leaf)
    | MeanOutOfRange(mean: Option<real>)   // None: the mean is NaN

  predicate Passes(a: Acceptability) {
    a.NoCheck? || a.Acceptable?
  }

  /** `x in xs` for a Python list: some entry compares equal. */
  predicate InList(x: Leaf, xs: seq<Leaf>) {
    exists k :: 0 <= k < |xs| && LeafEq(x, xs[k])
  }

  function LowerLeaves(ss: seq<string>): (r: seq<Leaf>)
    ensures |r| == |ss| && forall k :: 0 <= k < |ss| ==> r[k] == LStr(Lower(ss[k]))
  {
    seq(|ss|, k requires 0 <= k < |ss| => LStr(Lower(ss[k])))
  }

  function Keys(entries: seq<(string, Leaf)>): (r: seq<string>)
    ensures |r| == |entries| && forall k :: 0 <= k < |entries| ==> r[k] == entries[k].0
  {
    seq(|entries|, k requires 0 <= k < |entries| => entries[k].0)
  }

  /**
   * The elements of the value set that are looked up in `acceptable_vals`:
   * lower-cased strings when the expected type is str, otherwise the
   * elements of a list or 1-d array, or the value itself.
   */
  function ValueElems(v: Value, lowerStrings: bool): Result<seq<Leaf>, Raised> {
    if lowerStrings then
      match v
      case VStr(s) => Success([LStr(Lower(s))])
      case VStrList(items) => Success(LowerLeaves(items))
      case VDict(entries) => Success(LowerLeaves(Keys(entries)))
      case VArr(_, shape, _) =>
        if shape == [] then Failure(TypeErr)          // a 0-d array is not iterable
        else if shape[0] == 0 then Success([])
        else Failure(AttrErr("lower"))                // numbers have no lower()
      case _ => Failure(TypeErr)                      // None and numbers are not iterable
    else
      match v
      case VStrList(items) => Success(seq(|items|, k requires 0 <= k < |items| => LStr(items[k])))
      case VArr(_, shape, elems) =>
        if shape == [] then Failure(TypeErr)
        else if shape[0] == 0 then Success([])
        else if |shape| == 1 then Success(seq(|elems|, k requires 0 <= k < |elems| => LFloat(elems[k])))
        else Failure(TypeErr)                         // rows of a 2-d array are unhashable
      case VDict(_) => Failure(TypeErr)               // a dict is unhashable
      case VNone => Success([LNone])
      case VInt(i) => Success([LInt(i)])
      case VFloat(r) => Success([LFloat(r)])
      case VStr(s) => Success([LStr(s)])
  }

  /** `acceptable_vals`, lower-cased when the expected type is str. */
  function AllowedVals(vals: seq<Leaf>, lowerStrings: bool): (r: Result<seq<Leaf>, Raised>)
    ensures r.Success? ==> |r.value| == |vals|
    ensures !lowerStrings ==> r == Success(vals)
    ensures lowerStrings ==> (r.Success? <==> forall k :: 0 <= k < |vals| ==> vals[k].LStr?)
    ensures lowerStrings && r.Success? ==> forall k :: 0 <= k < |vals| ==> r.value[k] == LStr(Lower(vals[k].s))
  {
    if !lowerStrings then Success(vals)
    else if vals == [] then Success([])
    else if !vals[0].LStr? then Failure(AttrErr("lower"))
    else
      match AllowedVals(vals[1..], true)
      case Failure(e) => Failure(e)
      case Success(rest) => Success([LStr(Lower(vals[0].s))] + rest)
  }

  /** Index of the first element not in `allowed`, or `|elems|` when every element is. */
  function FirstOffender(elems: seq<Leaf>, allowed: seq<Leaf>): (k: nat)
    ensures k <= |elems|
    ensures forall m :: 0 <= m < k ==> InList(elems[m], allowed)
    ensures k < |elems| ==> !InList(elems[k], allowed)
  {
    if elems == [] || !InList(elems[0], allowed) then 0
    else 1 + FirstOffender(elems[1..], allowed)
  }

  /** What `check_acceptability` returns for a parameter with these attributes. */
  function AcceptabilityOf(v: Value, expectedType: PyType, vals: Option<seq<Leaf>>,
                           range: Option<(real, real)>): Result<Acceptability, Raised>
  {
    if vals.None? && range.None? then Success(NoCheck)
    else if vals.Some? then
      var lowerStrings := expectedType == Only(StrT);
      match ValueElems(v, lowerStrings)
      case Failure(e) => Failure(e)
      case Success(elems) =>
        match AllowedVals(vals.value, lowerStrings)
        case Failure(e) => Failure(e)
        case Success(allowed) =>
          var k := FirstOffender(elems, allowed);
          if k == |elems| then Success(Acceptable) else Success(NotAllowed(elems[k]))
    else
      match MeanAbs(v)
      case Failure(e) => Failure(e)
      case Success(m) =>
        if m.Some? && range.value.0 <= m.value <= range.value.1 then Success(Acceptable)
        else Success(MeanOutOfRange(m))
  }

  // ---------------------------------------------------------------- shapes, spoofing, angles

  /** What `expected_shape` returns for `form`, given the values of the owner's attributes. */
  function ExpectedShapeOf(form: Form, siblings: map<string, Value>): Result<Shape, Raised> {
    match form
    case StrForm => Success(StrShape)
    case IntForm(n) => Success(Dims([VInt(n)]))
    case TupleForm(es) =>
      match ResolveDims(es, siblings)
      case Success(d) => Success(Dims(d))
      case Failure(e) => Failure(e)
  }

  /** `np.zeros((count, 3))`: a float array of `count` zero rows of three. */
  function ZeroPositions(count: Value): (r: Result<Value, Raised>)
    ensures r.Success? <==> count.VInt? && count.i >= 0
    ensures r.Success? ==>
      && r.value.VArr? && r.value.dtype == FloatDT && r.value.shape == [count.i as nat, 3]
      && |r.value.elems| == 3 * count.i
      && forall k :: 0 <= k < |r.value.elems| ==> r.value.elems[k] == 0.0
    ensures count.VInt? && count.i < 0 ==> r == Failure(NegativeDim)
  {
    match count
    case VInt(n) =>
      if n < 0 then Failure(NegativeDim)
      else Success(VArr(FloatDT, [n as nat, 3], seq(3 * n, _ => 0.0)))
    case _ => Failure(TypeErr)
  }

  // ---------------------------------------------------------------- the parameter object

  class UVParameter {
    const name: string
    const kind: ParamKind
    const required: bool
    /** `None` when the attribute is never set, as for required parameters. */
    const spoofVal: Option<Value>
    const form: Form
    const description: string
    const expectedType: PyType
    const acceptableVals: Option<seq<Leaf>>
    const acceptableRange: Option<(real, real)>
    /** (relative, absolute) tolerances for `np.isclose`. */
    const tols: (real, real)
    var value: Value

    constructor (name: string, kind: ParamKind, required: bool, value: Value, spoofVal: Value,
                 form: Form, description: string, expectedType: PyType,
                 acceptableVals: Option<seq<Leaf>>, acceptableRange: Option<(real, real)>, tols: TolsArg)
      ensures this.name == name && this.kind == kind && this.required == required
      ensures this.value == value && this.form == form && this.description == description
      ensures this.acceptableVals == acceptableVals && this.acceptableRange == acceptableRange
      ensures required ==> this.spoofVal.None?
      ensures !required ==> this.spoofVal == Some(spoofVal)
      ensures form == StrForm ==> this.expectedType == Only(StrT)
      ensures form != StrForm ==> this.expectedType == expectedType
      ensures tols.SingleTol? ==> this.tols == (0.0, tols.t)
      ensures tols.TolPair? ==> this.tols == (tols.rtol, tols.atol)
    {
      this.name := name;
      this.kind := kind;
      this.required := required;
      this.spoofVal := if required then None else Some(spoofVal);
      this.value := value;
      this.description := description;
      this.form := form;
      this.expectedType := if form == StrForm then Only(StrT) else expectedType;
      this.acceptableVals := acceptableVals;
      this.acceptableRange := acceptableRange;
      this.tols := match tols
        case SingleTol(t) => (0.0, t)
        case TolPair(r, a) => (r, a);
    }

    /** `self == other`. */
    function Eq(other: UVParameter): Verdict
      reads this, other
    {
      ParamEquals(kind, value, tols, other.kind, other.value)
    }

    /**
     * `apply_spoof()`: the value becomes the spoof value. A required parameter
     * has no `spoof_val` attribute, and the antenna-position subclass takes
     * two arguments, so both raise and leave the value alone.
     */
    method ApplySpoof() returns (r: Result<(), Raised>)
      modifies this
      ensures kind == AntPosition ==> r == Failure(TypeErr) && value == old(value)
      ensures kind != AntPosition && spoofVal.None? ==> r == Failure(AttrErr("spoof_val")) && value == old(value)
      ensures kind != AntPosition && spoofVal.Some? ==> r == Success(()) && value == spoofVal.value
    {
      if kind == AntPosition {
        return Failure(TypeErr);
      }
      if spoofVal.None? {
        return Failure(AttrErr("spoof_val"));
      }
      value := spoofVal.value;
      return Success(());
    }

    /**
     * `AntPositionParameter.apply_spoof(uvbase, antnum_name)`: the value
     * becomes zeros of shape (number of antennas, 3), the number being the
     * value of the owner's attribute `antnumName`.
     */
    method ApplyAntPositionSpoof(siblings: map<string, Value>, antnumName: string) returns (r: Result<(), Raised>)
      requires kind == AntPosition
      modifies this
      ensures antnumName !in siblings ==> r == Failure(AttrErr(antnumName)) && value == old(value)
      ensures antnumName in siblings && ZeroPositions(siblings[antnumName]).Failure? ==>
        r == Failure(ZeroPositions(siblings[antnumName]).error) && value == old(value)
      ensures antnumName in siblings && ZeroPositions(siblings[antnumName]).Success? ==>
        r == Success(()) && value == ZeroPositions(siblings[antnumName]).value
    {
      if antnumName !in siblings {
        return Failure(AttrErr(antnumName));
      }
      var zeros := ZeroPositions(siblings[antnumName]);
      if zeros.Failure? {
        return Failure(zeros.error);
      }
      value := zeros.value;
      return Success(());
    }

    /** `AngleParameter.degrees()`. */
    function Degrees(): Result<Value, Raised>
      requires kind == Angle
      reads this
    {
      ToDegrees(value)
    }

    /** `AngleParameter.set_degrees(degree_val)`: None clears the value. */
    method SetDegrees(degreeVal: Value) returns (r: Result<(), Raised>)
      requires kind == Angle
      modifies this
      ensures degreeVal == VNone ==> r == Success(()) && value == VNone
      ensures FromDegrees(degreeVal).Success? ==> r == Success(()) && value == FromDegrees(degreeVal).value
      ensures FromDegrees(degreeVal).Failure? ==> r == Failure(TypeErr) && value == old(value)
    {
      if degreeVal == VNone {
        value := VNone;
        return Success(());
      }
      var converted := FromDegrees(degreeVal);
      if converted.Failure? {
        return Failure(converted.error);
      }
      value := converted.value;
      return Success(());
    }

    /**
     * `expected_shape(uvbase)`, where `siblings` holds the value of each
     * attribute of the owning object.
     */
    method ExpectedShape(siblings: map<string, Value>) returns (r: Result<Shape, Raised>)
      ensures r == ExpectedShapeOf(form, siblings)
    {
      match form
      case StrForm =>
        return Success(StrShape);
      case IntForm(n) =>
        return Success(Dims([VInt(n)]));
      case TupleForm(es) =>
        var dims := ResolveForm(es, siblings);
        if dims.Failure? {
          return Failure(dims.error);
        }
        return Success(Dims(dims.value));
    }

    /** `check_acceptability()`. */
    method CheckAcceptability() returns (r: Result<Acceptability, Raised>)
      ensures r == AcceptabilityOf(value, expectedType, acceptableVals, acceptableRange)
    {
      if acceptableVals.None? && acceptableRange.None? {
        return Success(NoCheck);
      }
      if acceptableVals.Some? {
        var lowerStrings := expectedType == Only(StrT);
        var valueSet := ValueElems(value, lowerStrings);
        if valueSet.Failure? {
          return Failure(valueSet.error);
        }
        var allowed := AllowedVals(acceptableVals.value, lowerStrings);
        if allowed.Failure? {
          return Failure(allowed.error);
        }
        var elems := valueSet.value;
        var k := 0;
        while k < |elems|
          invariant 0 <= k <= |elems|
          invariant forall m :: 0 <= m < k ==> InList(elems[m], allowed.value)
        {
          if !InList(elems[k], allowed.value) {
            return Success(NotAllowed(elems[k]));
          }
          k := k + 1;
        }
        return Success(Acceptable);
      }
      var testval := MeanAbs(value);
      if testval.Failure? {
        return Failure(testval.error);
      }
      if testval.value.Some? && acceptableRange.value.0 <= testval.value.value <= acceptableRange.value.1 {
        return Success(Acceptable);
      }
      return Success(MeanOutOfRange(testval.value));
    }
  }
}
