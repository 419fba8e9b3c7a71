/**
 * The earlier container's semantics as values: property equality, the
 * per-property tests of `check` and their first-failure order, and the
 * required-only comparison of two containers.
 */
module UVSpec {
  import opened Wrappers
  import opened PyValues
  import opened Forms

  /** The concrete class of a property; every subclass derives from `UVProperty` (`PlainProp`). */
  datatype PropKind = PlainProp | AntPositionProp | ExtraKeywordProp | AngleProp

  /** `isinstance(other, self.__class__)` for properties. */
  predicate IsPropInstanceOf(otherKind: PropKind, selfKind: PropKind) {
    otherKind == selfKind || selfKind == PlainProp
  }

  /** `expected_size`'s result: the tag 'str', a bare integer, or a tuple of dimensions. */
  datatype Size = SizeStr | SizeInt(n: int) | SizeDims(dims: seq<Value>)

  /**
   * What `expected_size` returns for `form`, given the values of the
   * container's properties; `None` is an extra-keyword property, which has
   * no `form` attribute.
   */
  function ExpectedSizeOf(form: Option<Form>, siblings: map<string, Value>): Result<Size, Raised> {
    match form
    case None => Failure(AttrErr("form"))
    case Some(StrForm) => Success(SizeStr)
    case Some(IntForm(n)) => Success(SizeInt(n))
    case Some(TupleForm(es)) =>
      match ResolveDims(es, siblings)
      case Success(d) => Success(SizeDims(d))
      case Failure(e) => Failure(e)
  }

  /** What `sanity_check` returns: sane when no range is set or the mean magnitude lies in it. */
  function SanityOf(v: Value, saneVals: Option<(real, real)>): Result<bool, Raised> {
    if saneVals.None? then Success(true)
    else
      match MeanAbs(v)
      case Failure(e) => Failure(e)
      case Success(m) => Success(m.Some? && saneVals.value.0 <= m.value <= saneVals.value.1)
  }

  /** `len(v)`. */
  function Length(v: Value): (r: Result<nat, Raised>)
    ensures v.VStrList? ==> r == Success(|v.items|)
    ensures v.VArr? && v.shape != [] ==> r == Success(v.shape[0])
  {
    match v
    case VStrList(items) => Success(|items|)
    case VArr(_, shape, _) => if shape == [] then Failure(TypeErr) else Success(shape[0])
    case VStr(s) => Success(|s|)
    case VDict(entries) => Success(|DictOf(entries).Keys|)
    case _ => Failure(TypeErr)
  }

  // ---------------------------------------------------------------- property equality

  /**
   * `self.value == other.value` as the earlier `__eq__` decides it, for
   * properties of compatible classes. Every failed test only lowers the
   * flag, so nothing returns early; an array compared with a non-array and
   * a string compared with a non-string raise; a None or dict value never
   * equals anything, because `np.isclose` raises on it and the bare
   * `except` turns that into "unequal"; so does an int outside
   * int64/uint64, which numpy can only hold as an object. `tols` is `None` for an
   * extra-keyword property, which has no `tols` attribute: reading it
   * raises for arrays of equal shape, and is swallowed by the same
   * `except` for numbers.
   */
  function OldValueEquals(a: Value, b: Value, tols: Option<(real, real)>): (r: Result<bool, Raised>)
    ensures r == Success(true) ==> ClassOf(a) == ClassOf(b)
    ensures a.VNone? || a.VDict? ==> r == Success(false)
  {
    match a
    case VArr(_, sa, ea) =>
      if !b.VArr? then Failure(AttrErr("shape"))
      else if sa != b.shape then Success(false)
      else if tols.None? then Failure(AttrErr("tols"))
      else Success(AllClose(ea, b.elems, tols.value.0, tols.value.1))
    case VStr(sa) =>
      if !b.VStr? then Failure(AttrErr("replace"))
      else Success(sa == b.s || NoNewlines(sa) == NoNewlines(b.s))
    case VStrList(xa) =>
      if xa == [] then Failure(IndexErr)
      else Success(b == VStrList(xa))
    case VInt(ia) =>
      Success(b.VInt? && tols.Some? && NativeInt(ia) && NativeInt(b.i)
              && IsClose(ia as real, b.i as real, tols.value.0, tols.value.1))
    case VFloat(xa) => Success(b.VFloat? && tols.Some? && IsClose(xa, b.r, tols.value.0, tols.value.1))
    case VNone => Success(false)
    case VDict(_) => Success(false)
  }

  /** What a property's `__eq__` returns, or what it raises. */
  function OldPropEquals(selfKind: PropKind, a: Value, tols: Option<(real, real)>, otherKind: PropKind, b: Value): (r: Result<bool, Raised>)
    ensures !IsPropInstanceOf(otherKind, selfKind) ==> r == Success(false)
  {
    if !IsPropInstanceOf(otherKind, selfKind) then Success(false)
    else OldValueEquals(a, b, tols)
  }

  // ---------------------------------------------------------------- validation

  /** The attributes of one property that `check` reads. */
  datatype PropState = PropState(kind: PropKind, required: bool, form: Option<Form>, expectedType: PyType,
                                 saneVals: Option<(real, real)>, tols: Option<(real, real)>, value: Value)

  /** Why `check` raised for one property. */
  datatype CheckError = NotSet | NotString | WrongSize | WrongType | Insane | Raised(err: Raised)

  /**
   * The size and type tests of `check` for a value of the expected size
   * `size`. A bare integer size never equals the tuple `np.shape` returns.
   */
  function SizeError(v: Value, ty: PyType, size: Size): Option<CheckError> {
    match size
    case SizeStr => if v.VStr? then None else Some(NotString)
    case SizeInt(_) => Some(WrongSize)
    case SizeDims(dims) =>
      if !ShapeMatches(ShapeOf(v), dims) then Some(WrongSize)
      else if dims == [] then (if IsInstance(ClassOf(v), ty) then None else Some(WrongType))
      else
        match v
        case VStrList(items) =>
          if items == [] then Some(Raised(IndexErr))
          else if IsInstance(StrT, ty) then None else Some(WrongType)
        case VArr(d, _, elems) =>
          if elems == [] then Some(Raised(IndexErr))
          else if IsInstance(DTypeTag(d), ty) then None else Some(WrongType)
        case _ => None   // only lists and arrays have a non-empty shape
  }

  /** The sanity test of `check`. */
  function SanityError(p: PropState): Option<CheckError> {
    if p.kind == ExtraKeywordProp then Some(Raised(AttrErr("sane_vals")))
    else
    match SanityOf(p.value, p.saneVals)
    case Failure(e) => Some(Raised(e))
    case Success(sane) => if sane then None else Some(Insane)
  }

  /** The first test one required property fails in `check`, in the order unset, size, type, sanity. */
  function PropCheck(p: PropState, siblings: map<string, Value>, runSanity: bool): Option<CheckError> {
    if p.value == VNone then Some(NotSet)
    else
      match ExpectedSizeOf(p.form, siblings)
      case Failure(e) => Some(Raised(e))
      case Success(size) =>
        var err := SizeError(p.value, p.expectedType, size);
        if err.Some? then err
        else if runSanity then SanityError(p)
        else None
  }

  /** The tests of `check` on the property named `n`; `getattr` raises for a name that holds none. */
  function Checked(n: string, states: map<string, PropState>, siblings: map<string, Value>, runSanity: bool)
    : Option<CheckError>
  {
    if n !in states then Some(Raised(AttrErr(n))) else PropCheck(states[n], siblings, runSanity)
  }

  /** `check`'s outcome over the required properties `names`: success, or the first failure. */
  function CheckSpec(names: seq<string>, states: map<string, PropState>, siblings: map<string, Value>,
                     runSanity: bool): Result<(), (string, CheckError)>
  {
    if names == [] then Success(())
    else
      match Checked(names[0], states, siblings, runSanity)
      case Some(e) => Failure((names[0], e))
      case None => CheckSpec(names[1..], states, siblings, runSanity)
  }

  /**
   * `check` succeeds exactly when every required property passes its
   * tests; otherwise it names the first property that fails, with the test
   * it fails.
   */
  lemma {:induction false} CheckSpecMeaning(names: seq<string>, states: map<string, PropState>,
                                            siblings: map<string, Value>, runSanity: bool)
    ensures CheckSpec(names, states, siblings, runSanity).Success?
      <==> forall k :: 0 <= k < |names| ==> Checked(names[k], states, siblings, runSanity).None?
    ensures CheckSpec(names, states, siblings, runSanity).Failure? ==> exists k ::
      && 0 <= k < |names| && names[k] == CheckSpec(names, states, siblings, runSanity).error.0
      && Checked(names[k], states, siblings, runSanity) == Some(CheckSpec(names, states, siblings, runSanity).error.1)
      && forall m :: 0 <= m < k ==> Checked(names[m], states, siblings, runSanity).None?
  {
    if names != [] {
      CheckSpecMeaning(names[1..], states, siblings, runSanity);
      var r := CheckSpec(names, states, siblings, runSanity);
      if Checked(names[0], states, siblings, runSanity).None? {
        if r.Failure? {
          var k :| 0 <= k < |names[1..]| && names[1..][k] == r.error.0
            && Checked(names[1..][k], states, siblings, runSanity) == Some(r.error.1)
            && forall m :: 0 <= m < k ==> Checked(names[1..][m], states, siblings, runSanity).None?;
          assert names[k + 1] == r.error.0;
          assert forall m :: 1 <= m < k + 1 ==> names[m] == names[1..][m - 1];
        } else {
          assert forall k :: 1 <= k < |names| ==> names[k] == names[1..][k - 1];
        }
      }
    }
  }

  /** The invariant of `check`'s loop: once the first `k` properties pass, the outcome is that of the rest. */
  lemma CheckStep(names: seq<string>, k: nat, states: map<string, PropState>, siblings: map<string, Value>,
                  runSanity: bool)
    requires k < |names|
    ensures Checked(names[k], states, siblings, runSanity).Some? ==>
      CheckSpec(names[k..], states, siblings, runSanity)
        == Failure((names[k], Checked(names[k], states, siblings, runSanity).value))
    ensures Checked(names[k], states, siblings, runSanity).None? ==>
      CheckSpec(names[k..], states, siblings, runSanity) == CheckSpec(names[k + 1..], states, siblings, runSanity)
  {
    assert names[k..][0] == names[k];
    assert names[k..][1..] == names[k + 1..];
  }

  // ---------------------------------------------------------------- container equality

  /** `prefix` followed by the names `rest` lists, or `rest`'s failure. */
  function PrependNames(prefix: seq<string>, rest: Result<seq<string>, Raised>): Result<seq<string>, Raised> {
    match rest
    case Success(ms) => Success(prefix + ms)
    case Failure(e) => Failure(e)
  }

  /** The property equality `UVData.__eq__` applies to the property named `n` on both sides. */
  function PairEquals(n: string, mine: map<string, PropState>, theirs: map<string, PropState>): Result<bool, Raised> {
    if n !in mine || n !in theirs then Failure(AttrErr(n))
    else OldPropEquals(mine[n].kind, mine[n].value, mine[n].tols, theirs[n].kind, theirs[n].value)
  }

  /**
   * The names of the properties among `names` that compare unequal, in
   * order, or the first exception raised while comparing them.
   */
  function MismatchesOf(names: seq<string>, mine: map<string, PropState>, theirs: map<string, PropState>)
    : Result<seq<string>, Raised>
  {
    if names == [] then Success([])
    else
      match PairEquals(names[0], mine, theirs)
      case Failure(e) => Failure(e)
      case Success(eq) =>
        match MismatchesOf(names[1..], mine, theirs)
        case Failure(e) => Failure(e)
        case Success(ms) => Success((if eq then [] else [names[0]]) + ms)
  }

  /**
   * Comparing the required properties raises exactly when one of the
   * comparisons raises; otherwise it lists precisely the properties that
   * compare unequal.
   */
  lemma {:induction false} MismatchesMeaning(names: seq<string>, mine: map<string, PropState>,
                                             theirs: map<string, PropState>)
    ensures MismatchesOf(names, mine, theirs).Success?
      <==> forall k :: 0 <= k < |names| ==> PairEquals(names[k], mine, theirs).Success?
    ensures MismatchesOf(names, mine, theirs).Success? ==> forall n ::
      n in MismatchesOf(names, mine, theirs).value <==> n in names && PairEquals(n, mine, theirs) == Success(false)
  {
    if names != [] {
      MismatchesMeaning(names[1..], mine, theirs);
      assert forall n :: n in names <==> n == names[0] || n in names[1..];
      assert forall k :: 1 <= k < |names| ==> names[k] == names[1..][k - 1];
      if PairEquals(names[0], mine, theirs).Success? && MismatchesOf(names[1..], mine, theirs).Failure? {
        var k :| 0 <= k < |names[1..]| && PairEquals(names[1..][k], mine, theirs).Failure?;
        assert PairEquals(names[k + 1], mine, theirs).Failure?;
      }
    }
  }

  lemma {:induction false} MismatchStep(names: seq<string>, k: nat, reported: seq<string>,
                                        mine: map<string, PropState>, theirs: map<string, PropState>)
    requires k < |names|
    requires MismatchesOf(names, mine, theirs) == PrependNames(reported, MismatchesOf(names[k..], mine, theirs))
    ensures PairEquals(names[k], mine, theirs).Failure? ==>
      MismatchesOf(names, mine, theirs) == Failure(PairEquals(names[k], mine, theirs).error)
    ensures PairEquals(names[k], mine, theirs).Success? ==>
      MismatchesOf(names, mine, theirs)
        == PrependNames(reported + (if PairEquals(names[k], mine, theirs).value then [] else [names[k]]),
                        MismatchesOf(names[k + 1..], mine, theirs))
  {
    assert names[k..][0] == names[k];
    assert names[k..][1..] == names[k + 1..];
    match PairEquals(names[k], mine, theirs)
    case Failure(e) =>
    case Success(eq) =>
      match MismatchesOf(names[k + 1..], mine, theirs)
      case Failure(e) =>
      case Success(ms) =>
        var here: seq<string> := if eq then [] else [names[k]];
        assert reported + (here + ms) == (reported + here) + ms;
  }
}
