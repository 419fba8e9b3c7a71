/** Properties of the earlier container: its iterators, its validation and its equality. */
module UVDataProps {
  import opened Wrappers
  import opened PyValues
  import opened Forms
  import opened UVSpec
  import opened UVProperties
  import opened UVDataModel
  import opened ParameterProps

  // ---------------------------------------------------------------- iterators

  /**
   * The required and the extra properties split the properties: every
   * property is yielded by exactly one of the two iterators.
   */
  lemma {:induction false} IteratorsPartition(attrs: seq<string>, props: map<string, UVProperty>)
    ensures forall a :: a in PropertyNames(attrs, props) <==> a in RequiredNames(attrs, props) || a in ExtraNames(attrs, props)
    ensures forall a :: !(a in RequiredNames(attrs, props) && a in ExtraNames(attrs, props))
    ensures |RequiredNames(attrs, props)| + |ExtraNames(attrs, props)| == |PropertyNames(attrs, props)|
  {
    if attrs != [] {
      IteratorsPartition(attrs[..|attrs| - 1], props);
    }
  }

  // ---------------------------------------------------------------- validation

  /**
   * The sanity tests only add failures: a container that passes with them
   * passes without them, and one that fails only with them fails a sanity
   * test (an insane mean, a value whose mean cannot be taken, or an
   * extra-keyword property, which has no sane range to read).
   */
  lemma {:induction false} SanityOnlyAddsFailures(names: seq<string>, states: map<string, PropState>,
                                                  siblings: map<string, Value>)
    ensures CheckSpec(names, states, siblings, true).Success? ==> CheckSpec(names, states, siblings, false).Success?
    ensures CheckSpec(names, states, siblings, false).Success? && CheckSpec(names, states, siblings, true).Failure? ==>
      CheckSpec(names, states, siblings, true).error.1 == Insane
      || CheckSpec(names, states, siblings, true).error.1 == Raised(TypeErr)
      || CheckSpec(names, states, siblings, true).error.1 == Raised(AttrErr("sane_vals"))
  {
    if names != [] {
      SanityOnlyAddsFailures(names[1..], states, siblings);
    }
  }

  /**
   * As written, a property whose form is a bare integer never passes
   * `check`: `expected_size` returns the integer itself, which never equals
   * the tuple `np.shape` returns.
   */
  lemma IntFormNeverSized(p: PropState, n: int, siblings: map<string, Value>, runSanity: bool)
    requires p.form == Some(IntForm(n)) && p.value != VNone
    ensures PropCheck(p, siblings, runSanity) == Some(WrongSize)
  {
  }

  /** The failing input: a float array of shape (3,) under the form 3. */
  lemma IntFormCounterexample(siblings: map<string, Value>)
    ensures PropCheck(PropState(PlainProp, true, Some(IntForm(3)), Only(FloatT), None, Some((DefaultRtol, DefaultAtol)),
                                VArr(FloatDT, [3], [1.0, 2.0, 3.0])), siblings, false)
      == Some(WrongSize)
  {
    IntFormNeverSized(PropState(PlainProp, true, Some(IntForm(3)), Only(FloatT), None, Some((DefaultRtol, DefaultAtol)),
                                VArr(FloatDT, [3], [1.0, 2.0, 3.0])), 3, siblings, false);
  }

  /**
   * A data array whose form names `Nblts`: it passes when `Nblts` holds its
   * length, and `check` raises naming `Nblts` while that property is unset.
   */
  lemma NbltsSizedArray(siblings: map<string, Value>, xs: seq<real>)
    requires |xs| == 10
    ensures var p := PropState(PlainProp, true, Some(TupleForm([Ref("Nblts")])), Only(FloatT), None,
                               Some((DefaultRtol, DefaultAtol)), VArr(FloatDT, [10], xs));
      && PropCheck(p, siblings["Nblts" := VInt(10)], true) == None
      && PropCheck(p, siblings["Nblts" := VNone], true) == Some(Raised(MissingShapeParam("Nblts")))
      && PropCheck(p, siblings["Nblts" := VInt(9)], true) == Some(WrongSize)
  {
    var es := [Ref("Nblts")];
    assert es[1..] == [];
    ResolveDimsMeaning(es, siblings["Nblts" := VInt(10)]);
    ResolveDimsMeaning(es, siblings["Nblts" := VNone]);
    ResolveDimsMeaning(es, siblings["Nblts" := VInt(9)]);
    assert ResolveDims(es, siblings["Nblts" := VInt(10)]).value == [VInt(10)];
    assert ResolveDims(es, siblings["Nblts" := VInt(9)]).value == [VInt(9)];
  }

  /** NaN, the mean of an empty array, lies in no range. */
  lemma EmptyArrayInsane(d: DType, shape: seq<nat>, lo: real, hi: real)
    ensures SanityOf(VArr(d, shape, []), Some((lo, hi))) == Success(false)
    ensures SanityOf(VArr(d, shape, []), None) == Success(true)
  {
  }

  /** An array whose every magnitude lies in the sane range is sane. */
  lemma InRangeElementsSane(v: Value, lo: real, hi: real)
    requires v.VArr? && v.elems != []
    requires forall k :: 0 <= k < |v.elems| ==> lo <= Abs(v.elems[k]) <= hi
    ensures SanityOf(v, Some((lo, hi))) == Success(true)
  {
    AllInRangeMeanInRange(v, lo, hi);
  }

  // ---------------------------------------------------------------- equality

  /** Two strings compare equal exactly when they agree once their newlines are removed. */
  lemma StringsEqualUpToNewlines(kind: PropKind, s: string, t: string, tols: Option<(real, real)>)
    ensures OldPropEquals(kind, VStr(s), tols, kind, VStr(t)) == Success(NoNewlines(s) == NoNewlines(t))
  {
  }

  /** A trailing newline is ignored. */
  lemma TrailingNewlineIgnored(kind: PropKind, s: string, tols: Option<(real, real)>)
    ensures OldPropEquals(kind, VStr(s + ['\n']), tols, kind, VStr(s)) == Success(true)
  {
    WithoutAppend(s, ['\n'], IsNewline);
    assert Without(['\n'], IsNewline) == Without([], IsNewline) by {
      assert ['\n'][1..] == [];
    }
    assert NoNewlines(s) + [] == NoNewlines(s);
  }

  /** Arrays compare equal exactly when their shapes agree and their elements are close. */
  lemma ArraysEqualIffShapeAndClose(kind: PropKind, d1: DType, d2: DType, s1: seq<nat>, s2: seq<nat>,
                                    xs: seq<real>, ys: seq<real>, rtol: real, atol: real)
    ensures OldPropEquals(kind, VArr(d1, s1, xs), Some((rtol, atol)), kind, VArr(d2, s2, ys))
      == Success(s1 == s2 && AllClose(xs, ys, rtol, atol))
  {
  }

  /** An unset value never equals anything, not even itself. */
  lemma UnsetNeverEqual(kind: PropKind, tols: Option<(real, real)>, b: Value)
    ensures OldPropEquals(kind, VNone, tols, kind, b) == Success(false)
  {
  }

  /** Scalars of different classes, such as 1 and 1.0, differ. */
  lemma IntAndFloatDiffer(tols: Option<(real, real)>)
    ensures OldPropEquals(PlainProp, VInt(1), tols, PlainProp, VFloat(1.0)) == Success(false)
    ensures OldPropEquals(PlainProp, VFloat(1.0), tols, PlainProp, VInt(1)) == Success(false)
  {
  }

  /**
   * Under non-negative tolerances a value compares equal to itself exactly
   * when numpy can compare it: not None, not a dict, and not an int outside
   * int64/uint64; an empty list of strings raises instead.
   */
  lemma SelfEqual(kind: PropKind, v: Value, rtol: real, atol: real)
    requires rtol >= 0.0 && atol >= 0.0
    ensures v.VStrList? && v.items == [] ==> OldPropEquals(kind, v, Some((rtol, atol)), kind, v) == Failure(IndexErr)
    ensures !(v.VStrList? && v.items == []) ==>
      && OldPropEquals(kind, v, Some((rtol, atol)), kind, v).Success?
      && (OldPropEquals(kind, v, Some((rtol, atol)), kind, v) == Success(true)
          <==> !v.VNone? && !v.VDict? && (v.VInt? ==> NativeInt(v.i)))
  {
    match v
    case VInt(i) => if NativeInt(i) { CloseToItself(i as real, rtol, atol); }
    case VFloat(x) => CloseToItself(x, rtol, atol);
    case VArr(_, _, xs) =>
      forall k | 0 <= k < |xs|
        ensures IsClose(xs[k], xs[k], rtol, atol)
      {
        CloseToItself(xs[k], rtol, atol);
      }
    case _ =>
  }

  /** An int too large for int64 and uint64 is unequal even to itself. */
  lemma BigIntNeverSelfEqual()
    ensures OldPropEquals(PlainProp, VInt(100_000_000_000_000_000_000), Some((DefaultRtol, DefaultAtol)),
                          PlainProp, VInt(100_000_000_000_000_000_000)) == Success(false)
    ensures OldPropEquals(PlainProp, VInt(10_000_000_000_000_000_000), Some((DefaultRtol, DefaultAtol)),
                          PlainProp, VInt(10_000_000_000_000_000_000)) == Success(true)
  {
    SelfEqual(PlainProp, VInt(10_000_000_000_000_000_000), DefaultRtol, DefaultAtol);
  }

  /** Two containers compare equal exactly when each of their required properties does. */
  lemma ContainersEqualIffPropertiesEqual(names: seq<string>, mine: map<string, PropState>,
                                          theirs: map<string, PropState>)
    ensures MismatchesOf(names, mine, theirs) == Success([])
        <==> forall k :: 0 <= k < |names| ==> PairEquals(names[k], mine, theirs) == Success(true)
  {
    MismatchesMeaning(names, mine, theirs);
    var r := MismatchesOf(names, mine, theirs);
    if r.Success? && r.value != [] {
      assert r.value[0] in r.value;
    }
  }

  /**
   * A container one of whose required properties is unset is not equal to
   * itself: that property is reported, or a comparison raises.
   */
  lemma UnsetPropertyBreaksSelfEquality(names: seq<string>, states: map<string, PropState>, n: string)
    requires n in names && n in states && states[n].value == VNone
    ensures MismatchesOf(names, states, states) != Success([])
    ensures MismatchesOf(names, states, states).Success? ==> n in MismatchesOf(names, states, states).value
  {
    MismatchesMeaning(names, states, states);
  }
}
