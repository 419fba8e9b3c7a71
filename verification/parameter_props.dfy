/** Properties of parameter equality, acceptability, expected shapes and angle conversion. */
module ParameterProps {
  import opened Wrappers
  import opened PyValues
  import opened Forms
  import opened Parameter

  // ---------------------------------------------------------------- equality

  lemma CloseToItself(x: real, rtol: real, atol: real)
    requires rtol >= 0.0 && atol >= 0.0
    ensures IsClose(x, x, rtol, atol)
  {
    assert rtol * Abs(x) >= 0.0;
  }

  /**
   * With non-negative tolerances every parameter equals itself, except one
   * whose value is an empty or 0-d array or an empty list, where reading the
   * first element raises.
   */
  lemma EqualsReflexive(kind: ParamKind, v: Value, tols: (real, real))
    requires tols.0 >= 0.0 && tols.1 >= 0.0
    requires v.VArr? ==> v.shape != [] && v.shape[0] > 0
    requires v.VStrList? ==> v.items != []
    ensures ParamEquals(kind, v, tols, kind, v) == Same
  {
    match v
    case VArr(_, _, elems) =>
      forall k | 0 <= k < |elems|
        ensures IsClose(elems[k], elems[k], tols.0, tols.1)
      {
        CloseToItself(elems[k], tols.0, tols.1);
      }
    case VInt(i) => CloseToItself(i as real, tols.0, tols.1);
    case VFloat(x) => CloseToItself(x, tols.0, tols.1);
    case VDict(entries) =>
      var m := DictOf(entries);
      assert forall k :: k in m ==> LeafEq(m[k], m[k]);
    case _ =>
  }

  /** String comparison ignores which operand is on the left (tolerances play no part). */
  lemma StringEqualsSymmetric(kind: ParamKind, s: string, t: string, tols1: (real, real), tols2: (real, real))
    ensures ParamEquals(kind, VStr(s), tols1, kind, VStr(t)) == Same
        <==> ParamEquals(kind, VStr(t), tols2, kind, VStr(s)) == Same
  {
  }

  /**
   * Numeric arrays of one non-empty shape are equal exactly when every
   * element is within the left operand's tolerances of the right one's.
   */
  lemma ArrayEqualIffElementwiseClose(kind: ParamKind, d1: DType, d2: DType, shape: seq<nat>,
                                      xs: seq<real>, ys: seq<real>, tols: (real, real))
    requires shape != [] && shape[0] > 0
    ensures ParamEquals(kind, VArr(d1, shape, xs), tols, kind, VArr(d2, shape, ys)) == Same
        <==> |xs| == |ys| && forall k :: 0 <= k < |xs| ==> Abs(xs[k] - ys[k]) <= tols.1 + tols.0 * Abs(ys[k])
  {
  }

  /** Arrays of different shapes are unequal whatever their elements. */
  lemma ArrayShapesDiffer(kind: ParamKind, d1: DType, d2: DType, s1: seq<nat>, s2: seq<nat>,
                          xs: seq<real>, ys: seq<real>, tols: (real, real))
    requires s1 != [] && s1[0] > 0 && s1 != s2
    ensures ParamEquals(kind, VArr(d1, s1, xs), tols, kind, VArr(d2, s2, ys)) == Differ(ArrayShape)
  {
  }

  /** The tolerances are the left operand's, so equality is not symmetric. */
  lemma EqualityUsesLeftTolerances()
    ensures ParamEquals(Plain, VFloat(1.0), (0.0, 0.01), Plain, VFloat(1.001)) == Same
    ensures ParamEquals(Plain, VFloat(1.001), (DefaultRtol, DefaultAtol), Plain, VFloat(1.0)) == Differ(NotClose)
  {
  }

  /**
   * The class test accepts a subclass on the right only; the `==` operator
   * asks the subclass first, so a plain parameter never equals an angle.
   */
  lemma ClassTestIsOneSided(v: Value, tols: (real, real))
    ensures ParamEquals(Angle, v, tols, Plain, v) == Differ(ParamClass)
    ensures ParamEquals(Plain, v, tols, Angle, v) == ValueEquals(v, v, tols.0, tols.1)
    ensures OperatorEquals(Plain, v, tols, Angle, v, tols) == Differ(ParamClass)
  {
  }

  /** Default tolerances: 1.0 equals 1.000001 but not 1.001. */
  lemma DefaultToleranceExamples()
    ensures ParamEquals(Plain, VFloat(1.0), (DefaultRtol, DefaultAtol), Plain, VFloat(1.000001)) == Same
    ensures ParamEquals(Plain, VFloat(1.0), (DefaultRtol, DefaultAtol), Plain, VFloat(1.001)) == Differ(NotClose)
    ensures ParamEquals(Plain, VInt(1), (DefaultRtol, DefaultAtol), Plain, VInt(2)) == Differ(NotClose)
    ensures ParamEquals(Plain, VInt(3), (DefaultRtol, DefaultAtol), Plain, VArr(IntDT, [3], [3.0, 4.0, 5.0]))
      == Differ(ValueClass)
  {
  }

  lemma {:induction false} WithoutKeepsAll(s: string, drop: char -> bool)
    requires forall k :: 0 <= k < |s| ==> !drop(s[k])
    ensures Without(s, drop) == s
  {
    if s != [] {
      WithoutKeepsAll(s[1..], drop);
    }
  }

  lemma {:induction false} WithoutAppend(s: string, t: string, drop: char -> bool)
    ensures Without(s + t, drop) == Without(s, drop) + Without(t, drop)
  {
    if s == [] {
      assert s + t == t;
    } else {
      assert (s + t)[1..] == s[1..] + t;
      WithoutAppend(s[1..], t, drop);
    }
  }

  /** A string with no surrounding whitespace is its own `strip()`. */
  lemma StripUntrimmed(s: string)
    requires s != [] ==> !IsSpace(s[0]) && !IsSpace(s[|s| - 1])
    ensures Strip(s) == s
  {
  }

  /**
   * The string rule of parameter equality: two strings are equal exactly
   * when they agree after `strip()` or after deleting every space and
   * newline; otherwise they differ as strings.
   */
  lemma StringEqualityRule(kind: ParamKind, s: string, t: string, tols: (real, real))
    ensures ParamEquals(kind, VStr(s), tols, kind, VStr(t)) == Same
        <==> Strip(s) == Strip(t) || Squeeze(s) == Squeeze(t)
    ensures ParamEquals(kind, VStr(s), tols, kind, VStr(t)) != Same
        ==> ParamEquals(kind, VStr(s), tols, kind, VStr(t)) == Differ(StringValues)
  {
  }

  lemma {:induction false} TrimLeftSkips(pre: string, x: string)
    requires forall k :: 0 <= k < |pre| ==> IsSpace(pre[k])
    ensures TrimLeft(pre + x) == TrimLeft(x)
  {
    if pre == [] {
      assert pre + x == x;
    } else {
      assert (pre + x)[0] == pre[0];
      assert (pre + x)[1..] == pre[1..] + x;
      TrimLeftSkips(pre[1..], x);
    }
  }

  lemma {:induction false} TrimRightSkips(x: string, post: string)
    requires forall k :: 0 <= k < |post| ==> IsSpace(post[k])
    ensures TrimRight(x + post) == TrimRight(x)
  {
    if post == [] {
      assert x + post == x;
    } else {
      var xp := x + post;
      assert xp[|xp| - 1] == post[|post| - 1];
      assert xp[..|xp| - 1] == x + post[..|post| - 1];
      TrimRightSkips(x, post[..|post| - 1]);
    }
  }

  lemma {:induction false} TrimLeftAppend(s: string, post: string)
    ensures TrimLeft(s) != [] ==> TrimLeft(s + post) == TrimLeft(s) + post
    ensures TrimLeft(s) == [] ==> TrimLeft(s + post) == TrimLeft(post)
  {
    if s == [] {
      assert s + post == post;
    } else {
      assert (s + post)[0] == s[0];
      assert (s + post)[1..] == s[1..] + post;
      if IsSpace(s[0]) {
        TrimLeftAppend(s[1..], post);
      }
    }
  }

  lemma StripPadded(pre: string, s: string, post: string)
    requires forall k :: 0 <= k < |pre| ==> IsSpace(pre[k])
    requires forall k :: 0 <= k < |post| ==> IsSpace(post[k])
    ensures Strip(pre + s + post) == Strip(s)
  {
    assert pre + s + post == pre + (s + post);
    TrimLeftSkips(pre, s + post);
    assert TrimLeft(pre + s + post) == TrimLeft(s + post);
    TrimLeftAppend(s, post);
    if TrimLeft(s) != [] {
      TrimRightSkips(TrimLeft(s), post);
    } else {
      assert post + [] == post;
      TrimLeftSkips(post, []);
      assert TrimLeft(s + post) == [];
    }
  }

  /** Runs of whitespace of any length before and after a string are ignored. */
  lemma SurroundingWhitespaceIgnored(kind: ParamKind, pre: string, s: string, post: string, tols: (real, real))
    requires forall k :: 0 <= k < |pre| ==> IsSpace(pre[k])
    requires forall k :: 0 <= k < |post| ==> IsSpace(post[k])
    ensures Strip(pre + s + post) == Strip(s)
    ensures ParamEquals(kind, VStr(pre + s + post), tols, kind, VStr(s)) == Same
  {
    StripPadded(pre, s, post);
    StringEqualityRule(kind, pre + s + post, s, tols);
  }

  lemma {:induction false} WithoutDropsAll(w: string, drop: char -> bool)
    requires forall k :: 0 <= k < |w| ==> drop(w[k])
    ensures Without(w, drop) == []
  {
    if w != [] {
      WithoutDropsAll(w[1..], drop);
    }
  }

  /** Spaces and newlines anywhere inside a string are ignored once trimming fails. */
  lemma InnerSpaceIgnored(kind: ParamKind, s: string, w: string, t: string, tols: (real, real))
    requires forall k :: 0 <= k < |w| ==> IsNewlineOrSpace(w[k])
    ensures Squeeze(s + w + t) == Squeeze(s + t)
    ensures ParamEquals(kind, VStr(s + w + t), tols, kind, VStr(s + t)) == Same
  {
    WithoutAppend(s + w, t, IsNewlineOrSpace);
    WithoutAppend(s, w, IsNewlineOrSpace);
    WithoutAppend(s, t, IsNewlineOrSpace);
    WithoutDropsAll(w, IsNewlineOrSpace);
    assert Squeeze(s) + [] == Squeeze(s);
  }

  /** Two different strings free of whitespace are unequal. */
  lemma DifferentWordsDiffer(s: string, t: string, tols: (real, real))
    requires s != t
    requires forall k :: 0 <= k < |s| ==> !IsSpace(s[k])
    requires forall k :: 0 <= k < |t| ==> !IsSpace(t[k])
    ensures ParamEquals(Plain, VStr(s), tols, Plain, VStr(t)) == Differ(StringValues)
  {
    StripUntrimmed(s);
    StripUntrimmed(t);
    WithoutKeepsAll(s, IsNewlineOrSpace);
    WithoutKeepsAll(t, IsNewlineOrSpace);
  }

  lemma PairEntries(x: (string, Leaf), y: (string, Leaf))
    ensures DictOf([x, y]) == map[x.0 := x.1][y.0 := y.1]
    ensures LowerKeys([x, y]) == map[Lower(x.0) := x.1][Lower(y.0) := y.1]
  {
    var xy := [x, y];
    assert xy[..1] == [x] && xy[|xy| - 1] == y;
    assert [x][..0] == [];
    assert DictOf([x]) == map[x.0 := x.1];
    assert LowerKeys([x]) == map[Lower(x.0) := x.1];
  }

  /** Dicts whose keys differ only in case are equal. */
  lemma DictKeysIgnoreCase(x: Leaf)
    ensures ValueEquals(VDict([("V1", x)]), VDict([("v1", x)]), DefaultRtol, DefaultAtol) == Same
  {
    assert Lower("V1") == "v1";
    assert Lower("v1") == "v1";
    assert [("V1", x)][..0] == [];
    assert [("v1", x)][..0] == [];
    assert LowerKeys([("V1", x)]) == LowerKeys([("v1", x)]);
  }

  /** Dicts with different keys, or a value that is not close, are unequal. */
  lemma DictExamples()
    ensures ValueEquals(VDict([("v1", LInt(1)), ("s1", LStr("test"))]),
                        VDict([("v1", LInt(2)), ("s1", LStr("test"))]), DefaultRtol, DefaultAtol)
      == Differ(DictValues)
    ensures ValueEquals(VDict([("v1", LInt(1)), ("s1", LStr("test"))]),
                        VDict([("v3", LInt(1)), ("s1", LStr("test"))]), DefaultRtol, DefaultAtol)
      == Differ(DictKeys)
  {
    assert Lower("v1") == "v1";
    assert Lower("v3") == "v3";
    assert Lower("s1") == "s1";
    PairEntries(("v1", LInt(1)), ("s1", LStr("test")));
    PairEntries(("v1", LInt(2)), ("s1", LStr("test")));
    PairEntries(("v3", LInt(1)), ("s1", LStr("test")));
    var a := map["v1" := LInt(1), "s1" := LStr("test")];
    var b := map["v1" := LInt(2), "s1" := LStr("test")];
    var c := map["v3" := LInt(1), "s1" := LStr("test")];
    assert !DictEq(a, b) by { assert !LeafEq(a["v1"], b["v1"]); }
    assert !DictEq(a, c) by { assert "v1" in a.Keys && "v1" !in c.Keys; }
    assert !LeafClose(a["v1"], b["v1"]);
  }

  /** String lists are equal exactly when they agree element by element after `strip()`. */
  lemma StringListsCompareStripped(kind: ParamKind, xs: seq<string>, ys: seq<string>, tols: (real, real))
    requires xs != []
    ensures ParamEquals(kind, VStrList(xs), tols, kind, VStrList(ys)) == Same
        <==> |xs| == |ys| && forall k :: 0 <= k < |xs| ==> Strip(xs[k]) == Strip(ys[k])
  {
    if |xs| == |ys| && forall k :: 0 <= k < |xs| ==> Strip(xs[k]) == Strip(ys[k]) {
      assert StripAll(xs) == StripAll(ys);
    }
  }

  lemma {:induction false} LowerKeysCoverKeys(entries: seq<(string, Leaf)>)
    ensures LowerKeys(entries).Keys == set k | k in DictOf(entries).Keys :: Lower(k)
  {
    if entries != [] {
      var prefix := entries[..|entries| - 1];
      var key := entries[|entries| - 1].0;
      LowerKeysCoverKeys(prefix);
      assert LowerKeys(entries).Keys == LowerKeys(prefix).Keys + {Lower(key)};
      assert DictOf(entries).Keys == DictOf(prefix).Keys + {key};
      assert (set k | k in DictOf(entries).Keys :: Lower(k)) == (set k | k in DictOf(prefix).Keys :: Lower(k)) + {Lower(key)};
    }
  }

  /** Dicts whose lower-cased key sets differ are unequal. */
  lemma DictKeySetsDiffer(kind: ParamKind, ea: seq<(string, Leaf)>, eb: seq<(string, Leaf)>, tols: (real, real))
    requires LowerKeys(ea).Keys != LowerKeys(eb).Keys
    ensures ParamEquals(kind, VDict(ea), tols, kind, VDict(eb)) == Differ(DictKeys)
  {
    LowerKeysCoverKeys(ea);
    LowerKeysCoverKeys(eb);
  }

  /**
   * Dicts that are not equal as written but have the same lower-cased keys
   * are equal exactly when every pair of values is close (numbers numpy
   * stores natively, with the default tolerances) or equal (anything else,
   * ints outside int64/uint64 included).
   */
  lemma DictValuesCompared(kind: ParamKind, ea: seq<(string, Leaf)>, eb: seq<(string, Leaf)>, tols: (real, real))
    requires !DictEq(DictOf(ea), DictOf(eb))
    requires LowerKeys(ea).Keys == LowerKeys(eb).Keys
    ensures ParamEquals(kind, VDict(ea), tols, kind, VDict(eb)) == Same
        <==> forall k :: k in LowerKeys(ea) ==> LeafClose(LowerKeys(ea)[k], LowerKeys(eb)[k])
  {
    var la, lb := LowerKeys(ea), LowerKeys(eb);
    if DictEq(la, lb) {
      forall k | k in la
        ensures LeafClose(la[k], lb[k])
      {
        if IsNumber(la[k]) && IsNumber(lb[k]) {
          assert AsReal(la[k]) == AsReal(lb[k]);
        }
      }
    }
  }

  /**
   * An int outside int64/uint64 makes `np.allclose` (or `np.isclose`, for a
   * dict value) raise TypeError, and the exact `!=` decides instead.
   */
  lemma BigIntsCompareExactly(kind: ParamKind, ia: int, ib: int, tols: (real, real))
    requires !NativeInt(ia) || !NativeInt(ib)
    ensures ParamEquals(kind, VInt(ia), tols, kind, VInt(ib)) == Same <==> ia == ib
    ensures ia != ib ==> ParamEquals(kind, VInt(ia), tols, kind, VInt(ib)) == Differ(NotCastable)
    ensures LeafClose(LInt(ia), LInt(ib)) <==> ia == ib
  {
  }

  /**
   * 10**15 and 10**15 + 1 are close under the default tolerances, but
   * 10**20 and 10**20 + 1, which numpy cannot store natively, are not equal,
   * neither as values nor as dict values.
   */
  lemma BigIntExamples()
    ensures ValueEquals(VInt(1_000_000_000_000_000), VInt(1_000_000_000_000_001), DefaultRtol, DefaultAtol) == Same
    ensures ValueEquals(VInt(100_000_000_000_000_000_000), VInt(100_000_000_000_000_000_001), DefaultRtol, DefaultAtol)
      == Differ(NotCastable)
    ensures ValueEquals(VDict([("v1", LInt(100_000_000_000_000_000_000))]),
                        VDict([("V1", LInt(100_000_000_000_000_000_001))]), DefaultRtol, DefaultAtol)
      == Differ(DictValues)
  {
    assert Lower("v1") == "v1";
    assert Lower("V1") == "v1";
    var ea := [("v1", LInt(100_000_000_000_000_000_000))];
    var eb := [("V1", LInt(100_000_000_000_000_000_001))];
    assert ea[..0] == [] && eb[..0] == [];
    assert LowerKeys(ea) == map["v1" := LInt(100_000_000_000_000_000_000)];
    assert LowerKeys(eb) == map["v1" := LInt(100_000_000_000_000_000_001)];
    assert !DictEq(DictOf(ea), DictOf(eb)) by { assert "V1" !in DictOf(ea); }
    assert !LeafClose(LowerKeys(ea)["v1"], LowerKeys(eb)["v1"]);
  }

  // ---------------------------------------------------------------- acceptability

  /** With neither allowed values nor a range there is nothing to test, and the value passes. */
  lemma NoAcceptabilityTest(v: Value, ty: PyType)
    ensures AcceptabilityOf(v, ty, None, None) == Success(NoCheck)
    ensures Passes(AcceptabilityOf(v, ty, None, None).value)
  {
  }

  /**
   * With `acceptable_vals` set, the value is acceptable exactly when each of
   * its elements is in the (possibly lower-cased) allowed list, whatever the
   * range says.
   */
  lemma ValsAcceptIffEveryElementAllowed(v: Value, ty: PyType, vals: seq<Leaf>, range: Option<(real, real)>)
    requires ValueElems(v, ty == Only(StrT)).Success?
    requires AllowedVals(vals, ty == Only(StrT)).Success?
    ensures var elems := ValueElems(v, ty == Only(StrT)).value;
      var allowed := AllowedVals(vals, ty == Only(StrT)).value;
      && AcceptabilityOf(v, ty, Some(vals), range).Success?
      && (Passes(AcceptabilityOf(v, ty, Some(vals), range).value)
          <==> forall k :: 0 <= k < |elems| ==> InList(elems[k], allowed))
  {
  }

  /** `acceptable_vals` wins: the range is ignored when the allowed list is set. */
  lemma ValsWinOverRange(v: Value, ty: PyType, vals: seq<Leaf>, r1: Option<(real, real)>, r2: Option<(real, real)>)
    ensures AcceptabilityOf(v, ty, Some(vals), r1) == AcceptabilityOf(v, ty, Some(vals), r2)
  {
  }

  lemma LoweredMember(x: string, vals: seq<Leaf>, allowed: seq<Leaf>)
    requires |allowed| == |vals|
    requires forall k :: 0 <= k < |vals| ==> vals[k].LStr? && allowed[k] == LStr(Lower(vals[k].s))
    ensures InList(LStr(x), allowed) <==> exists k :: 0 <= k < |vals| && x == Lower(vals[k].s)
  {
    if exists k :: 0 <= k < |vals| && x == Lower(vals[k].s) {
      var k :| 0 <= k < |vals| && x == Lower(vals[k].s);
      assert LeafEq(LStr(x), allowed[k]);
    }
    if InList(LStr(x), allowed) {
      var k :| 0 <= k < |allowed| && LeafEq(LStr(x), allowed[k]);
      assert x == Lower(vals[k].s);
    }
  }

  /**
   * For a string parameter the comparison ignores case on both sides: the
   * string is acceptable exactly when it lower-cases to a lower-cased
   * allowed string.
   */
  lemma {:induction false} StringValsIgnoreCase(s: string, vals: seq<Leaf>, range: Option<(real, real)>)
    requires forall k :: 0 <= k < |vals| ==> vals[k].LStr?
    ensures AcceptabilityOf(VStr(s), Only(StrT), Some(vals), range).Success?
    ensures Passes(AcceptabilityOf(VStr(s), Only(StrT), Some(vals), range).value)
        <==> exists k :: 0 <= k < |vals| && Lower(s) == Lower(vals[k].s)
  {
    var allowed := AllowedVals(vals, true).value;
    var elems := [LStr(Lower(s))];
    assert ValueElems(VStr(s), true) == Success(elems);
    var k := FirstOffender(elems, allowed);
    assert k == |elems| <==> InList(elems[0], allowed);
    LoweredMember(Lower(s), vals, allowed);
  }

  /**
   * With only a range, the value is acceptable exactly when the mean of its
   * absolute values lies in the closed range; the NaN mean of an empty array
   * never does.
   */
  lemma RangeAcceptIffMeanInRange(v: Value, ty: PyType, lo: real, hi: real)
    requires MeanAbs(v).Success?
    ensures AcceptabilityOf(v, ty, None, Some((lo, hi))).Success?
    ensures Passes(AcceptabilityOf(v, ty, None, Some((lo, hi))).value)
        <==> MeanAbs(v).value.Some? && lo <= MeanAbs(v).value.value <= hi
    ensures v.VArr? && v.elems == [] ==> !Passes(AcceptabilityOf(v, ty, None, Some((lo, hi))).value)
  {
  }

  lemma BoundsStep(n: real, m: real, a: real, s: real, lo: real, hi: real)
    requires n == m + 1.0
    requires m * lo <= s <= m * hi
    requires lo <= a <= hi
    ensures n * lo <= a + s <= n * hi
  {
    assert n * lo == m * lo + lo;
    assert n * hi == m * hi + hi;
  }

  lemma {:induction false} SumAbsBounds(xs: seq<real>, lo: real, hi: real)
    requires forall k :: 0 <= k < |xs| ==> lo <= Abs(xs[k]) <= hi
    ensures |xs| as real * lo <= SumAbs(xs) <= |xs| as real * hi
  {
    if xs != [] {
      var rest := xs[1..];
      forall k | 0 <= k < |rest|
        ensures lo <= Abs(rest[k]) <= hi
      {
        assert rest[k] == xs[k + 1];
      }
      SumAbsBounds(rest, lo, hi);
      assert SumAbs(xs) == Abs(xs[0]) + SumAbs(rest);
      BoundsStep(|xs| as real, |rest| as real, Abs(xs[0]), SumAbs(rest), lo, hi);
    }
  }

  /** When every magnitude lies in the range, so does their mean. */
  lemma AllInRangeMeanInRange(v: Value, lo: real, hi: real)
    requires v.VArr? && v.elems != []
    requires forall k :: 0 <= k < |v.elems| ==> lo <= Abs(v.elems[k]) <= hi
    ensures MeanAbs(v).Success? && MeanAbs(v).value.Some?
    ensures lo <= MeanAbs(v).value.value <= hi
  {
    var n := |v.elems| as real;
    SumAbsBounds(v.elems, lo, hi);
    var s := SumAbs(v.elems);
    assert n * lo <= s <= n * hi;
    assert s / n >= lo by { assert s / n * n == s; }
    assert s / n <= hi by { assert s / n * n == s; }
  }

  /** The converse fails: it is the mean that is tested, not each element. */
  lemma MeanNotEveryElement()
    ensures Passes(AcceptabilityOf(VArr(FloatDT, [2], [0.0, 10.0]), Only(FloatT), None, Some((4.0, 6.0))).value)
    ensures forall k :: 0 <= k < 2 ==> !(4.0 <= Abs([0.0, 10.0][k]) <= 6.0)
  {
    assert SumAbs([0.0, 10.0]) == 10.0 by {
      assert [0.0, 10.0][1..] == [10.0];
      assert [10.0][1..] == [];
    }
  }

  /** Values 1000 and 5 against the range (1, 10), and 5 against the allowed values [1, 10]. */
  lemma NumericAcceptabilityExamples()
    ensures !Passes(AcceptabilityOf(VInt(1000), Only(IntT), None, Some((1.0, 10.0))).value)
    ensures Passes(AcceptabilityOf(VInt(5), Only(IntT), None, Some((1.0, 10.0))).value)
    ensures AcceptabilityOf(VInt(5), Only(IntT), Some([LInt(1), LInt(10)]), None) == Success(NotAllowed(LInt(5)))
  {
    assert !LeafEq(LInt(5), LInt(1)) && !LeafEq(LInt(5), LInt(10));
  }

  lemma AllowedNamesLowered()
    ensures AllowedVals([LStr("Alice"), LStr("Eve")], true) == Success([LStr("alice"), LStr("eve")])
  {
    var vals := [LStr("Alice"), LStr("Eve")];
    assert Lower("Eve") == "eve";
    assert Lower("Alice") == "alice";
    var r := AllowedVals(vals, true);
    assert r.Success?;
    assert r.value[0] == LStr("alice") && r.value[1] == LStr("eve");
    assert r.value == [LStr("alice"), LStr("eve")];
  }

  /** 'Bob' is not among ['Alice', 'Eve']. */
  lemma StringNotAllowed()
    ensures AcceptabilityOf(VStr("Bob"), Only(StrT), Some([LStr("Alice"), LStr("Eve")]), None)
      == Success(NotAllowed(LStr("bob")))
  {
    AllowedNamesLowered();
    assert Lower("Bob") == "bob";
    assert !InList(LStr("bob"), [LStr("alice"), LStr("eve")]);
  }

  /** 'EVE' is among ['Alice', 'Eve'], case ignored. */
  lemma StringAllowedIgnoringCase()
    ensures AcceptabilityOf(VStr("EVE"), Only(StrT), Some([LStr("Alice"), LStr("Eve")]), None)
      == Success(Acceptable)
  {
    AllowedNamesLowered();
    assert Lower("EVE") == "eve";
    assert InList(LStr("eve"), [LStr("alice"), LStr("eve")]) by {
      assert LeafEq(LStr("eve"), [LStr("alice"), LStr("eve")][1]);
    }
  }

  // ---------------------------------------------------------------- shapes

  /**
   * A fixed-size form `n` gives the one-dimensional shape `(n,)`, which a
   * length-`n` array matches.
   */
  lemma IntFormShapeMatches(n: nat, d: DType, elems: seq<real>, siblings: map<string, Value>)
    ensures ExpectedShapeOf(IntForm(n), siblings) == Success(Dims([VInt(n)]))
    ensures ShapeMatches(ShapeOf(VArr(d, [n], elems)), ExpectedShapeOf(IntForm(n), siblings).value.dims)
  {
  }

  /**
   * A fixed entry passes through; a name whose value is None raises.
   */
  lemma ExpectedShapeExamples(siblings: map<string, Value>)
    ensures ExpectedShapeOf(TupleForm([Fixed(2)]), siblings) == Success(Dims([VInt(2)]))
    ensures ExpectedShapeOf(TupleForm([Ref("p1")]), siblings["p1" := VNone]) == Failure(MissingShapeParam("p1"))
    ensures ExpectedShapeOf(TupleForm([Ref("p1"), Fixed(3)]), siblings["p1" := VInt(10)])
      == Success(Dims([VInt(10), VInt(3)]))
  {
    assert [Fixed(2)][1..] == [];
    assert [Ref("p1")][1..] == [];
    assert [Ref("p1"), Fixed(3)][1..] == [Fixed(3)];
    assert [Fixed(3)][1..] == [];
    var one := ResolveDims([Fixed(2)], siblings);
    ResolveDimsMeaning([Fixed(2)], siblings);
    assert ResolveElem([Fixed(2)][0], siblings).Success?;
    assert one.Success? && |one.value| == 1 && one.value[0] == VInt(2);
    assert one.value == [VInt(2)];
    var s := siblings["p1" := VNone];
    assert ResolveElem(Ref("p1"), s) == Failure(MissingShapeParam("p1"));
    var t := siblings["p1" := VInt(10)];
    var es := [Ref("p1"), Fixed(3)];
    assert ResolveElem(es[0], t) == Success(VInt(10));
    assert ResolveElem(es[1], t) == Success(VInt(3));
    var two := ResolveDims(es, t);
    ResolveDimsMeaning(es, t);
    assert two.Success? && |two.value| == 2 && two.value[0] == VInt(10) && two.value[1] == VInt(3);
    assert two.value == [VInt(10), VInt(3)];
  }

  // ---------------------------------------------------------------- angles

  lemma RadiansBack(x: real)
    ensures x * Pi / 180.0 * 180.0 / Pi == x
  {
  }

  /** Setting an angle in degrees and reading it back in degrees gives the same number. */
  lemma DegreesRoundTrip(v: Value)
    requires v.VNone? || v.VFloat? || (v.VArr? && (v.dtype == FloatDT || v.dtype == ComplexDT))
    ensures FromDegrees(v).Success?
    ensures ToDegrees(FromDegrees(v).value) == Success(v)
  {
    match v
    case VArr(d, shape, elems) =>
      var there := FromDegrees(v).value;
      var back := ToDegrees(there).value;
      forall k | 0 <= k < |elems|
        ensures back.elems[k] == elems[k]
      {
        RadiansBack(elems[k]);
      }
      assert back.elems == elems;
    case VFloat(x) =>
      RadiansBack(x);
    case VNone =>
  }
}
