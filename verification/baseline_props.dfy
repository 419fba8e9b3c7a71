/** Round trips of the baseline packing, and the antenna limit it supports. */
module BaselineProps {
  import opened Wrappers
  import opened Baselines

  /** One baseline of the 2048 scheme unpacks to the antenna pair it was packed from. */
  lemma Unpack2048Pack(i: int, j: int)
    requires 0 <= i <= 2046 && 0 <= j < Two31
    ensures Pack2048(i, j) > Two16 && InInt64(Pack2048(i, j))
    ensures Unpack2048(Pack2048(i, j)) == (i, j)
  {
    var b := Pack2048(i, j);
    assert b - Two16 == 2048 * (j + 1) + (i + 1);
    assert (b - Two16) % 2048 == i + 1;
    assert (b - Two16 - (i + 1)) / 2048 == j + 1;
  }

  /** One baseline of the 256 scheme unpacks to its antenna pair, and stays at or below 2^16. */
  lemma Unpack256Pack(i: int, j: int)
    requires 0 <= i < 255 && 0 <= j < 255
    ensures Pack256(i, j) <= 65535 && InInt64(Pack256(i, j))
    ensures Unpack256(Pack256(i, j)) == (i, j)
  {
    var b := Pack256(i, j);
    assert b % 256 == i + 1;
    assert (b - (i + 1)) / 256 == j + 1;
  }

  /**
   * Whichever scheme `antnums_to_baseline` picks, `baseline_to_antnums`
   * recovers the antenna numbers, for antenna numbers 0 to 2046 in the
   * first position and 0 to 2^31 - 1 in the second.
   */
  lemma {:induction false} RoundTrip(nants: Option<int>, ant1: seq<int>, ant2: seq<int>, attempt256: bool)
    requires |ant1| == |ant2| && ant1 != []
    requires nants.None? || nants.value <= WrittenLimit
    requires forall k :: 0 <= k < |ant1| ==> 0 <= ant1[k] <= 2046 && 0 <= ant2[k] < Two31
    ensures AntnumsToBaseline(nants, ant1, ant2, attempt256).Success?
    ensures BaselineToAntnums(nants, AntnumsToBaseline(nants, ant1, ant2, attempt256).value.bls) == Success((ant1, ant2))
  {
    var e := AntnumsToBaseline(nants, ant1, ant2, attempt256);
    assert forall k :: 0 <= k < |ant1| ==> InInt64(ant1[k]) && InInt64(ant2[k]);
    assert e != Failure(Int64Overflow) && e != Failure(TooManyAntennas);
    var bls := e.value.bls;
    var d := BaselineToAntnums(nants, bls);
    if attempt256 && !e.value.warned {
      forall k | 0 <= k < |ant1|
        ensures bls[k] <= Two16 && Unpack256(bls[k]) == (ant1[k], ant2[k])
      {
        Unpack256Pack(ant1[k], ant2[k]);
      }
      assert bls[0] <= Two16;
    } else {
      forall k | 0 <= k < |ant1|
        ensures bls[k] > Two16 && Unpack2048(bls[k]) == (ant1[k], ant2[k])
      {
        Unpack2048Pack(ant1[k], ant2[k]);
      }
      assert forall k :: 0 <= k < |bls| ==> bls[k] > Two16;
    }
    assert d.value.0 == ant1;
    assert d.value.1 == ant2;
  }

  /** Within the supported range, distinct antenna pairs get distinct 2048-scheme baselines. */
  lemma PackingInjective(i1: int, j1: int, i2: int, j2: int)
    requires 0 <= i1 <= 2046 && 0 <= j1 < Two31
    requires 0 <= i2 <= 2046 && 0 <= j2 < Two31
    requires Pack2048(i1, j1) == Pack2048(i2, j2)
    ensures i1 == i2 && j1 == j2
  {
    Unpack2048Pack(i1, j1);
    Unpack2048Pack(i2, j2);
  }

  /**
   * As written, a telescope of 2048 antennas passes the limit, yet its last
   * antenna (number 2047) packs to a baseline that unpacks as antenna -1.
   */
  lemma LastAntennaMisdecoded()
    ensures AntnumsToBaseline(Some(2048), [2047], [0], false) == Success(Encoded([69632], false))
    ensures BaselineToAntnums(Some(2048), [69632]) == Success(([-1], [1]))
  {
    var e := AntnumsToBaseline(Some(2048), [2047], [0], false);
    assert e.value.bls[0] == 69632;
    assert e.value.bls == [69632];
    var d := BaselineToAntnums(Some(2048), [69632]);
    assert Unpack2048(69632) == (-1, 1);
    assert d.value.0 == [-1] && d.value.1 == [1];
  }

  /**
   * With the corrected limit, every antenna numbering the limit accepts
   * round-trips: antenna numbers below the telescope's antenna count always
   * come back unchanged.
   */
  lemma CorrectedLimitRoundTrips(n: int, ant1: seq<int>, ant2: seq<int>, attempt256: bool)
    requires |ant1| == |ant2| && ant1 != []
    requires forall k :: 0 <= k < |ant1| ==> 0 <= ant1[k] < n && 0 <= ant2[k] < n
    requires AntnumsToBaselineCorrected(Some(n), ant1, ant2, attempt256).Success?
    ensures BaselineToAntnums(Some(n), AntnumsToBaselineCorrected(Some(n), ant1, ant2, attempt256).value.bls)
      == Success((ant1, ant2))
  {
    assert forall k :: 0 <= k < |ant1| ==> InInt64(ant1[k]) && InInt64(ant2[k]);
    assert n <= CorrectedLimit;
    RoundTrip(Some(n), ant1, ant2, attempt256);
    assert AntnumsToBaselineCorrected(Some(n), ant1, ant2, attempt256) == AntnumsToBaseline(Some(n), ant1, ant2, attempt256);
  }

  /** Below 2048 antennas the written and the corrected limit make no difference. */
  lemma LimitsAgree(nants: Option<int>, ant1: seq<int>, ant2: seq<int>, attempt256: bool)
    requires nants.None? || nants.value <= CorrectedLimit
    ensures AntnumsToBaseline(nants, ant1, ant2, attempt256) == AntnumsToBaselineCorrected(nants, ant1, ant2, attempt256)
  {
  }

  /** The polarization lookup finds a code held exactly once. */
  lemma PolLookupFindsUnique()
    ensures MiriadPolToInd(Some([-5, -6, -7, -8]), -7) == Success(2)
  {
    var p := [-5, -6, -7, -8];
    assert p[2] == -7;
    assert forall m :: 0 <= m < |p| && p[m] == -7 ==> m == 2;
  }

  /** It refuses a code held twice or not at all, and an unset polarization array. */
  lemma PolLookupRefuses()
    ensures MiriadPolToInd(Some([-5, -5]), -5) == Failure(PolNotUnique)
    ensures MiriadPolToInd(Some([-5, -6]), -7) == Failure(PolNotUnique)
    ensures MiriadPolToInd(None, -5) == Failure(PolNotSet)
  {
    var p := [-5, -5];
    assert p[0] == -5 && p[1] == -5;
    var q := [-5, -6];
    assert forall m :: 0 <= m < |q| ==> q[m] != -7;
  }
}
