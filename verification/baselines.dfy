/**
 * The baseline index of the earlier container: a pair of 0-indexed antenna
 * numbers (i, j) is packed into one integer, either as
 * 2048 * (j + 1) + (i + 1) + 2^16 or, in the older scheme many uvfits files
 * use, as 256 * (j + 1) + (i + 1). Arrays of antenna numbers and baselines are
 * sequences, converted element by element; numpy's int64 and int32 results
 * wrap around explicitly.
 */
module Baselines {
  import opened Wrappers

  datatype BaselineError =
    | TooManyAntennas   // Nants_telescope above the supported limit
    | Int64Overflow     // an antenna number that np.int64 cannot hold
    | EmptyInput        // np.min / np.max of an empty array
    | RaggedInput       // np.int64((i, j)) on antenna arrays of different lengths

  const Two16: int := 0x1_0000
  const Two31: int := 0x8000_0000
  const Two63: int := 0x8000_0000_0000_0000

  predicate InInt64(x: int) {
    -Two63 <= x < Two63
  }

  /** Two's-complement wrap-around to 32 bits (`np.int32`). */
  function Wrap32(x: int): (r: int)
    ensures -Two31 <= r < Two31
    ensures -Two31 <= x < Two31 ==> r == x
  {
    (x + Two31) % (2 * Two31) - Two31
  }

  /** Two's-complement wrap-around to 64 bits (int64 array arithmetic). */
  function Wrap64(x: int): (r: int)
    ensures InInt64(r)
    ensures InInt64(x) ==> r == x
  {
    (x + Two63) % (2 * Two63) - Two63
  }

  function MaxOf(xs: seq<int>): (m: int)
    requires xs != []
    ensures forall k :: 0 <= k < |xs| ==> xs[k] <= m
    ensures exists k :: 0 <= k < |xs| && xs[k] == m
  {
    if |xs| == 1 then xs[0]
    else
      var rest := MaxOf(xs[1..]);
      assert forall k :: 1 <= k < |xs| ==> xs[k] == xs[1..][k - 1];
      if xs[0] >= rest then xs[0] else rest
  }

  function MinOf(xs: seq<int>): (m: int)
    requires xs != []
    ensures forall k :: 0 <= k < |xs| ==> m <= xs[k]
    ensures exists k :: 0 <= k < |xs| && xs[k] == m
  {
    if |xs| == 1 then xs[0]
    else
      var rest := MinOf(xs[1..]);
      assert forall k :: 1 <= k < |xs| ==> xs[k] == xs[1..][k - 1];
      if xs[0] <= rest then xs[0] else rest
  }

  /** The 2048-antenna packing, before int64 wrap-around. */
  function Pack2048(i: int, j: int): int {
    2048 * (j + 1) + (i + 1) + Two16
  }

  /** The 256-antenna packing, before int64 wrap-around. */
  function Pack256(i: int, j: int): int {
    256 * (j + 1) + (i + 1)
  }

  /** `antnums_to_baseline`'s result: the baselines, and whether the 256 scheme was asked for but refused (a warning). */
  datatype Encoded = Encoded(bls: seq<int>, warned: bool)

  /**
   * `antnums_to_baseline(i, j, attempt256)` on a container whose
   * `Nants_telescope` is `nants` (None when unset: in Python 2, None is
   * never greater than a number), for an antenna limit `limit`. The
   * conversion to int64 comes first (arrays of different lengths cannot be
   * stacked, and numbers outside int64 cannot be held), then the antenna
   * limit; the 256 scheme is used only when asked for and every antenna
   * number is below 255.
   */
  function AntnumsToBaselineWith(limit: int, nants: Option<int>, ant1: seq<int>, ant2: seq<int>, attempt256: bool)
    : (r: Result<Encoded, BaselineError>)
    ensures r == Failure(RaggedInput) <==> |ant1| != |ant2|
    ensures r == Failure(Int64Overflow) <==>
      |ant1| == |ant2| && exists k :: 0 <= k < |ant1| && (!InInt64(ant1[k]) || !InInt64(ant2[k]))
    ensures r == Failure(TooManyAntennas) <==>
      && |ant1| == |ant2|
      && (forall k :: 0 <= k < |ant1| ==> InInt64(ant1[k]) && InInt64(ant2[k]))
      && nants.Some? && nants.value > limit
    ensures r == Failure(EmptyInput) <==>
      && |ant1| == |ant2|
      && (forall k :: 0 <= k < |ant1| ==> InInt64(ant1[k]) && InInt64(ant2[k]))
      && !(nants.Some? && nants.value > limit)
      && attempt256 && ant1 == []
    ensures r.Success? ==> |r.value.bls| == |ant1|
    ensures r.Success? && !attempt256 ==>
      !r.value.warned && forall k :: 0 <= k < |ant1| ==> r.value.bls[k] == Wrap64(Pack2048(ant1[k], ant2[k]))
    ensures r.Success? && attempt256 && !r.value.warned ==>
      (forall k :: 0 <= k < |ant1| ==> ant1[k] < 255 && ant2[k] < 255 && r.value.bls[k] == Wrap64(Pack256(ant1[k], ant2[k])))
    ensures r.Success? && attempt256 && r.value.warned ==>
      (exists k :: 0 <= k < |ant1| && (ant1[k] >= 255 || ant2[k] >= 255))
      && forall k :: 0 <= k < |ant1| ==> r.value.bls[k] == Wrap64(Pack2048(ant1[k], ant2[k]))
  {
    if |ant1| != |ant2| then Failure(RaggedInput)
    else if exists k :: 0 <= k < |ant1| && (!InInt64(ant1[k]) || !InInt64(ant2[k])) then Failure(Int64Overflow)
    else if nants.Some? && nants.value > limit then Failure(TooManyAntennas)
    else if attempt256 && ant1 == [] then Failure(EmptyInput)
    else if attempt256 && MaxOf(ant1) < 255 && MaxOf(ant2) < 255 then
      Success(Encoded(seq(|ant1|, k requires 0 <= k < |ant1| => Wrap64(Pack256(ant1[k], ant2[k]))), false))
    else
      Success(Encoded(seq(|ant1|, k requires 0 <= k < |ant1| => Wrap64(Pack2048(ant1[k], ant2[k]))), attempt256))
  }

  /** The limit as written: more than 2048 antennas are refused. */
  const WrittenLimit: int := 2048

  /** The limit the packing supports: i + 1 must stay below 2048, so at most 2047 antennas. */
  const CorrectedLimit: int := 2047

  /** `antnums_to_baseline` as written. */
  function AntnumsToBaseline(nants: Option<int>, ant1: seq<int>, ant2: seq<int>, attempt256: bool)
    : Result<Encoded, BaselineError>
  {
    AntnumsToBaselineWith(WrittenLimit, nants, ant1, ant2, attempt256)
  }

  /** `antnums_to_baseline` with the limit the packing supports. */
  function AntnumsToBaselineCorrected(nants: Option<int>, ant1: seq<int>, ant2: seq<int>, attempt256: bool)
    : Result<Encoded, BaselineError>
  {
    AntnumsToBaselineWith(CorrectedLimit, nants, ant1, ant2, attempt256)
  }

  /** One baseline of the 2048 scheme, as `baseline_to_antnums` unpacks it (floor division, Python 2). */
  function Unpack2048(b: int): (int, int) {
    var i := (b - Two16) % 2048 - 1;
    var j := (b - Two16 - (i + 1)) / 2048 - 1;
    (Wrap32(i), Wrap32(j))
  }

  /** One baseline of the 256 scheme. */
  function Unpack256(b: int): (int, int) {
    var i := b % 256 - 1;
    var j := (b - (i + 1)) / 256 - 1;
    (Wrap32(i), Wrap32(j))
  }

  /**
   * `baseline_to_antnums(baseline)`: the scheme is chosen once for the whole
   * array, from its minimum, and every element is unpacked with it.
   */
  function BaselineToAntnums(nants: Option<int>, bls: seq<int>): (r: Result<(seq<int>, seq<int>), BaselineError>)
    ensures r == Failure(TooManyAntennas) <==> nants.Some? && nants.value > WrittenLimit
    ensures r == Failure(EmptyInput) <==> !(nants.Some? && nants.value > WrittenLimit) && bls == []
    ensures r.Success? ==> |r.value.0| == |bls| && |r.value.1| == |bls|
    ensures r.Success? && (forall k :: 0 <= k < |bls| ==> bls[k] > Two16) ==>
      forall k :: 0 <= k < |bls| ==> (r.value.0[k], r.value.1[k]) == Unpack2048(bls[k])
    ensures r.Success? && (exists k :: 0 <= k < |bls| && bls[k] <= Two16) ==>
      forall k :: 0 <= k < |bls| ==> (r.value.0[k], r.value.1[k]) == Unpack256(bls[k])
  {
    if nants.Some? && nants.value > WrittenLimit then Failure(TooManyAntennas)
    else if bls == [] then Failure(EmptyInput)
    else if MinOf(bls) > Two16 then
      Success((seq(|bls|, k requires 0 <= k < |bls| => Unpack2048(bls[k]).0),
               seq(|bls|, k requires 0 <= k < |bls| => Unpack2048(bls[k]).1)))
    else
      Success((seq(|bls|, k requires 0 <= k < |bls| => Unpack256(bls[k]).0),
               seq(|bls|, k requires 0 <= k < |bls| => Unpack256(bls[k]).1)))
  }

  // ---------------------------------------------------------------- polarization index

  datatype PolError = PolNotSet | PolNotUnique

  /** `np.argwhere(pols == pol)` on a one-dimensional array: the matching indices, in order. */
  function MatchIndices(pols: seq<int>, pol: int): (r: seq<nat>)
    ensures forall k: nat :: k in r ==> k < |pols| && pols[k] == pol
    ensures forall k :: 0 <= k < |pols| && pols[k] == pol ==> k in r
    ensures forall m, n :: 0 <= m < n < |r| ==> r[m] < r[n]
  {
    if pols == [] then []
    else
      var rest := MatchIndices(pols[..|pols| - 1], pol);
      assert forall m :: 0 <= m < |rest| ==> rest[m] in rest;
      if pols[|pols| - 1] == pol then rest + [|pols| - 1] else rest
  }

  /**
   * `miriad_pol_to_ind(pol)`: the index of `pol` in `polarization_array`,
   * which must be set and hold `pol` exactly once.
   */
  function MiriadPolToInd(pols: Option<seq<int>>, pol: int): (r: Result<nat, PolError>)
    ensures pols.None? ==> r == Failure(PolNotSet)
    ensures pols.Some? ==>
      (r.Success? <==> exists k :: 0 <= k < |pols.value| && pols.value[k] == pol
                        && forall m :: 0 <= m < |pols.value| && pols.value[m] == pol ==> m == k)
    ensures r.Success? ==> r.value < |pols.value| && pols.value[r.value] == pol
  {
    if pols.None? then Failure(PolNotSet)
    else
      var found := MatchIndices(pols.value, pol);
      if |found| != 1 then
        assert |found| >= 2 ==> found[0] in found && found[1] in found && found[0] < found[1];
        Failure(PolNotUnique)
      else
        assert found == [found[0]] && found[0] in found;
        Success(found[0])
  }
}
