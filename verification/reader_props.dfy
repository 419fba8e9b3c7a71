/** What the reader steps guarantee about the arrays they build. */
module ReaderProps {
  import opened Wrappers
  import opened PyValues
  import opened Baselines
  import opened Readers
  import opened BaselineProps

  // ---------------------------------------------------------------- FHD file names

  /** The file `found` keeps for a kind of file, if any. */
  function Holder(found: FhdFiles, kind: FhdKind): Option<string> {
    match kind
    case DataFile(pol) => if pol in found.data then Some(found.data[pol]) else None
    case ParamsFile => found.params
    case FlagsFile => found.flags
    case SettingsFile => found.settings
    case OtherFile => None
  }

  /** `kinds[k]` is the last entry of its kind. */
  predicate LastOfKind(kinds: seq<FhdKind>, k: int, kind: FhdKind) {
    0 <= k < |kinds| && kinds[k] == kind
    && forall m :: k < m < |kinds| ==> kinds[m] != kind
  }

  lemma HolderPlace(acc: FhdFiles, file: string, fileKind: FhdKind, kind: FhdKind)
    requires kind != OtherFile
    ensures Holder(Place(acc, file, fileKind), kind) == if fileKind == kind then Some(file) else Holder(acc, kind)
  {
  }

  /**
   * Placing keeps, for every kind of file, the last file of that kind in the
   * list (a later file replaces an earlier one).
   */
  lemma {:induction false} PlaceAllKeepsLast(files: seq<string>, kinds: seq<FhdKind>, kind: FhdKind)
    requires |kinds| == |files| && kind != OtherFile
    ensures Holder(PlaceAll(files, kinds), kind).Some? <==> kind in kinds
    ensures Holder(PlaceAll(files, kinds), kind).Some? ==>
      exists k :: LastOfKind(kinds, k, kind) && Holder(PlaceAll(files, kinds), kind) == Some(files[k])
  {
    if files != [] {
      var n := |files| - 1;
      PlaceAllKeepsLast(files[..n], kinds[..n], kind);
      HolderPlace(PlaceAll(files[..n], kinds[..n]), files[n], kinds[n], kind);
      assert kinds == kinds[..n] + [kinds[n]];
      if kinds[n] == kind {
        assert LastOfKind(kinds, n, kind);
      } else if Holder(PlaceAll(files[..n], kinds[..n]), kind).Some? {
        var k :| LastOfKind(kinds[..n], k, kind) && Holder(PlaceAll(files[..n], kinds[..n]), kind) == Some(files[..n][k]);
        assert LastOfKind(kinds, k, kind);
      }
    }
  }

  /** Only the data kinds present in the list are keys of the data files. */
  lemma {:induction false} PlaceAllDataKeys(files: seq<string>, kinds: seq<FhdKind>)
    requires |kinds| == |files|
    ensures forall pol :: pol in PlaceAll(files, kinds).data ==> DataFile(pol) in kinds
  {
    if files != [] {
      var n := |files| - 1;
      PlaceAllDataKeys(files[..n], kinds[..n]);
      assert kinds == kinds[..n] + [kinds[n]];
    }
  }

  /**
   * Classification keeps, for every kind of file, the last file of that kind
   * in the list, and data files of the four linear polarizations only.
   */
  lemma SortAllKeepsLast(files: seq<string>, dataName: string, kind: FhdKind)
    requires kind != OtherFile
    ensures Holder(SortAll(files, dataName), kind).Some? <==> kind in Kinds(files, dataName)
    ensures Holder(SortAll(files, dataName), kind).Some? ==>
      exists k :: LastOfKind(Kinds(files, dataName), k, kind) && Holder(SortAll(files, dataName), kind) == Some(files[k])
    ensures SortAll(files, dataName).data.Keys <= set p | p in LinPols
  {
    var ks := Kinds(files, dataName);
    PlaceAllKeepsLast(files, ks, kind);
    PlaceAllDataKeys(files, ks);
    forall pol | pol in SortAll(files, dataName).data
      ensures pol in LinPols
    {
      var k :| 0 <= k < |ks| && ks[k] == DataFile(pol);
      assert ks[k] == KindOf(files[k], dataName);
    }
  }

  /** A data file of some polarization is kept exactly when the list holds one. */
  lemma SomeDataFileKept(files: seq<string>, dataName: string)
    ensures var ks := Kinds(files, dataName);
      |SortAll(files, dataName).data| >= 1 <==> exists k :: 0 <= k < |ks| && ks[k].DataFile?
  {
    var ks := Kinds(files, dataName);
    var found := SortAll(files, dataName);
    PlaceAllDataKeys(files, ks);
    if exists k :: 0 <= k < |ks| && ks[k].DataFile? {
      var k :| 0 <= k < |ks| && ks[k].DataFile?;
      PlaceAllKeepsLast(files, ks, ks[k]);
      assert ks[k].pol in found.data;
    }
    if |found.data| >= 1 {
      var pol :| pol in found.data;
      assert DataFile(pol) in ks;
    }
  }

  /**
   * `read_fhd` goes on exactly when the list holds a data file, a params
   * file and a flags file; it refuses the first of those that is missing, in
   * that order, and warns exactly when there is no settings file.
   */
  lemma FhdFileSetMeaning(files: seq<string>, useModel: bool)
    ensures var ks := Kinds(files, DataName(useModel));
      var r := FhdFileSet(files, useModel);
      && (r == Failure(NoDataFiles) <==> forall k :: 0 <= k < |ks| ==> !ks[k].DataFile?)
      && (r.Success? <==>
            (exists k :: 0 <= k < |ks| && ks[k].DataFile?) && ParamsFile in ks && FlagsFile in ks)
      && (r.Success? ==> (r.value.1 <==> SettingsFile !in ks))
  {
    var ks := Kinds(files, DataName(useModel));
    SomeDataFileKept(files, DataName(useModel));
    PlaceAllKeepsLast(files, ks, ParamsFile);
    PlaceAllKeepsLast(files, ks, FlagsFile);
    PlaceAllKeepsLast(files, ks, SettingsFile);
  }

  // ---------------------------------------------------------------- polarization order

  /** The present linear polarizations among the first `n` of the canonical order. */
  function PresentUpTo(present: set<string>, n: nat): set<string>
    requires n <= |LinPols|
  {
    set k | 0 <= k < n && LinPols[k] in present :: LinPols[k]
  }

  /** `polarization_array` lists the codes in strictly decreasing order: xx, yy, xy, yx. */
  lemma {:induction false} PolOrderDecreasing(present: set<string>, n: nat)
    requires n <= |LinPols|
    ensures forall a, b :: 0 <= a < b < |PolOrderUpTo(present, n)| ==> PolOrderUpTo(present, n)[a] > PolOrderUpTo(present, n)[b]
  {
    if n > 0 {
      PolOrderDecreasing(present, n - 1);
    }
  }

  /** A polarization's code is listed exactly when it has data. */
  lemma {:induction false} PolOrderMembers(present: set<string>, n: nat)
    requires n <= |LinPols|
    ensures forall k :: 0 <= k < |LinPols| ==> (PolCode(k) in PolOrderUpTo(present, n) <==> k < n && LinPols[k] in present)
  {
    if n > 0 {
      PolOrderMembers(present, n - 1);
    }
  }

  /** One code per present polarization. */
  lemma {:induction false} PolOrderCount(present: set<string>, n: nat)
    requires n <= |LinPols|
    ensures |PolOrderUpTo(present, n)| == |PresentUpTo(present, n)|
  {
    if n > 0 {
      PolOrderCount(present, n - 1);
      var prev := PresentUpTo(present, n - 1);
      var pol := LinPols[n - 1];
      assert LinPols[0][0] == 'x' && LinPols[1][0] == 'y' && LinPols[2][1] == 'y' && LinPols[3][1] == 'x';
      assert pol !in prev;
      if pol in present {
        assert PresentUpTo(present, n) == prev + {pol};
      } else {
        assert PresentUpTo(present, n) == prev;
      }
    } else {
      assert PresentUpTo(present, 0) == {};
    }
  }

  /**
   * In `read_fhd`, `Npols` is the number of data files and
   * `polarization_array` has exactly that many entries, one per data
   * polarization.
   */
  lemma PolarizationArrayMatchesData(present: set<string>)
    requires present <= set p | p in LinPols
    ensures |PolOrder(present)| == |present|
    ensures forall k :: 0 <= k < |LinPols| ==> (PolCode(k) in PolOrder(present) <==> LinPols[k] in present)
  {
    PolOrderMembers(present, |LinPols|);
    PolOrderCount(present, |LinPols|);
    assert PresentUpTo(present, |LinPols|) == present by {
      forall p | p in present
        ensures p in PresentUpTo(present, |LinPols|)
      {
        var k :| 0 <= k < |LinPols| && LinPols[k] == p;
      }
    }
  }

  /**
   * `pol_list.index` finds each present polarization at a single position,
   * and so does `miriad_pol_to_ind` on the resulting `polarization_array`.
   */
  lemma PolarizationLookupSucceeds(present: set<string>, k: nat)
    requires k < |LinPols| && LinPols[k] in present
    ensures MiriadPolToInd(Some(PolOrder(present)), PolCode(k)).Success?
  {
    PolOrderDecreasing(present, |LinPols|);
    PolOrderMembers(present, |LinPols|);
    var pols := PolOrder(present);
    var m :| 0 <= m < |pols| && pols[m] == PolCode(k);
    assert forall m' :: 0 <= m' < |pols| && pols[m'] == PolCode(k) ==> m' == m;
  }

  // ---------------------------------------------------------------- time expansion

  /** The offsets of the first `ntimes` integrations lie within the rows and do not decrease. */
  predicate AscendingOffsets(nblts: nat, ntimes: nat, binOffset: seq<int>)
    requires ntimes <= |binOffset|
  {
    (forall ii :: 0 <= ii < ntimes ==> 0 <= binOffset[ii] <= nblts)
    && forall a, b :: 0 <= a < b < ntimes ==> binOffset[a] <= binOffset[b]
  }

  lemma {:induction false} ExpandUpToRows(m: nat, nblts: nat, ntimes: nat, binOffset: seq<int>, intTimes: seq<real>)
    requires m <= ntimes <= |binOffset| && ntimes <= |intTimes|
    requires AscendingOffsets(nblts, ntimes, binOffset)
    ensures forall ii, k :: 0 <= ii < m && binOffset[ii] <= k < SliceEnd(ii, ntimes, nblts, binOffset) && k < nblts ==>
      ExpandUpTo(m, nblts, ntimes, binOffset, intTimes)[k] == intTimes[ii]
    ensures forall k :: 0 <= k < nblts && (m == 0 || k < binOffset[0]) ==> ExpandUpTo(m, nblts, ntimes, binOffset, intTimes)[k] == 0.0
  {
    if m > 0 {
      ExpandUpToRows(m - 1, nblts, ntimes, binOffset, intTimes);
      var prev := ExpandUpTo(m - 1, nblts, ntimes, binOffset, intTimes);
      var cur := ExpandUpTo(m, nblts, ntimes, binOffset, intTimes);
      var lo := binOffset[m - 1];
      var hi := SliceEnd(m - 1, ntimes, nblts, binOffset);
      assert SliceBound(lo, nblts) == lo;
      assert hi <= nblts && SliceBound(hi, nblts) == hi;
      forall ii, k | 0 <= ii < m - 1 && binOffset[ii] <= k < SliceEnd(ii, ntimes, nblts, binOffset) && k < nblts
        ensures cur[k] == intTimes[ii]
      {
        assert SliceEnd(ii, ntimes, nblts, binOffset) == binOffset[ii + 1] <= lo;
      }
    }
  }

  /**
   * The expansion completes every integration exactly when `int_times` and
   * `bin_offset` hold at least `ntimes` entries; otherwise it raises.
   */
  lemma ExpansionCompletesIff(ntimes: nat, binOffset: seq<int>, intTimes: seq<real>)
    ensures Completed(ntimes, binOffset, intTimes) == ntimes <==> ntimes <= |binOffset| && ntimes <= |intTimes|
  {
  }

  /**
   * With ascending offsets, every row of `time_array` holds the time of the
   * integration whose bin it lies in, and rows before the first bin keep 0.
   */
  lemma EachRowGetsItsTime(nblts: nat, ntimes: nat, binOffset: seq<int>, intTimes: seq<real>)
    requires ntimes <= |binOffset| && ntimes <= |intTimes|
    requires AscendingOffsets(nblts, ntimes, binOffset)
    ensures var times := ExpandUpTo(ntimes, nblts, ntimes, binOffset, intTimes);
      && (forall ii, k :: 0 <= ii < ntimes && binOffset[ii] <= k < SliceEnd(ii, ntimes, nblts, binOffset) && k < nblts ==>
            times[k] == intTimes[ii])
      && (forall k :: 0 <= k < nblts && (ntimes == 0 || k < binOffset[0]) ==> times[k] == 0.0)
  {
    ExpandUpToRows(ntimes, nblts, ntimes, binOffset, intTimes);
  }

  // ---------------------------------------------------------------- miriad grid

  lemma MulMono(x: nat, y: nat, z: nat)
    requires x <= y
    ensures x * z <= y * z
  {
    assert y * z - x * z == (y - x) * z;
  }

  /** The position of first antenna `b` and second antenna `c` within one time's `I * J` rows. */
  function RowIndex(b: nat, c: nat, I: nat, J: nat): (x: nat)
    requires b < I && c < J
    ensures b * J <= x < b * J + J && x < I * J
  {
    MulMono(b + 1, I, J);
    assert (b + 1) * J == b * J + J;
    b * J + c
  }

  /** The position of time `a`, first antenna `b` and second antenna `c`: `(a * I + b) * J + c`. */
  function GridIndex(a: nat, b: nat, c: nat, T: nat, I: nat, J: nat): (x: nat)
    requires a < T && b < I && c < J
    ensures a * (I * J) <= x < a * (I * J) + I * J && x < T * (I * J)
  {
    var r := RowIndex(b, c, I, J);
    MulMono(a + 1, T, I * J);
    assert (a + 1) * (I * J) == a * (I * J) + I * J;
    a * (I * J) + r
  }

  lemma {:induction false} RowShape(t: real, ais: seq<int>, ajs: seq<int>)
    ensures |Row(t, ais, ajs)| == |ais| * |ajs|
    ensures forall b, c :: 0 <= b < |ais| && 0 <= c < |ajs| ==>
      Row(t, ais, ajs)[RowIndex(b, c, |ais|, |ajs|)] == Cell(t, ais[b], ajs[c])
  {
    if ais != [] {
      var n := |ais| - 1;
      var J := |ajs|;
      RowShape(t, ais[..n], ajs);
      var pre := Row(t, ais[..n], ajs);
      assert Row(t, ais, ajs) == pre + Pairs(t, ais[n], ajs);
      assert |pre| == n * J;
      assert |ais| * J == n * J + J;
      forall b, c | 0 <= b < |ais| && 0 <= c < J
        ensures Row(t, ais, ajs)[RowIndex(b, c, |ais|, J)] == Cell(t, ais[b], ajs[c])
      {
        var x := RowIndex(b, c, |ais|, J);
        if b < n {
          assert x == RowIndex(b, c, n, J);
          assert pre[x] == Cell(t, ais[..n][b], ajs[c]);
        } else {
          assert x - |pre| == c;
        }
      }
    }
  }

  lemma {:induction false} GridLength(times: seq<real>, ais: seq<int>, ajs: seq<int>)
    ensures |Grid(times, ais, ajs)| == |times| * (|ais| * |ajs|)
  {
    if times != [] {
      var n := |times| - 1;
      GridLength(times[..n], ais, ajs);
      RowShape(times[n], ais, ajs);
      assert |times| * (|ais| * |ajs|) == n * (|ais| * |ajs|) + |ais| * |ajs|;
    }
  }

  lemma {:induction false} GridCell(times: seq<real>, ais: seq<int>, ajs: seq<int>, a: nat, b: nat, c: nat)
    requires a < |times| && b < |ais| && c < |ajs|
    ensures GridIndex(a, b, c, |times|, |ais|, |ajs|) < |Grid(times, ais, ajs)|
    ensures Grid(times, ais, ajs)[GridIndex(a, b, c, |times|, |ais|, |ajs|)] == Cell(times[a], ais[b], ajs[c])
  {
    var n := |times| - 1;
    var I, J := |ais|, |ajs|;
    var pre := Grid(times[..n], ais, ajs);
    var row := Row(times[n], ais, ajs);
    var x := GridIndex(a, b, c, |times|, I, J);
    GridLength(times, ais, ajs);
    GridLength(times[..n], ais, ajs);
    RowShape(times[n], ais, ajs);
    assert Grid(times, ais, ajs) == pre + row;
    if a < n {
      GridCell(times[..n], ais, ajs, a, b, c);
      assert x == GridIndex(a, b, c, n, I, J);
      assert times[..n][a] == times[a];
      assert x < |pre|;
      assert (pre + row)[x] == pre[x];
    } else {
      var r := RowIndex(b, c, I, J);
      assert x == |pre| + r;
      assert (pre + row)[x] == row[r];
      assert row[r] == Cell(times[n], ais[b], ajs[c]);
    }
  }

  /**
   * The grid has one row per time and antenna pair, times outermost: row
   * `(a * I + b) * J + c` pairs time `a` with first antenna `b` and second
   * antenna `c`.
   */
  lemma GridShape(times: seq<real>, ais: seq<int>, ajs: seq<int>)
    ensures |Grid(times, ais, ajs)| == |times| * (|ais| * |ajs|)
    ensures forall a, b, c :: 0 <= a < |times| && 0 <= b < |ais| && 0 <= c < |ajs| ==>
      Grid(times, ais, ajs)[GridIndex(a, b, c, |times|, |ais|, |ajs|)] == Cell(times[a], ais[b], ajs[c])
  {
    GridLength(times, ais, ajs);
    forall a, b, c | 0 <= a < |times| && 0 <= b < |ais| && 0 <= c < |ajs|
      ensures Grid(times, ais, ajs)[GridIndex(a, b, c, |times|, |ais|, |ajs|)] == Cell(times[a], ais[b], ajs[c])
    {
      GridCell(times, ais, ajs, a, b, c);
    }
  }

  lemma {:induction false} RowMembers(t: real, ais: seq<int>, ajs: seq<int>)
    ensures forall cell :: cell in Row(t, ais, ajs) ==> cell.t == t && cell.i in ais && cell.j in ajs
  {
    if ais != [] {
      var n := |ais| - 1;
      RowMembers(t, ais[..n], ajs);
      assert forall x :: x in ais[..n] ==> x in ais;
    }
  }

  /** Every row of the grid is made of a listed time and listed antennas. */
  lemma {:induction false} GridMembers(times: seq<real>, ais: seq<int>, ajs: seq<int>)
    ensures forall cell :: cell in Grid(times, ais, ajs) ==> cell.t in times && cell.i in ais && cell.j in ajs
  {
    if times != [] {
      var n := |times| - 1;
      GridMembers(times[..n], ais, ajs);
      RowMembers(times[n], ais, ajs);
      assert forall x :: x in times[..n] ==> x in times;
    }
  }

  /**
   * When the antenna numbers of the grid are below the telescope's antenna
   * count, which the corrected limit accepts, `baseline_array` decodes back
   * to the grid's two antenna columns.
   */
  lemma GridBaselinesRoundTrip(times: seq<real>, ais: seq<int>, ajs: seq<int>,
                               tGrid: seq<real>, iGrid: seq<int>, jGrid: seq<int>, nants: int)
    requires Holds(tGrid, iGrid, jGrid, Grid(times, ais, ajs))
    requires times != [] && ais != [] && ajs != []
    requires nants <= CorrectedLimit
    requires forall x :: x in ais ==> 0 <= x < nants
    requires forall x :: x in ajs ==> 0 <= x < nants
    ensures AntnumsToBaseline(Some(nants), iGrid, jGrid, false).Success?
    ensures BaselineToAntnums(Some(nants), AntnumsToBaseline(Some(nants), iGrid, jGrid, false).value.bls)
      == Success((iGrid, jGrid))
  {
    var g := Grid(times, ais, ajs);
    GridShape(times, ais, ajs);
    GridMembers(times, ais, ajs);
    assert 0 * (|ais| * |ajs|) + (0 * |ajs| + 0) == 0;
    assert g != [];
    forall k | 0 <= k < |iGrid|
      ensures 0 <= iGrid[k] < nants && 0 <= jGrid[k] < nants
    {
      assert g[k] in g;
    }
    assert forall k :: 0 <= k < |iGrid| ==> InInt64(iGrid[k]) && InInt64(jGrid[k]);
    assert AntnumsToBaselineCorrected(Some(nants), iGrid, jGrid, false).Success?;
    CorrectedLimitRoundTrips(nants, iGrid, jGrid, false);
    LimitsAgree(Some(nants), iGrid, jGrid, false);
  }

}
