/**
 * The in-memory steps of the FHD and miriad readers: sorting FHD file names
 * by suffix, ordering the linear polarizations, spreading per-integration
 * times over their baseline-time rows, and laying out the miriad
 * time x antenna x antenna grid. File reading itself is not modelled; the
 * readers' inputs are parameters.
 */
module Readers {
  import opened Wrappers
  import opened PyValues
  import opened Baselines

  // ---------------------------------------------------------------- FHD file names

  /** The linear polarizations, in the order `polarization_array` lists them. */
  const LinPols: seq<string> := ["xx", "yy", "xy", "yx"]

  /** What a file name is taken for, by its lower-cased suffix. */
  datatype FhdKind = DataFile(pol: string) | ParamsFile | FlagsFile | SettingsFile | OtherFile

  /** The infix of data file names: model or measured visibilities. */
  function DataName(useModel: bool): string {
    if useModel then "_vis_model_" else "_vis_"
  }

  /** The suffix of a data file of polarization `pol`. */
  function DataSuffix(dataName: string, pol: string): string {
    dataName + pol + ".sav"
  }

  /** The suffix tests of `read_fhd`, in their order: the first that matches decides. */
  function KindOf(file: string, dataName: string): (k: FhdKind)
    ensures k.DataFile? ==> k.pol in LinPols && EndsWith(Lower(file), DataSuffix(dataName, k.pol))
    ensures k == ParamsFile ==> EndsWith(Lower(file), "_params.sav")
    ensures k == FlagsFile ==> EndsWith(Lower(file), "_flags.sav")
    ensures k == SettingsFile ==> EndsWith(Lower(file), "_settings.txt")
  {
    var name := Lower(file);
    if EndsWith(name, DataSuffix(dataName, "xx")) then DataFile("xx")
    else if EndsWith(name, DataSuffix(dataName, "yy")) then DataFile("yy")
    else if EndsWith(name, DataSuffix(dataName, "xy")) then DataFile("xy")
    else if EndsWith(name, DataSuffix(dataName, "yx")) then DataFile("yx")
    else if EndsWith(name, "_params.sav") then ParamsFile
    else if EndsWith(name, "_flags.sav") then FlagsFile
    else if EndsWith(name, "_settings.txt") then SettingsFile
    else OtherFile
  }

  /** The data files by polarization, and the params, flags and settings files found so far. */
  datatype FhdFiles = FhdFiles(data: map<string, string>, params: Option<string>, flags: Option<string>,
                               settings: Option<string>)

  /** The kind of every file of the list. */
  function Kinds(files: seq<string>, dataName: string): (ks: seq<FhdKind>)
    ensures |ks| == |files|
  {
    seq(|files|, k requires 0 <= k < |files| => KindOf(files[k], dataName))
  }

  /** One step of the classification loop: a later file of the same kind replaces an earlier one. */
  function Place(acc: FhdFiles, file: string, kind: FhdKind): FhdFiles {
    match kind
    case DataFile(pol) => acc.(data := acc.data[pol := file])
    case ParamsFile => acc.(params := Some(file))
    case FlagsFile => acc.(flags := Some(file))
    case SettingsFile => acc.(settings := Some(file))
    case OtherFile => acc
  }

  const NoFiles: FhdFiles := FhdFiles(map[], None, None, None)

  /** The files placed by their kinds, in list order. */
  function PlaceAll(files: seq<string>, kinds: seq<FhdKind>): FhdFiles
    requires |kinds| == |files|
  {
    if files == [] then NoFiles
    else Place(PlaceAll(files[..|files| - 1], kinds[..|files| - 1]), files[|files| - 1], kinds[|files| - 1])
  }

  /** The classification of `files`. */
  function SortAll(files: seq<string>, dataName: string): FhdFiles {
    PlaceAll(files, Kinds(files, dataName))
  }

  datatype FhdError = NoDataFiles | NoParamsFile | NoFlagsFile

  /**
   * The files `read_fhd` goes on with, and whether it warns that the
   * settings file is missing; or the first missing kind it refuses.
   */
  function FhdFileSet(files: seq<string>, useModel: bool): Result<(FhdFiles, bool), FhdError> {
    var found := SortAll(files, DataName(useModel));
    if |found.data| < 1 then Failure(NoDataFiles)
    else if found.params.None? then Failure(NoParamsFile)
    else if found.flags.None? then Failure(NoFlagsFile)
    else Success((found, found.settings.None?))
  }

  /** The file-sorting loop of `read_fhd` and the checks that follow it. */
  method SortFhdFiles(files: seq<string>, useModel: bool) returns (r: Result<(FhdFiles, bool), FhdError>)
    ensures r == FhdFileSet(files, useModel)
  {
    var dataName := DataName(useModel);
    var datafiles: map<string, string> := map[];
    var paramsFile: Option<string> := None;
    var flagsFile: Option<string> := None;
    var settingsFile: Option<string> := None;
    var k := 0;
    while k < |files|
      invariant 0 <= k <= |files|
      invariant FhdFiles(datafiles, paramsFile, flagsFile, settingsFile) == PlaceAll(files[..k], Kinds(files, dataName)[..k])
    {
      assert files[..k + 1][..k] == files[..k];
      assert Kinds(files, dataName)[..k + 1][..k] == Kinds(files, dataName)[..k];
      var file := files[k];
      var name := Lower(file);
      if EndsWith(name, DataSuffix(dataName, "xx")) {
        datafiles := datafiles["xx" := file];
      } else if EndsWith(name, DataSuffix(dataName, "yy")) {
        datafiles := datafiles["yy" := file];
      } else if EndsWith(name, DataSuffix(dataName, "xy")) {
        datafiles := datafiles["xy" := file];
      } else if EndsWith(name, DataSuffix(dataName, "yx")) {
        datafiles := datafiles["yx" := file];
      } else if EndsWith(name, "_params.sav") {
        paramsFile := Some(file);
      } else if EndsWith(name, "_flags.sav") {
        flagsFile := Some(file);
      } else if EndsWith(name, "_settings.txt") {
        settingsFile := Some(file);
      }
      k := k + 1;
    }
    assert files[..k] == files;
    assert Kinds(files, dataName)[..k] == Kinds(files, dataName);
    if |datafiles| < 1 {
      return Failure(NoDataFiles);
    }
    if paramsFile.None? {
      return Failure(NoParamsFile);
    }
    if flagsFile.None? {
      return Failure(NoFlagsFile);
    }
    return Success((FhdFiles(datafiles, paramsFile, flagsFile, settingsFile), settingsFile.None?));
  }

  // ---------------------------------------------------------------- polarization order

  /** `linear_pol_dict`: xx, yy, xy, yx are coded -5, -6, -7, -8. */
  function PolCode(k: nat): int {
    -(5 + k)
  }

  /** The codes of the present linear polarizations among the first `n` of the canonical order. */
  function PolOrderUpTo(present: set<string>, n: nat): (r: seq<int>)
    requires n <= |LinPols|
    ensures |r| <= n
    ensures forall m :: 0 <= m < |r| ==> -(5 + n) < r[m] <= -5
  {
    if n == 0 then []
    else PolOrderUpTo(present, n - 1) + (if LinPols[n - 1] in present then [PolCode(n - 1)] else [])
  }

  /** `polarization_array` for the polarizations with data. */
  function PolOrder(present: set<string>): seq<int> {
    PolOrderUpTo(present, |LinPols|)
  }

  /** The loop that builds `pol_list`. */
  method PolarizationList(present: set<string>) returns (polList: seq<int>)
    ensures polList == PolOrder(present)
  {
    polList := [];
    var k := 0;
    while k < |LinPols|
      invariant 0 <= k <= |LinPols|
      invariant polList == PolOrderUpTo(present, k)
    {
      var pol := LinPols[k];
      if pol in present {
        polList := polList + [PolCode(k)];
      }
      k := k + 1;
    }
  }

  // ---------------------------------------------------------------- time expansion

  /** A numpy slice bound `x` on an axis of length `n`: negative counts from the end, and both clip. */
  function SliceBound(x: int, n: nat): (b: nat)
    ensures b <= n
  {
    if x < 0 then (if x + n < 0 then 0 else x + n) else (if x > n then n else x)
  }

  /** `a[lo:hi] = v`. */
  function Fill(a: seq<real>, lo: int, hi: int, v: real): (r: seq<real>)
    ensures |r| == |a|
  {
    var l := SliceBound(lo, |a|);
    var h := SliceBound(hi, |a|);
    seq(|a|, k requires 0 <= k < |a| => if l <= k < h then v else a[k])
  }

  /**
   * How many integrations the loop completes before `int_times[ii]`,
   * `bin_offset[ii]` or `bin_offset[ii + 1]` runs past the end of its array
   * (an IndexError): every earlier integration finds its entries, and the
   * next one, if any, does not.
   */
  function Completed(ntimes: nat, binOffset: seq<int>, intTimes: seq<real>): (m: nat)
    ensures m <= ntimes && m <= |intTimes|
    ensures m <= |binOffset| && (0 < m < ntimes ==> m < |binOffset|)
    ensures m < ntimes ==> m >= |intTimes| || m >= |binOffset| || (m + 1 < ntimes && m + 1 >= |binOffset|)
  {
    var b := if |binOffset| >= ntimes then ntimes else if |binOffset| == 0 then 0 else |binOffset| - 1;
    if |intTimes| < b then |intTimes| else b
  }

  /** The slice integration `ii` of `ntimes` fills: up to the next offset, or to the end for the last. */
  function SliceEnd(ii: nat, ntimes: nat, nblts: nat, binOffset: seq<int>): int
    requires ii < ntimes && ii < |binOffset| && (ii + 1 < ntimes ==> ii + 1 < |binOffset|)
  {
    if ii < ntimes - 1 then binOffset[ii + 1] else nblts
  }

  /** `time_array` after the first `m` integrations have been spread over their rows. */
  function ExpandUpTo(m: nat, nblts: nat, ntimes: nat, binOffset: seq<int>, intTimes: seq<real>): (r: seq<real>)
    requires m <= Completed(ntimes, binOffset, intTimes)
    ensures |r| == nblts
  {
    if m == 0 then seq(nblts, _ => 0.0)
    else
      Fill(ExpandUpTo(m - 1, nblts, ntimes, binOffset, intTimes),
           binOffset[m - 1], SliceEnd(m - 1, ntimes, nblts, binOffset), intTimes[m - 1])
  }

  /**
   * The loop of `read_fhd` that expands per-integration times to one time
   * per baseline-time row, in place: integration `ii` covers the rows from
   * `bin_offset[ii]` to the next offset (the last one, to the end). When
   * `int_times` or `bin_offset` holds too few entries the loop raises
   * IndexError, leaving the rows of the integrations already done.
   */
  method ExpandTimes(nblts: nat, ntimes: nat, binOffset: seq<int>, intTimes: seq<real>)
    returns (timeArray: array<real>, r: Result<(), Raised>)
    ensures fresh(timeArray)
    ensures timeArray[..] == ExpandUpTo(Completed(ntimes, binOffset, intTimes), nblts, ntimes, binOffset, intTimes)
    ensures r == if Completed(ntimes, binOffset, intTimes) == ntimes then Success(()) else Failure(IndexErr)
  {
    timeArray := new real[nblts](_ => 0.0);
    var ii := 0;
    while ii < ntimes
      invariant 0 <= ii <= Completed(ntimes, binOffset, intTimes)
      invariant timeArray[..] == ExpandUpTo(ii, nblts, ntimes, binOffset, intTimes)
    {
      if ii >= |intTimes| || ii >= |binOffset| || (ii < ntimes - 1 && ii + 1 >= |binOffset|) {
        return timeArray, Failure(IndexErr);
      }
      var lo := SliceBound(binOffset[ii], nblts);
      var hi := if ii < ntimes - 1 then SliceBound(binOffset[ii + 1], nblts) else nblts;
      var t := intTimes[ii];
      forall k | lo <= k < hi {
        timeArray[k] := t;
      }
      ii := ii + 1;
    }
    return timeArray, Success(());
  }

  // ---------------------------------------------------------------- miriad grid

  /** One row of the miriad grid: a time and an antenna pair. */
  datatype Cell = Cell(t: real, i: int, j: int)

  /** The innermost loop: one time and first antenna against every second antenna. */
  function Pairs(t: real, ai: int, ajs: seq<int>): (r: seq<Cell>)
    ensures |r| == |ajs|
    ensures forall c :: 0 <= c < |ajs| ==> r[c] == Cell(t, ai, ajs[c])
  {
    seq(|ajs|, c requires 0 <= c < |ajs| => Cell(t, ai, ajs[c]))
  }

  /** The two inner loops: one time against every antenna pair. */
  function Row(t: real, ais: seq<int>, ajs: seq<int>): seq<Cell> {
    if ais == [] then []
    else Row(t, ais[..|ais| - 1], ajs) + Pairs(t, ais[|ais| - 1], ajs)
  }

  /** The whole grid: times outermost, then first antennas, then second antennas. */
  function Grid(times: seq<real>, ais: seq<int>, ajs: seq<int>): seq<Cell> {
    if times == [] then []
    else Grid(times[..|times| - 1], ais, ajs) + Row(times[|times| - 1], ais, ajs)
  }

  /** The three parallel lists hold the grid's cells, row by row. */
  predicate Holds(tGrid: seq<real>, iGrid: seq<int>, jGrid: seq<int>, cells: seq<Cell>) {
    |tGrid| == |cells| && |iGrid| == |cells| && |jGrid| == |cells|
    && forall k :: 0 <= k < |cells| ==> cells[k] == Cell(tGrid[k], iGrid[k], jGrid[k])
  }

  /** The innermost loop of `read_miriad`'s grid: one time and first antenna against every second antenna. */
  method AppendPairs(t: real, ai: int, ajs: seq<int>, tGrid0: seq<real>, iGrid0: seq<int>, jGrid0: seq<int>,
                     ghost cells: seq<Cell>)
    returns (tGrid: seq<real>, iGrid: seq<int>, jGrid: seq<int>)
    requires Holds(tGrid0, iGrid0, jGrid0, cells)
    ensures Holds(tGrid, iGrid, jGrid, cells + Pairs(t, ai, ajs))
  {
    tGrid, iGrid, jGrid := tGrid0, iGrid0, jGrid0;
    var c := 0;
    assert Pairs(t, ai, ajs[..0]) == [];
    assert cells + [] == cells;
    while c < |ajs|
      invariant 0 <= c <= |ajs|
      invariant Holds(tGrid, iGrid, jGrid, cells + Pairs(t, ai, ajs[..c]))
    {
      var aj := ajs[c];
      assert Pairs(t, ai, ajs[..c + 1]) == Pairs(t, ai, ajs[..c]) + [Cell(t, ai, aj)];
      tGrid := tGrid + [t];
      iGrid := iGrid + [ai];
      jGrid := jGrid + [aj];
      c := c + 1;
    }
    assert ajs[..c] == ajs;
  }

  /** The middle loop of `read_miriad`'s grid: one time against every antenna pair. */
  method AppendRow(t: real, ais: seq<int>, ajs: seq<int>, tGrid0: seq<real>, iGrid0: seq<int>, jGrid0: seq<int>,
                   ghost cells: seq<Cell>)
    returns (tGrid: seq<real>, iGrid: seq<int>, jGrid: seq<int>)
    requires Holds(tGrid0, iGrid0, jGrid0, cells)
    ensures Holds(tGrid, iGrid, jGrid, cells + Row(t, ais, ajs))
  {
    tGrid, iGrid, jGrid := tGrid0, iGrid0, jGrid0;
    var b := 0;
    assert ais[..0] == [];
    assert cells + [] == cells;
    while b < |ais|
      invariant 0 <= b <= |ais|
      invariant Holds(tGrid, iGrid, jGrid, cells + Row(t, ais[..b], ajs))
    {
      var ai := ais[b];
      tGrid, iGrid, jGrid := AppendPairs(t, ai, ajs, tGrid, iGrid, jGrid, cells + Row(t, ais[..b], ajs));
      assert ais[..b + 1][..b] == ais[..b];
      assert Row(t, ais[..b + 1], ajs) == Row(t, ais[..b], ajs) + Pairs(t, ai, ajs);
      assert cells + Row(t, ais[..b], ajs) + Pairs(t, ai, ajs) == cells + Row(t, ais[..b + 1], ajs);
      b := b + 1;
    }
    assert ais[..b] == ais;
  }

  /** The nested loops of `read_miriad` that build `t_grid`, `ant_i_grid` and `ant_j_grid`. */
  method BuildGrid(times: seq<real>, ais: seq<int>, ajs: seq<int>)
    returns (tGrid: seq<real>, iGrid: seq<int>, jGrid: seq<int>)
    ensures Holds(tGrid, iGrid, jGrid, Grid(times, ais, ajs))
  {
    tGrid, iGrid, jGrid := [], [], [];
    var a := 0;
    while a < |times|
      invariant 0 <= a <= |times|
      invariant Holds(tGrid, iGrid, jGrid, Grid(times[..a], ais, ajs))
    {
      var t := times[a];
      tGrid, iGrid, jGrid := AppendRow(t, ais, ajs, tGrid, iGrid, jGrid, Grid(times[..a], ais, ajs));
      assert times[..a + 1][..a] == times[..a];
      assert Grid(times[..a + 1], ais, ajs) == Grid(times[..a], ais, ajs) + Row(t, ais, ajs);
      a := a + 1;
    }
    assert times[..a] == times;
  }
}
