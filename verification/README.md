# pyuvdata metadata core, modelled in Dafny

This project models the metadata-validation core of pyuvdata. That core has
two parts:

- **`UVParameter`** (`pyuvdata/parameter.py`): a typed, shape-checked,
  tolerance-compared parameter. It normalises its tolerances on
  construction, refuses a spoof value when required, and resolves a
  symbolic `form` into an expected shape from sibling parameters. It tests
  acceptability against a list of allowed values or a magnitude range, and
  compares two parameters through a branching equality. That equality checks
  the class, array shapes and element-wise closeness, trimmed strings, and
  dicts with case-insensitive keys.
- **The earlier container** (`uvdata/uv.py`): `UVProperty` with its
  `expected_size` and `sanity_check`, and `UVData`. `UVData` provides the
  property iterators, the fail-fast `check`, and the required-only `__eq__`.
  It also packs antenna pairs into baseline numbers (the 256 and 2048
  schemes) and back, and looks up a polarization index. The same file holds
  four in-memory helpers pulled out of the file readers:
  - FHD file classification;
  - the canonical linear-polarization order;
  - the expansion of per-integration times over `bin_offset` ranges;
  - the miriad time × antenna × antenna grid.

Python values are a datatype (`PyValues.Value`): None, int, float, str, list
of str, numpy array (dtype, shape, flat elements) and dict. Numbers are exact
reals. What a Python call raises is a `Failure` of a `Result`, never a
precondition; the premises of lemmas narrow what a property is stated for,
not what a call accepts. A `requires` on a class's own `kind` field names the
subclass that defines the method (only an angle parameter has `degrees()`,
only an antenna-position one takes the container in `apply_spoof`); the
other kinds have no such method to call. Classes whose fields the source assigns are Dafny classes:

- `Parameter.UVParameter`;
- `UVProperties.UVProperty`;
- `UVDataModel.UVData`.

Their methods are proved equal to specification functions, and the
properties are proved about those functions. The loops in the readers are
methods proved against recursive specifications. `uv.py` is Python 2 code,
so its integer `/` is floor division, and `None > 2048` is false. Modules:

- `Wrappers`, `PyValues`, `Forms`;
- `Parameter` and `ParameterProps`;
- `UVSpec`, `UVProperties`, `UVDataModel` and `UVDataProps`;
- `Baselines` and `BaselineProps`;
- `Readers` and `ReaderProps`.

## Model

| member | source | states |
|---|---|---|
| Parameter.UVParameter.constructor | pyuvdata/parameter.py:61-83 | A single tolerance t is stored as (0, t) and a pair unchanged; a required parameter gets no spoof value; form 'str' forces expected_type str; every other attribute is stored as given |
| Parameter.UVParameter.ApplySpoof | pyuvdata/parameter.py:184-186 | The value becomes the spoof value and nothing else changes; a required parameter (no spoof_val attribute) raises AttributeError; an antenna-position parameter, whose override takes two arguments, raises TypeError |
| Parameter.UVParameter.ApplyAntPositionSpoof | pyuvdata/parameter.py:265-275 | The value becomes a float array of zeros of shape (N, 3) for the named sibling's antenna count N; a missing sibling raises AttributeError, a count that is not a non-negative int raises, and on either failure the value is unchanged |
| Parameter.ZeroPositions | pyuvdata/parameter.py:275 | np.zeros((n, 3)) succeeds exactly for a non-negative int n, and is then 3n zeros with shape [n, 3] |
| Parameter.UVParameter.SetDegrees | pyuvdata/parameter.py:293-303 | None clears the value; a number or array is converted to radians; anything else raises TypeError and leaves the value unchanged |
| Parameter.UVParameter.ExpectedShape | pyuvdata/parameter.py:188-216 | The loop that accumulates eshape returns what ExpectedShapeOf gives for the form |
| Forms.ResolveForm | pyuvdata/parameter.py:206-216 | The loop over a tuple form returns exactly the resolved dimensions, or the first failure |
| Forms.ResolveDimsMeaning | pyuvdata/parameter.py:206-216 | A tuple form resolves exactly when every entry does, to a tuple of the same length whose k-th entry is the k-th entry's value; otherwise the failure is that of the first entry that does not resolve |
| Forms.ResolveStep | pyuvdata/parameter.py:207-215 | One iteration: an entry that fails to resolve makes the whole form fail with its error, and one that resolves extends eshape by its value |
| ParameterProps.IntFormShapeMatches | pyuvdata/parameter.py:201-203 | An integer form n gives the shape (n,), which a length-n array matches |
| ParameterProps.ExpectedShapeExamples | pyuvdata/tests/test_parameter.py:144-156 | A fixed entry passes through; a name whose value is None raises; a name with value 10 followed by 3 gives (10, 3) |
| Parameter.UVParameter.CheckAcceptability | pyuvdata/parameter.py:218-254 | The method returns what AcceptabilityOf gives for the parameter's value, expected type, allowed values and range |
| Parameter.AllowedVals | pyuvdata/parameter.py:226-239 | The allowed values are kept as given unless the expected type is str; then they are lower-cased, and a non-string entry raises |
| Parameter.FirstOffender | pyuvdata/parameter.py:240-244 | The index returned is the first element not in the allowed list, or the length when every element is in it |
| ParameterProps.NoAcceptabilityTest | pyuvdata/parameter.py:220-221 | With neither allowed values nor a range the verdict is 'No acceptability check', which passes |
| ParameterProps.ValsWinOverRange | pyuvdata/parameter.py:223-224 | When allowed values are set the range has no effect |
| ParameterProps.ValsAcceptIffEveryElementAllowed | pyuvdata/parameter.py:224-245 | With allowed values the check passes if and only if every element of the value is in the allowed list, both sides lower-cased for str |
| ParameterProps.StringValsIgnoreCase | pyuvdata/parameter.py:226-233 | A string is acceptable if and only if it equals an allowed string up to case |
| ParameterProps.AllowedNamesLowered | pyuvdata/parameter.py:233 | The allowed names ['Alice', 'Eve'] become ['alice', 'eve'] |
| ParameterProps.StringNotAllowed | pyuvdata/tests/test_parameter.py:134-138 | 'Bob' is refused, with 'bob' named as the offending value |
| ParameterProps.StringAllowedIgnoringCase | pyuvdata/tests/test_parameter.py:139-141 | 'EVE' is accepted |
| ParameterProps.RangeAcceptIffMeanInRange | pyuvdata/parameter.py:247-254 | With only a range the check passes if and only if the mean of the absolute values lies in the closed range; an empty array, whose mean is NaN, never passes |
| ParameterProps.AllInRangeMeanInRange | pyuvdata/parameter.py:248-249 | If every element's magnitude is in [lo, hi], so is the mean |
| ParameterProps.MeanNotEveryElement | pyuvdata/parameter.py:248-249 | It is the mean that is tested: [0, 10] passes the range [4, 6] though no element lies in it |
| ParameterProps.NumericAcceptabilityExamples | pyuvdata/tests/test_parameter.py:118-131 | 1000 fails the range (1, 10) and 5 passes it; 5 is not in the allowed list [1, 10] |
| Parameter.ParamEquals | pyuvdata/parameter.py:85-178 | The parameters differ by class exactly when the right one is not an instance of the left one's class; equal parameters have compatible classes and compatible value classes |
| Parameter.ValueEquals | pyuvdata/parameter.py:87-175 | Values differ by class exactly when the left one is not an instance of the right one's class; the only exception raised is the IndexError on the first element of an empty array or list. Ints outside int64/uint64, on which numpy raises TypeError, are compared exactly |
| ParameterProps.BigIntsCompareExactly | pyuvdata/parameter.py:113-159 | When either int is outside int64/uint64, the values (and dict values) are equal exactly when the ints are, and otherwise differ as values numpy cannot cast |
| ParameterProps.BigIntExamples | pyuvdata/parameter.py:113-159 | 10**15 and 10**15 + 1 are close, but 10**20 and 10**20 + 1 differ, both as values and as the values of a dict with case-different keys |
| Parameter.OperatorEquals | pyuvdata/parameter.py:85-94 | Through Python's reflected operator, parameters of different classes compare unequal whichever side holds the subclass; for the same class the result is the left-tolerance value comparison |
| Parameter.DictEquals | pyuvdata/parameter.py:122-159 | Dicts are equal, differ in keys, or differ in values; a key difference means the lower-cased key sets differ; dicts equal after lower-casing their keys are equal |
| ParameterProps.EqualsReflexive | pyuvdata/parameter.py:85-175 | Every non-empty value with non-negative tolerances equals itself |
| ParameterProps.ClassTestIsOneSided | pyuvdata/parameter.py:87 | An angle parameter on the left is unequal to a plain one; a plain one on the left accepts an angle parameter, but the operator asks the subclass first and so reports inequality |
| ParameterProps.ArrayEqualIffElementwiseClose | pyuvdata/parameter.py:95-104 | Two non-empty numeric arrays of the same shape are equal if and only if every element is close |
| ParameterProps.ArrayShapesDiffer | pyuvdata/parameter.py:96-99 | Arrays of different shapes are unequal, reported as a shape difference |
| ParameterProps.EqualityUsesLeftTolerances | pyuvdata/parameter.py:100-101 | The left operand's tolerances decide: 1.0 with atol 0.01 equals 1.001, but 1.001 with the default tolerances does not equal 1.0, so the relation is not symmetric |
| ParameterProps.DefaultToleranceExamples | pyuvdata/tests/test_parameter.py:22-38 | With the default tolerances 1.0 equals 1.000001 but not 1.001; 1 differs from 2; an int differs from an int array |
| ParameterProps.StringEqualityRule | pyuvdata/parameter.py:167-173 | Two string values of a parameter are equal exactly when they agree after strip() or after deleting every space and newline; otherwise the verdict is that the string values differ |
| ParameterProps.SurroundingWhitespaceIgnored | pyuvdata/parameter.py:168 | Any run of leading and trailing whitespace is stripped away, so a string padded with it equals the bare string |
| ParameterProps.InnerSpaceIgnored | pyuvdata/parameter.py:169-170 | Any run of spaces and newlines inserted inside a string is deleted, so the string equals the one without it |
| ParameterProps.StringEqualsSymmetric | pyuvdata/parameter.py:167-173 | String equality is symmetric, whatever the tolerances |
| ParameterProps.DifferentWordsDiffer | pyuvdata/parameter.py:168-173 | Two different strings without whitespace are unequal |
| ParameterProps.StringListsCompareStripped | pyuvdata/parameter.py:162-166 | Non-empty string lists are equal if and only if they have the same length and agree element by element after strip() |
| ParameterProps.LowerKeysCoverKeys | pyuvdata/parameter.py:126-127 | The keys of the lower-cased dict are exactly the lower-cased keys of the dict |
| ParameterProps.DictKeySetsDiffer | pyuvdata/parameter.py:128-131 | Dicts whose lower-cased key sets differ are unequal, reported as a key difference |
| ParameterProps.DictValuesCompared | pyuvdata/parameter.py:133-151 | With the same lower-cased keys, unequal dicts are equal if and only if every value is close under the default tolerances, or equal where np.isclose raises TypeError: None, strings and ints outside int64/uint64 |
| ParameterProps.DictKeysIgnoreCase | pyuvdata/tests/test_parameter.py:69-73 | {'V1': x} equals {'v1': x} |
| ParameterProps.DictExamples | pyuvdata/tests/test_parameter.py:76-94 | A different int value gives a value difference and a different key a key difference |
| ParameterProps.DegreesRoundTrip | pyuvdata/parameter.py:286-303 | Setting an angle in degrees and reading it back in degrees gives the value back, None included |
| UVProperties.UVProperty.constructor | uvdata/uv.py:20-39 | Tolerances are normalised as for parameters; a required property gets no spoof value; form 'str' forces expected type str |
| UVProperties.UVProperty.ExtraKeyword | uvdata/uv.py:128-136 | Only the flag, the spoof value (when not required), the value and the description are set; form, tolerances and sane range are absent |
| UVProperties.UVProperty.ApplySpoof | uvdata/uv.py:85-125 | The value becomes the spoof value; a required property raises AttributeError, and an antenna-position property, whose override needs the container, raises TypeError; both keep the value |
| UVProperties.UVProperty.ApplyAntPositionSpoof | uvdata/uv.py:123-125 | The value becomes zeros of shape (len(antenna_indices), 3); a value without a length raises and leaves it unchanged |
| UVProperties.UVProperty.SetDegrees | uvdata/uv.py:146-150 | The value is set from degrees; a non-number raises and leaves it unchanged |
| UVProperties.UVProperty.ExpectedSize | uvdata/uv.py:88-108 | The method returns ExpectedSizeOf(form): 'str', the bare integer for an integer form, the resolved tuple, a failure for a missing sibling, and AttributeError for an extra keyword |
| UVProperties.UVProperty.SanityCheck | uvdata/uv.py:110-120 | Sane when no range is set, else exactly when the mean magnitude lies in the range; an extra keyword, which has no sane_vals, raises AttributeError |
| UVSpec.Length | uvdata/uv.py:125 | len() of a list is its length and len() of an array is its first dimension |
| UVProperties.UVProperty.CheckOne | uvdata/uv.py:606-650 | One property's tests run in the order unset, size, type, sanity; the result is PropCheck's verdict |
| UVSpec.OldValueEquals | uvdata/uv.py:44-78 | Equal values have the same class; None and dict values and ints outside int64/uint64 never compare equal, since np.isclose raises and the bare except reports inequality |
| UVSpec.OldPropEquals | uvdata/uv.py:41-80 | A right operand that is not an instance of the left one's class is unequal |
| UVDataProps.SelfEqual | uvdata/uv.py:41-78 | A value equals itself exactly when it is set, not a dict and not an int outside int64/uint64; an empty list of strings raises IndexError |
| UVDataProps.BigIntNeverSelfEqual | uvdata/uv.py:60-69 | 10**20 is unequal to itself, while 10**19, which fits uint64, equals itself |
| UVDataProps.StringsEqualUpToNewlines | uvdata/uv.py:70-74 | Strings are equal exactly when they agree after deleting newlines |
| UVDataProps.TrailingNewlineIgnored | uvdata/uv.py:73 | A trailing newline is ignored |
| UVDataProps.ArraysEqualIffShapeAndClose | uvdata/uv.py:47-52 | Arrays are equal exactly when the shapes agree and every element is close |
| UVDataProps.UnsetNeverEqual | uvdata/uv.py:61-69 | An unset (None) value is never equal, even to None |
| UVDataProps.IntAndFloatDiffer | uvdata/uv.py:45-46 | 1 and 1.0 compare unequal in both orders |
| UVDataModel.PropertyNames | uvdata/uv.py:369-378 | An attribute is listed exactly when its name is not a dunder name and it holds a property |
| UVDataModel.RequiredNames | uvdata/uv.py:380-390 | An attribute is listed exactly when it holds a required property |
| UVDataModel.ExtraNames | uvdata/uv.py:392-402 | An attribute is listed exactly when it holds a non-required property |
| UVDataModel.UVData.constructor | uvdata/uv.py:369-371 | The container holds the given attribute names, in dir() order, and their properties |
| UVDataModel.UVData.PropertyIter | uvdata/uv.py:369-378 | The loop yields PropertyNames |
| UVDataModel.UVData.RequiredPropertyIter | uvdata/uv.py:380-390 | The loop yields RequiredNames |
| UVDataModel.UVData.ExtraPropertyIter | uvdata/uv.py:392-402 | The loop yields ExtraNames |
| UVDataProps.IteratorsPartition | uvdata/uv.py:369-402 | The required and extra names are disjoint, together they are the property names, and their counts add up |
| UVDataModel.UVData.Check | uvdata/uv.py:603-652 | The loop over required properties returns CheckSpec's verdict: success, or the first failing property with its failure |
| UVSpec.CheckSpecMeaning | uvdata/uv.py:603-652 | check succeeds if and only if every required property passes; otherwise it names a property that fails, with that failure, and every property before it passes |
| UVSpec.CheckStep | uvdata/uv.py:605-650 | One iteration: a failing property ends check with its failure, and a passing one leaves the rest to decide |
| UVDataProps.SanityOnlyAddsFailures | uvdata/uv.py:648-650 | Passing with sanity tests implies passing without them; a container that fails only with them fails a sanity test |
| UVDataProps.IntFormNeverSized | uvdata/uv.py:613-626 | As written, a set property with an integer form always fails the size test |
| UVDataProps.IntFormCounterexample | uvdata/uv.py:625-626 | A float array of shape (3,) under the form 3 is reported as the wrong size |
| UVDataProps.NbltsSizedArray | uvdata/uv.py:608-626 | A 10-element array of form ('Nblts',) passes when Nblts is 10, raises when Nblts is None, and is the wrong size when Nblts is 9 |
| UVDataProps.EmptyArrayInsane | uvdata/uv.py:110-120 | An empty array is insane under any range (its mean is NaN) and sane without one |
| UVDataProps.InRangeElementsSane | uvdata/uv.py:110-120 | An array whose every magnitude is in the range is sane |
| UVDataModel.UVData.Equals | uvdata/uv.py:404-420 | Another class gives False; otherwise every required property is compared, the result is True exactly when none differs, and the reported names are the ones that differ |
| UVSpec.MismatchesMeaning | uvdata/uv.py:404-417 | Comparing the required properties raises exactly when some comparison raises; otherwise the reported names are exactly the required properties that compare unequal |
| UVSpec.MismatchStep | uvdata/uv.py:408-416 | One iteration: a comparison that raises ends the loop with that error; otherwise the name is reported exactly when the pair differs |
| UVDataProps.ContainersEqualIffPropertiesEqual | uvdata/uv.py:404-417 | No mismatch is reported exactly when every required property compares equal |
| UVDataProps.UnsetPropertyBreaksSelfEquality | uvdata/uv.py:404-417 | A container with an unset required property is not equal to itself, and reports that property |
| Baselines.AntnumsToBaselineWith | uvdata/uv.py:437-456 | Antenna arrays of different lengths raise first; then an antenna number outside int64 raises; then too many antennas raise; asking for the 256 scheme on empty arrays raises, as np.max does; the 256 scheme is used exactly when asked for and every antenna is below 255, and otherwise the 2048 scheme, with a warning when 256 was asked for |
| Baselines.BaselineToAntnums | uvdata/uv.py:425-435 | Too many antennas raise, and only then; an empty array raises next, as np.min does, and only then; the scheme is chosen from the minimum of the whole array: all above 2^16 unpacks every element with the 2048 scheme, otherwise every element with the 256 scheme |
| BaselineProps.Unpack2048Pack | uvdata/uv.py:429-431 | For 0 <= i <= 2046 and 0 <= j < 2^31 the 2048 packing is above 2^16 and unpacks to (i, j) |
| BaselineProps.Unpack256Pack | uvdata/uv.py:432-434 | For i, j < 255 the 256 packing is at most 65535 and unpacks to (i, j) |
| BaselineProps.RoundTrip | uvdata/uv.py:425-456 | Whichever scheme is chosen, baseline_to_antnums recovers the antenna arrays from antnums_to_baseline |
| BaselineProps.PackingInjective | uvdata/uv.py:216-218 | Distinct antenna pairs in range get distinct baselines |
| BaselineProps.LastAntennaMisdecoded | uvdata/uv.py:442-456 | With 2048 antennas the guard passes, yet antenna 2047 packs to 69632, which unpacks as (-1, 1) |
| BaselineProps.CorrectedLimitRoundTrips | uvdata/uv.py:425-456 | With the limit lowered to 2047, every antenna numbering the guard accepts round-trips |
| Baselines.MatchIndices | uvdata/uv.py:948 | np.argwhere: exactly the indices holding the code, in increasing order |
| Baselines.MiriadPolToInd | uvdata/uv.py:944-952 | An unset polarization array raises; otherwise the lookup succeeds exactly when the code occurs once, and returns its index |
| BaselineProps.PolLookupFindsUnique | uvdata/uv.py:944-952 | -7 is found at index 2 of [-5, -6, -7, -8] |
| BaselineProps.PolLookupRefuses | uvdata/uv.py:945-951 | A code held twice or not at all raises, and so does an unset array |
| Readers.KindOf | uvdata/uv.py:735-751 | A data file ends in the data name and a known pol plus '.sav', and a params, flags or settings file ends in its suffix, case ignored |
| Readers.SortFhdFiles | uvdata/uv.py:727-760 | The loop and the checks after it give FhdFileSet: the sorted files with the settings warning, or the first missing kind |
| ReaderProps.PlaceAllKeepsLast | uvdata/uv.py:735-751 | A slot is filled exactly when some file has its kind, and then holds the last such file |
| ReaderProps.SortAllKeepsLast | uvdata/uv.py:735-751 | Each slot holds the last file of its kind, and the data keys are among xx, yy, xy, yx |
| ReaderProps.SomeDataFileKept | uvdata/uv.py:735-754 | Some data file is kept exactly when some file is a data file |
| ReaderProps.FhdFileSetMeaning | uvdata/uv.py:753-760 | No data file raises first; the result succeeds exactly when there are data, params and flags files; it warns exactly when there is no settings file |
| Readers.PolOrderUpTo | uvdata/uv.py:800-806 | At most n codes, each among the first n codes |
| Readers.PolarizationList | uvdata/uv.py:800-806 | The loop builds PolOrder |
| ReaderProps.PolOrderDecreasing | uvdata/uv.py:800-806 | The codes are strictly decreasing: xx, yy, xy, yx order |
| ReaderProps.PolOrderMembers | uvdata/uv.py:800-806 | A code is listed exactly when its polarization is present |
| ReaderProps.PolOrderCount | uvdata/uv.py:800-806 | There are as many codes as present polarizations |
| ReaderProps.PolarizationArrayMatchesData | uvdata/uv.py:795-806 | For polarizations among the four linear ones, the array has Npols entries and lists exactly the present ones |
| ReaderProps.PolarizationLookupSucceeds | uvdata/uv.py:819-820 | Each present polarization's code is found exactly once |
| Readers.Completed | uvdata/uv.py:841-845 | The number of integrations filled before an index goes out of range is at most Ntimes and the length of int_times, and when it falls short of Ntimes the next integration reads past int_times or bin_offset |
| Readers.ExpandTimes | uvdata/uv.py:838-845 | The loop fills a fresh array equal to ExpandUpTo over the integrations it completes, and raises IndexError exactly when it stops before Ntimes |
| ReaderProps.ExpansionCompletesIff | uvdata/uv.py:841-845 | Every integration is expanded exactly when bin_offset and int_times each hold at least Ntimes entries |
| ReaderProps.ExpandUpToRows | uvdata/uv.py:841-845 | After m integrations each row of an earlier integration's slice holds its time, and rows before the first offset are 0 |
| ReaderProps.EachRowGetsItsTime | uvdata/uv.py:838-845 | For ascending offsets every row in integration ii's slice holds int_times[ii], and rows before the first offset stay 0 |
| Readers.BuildGrid | uvdata/uv.py:1064-1076 | The nested loops build the three grids holding exactly Grid(times, ant_i, ant_j) |
| Readers.AppendRow | uvdata/uv.py:1068-1072 | The middle loop appends one time's whole block, Row(t, ant_i, ant_j), to the lists built so far |
| Readers.AppendPairs | uvdata/uv.py:1069-1072 | The innermost loop appends one (t, ant_i, ant_j) cell per ant_j |
| ReaderProps.RowShape | uvdata/uv.py:1068-1072 | One time's block has |ant_i| * |ant_j| cells, in ant_i-major order |
| ReaderProps.GridLength | uvdata/uv.py:1064-1078 | Nblts is |times| * |ant_i| * |ant_j| |
| ReaderProps.GridCell | uvdata/uv.py:1067-1072 | The cell at index a*I*J + b*J + c is (times[a], ant_i[b], ant_j[c]) |
| ReaderProps.GridShape | uvdata/uv.py:1064-1079 | The grid's length and the cell at every index |
| ReaderProps.RowMembers | uvdata/uv.py:1068-1072 | Every cell of one block carries its time and listed antennas |
| ReaderProps.GridMembers | uvdata/uv.py:1067-1072 | Every cell carries a listed time and listed antennas |
| BaselineProps.LimitsAgree | uvdata/uv.py:442-456 | With at most 2047 antennas (or no count) the limit as written and the corrected limit give the same result |
| ReaderProps.GridBaselinesRoundTrip | uvdata/uv.py:1064-1085 | With at most 2047 antennas, the grid's antenna pairs pack, through `antnums_to_baseline` as written, into baselines that unpack to the grid's ant_1 and ant_2 arrays |

## Left out

- Printed diagnostics and warnings: equality verdicts name the reason instead of printing it. The two warnings that matter (a missing FHD settings file, a refused 256 scheme) are returned as flags.
- `UnitParameter` (astropy units) and `LocationParameter` (lat/lon/alt conversion and a square-root magnitude test) are not part of this model.
- Geometry (`set_LatLonAlt_from_XYZ`, `set_XYZ_from_LatLonAlt`) and astronomy (`set_lsts_from_time_array`, `phase`, `juldate2ephem`) depend on external libraries and floating point.
- File reading and writing: `readsav`, the miriad and uvfits readers and writers, `read`/`write` delegation, the uvh5 engine and `mmode.py`. Only the in-memory helpers of the FHD and miriad readers are modelled. Their inputs are the file list, the set of polarizations with data, `bin_offset` and the integration times, and the time and antenna lists.
- Floating point: numbers are exact reals, pi is a constant, and NaN appears only as the mean of an empty array. Rounding in the degree conversions is not modelled. Ints that numpy stores natively are compared as exact reals, without their conversion to float64 inside `np.isclose`.
- `dir()` order: the container's attribute names are an input. Non-property attributes and callables are assumed already excluded from the property map.
- Dict values are scalars. `LowerKeys` resolves keys that collide after lower-casing by entry order, not by Python 2 dict order.
- Readers.SortFhdFiles: the unused locals `xx_datafile` and the like are not modelled.
- Readers.BuildGrid: `times`, `ant_i_unique` and `ant_j_unique` are inputs; the sets and sorting that produce them from the data are not modelled. `Nbls = len(np.unique(...))` is not modelled.
- Baselines.BaselineToAntnums: baselines are unbounded integers. The int64 wrap-around of intermediate values is not modelled; only the final int32 cast wraps.
- Baselines.AntnumsToBaselineWith: scalar inputs are modelled as one-element arrays.
- Baselines.MiriadPolToInd: returns the index itself rather than the 1×1 array `np.argwhere` returns.
- Parameter.UVParameter.Degrees and UVProperties.UVProperty.Degrees have no contract of their own; they are covered through DegreesRoundTrip.
- Strings are ASCII for case and whitespace: `Lower` folds only A-Z and `IsSpace` knows only ASCII whitespace, so Unicode `lower()` and `strip()` (for example on 'Ä' or a no-break space) are not modelled.
- Complex arrays carry real elements: the complex modulus in `np.allclose` and `np.abs` (uvdata/uv.py:808-810) and the imaginary part of a mean are not modelled.
- Numpy arrays of strings and lists of numbers are not values of the model: string lists are plain lists, and numeric arrays are numpy arrays, so the list-versus-array branches that would take them (pyuvdata/parameter.py:95, 109-117, 162-166) are modelled only for those forms.
- Parameter.FirstOffender: names the first offending element in list order, whereas the source iterates a set in hash order; which element is named may differ, the verdict does not.
- The tuple-of-arrays case of shape comparison (numpy comparing a tuple of arrays element-wise) is not modelled: dimensions are ints or floats.

## Findings

| source | as written | input that shows it | evidently intended | confidence | as-written member | corrected member |
|---|---|---|---|---|---|---|
| uvdata/uv.py:613-626 | `expected_size` returns the bare integer `n` for an integer form, and `check` compares it with the tuple `np.shape(value)` | a required float array of shape (3,) with form 3: `(3,) == 3` is False, so `check` raises "is not expected size" | the one-dimensional shape `(n,)`, as `expected_shape` at pyuvdata/parameter.py:201-203 returns | not executed | UVDataProps.IntFormCounterexample | ParameterProps.IntFormShapeMatches |
| uvdata/uv.py:442-456 | the guards refuse only `Nants_telescope > 2048`, but the 2048 packing needs `i + 1 < 2048` | Nants_telescope = 2048 with antenna pair (2047, 0): `antnums_to_baseline` gives 69632, which `baseline_to_antnums` unpacks as (-1, 1) | refuse more than 2047 antennas, so that every accepted antenna numbering round-trips | not executed | BaselineProps.LastAntennaMisdecoded | BaselineProps.CorrectedLimitRoundTrips |
