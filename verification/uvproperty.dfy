/**
 * One property of the earlier container: a value together with its form,
 * expected type, sane range and tolerances, and the subclasses for antenna
 * positions, extra keywords and angles.
 */
module UVProperties {
  import opened Wrappers
  import opened PyValues
  import opened Forms
  import opened UVSpec

  class UVProperty {
    const kind: PropKind
    const required: bool
    /** `None` when the attribute is never set, as for required properties. */
    const spoofVal: Option<Value>
    /** `None` for extra-keyword properties, whose constructor never sets `form`. */
    const form: Option<Form>
    const description: string
    /** Only read after `form`, so never read on an extra-keyword property. */
    const expectedType: PyType
    const saneVals: Option<(real, real)>
    /** (relative, absolute) tolerances for `np.isclose`; `None` for extra-keyword properties. */
    const tols: Option<(real, real)>
    var value: Value

    /** `UVProperty.__init__`, also used by the antenna-position and angle subclasses. */
    constructor (kind: PropKind, required: bool, value: Value, spoofVal: Value, form: Form,
                 description: string, expectedType: PyType, saneVals: Option<(real, real)>, tols: TolsArg)
      requires kind != ExtraKeywordProp
      ensures this.kind == kind && this.required == required && this.value == value
      ensures this.form == Some(form) && this.description == description && this.saneVals == saneVals
      ensures required ==> this.spoofVal.None?
      ensures !required ==> this.spoofVal == Some(spoofVal)
      ensures form == StrForm ==> this.expectedType == Only(StrT)
      ensures form != StrForm ==> this.expectedType == expectedType
      ensures tols.SingleTol? ==> this.tols == Some((0.0, tols.t))
      ensures tols.TolPair? ==> this.tols == Some((tols.rtol, tols.atol))
    {
      this.kind := kind;
      this.required := required;
      this.spoofVal := if required then None else Some(spoofVal);
      this.value := value;
      this.description := description;
      this.form := Some(form);
      this.expectedType := if form == StrForm then Only(StrT) else expectedType;
      this.saneVals := saneVals;
      this.tols := match tols
        case SingleTol(t) => Some((0.0, t))
        case TolPair(r, a) => Some((r, a));
    }

    /** `ExtraKeywordUVProperty.__init__`: sets only the flag, the spoof value, the value and the description. */
    constructor ExtraKeyword(required: bool, value: Value, spoofVal: Value, description: string)
      ensures this.kind == ExtraKeywordProp && this.required == required && this.value == value
      ensures this.description == description && this.form.None? && this.tols.None? && this.saneVals.None?
      ensures required ==> this.spoofVal.None?
      ensures !required ==> this.spoofVal == Some(spoofVal)
    {
      this.kind := ExtraKeywordProp;
      this.required := required;
      this.spoofVal := if required then None else Some(spoofVal);
      this.value := value;
      this.description := description;
      this.form := None;
      this.expectedType := Only(DictT);
      this.saneVals := None;
      this.tols := None;
    }

    function State(): PropState
      reads this
    {
      PropState(kind, required, form, expectedType, saneVals, tols, value)
    }

    /** `self == other`. */
    function Eq(other: UVProperty): Result<bool, Raised>
      reads this, other
    {
      OldPropEquals(kind, value, tols, other.kind, other.value)
    }

    /**
     * `apply_spoof()`: the value becomes the spoof value, which required
     * properties lack. `AntPositionUVProperty` overrides it with a method
     * that needs the container, so a call without one raises TypeError.
     */
    method ApplySpoof() returns (r: Result<(), Raised>)
      modifies this
      ensures kind == AntPositionProp ==> r == Failure(TypeErr) && value == old(value)
      ensures kind != AntPositionProp && spoofVal.None? ==> r == Failure(AttrErr("spoof_val")) && value == old(value)
      ensures kind != AntPositionProp && spoofVal.Some? ==> r == Success(()) && value == spoofVal.value
    {
      if kind == AntPositionProp {
        return Failure(TypeErr);
      }
      if spoofVal.None? {
        return Failure(AttrErr("spoof_val"));
      }
      value := spoofVal.value;
      return Success(());
    }

    /**
     * `AntPositionUVProperty.apply_spoof(uvdata)`: zeros of shape
     * (len(antenna_indices), 3), given the value of the container's
     * `antenna_indices` property.
     */
    method ApplyAntPositionSpoof(antennaIndices: Value) returns (r: Result<(), Raised>)
      requires kind == AntPositionProp
      modifies this
      ensures Length(antennaIndices).Failure? ==> r == Failure(Length(antennaIndices).error) && value == old(value)
      ensures Length(antennaIndices).Success? ==>
        && r == Success(())
        && value.VArr? && value.dtype == FloatDT && value.shape == [Length(antennaIndices).value, 3]
        && |value.elems| == 3 * Length(antennaIndices).value
        && forall k :: 0 <= k < |value.elems| ==> value.elems[k] == 0.0
    {
      var n := Length(antennaIndices);
      if n.Failure? {
        return Failure(n.error);
      }
      value := VArr(FloatDT, [n.value, 3], seq(3 * n.value, _ => 0.0));
      return Success(());
    }

    /** `AngleUVProperty.degrees()`. */
    function Degrees(): Result<Value, Raised>
      requires kind == AngleProp
      reads this
    {
      ToDegrees(value)
    }

    /** `AngleUVProperty.set_degrees(degree_val)`: None clears the value. */
    method SetDegrees(degreeVal: Value) returns (r: Result<(), Raised>)
      requires kind == AngleProp
      modifies this
      ensures degreeVal == VNone ==> r == Success(()) && value == VNone
      ensures FromDegrees(degreeVal).Success? ==> r == Success(()) && value == FromDegrees(degreeVal).value
      ensures FromDegrees(degreeVal).Failure? ==> r == Failure(TypeErr) && value == old(value)
    {
      if degreeVal == VNone {
        value := VNone;
        return Success(());
      }
      var converted := FromDegrees(degreeVal);
      if converted.Failure? {
        return Failure(converted.error);
      }
      value := converted.value;
      return Success(());
    }

    /** `expected_size(dataobj)`, where `siblings` holds the value of each property of the container. */
    method ExpectedSize(siblings: map<string, Value>) returns (r: Result<Size, Raised>)
      ensures r == ExpectedSizeOf(form, siblings)
    {
      match form
      case None =>
        return Failure(AttrErr("form"));
      case Some(StrForm) =>
        return Success(SizeStr);
      case Some(IntForm(n)) =>
        return Success(SizeInt(n));
      case Some(TupleForm(es)) =>
        var dims := ResolveForm(es, siblings);
        if dims.Failure? {
          return Failure(dims.error);
        }
        return Success(SizeDims(dims.value));
    }

    /**
     * The tests `UVData.check` applies to this property, given the values
     * of the container's properties: set, of the expected size, of the
     * expected type (judged on the first element of a list or array) and,
     * when asked, sane. The first failing test is reported.
     */
    method CheckOne(siblings: map<string, Value>, runSanity: bool) returns (err: Option<CheckError>)
      ensures err == PropCheck(State(), siblings, runSanity)
    {
      if value == VNone {
        return Some(NotSet);
      }
      var esize := ExpectedSize(siblings);
      if esize.Failure? {
        return Some(Raised(esize.error));
      }
      err := SizeError(value, expectedType, esize.value);
      if err.Some? {
        return;
      }
      if runSanity {
        var sane := SanityCheck();
        if sane.Failure? {
          return Some(Raised(sane.error));
        }
        if !sane.value {
          return Some(Insane);
        }
      }
      return None;
    }

    /** `sanity_check()`: an extra-keyword property has no `sane_vals` attribute to read. */
    method SanityCheck() returns (r: Result<bool, Raised>)
      ensures kind == ExtraKeywordProp ==> r == Failure(AttrErr("sane_vals"))
      ensures kind != ExtraKeywordProp ==> r == SanityOf(value, saneVals)
    {
      if kind == ExtraKeywordProp {
        return Failure(AttrErr("sane_vals"));
      }
      if saneVals.None? {
        return Success(true);
      }
      var testval := MeanAbs(value);
      if testval.Failure? {
        return Failure(testval.error);
      }
      return Success(testval.value.Some? && saneVals.value.0 <= testval.value.value <= saneVals.value.1);
    }
  }
}
