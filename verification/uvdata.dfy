/**
 * The earlier container: `UVProperty` (a value with a form, an expected type,
 * sane values and tolerances) and `UVData`, whose attributes are properties,
 * with its property iterators, its required-only equality and its validation.
 */
module UVDataModel {
  import opened Wrappers
  import opened PyValues
  import opened Forms
  import opened UVSpec
  import opened UVProperties

  // ---------------------------------------------------------------- property iterators

  predicate IsDunder(a: string) {
    |a| >= 2 && a[..2] == "__"
  }

  /** The attribute names that `property_iter` keeps: not dunder names, and holding a property. */
  function PropertyNames(attrs: seq<string>, props: map<string, UVProperty>): (r: seq<string>)
    ensures forall a :: a in r <==> a in attrs && !IsDunder(a) && a in props
    ensures |r| <= |attrs|
  {
    if attrs == [] then []
    else
      var last := attrs[|attrs| - 1];
      assert forall a :: a in attrs <==> a in attrs[..|attrs| - 1] || a == last;
      PropertyNames(attrs[..|attrs| - 1], props) + (if !IsDunder(last) && last in props then [last] else [])
  }

  /** The names `required_property_iter` yields. */
  function RequiredNames(attrs: seq<string>, props: map<string, UVProperty>): (r: seq<string>)
    ensures forall a :: a in r <==> a in attrs && !IsDunder(a) && a in props && props[a].required
  {
    if attrs == [] then []
    else
      var last := attrs[|attrs| - 1];
      assert forall a :: a in attrs <==> a in attrs[..|attrs| - 1] || a == last;
      RequiredNames(attrs[..|attrs| - 1], props)
        + (if !IsDunder(last) && last in props && props[last].required then [last] else [])
  }

  /** The names `extra_property_iter` yields. */
  function ExtraNames(attrs: seq<string>, props: map<string, UVProperty>): (r: seq<string>)
    ensures forall a :: a in r <==> a in attrs && !IsDunder(a) && a in props && !props[a].required
  {
    if attrs == [] then []
    else
      var last := attrs[|attrs| - 1];
      assert forall a :: a in attrs <==> a in attrs[..|attrs| - 1] || a == last;
      ExtraNames(attrs[..|attrs| - 1], props)
        + (if !IsDunder(last) && last in props && !props[last].required then [last] else [])
  }

  // ---------------------------------------------------------------- the objects

  datatype Operand = SameClass(d: UVData) | OtherClass

  class UVData {
    /** The names `dir(self)` lists, in its (sorted) order. */
    const attrs: seq<string>
    /** The attributes that hold properties. */
    const props: map<string, UVProperty>

    constructor (attrs: seq<string>, props: map<string, UVProperty>)
      ensures this.attrs == attrs && this.props == props
    {
      this.attrs := attrs;
      this.props := props;
    }

    /** The value of each property, as `getattr(self, p).value` reads it. */
    function Siblings(): map<string, Value>
      reads props.Values
    {
      map n | n in props :: props[n].value
    }

    function States(): map<string, PropState>
      reads props.Values
    {
      map n | n in props :: props[n].State()
    }

    /** `property_iter()`. */
    method PropertyIter() returns (names: seq<string>)
      ensures names == PropertyNames(attrs, props)
    {
      names := [];
      var k := 0;
      while k < |attrs|
        invariant 0 <= k <= |attrs|
        invariant names == PropertyNames(attrs[..k], props)
      {
        assert attrs[..k + 1][..k] == attrs[..k];
        var a := attrs[k];
        if !IsDunder(a) && a in props {
          names := names + [a];
        }
        k := k + 1;
      }
      assert attrs[..k] == attrs;
    }

    /** `required_property_iter()`. */
    method RequiredPropertyIter() returns (names: seq<string>)
      ensures names == RequiredNames(attrs, props)
    {
      names := [];
      var k := 0;
      while k < |attrs|
        invariant 0 <= k <= |attrs|
        invariant names == RequiredNames(attrs[..k], props)
      {
        assert attrs[..k + 1][..k] == attrs[..k];
        var a := attrs[k];
        if !IsDunder(a) && a in props && props[a].required {
          names := names + [a];
        }
        k := k + 1;
      }
      assert attrs[..k] == attrs;
    }

    /** `extra_property_iter()`. */
    method ExtraPropertyIter() returns (names: seq<string>)
      ensures names == ExtraNames(attrs, props)
    {
      names := [];
      var k := 0;
      while k < |attrs|
        invariant 0 <= k <= |attrs|
        invariant names == ExtraNames(attrs[..k], props)
      {
        assert attrs[..k + 1][..k] == attrs[..k];
        var a := attrs[k];
        if !IsDunder(a) && a in props && !props[a].required {
          names := names + [a];
        }
        k := k + 1;
      }
      assert attrs[..k] == attrs;
    }

    /**
     * `check(run_sanity_check)`: every required property, in iteration
     * order, is set, has its expected size and type and, when asked, sane
     * values; the first one that does not raises, naming the property.
     */
    method Check(runSanity: bool) returns (r: Result<(), (string, CheckError)>)
      ensures r == CheckSpec(RequiredNames(attrs, props), States(), Siblings(), runSanity)
    {
      var names := RequiredPropertyIter();
      var siblings := Siblings();
      var states := States();
      var k := 0;
      assert names[0..] == names;
      while k < |names|
        invariant 0 <= k <= |names|
        invariant CheckSpec(names, states, siblings, runSanity) == CheckSpec(names[k..], states, siblings, runSanity)
      {
        CheckStep(names, k, states, siblings, runSanity);
        var p := names[k];
        if p !in props {
          return Failure((p, Raised(AttrErr(p))));
        }
        assert states[p] == props[p].State();
        var err := props[p].CheckOne(siblings, runSanity);
        if err.Some? {
          return Failure((p, err.value));
        }
        k := k + 1;
      }
      assert names[k..] == [];
      return Success(());
    }

    /**
     * `self == other`: compares the required properties only, visiting every
     * one of them; `reported` lists those that differ, as the diagnostics do.
     */
    method Equals(other: Operand) returns (r: Result<bool, Raised>, reported: seq<string>)
      ensures other.OtherClass? ==> r == Success(false) && reported == []
      ensures other.SameClass? && MismatchesOf(RequiredNames(attrs, props), States(), other.d.States()).Success? ==>
        var ms := MismatchesOf(RequiredNames(attrs, props), States(), other.d.States()).value;
        r == Success(ms == []) && reported == ms
      ensures other.SameClass? && MismatchesOf(RequiredNames(attrs, props), States(), other.d.States()).Failure? ==>
        r == Failure(MismatchesOf(RequiredNames(attrs, props), States(), other.d.States()).error)
    {
      reported := [];
      if other.OtherClass? {
        return Success(false), reported;
      }
      var names := RequiredPropertyIter();
      var mine := States();
      var theirs := other.d.States();
      var k := 0;
      assert names[0..] == names;
      assert PrependNames([], MismatchesOf(names, mine, theirs)) == MismatchesOf(names, mine, theirs) by {
        match MismatchesOf(names, mine, theirs)
        case Success(ms) => assert [] + ms == ms;
        case Failure(_) =>
      }
      while k < |names|
        invariant 0 <= k <= |names|
        invariant MismatchesOf(names, mine, theirs) == PrependNames(reported, MismatchesOf(names[k..], mine, theirs))
      {
        MismatchStep(names, k, reported, mine, theirs);
        var p := names[k];
        if p !in props || p !in other.d.props {
          return Failure(AttrErr(p)), reported;
        }
        assert mine[p] == props[p].State() && theirs[p] == other.d.props[p].State();
        var same := props[p].Eq(other.d.props[p]);
        assert same == PairEquals(p, mine, theirs);
        if same.Failure? {
          return Failure(same.error), reported;
        }
        assert reported + [] == reported;
        if !same.value {
          reported := reported + [p];
        }
        k := k + 1;
      }
      assert names[k..] == [];
      assert reported + [] == reported;
      return Success(reported == []), reported;
    }
  }
}
