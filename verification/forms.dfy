/**
 * A parameter's `form`: the literal tag 'str', a fixed size, or a tuple whose
 * entries are fixed sizes or names of sibling parameters whose values give the
 * size of that dimension. Both generations of the parameter model resolve a
 * tuple form the same way, left to right, raising at the first name that
 * cannot be resolved.
 */
module Forms {
  import opened Wrappers
  import opened PyValues

  datatype FormElem = Fixed(n: int) | Ref(name: string)

  datatype Form = StrForm | IntForm(n: int) | TupleForm(elems: seq<FormElem>)

  /**
   * One entry of a tuple form. `siblings` maps each attribute name of the
   * owning object to the value it exposes; a name it lacks raises
   * AttributeError, and a name whose value is None raises ValueError.
   */
  function ResolveElem(e: FormElem, siblings: map<string, Value>): Result<Value, Raised> {
    match e
    case Fixed(n) => Success(VInt(n))
    case Ref(p) =>
      if p !in siblings then Failure(AttrErr(p))
      else if siblings[p] == VNone then Failure(MissingShapeParam(p))
      else Success(siblings[p])
  }

  /** The expected dimensions of a tuple form, or the first failure met while resolving it. */
  function ResolveDims(es: seq<FormElem>, siblings: map<string, Value>): Result<seq<Value>, Raised> {
    if es == [] then Success([])
    else
      match ResolveElem(es[0], siblings)
      case Failure(e) => Failure(e)
      case Success(v) =>
        match ResolveDims(es[1..], siblings)
        case Failure(e) => Failure(e)
        case Success(d) => Success([v] + d)
  }

  /**
   * A tuple form resolves exactly when each entry does, to the entries'
   * values in order; otherwise it fails with the failure of its first
   * unresolvable entry.
   */
  lemma {:induction false} ResolveDimsMeaning(es: seq<FormElem>, siblings: map<string, Value>)
    ensures ResolveDims(es, siblings).Success? <==> forall k :: 0 <= k < |es| ==> ResolveElem(es[k], siblings).Success?
    ensures ResolveDims(es, siblings).Success? ==>
      && |ResolveDims(es, siblings).value| == |es|
      && forall k :: 0 <= k < |es| ==> ResolveDims(es, siblings).value[k] == ResolveElem(es[k], siblings).value
    ensures ResolveDims(es, siblings).Failure? ==> exists k ::
      && 0 <= k < |es| && ResolveElem(es[k], siblings) == Failure(ResolveDims(es, siblings).error)
      && forall m :: 0 <= m < k ==> ResolveElem(es[m], siblings).Success?
  {
    if es != [] {
      ResolveDimsMeaning(es[1..], siblings);
      var r := ResolveDims(es, siblings);
      var rest := ResolveDims(es[1..], siblings);
      if ResolveElem(es[0], siblings).Success? && rest.Failure? {
        var k :| 0 <= k < |es[1..]| && ResolveElem(es[1..][k], siblings) == Failure(rest.error)
          && forall m :: 0 <= m < k ==> ResolveElem(es[1..][m], siblings).Success?;
        assert ResolveElem(es[k + 1], siblings) == Failure(r.error);
      }
      if r.Success? {
        assert forall k :: 1 <= k < |es| ==> es[k] == es[1..][k - 1];
      }
      if !r.Success? {
        assert !(forall k :: 0 <= k < |es| ==> ResolveElem(es[k], siblings).Success?) by {
          if ResolveElem(es[0], siblings).Success? {
            var k :| 0 <= k < |es[1..]| && ResolveElem(es[1..][k], siblings).Failure?;
            assert ResolveElem(es[k + 1], siblings).Failure?;
          }
        }
      }
    }
  }

  /** `prefix` followed by the dimensions `rest` resolved to, or `rest`'s failure. */
  function Prepend(prefix: seq<Value>, rest: Result<seq<Value>, Raised>): Result<seq<Value>, Raised> {
    match rest
    case Success(d) => Success(prefix + d)
    case Failure(e) => Failure(e)
  }

  /**
   * The invariant of the left-to-right resolution loops: having resolved the
   * first `k` entries to `eshape`, the whole form resolves as the rest does,
   * after `eshape`.
   */
  lemma {:induction false} ResolveStep(es: seq<FormElem>, k: nat, eshape: seq<Value>, siblings: map<string, Value>)
    requires k < |es|
    requires ResolveDims(es, siblings) == Prepend(eshape, ResolveDims(es[k..], siblings))
    ensures ResolveElem(es[k], siblings).Failure? ==>
      ResolveDims(es, siblings) == Failure(ResolveElem(es[k], siblings).error)
    ensures ResolveElem(es[k], siblings).Success? ==>
      ResolveDims(es, siblings)
        == Prepend(eshape + [ResolveElem(es[k], siblings).value], ResolveDims(es[k + 1..], siblings))
  {
    assert es[k..][0] == es[k];
    assert es[k..][1..] == es[k + 1..];
    match ResolveElem(es[k], siblings)
    case Failure(e) =>
    case Success(v) =>
      match ResolveDims(es[k + 1..], siblings)
      case Failure(e) =>
      case Success(d) =>
        assert eshape + ([v] + d) == (eshape + [v]) + d;
  }

  /**
   * The loop both generations of `expected_shape` / `expected_size` run over
   * a tuple form: fixed entries are taken as they are, names are looked up
   * among `siblings`, and the first unresolvable name raises.
   */
  method ResolveForm(es: seq<FormElem>, siblings: map<string, Value>) returns (r: Result<seq<Value>, Raised>)
    ensures r == ResolveDims(es, siblings)
  {
    var eshape: seq<Value> := [];
    var k := 0;
    assert es[0..] == es;
    assert Prepend([], ResolveDims(es, siblings)) == ResolveDims(es, siblings) by {
      match ResolveDims(es, siblings)
      case Success(d) => assert [] + d == d;
      case Failure(_) =>
    }
    while k < |es|
      invariant 0 <= k <= |es|
      invariant ResolveDims(es, siblings) == Prepend(eshape, ResolveDims(es[k..], siblings))
    {
      ResolveStep(es, k, eshape, siblings);
      var p := es[k];
      if p.Fixed? {
        eshape := eshape + [VInt(p.n)];
      } else {
        if p.name !in siblings {
          return Failure(AttrErr(p.name));
        }
        var val := siblings[p.name];
        if val == VNone {
          return Failure(MissingShapeParam(p.name));
        }
        eshape := eshape + [val];
      }
      k := k + 1;
    }
    assert es[k..] == [];
    assert eshape + [] == eshape;
    return Success(eshape);
  }
}
