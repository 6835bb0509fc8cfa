/** PLumi in parton/pdf.py: the parton luminosity of two flavours at a fixed
    scale, from xfxQ2 sampled on a logarithmic x grid, with one cached
    interpolator per ordered pair of flavours. */
module Lumi {
  import opened Base
  import opened Broadcast
  import Spline
  import Grid
  import Pdf

  /** PLumi.N: the number of sample points in x. */
  const N: nat := 1000

  /** [np.min(v.x) for v in pdfgrids]: each subgrid's smallest x node, or
      EmptyArray (NumPy's ValueError) for a subgrid with no x node. */
  function GridMins(grids: seq<Grid.GridData>): (r: Result<seq<real>>)
    ensures r.Ok? <==> forall i :: 0 <= i < |grids| ==> |grids[i].x| > 0
    ensures r.Ok? ==> |r.value| == |grids|
                      && forall i :: 0 <= i < |grids| ==> r.value[i] == Spline.SeqMin(grids[i].x)
    ensures r.Err? ==> r.error == EmptyArray
  {
    if grids == [] then Ok([])
    else if |grids[0].x| == 0 then Err(EmptyArray)
    else
      match GridMins(grids[1..])
      case Err(e) =>
        assert exists i :: 1 <= i < |grids| && |grids[i].x| == 0 by {
          var j :| 0 <= j < |grids[1..]| && |grids[1..][j].x| == 0;
          assert grids[j + 1] == grids[1..][j];
        }
        Err(e)
      case Ok(ms) =>
        assert forall i :: 1 <= i < |grids| ==> grids[i] == grids[1..][i - 1];
        Ok([Spline.SeqMin(grids[0].x)] + ms)
  }

  /** PLumi.x_min: the smallest x node over all subgrids. */
  function XMin(grids: seq<Grid.GridData>): (r: Result<real>)
    ensures r.Ok? <==> |grids| > 0 && forall i :: 0 <= i < |grids| ==> |grids[i].x| > 0
    ensures r.Err? ==> r.error == EmptyArray
    ensures r.Ok? ==> forall i, j :: 0 <= i < |grids| && 0 <= j < |grids[i].x| ==> r.value <= grids[i].x[j]
    ensures r.Ok? ==> exists i, j :: 0 <= i < |grids| && 0 <= j < |grids[i].x| && r.value == grids[i].x[j]
  {
    match GridMins(grids)
    case Err(e) => Err(e)
    case Ok(ms) =>
      if ms == [] then Err(EmptyArray)
      else
        var m := Spline.SeqMin(ms);
        assert forall i, j :: 0 <= i < |grids| && 0 <= j < |grids[i].x| ==> m <= grids[i].x[j] by {
          forall i, j | 0 <= i < |grids| && 0 <= j < |grids[i].x|
            ensures m <= grids[i].x[j]
          {
            assert m <= ms[i];
          }
        }
        assert exists i, j :: 0 <= i < |grids| && 0 <= j < |grids[i].x| && m == grids[i].x[j] by {
          var i :| 0 <= i < |ms| && ms[i] == m;
          var j :| 0 <= j < |grids[i].x| && grids[i].x[j] == Spline.SeqMin(grids[i].x);
        }
        Ok(m)
  }

  /** np.logspace(np.log10(x_min), 0, num=N): the sample points in x. */
  function Samples(num: Numerics, xMin: real): (r: seq<real>)
    ensures |r| == N
    ensures forall k :: 0 <= k < N ==> r[k] == num.logspace(xMin, N, k)
  {
    seq(N, k requires 0 <= k < N => num.logspace(xMin, N, k))
  }

  /** The xfxQ2 series of flavour p at the sample points: a grid query of
      the scalar flavour, the N samples and the scalar Q2, raveled. */
  function Series(num: Numerics, grids: seq<Grid.GridData>, q2: real, xMin: real, p: int): (r: Result<seq<Num>>)
    ensures r.Ok? <==> Pdf.Query(num, grids, Scalar(p), Vector(Samples(num, xMin)), Scalar(q2), true).Ok?
    ensures r.Ok? ==> |r.value| == N
  {
    var xs := Samples(num, xMin);
    assert Size(S2(N, 1)) == N;
    match Pdf.Query(num, grids, Scalar(p), Vector(xs), Scalar(q2), true)
    case Err(e) => Err(e)
    case Ok(v) => Ok(Pdf.Ravel(v))
  }

  /** PLumi._interpolator: the luminosity curve of flavours p1 and p2, in
      ln t, from the two sampled series. */
  function LumiCurve(num: Numerics, grids: seq<Grid.GridData>, q2: real, xMin: real, p1: int, p2: int): (r: Result<Curve>)
    ensures r.Ok? <==> Series(num, grids, q2, xMin, p1).Ok? && Series(num, grids, q2, xMin, p2).Ok?
    ensures Series(num, grids, q2, xMin, p1).Err? ==> r == Err(Series(num, grids, q2, xMin, p1).error)
    ensures r.Ok? ==> r.value == num.lumi(xMin, N, Samples(num, xMin),
                                          Series(num, grids, q2, xMin, p1).value,
                                          Series(num, grids, q2, xMin, p2).value)
  {
    match Series(num, grids, q2, xMin, p1)
    case Err(e) => Err(e)
    case Ok(f1) =>
      match Series(num, grids, q2, xMin, p2)
      case Err(e) => Err(e)
      case Ok(f2) => Ok(num.lumi(xMin, N, Samples(num, xMin), f1, f2))
  }

  /** The second flavour is sampled after the first: when the first
      series exists and the second fails, the second one's error is the
      result. */
  lemma LumiCurveSecondError(num: Numerics, grids: seq<Grid.GridData>, q2: real, xMin: real, p1: int, p2: int)
    requires Series(num, grids, q2, xMin, p1).Ok? && Series(num, grids, q2, xMin, p2).Err?
    ensures LumiCurve(num, grids, q2, xMin, p1, p2) == Err(Series(num, grids, q2, xMin, p2).error)
  {
  }

  /** PLumi.L: the luminosity curve at ln t. */
  function Luminosity(num: Numerics, grids: seq<Grid.GridData>, q2: real, xMin: real, p1: int, p2: int, t: real)
    : (r: Result<Num>)
    ensures r.Ok? <==> LumiCurve(num, grids, q2, xMin, p1, p2).Ok?
    ensures r.Ok? ==> r.value == LumiCurve(num, grids, q2, xMin, p1, p2).value(num.ln(t))
  {
    match LumiCurve(num, grids, q2, xMin, p1, p2)
    case Err(e) => Err(e)
    case Ok(c) => Ok(c(num.ln(t)))
  }

  /** When every subgrid answers for both flavours, the series handed to
      the convolution hold, at each sample point, the value of the first
      subgrid covering it, or NaN when none does. */
  lemma SeriesFirstMatch(num: Numerics, grids: seq<Grid.GridData>, q2: real, xMin: real, p: int, k: nat)
    requires Pdf.AllOk(num, grids, Scalar(p), Vector(Samples(num, xMin)), Scalar(q2), true)
    requires k < N
    ensures Series(num, grids, q2, xMin, p).Ok?
    ensures Series(num, grids, q2, xMin, p).value[k]
            == Pdf.FirstValue(num, grids, Scalar(p), Vector(Samples(num, xMin)), Scalar(q2), true, S2(N, 1), k)
  {
    var xs := Samples(num, xMin);
    assert Elements(Vector(xs)) == xs && Elements(Scalar(q2)) == [q2];
    assert Pdf.ResultShape(Scalar(p), Vector(xs), Scalar(q2), true) == Ok(S2(N, 1));
    assert Size(S2(N, 1)) == N;
    Pdf.FirstMatch(num, grids, Scalar(p), Vector(xs), Scalar(q2), true, k);
  }

  /** The series of flavour p from the subgrids themselves: at each sample
      point, the value of the first subgrid covering it, or NaN. */
  function Covering(num: Numerics, grids: seq<Grid.GridData>, q2: real, xMin: real, p: int): (r: seq<Num>)
    requires Pdf.AllOk(num, grids, Scalar(p), Vector(Samples(num, xMin)), Scalar(q2), true)
    ensures |r| == N
    ensures forall k :: 0 <= k < N ==>
              r[k] == Pdf.FirstValue(num, grids, Scalar(p), Vector(Samples(num, xMin)), Scalar(q2), true, S2(N, 1), k)
  {
    var xs := Samples(num, xMin);
    assert Pdf.ResultShape(Scalar(p), Vector(xs), Scalar(q2), true) == Ok(S2(N, 1));
    assert Size(S2(N, 1)) == N;
    seq(N, k requires 0 <= k < N => Pdf.FirstValue(num, grids, Scalar(p), Vector(xs), Scalar(q2), true, S2(N, 1), k))
  }

  /** When every subgrid answers for both flavours, the luminosity curve is
      the convolution of the two series of first covering values. */
  lemma LumiCurveFirstMatch(num: Numerics, grids: seq<Grid.GridData>, q2: real, xMin: real, p1: int, p2: int)
    requires Pdf.AllOk(num, grids, Scalar(p1), Vector(Samples(num, xMin)), Scalar(q2), true)
    requires Pdf.AllOk(num, grids, Scalar(p2), Vector(Samples(num, xMin)), Scalar(q2), true)
    ensures LumiCurve(num, grids, q2, xMin, p1, p2)
            == Ok(num.lumi(xMin, N, Samples(num, xMin),
                           Covering(num, grids, q2, xMin, p1), Covering(num, grids, q2, xMin, p2)))
  {
    SeriesIsCovering(num, grids, q2, xMin, p1);
    SeriesIsCovering(num, grids, q2, xMin, p2);
  }

  /** When every subgrid answers for both flavours, PLumi.L at t is that
      convolution's curve at ln t. */
  lemma LuminosityFirstMatch(num: Numerics, grids: seq<Grid.GridData>, q2: real, xMin: real,
                             p1: int, p2: int, t: real)
    requires Pdf.AllOk(num, grids, Scalar(p1), Vector(Samples(num, xMin)), Scalar(q2), true)
    requires Pdf.AllOk(num, grids, Scalar(p2), Vector(Samples(num, xMin)), Scalar(q2), true)
    ensures Luminosity(num, grids, q2, xMin, p1, p2, t)
            == Ok(num.lumi(xMin, N, Samples(num, xMin),
                           Covering(num, grids, q2, xMin, p1), Covering(num, grids, q2, xMin, p2))(num.ln(t)))
  {
    LumiCurveFirstMatch(num, grids, q2, xMin, p1, p2);
  }

  lemma SeriesIsCovering(num: Numerics, grids: seq<Grid.GridData>, q2: real, xMin: real, p: int)
    requires Pdf.AllOk(num, grids, Scalar(p), Vector(Samples(num, xMin)), Scalar(q2), true)
    ensures Series(num, grids, q2, xMin, p) == Ok(Covering(num, grids, q2, xMin, p))
  {
    SeriesFirstMatch(num, grids, q2, xMin, p, 0);
    var sv, c := Series(num, grids, q2, xMin, p).value, Covering(num, grids, q2, xMin, p);
    forall k | 0 <= k < N
      ensures sv[k] == c[k]
    {
      SeriesFirstMatch(num, grids, q2, xMin, p, k);
    }
    assert sv == c;
  }

  /** A parton luminosity at scale Q2 with its interpolator cache. */
  class PLumi {
    const pdf: Pdf.PDF
    const q2: real
    const xMin: real
    var interpolators: map<(int, int), Curve>

    /** The member is sound and every cached curve is the one computed
        for its pair of flavours. */
    ghost predicate Valid()
      reads this, pdf.grids
    {
      && pdf.Valid()
      && forall key :: key in interpolators ==>
           LumiCurve(pdf.num, pdf.Data(), q2, xMin, key.0, key.1) == Ok(interpolators[key])
    }

    constructor(pdf: Pdf.PDF, q2: real, xMin: real)
      ensures this.pdf == pdf && this.q2 == q2 && this.xMin == xMin && interpolators == map[]
    {
      this.pdf := pdf;
      this.q2 := q2;
      this.xMin := xMin;
      interpolators := map[];
    }

    /** PLumi.__init__: x_min over the member's subgrids, and an empty
        cache. */
    static method Create(pdf: Pdf.PDF, q2: real) returns (r: Result<PLumi>)
      requires pdf.Valid()
      ensures r.Ok? <==> XMin(pdf.Data()).Ok?
      ensures r.Err? ==> r.error == EmptyArray
      ensures r.Ok? ==> fresh(r.value) && r.value.Valid()
                        && r.value.pdf == pdf && r.value.q2 == q2
                        && r.value.xMin == XMin(pdf.Data()).value && r.value.interpolators == map[]
    {
      var m :- XMin(pdf.Data());
      var l := new PLumi(pdf, q2, m);
      return Ok(l);
    }

    /** PLumi._interpolator: sample both flavours through the member and
        build the curve; only the subgrids' caches change. */
    method Compute(p1: int, p2: int) returns (r: Result<Curve>)
      requires pdf.Valid()
      modifies pdf.grids
      ensures pdf.Valid() && pdf.CachesKept()
      ensures r == LumiCurve(pdf.num, pdf.Data(), q2, xMin, p1, p2)
    {
      var xs := Samples(pdf.num, xMin);
      assert Size(S2(N, 1)) == N;
      var v1 :- pdf.XfxQ2(Scalar(p1), Vector(xs), Scalar(q2), true);
      var v2 :- pdf.XfxQ2(Scalar(p2), Vector(xs), Scalar(q2), true);
      r := Ok(pdf.num.lumi(xMin, N, xs, Pdf.Ravel(v1), Pdf.Ravel(v2)));
    }

    /** PLumi.interpolator: the cached curve of (p1, p2) when there is one;
        otherwise compute it and cache it. A query that raises leaves the
        cache as it was. */
    method Interpolator(p1: int, p2: int) returns (r: Result<Curve>)
      requires Valid()
      modifies this, pdf.grids
      ensures Valid() && pdf.CachesKept()
      ensures r == LumiCurve(pdf.num, pdf.Data(), q2, xMin, p1, p2)
      ensures (p1, p2) in old(interpolators) ==> r == Ok(old(interpolators)[(p1, p2)])
                                                 && interpolators == old(interpolators)
      ensures (p1, p2) !in old(interpolators) && r.Ok? ==> interpolators == old(interpolators)[(p1, p2) := r.value]
      ensures r.Err? ==> interpolators == old(interpolators)
    {
      if (p1, p2) in interpolators {
        return Ok(interpolators[(p1, p2)]);
      }
      r := Compute(p1, p2);
      if r.Ok? {
        interpolators := interpolators[(p1, p2) := r.value];
      }
    }

    /** PLumi.L: the luminosity of p1 and p2 at the energy ratio t. */
    method L(p1: int, p2: int, t: real) returns (r: Result<Num>)
      requires Valid()
      modifies this, pdf.grids
      ensures Valid() && pdf.CachesKept()
      ensures r == Luminosity(pdf.num, pdf.Data(), q2, xMin, p1, p2, t)
      ensures (p1, p2) in old(interpolators) ==> interpolators == old(interpolators)
      ensures (p1, p2) !in old(interpolators) && r.Ok?
              ==> interpolators == old(interpolators)[(p1, p2) := LumiCurve(pdf.num, pdf.Data(), q2, xMin, p1, p2).value]
      ensures r.Err? ==> interpolators == old(interpolators)
      ensures r.Ok? ==> (p1, p2) in interpolators
    {
      var c :- Interpolator(p1, p2);
      r := Ok(c(pdf.num.ln(t)));
    }
  }
}
