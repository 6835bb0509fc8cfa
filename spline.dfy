/** MyRectBivariateSpline in parton/pdf.py: a fitted 2D spline over
    (log x, log Q2) with a bounds policy. The fit and the raw spline values
    come from SciPy and are given as a function (`Surface`); what is modelled
    is how the bounds are widened and which results are replaced by the fill
    value or make the call raise. */
module Spline {
  import opened Base

  /** The fill_value argument: None (no filling) or a value, NaN included. */
  datatype Fill = NoFill | FillWith(v: Num)

  /** A constructed spline: the raw evaluator, the widened bounds and the
      two options. */
  datatype Spline = Spline(
    surface: Surface,
    xMin: real, xMax: real,
    yMin: real, yMax: real,
    boundsError: bool,
    fill: Fill)

  function Abs(r: real): real { if r < 0.0 then -r else r }

  /** The relative margin, |bound| / 1e10, that widens each bound: it
      widens every non-zero bound strictly, and by less than the bound's
      own magnitude, so a widened bound keeps its sign. */
  function Margin(r: real): (d: real)
    ensures d >= 0.0
    ensures r != 0.0 ==> 0.0 < d < Abs(r)
  {
    Abs(r) / 10000000000.0
  }

  /** np.amin */
  function SeqMin(s: seq<real>): (m: real)
    requires |s| > 0
    ensures forall i :: 0 <= i < |s| ==> m <= s[i]
    ensures exists i :: 0 <= i < |s| && s[i] == m
  {
    if |s| == 1 then s[0]
    else
      var r := SeqMin(s[1..]);
      assert exists i :: 1 <= i < |s| && s[i] == r by {
        var j :| 0 <= j < |s[1..]| && s[1..][j] == r;
        assert s[j + 1] == r;
      }
      if s[0] <= r then s[0] else r
  }

  /** np.amax */
  function SeqMax(s: seq<real>): (m: real)
    requires |s| > 0
    ensures forall i :: 0 <= i < |s| ==> s[i] <= m
    ensures exists i :: 0 <= i < |s| && s[i] == m
  {
    if |s| == 1 then s[0]
    else
      var r := SeqMax(s[1..]);
      assert exists i :: 1 <= i < |s| && s[i] == r by {
        var j :| 0 <= j < |s[1..]| && s[1..][j] == r;
        assert s[j + 1] == r;
      }
      if s[0] >= r then s[0] else r
  }

  /** MyRectBivariateSpline.__init__: fit the spline, then keep the range of
      each axis widened on both sides by the relative margin. Fails when the
      spline library rejects the data, or when an axis is empty (np.amin
      raises). The widened bounds contain every grid coordinate. */
  function Make(fit: (seq<real>, seq<real>, seq<seq<real>>) -> Option<Surface>,
                xs: seq<real>, ys: seq<real>, z: seq<seq<real>>,
                boundsError: bool, fill: Fill): (r: Result<Spline>)
    ensures r.Ok? <==> fit(xs, ys, z).Some? && |xs| > 0 && |ys| > 0
    ensures r.Err? ==> r.error == FitError
    ensures r.Ok? ==> r.value.surface == fit(xs, ys, z).value
                      && r.value.boundsError == boundsError && r.value.fill == fill
    ensures r.Ok? ==> r.value.xMin == SeqMin(xs) - Margin(SeqMin(xs))
                      && r.value.xMax == SeqMax(xs) + Margin(SeqMax(xs))
                      && r.value.yMin == SeqMin(ys) - Margin(SeqMin(ys))
                      && r.value.yMax == SeqMax(ys) + Margin(SeqMax(ys))
    ensures r.Ok? ==> r.value.xMin <= SeqMin(xs) && SeqMax(xs) <= r.value.xMax
                      && r.value.yMin <= SeqMin(ys) && SeqMax(ys) <= r.value.yMax
    ensures r.Ok? ==> (forall i :: 0 <= i < |xs| ==> !OutX(r.value, xs[i]))
                      && (forall j :: 0 <= j < |ys| ==> !OutY(r.value, ys[j]))
  {
    match fit(xs, ys, z)
    case None => Err(FitError)
    case Some(surface) =>
      if |xs| == 0 || |ys| == 0 then Err(FitError)
      else
        var xLo, xHi := SeqMin(xs), SeqMax(xs);
        var yLo, yHi := SeqMin(ys), SeqMax(ys);
        Ok(Spline(surface, xLo - Margin(xLo), xHi + Margin(xHi),
                  yLo - Margin(yLo), yHi + Margin(yHi), boundsError, fill))
  }

  predicate OutX(s: Spline, x: real) { x < s.xMin || x > s.xMax }

  predicate OutY(s: Spline, y: real) { y < s.yMin || y > s.yMax }

  /** Some coordinate lies outside [lo, hi] (np.any of the mask). */
  predicate AnyOutside(v: seq<real>, lo: real, hi: real)
  {
    exists i :: 0 <= i < |v| && (v[i] < lo || v[i] > hi)
  }

  /** The value of one result element: the fill value when a fill value is
      set and either coordinate is out of bounds, the raw spline otherwise. */
  function Cell(s: Spline, x: real, y: real): Num
  {
    if s.fill.FillWith? && (OutX(s, x) || OutY(s, y)) then s.fill.v else Real(s.surface(x, y))
  }

  /** Whether the call raises: bounds_error set and some coordinate out of
      bounds. */
  predicate Raises(s: Spline, xs: seq<real>, ys: seq<real>)
  {
    s.boundsError && (AnyOutside(xs, s.xMin, s.xMax) || AnyOutside(ys, s.yMin, s.yMax))
  }

  /** __call__ with grid=False on arrays of one shape: element k is the
      spline at (xs[k], ys[k]), filled when out of bounds. */
  function EvalPoints(s: Spline, xs: seq<real>, ys: seq<real>): (r: Result<seq<Num>>)
    requires |xs| == |ys|
    ensures r.Ok? <==> !Raises(s, xs, ys)
    ensures r.Err? ==> r.error == OutOfRange
    ensures r.Ok? ==> |r.value| == |xs| && forall k :: 0 <= k < |xs| ==> r.value[k] == Cell(s, xs[k], ys[k])
  {
    if Raises(s, xs, ys) then Err(OutOfRange)
    else Ok(seq(|xs|, k requires 0 <= k < |xs| => Cell(s, xs[k], ys[k])))
  }

  lemma FlatIndex(k: nat, m: nat, n: nat)
    requires k < m * n
    ensures n > 0 && k / n < m && k % n < n
    ensures k == (k / n) * n + k % n
  {
    assert n > 0;
    if k / n >= m {
      MulMono(m, k / n, n);
    }
  }

  lemma MulMono(a: int, b: int, n: int)
    requires a <= b && n >= 0
    ensures a * n <= b * n
  {
  }

  /** Division by n has a unique quotient and remainder. */
  lemma DivUnique(k: int, n: int, q: int, r: int)
    requires n > 0 && 0 <= r < n && k == q * n + r
    ensures k / n == q && k % n == r
  {
    var q', r' := k / n, k % n;
    if q' < q {
      MulMono(q' + 1, q, n);
    } else if q' > q {
      MulMono(q + 1, q', n);
    }
  }

  lemma FlatIndexOf(i: nat, j: nat, m: nat, n: nat)
    requires i < m && j < n
    ensures i * n + j < m * n
    ensures (i * n + j) / n == i && (i * n + j) % n == j
  {
    MulMono(i + 1, m, n);
    DivUnique(i * n + j, n, i, j);
  }

  /** The element of a grid result at flat position k: row k / n, column k % n. */
  function GridCell(s: Spline, xs: seq<real>, ys: seq<real>, k: nat): Num
    requires k < |xs| * |ys|
  {
    FlatIndex(k, |xs|, |ys|);
    Cell(s, xs[k / |ys|], ys[k % |ys|])
  }

  /** __call__ with grid=True: the |xs| x |ys| tensor-grid result stored
      row-major; element (i, j) is the spline at (xs[i], ys[j]). */
  function EvalGrid(s: Spline, xs: seq<real>, ys: seq<real>): (r: Result<seq<Num>>)
    ensures r.Ok? <==> !Raises(s, xs, ys)
    ensures r.Err? ==> r.error == OutOfRange
    ensures r.Ok? ==> |r.value| == |xs| * |ys|
  {
    if Raises(s, xs, ys) then Err(OutOfRange)
    else Ok(seq(|xs| * |ys|, k requires 0 <= k < |xs| * |ys| => GridCell(s, xs, ys, k)))
  }

  /** np.any((v < lo) | (v > hi)) */
  method AnyOut(v: seq<real>, lo: real, hi: real) returns (b: bool)
    ensures b <==> AnyOutside(v, lo, hi)
  {
    b := false;
    for i := 0 to |v|
      invariant b <==> exists j :: 0 <= j < i && (v[j] < lo || v[j] > hi)
    {
      if v[i] < lo || v[i] > hi {
        b := true;
      }
    }
  }

  /** MyRectBivariateSpline.__call__ with grid=False: raise when
      bounds_error is set and a coordinate is out of bounds; otherwise take
      the raw spline values and overwrite, in place, every element whose x
      or y is out of bounds with the fill value. */
  method CallPoints(s: Spline, xs: seq<real>, ys: seq<real>) returns (r: Result<seq<Num>>)
    requires |xs| == |ys|
    ensures r == EvalPoints(s, xs, ys)
    ensures r.Err? <==> s.boundsError && (exists k :: 0 <= k < |xs| && (OutX(s, xs[k]) || OutY(s, ys[k])))
    ensures r.Ok? ==> |r.value| == |xs| && forall k :: 0 <= k < |xs| ==>
              r.value[k] == if s.fill.FillWith? && (OutX(s, xs[k]) || OutY(s, ys[k]))
                            then s.fill.v else Real(s.surface(xs[k], ys[k]))
  {
    var anyX, anyY := false, false;
    if s.boundsError || s.fill.FillWith? {
      anyX := AnyOut(xs, s.xMin, s.xMax);
      anyY := AnyOut(ys, s.yMin, s.yMax);
    }
    if s.boundsError && (anyX || anyY) {
      return Err(OutOfRange);
    }
    var n := |xs|;
    var z := new Num[n];
    for k := 0 to n
      invariant forall i :: 0 <= i < k ==> z[i] == Real(s.surface(xs[i], ys[i]))
    {
      z[k] := Real(s.surface(xs[k], ys[k]));
    }
    if s.fill.FillWith? && (anyX || anyY) {
      for k := 0 to n
        invariant forall i :: 0 <= i < k ==> z[i] == Cell(s, xs[i], ys[i])
        invariant forall i :: k <= i < n ==> z[i] == Real(s.surface(xs[i], ys[i]))
      {
        if OutX(s, xs[k]) || OutY(s, ys[k]) {
          z[k] := s.fill.v;
        }
      }
    }
    assert forall i :: 0 <= i < n ==> z[i] == Cell(s, xs[i], ys[i]);
    assert z[..] == EvalPoints(s, xs, ys).value;
    r := Ok(z[..]);
  }

  /** MyRectBivariateSpline.__call__ with grid=True: raise when
      bounds_error is set and a coordinate is out of bounds; otherwise take
      the raw |xs| x |ys| grid of spline values and overwrite, in place,
      the rows whose x is out of bounds and then the columns whose y is out
      of bounds with the fill value. */
  method CallGrid(s: Spline, xs: seq<real>, ys: seq<real>) returns (r: Result<seq<Num>>)
    ensures r == EvalGrid(s, xs, ys)
    ensures r.Err? <==> s.boundsError && ((exists i :: 0 <= i < |xs| && OutX(s, xs[i]))
                                          || (exists j :: 0 <= j < |ys| && OutY(s, ys[j])))
  {
    var anyX, anyY := false, false;
    if s.boundsError || s.fill.FillWith? {
      anyX := AnyOut(xs, s.xMin, s.xMax);
      anyY := AnyOut(ys, s.yMin, s.yMax);
    }
    if s.boundsError && (anyX || anyY) {
      return Err(OutOfRange);
    }
    var z := new Num[|xs| * |ys|];
    RawGridInto(z, s, xs, ys);
    if s.fill.FillWith? && anyX {
      FillRows(z, s, xs, ys);
    }
    assert forall i :: 0 <= i < z.Length ==> z[i] == RowFilled(s, xs, ys, i);
    if s.fill.FillWith? && anyY {
      FillColumns(z, s, xs, ys);
    }
    assert forall i :: 0 <= i < z.Length ==> z[i] == GridCell(s, xs, ys, i);
    assert z[..] == EvalGrid(s, xs, ys).value;
    r := Ok(z[..]);
  }

  /** Writes the raw spline value of every grid position into z. */
  method RawGridInto(z: array<Num>, s: Spline, xs: seq<real>, ys: seq<real>)
    requires z.Length == |xs| * |ys|
    modifies z
    ensures forall i :: 0 <= i < z.Length ==> z[i] == Raw(s, xs, ys, i)
  {
    var m, n := |xs|, |ys|;
    for k := 0 to m * n
      invariant forall i :: 0 <= i < k ==> z[i] == Raw(s, xs, ys, i)
    {
      FlatIndex(k, m, n);
      z[k] := Real(s.surface(xs[k / n], ys[k % n]));
    }
  }

  /** z[out_of_bounds_x, :] = fill_value */
  method FillRows(z: array<Num>, s: Spline, xs: seq<real>, ys: seq<real>)
    requires z.Length == |xs| * |ys| && s.fill.FillWith?
    requires forall i :: 0 <= i < z.Length ==> z[i] == Raw(s, xs, ys, i)
    modifies z
    ensures forall i :: 0 <= i < z.Length ==> z[i] == RowFilled(s, xs, ys, i)
  {
    var m, n := |xs|, |ys|;
    for k := 0 to m * n
      invariant forall i :: 0 <= i < k ==> z[i] == RowFilled(s, xs, ys, i)
      invariant forall i :: k <= i < m * n ==> z[i] == Raw(s, xs, ys, i)
    {
      FlatIndex(k, m, n);
      if OutX(s, xs[k / n]) {
        z[k] := s.fill.v;
      }
    }
  }

  /** z[:, out_of_bounds_y] = fill_value */
  method FillColumns(z: array<Num>, s: Spline, xs: seq<real>, ys: seq<real>)
    requires z.Length == |xs| * |ys| && s.fill.FillWith?
    requires forall i :: 0 <= i < z.Length ==> z[i] == RowFilled(s, xs, ys, i)
    modifies z
    ensures forall i :: 0 <= i < z.Length ==> z[i] == GridCell(s, xs, ys, i)
  {
    var m, n := |xs|, |ys|;
    for k := 0 to m * n
      invariant forall i :: 0 <= i < k ==> z[i] == GridCell(s, xs, ys, i)
      invariant forall i :: k <= i < m * n ==> z[i] == RowFilled(s, xs, ys, i)
    {
      FlatIndex(k, m, n);
      if OutY(s, ys[k % n]) {
        z[k] := s.fill.v;
      }
    }
  }

  /** The raw spline value at flat grid position k. */
  function Raw(s: Spline, xs: seq<real>, ys: seq<real>, k: nat): Num
    requires k < |xs| * |ys|
  {
    FlatIndex(k, |xs|, |ys|);
    Real(s.surface(xs[k / |ys|], ys[k % |ys|]))
  }

  /** Flat grid position k after the out-of-bounds rows have been filled. */
  function RowFilled(s: Spline, xs: seq<real>, ys: seq<real>, k: nat): Num
    requires k < |xs| * |ys|
  {
    FlatIndex(k, |xs|, |ys|);
    if s.fill.FillWith? && OutX(s, xs[k / |ys|]) then s.fill.v else Raw(s, xs, ys, k)
  }

  /** Grid element (i, j), at flat position i * |ys| + j, is the fill value
      exactly when a fill value is set and x_i or y_j is out of bounds, and
      the raw spline value otherwise. */
  lemma GridAt(s: Spline, xs: seq<real>, ys: seq<real>, i: nat, j: nat)
    requires i < |xs| && j < |ys| && EvalGrid(s, xs, ys).Ok?
    ensures i * |ys| + j < |EvalGrid(s, xs, ys).value|
    ensures EvalGrid(s, xs, ys).value[i * |ys| + j]
            == if s.fill.FillWith? && (OutX(s, xs[i]) || OutY(s, ys[j])) then s.fill.v
               else Real(s.surface(xs[i], ys[j]))
  {
    FlatIndexOf(i, j, |xs|, |ys|);
  }

  /** The x coordinates of the meshgrid of xs and ys, flattened row-major. */
  function MeshX(xs: seq<real>, ys: seq<real>): (r: seq<real>)
    ensures |r| == |xs| * |ys|
  {
    seq(|xs| * |ys|, k requires 0 <= k < |xs| * |ys| => FlatIndex(k, |xs|, |ys|); xs[k / |ys|])
  }

  /** The y coordinates of the meshgrid of xs and ys, flattened row-major. */
  function MeshY(xs: seq<real>, ys: seq<real>): (r: seq<real>)
    ensures |r| == |xs| * |ys|
  {
    seq(|xs| * |ys|, k requires 0 <= k < |xs| * |ys| => FlatIndex(k, |xs|, |ys|); ys[k % |ys|])
  }

  /** Some x of the grid is out of bounds iff some x of its mesh is. */
  lemma MeshOutX(xs: seq<real>, ys: seq<real>, lo: real, hi: real)
    requires |ys| > 0
    ensures AnyOutside(xs, lo, hi) <==> AnyOutside(MeshX(xs, ys), lo, hi)
  {
    var m, n := |xs|, |ys|;
    var mx := MeshX(xs, ys);
    if AnyOutside(xs, lo, hi) {
      var i :| 0 <= i < m && (xs[i] < lo || xs[i] > hi);
      FlatIndexOf(i, 0, m, n);
      assert mx[i * n] == xs[i];
    }
    if AnyOutside(mx, lo, hi) {
      var k :| 0 <= k < m * n && (mx[k] < lo || mx[k] > hi);
      FlatIndex(k, m, n);
      assert mx[k] == xs[k / n];
    }
  }

  /** Some y of the grid is out of bounds iff some y of its mesh is. */
  lemma MeshOutY(xs: seq<real>, ys: seq<real>, lo: real, hi: real)
    requires |xs| > 0
    ensures AnyOutside(ys, lo, hi) <==> AnyOutside(MeshY(xs, ys), lo, hi)
  {
    var m, n := |xs|, |ys|;
    var my := MeshY(xs, ys);
    if AnyOutside(ys, lo, hi) {
      var j :| 0 <= j < n && (ys[j] < lo || ys[j] > hi);
      FlatIndexOf(0, j, m, n);
      assert my[j] == ys[j];
    }
    if AnyOutside(my, lo, hi) {
      var k :| 0 <= k < m * n && (my[k] < lo || my[k] > hi);
      FlatIndex(k, m, n);
      assert my[k] == ys[k % n];
    }
  }

  /** A grid evaluation over non-empty xs and ys is the pointwise evaluation
      over their meshgrid: the same values, and it raises in the same cases. */
  lemma GridIsPointwiseOnMesh(s: Spline, xs: seq<real>, ys: seq<real>)
    requires |xs| > 0 && |ys| > 0
    ensures EvalGrid(s, xs, ys) == EvalPoints(s, MeshX(xs, ys), MeshY(xs, ys))
  {
    var mx, my := MeshX(xs, ys), MeshY(xs, ys);
    MeshOutX(xs, ys, s.xMin, s.xMax);
    MeshOutY(xs, ys, s.yMin, s.yMax);
    assert Raises(s, xs, ys) == Raises(s, mx, my);
    if !Raises(s, xs, ys) {
      var g, p := EvalGrid(s, xs, ys).value, EvalPoints(s, mx, my).value;
      assert |g| == |p|;
      forall k | 0 <= k < |g|
        ensures g[k] == p[k]
      {
        assert g[k] == GridCell(s, xs, ys, k);
        assert p[k] == Cell(s, mx[k], my[k]);
      }
      assert g == p;
    }
  }

  /** Evaluated at the coordinates it was fitted on, a spline built by Make
      is never filled and never raises: every value is the raw spline's. */
  lemma NativeNeverFilled(fit: (seq<real>, seq<real>, seq<seq<real>>) -> Option<Surface>,
                          xs: seq<real>, ys: seq<real>, z: seq<seq<real>>,
                          boundsError: bool, fill: Fill, i: nat, j: nat)
    requires Make(fit, xs, ys, z, boundsError, fill).Ok?
    requires i < |xs| && j < |ys|
    ensures var s := Make(fit, xs, ys, z, boundsError, fill).value;
            EvalPoints(s, [xs[i]], [ys[j]]) == Ok([Real(s.surface(xs[i], ys[j]))])
  {
    var s := Make(fit, xs, ys, z, boundsError, fill).value;
    assert !OutX(s, xs[i]) && !OutY(s, ys[j]);
    assert !Raises(s, [xs[i]], [ys[j]]);
    assert EvalPoints(s, [xs[i]], [ys[j]]).value == [Cell(s, xs[i], ys[j])];
  }
}
