/** NumPy broadcasting, as far as the library's queries need it: arguments
    are Python scalars or one-dimensional arrays, and results are 0-d, 1-d
    or 2-d arrays stored flat in row-major order. */
module Broadcast {
  import opened Base

  /** A query argument: a scalar or a one-dimensional array. */
  datatype Arg<T> = Scalar(v: T) | Vector(s: seq<T>)

  /** The shape of an array: (), (n,) or (m, n). */
  datatype Shape = S0 | S1(n: nat) | S2(m: nat, n: nat)

  function Size(sh: Shape): nat
  {
    match sh
    case S0 => 1
    case S1(n) => n
    case S2(m, n) => m * n
  }

  function ShapeOf<T>(a: Arg<T>): Shape
  {
    match a
    case Scalar(_) => S0
    case Vector(s) => S1(|s|)
  }

  /** np.ravel of an argument: its elements in order (np.size of them). */
  function Elements<T>(a: Arg<T>): (r: seq<T>)
    ensures |r| == Size(ShapeOf(a))
  {
    match a
    case Scalar(v) => [v]
    case Vector(s) => s
  }

  /** Elementwise map over an argument, keeping its shape. */
  function MapArg<T, U>(a: Arg<T>, f: T -> U): (r: Arg<U>)
    ensures ShapeOf(r) == ShapeOf(a)
    ensures |Elements(r)| == |Elements(a)|
    ensures forall k :: 0 <= k < |Elements(a)| ==> Elements(r)[k] == f(Elements(a)[k])
  {
    match a
    case Scalar(v) => Scalar(f(v))
    case Vector(s) => Vector(seq(|s|, k requires 0 <= k < |s| => f(s[k])))
  }

  /** An array of shape `a` broadcasts to shape `t` of at most one
      dimension: a 0-d array always does, a 1-d array when its length is 1
      or the length of t. */
  predicate Fits(a: Shape, t: Shape)
  {
    match a
    case S0 => !t.S2?
    case S1(n) => t.S1? && (n == 1 || n == t.n)
    case S2(_, _) => false
  }

  /** np.broadcast_shapes of two shapes of at most one dimension. */
  function Broadcast2(a: Shape, b: Shape): (r: Option<Shape>)
    requires !a.S2? && !b.S2?
    ensures r.Some? ==> Fits(a, r.value) && Fits(b, r.value)
    ensures r.Some? ==> forall t :: Fits(a, t) && Fits(b, t) ==> Fits(r.value, t)
    ensures r.None? ==> forall t :: !(Fits(a, t) && Fits(b, t))
  {
    match (a, b)
    case (S0, _) => Some(b)
    case (_, S0) => Some(a)
    case (S1(m), S1(n)) =>
      if m == n || n == 1 then Some(a) else if m == 1 then Some(b) else None
  }

  /** np.broadcast_shapes of three shapes of at most one dimension: the
      smallest shape all three broadcast to, or None when there is none
      (NumPy raises ValueError). */
  function Broadcast3(a: Shape, b: Shape, c: Shape): (r: Option<Shape>)
    requires !a.S2? && !b.S2? && !c.S2?
    ensures r.Some? ==> Fits(a, r.value) && Fits(b, r.value) && Fits(c, r.value)
    ensures r.Some? ==> forall t :: Fits(a, t) && Fits(b, t) && Fits(c, t) ==> Fits(r.value, t)
    ensures r.None? ==> forall t :: !(Fits(a, t) && Fits(b, t) && Fits(c, t))
  {
    match Broadcast2(a, b)
    case None => None
    case Some(ab) =>
      var r := Broadcast2(ab, c);
      assert r.Some? ==> Fits(a, r.value) && Fits(b, r.value) by {
        if r.Some? { FitsTrans(a, ab, r.value); FitsTrans(b, ab, r.value); }
      }
      r
  }

  lemma FitsTrans(a: Shape, b: Shape, c: Shape)
    requires Fits(a, b) && Fits(b, c)
    ensures Fits(a, c)
  {
  }

  /** Element k of an argument broadcast to a longer shape. */
  function At<T>(a: Arg<T>, k: nat): T
    requires a.Vector? ==> |a.s| == 1 || k < |a.s|
  {
    match a
    case Scalar(v) => v
    case Vector(s) => if |s| == 1 then s[0] else s[k]
  }

  /** np.broadcast_arrays: the elements of `a` stretched to shape `sh`;
      element k is a scalar's value, a length-1 array's only element, or
      the array's own element k. */
  function Expand<T>(a: Arg<T>, sh: Shape): (r: seq<T>)
    requires Fits(ShapeOf(a), sh)
    ensures |r| == Size(sh)
    ensures forall k :: 0 <= k < |r| ==> r[k] == At(a, k)
    ensures sh == ShapeOf(a) ==> r == Elements(a)
  {
    seq(Size(sh), k requires 0 <= k < Size(sh) => At(a, k))
  }
}
