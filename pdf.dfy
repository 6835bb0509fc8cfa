/** PDF in parton/pdf.py: the subgrids of one member of a PDF set, queried
    in file order, each one filling the elements that the ones before it
    left NaN (not covered). */
module Pdf {
  import opened Base
  import opened Broadcast
  import Member
  import Spline
  import Grid

  // ---------------------------------------------------------------------
  // PDF.__init__: the subgrids of a member file
  // ---------------------------------------------------------------------

  /** A list comprehension whose items may raise: every item's value, in
      order, or the error of the first item that raises. */
  function Collect<T>(rs: seq<Result<T>>): (r: Result<seq<T>>)
    ensures r.Ok? <==> forall i :: 0 <= i < |rs| ==> rs[i].Ok?
    ensures r.Ok? ==> |r.value| == |rs| && forall i :: 0 <= i < |rs| ==> r.value[i] == rs[i].value
    ensures r.Err? ==> exists i :: 0 <= i < |rs| && rs[i] == Err(r.error)
                                   && forall j :: 0 <= j < i ==> rs[j].Ok?
    decreases |rs|
  {
    if rs == [] then Ok([])
    else
      match rs[0]
      case Err(e) => Err(e)
      case Ok(g) =>
        var tail := rs[1..];
        assert forall i :: 1 <= i < |rs| ==> rs[i] == tail[i - 1];
        match Collect(tail)
        case Err(e) =>
          var i :| 0 <= i < |tail| && tail[i] == Err(e) && forall j :: 0 <= j < i ==> tail[j].Ok?;
          assert rs[i + 1] == Err(e);
          Err(e)
        case Ok(gs) => Ok([g] + gs)
  }

  /** [PDFGrid.from_block(grid) for grid in grids]: every block's subgrid,
      or the error of the first block that does not read. */
  function FromBlocks(tok: Tokenizer, blocks: seq<string>): (r: Result<seq<Grid.GridData>>)
    ensures r.Ok? <==> forall i :: 0 <= i < |blocks| ==> Grid.FromBlock(tok, blocks[i]).Ok?
    ensures r.Ok? ==> |r.value| == |blocks|
                      && forall i :: 0 <= i < |blocks| ==> r.value[i] == Grid.FromBlock(tok, blocks[i]).value
    ensures r.Err? ==> exists i :: 0 <= i < |blocks| && Grid.FromBlock(tok, blocks[i]) == Err(r.error)
                                   && forall j :: 0 <= j < i ==> Grid.FromBlock(tok, blocks[j]).Ok?
  {
    var rs := seq(|blocks|, i requires 0 <= i < |blocks| => Grid.FromBlock(tok, blocks[i]));
    assert forall i :: 0 <= i < |blocks| ==> rs[i] == Grid.FromBlock(tok, blocks[i]);
    var r := Collect(rs);
    assert r.Err? ==> exists i :: 0 <= i < |blocks| && Grid.FromBlock(tok, blocks[i]) == Err(r.error)
                                  && forall j :: 0 <= j < i ==> Grid.FromBlock(tok, blocks[j]).Ok? by {
      if r.Err? {
        var i :| 0 <= i < |rs| && rs[i] == Err(r.error) && forall j :: 0 <= j < i ==> rs[j].Ok?;
        assert Grid.FromBlock(tok, blocks[i]) == Err(r.error);
      }
    }
    r
  }

  /** The subgrids of a member file's contents: its blocks after the
      metadata, each read as a subgrid. */
  function LoadGrids(tok: Tokenizer, contents: string): (r: Result<seq<Grid.GridData>>)
    ensures Member.Load(tok, contents).Err? ==> r == Err(ParseError)
    ensures Member.Load(tok, contents).Ok? ==> r == FromBlocks(tok, Member.Load(tok, contents).value.1)
  {
    match Member.Load(tok, contents)
    case Err(e) => Err(e)
    case Ok((_, blocks)) => FromBlocks(tok, blocks)
  }

  // ---------------------------------------------------------------------
  // PDF.xfxQ2 and PDF.xfxQ
  // ---------------------------------------------------------------------

  /** What PDF.xfxQ2 returns: a Python float when the result has one
      element, the array otherwise. */
  datatype Value = Float(v: Num) | Array(shape: Shape, data: seq<Num>)

  /** .ravel(): the elements of a result, in row-major order; a float is
      its one element. */
  function Ravel(v: Value): (r: seq<Num>)
    ensures v.Float? ==> |r| == 1 && r[0] == v.v
    ensures v.Array? ==> |r| == |v.data| && forall k :: 0 <= k < |r| ==> r[k] == v.data[k]
  {
    match v
    case Float(n) => [n]
    case Array(_, data) => data
  }

  /** The shape of the NaN-filled result: (size x, size Q2) for a grid
      query, otherwise the broadcast shape of flavour, x and Q2 (a
      ShapeError when they do not broadcast). */
  function ResultShape(flavor: Arg<int>, x: Arg<real>, q2: Arg<real>, grid: bool): (r: Result<Shape>)
    ensures grid ==> r == Ok(S2(|Elements(x)|, |Elements(q2)|))
    ensures !grid ==> (r.Ok? <==> Broadcast3(ShapeOf(flavor), ShapeOf(x), ShapeOf(q2)).Some?)
    ensures !grid && r.Ok? ==> Broadcast3(ShapeOf(flavor), ShapeOf(x), ShapeOf(q2)) == Some(r.value)
    ensures r.Err? ==> r.error == ShapeError
  {
    if grid then Ok(S2(|Elements(x)|, |Elements(q2)|))
    else
      match Broadcast3(ShapeOf(flavor), ShapeOf(x), ShapeOf(q2))
      case None => Err(ShapeError)
      case Some(sh) => Ok(sh)
  }

  /** Every subgrid's answer to the query, in list order. */
  function Answers(num: Numerics, grids: seq<Grid.GridData>, flavor: Arg<int>, x: Arg<real>,
                   q2: Arg<real>, grid: bool): (r: seq<Result<Grid.NdArray>>)
    ensures |r| == |grids|
    ensures forall i :: 0 <= i < |grids| ==> r[i] == Grid.Query(num, grids[i], flavor, x, q2, grid)
  {
    seq(|grids|, i requires 0 <= i < |grids| => Grid.Query(num, grids[i], flavor, x, q2, grid))
  }

  /** Every successful answer has n elements. */
  predicate FitAll(answers: seq<Result<Grid.NdArray>>, n: nat)
  {
    forall i :: 0 <= i < |answers| && answers[i].Ok? ==> |answers[i].value.data| == n
  }

  /** Every answer from position i on is a success. */
  predicate Answered(answers: seq<Result<Grid.NdArray>>, i: nat)
  {
    forall j :: i <= j < |answers| ==> answers[j].Ok?
  }

  /** A subgrid's successful answer has the shape of the result, so the
      masked assignment is well formed. */
  lemma QueryShape(num: Numerics, grids: seq<Grid.GridData>, flavor: Arg<int>, x: Arg<real>,
                   q2: Arg<real>, grid: bool, sh: Shape)
    requires ResultShape(flavor, x, q2, grid) == Ok(sh)
    ensures FitAll(Answers(num, grids, flavor, x, q2, grid), Size(sh))
  {
    var answers := Answers(num, grids, flavor, x, q2, grid);
    forall i | 0 <= i < |answers| && answers[i].Ok?
      ensures |answers[i].value.data| == Size(sh)
    {
      var a := Grid.Query(num, grids[i], flavor, x, q2, grid);
      assert answers[i] == a;
      assert a.value.shape == sh;
    }
  }

  predicate AnyNaN(s: seq<Num>) { exists k :: 0 <= k < |s| && s[k].NaN? }

  /** res[np.isnan(res)] = next[np.isnan(res)] */
  function Merge(res: seq<Num>, next: seq<Num>): (r: seq<Num>)
    requires |res| == |next|
    ensures |r| == |res|
    ensures forall k :: 0 <= k < |res| ==> r[k] == if res[k].NaN? then next[k] else res[k]
  {
    seq(|res|, k requires 0 <= k < |res| => if res[k].NaN? then next[k] else res[k])
  }

  function NaNs(n: nat): (r: seq<Num>)
    ensures |r| == n && forall k :: 0 <= k < n ==> r[k] == NaN
  {
    seq(n, _ => NaN)
  }

  /** The loop of PDF.xfxQ2 over the answers from position i on, from the
      partial result res: each answer fills the NaN elements, an error is
      raised, and the loop stops after the first answer that leaves no NaN.
      An element that is already filled is never overwritten. */
  function Stitch(answers: seq<Result<Grid.NdArray>>, i: nat, res: seq<Num>): (r: Result<seq<Num>>)
    requires i <= |answers| && FitAll(answers, |res|)
    ensures r.Ok? ==> |r.value| == |res|
    ensures r.Ok? ==> forall k :: 0 <= k < |res| && !res[k].NaN? ==> r.value[k] == res[k]
    decreases |answers| - i
  {
    if i == |answers| then Ok(res)
    else
      match answers[i]
      case Err(e) => Err(e)
      case Ok(a) =>
        var merged := Merge(res, a.data);
        if !AnyNaN(merged) then Ok(merged) else Stitch(answers, i + 1, merged)
  }

  /** The same loop without its early stop: every answer is merged. */
  function StitchAll(answers: seq<Result<Grid.NdArray>>, i: nat, res: seq<Num>): (r: Result<seq<Num>>)
    requires i <= |answers| && FitAll(answers, |res|)
    ensures r.Ok? ==> |r.value| == |res|
    decreases |answers| - i
  {
    if i == |answers| then Ok(res)
    else
      match answers[i]
      case Err(e) => Err(e)
      case Ok(a) => StitchAll(answers, i + 1, Merge(res, a.data))
  }

  /** Every subgrid answers the query. */
  predicate AllOk(num: Numerics, grids: seq<Grid.GridData>, flavor: Arg<int>, x: Arg<real>,
                  q2: Arg<real>, grid: bool)
  {
    forall i :: 0 <= i < |grids| ==> Grid.Query(num, grids[i], flavor, x, q2, grid).Ok?
  }

  /** Element k of the first answer from position i on that is not NaN
      there; NaN when there is none. */
  function FirstOf(answers: seq<Result<Grid.NdArray>>, i: nat, n: nat, k: nat): (v: Num)
    requires i <= |answers| && FitAll(answers, n) && Answered(answers, i) && k < n
    ensures v.NaN? <==> forall j :: i <= j < |answers| ==> answers[j].value.data[k].NaN?
    ensures !v.NaN? ==> exists j :: i <= j < |answers| && answers[j].value.data[k] == v
                                    && forall l :: i <= l < j ==> answers[l].value.data[k].NaN?
    decreases |answers| - i
  {
    if i == |answers| then NaN
    else
      var v := answers[i].value.data[k];
      if !v.NaN? then v else FirstOf(answers, i + 1, n, k)
  }

  /** Element k of the answer of the first subgrid, in list order, whose
      answer is not NaN there; NaN when there is none. */
  function FirstValue(num: Numerics, grids: seq<Grid.GridData>, flavor: Arg<int>, x: Arg<real>,
                      q2: Arg<real>, grid: bool, sh: Shape, k: nat): (v: Num)
    requires ResultShape(flavor, x, q2, grid) == Ok(sh) && k < Size(sh)
    requires AllOk(num, grids, flavor, x, q2, grid)
    ensures v.NaN? <==> forall i :: 0 <= i < |grids| ==>
                          Grid.Query(num, grids[i], flavor, x, q2, grid).value.data[k].NaN?
    ensures !v.NaN? ==> exists i :: 0 <= i < |grids|
                          && Grid.Query(num, grids[i], flavor, x, q2, grid).value.data[k] == v
                          && forall j :: 0 <= j < i ==> Grid.Query(num, grids[j], flavor, x, q2, grid).value.data[k].NaN?
  {
    QueryShape(num, grids, flavor, x, q2, grid, sh);
    FirstOf(Answers(num, grids, flavor, x, q2, grid), 0, Size(sh), k)
  }

  lemma MergeFull(res: seq<Num>, next: seq<Num>)
    requires |res| == |next| && !AnyNaN(res)
    ensures Merge(res, next) == res
  {
  }

  /** Merging into a result with no NaN left changes nothing. */
  lemma {:induction false} StitchAllFull(answers: seq<Result<Grid.NdArray>>, i: nat, res: seq<Num>)
    requires i <= |answers| && FitAll(answers, |res|) && Answered(answers, i) && !AnyNaN(res)
    ensures StitchAll(answers, i, res) == Ok(res)
    decreases |answers| - i
  {
    if i < |answers| {
      MergeFull(res, answers[i].value.data);
      StitchAllFull(answers, i + 1, res);
    }
  }

  /** Stopping early does not change the result when every answer is a
      success. */
  lemma {:induction false} EarlyStop(answers: seq<Result<Grid.NdArray>>, i: nat, res: seq<Num>)
    requires i <= |answers| && FitAll(answers, |res|) && Answered(answers, i)
    ensures Stitch(answers, i, res) == StitchAll(answers, i, res)
    decreases |answers| - i
  {
    if i < |answers| {
      var merged := Merge(res, answers[i].value.data);
      if !AnyNaN(merged) {
        StitchAllFull(answers, i + 1, merged);
      } else {
        EarlyStop(answers, i + 1, merged);
      }
    }
  }

  /** Without the early stop, when every answer is a success, element k is
      the partial result's if filled, else the first answer's value that
      is not NaN there, else NaN. */
  lemma {:induction false} StitchAllAt(answers: seq<Result<Grid.NdArray>>, i: nat, res: seq<Num>, k: nat)
    requires i <= |answers| && FitAll(answers, |res|) && Answered(answers, i) && k < |res|
    ensures StitchAll(answers, i, res).Ok?
    ensures StitchAll(answers, i, res).value[k] == if res[k].NaN? then FirstOf(answers, i, |res|, k) else res[k]
    decreases |answers| - i
  {
    if i < |answers| {
      StitchAllAt(answers, i + 1, Merge(res, answers[i].value.data), k);
    }
  }

  /** The partial result after merging answers i .. j-1 into res, without
      the early stop. */
  function MergeFrom(answers: seq<Result<Grid.NdArray>>, i: nat, j: nat, res: seq<Num>): (r: seq<Num>)
    requires i <= j <= |answers| && FitAll(answers, |res|)
    requires forall l :: i <= l < j ==> answers[l].Ok?
    ensures |r| == |res|
    decreases j - i
  {
    if i == j then res else MergeFrom(answers, i + 1, j, Merge(res, answers[i].value.data))
  }

  /** A result with no NaN left stays that way whatever is merged into it. */
  lemma {:induction false} MergeFromFull(answers: seq<Result<Grid.NdArray>>, i: nat, j: nat, res: seq<Num>)
    requires i <= j <= |answers| && FitAll(answers, |res|)
    requires forall l :: i <= l < j ==> answers[l].Ok?
    requires !AnyNaN(res)
    ensures MergeFrom(answers, i, j, res) == res
    decreases j - i
  {
    if i < j {
      MergeFull(res, answers[i].value.data);
      MergeFromFull(answers, i + 1, j, res);
    }
  }

  /** The loop started at position i0 from res reaches answer i and raises
      its error: answer i is an error, every answer before it is a
      success, and (unless i is the first one visited) the merge of those
      answers still leaves a NaN, so the loop has not broken yet. */
  predicate Raises(answers: seq<Result<Grid.NdArray>>, i0: nat, i: nat, res: seq<Num>)
    requires i0 <= |answers| && FitAll(answers, |res|)
  {
    i0 <= i < |answers| && answers[i].Err?
    && (forall j :: i0 <= j < i ==> answers[j].Ok?)
    && (i == i0 || AnyNaN(MergeFrom(answers, i0, i, res)))
  }

  /** The loop raises e exactly when it reaches an answer that is the
      error e before it has broken. */
  lemma {:induction false} StitchRaises(answers: seq<Result<Grid.NdArray>>, i0: nat, res: seq<Num>, e: Error)
    requires i0 <= |answers| && FitAll(answers, |res|)
    ensures Stitch(answers, i0, res) == Err(e) <==>
              exists i: nat :: Raises(answers, i0, i, res) && answers[i] == Err(e)
    decreases |answers| - i0
  {
    if i0 < |answers| {
      match answers[i0]
      case Err(e0) =>
        assert Raises(answers, i0, i0, res);
        forall i | Raises(answers, i0, i, res) ensures i == i0 { }
      case Ok(a) =>
        var merged := Merge(res, a.data);
        forall i | i0 < i <= |answers| && forall j :: i0 <= j < i ==> answers[j].Ok?
          ensures MergeFrom(answers, i0, i, res) == MergeFrom(answers, i0 + 1, i, merged)
        { }
        if !AnyNaN(merged) {
          forall i | Raises(answers, i0, i, res) ensures false {
            MergeFromFull(answers, i0 + 1, i, merged);
          }
        } else {
          StitchRaises(answers, i0 + 1, merged, e);
          forall i | i0 < i < |answers|
            ensures Raises(answers, i0, i, res) <==> Raises(answers, i0 + 1, i, merged)
          { }
          if Stitch(answers, i0, res) == Err(e) {
            var i: nat :| Raises(answers, i0 + 1, i, merged) && answers[i] == Err(e);
            assert Raises(answers, i0, i, res);
          }
          if exists i: nat :: Raises(answers, i0, i, res) && answers[i] == Err(e) {
            var i: nat :| Raises(answers, i0, i, res) && answers[i] == Err(e);
            assert Raises(answers, i0 + 1, i, merged);
          }
        }
    }
  }

  /** PDF.xfxQ2 over the subgrids `grids`: the NaN-filled result of the
      query's shape, stitched from the subgrids' answers in order; a
      single element is returned as a float. With no subgrid every element
      stays NaN. */
  function Query(num: Numerics, grids: seq<Grid.GridData>, flavor: Arg<int>, x: Arg<real>,
                 q2: Arg<real>, grid: bool): (r: Result<Value>)
    ensures ResultShape(flavor, x, q2, grid).Err? ==> r == Err(ShapeError)
    ensures r.Ok? ==> ResultShape(flavor, x, q2, grid).Ok?
    ensures r.Ok? ==> (r.value.Float? <==> Size(ResultShape(flavor, x, q2, grid).value) == 1)
    ensures r.Ok? && r.value.Array? ==> r.value.shape == ResultShape(flavor, x, q2, grid).value
                                        && |r.value.data| == Size(r.value.shape)
    ensures r.Ok? && r.value.Array? && grid ==> r.value.shape == S2(|Elements(x)|, |Elements(q2)|)
    ensures grids == [] && ResultShape(flavor, x, q2, grid).Ok? ==>
              r.Ok? && Ravel(r.value) == NaNs(Size(ResultShape(flavor, x, q2, grid).value))
  {
    match ResultShape(flavor, x, q2, grid)
    case Err(e) => Err(e)
    case Ok(sh) =>
      QueryShape(num, grids, flavor, x, q2, grid, sh);
      match Stitch(Answers(num, grids, flavor, x, q2, grid), 0, NaNs(Size(sh)))
      case Err(e) => Err(e)
      case Ok(res) =>
        if Size(sh) == 1 then Ok(Float(res[0])) else Ok(Array(sh, res))
  }

  /** Query in terms of the stitch of the answers. */
  lemma QueryOfStitch(num: Numerics, grids: seq<Grid.GridData>, flavor: Arg<int>, x: Arg<real>,
                      q2: Arg<real>, grid: bool, sh: Shape)
    requires ResultShape(flavor, x, q2, grid) == Ok(sh)
    ensures FitAll(Answers(num, grids, flavor, x, q2, grid), Size(sh))
    ensures var s := Stitch(Answers(num, grids, flavor, x, q2, grid), 0, NaNs(Size(sh)));
            Query(num, grids, flavor, x, q2, grid)
            == if s.Err? then Err(s.error)
               else if Size(sh) == 1 then Ok(Float(s.value[0])) else Ok(Array(sh, s.value))
  {
    QueryShape(num, grids, flavor, x, q2, grid, sh);
  }

  /** PDF.xfxQ2 raises e exactly when the loop reaches a subgrid whose
      answer is the error e: every earlier subgrid answers, and the
      earlier answers still leave a NaN element (the first subgrid is
      always queried). */
  lemma QueryRaises(num: Numerics, grids: seq<Grid.GridData>, flavor: Arg<int>, x: Arg<real>,
                    q2: Arg<real>, grid: bool, sh: Shape, e: Error)
    requires ResultShape(flavor, x, q2, grid) == Ok(sh)
    ensures FitAll(Answers(num, grids, flavor, x, q2, grid), Size(sh))
    ensures Query(num, grids, flavor, x, q2, grid) == Err(e) <==>
              exists i: nat :: Raises(Answers(num, grids, flavor, x, q2, grid), 0, i, NaNs(Size(sh)))
                          && Answers(num, grids, flavor, x, q2, grid)[i] == Err(e)
  {
    QueryOfStitch(num, grids, flavor, x, q2, grid, sh);
    StitchRaises(Answers(num, grids, flavor, x, q2, grid), 0, NaNs(Size(sh)), e);
  }

  /** A grid query for more than one distinct flavour on a member with at
      least one subgrid raises InvalidQuery: the first subgrid raises it. */
  lemma MultiFlavourGrid(num: Numerics, grids: seq<Grid.GridData>, flavor: Arg<int>, x: Arg<real>, q2: Arg<real>)
    requires |grids| > 0 && |Grid.Unique(flavor)| > 1
    ensures Query(num, grids, flavor, x, q2, true) == Err(InvalidQuery)
  {
    var sh := ResultShape(flavor, x, q2, true).value;
    var answers := Answers(num, grids, flavor, x, q2, true);
    QueryRaises(num, grids, flavor, x, q2, true, sh, InvalidQuery);
    assert Raises(answers, 0, 0, NaNs(Size(sh)));
  }

  /** When every subgrid answers, PDF.xfxQ2 answers too, and each element
      of its result is the value of the first subgrid, in list order, that
      is not NaN there, or NaN when no subgrid covers it. */
  lemma FirstMatch(num: Numerics, grids: seq<Grid.GridData>, flavor: Arg<int>, x: Arg<real>,
                   q2: Arg<real>, grid: bool, k: nat)
    requires ResultShape(flavor, x, q2, grid).Ok? && k < Size(ResultShape(flavor, x, q2, grid).value)
    requires AllOk(num, grids, flavor, x, q2, grid)
    ensures Query(num, grids, flavor, x, q2, grid).Ok?
    ensures k < |Ravel(Query(num, grids, flavor, x, q2, grid).value)|
    ensures Ravel(Query(num, grids, flavor, x, q2, grid).value)[k]
            == FirstValue(num, grids, flavor, x, q2, grid, ResultShape(flavor, x, q2, grid).value, k)
  {
    var sh := ResultShape(flavor, x, q2, grid).value;
    var answers := Answers(num, grids, flavor, x, q2, grid);
    QueryOfStitch(num, grids, flavor, x, q2, grid, sh);
    assert Answered(answers, 0);
    EarlyStop(answers, 0, NaNs(Size(sh)));
    StitchAllAt(answers, 0, NaNs(Size(sh)), k);
  }

  /** The scalar case: a query for one point returns a float. */
  lemma ScalarQuery(num: Numerics, grids: seq<Grid.GridData>, flavor: int, x: real, q2: real, grid: bool)
    requires Query(num, grids, Scalar(flavor), Scalar(x), Scalar(q2), grid).Ok?
    ensures Query(num, grids, Scalar(flavor), Scalar(x), Scalar(q2), grid).value.Float?
  {
    assert Elements(Scalar(x)) == [x] && Elements(Scalar(q2)) == [q2];
  }

  /** PDF.xfxQ: the query at the squared scale Q**2. */
  function QueryQ(num: Numerics, grids: seq<Grid.GridData>, flavor: Arg<int>, x: Arg<real>,
                  q: Arg<real>, grid: bool): (r: Result<Value>)
    ensures r == Query(num, grids, flavor, x, MapArg(q, num.square), grid)
  {
    Query(num, grids, flavor, x, MapArg(q, num.square), grid)
  }

  /** PDF.xfxQ in terms of the subgrids: when every subgrid answers the
      query at Q**2, element k of the result is the value of the first
      subgrid, in list order, that is not NaN at (x_k, Q_k**2), or NaN. */
  lemma QueryQFirstMatch(num: Numerics, grids: seq<Grid.GridData>, flavor: Arg<int>, x: Arg<real>,
                         q: Arg<real>, grid: bool, k: nat)
    requires ResultShape(flavor, x, q, grid).Ok? && k < Size(ResultShape(flavor, x, q, grid).value)
    requires AllOk(num, grids, flavor, x, MapArg(q, num.square), grid)
    ensures ResultShape(flavor, x, MapArg(q, num.square), grid) == ResultShape(flavor, x, q, grid)
    ensures QueryQ(num, grids, flavor, x, q, grid).Ok?
    ensures k < |Ravel(QueryQ(num, grids, flavor, x, q, grid).value)|
    ensures Ravel(QueryQ(num, grids, flavor, x, q, grid).value)[k]
            == FirstValue(num, grids, flavor, x, MapArg(q, num.square), grid, ResultShape(flavor, x, q, grid).value, k)
  {
    FirstMatch(num, grids, flavor, x, MapArg(q, num.square), grid, k);
  }

  /** Querying the member for flavour 0 is querying it for flavour 21. */
  lemma QueryAlias(num: Numerics, grids: seq<Grid.GridData>, x: Arg<real>, q2: Arg<real>, grid: bool)
    ensures Query(num, grids, Scalar(0), x, q2, grid) == Query(num, grids, Scalar(21), x, q2, grid)
  {
    forall i | 0 <= i < |grids|
      ensures Grid.Query(num, grids[i], Scalar(0), x, q2, grid) == Grid.Query(num, grids[i], Scalar(21), x, q2, grid)
    {
      Grid.QueryAlias(num, grids[i], x, q2, grid);
    }
    assert Answers(num, grids, Scalar(0), x, q2, grid) == Answers(num, grids, Scalar(21), x, q2, grid);
  }

  /** A point that lies outside the widened range of every subgrid, for a
      flavour every subgrid can interpolate, is covered by none of them:
      the member returns NaN for it. */
  lemma UncoveredIsNaN(num: Numerics, grids: seq<Grid.GridData>, f: int, x: real, q2: real)
    requires forall i :: 0 <= i < |grids| ==> Grid.Build(num, grids[i], f).Ok?
    requires forall i :: 0 <= i < |grids| ==>
               Spline.OutX(Grid.Build(num, grids[i], f).value, num.ln(x))
               || Spline.OutY(Grid.Build(num, grids[i], f).value, num.ln(q2))
    ensures Query(num, grids, Scalar(f), Scalar(x), Scalar(q2), false) == Ok(Float(NaN))
  {
    var fa, xa, qa := Scalar(f), Scalar(x), Scalar(q2);
    Grid.UniqueScalar(f);
    assert Elements(fa) == [f];
    assert Broadcast3(S0, S0, S0) == Some(S0);
    assert ResultShape(fa, xa, qa, false) == Ok(S0);
    assert Expand(fa, S0) == [f] && Expand(xa, S0) == [x] && Expand(qa, S0) == [q2];
    forall i | 0 <= i < |grids|
      ensures Grid.Query(num, grids[i], fa, xa, qa, false).Ok?
      ensures Grid.Query(num, grids[i], fa, xa, qa, false).value.data[0].NaN?
    {
      Grid.ScalarPoint(num, grids[i], f, x, q2);
    }
    FirstMatch(num, grids, fa, xa, qa, false, 0);
  }

  // ---------------------------------------------------------------------
  // class PDF
  // ---------------------------------------------------------------------

  /** res[np.isnan(res)] = next[np.isnan(res)], in place. */
  method MergeInto(res: array<Num>, next: seq<Num>)
    requires res.Length == |next|
    modifies res
    ensures res[..] == Merge(old(res[..]), next)
  {
    ghost var before := res[..];
    for k := 0 to res.Length
      invariant forall j :: 0 <= j < k ==> res[j] == Merge(before, next)[j]
      invariant forall j :: k <= j < res.Length ==> res[j] == before[j]
    {
      if res[k].NaN? {
        res[k] := next[k];
      }
    }
    assert res[..] == Merge(before, next);
  }

  /** A member of a PDF set with its subgrids, in file order. */
  class PDF {
    const num: Numerics
    const name: string
    const member: int
    const grids: seq<Grid.PDFGrid>

    /** Every subgrid shares the member's numerics and has a sound cache. */
    ghost predicate Valid()
      reads grids
    {
      forall i :: 0 <= i < |grids| ==> grids[i].num == num && grids[i].Valid()
    }

    /** Every subgrid's cache still holds every entry it held before. */
    twostate predicate CachesKept()
      reads grids
    {
      forall j :: 0 <= j < |grids| ==> grids[j].Keeps(old(grids[j].interpolators))
    }

    /** The subgrids' data. */
    function Data(): (r: seq<Grid.GridData>)
      ensures |r| == |grids| && forall i :: 0 <= i < |grids| ==> r[i] == grids[i].data
    {
      seq(|grids|, i requires 0 <= i < |grids| => grids[i].data)
    }

    constructor(num: Numerics, name: string, member: int, grids: seq<Grid.PDFGrid>)
      ensures this.num == num && this.name == name && this.member == member && this.grids == grids
    {
      this.num := num;
      this.name := name;
      this.member := member;
      this.grids := grids;
    }

    /** PDF.__init__ on the contents of the member's data file: the
        subgrids of its blocks, each with an empty cache. */
    static method Open(num: Numerics, tok: Tokenizer, name: string, member: int, contents: string)
      returns (r: Result<PDF>)
      ensures r.Ok? <==> LoadGrids(tok, contents).Ok?
      ensures r.Err? ==> r.error == LoadGrids(tok, contents).error
      ensures r.Ok? ==> fresh(r.value) && r.value.Valid()
                        && r.value.num == num && r.value.name == name && r.value.member == member
                        && r.value.Data() == LoadGrids(tok, contents).value
                        && forall i :: 0 <= i < |r.value.grids| ==> r.value.grids[i].interpolators == map[]
    {
      var data :- LoadGrids(tok, contents);
      var gs := NewGrids(num, data);
      var p := new PDF(num, name, member, gs);
      assert p.Data() == data;
      return Ok(p);
    }

    /** One new subgrid with an empty cache per subgrid's data, in order. */
    static method NewGrids(num: Numerics, data: seq<Grid.GridData>) returns (gs: seq<Grid.PDFGrid>)
      ensures |gs| == |data|
      ensures forall j :: 0 <= j < |gs| ==> fresh(gs[j]) && gs[j].num == num && gs[j].data == data[j]
                                            && gs[j].interpolators == map[] && gs[j].Valid()
    {
      gs := [];
      for i := 0 to |data|
        invariant |gs| == i
        invariant forall j :: 0 <= j < i ==> fresh(gs[j]) && gs[j].num == num && gs[j].data == data[j]
                                             && gs[j].interpolators == map[] && gs[j].Valid()
      {
        var g := new Grid.PDFGrid(num, data[i]);
        gs := gs + [g];
      }
    }

    /** One subgrid's answer through its cache, which only gains entries;
        the other subgrids' caches are untouched. */
    method QueryGrid(i: nat, flavor: Arg<int>, x: Arg<real>, q2: Arg<real>, grid: bool)
      returns (a: Result<Grid.NdArray>)
      requires Valid() && i < |grids|
      modifies grids[i]
      ensures Valid()
      ensures grids[i].Keeps(old(grids[i].interpolators)) && CachesKept()
      ensures a == Grid.Query(num, grids[i].data, flavor, x, q2, grid)
    {
      a := grids[i].XfxQ2(flavor, x, q2, grid);
      forall j | 0 <= j < |grids|
        ensures grids[j].num == num && grids[j].Valid()
        ensures grids[j].Keeps(old(grids[j].interpolators))
      {
        if grids[j] != grids[i] {
          assert old(grids[j].Valid());
        }
      }
    }

    /** PDF.xfxQ2: fill a NaN array of the result's shape in place from the
        subgrids in order, stopping once no element is NaN. */
    method XfxQ2(flavor: Arg<int>, x: Arg<real>, q2: Arg<real>, grid: bool) returns (r: Result<Value>)
      requires Valid()
      modifies grids
      ensures Valid() && CachesKept()
      ensures r == Query(num, Data(), flavor, x, q2, grid)
    {
      var shape := ResultShape(flavor, x, q2, grid);
      if shape.Err? {
        return Err(shape.error);
      }
      var sh := shape.value;
      var res := new Num[Size(sh)](_ => NaN);
      assert res[..] == NaNs(Size(sh));
      QueryOfStitch(num, Data(), flavor, x, q2, grid, sh);
      var s := Fill(flavor, x, q2, grid, res);
      if s.Err? {
        r := Err(s.error);
      } else if Size(sh) == 1 {
        r := Ok(Float(res[0]));
      } else {
        r := Ok(Array(sh, res[..]));
      }
    }

    /** The loop of PDF.xfxQ2 over the subgrids on the partial result res:
        it leaves in res what Stitch computes, or stops at its error. */
    method Fill(flavor: Arg<int>, x: Arg<real>, q2: Arg<real>, grid: bool, res: array<Num>)
      returns (s: Result<()>)
      requires Valid() && FitAll(Answers(num, Data(), flavor, x, q2, grid), res.Length)
      modifies grids, res
      ensures Valid() && CachesKept()
      ensures var t := Stitch(Answers(num, Data(), flavor, x, q2, grid), 0, old(res[..]));
              if t.Err? then s == Err(t.error) else s.Ok? && res[..] == t.value
    {
      ghost var start := res[..];
      ghost var answers := Answers(num, Data(), flavor, x, q2, grid);
      var i := 0;
      while i < |grids|
        invariant 0 <= i <= |grids|
        invariant Stitch(answers, i, res[..]) == Stitch(answers, 0, start)
        invariant Valid() && CachesKept()
      {
        var stop := Turn(i, flavor, x, q2, grid, res);
        if stop.Err? {
          return Err(stop.error);
        }
        if stop.value {
          return Ok(());
        }
        i := i + 1;
      }
      return Ok(());
    }

    /** One turn of the loop: subgrid i's answer merged into res, and
        whether the loop stops there. */
    method Turn(i: nat, flavor: Arg<int>, x: Arg<real>, q2: Arg<real>, grid: bool, res: array<Num>)
      returns (stop: Result<bool>)
      requires Valid() && i < |grids| && FitAll(Answers(num, Data(), flavor, x, q2, grid), res.Length)
      modifies grids[i], res
      ensures Valid() && CachesKept()
      ensures var answers := Answers(num, Data(), flavor, x, q2, grid);
              var t := Stitch(answers, i, old(res[..]));
              match stop
              case Err(e) => t == Err(e)
              case Ok(true) => t == Ok(res[..])
              case Ok(false) => t == Stitch(answers, i + 1, res[..])
    {
      ghost var answers := Answers(num, Data(), flavor, x, q2, grid);
      var q := QueryGrid(i, flavor, x, q2, grid);
      assert answers[i] == q;
      if q.Err? {
        return Err(q.error);
      }
      MergeInto(res, q.value.data);
      return Ok(!AnyNaN(res[..]));
    }

    /** PDF.xfxQ: the query at Q**2. */
    method XfxQ(flavor: Arg<int>, x: Arg<real>, q: Arg<real>, grid: bool) returns (r: Result<Value>)
      requires Valid()
      modifies grids
      ensures Valid() && CachesKept()
      ensures r == QueryQ(num, Data(), flavor, x, q, grid)
    {
      r := XfxQ2(flavor, x, MapArg(q, num.square), grid);
    }
  }
}
