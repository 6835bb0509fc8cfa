/** PDFGrid in parton/pdf.py: one subgrid of a PDF member in the
    'lhagrid1' format, read from its text block, with a write-once cache
    of one interpolating spline per flavour and the queries over it. */
module Grid {
  import opened Base
  import opened Broadcast
  import Spline

  // ---------------------------------------------------------------------
  // str.splitlines
  // ---------------------------------------------------------------------

  /** The characters str.splitlines ends a line at. */
  predicate IsLineBreak(c: char)
  {
    var n := c as int;
    (10 <= n <= 13) || (28 <= n <= 30) || n == 0x85 || n == 0x2028 || n == 0x2029
  }

  predicate NoBreak(l: string) { forall i :: 0 <= i < |l| ==> !IsLineBreak(l[i]) }

  /** The position of the first line boundary at or after p. */
  function FirstBreak(s: string, p: nat): (r: Option<nat>)
    requires p <= |s|
    ensures r.Some? ==> p <= r.value < |s| && IsLineBreak(s[r.value])
                        && forall i :: p <= i < r.value ==> !IsLineBreak(s[i])
    ensures r.None? ==> forall i :: p <= i < |s| ==> !IsLineBreak(s[i])
    decreases |s| - p
  {
    if p == |s| then None
    else if IsLineBreak(s[p]) then Some(p)
    else FirstBreak(s, p + 1)
  }

  /** str.splitlines: the lines of s without their boundaries; "\r\n" is a
      single boundary, and a boundary at the very end opens no empty line. */
  function SplitLines(s: string): (lines: seq<string>)
    ensures forall i :: 0 <= i < |lines| ==> NoBreak(lines[i])
    decreases |s|
  {
    match FirstBreak(s, 0)
    case None => if s == [] then [] else [s]
    case Some(i) =>
      var e := if s[i] == '\r' && i + 1 < |s| && s[i + 1] == '\n' then i + 2 else i + 1;
      [s[..i]] + SplitLines(s[e..])
  }

  /** Lines written one after another, each ended by "\n". */
  function JoinLines(lines: seq<string>): string
  {
    if lines == [] then [] else lines[0] + "\n" + JoinLines(lines[1..])
  }

  /** A line followed by "\n" splits off as the first line. */
  lemma SplitLinesCons(l: string, rest: string)
    requires NoBreak(l)
    ensures SplitLines(l + "\n" + rest) == [l] + SplitLines(rest)
  {
    var s := l + "\n" + rest;
    assert s[|l|] == '\n';
    assert forall i :: 0 <= i < |l| ==> s[i] == l[i];
    assert FirstBreak(s, 0) == Some(|l|);
    assert s[..|l|] == l;
    assert s[|l| + 1..] == rest;
  }

  /** Splitting text written line by line gives back its lines. */
  lemma {:induction false} SplitJoinLines(lines: seq<string>)
    requires forall i :: 0 <= i < |lines| ==> NoBreak(lines[i])
    ensures SplitLines(JoinLines(lines)) == lines
  {
    if lines != [] {
      SplitLinesCons(lines[0], JoinLines(lines[1..]));
      SplitJoinLines(lines[1..]);
    }
  }

  // ---------------------------------------------------------------------
  // PDFGrid.__init__ and PDFGrid.from_block
  // ---------------------------------------------------------------------

  /** A subgrid: the x nodes, the Q nodes, the table of x*f values with one
      row per (x, Q) node pair (x-major) and one column per flavour, and
      the flavour identifier of each column. */
  datatype GridData = GridData(x: seq<real>, q: seq<real>, xfgrid: seq<seq<real>>, flavors: seq<int>)

  function Parsed<T>(o: Option<T>): (r: Result<T>)
    ensures r.Ok? <==> o.Some?
    ensures r.Err? ==> r.error == ParseError
    ensures r.Ok? ==> r.value == o.value
  {
    match o
    case None => Err(ParseError)
    case Some(v) => Ok(v)
  }

  /** PDFGrid.from_block: line 0 holds the x nodes, line 1 the Q nodes,
      line 2 the flavours and the remaining lines the table. A missing line
      is an IndexError, a line that does not parse a ParseError; each line
      is parsed before the next one is looked up. */
  function FromBlock(tok: Tokenizer, block: string): (r: Result<GridData>)
    ensures var lines := SplitLines(block);
            r.Ok? <==> (|lines| >= 3 && tok.floats(lines[0]).Some? && tok.floats(lines[1]).Some?
                        && tok.ints(lines[2]).Some? && tok.table(lines[3..]).Some?)
    ensures var lines := SplitLines(block);
            r.Ok? ==> r.value == GridData(tok.floats(lines[0]).value, tok.floats(lines[1]).value,
                                          tok.table(lines[3..]).value, tok.ints(lines[2]).value)
    ensures r.Err? ==> r.error == ParseError || (r.error == IndexError && |SplitLines(block)| < 3)
    ensures var lines := SplitLines(block);
            r == Err(IndexError) <==> (|lines| == 0
                                       || (|lines| == 1 && tok.floats(lines[0]).Some?)
                                       || (|lines| == 2 && tok.floats(lines[0]).Some? && tok.floats(lines[1]).Some?))
  {
    var lines := SplitLines(block);
    if |lines| < 1 then Err(IndexError)
    else
      var x :- Parsed(tok.floats(lines[0]));
      if |lines| < 2 then Err(IndexError)
      else
        var q :- Parsed(tok.floats(lines[1]));
        if |lines| < 3 then Err(IndexError)
        else
          var flavors :- Parsed(tok.ints(lines[2]));
          var xfgrid :- Parsed(tok.table(lines[3..]));
          Ok(GridData(x, q, xfgrid, flavors))
  }

  lemma FromBlockOk(tok: Tokenizer, block: string)
    requires var lines := SplitLines(block);
             |lines| >= 3 && tok.floats(lines[0]).Some? && tok.floats(lines[1]).Some?
             && tok.ints(lines[2]).Some? && tok.table(lines[3..]).Some?
    ensures var lines := SplitLines(block);
            FromBlock(tok, block) == Ok(GridData(tok.floats(lines[0]).value, tok.floats(lines[1]).value,
                                                 tok.table(lines[3..]).value, tok.ints(lines[2]).value))
  {
  }

  /** A block written line by line, its x line, Q line and flavour line
      followed by the table lines, reads back as what those lines parse to. */
  lemma FromBlockOfLines(tok: Tokenizer, lines: seq<string>)
    requires forall i :: 0 <= i < |lines| ==> NoBreak(lines[i])
    requires |lines| >= 3 && tok.floats(lines[0]).Some? && tok.floats(lines[1]).Some?
             && tok.ints(lines[2]).Some? && tok.table(lines[3..]).Some?
    ensures FromBlock(tok, JoinLines(lines))
            == Ok(GridData(tok.floats(lines[0]).value, tok.floats(lines[1]).value,
                           tok.table(lines[3..]).value, tok.ints(lines[2]).value))
  {
    SplitJoinLines(lines);
    FromBlockOk(tok, JoinLines(lines));
  }

  /** np.log, elementwise. */
  function Logs(num: Numerics, v: seq<real>): (r: seq<real>)
    ensures |r| == |v| && forall i :: 0 <= i < |v| ==> r[i] == num.ln(v[i])
  {
    seq(|v|, i requires 0 <= i < |v| => num.ln(v[i]))
  }

  /** The logx attribute. */
  function LogX(num: Numerics, d: GridData): seq<real>
  {
    Logs(num, d.x)
  }

  /** The logQ2 attribute: np.log(Q**2). */
  function LogQ2(num: Numerics, d: GridData): (r: seq<real>)
    ensures |r| == |d.q| && forall j :: 0 <= j < |d.q| ==> r[j] == num.ln(num.square(d.q[j]))
  {
    Logs(num, Squares(num, d.q))
  }

  /** Q**2, elementwise. */
  function Squares(num: Numerics, q: seq<real>): (r: seq<real>)
    ensures |r| == |q| && forall j :: 0 <= j < |q| ==> r[j] == num.square(q[j])
  {
    seq(|q|, j requires 0 <= j < |q| => num.square(q[j]))
  }

  // ---------------------------------------------------------------------
  // PDFGrid.flav_index
  // ---------------------------------------------------------------------

  predicate Increasing(s: seq<nat>)
  {
    forall k, l :: 0 <= k < l < |s| ==> s[k] < s[l]
  }

  /** np.where(flavors == f): every position holding f, in increasing order. */
  function Positions(flavors: seq<int>, f: int): (idx: seq<nat>)
    ensures forall k :: 0 <= k < |idx| ==> idx[k] < |flavors| && flavors[idx[k]] == f
    ensures forall j :: 0 <= j < |flavors| && flavors[j] == f ==> j in idx
    ensures Increasing(idx)
  {
    if flavors == [] then []
    else
      var last := |flavors| - 1;
      var rest := Positions(flavors[..last], f);
      if flavors[last] == f then rest + [last] else rest
  }

  /** The flavour a query for `flavor` looks up: 0 stands for the gluon, 21. */
  function Canonical(flavor: int): int { if flavor == 0 then 21 else flavor }

  /** PDFGrid.flav_index: the positions of the flavour (of 21 for 0) among
      the subgrid's flavours, or UnknownFlavor naming the flavour looked up
      when it is absent. */
  function FlavIndex(flavors: seq<int>, flavor: int): (r: Result<seq<nat>>)
    ensures r.Ok? <==> Canonical(flavor) in flavors
    ensures r.Err? ==> r.error == UnknownFlavor(Canonical(flavor))
    ensures r.Ok? ==> |r.value| > 0 && Increasing(r.value)
                      && (forall k :: 0 <= k < |r.value| ==>
                            r.value[k] < |flavors| && flavors[r.value[k]] == Canonical(flavor))
                      && (forall j :: 0 <= j < |flavors| && flavors[j] == Canonical(flavor) ==> j in r.value)
    decreases if flavor == 0 then 1 else 0
  {
    if flavor == 0 then FlavIndex(flavors, 21)
    else if flavor !in flavors then Err(UnknownFlavor(flavor))
    else
      assert |Positions(flavors, flavor)| > 0 by {
        var j :| 0 <= j < |flavors| && flavors[j] == flavor;
        assert j in Positions(flavors, flavor);
      }
      Ok(Positions(flavors, flavor))
  }

  /** Asking for flavour 0 is asking for flavour 21. */
  lemma FlavIndexAlias(flavors: seq<int>)
    ensures FlavIndex(flavors, 0) == FlavIndex(flavors, 21)
  {
  }

  /** Among distinct flavours, a flavour present at position j is found at
      exactly that position. */
  lemma FlavIndexUnique(flavors: seq<int>, j: nat)
    requires j < |flavors| && flavors[j] != 0
    requires forall a, b :: 0 <= a < b < |flavors| ==> flavors[a] != flavors[b]
    ensures FlavIndex(flavors, flavors[j]) == Ok([j])
  {
    PositionsOnly(flavors, flavors[j], j);
  }

  lemma PositionsNone(s: seq<int>, f: int)
    requires f !in s
    ensures Positions(s, f) == []
  {
  }

  /** A value held at position j only is found at position j only. */
  lemma {:induction false} PositionsOnly(s: seq<int>, f: int, j: nat)
    requires j < |s| && s[j] == f
    requires forall i :: 0 <= i < |s| && i != j ==> s[i] != f
    ensures Positions(s, f) == [j]
  {
    var last := |s| - 1;
    if j == last {
      PositionsNone(s[..last], f);
    } else {
      PositionsOnly(s[..last], f, j);
    }
  }

  // ---------------------------------------------------------------------
  // PDFGrid.interpolator without its cache
  // ---------------------------------------------------------------------

  /** No row of the table lacks any of the columns idx. */
  predicate HasColumns(xfgrid: seq<seq<real>>, idx: seq<nat>)
  {
    forall row, c :: 0 <= row < |xfgrid| && 0 <= c < |idx| ==> idx[c] < |xfgrid[row]|
  }

  /** xfgrid[:, idx] read row-major (entry row * |idx| + c is column idx[c]
      of that row, see ColumnsAt); an IndexError when a row has no such
      column. */
  function Columns(xfgrid: seq<seq<real>>, idx: seq<nat>): (r: Result<seq<real>>)
    ensures r.Ok? <==> HasColumns(xfgrid, idx)
    ensures r.Err? ==> r.error == IndexError
    ensures r.Ok? ==> |r.value| == |xfgrid| * |idx|
  {
    if !HasColumns(xfgrid, idx) then Err(IndexError)
    else Ok(seq(|xfgrid| * |idx|, k requires 0 <= k < |xfgrid| * |idx| => Gathered(xfgrid, idx, k)))
  }

  /** Entry k of xfgrid[:, idx] read row-major. */
  function Gathered(xfgrid: seq<seq<real>>, idx: seq<nat>, k: nat): real
    requires HasColumns(xfgrid, idx) && k < |xfgrid| * |idx|
  {
    Spline.FlatIndex(k, |xfgrid|, |idx|);
    xfgrid[k / |idx|][idx[k % |idx|]]
  }

  /** Entry (row, c) of xfgrid[:, idx] is column idx[c] of that row. */
  lemma ColumnsAt(xfgrid: seq<seq<real>>, idx: seq<nat>, row: nat, c: nat)
    requires Columns(xfgrid, idx).Ok? && row < |xfgrid| && c < |idx|
    ensures row * |idx| + c < |Columns(xfgrid, idx).value|
    ensures Columns(xfgrid, idx).value[row * |idx| + c] == xfgrid[row][idx[c]]
  {
    Spline.FlatIndexOf(row, c, |xfgrid|, |idx|);
  }

  /** .reshape(m, n): m rows of n entries (entry (i, j) is entry i * n + j,
      see ReshapeAt); a ShapeError unless there are exactly m * n entries. */
  function Reshape(flat: seq<real>, m: nat, n: nat): (r: Result<seq<seq<real>>>)
    ensures r.Ok? <==> |flat| == m * n
    ensures r.Err? ==> r.error == ShapeError
    ensures r.Ok? ==> |r.value| == m && forall i :: 0 <= i < m ==> |r.value[i]| == n
  {
    if |flat| != m * n then Err(ShapeError)
    else
      Ok(seq(m, i requires 0 <= i < m =>
           seq(n, j requires 0 <= j < n => Spline.FlatIndexOf(i, j, m, n); flat[i * n + j])))
  }

  /** Entry (i, j) of the reshaped array is entry i * n + j of the flat one. */
  lemma ReshapeAt(flat: seq<real>, m: nat, n: nat, i: nat, j: nat)
    requires Reshape(flat, m, n).Ok? && i < m && j < n
    ensures i * n + j < |flat| && Reshape(flat, m, n).value[i][j] == flat[i * n + j]
  {
    Spline.FlatIndexOf(i, j, m, n);
  }

  /** self.xfgrid[:, i].reshape(m, n) with m = len(x) and n = len(Q): an
      IndexError when a row lacks one of the columns, a ShapeError when the
      selected entries are not m * n, otherwise m rows of n values. */
  function Values(d: GridData, idx: seq<nat>): (r: Result<seq<seq<real>>>)
    ensures r.Ok? <==> HasColumns(d.xfgrid, idx) && |d.xfgrid| * |idx| == |d.x| * |d.q|
    ensures r.Err? ==> r.error == if HasColumns(d.xfgrid, idx) then ShapeError else IndexError
    ensures r.Ok? ==> |r.value| == |d.x| && forall i :: 0 <= i < |d.x| ==> |r.value[i]| == |d.q|
  {
    match Columns(d.xfgrid, idx)
    case Err(e) => Err(e)
    case Ok(flat) => Reshape(flat, |d.x|, |d.q|)
  }

  /** The matrix for a single column c exists exactly when the table has
      |x| * |Q| rows, all of them with a column c. */
  lemma ValuesColumn(d: GridData, c: nat)
    ensures Values(d, [c]).Ok? <==> |d.xfgrid| == |d.x| * |d.q|
                                    && forall row :: 0 <= row < |d.xfgrid| ==> c < |d.xfgrid[row]|
  {
    var cols := Columns(d.xfgrid, [c]);
    if cols.Ok? {
      assert |cols.value| == |d.xfgrid| * 1 == |d.xfgrid|;
      forall row | 0 <= row < |d.xfgrid| ensures c < |d.xfgrid[row]| {
        assert [c][0] == c;
      }
    } else {
      var row, k :| 0 <= row < |d.xfgrid| && 0 <= k < 1 && [c][k] >= |d.xfgrid[row]|;
      assert [c][k] == c;
    }
  }

  /** The matrix handed to the spline for column c is the table read as
      |x| rows of |Q| values: entry (i, j) is column c of the table's row
      i * |Q| + j. */
  lemma ValuesAt(d: GridData, c: nat, i: nat, j: nat)
    requires Values(d, [c]).Ok? && i < |d.x| && j < |d.q|
    ensures i * |d.q| + j < |d.xfgrid| && c < |d.xfgrid[i * |d.q| + j]|
    ensures Values(d, [c]).value[i][j] == d.xfgrid[i * |d.q| + j][c]
  {
    var cols := Columns(d.xfgrid, [c]);
    ReshapeAt(cols.value, |d.x|, |d.q|, i, j);
    var row := i * |d.q| + j;
    ColumnsAt(d.xfgrid, [c], row, 0);
    assert row * |[c]| + 0 == row;
  }

  /** PDFGrid.interpolator(flavor) without the cache: the flavour's column
      of the table reshaped to |x| rows of |Q| values, fitted over
      (log x, log Q2); the spline never raises and fills out-of-range points
      with NaN. Errors come from the flavour lookup (UnknownFlavor), the
      column (IndexError), the reshape (ShapeError) and the fit (FitError),
      in that order. */
  function Build(num: Numerics, d: GridData, flavor: int): (r: Result<Spline.Spline>)
    ensures r.Ok? <==> Canonical(flavor) in d.flavors
                       && Values(d, FlavIndex(d.flavors, flavor).value).Ok?
                       && Fitted(num, d, Values(d, FlavIndex(d.flavors, flavor).value).value)
    ensures FlavIndex(d.flavors, flavor).Err? ==> r == Err(UnknownFlavor(Canonical(flavor)))
    ensures var fi := FlavIndex(d.flavors, flavor);
            fi.Ok? && !HasColumns(d.xfgrid, fi.value) ==> r == Err(IndexError)
    ensures var fi := FlavIndex(d.flavors, flavor);
            fi.Ok? && HasColumns(d.xfgrid, fi.value) && |d.xfgrid| * |fi.value| != |d.x| * |d.q|
            ==> r == Err(ShapeError)
    ensures var fi := FlavIndex(d.flavors, flavor);
            fi.Ok? && Values(d, fi.value).Ok? && !Fitted(num, d, Values(d, fi.value).value)
            ==> r == Err(FitError)
    ensures r.Ok? ==> r.value.surface == num.fit(LogX(num, d), LogQ2(num, d),
                                                 Values(d, FlavIndex(d.flavors, flavor).value).value).value
    ensures r.Ok? ==> !r.value.boundsError && r.value.fill == Spline.FillWith(NaN)
    ensures r.Ok? ==> var lx, lq := LogX(num, d), LogQ2(num, d);
                      r.value.xMin == Spline.SeqMin(lx) - Spline.Margin(Spline.SeqMin(lx))
                      && r.value.xMax == Spline.SeqMax(lx) + Spline.Margin(Spline.SeqMax(lx))
                      && r.value.yMin == Spline.SeqMin(lq) - Spline.Margin(Spline.SeqMin(lq))
                      && r.value.yMax == Spline.SeqMax(lq) + Spline.Margin(Spline.SeqMax(lq))
    ensures r.Ok? ==> (forall i :: 0 <= i < |d.x| ==> !Spline.OutX(r.value, LogX(num, d)[i]))
                      && (forall j :: 0 <= j < |d.q| ==> !Spline.OutY(r.value, LogQ2(num, d)[j]))
  {
    match FlavIndex(d.flavors, flavor)
    case Err(e) => Err(e)
    case Ok(idx) =>
      match Values(d, idx)
      case Err(e) => Err(e)
      case Ok(z) => Spline.Make(num.fit, LogX(num, d), LogQ2(num, d), z, false, Spline.FillWith(NaN))
  }

  /** The spline library accepts the value matrix z over the subgrid's
      (log x, log Q2) axes, and neither axis is empty. */
  predicate Fitted(num: Numerics, d: GridData, z: seq<seq<real>>)
  {
    num.fit(LogX(num, d), LogQ2(num, d), z).Some? && |d.x| > 0 && |d.q| > 0
  }

  /** The interpolator for flavour 0 is the one for flavour 21. */
  lemma BuildAlias(num: Numerics, d: GridData)
    ensures Build(num, d, 0) == Build(num, d, 21)
  {
    FlavIndexAlias(d.flavors);
  }

  // ---------------------------------------------------------------------
  // PDFGrid.xfxQ2 without the cache
  // ---------------------------------------------------------------------

  predicate StrictlyIncreasing(s: seq<int>)
  {
    forall k, l :: 0 <= k < l < |s| ==> s[k] < s[l]
  }

  /** Inserts v into a strictly increasing sequence. */
  function Insert(u: seq<int>, v: int): (r: seq<int>)
    requires StrictlyIncreasing(u)
    ensures StrictlyIncreasing(r)
    ensures forall w :: w in r <==> w in u || w == v
    ensures |r| > 0 && (r[0] == v || (u != [] && r[0] == u[0]))
  {
    if u == [] then [v]
    else if v < u[0] then [v] + u
    else if v == u[0] then u
    else [u[0]] + Insert(u[1..], v)
  }

  /** np.unique over a sequence: its distinct values, increasing. */
  function SortedUnique(s: seq<int>): (u: seq<int>)
    ensures StrictlyIncreasing(u)
    ensures forall w :: w in u <==> w in s
  {
    if s == [] then []
    else Insert(SortedUnique(s[..|s| - 1]), s[|s| - 1])
  }

  /** np.unique(flavor): the distinct flavours asked for, increasing. */
  function Unique(flavor: Arg<int>): (u: seq<int>)
    ensures StrictlyIncreasing(u)
    ensures forall w :: w in u <==> w in Elements(flavor)
    ensures |u| > 0 <==> |Elements(flavor)| > 0
  {
    SortedUnique(Elements(flavor))
  }

  /** A single flavour is its own one distinct value. */
  lemma UniqueScalar(f: int)
    ensures Unique(Scalar(f)) == [f]
  {
    assert Elements(Scalar(f)) == [f];
    assert [f][..0] == [];
    assert SortedUnique([]) == [];
    assert Insert([], f) == [f];
  }

  /** An n-dimensional result, stored flat in row-major order. */
  datatype NdArray = NdArray(shape: Shape, data: seq<Num>)

  /** Element (i, j) of a two-dimensional result. */
  function Entry(a: NdArray, i: nat, j: nat): Num
    requires a.shape.S2? && i < a.shape.m && j < a.shape.n && |a.data| == Size(a.shape)
  {
    Spline.FlatIndexOf(i, j, a.shape.m, a.shape.n);
    a.data[i * a.shape.n + j]
  }

  /** out[mask] = values[mask] with mask = (flavor == f). */
  function Mask(out: seq<Num>, values: seq<Num>, fe: seq<int>, f: int): (r: seq<Num>)
    requires |values| == |out| == |fe|
    ensures |r| == |out|
    ensures forall k :: 0 <= k < |out| ==> r[k] == if fe[k] == f then values[k] else out[k]
  {
    seq(|out|, k requires 0 <= k < |out| => if fe[k] == f then values[k] else out[k])
  }

  /** The first flavour of fs whose interpolator cannot be built fails
      with error e, every flavour before it builds. */
  predicate FirstFailure(num: Numerics, d: GridData, fs: seq<int>, e: Error)
  {
    exists i :: 0 <= i < |fs| && Build(num, d, fs[i]) == Err(e)
                && forall j :: 0 <= j < i ==> Build(num, d, fs[j]).Ok?
  }

  /** A flavour that builds, followed by flavours whose first failure is
      e, makes a sequence whose first failure is e. */
  lemma FirstFailureCons(num: Numerics, d: GridData, fs: seq<int>, e: Error)
    requires |fs| > 0 && Build(num, d, fs[0]).Ok? && FirstFailure(num, d, fs[1..], e)
    ensures FirstFailure(num, d, fs, e)
  {
    var i :| 0 <= i < |fs[1..]| && Build(num, d, fs[1..][i]) == Err(e)
             && forall j :: 0 <= j < i ==> Build(num, d, fs[1..][j]).Ok?;
    assert Build(num, d, fs[i + 1]) == Err(e);
    forall j | 0 <= j < i + 1
      ensures Build(num, d, fs[j]).Ok?
    {
      if j > 0 { assert fs[j] == fs[1..][j - 1]; }
    }
  }

  lemma InTail(fs: seq<int>)
    requires |fs| > 0
    ensures forall f :: f in fs <==> f == fs[0] || f in fs[1..]
  {
    assert fs == [fs[0]] + fs[1..];
  }

  /** The loop over flavors[1:] in PDFGrid.xfxQ2: each flavour in turn
      overwrites the elements that ask for it with its own interpolator's
      values. It fails exactly when some flavour's interpolator cannot be
      built, with the error of the first such flavour. */
  function Overlay(num: Numerics, d: GridData, fs: seq<int>, fe: seq<int>,
                   lx: seq<real>, lq: seq<real>, out: seq<Num>): (r: Result<seq<Num>>)
    requires |fe| == |lx| == |lq| == |out|
    ensures r.Ok? <==> forall f :: f in fs ==> Build(num, d, f).Ok?
    ensures r.Err? ==> FirstFailure(num, d, fs, r.error)
    ensures r.Ok? ==> |r.value| == |out|
    decreases |fs|
  {
    if fs == [] then Ok(out)
    else
      InTail(fs);
      match Build(num, d, fs[0])
      case Err(e) => assert Build(num, d, fs[0]) == Err(e); Err(e)
      case Ok(s) =>
        // bounds_error is off, so the interpolator never raises
        var values := Spline.EvalPoints(s, lx, lq).value;
        var r := Overlay(num, d, fs[1..], fe, lx, lq, Mask(out, values, fe, fs[0]));
        if r.Err? then FirstFailureCons(num, d, fs, r.error); r else r
  }

  /** PDFGrid.xfxQ2 on a subgrid. With grid set: a RuntimeError
      (InvalidQuery) for more than one distinct flavour, otherwise the
      spline of the one flavour on the |x| x |Q2| grid of the logarithms.
      Without: flavour, x and Q2 broadcast to one shape (a ShapeError when
      they do not), the first flavour's spline evaluated at every point,
      then each further flavour overwriting the points that ask for it.
      Either way the query succeeds exactly when the interpolator of every
      flavour asked for can be built; an empty flavour array is an
      IndexError. */
  function Query(num: Numerics, d: GridData, flavor: Arg<int>, x: Arg<real>, q2: Arg<real>,
                 grid: bool): (r: Result<NdArray>)
    ensures grid && |Unique(flavor)| > 1 ==> r == Err(InvalidQuery)
    ensures r.Ok? ==> |r.value.data| == Size(r.value.shape)
    ensures r.Ok? && grid ==> r.value.shape == S2(|Elements(x)|, |Elements(q2)|)
    ensures r.Ok? && !grid ==> Broadcast3(ShapeOf(flavor), ShapeOf(x), ShapeOf(q2)) == Some(r.value.shape)
  {
    if grid then
      match GridQuery(num, d, Unique(flavor), Elements(x), Elements(q2))
      case Err(e) => Err(e)
      case Ok(z) => Ok(NdArray(S2(|Elements(x)|, |Elements(q2)|), z))
    else
      match Broadcast3(ShapeOf(flavor), ShapeOf(x), ShapeOf(q2))
      case None => Err(ShapeError)
      case Some(sh) =>
        match PointQuery(num, d, Unique(flavor), Expand(flavor, sh), Expand(x, sh), Expand(q2, sh))
        case Err(e) => Err(e)
        case Ok(z) => Ok(NdArray(sh, z))
  }

  /** When PDFGrid.xfxQ2 succeeds and which error it raises otherwise: a
      grid query succeeds exactly when there is one distinct flavour and
      its interpolator builds; a pointwise query raises a ShapeError when
      the arguments do not broadcast and otherwise succeeds exactly when
      the interpolator of every flavour asked for builds; an empty flavour
      array is an IndexError. */
  lemma QueryOutcome(num: Numerics, d: GridData, flavor: Arg<int>, x: Arg<real>, q2: Arg<real>, grid: bool)
    ensures var r := Query(num, d, flavor, x, q2, grid);
            grid ==> (r.Ok? <==> |Unique(flavor)| == 1 && Build(num, d, Unique(flavor)[0]).Ok?)
    ensures var r := Query(num, d, flavor, x, q2, grid);
            !grid && Broadcast3(ShapeOf(flavor), ShapeOf(x), ShapeOf(q2)) == None ==> r == Err(ShapeError)
    ensures var r := Query(num, d, flavor, x, q2, grid);
            !grid && Broadcast3(ShapeOf(flavor), ShapeOf(x), ShapeOf(q2)).Some?
            ==> (r.Ok? <==> |Elements(flavor)| > 0 && forall f :: f in Elements(flavor) ==> Build(num, d, f).Ok?)
    ensures var r := Query(num, d, flavor, x, q2, grid);
            |Elements(flavor)| == 0 && (grid || Broadcast3(ShapeOf(flavor), ShapeOf(x), ShapeOf(q2)).Some?)
            ==> r == Err(IndexError)
  {
  }

  /** The grid branch of PDFGrid.xfxQ2 for the distinct flavours fl: a
      RuntimeError for several, an IndexError for none, and for one the
      spline on the grid of the logarithms, which fails only when the
      interpolator cannot be built. */
  function GridQuery(num: Numerics, d: GridData, fl: seq<int>, x: seq<real>, q2: seq<real>): (r: Result<seq<Num>>)
    ensures |fl| > 1 ==> r == Err(InvalidQuery)
    ensures |fl| == 0 ==> r == Err(IndexError)
    ensures |fl| == 1 ==> (r.Ok? <==> Build(num, d, fl[0]).Ok?)
    ensures |fl| == 1 && Build(num, d, fl[0]).Err? ==> r == Err(Build(num, d, fl[0]).error)
    ensures r.Ok? ==> |fl| == 1 && Build(num, d, fl[0]).Ok?
                      && r == Spline.EvalGrid(Build(num, d, fl[0]).value, Logs(num, x), Logs(num, q2))
    ensures r.Ok? ==> |r.value| == |x| * |q2|
  {
    if |fl| > 1 then Err(InvalidQuery)
    else if |fl| == 0 then Err(IndexError)
    else
      match Build(num, d, fl[0])
      case Err(e) => Err(e)
      case Ok(s) => Spline.EvalGrid(s, Logs(num, x), Logs(num, q2))
  }

  /** The pointwise branch of PDFGrid.xfxQ2 for the distinct flavours fl
      and the broadcast flavour, x and Q2 arrays: an IndexError for no
      flavour; otherwise it fails exactly when some flavour's interpolator
      cannot be built, with the error of the first such flavour (the
      interpolators never raise on a point). */
  function PointQuery(num: Numerics, d: GridData, fl: seq<int>, fe: seq<int>,
                      x: seq<real>, q2: seq<real>): (r: Result<seq<Num>>)
    requires |fe| == |x| == |q2|
    ensures r.Ok? <==> |fl| > 0 && forall f :: f in fl ==> Build(num, d, f).Ok?
    ensures |fl| == 0 ==> r == Err(IndexError)
    ensures r.Err? && |fl| > 0 ==> FirstFailure(num, d, fl, r.error)
    ensures r.Ok? ==> |r.value| == |fe|
  {
    if |fl| == 0 then Err(IndexError)
    else
      var lx, lq := Logs(num, x), Logs(num, q2);
      InTail(fl);
      match Build(num, d, fl[0])
      case Err(e) => assert Build(num, d, fl[0]) == Err(e); Err(e)
      case Ok(s) =>
        // bounds_error is off, so the interpolator never raises
        var first := Spline.EvalPoints(s, lx, lq).value;
        var r := Overlay(num, d, fl[1..], fe, lx, lq, first);
        if r.Err? then FirstFailureCons(num, d, fl, r.error); r else r
  }

  /** After the overlay loop, an element whose flavour was among the
      flavours processed holds that flavour's spline value at its own
      point, and every other element is untouched. */
  lemma {:induction false} OverlayAt(num: Numerics, d: GridData, fs: seq<int>, fe: seq<int>,
                                     lx: seq<real>, lq: seq<real>, out: seq<Num>, k: nat)
    requires |fe| == |lx| == |lq| == |out| && k < |out|
    requires Overlay(num, d, fs, fe, lx, lq, out).Ok?
    ensures fe[k] in fs ==> Build(num, d, fe[k]).Ok?
                            && Overlay(num, d, fs, fe, lx, lq, out).value[k]
                               == Spline.Cell(Build(num, d, fe[k]).value, lx[k], lq[k])
    ensures fe[k] !in fs ==> Overlay(num, d, fs, fe, lx, lq, out).value[k] == out[k]
    decreases |fs|
  {
    if fs != [] {
      InTail(fs);
      assert Build(num, d, fs[0]).Ok?;
      var s := Build(num, d, fs[0]).value;
      var values := Spline.EvalPoints(s, lx, lq).value;
      var next := Mask(out, values, fe, fs[0]);
      assert Overlay(num, d, fs, fe, lx, lq, out) == Overlay(num, d, fs[1..], fe, lx, lq, next);
      OverlayAt(num, d, fs[1..], fe, lx, lq, next, k);
      if fe[k] == fs[0] {
        assert next[k] == values[k] == Spline.Cell(s, lx[k], lq[k]);
      }
    }
  }

  /** In the pointwise branch, an element whose flavour is among fl holds
      its own flavour's spline value at its own (log x, log Q2). */
  lemma PointQueryAt(num: Numerics, d: GridData, fl: seq<int>, fe: seq<int>,
                     x: seq<real>, q2: seq<real>, k: nat)
    requires |fe| == |x| == |q2| && k < |fe| && fe[k] in fl
    requires PointQuery(num, d, fl, fe, x, q2).Ok?
    ensures Build(num, d, fe[k]).Ok?
    ensures PointQuery(num, d, fl, fe, x, q2).value[k]
            == Spline.Cell(Build(num, d, fe[k]).value, num.ln(x[k]), num.ln(q2[k]))
  {
    var lx, lq := Logs(num, x), Logs(num, q2);
    var s := Build(num, d, fl[0]).value;
    var first := Spline.EvalPoints(s, lx, lq).value;
    OverlayAt(num, d, fl[1..], fe, lx, lq, first, k);
    if fe[k] !in fl[1..] {
      assert fl == [fl[0]] + fl[1..];
    }
  }

  /** A pointwise query returns, at each point, the value of that point's
      own flavour's interpolator at (log x, log Q2) of the point. */
  lemma PointwiseOwnFlavour(num: Numerics, d: GridData, flavor: Arg<int>, x: Arg<real>,
                            q2: Arg<real>, k: nat)
    requires Query(num, d, flavor, x, q2, false).Ok?
    requires k < |Query(num, d, flavor, x, q2, false).value.data|
    ensures var sh := Query(num, d, flavor, x, q2, false).value.shape;
            var f := Expand(flavor, sh)[k];
            Build(num, d, f).Ok?
            && Query(num, d, flavor, x, q2, false).value.data[k]
               == Spline.Cell(Build(num, d, f).value, num.ln(Expand(x, sh)[k]), num.ln(Expand(q2, sh)[k]))
  {
    var sh := Broadcast3(ShapeOf(flavor), ShapeOf(x), ShapeOf(q2)).value;
    var fe := Expand(flavor, sh);
    assert fe[k] in Elements(flavor);
    PointQueryAt(num, d, Unique(flavor), fe, Expand(x, sh), Expand(q2, sh), k);
  }

  /** A grid query returns, at entry (i, j), the one flavour's spline value
      at (log x_i, log Q2_j): NaN when either lies outside the subgrid's
      widened range. */
  lemma GridEntry(num: Numerics, d: GridData, flavor: int, x: seq<real>, q2: seq<real>, i: nat, j: nat)
    requires Query(num, d, Scalar(flavor), Vector(x), Vector(q2), true).Ok?
    requires i < |x| && j < |q2|
    ensures Build(num, d, flavor).Ok?
    ensures Entry(Query(num, d, Scalar(flavor), Vector(x), Vector(q2), true).value, i, j)
            == Spline.Cell(Build(num, d, flavor).value, num.ln(x[i]), num.ln(q2[j]))
  {
    UniqueScalar(flavor);
    var g := GridQuery(num, d, [flavor], x, q2);
    assert Query(num, d, Scalar(flavor), Vector(x), Vector(q2), true) == Ok(NdArray(S2(|x|, |q2|), g.value));
    var s := Build(num, d, flavor).value;
    var lx, lq := Logs(num, x), Logs(num, q2);
    assert g == Spline.EvalGrid(s, lx, lq);
    Spline.GridAt(s, lx, lq, i, j);
    assert lx[i] == num.ln(x[i]) && lq[j] == num.ln(q2[j]);
  }

  /** Querying flavour 0 is querying flavour 21, in either branch. */
  lemma QueryAlias(num: Numerics, d: GridData, x: Arg<real>, q2: Arg<real>, grid: bool)
    ensures Query(num, d, Scalar(0), x, q2, grid) == Query(num, d, Scalar(21), x, q2, grid)
  {
    UniqueScalar(0);
    UniqueScalar(21);
    BuildAlias(num, d);
  }

  /** The logarithms of a meshgrid are the meshgrid of the logarithms. */
  lemma LogsMesh(num: Numerics, x: seq<real>, q2: seq<real>)
    ensures Logs(num, Spline.MeshX(x, q2)) == Spline.MeshX(Logs(num, x), Logs(num, q2))
    ensures Logs(num, Spline.MeshY(x, q2)) == Spline.MeshY(Logs(num, x), Logs(num, q2))
  {
    var lx, lq := Logs(num, x), Logs(num, q2);
    forall k | 0 <= k < |x| * |q2|
      ensures Logs(num, Spline.MeshX(x, q2))[k] == Spline.MeshX(lx, lq)[k]
      ensures Logs(num, Spline.MeshY(x, q2))[k] == Spline.MeshY(lx, lq)[k]
    {
      Spline.FlatIndex(k, |x|, |q2|);
    }
  }

  /** For a single flavour, the grid query over x and Q2 succeeds exactly
      when the pointwise query over their meshgrid does, and gives the same
      values in the same (row-major) order. */
  lemma GridMatchesPointwise(num: Numerics, d: GridData, f: int, x: seq<real>, q2: seq<real>)
    ensures var g := Query(num, d, Scalar(f), Vector(x), Vector(q2), true);
            var p := Query(num, d, Scalar(f), Vector(Spline.MeshX(x, q2)), Vector(Spline.MeshY(x, q2)), false);
            (g.Ok? <==> p.Ok?) && (g.Ok? ==> g.value.data == p.value.data)
  {
    UniqueScalar(f);
    var mx, my := Spline.MeshX(x, q2), Spline.MeshY(x, q2);
    var sh := S1(|x| * |q2|);
    assert Broadcast3(S0, sh, sh) == Some(sh);
    assert Elements(Scalar(f)) == [f];
    var g := Query(num, d, Scalar(f), Vector(x), Vector(q2), true);
    var p := Query(num, d, Scalar(f), Vector(mx), Vector(my), false);
    QueryOutcome(num, d, Scalar(f), Vector(x), Vector(q2), true);
    QueryOutcome(num, d, Scalar(f), Vector(mx), Vector(my), false);
    if g.Ok? && |x| > 0 && |q2| > 0 {
      var s := Build(num, d, f).value;
      var lx, lq := Logs(num, x), Logs(num, q2);
      assert g.value.data == Spline.EvalGrid(s, lx, lq).value;
      Spline.GridIsPointwiseOnMesh(s, lx, lq);
      LogsMesh(num, x, q2);
      var fe := Expand(Scalar(f), sh);
      assert Expand(Vector(mx), sh) == mx && Expand(Vector(my), sh) == my;
      assert p.value.data == PointQuery(num, d, [f], fe, mx, my).value;
      assert [f][1..] == [];
      assert PointQuery(num, d, [f], fe, mx, my).value == Spline.EvalPoints(s, Logs(num, mx), Logs(num, my)).value;
    }
  }

  /** The spline library's fit passes through the values it is given. */
  ghost predicate Interpolating(fit: (seq<real>, seq<real>, seq<seq<real>>) -> Option<Surface>)
  {
    forall xs, ys, z, i, j {:trigger fit(xs, ys, z).value(xs[i], ys[j])} ::
      fit(xs, ys, z).Some? && 0 <= i < |xs| && 0 <= j < |ys| && i < |z| && j < |z[i]| ==>
        fit(xs, ys, z).value(xs[i], ys[j]) == z[i][j]
  }

  /** The table's entry for node (x_i, Q_j) and column c, if it has one. */
  function Node(d: GridData, c: nat, i: nat, j: nat): Option<real>
  {
    var row := i * |d.q| + j;
    if row < |d.xfgrid| && c < |d.xfgrid[row]| then Some(d.xfgrid[row][c]) else None
  }

  /** With an interpolating fit, a query at a node (x_i, Q_j) of the
      subgrid for the flavour of column c returns the table's entry for
      that node and column. */
  lemma NodeValue(num: Numerics, d: GridData, c: nat, i: nat, j: nat)
    requires Interpolating(num.fit)
    requires c < |d.flavors| && d.flavors[c] != 0
    requires forall a, b :: 0 <= a < b < |d.flavors| ==> d.flavors[a] != d.flavors[b]
    requires i < |d.x| && j < |d.q|
    requires Build(num, d, d.flavors[c]).Ok?
    ensures var r := Query(num, d, Scalar(d.flavors[c]), Scalar(d.x[i]), Scalar(num.square(d.q[j])), false);
            r.Ok? && r.value.shape == S0 && Node(d, c, i, j).Some?
            && r.value.data == [Real(Node(d, c, i, j).value)]
  {
    var f := d.flavors[c];
    FlavIndexUnique(d.flavors, c);
    ValuesAt(d, c, i, j);
    var z := Values(d, [c]).value;
    var s := Build(num, d, f).value;
    var lx, lq := LogX(num, d), LogQ2(num, d);
    assert s.surface(lx[i], lq[j]) == z[i][j];
    var x1, q1 := num.ln(d.x[i]), num.ln(num.square(d.q[j]));
    assert x1 == lx[i] && q1 == lq[j];
    assert !Spline.OutX(s, x1) && !Spline.OutY(s, q1);
    ScalarPoint(num, d, f, d.x[i], num.square(d.q[j]));
  }

  /** A pointwise query at one point of a flavour whose interpolator builds
      returns that interpolator's (filled) value there, as a float. */
  lemma ScalarPoint(num: Numerics, d: GridData, f: int, x: real, q2: real)
    requires Build(num, d, f).Ok?
    ensures var r := Query(num, d, Scalar(f), Scalar(x), Scalar(q2), false);
            r.Ok? && r.value.shape == S0
            && r.value.data == [Spline.Cell(Build(num, d, f).value, num.ln(x), num.ln(q2))]
  {
    var fa, xa, qa := Scalar(f), Scalar(x), Scalar(q2);
    assert Broadcast3(S0, S0, S0) == Some(S0);
    assert Elements(fa) == [f];
    QueryOutcome(num, d, fa, xa, qa, false);
    var r := Query(num, d, fa, xa, qa, false);
    assert r.Ok?;
    PointwiseOwnFlavour(num, d, fa, xa, qa, 0);
    assert Expand(fa, S0) == [f] && Expand(xa, S0) == [x] && Expand(qa, S0) == [q2];
    assert r.value.data == [r.value.data[0]];
  }

  // ---------------------------------------------------------------------
  // class PDFGrid
  // ---------------------------------------------------------------------

  /** out[mask] = values[mask] with mask = (fe == f), in place. */
  method MaskInto(out: array<Num>, values: seq<Num>, fe: seq<int>, f: int)
    requires out.Length == |values| == |fe|
    modifies out
    ensures out[..] == Mask(old(out[..]), values, fe, f)
  {
    ghost var before := out[..];
    for k := 0 to out.Length
      invariant forall j :: 0 <= j < k ==> out[j] == Mask(before, values, fe, f)[j]
      invariant forall j :: k <= j < out.Length ==> out[j] == before[j]
    {
      if fe[k] == f {
        out[k] := values[k];
      }
    }
    assert out[..] == Mask(before, values, fe, f);
  }

  /** A subgrid with its interpolator cache. */
  class PDFGrid {
    const num: Numerics
    const data: GridData
    var interpolators: map<int, Spline.Spline>

    /** Every cached interpolator is the one built for its flavour. */
    ghost predicate Valid()
      reads this
    {
      forall f :: f in interpolators ==> Build(num, data, f) == Ok(interpolators[f])
    }

    /** The cache still holds every entry of `before`, unchanged. */
    ghost predicate Keeps(before: map<int, Spline.Spline>)
      reads this
    {
      forall f :: f in before ==> f in interpolators && interpolators[f] == before[f]
    }

    /** PDFGrid.__init__ with an empty cache. */
    constructor(num: Numerics, data: GridData)
      ensures this.num == num && this.data == data && interpolators == map[]
      ensures Valid()
    {
      this.num := num;
      this.data := data;
      interpolators := map[];
    }

    /** PDFGrid.interpolator: the cached interpolator when the flavour has
        one; otherwise build it and cache it under that flavour. A failed
        build leaves the cache as it was. */
    method Interpolator(flavor: int) returns (r: Result<Spline.Spline>)
      requires Valid()
      modifies this
      ensures Valid()
      ensures r == Build(num, data, flavor)
      ensures flavor in old(interpolators) ==> r == Ok(old(interpolators)[flavor])
                                               && interpolators == old(interpolators)
      ensures r.Ok? ==> interpolators == old(interpolators)[flavor := r.value]
      ensures r.Err? ==> interpolators == old(interpolators)
    {
      if flavor in interpolators {
        return Ok(interpolators[flavor]);
      }
      r := Build(num, data, flavor);
      if r.Ok? {
        interpolators := interpolators[flavor := r.value];
      }
    }

    /** PDFGrid.xfxQ2: the query through the cache. The cache only gains
        entries. */
    method XfxQ2(flavor: Arg<int>, x: Arg<real>, q2: Arg<real>, grid: bool) returns (r: Result<NdArray>)
      requires Valid()
      modifies this
      ensures Valid() && Keeps(old(interpolators))
      ensures r == Query(num, data, flavor, x, q2, grid)
    {
      var fl := Unique(flavor);
      if grid {
        var z :- GridXfxQ2(fl, Elements(x), Elements(q2));
        return Ok(NdArray(S2(|Elements(x)|, |Elements(q2)|), z));
      }
      var shape := Broadcast3(ShapeOf(flavor), ShapeOf(x), ShapeOf(q2));
      if shape.None? {
        return Err(ShapeError);
      }
      var sh := shape.value;
      var z :- PointXfxQ2(fl, Expand(flavor, sh), Expand(x, sh), Expand(q2, sh));
      return Ok(NdArray(sh, z));
    }

    /** The grid branch of PDFGrid.xfxQ2. */
    method GridXfxQ2(fl: seq<int>, x: seq<real>, q2: seq<real>) returns (r: Result<seq<Num>>)
      requires Valid()
      modifies this
      ensures Valid() && Keeps(old(interpolators))
      ensures r == GridQuery(num, data, fl, x, q2)
    {
      if |fl| > 1 {
        return Err(InvalidQuery);
      }
      if |fl| == 0 {
        return Err(IndexError);
      }
      var s :- Interpolator(fl[0]);
      r := Spline.CallGrid(s, Logs(num, x), Logs(num, q2));
    }

    /** The pointwise branch of PDFGrid.xfxQ2: the first flavour's values,
        then each further flavour's values written over the elements that
        ask for it. */
    method PointXfxQ2(fl: seq<int>, fe: seq<int>, x: seq<real>, q2: seq<real>) returns (r: Result<seq<Num>>)
      requires Valid()
      requires |fe| == |x| == |q2|
      modifies this
      ensures Valid() && Keeps(old(interpolators))
      ensures r == PointQuery(num, data, fl, fe, x, q2)
    {
      if |fl| == 0 {
        return Err(IndexError);
      }
      var lx, lq := Logs(num, x), Logs(num, q2);
      var s :- Interpolator(fl[0]);
      var called := Spline.CallPoints(s, lx, lq);
      assert called.Ok?;  // bounds_error is off: the interpolators never raise
      var first := called.value;
      var out := new Num[|first|](k requires 0 <= k < |first| => first[k]);
      assert out[..] == first;
      r := OverlayInto(fl[1..], fe, lx, lq, out);
    }

    /** The loop over the further flavours: each one's values are written,
        in place, over the elements that ask for it. */
    method OverlayInto(fs: seq<int>, fe: seq<int>, lx: seq<real>, lq: seq<real>, out: array<Num>)
      returns (r: Result<seq<Num>>)
      requires Valid()
      requires out.Length == |fe| == |lx| == |lq|
      modifies this, out
      ensures Valid() && Keeps(old(interpolators))
      ensures r == Overlay(num, data, fs, fe, lx, lq, old(out[..]))
    {
      ghost var start := out[..];
      for i := 0 to |fs|
        invariant Valid() && Keeps(old(interpolators))
        invariant Overlay(num, data, fs[i..], fe, lx, lq, out[..]) == Overlay(num, data, fs, fe, lx, lq, start)
      {
        var f := fs[i];
        assert fs[i..] == [f] + fs[i + 1..];
        var s :- Interpolator(f);
        var called := Spline.CallPoints(s, lx, lq);
        assert called.Ok?;
        var values := called.value;
        MaskInto(out, values, fe, f);
      }
      assert fs[|fs|..] == [];
      r := Ok(out[..]);
    }
  }
}
