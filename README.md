# parton PDF interpolation engine, modelled in Dafny

This project models the core of `parton/pdf.py`, the module of the
`parton` library that reads LHAPDF "lhagrid1" parton distribution grids
and evaluates them. A PDF set member is one data file. It holds:

- a YAML metadata block;
- one or more subgrid blocks: x nodes, Q nodes, flavour identifiers and a
  table of x*f(x, Q) values.

The model covers these parts:

- **Member** (`member.dfy`): where a member's file lives (`PDFMember.filename`),
  and how its text is cut into blocks (`PDFMember.load`). This part models
  Python's `re.split` with the pattern `\n\s*---\s*\n?`, `str.strip` and
  `str.isspace` character by character.
- **Broadcast** (`broadcast.dfy`): the part of NumPy broadcasting that the
  queries use. Arguments are scalars or 1-d arrays. Results are 0-d, 1-d or
  2-d arrays stored flat in row-major order.
- **Spline** (`spline.dfy`): `MyRectBivariateSpline`. The bounds are widened
  by a relative margin of 1e-10. The `bounds_error` and `fill_value` policy
  is modelled. Both call modes write into an array in place: `grid=True`
  fills rows, then columns; `grid=False` fills single points.
- **Grid** (`grid.dfy`): `PDFGrid`. This part covers:
  - `str.splitlines`;
  - `from_block`;
  - `flav_index`, where 0 is an alias for 21 (the gluon);
  - the column reshape `xfgrid[:, i].reshape(len(x), len(Q))`;
  - the uncached interpolator construction;
  - the query in both modes, including the per-flavour mask loop;
  - the class `PDFGrid`, whose interpolator cache is filled once per flavour.
- **Pdf** (`pdf.dfy`): `PDF`. It reads the subgrids of a member. `xfxQ2`
  stitches them: each subgrid fills the elements that earlier ones left NaN,
  the loop stops early once no element is NaN, and a one-element result is a
  float. `xfxQ` calls it with `Q**2`.
- **Lumi** (`lumi.dfy`): `PLumi`. It takes `x_min` over all subgrids, samples
  both flavours on the logarithmic x grid, and keeps a cache of one curve per
  ordered pair of flavours. `L` evaluates that curve at `log t`.

Several steps are treated as given functions, passed as parameters:

- floating-point numerics, in the datatype `Base.Numerics`:
  - `np.log`;
  - squaring a double;
  - scipy's spline fit;
  - `np.logspace`;
  - the luminosity convolution with its `interp1d` fit;
- text parsing, in the datatype `Base.Tokenizer`:
  - `np.loadtxt` of a line or of the table;
  - whether `yaml.safe_load` accepts the metadata.

A value that may be NaN is `Base.Num`. Python exceptions are `Base.Error`
values inside a `Result`:

- `ValueError` becomes the case that names its cause (`UnknownFlavor`,
  `ShapeError`, `EmptyArray`, `ParseError`, `OutOfRange`, `FitError`);
- `RuntimeError` becomes `InvalidQuery`;
- `IndexError` stays `IndexError`.

The cached interpolators are fields of the classes `Grid.PDFGrid` and
`Lumi.PLumi`. Each class has a `Valid()` invariant: every cached entry equals
what the matching uncached function computes. The query methods keep this
invariant, and each method is proved equal to a pure specification function.
The lemmas then state what each function means:

- the first non-NaN subgrid wins;
- breaking early changes nothing when every subgrid answers;
- a pointwise query uses each point's own flavour;
- with an interpolating fit, a query at a node returns the table's value.

The value table of a subgrid (`parton/pdf.py:178`) has one row per (x, Q)
node pair, x-major, and one column per flavour. `from_block` checks nothing
about its size. A table with the wrong number of rows surfaces only when an
interpolator is built, as the reshape's `ValueError` (here `ShapeError`); a
row without the flavour's column surfaces there as an `IndexError`.

## Model

| member | source | states |
|---|---|---|
| Member.PathJoin | parton/pdf.py:106-108 | an absolute second part replaces the first; otherwise the result is the first part, a `/` only when that is non-empty and does not end in one, then the second part |
| Member.Format04 | parton/pdf.py:108 | `{:04d}` has at least four characters; it starts with `-` iff the index is negative; the rest is digits |
| Member.Format04RoundTrip | parton/pdf.py:108 | `{:04d}` of a non-negative index is all digits and reads back as that index; it has at least four characters, exactly four below 10000; a negative index gets a sign |
| Member.LeafName | parton/pdf.py:108 | the leaf is the set's name, `_`, the four-digit member field and `.dat` |
| Member.Filename | parton/pdf.py:104-108 | the path ends in the leaf `name_NNNN.dat`; with a directory not ending in `/` and a relative name, it is `dir/name/leaf` |
| Member.FilenameCT10 | parton/pdf.py:104-108 | the file of member 1 of CT10 is `dir/CT10/CT10_0001.dat` |
| Member.Strip | parton/pdf.py:123 | strip returns a middle slice with only whitespace cut on either side and no whitespace at either end; it is empty iff the string is all whitespace |
| Member.Split | parton/pdf.py:121 | the split gives at least one block; the first block is a prefix of the text; there is exactly one block iff the text holds no separator match, and it is then the whole text |
| Member.SplitSeparatorFree | parton/pdf.py:121 | no block that the separator split returns contains a separator match |
| Member.SplitJoin | parton/pdf.py:121 | a separator-free block followed by `\n---\n` splits off as the first block |
| Member.SplitChain | parton/pdf.py:121 | splitting blocks written with separator lines between them gives those blocks back |
| Member.SelectGrids | parton/pdf.py:123-126 | the subgrid blocks are the blocks after the first, in order, without a whitespace-only last block when there are at least two |
| Member.Load | parton/pdf.py:110-127 | load succeeds iff the first block is YAML; it then returns that block and the selected subgrid blocks, else a ParseError |
| Member.LoadChain | parton/pdf.py:110-127 | a file written as the metadata and the subgrid blocks, each ended by a separator line, loads back as exactly those |
| Broadcast.Broadcast3 | parton/pdf.py:223-224 | the broadcast shape fits all three shapes and fits every shape they all fit; None exactly when no such shape exists |
| Broadcast.Expand | parton/pdf.py:190 | the broadcast array has the target size; element k is the scalar, the single element or element k |
| Spline.SeqMin | parton/pdf.py:25-26 | `np.amin` of a non-empty axis is at most every element and equal to one of them |
| Spline.SeqMax | parton/pdf.py:25-26 | `np.amax` of a non-empty axis is at least every element and equal to one of them |
| Spline.Margin | parton/pdf.py:29-32 | the margin is never negative; for a non-zero bound it is positive and smaller than the bound's magnitude, so widening is strict and keeps the bound's sign |
| Spline.Make | parton/pdf.py:16-32 | construction fails (FitError) iff the fit fails or an axis is empty; it keeps the fitted surface and options; each bound is the axis minimum minus, or maximum plus, its margin, so the bounds contain every node |
| Spline.EvalPoints | parton/pdf.py:34-65 | the pointwise call raises (OutOfRange) iff bounds_error is set and some point is out of bounds; element k is the fill value for an out-of-bounds point when a fill value is set, else the raw spline value |
| Spline.EvalGrid | parton/pdf.py:34-65 | the grid call raises (OutOfRange) iff bounds_error is set and some x or y is out of bounds; it has len(x) * len(y) elements |
| Spline.AnyOut | parton/pdf.py:43-47 | the loop answers true iff some coordinate lies outside the bounds |
| Spline.CallPoints | parton/pdf.py:34-65 | the in-place pointwise evaluation equals EvalPoints; it raises iff bounds_error is set and some point is out of bounds; element k is the fill value for an out-of-bounds point when a fill value is set, else the raw spline value |
| Spline.CallGrid | parton/pdf.py:34-61 | the in-place grid evaluation equals EvalGrid; it raises iff bounds_error is set and some x or y is out of bounds |
| Spline.GridAt | parton/pdf.py:54-61 | grid entry (i, j) is the fill value iff a fill value is set and x_i or y_j is out of bounds, else the raw spline value |
| Spline.GridIsPointwiseOnMesh | parton/pdf.py:54-64 | the grid evaluation equals the pointwise evaluation on the flattened meshgrid |
| Spline.NativeNeverFilled | parton/pdf.py:25-32 | evaluated at its own nodes, a constructed spline neither raises nor fills |
| Grid.FirstBreak | parton/pdf.py:151 | the first line boundary at or after a position, with none before it; None iff there is none |
| Grid.SplitLines | parton/pdf.py:151 | no line contains a line boundary |
| Grid.SplitJoinLines | parton/pdf.py:151 | splitting text written line by line returns its lines |
| Grid.FromBlock | parton/pdf.py:147-156 | reading succeeds iff there are at least three lines and each parses; the result holds the parsed x, Q, table and flavours; otherwise a ParseError, or an IndexError, which is raised exactly when a line is missing and every line before it parses |
| Grid.FromBlockOfLines | parton/pdf.py:147-156 | a block written line by line reads back as what its x line, Q line, flavour line and table lines parse to |
| Grid.LogQ2 | parton/pdf.py:142 | element j is the log of the square of Q_j |
| Grid.Positions | parton/pdf.py:166 | it returns exactly the positions holding the flavour, in increasing order |
| Grid.FlavIndex | parton/pdf.py:158-167 | it succeeds iff the looked-up flavour (21 for 0) is present, giving all its positions in order; otherwise UnknownFlavor of that flavour |
| Grid.FlavIndexAlias | parton/pdf.py:161-163 | looking up 0 is looking up 21 |
| Grid.FlavIndexUnique | parton/pdf.py:164-167 | among distinct flavours, a flavour at position j is found exactly at j |
| Grid.Columns | parton/pdf.py:178 | column selection succeeds iff every row has the columns, else IndexError; it has rows times columns entries |
| Grid.ColumnsAt | parton/pdf.py:178 | selected entry (row, c) is column idx[c] of that row |
| Grid.Reshape | parton/pdf.py:178 | reshape succeeds iff there are exactly m*n entries, else ShapeError; it gives m rows of n values |
| Grid.ReshapeAt | parton/pdf.py:178 | reshaped entry (i, j) is flat entry i*n + j |
| Grid.Values | parton/pdf.py:178 | the matrix exists iff every row has the selected columns and there are len(x)*len(Q) selected entries; otherwise IndexError for a missing column, else ShapeError; it has len(x) rows of len(Q) values |
| Grid.ValuesColumn | parton/pdf.py:175-178 | the matrix of one column exists iff the table has len(x)*len(Q) rows, each with that column |
| Grid.ValuesAt | parton/pdf.py:175-178 | matrix entry (i, j) is column c of table row i*len(Q) + j |
| Grid.Build | parton/pdf.py:169-178 | building succeeds iff the looked-up flavour is present, its matrix exists and the fit accepts non-empty log axes; otherwise UnknownFlavor, IndexError (a row lacks the column), ShapeError (not len(x)*len(Q) entries) or FitError, checked in that order; a success is the fit of the log axes and the matrix, with no bounds error, NaN fill, and each bound the log axis's minimum or maximum widened by its margin |
| Grid.BuildAlias | parton/pdf.py:161-163 | the interpolator for 0 is the one for 21 |
| Grid.Insert | parton/pdf.py:184 | inserting into a strictly increasing sequence keeps it strictly increasing and adds exactly the one value |
| Grid.SortedUnique | parton/pdf.py:184 | np.unique gives a strictly increasing sequence holding exactly the given values |
| Grid.Unique | parton/pdf.py:184 | the distinct flavours asked for, strictly increasing, exactly those of the argument; empty iff the argument is |
| Grid.UniqueScalar | parton/pdf.py:184 | a single flavour has itself as its only distinct value |
| Grid.Mask | parton/pdf.py:193-194 | the masked assignment takes the new value where the flavour matches and keeps the old one elsewhere |
| Grid.Overlay | parton/pdf.py:192-194 | the flavour loop succeeds iff the interpolator of every further flavour builds, else it fails with the error of the first that does not; it keeps the array's length |
| Grid.OverlayAt | parton/pdf.py:192-194 | after the flavour loop, an element whose flavour was processed holds that flavour's spline value at its own point; other elements are untouched |
| Grid.Query | parton/pdf.py:181-195 | a grid query for several distinct flavours is an InvalidQuery; a grid result has shape (size x, size Q2), a pointwise one the broadcast shape of the arguments, and the data have the shape's size |
| Grid.QueryOutcome | parton/pdf.py:181-195 | a grid query succeeds iff there is exactly one distinct flavour and its interpolator builds; a pointwise query is a ShapeError when the arguments do not broadcast and otherwise succeeds iff the interpolator of every flavour asked for builds; an empty flavour array is an IndexError in both modes |
| Grid.GridQuery | parton/pdf.py:185-188 | more than one flavour gives InvalidQuery and none IndexError; for one flavour it succeeds iff its interpolator builds, else with that error, and the success is that flavour's spline on the log grid |
| Grid.PointQuery | parton/pdf.py:189-195 | no flavour gives IndexError; otherwise it succeeds iff the interpolator of every distinct flavour builds, else it fails with the error of the first in increasing order that does not; one value per broadcast point |
| Grid.PointQueryAt | parton/pdf.py:189-195 | a point whose flavour is requested holds its own flavour's spline value at its own logs |
| Grid.PointwiseOwnFlavour | parton/pdf.py:189-195 | every element of a pointwise query is its own flavour's interpolator at its own (log x, log Q2) |
| Grid.GridEntry | parton/pdf.py:187-188 | grid-query entry (i, j) is the flavour's spline at (log x_i, log Q2_j), NaN outside the widened range |
| Grid.QueryAlias | parton/pdf.py:181-195 | a query for flavour 0 equals the same query for flavour 21, in both modes |
| Grid.GridMatchesPointwise | parton/pdf.py:187-195 | for one flavour, the grid query over x and Q2 succeeds iff the pointwise query over their meshgrid does, and both give the same values in row-major order |
| Grid.ScalarPoint | parton/pdf.py:189-195 | a pointwise query at one point, for a flavour whose interpolator builds, is a 0-d result holding that interpolator's value at the point's logs, NaN outside the widened range |
| Grid.NodeValue | parton/pdf.py:175-191 | with an interpolating fit and distinct flavours, the query at node (x_i, Q_j) for column c's flavour is a scalar equal to the table entry of that node and column |
| Grid.MaskInto | parton/pdf.py:193-194 | the in-place masked assignment leaves the array equal to Mask of its old contents |
| Grid.PDFGrid.constructor | parton/pdf.py:133-145 | it stores the data with an empty, valid cache |
| Grid.PDFGrid.Interpolator | parton/pdf.py:169-179 | it returns Build of the flavour; a cached flavour's value is returned with the cache unchanged; a success adds that one entry; a failure leaves the cache as it was |
| Grid.PDFGrid.XfxQ2 | parton/pdf.py:181-195 | it equals the query, keeps the cache valid, and never drops or changes a cached entry |
| Grid.PDFGrid.GridXfxQ2 | parton/pdf.py:185-188 | the grid branch through the cache equals GridQuery and never drops or changes a cached entry |
| Grid.PDFGrid.PointXfxQ2 | parton/pdf.py:189-195 | the pointwise branch through the cache equals PointQuery and never drops or changes a cached entry |
| Grid.PDFGrid.OverlayInto | parton/pdf.py:192-194 | the in-place flavour loop equals Overlay of the array's old contents and never drops or changes a cached entry |
| Pdf.Collect | parton/pdf.py:210 | a list comprehension over raising items succeeds iff every item does, giving the values in order; otherwise the error of the first item that raises |
| Pdf.FromBlocks | parton/pdf.py:210 | it succeeds iff every block reads, giving each block's subgrid in order; otherwise the error of the first block that does not read |
| Pdf.LoadGrids | parton/pdf.py:209-210 | a failed load is a ParseError; otherwise the subgrids of the loaded blocks |
| Pdf.Ravel | parton/pdf.py:249 | a float ravels to its one element, an array to its elements in row-major order |
| Pdf.ResultShape | parton/pdf.py:220-224 | the shape is (size x, size Q2) in grid mode, else the broadcast shape, or ShapeError when there is none |
| Pdf.QueryShape | parton/pdf.py:226-227 | every subgrid's successful answer has as many elements as the result, so the masked assignment is well formed |
| Pdf.Merge | parton/pdf.py:227 | a NaN element takes the new value; a filled one is kept |
| Pdf.MergeInto | parton/pdf.py:227 | the in-place assignment leaves the array equal to Merge of its old contents |
| Pdf.Stitch | parton/pdf.py:225-229 | an element that is already filled is never overwritten |
| Pdf.FirstOf | parton/pdf.py:225-229 | the value is NaN iff every answer from position i on is NaN there; otherwise it is the value of an answer all of whose predecessors are NaN there |
| Pdf.FirstValue | parton/pdf.py:225-229 | the value is NaN iff every subgrid is NaN there; otherwise it is the value of a subgrid all of whose predecessors in file order are NaN there |
| Pdf.StitchAllFull | parton/pdf.py:227-229 | once nothing is NaN, further subgrids change nothing |
| Pdf.EarlyStop | parton/pdf.py:228-229 | when every subgrid answers, the loop with the break gives what the full loop gives |
| Pdf.StitchRaises | parton/pdf.py:225-229 | the loop raises e exactly when it reaches an answer that is the error e: every earlier answer is a success and, unless it is the first answer visited, their merge still leaves a NaN element |
| Pdf.StitchAllAt | parton/pdf.py:225-227 | the full loop gives each element its old value if filled, else the first subgrid value that is not NaN |
| Pdf.Query | parton/pdf.py:217-232 | a shape that does not broadcast is a ShapeError; the result is a float iff it has one element, else an array of the result shape; with no subgrids every element is NaN; which subgrid error is raised is stated by Pdf.QueryRaises |
| Pdf.QueryRaises | parton/pdf.py:217-229 | when the result shape exists, xfxQ2 raises e exactly when some subgrid answers e, every earlier subgrid answers, and the earlier answers merged into the NaN array still leave a NaN (the first subgrid is always queried) |
| Pdf.MultiFlavourGrid | parton/pdf.py:220-226 | a grid query for more than one distinct flavour on a member with at least one subgrid raises InvalidQuery |
| Pdf.FirstMatch | parton/pdf.py:217-232 | when every subgrid answers, each result element is the first subgrid value, in file order, that is not NaN there, or NaN |
| Pdf.QueryAlias | parton/pdf.py:217-232 | querying the member for flavour 0 equals querying it for flavour 21 |
| Pdf.UncoveredIsNaN | parton/pdf.py:217-232 | a pointwise query at one point outside the widened range of every subgrid, for a flavour every subgrid can interpolate, is returned as the float NaN |
| Pdf.ScalarQuery | parton/pdf.py:230-231 | a query at a single point returns a float |
| Pdf.QueryQFirstMatch | parton/pdf.py:212-215 | xfxQ has the shape of the query at Q; when every subgrid answers at Q**2, element k is the first subgrid value, in file order, that is not NaN at (x_k, Q_k**2), or NaN |
| Pdf.PDF.Open | parton/pdf.py:201-210 | opening succeeds iff the member's subgrids read; it gives fresh subgrid objects with those data, empty caches and a valid state, or the reading error |
| Pdf.PDF.NewGrids | parton/pdf.py:210 | one fresh subgrid object per subgrid's data, in order, each with that data, an empty cache and a valid state |
| Pdf.PDF.QueryGrid | parton/pdf.py:226 | one subgrid's answer through its cache equals its query; every cache stays valid and keeps all its entries |
| Pdf.PDF.XfxQ2 | parton/pdf.py:217-232 | filling the array in place over the subgrids with the break equals Pdf.Query over their data; every cache stays valid and keeps all its entries |
| Pdf.PDF.Fill | parton/pdf.py:225-229 | the loop leaves in the array what Stitch computes from its old contents, or returns Stitch's error; every cache stays valid and keeps all its entries |
| Pdf.PDF.Turn | parton/pdf.py:226-229 | one turn of the loop: subgrid i's error, the stop once nothing is NaN, or the rest of the loop from the merged array; every cache keeps all its entries |
| Pdf.PDF.XfxQ | parton/pdf.py:212-215 | it equals xfxQ2 at the squares of Q over the subgrids' data; every cache stays valid and keeps all its entries |
| Lumi.GridMins | parton/pdf.py:244 | it succeeds iff every subgrid has an x node, giving each subgrid's smallest node, else EmptyArray |
| Lumi.XMin | parton/pdf.py:244 | x_min exists iff there is a subgrid and every subgrid has x nodes; it is then at most every x node and equal to one of them; otherwise EmptyArray |
| Lumi.Series | parton/pdf.py:248-254 | a flavour's sampled series exists iff the member's grid query at the samples and Q2 succeeds; it holds N values |
| Lumi.SeriesFirstMatch | parton/pdf.py:248-254 | when every subgrid answers, sample k of the series is the first subgrid value that is not NaN there |
| Lumi.LumiCurve | parton/pdf.py:247-256 | the curve exists iff both series exist; when the first flavour's series fails, its error is the result |
| Lumi.LumiCurveSecondError | parton/pdf.py:252-253 | when the first flavour's series exists and the second's fails, the second one's error is the result |
| Lumi.LumiCurveFirstMatch | parton/pdf.py:247-256 | when every subgrid answers for both flavours, the curve is the convolution-fit of x_min, N, the samples and the two series of first covering values (NaN where no subgrid covers) |
| Lumi.LuminosityFirstMatch | parton/pdf.py:267-271 | when every subgrid answers for both flavours, L at t is that convolution-fit's curve at log t |
| Lumi.PLumi.Create | parton/pdf.py:238-245 | construction succeeds iff x_min exists, with that x_min, Q2, the member and an empty, valid cache; otherwise EmptyArray |
| Lumi.PLumi.Compute | parton/pdf.py:247-256 | sampling through the member's caches equals LumiCurve, keeps the member valid and keeps every subgrid's cached entries |
| Lumi.PLumi.Interpolator | parton/pdf.py:258-265 | it returns LumiCurve of the pair; a cached pair's curve is returned with the cache unchanged; a new success adds that one entry; a failure leaves the cache as it was; every subgrid keeps its cached entries |
| Lumi.PLumi.L | parton/pdf.py:267-271 | it equals L of the curve at log t; a cached pair leaves the cache unchanged, a new pair that succeeds adds exactly its curve, a failure leaves the cache as it was; every subgrid keeps its cached entries |

## Left out

- Floating point is not modelled: `np.log`, squaring, the spline fit, `np.logspace` and the luminosity convolution with `interp1d` are given functions of `Base.Numerics`. NaN is a separate value; infinities and rounding are not modelled.
- Text parsing by `np.loadtxt` and `yaml.safe_load` is a given `Base.Tokenizer`. Two things are not modelled: how loadtxt squeezes a one-value line or a one-row or one-column table to a lower-dimensional array, and the metadata dictionary (only whether it parses).
- File I/O is a parameter: the existence checks and reads in `PDFSet.read_metadata` and `PDFMember.load` (`parton/pdf.py:80-90`, `:116-120`). `PDF.Open` takes the member file's contents. The `.info` metadata of `PDFSet` is not modelled, nor is `io.data_dir`.
- `parton/io.py`, `parton/cli.py` and the packaging in `setup.py` are not part of this model.
- Spline.CallPoints: it requires x and y of one length. Its own broadcast of unequal shapes (`parton/pdf.py:40-41`) is always done by its caller, `PDFGrid.xfxQ2`, before the call.
- Grid.Query: scipy's argument checks are not modelled. These include grid mode rejecting unsorted coordinates and the logarithm of non-positive values. The grid-mode result for an empty x or Q2 is modelled as an empty array.
- Broadcasting of query arguments with two or more dimensions is not modelled. Arguments are scalars or 1-d arrays.
- Lumi.LumiCurve: the division of the sampled series by x (`parton/pdf.py:249`, `:251`) is part of `Numerics.lumi`, together with the convolution.
- Python's object aliasing of `PDF` instances is not modelled: each `Pdf.PDF` owns its subgrid objects.
- Pdf.Ravel: a one-element result is a Python float, which has no `.ravel()`; the model ravels it to its one element. `PLumi` never meets this case, since its grid queries have N = 1000 rows.
