/** Values shared by every part of the model: optional values, results
    carrying the errors the library raises, floating-point values that may
    be NaN, and the foreign numerical and textual routines the library
    calls (NumPy, SciPy, PyYAML), which the model treats as given functions. */
module Base {

  datatype Option<+T> = None | Some(value: T)

  /** The exceptions raised by the interpolation engine. */
  datatype Error =
    | ParseError              // a header or number line that does not parse
    | UnknownFlavor(flavor: int)  // flav_index: flavour absent from the subgrid
    | InvalidQuery            // a grid query over several distinct flavours
    | OutOfRange              // bounds_error set and a coordinate out of bounds
    | ShapeError              // a reshape or broadcast whose shapes do not fit
    | IndexError              // indexing past the end of a list or an empty array
    | FitError                // the spline library rejected the data
    | EmptyArray              // np.min of an empty array

  datatype Result<+T> = Ok(value: T) | Err(error: Error) {
    predicate IsFailure() { Err? }
    function PropagateFailure<U>(): Result<U>
      requires Err?
    {
      Err(error)
    }
    function Extract(): T
      requires Ok?
    {
      value
    }
  }

  /** A double as far as the model needs it: NaN, or a real number. */
  datatype Num = NaN | Real(r: real)

  /** A fitted 2D spline, as a function of (log x, log Q2). */
  type Surface = (real, real) -> real

  /** A fitted 1D interpolator that yields NaN outside its domain. */
  type Curve = real -> Num

  /** The floating-point routines the library delegates to NumPy and SciPy.
      - ln: np.log
      - square: squaring a double (Q**2)
      - fit: building a scipy RectBivariateSpline from axes and a value
        matrix; None when scipy rejects the data
      - logspace: point k of np.logspace(log10(x_min), 0, N), from x_min,
        N and k
      - lumi: the sampled convolution and interp1d fit of a parton
        luminosity, from x_min, N, the sample points and the two sampled
        xfxQ2 series */
  datatype Numerics = Numerics(
    ln: real -> real,
    square: real -> real,
    fit: (seq<real>, seq<real>, seq<seq<real>>) -> Option<Surface>,
    logspace: (real, nat, nat) -> real,
    lumi: (real, nat, seq<real>, seq<Num>, seq<Num>) -> Curve)

  /** The text parsers the library delegates to NumPy and PyYAML.
      - floats, ints: np.loadtxt of one line, as floats or integers
      - table: np.loadtxt of the body lines, one row per line
      - yaml: whether yaml.safe_load accepts a header block */
  datatype Tokenizer = Tokenizer(
    floats: string -> Option<seq<real>>,
    ints: string -> Option<seq<int>>,
    table: seq<string> -> Option<seq<seq<real>>>,
    yaml: string -> bool)
}
