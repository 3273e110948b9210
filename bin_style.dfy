/** Binning styles of a histogram axis: how many bins it has and the mask
    function u = f(x) in which the bins are equally wide. */
module BinStyles {
  import opened Errors
  import StringTools

  datatype Kind = Linear | Log(base: real)

  /** `BinStyle`: the number of bins and the kind of mask. */
  datatype BinStyle = BinStyle(nbins: nat, kind: Kind)

  /** The floating-point functions logarithmic binning needs, as parameters:
      `log(b, x)` is log_b x, `pow(b, u)` is b^u and `dlog(b, x)` is the
      derivative of log_b at x. */
  datatype LogMath = LogMath(log: (real, real) -> real, pow: (real, real) -> real,
                             dlog: (real, real) -> real)

  /** The one law of the logarithm the model relies on: `pow` undoes `log`
      for a positive base and a positive argument. */
  ghost predicate InverseLaw(m: LogMath) {
    forall b: real, x: real :: b > 0.0 && x > 0.0 ==> m.pow(b, m.log(b, x)) == x
  }

  /** `mask`: the identity for linear binning, log_b for logarithmic. */
  function Mask(style: BinStyle, m: LogMath, x: real): real {
    match style.kind
    case Linear => x
    case Log(b) => m.log(b, x)
  }

  /** `invmask`: the inverse of `mask`. */
  function InvMask(style: BinStyle, m: LogMath, u: real): real {
    match style.kind
    case Linear => u
    case Log(b) => m.pow(b, u)
  }

  /** `dmaskdx`: the derivative of `mask`, 1 for linear binning. */
  function DMaskDx(style: BinStyle, m: LogMath, x: real): real {
    match style.kind
    case Linear => 1.0
    case Log(b) => m.dlog(b, x)
  }

  /** `invmask` undoes `mask`: always for linear binning, and for
      logarithmic binning on positive data when the law of the logarithm
      holds. */
  lemma MaskRoundTrip(style: BinStyle, m: LogMath, x: real)
    requires style.kind.Log? ==> style.kind.base > 0.0 && x > 0.0 && InverseLaw(m)
    ensures InvMask(style, m, Mask(style, m, x)) == x
  {
  }

  const BinCountError := "Unable to determine the number of bins."
  const NoStyleError := "No binning style specified."
  const BaseError := "Unable to convert the base to a numerical value."
  const BaseSignError := "The logarithm base must be positive."

  /** The message for a style name the factory does not know. */
  function UnrecognizedStyle(name: string): string {
    "Unrecognized binning style: \"" + name + "\".\nPossible options are:\n   Linear - Linear binning.\n   Log - Logarithmic binning (base defaults to 10).\n"
  }

  /** `BinStyleFactory`: the first token is the number of bins, the second
      the style name (case-insensitive), and for "log" an optional third is
      the base. `parseReal` stands for `cast_string<double>`; its `bad_cast` is
      reported as an `invalid_argument`, anything else it throws propagates,
      as does an `out_of_range` from the bin count. */
  function BinStyleFactory(tokens: seq<string>, parseReal: string -> Result<real>): (r: Result<BinStyle>)
    ensures |tokens| == 0 ==> r == Err(InvalidArgument("Empty line."))
    ensures |tokens| > 0 && StringTools.CastSize(tokens[0]) == Err(BadCast) ==>
              r == Err(InvalidArgument(BinCountError))
    ensures r.Ok? ==> |tokens| >= 2 && StringTools.CastSize(tokens[0]) == Ok(r.value.nbins)
    ensures r.Ok? ==> (r.value.kind.Linear? <==> StringTools.Lower(tokens[1]) == "linear")
    ensures r.Ok? && r.value.kind.Log? ==> r.value.kind.base > 0.0
  {
    if |tokens| == 0 then Err(InvalidArgument("Empty line."))
    else
      match StringTools.CastSize(tokens[0])
      case Err(e) => if e == BadCast then Err(InvalidArgument(BinCountError)) else Err(e)
      case Ok(nbins) =>
        if |tokens| < 2 then Err(InvalidArgument(NoStyleError))
        else
          var name := StringTools.Lower(tokens[1]);
          if name == "linear" then Ok(BinStyle(nbins, Linear))
          else if name == "log" then
            if |tokens| > 2 then
              match parseReal(tokens[2])
              case Err(e) => if e == BadCast then Err(InvalidArgument(BaseError)) else Err(e)
              case Ok(b) =>
                if b <= 0.0 then Err(InvalidArgument(BaseSignError)) else Ok(BinStyle(nbins, Log(b)))
            else Ok(BinStyle(nbins, Log(10.0)))
          else Err(InvalidArgument(UnrecognizedStyle(name)))
  }

  /** A count with no style name after it is refused. */
  lemma MissingStyleName(count: string, parseReal: string -> Result<real>)
    requires StringTools.CastSize(count).Ok?
    ensures BinStyleFactory([count], parseReal) == Err(InvalidArgument(NoStyleError))
  {
  }

  /** Logarithmic binning without a base uses base 10; the `Log` name is
      matched in any case. */
  lemma LogDefaultsToBaseTen(parseReal: string -> Result<real>)
    ensures BinStyleFactory(["5", "LoG"], parseReal) == Ok(BinStyle(5, Log(10.0)))
  {
    StringTools.CastSizeRoundTrip(5);
    assert StringTools.NatToString(5) == "5";
    assert StringTools.Lower("LoG") == "log";
  }

  /** Zero bins are accepted here; it is binning the data that refuses them. */
  lemma ZeroBinsAccepted(parseReal: string -> Result<real>)
    ensures BinStyleFactory(["0", "linear"], parseReal) == Ok(BinStyle(0, Linear))
  {
    StringTools.CastSizeAcceptedExamples();
    assert StringTools.Lower("linear") == "linear";
  }

  /** A base that does not parse, or is not positive, is refused. */
  lemma BadBase(count: string, name: string, base: string, parseReal: string -> Result<real>)
    requires StringTools.CastSize(count).Ok? && StringTools.Lower(name) == "log"
    ensures parseReal(base) == Err(BadCast) ==>
              BinStyleFactory([count, name, base], parseReal) == Err(InvalidArgument(BaseError))
    ensures parseReal(base).Ok? && parseReal(base).value <= 0.0 ==>
              BinStyleFactory([count, name, base], parseReal) == Err(InvalidArgument(BaseSignError))
  {
  }

  /** Any style name other than linear or log is refused and quoted back. */
  lemma UnknownStyle(count: string, name: string, rest: seq<string>, parseReal: string -> Result<real>)
    requires StringTools.CastSize(count).Ok?
    requires StringTools.Lower(name) != "linear" && StringTools.Lower(name) != "log"
    ensures BinStyleFactory([count, name] + rest, parseReal)
         == Err(InvalidArgument(UnrecognizedStyle(StringTools.Lower(name))))
  {
    assert ([count, name] + rest)[0] == count && ([count, name] + rest)[1] == name;
  }
}
