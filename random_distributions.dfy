/** Random-number distributions: the values the input front end builds from
    a line such as `uniform 0 1`, and sampling from them against an explicit
    engine state. */
module RandomDistributions {
  import opened Errors
  import StringTools

  /** The distributions the factory can produce, with their parameters. */
  datatype Distribution =
    | Constant(value: real)
    | Uniform(lower: real, upper: real)
    | Normal(mean: real, stdev: real)
    | LogNormal(zeta: real, sigma: real)
    | Gamma(shape: real, scale: real)

  /** The parameter constraints the factory enforces. */
  predicate WellFormed(d: Distribution) {
    match d
    case Constant(_) => true
    case Uniform(lower, upper) => lower < upper
    case Normal(_, stdev) => stdev > 0.0
    case LogNormal(_, sigma) => sigma > 0.0
    case Gamma(shape, scale) => shape > 0.0 && scale > 0.0
  }

  // ---------------------------------------------------------------------
  // Sampling
  // ---------------------------------------------------------------------

  /** The state of the random engine: which stream it runs and how many
      values it has handed out so far. */
  datatype Engine = Engine(stream: int, drawn: nat)

  /** What the random library returns for a distribution in a given engine
      state; it is a parameter of the model, not part of it. */
  type Draw = (Distribution, Engine) -> real

  /** `sample(engine)`: a constant returns its value and leaves the engine
      alone; any other distribution takes the engine's next value and
      advances it by one draw. */
  function Sample(d: Distribution, e: Engine, draw: Draw): (real, Engine) {
    if d.Constant? then (d.value, e) else (draw(d, e), e.(drawn := e.drawn + 1))
  }

  // ---------------------------------------------------------------------
  // RandomDistributionFactory
  // ---------------------------------------------------------------------

  const EmptyLine := "Empty line."
  const ConstantUsage := "Invalid constant distribution. Use\n   constant value\nwhere value is the value to be returned."
  const UniformUsage := "Invalid uniform distribution. Use\n   uniform lower upper\nwhere lower and upper are the bounds, respectively."
  const UniformBounds := "Uniform Distribution: The lower bound must be lower than the upper bound."
  const NormalUsage := "Invalid normal distribution. Use\n   normal mean standard-deviation"
  const NormalStdev := "Normal Distribution: The standard deviation must be positive."
  const LogNormalUsage := "Invalid lognormal distribution. Use\n   lognormal zeta sigma"
  const LogNormalSigma := "Lognormal Distribution: The standard deviation (sigma) must be positive."
  const GammaUsage := "Invalid gamma distribution. Use\n   gamma shape scale"
  const GammaFactors := "Gamma Distribution: The shape and scale factors must be positive."
  const Unrecognized := "Unrecognized probability distribution.\nPossible options are:\n   Constant - Specify a value.\n   Uniform - Uniform distribution.\n   Normal - Normal (Gaussian) distribution.\n   Gaussian - Normal (Gaussian) distribution.\n   Lognormal - Lognormal distribution.\n   Gamma - Gamma distribution.\n"

  /** The distribution names the factory knows, lower case. */
  predicate KnownKind(kind: string) {
    kind == "constant" || kind == "uniform" || kind == "normal" || kind == "gaussian"
    || kind == "lognormal" || kind == "gamma"
  }

  /** The two numeric parameters of a two-parameter kind, read in order; a
      parse failure of the first is reported before the second is read.
      `parseReal` stands for `cast_string<double>`. */
  function TwoReals(args: seq<string>, parseReal: string -> Result<real>): Result<(real, real)>
    requires |args| >= 2
  {
    match parseReal(args[0])
    case Err(e) => Err(e)
    case Ok(a) =>
      match parseReal(args[1])
      case Err(e) => Err(e)
      case Ok(b) => Ok((a, b))
  }

  /** `RandomDistributionFactory`: the first token names the distribution,
      case-insensitively; the following tokens are its parameters. */
  function RandomDistributionFactory(tokens: seq<string>, parseReal: string -> Result<real>)
    : (r: Result<Distribution>)
    ensures |tokens| == 0 ==> r == Err(InvalidArgument(EmptyLine))
    ensures |tokens| > 0 && !KnownKind(StringTools.Lower(tokens[0])) ==>
              r == Err(InvalidArgument(Unrecognized))
    ensures r.Ok? ==> WellFormed(r.value)
    ensures r.Err? ==> r.error.InvalidArgument? || exists t :: t in tokens && parseReal(t) == Err(r.error)
  {
    if |tokens| == 0 then Err(InvalidArgument(EmptyLine))
    else
      var kind := StringTools.Lower(tokens[0]);
      var args := tokens[1..];
      if kind == "constant" then
        if |args| < 1 then Err(InvalidArgument(ConstantUsage))
        else
          match parseReal(args[0])
          case Err(e) => Err(e)
          case Ok(v) => Ok(Constant(v))
      else if kind == "uniform" then
        if |args| < 2 then Err(InvalidArgument(UniformUsage))
        else
          match TwoReals(args, parseReal)
          case Err(e) => Err(e)
          case Ok((lower, upper)) =>
            if lower >= upper then Err(InvalidArgument(UniformBounds)) else Ok(Uniform(lower, upper))
      else if kind == "normal" || kind == "gaussian" then
        if |args| < 2 then Err(InvalidArgument(NormalUsage))
        else
          match TwoReals(args, parseReal)
          case Err(e) => Err(e)
          case Ok((mean, stdev)) =>
            if stdev <= 0.0 then Err(InvalidArgument(NormalStdev)) else Ok(Normal(mean, stdev))
      else if kind == "lognormal" then
        if |args| < 2 then Err(InvalidArgument(LogNormalUsage))
        else
          match TwoReals(args, parseReal)
          case Err(e) => Err(e)
          case Ok((zeta, sigma)) =>
            if sigma <= 0.0 then Err(InvalidArgument(LogNormalSigma)) else Ok(LogNormal(zeta, sigma))
      else if kind == "gamma" then
        if |args| < 2 then Err(InvalidArgument(GammaUsage))
        else
          match TwoReals(args, parseReal)
          case Err(e) => Err(e)
          case Ok((shape, scale)) =>
            if shape <= 0.0 || scale <= 0.0 then Err(InvalidArgument(GammaFactors))
            else Ok(Gamma(shape, scale))
      else Err(InvalidArgument(Unrecognized))
  }

  /** "normal" and "gaussian" are the same distribution. */
  lemma GaussianIsNormal(rest: seq<string>, parseReal: string -> Result<real>)
    ensures RandomDistributionFactory(["gaussian"] + rest, parseReal)
         == RandomDistributionFactory(["normal"] + rest, parseReal)
  {
    assert (["gaussian"] + rest)[1..] == rest == (["normal"] + rest)[1..];
    LowerOfLower("gaussian");
    LowerOfLower("normal");
  }

  lemma LowerOfLower(s: string)
    requires forall i :: 0 <= i < |s| ==> !StringTools.IsUpper(s[i])
    ensures StringTools.Lower(s) == s
  {
  }

  /** The kind is read case-insensitively: only its lower case matters. */
  lemma KindIgnoresCase(a: seq<string>, b: seq<string>, parseReal: string -> Result<real>)
    requires |a| > 0 && |b| > 0 && StringTools.Lower(a[0]) == StringTools.Lower(b[0])
    requires a[1..] == b[1..]
    ensures RandomDistributionFactory(a, parseReal) == RandomDistributionFactory(b, parseReal)
  {
  }

  /** A constant takes its first parameter and ignores any further tokens. */
  lemma ConstantIgnoresExtra(kind: string, v: string, extra: seq<string>, parseReal: string -> Result<real>)
    requires StringTools.Lower(kind) == "constant"
    ensures RandomDistributionFactory([kind, v] + extra, parseReal)
         == match parseReal(v) case Ok(x) => Ok(Constant(x)) case Err(e) => Err(e)
  {
    assert ([kind, v] + extra)[1..][0] == v;
  }

  /** A uniform distribution needs a strictly increasing range. */
  lemma UniformNeedsStrictBounds(kind: string, lo: string, hi: string, extra: seq<string>,
                                 parseReal: string -> Result<real>)
    requires StringTools.Lower(kind) == "uniform"
    requires parseReal(lo).Ok? && parseReal(hi).Ok?
    ensures RandomDistributionFactory([kind, lo, hi] + extra, parseReal) ==
              if parseReal(lo).value < parseReal(hi).value
              then Ok(Uniform(parseReal(lo).value, parseReal(hi).value))
              else Err(InvalidArgument(UniformBounds))
  {
    var args := ([kind, lo, hi] + extra)[1..];
    assert args[0] == lo && args[1] == hi;
  }

  /** Gamma needs both factors positive; either one non-positive is refused. */
  lemma GammaNeedsPositiveFactors(kind: string, a: string, b: string, parseReal: string -> Result<real>)
    requires StringTools.Lower(kind) == "gamma"
    requires parseReal(a).Ok? && parseReal(b).Ok?
    ensures RandomDistributionFactory([kind, a, b], parseReal).Ok?
        <==> parseReal(a).value > 0.0 && parseReal(b).value > 0.0
  {
    assert [kind, a, b][1..] == [a, b];
  }

  /** Too few parameters is an `invalid_argument`, whatever they hold. */
  lemma TooFewParameters(kind: string, args: seq<string>, parseReal: string -> Result<real>)
    requires KnownKind(StringTools.Lower(kind))
    requires |args| < (if StringTools.Lower(kind) == "constant" then 1 else 2)
    ensures RandomDistributionFactory([kind] + args, parseReal).Err?
    ensures RandomDistributionFactory([kind] + args, parseReal).error.InvalidArgument?
  {
    assert ([kind] + args)[1..] == args;
  }
}
