/** The configuration object handed to the gauge's constructor, the errors the
    constructor and setters raise, and the settings left after defaults are
    filled in. Every variant reads the same configuration object; the older
    ones ignore the fields they do not know. */
module GaugeConfig {
  import opened JsValues
  import LinearScale
  import Ring

  datatype Config = Config(
    el: bool,                     // whether `config.el` is truthy
    height: Field<real>,
    sectionsCount: Field<int>,
    width: Field<real>,
    animationDelay: Field<real>,
    animationDuration: Field<real>,
    barWidth: Field<real>,
    chartInset: Field<real>,
    needleRadius: Field<real>,
    sectionsColors: Option<seq<Color>>,
    needleColor: Option<Color>,
    easeType: Option<Ease>,       // `None` for every falsy value
    interval: Option<LinearScale.IntervalArg>,  // `None` for every falsy value
    percent: Field<real>)

  /** One kind per message the gauge throws. */
  datatype GaugeError =
    | InvalidElement
    | InvalidHeight
    | InvalidSectionsCount
    | InvalidWidth
    | InvalidAnimationDelay
    | InvalidAnimationDuration
    | InvalidBarWidth
    | InvalidChartInset
    | InvalidNeedleRadius
    | SectionsColorsMismatch
    | InvalidInterval
    | InvalidPercent
    | InvalidValue

  /** Thrown as a `RangeError`; the other three are thrown as a plain `Error`. */
  predicate IsRangeError(e: GaugeError) {
    !(e.InvalidElement? || e.InvalidInterval? || e.InvalidValue?)
  }

  /** The messages of the newest variant (dist/d3-simple-gauge.js). */
  function Message(e: GaugeError): string {
    match e
    case InvalidElement => "The element must be valid."
    case InvalidHeight => "The height must be a positive number."
    case InvalidSectionsCount => "The sections count must be a positive number."
    case InvalidWidth => "The width must be a positive number."
    case InvalidAnimationDelay => "The transition delay must be greater or equal to 0."
    case InvalidAnimationDuration => "The transition duration must be greater or equal to 0."
    case InvalidBarWidth => "The bar width must be a positive number."
    case InvalidChartInset => "The chart inset must be greater or equal to 0."
    case InvalidNeedleRadius => "The needle radius must be greater or equal to 0."
    case SectionsColorsMismatch => "The sectionsColors length must match with the sectionsCount."
    case InvalidInterval => "The interval specified is invalid."
    case InvalidPercent => "The percentage must be between 0 and 1."
    case InvalidValue => "The specified value must be a number."
  }

  /** The messages of the two earlier variants, which drop the final full stop
      of three of them. */
  function EarlierMessage(e: GaugeError): string {
    match e
    case InvalidSectionsCount => "The sections count must be a positive number"
    case InvalidBarWidth => "The bar width must be a positive number"
    case InvalidValue => "The specified value must be a number"
    case _ => Message(e)
  }

  /** One `if (...) throw` of the constructor: whether the configuration passes
      it, and what it throws otherwise. */
  datatype Check = Check(passes: bool, error: GaugeError)

  /** What a chain of checks raises: the error of the first that fails. */
  function FirstFailure(checks: seq<Check>): (r: Option<GaugeError>)
    ensures r.None? <==> forall i :: 0 <= i < |checks| ==> checks[i].passes
    ensures r.Some? ==> exists i :: 0 <= i < |checks| && !checks[i].passes && checks[i].error == r.value
                                    && forall j :: 0 <= j < i ==> checks[j].passes
    decreases |checks|
  {
    if checks == [] then None
    else if !checks[0].passes then Some(checks[0].error)
    else
      var rest := FirstFailure(checks[1..]);
      assert forall i :: 1 <= i < |checks| ==> checks[i] == checks[1..][i - 1];
      rest
  }

  /** The chain raises the error of a failing check that only passing checks precede. */
  lemma {:induction false} FirstFailureAt(checks: seq<Check>, i: int)
    requires 0 <= i < |checks| && !checks[i].passes
    requires forall j :: 0 <= j < i ==> checks[j].passes
    ensures FirstFailure(checks) == Some(checks[i].error)
    decreases i
  {
    if i > 0 {
      assert checks[0].passes;
      FirstFailureAt(checks[1..], i - 1);
    }
  }

  /** Running two chains one after the other raises what the first raises,
      or else what the second raises. */
  lemma {:induction false} FirstFailureAppend(a: seq<Check>, b: seq<Check>)
    ensures FirstFailure(a + b) == if FirstFailure(a).Some? then FirstFailure(a) else FirstFailure(b)
    decreases |a|
  {
    if a == [] {
      assert a + b == b;
    } else {
      assert (a + b)[0] == a[0];
      assert (a + b)[1..] == a[1..] + b;
      FirstFailureAppend(a[1..], b);
    }
  }

  /** `!(isNaN(x) || x <= 0)`. */
  predicate Positive(f: Field<real>) { f.Num? && f.v > 0.0 }
  predicate PositiveCount(f: Field<int>) { f.Num? && f.v > 0 }
  /** `!(x !== undefined && (isNaN(x) || x < 0))`. */
  predicate AbsentOrNonNegative(f: Field<real>) { f.Undefined? || (f.Num? && f.v >= 0.0) }
  /** `!(x !== undefined && (isNaN(x) || x <= 0))`. */
  predicate AbsentOrPositive(f: Field<real>) { f.Undefined? || (f.Num? && f.v > 0.0) }
  /** `!(colors !== undefined && colors.length !== sectionsCount)`. */
  predicate ColorsMatchCount(c: Config) {
    c.sectionsColors.None? || (c.sectionsCount.Num? && |c.sectionsColors.value| == c.sectionsCount.v)
  }

  /** The configuration after defaults: what the gauge's fields hold. */
  datatype Settings = Settings(
    animationDelay: real,
    animationDuration: real,
    barWidth: real,
    chartInset: real,
    easeType: Ease,
    height: real,
    needleRadius: real,
    sectionsCount: nat,
    width: real,
    sectionsColors: Option<seq<Color>>,
    needleColor: Option<Color>)

  /** What the checks guarantee of the settings. */
  predicate SettingsValid(s: Settings) {
    && s.animationDelay >= 0.0
    && s.animationDuration >= 0.0
    && s.barWidth > 0.0
    && s.chartInset >= 0.0
    && s.height > 0.0
    && s.needleRadius >= 0.0
    && s.sectionsCount > 0
    && s.width > 0.0
    && Ring.ColorsFit(s.sectionsCount, s.sectionsColors)
  }

  /** `CONSTANTS` */
  const BAR_WIDTH: real := 40.0
  const NEEDLE_ANIMATION_DELAY: real := 0.0
  const NEEDLE_ANIMATION_DURATION: real := 3000.0
  const NEEDLE_RADIUS: real := 15.0

  /** The percent setter's check, `isNaN(p) || p < 0 || p > 1`; `None` is the
      range error. */
  function AcceptPercent(f: Field<real>): (r: Option<real>)
    ensures r.Some? <==> f.Num? && 0.0 <= f.v <= 1.0
    ensures r.Some? ==> r.value == f.v
  {
    if f.IsNaN() || f.v < 0.0 || f.v > 1.0 then None else Some(f.v)
  }

  /** `config.percent !== undefined ? config.percent : 0`: what construction
      hands to the percent setter; never absent, and an absent percent is an
      accepted 0. */
  function InitialPercent(c: Config): (f: Field<real>)
    ensures !f.Undefined?
    ensures c.percent.Undefined? ==> AcceptPercent(f) == Some(0.0)
    ensures !c.percent.Undefined? ==> f == c.percent
  {
    if c.percent.Undefined? then Num(0.0) else c.percent
  }

  /** `config.interval || [0, 1]`: what construction hands to the interval
      setter; with no interval the accepted scale is [0, 1]. */
  function InitialInterval(c: Config): (a: LinearScale.IntervalArg)
    ensures c.interval.None? ==> LinearScale.Accept(a) == Some(LinearScale.Interval(0.0, 1.0))
    ensures c.interval.Some? ==> a == c.interval.value
  {
    c.interval.GetOr(LinearScale.DefaultInterval)
  }

  /** The background ring the settings call for. */
  function Background(s: Settings): (arcs: seq<Ring.Arc>)
    requires SettingsValid(s)
    ensures |arcs| == s.sectionsCount
  {
    Ring.Layout(s.sectionsCount, Ring.Radius(s.width, s.height), s.chartInset, s.barWidth, s.sectionsColors)
  }
}
