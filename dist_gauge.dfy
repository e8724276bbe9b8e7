/** The newest `SimpleGauge` (dist/d3-simple-gauge.js): checked construction
    with defaults, the interval and its scale, the percent and value setters,
    the background ring and the derived `active`/`min`/`max` state. */
module DistGauge {
  import opened JsValues
  import opened GaugeConfig
  import opened LinearScale
  import Ring
  import Sections
  import opened NeedleModel

  /** The constructor's checks, in the order it makes them. A configuration
      passes them all iff every field meets its condition. */
  function Checks(c: Config): (cs: seq<Check>)
    ensures |cs| == 10
    ensures FirstFailure(cs).None? <==>
              && c.el && Positive(c.height) && PositiveCount(c.sectionsCount) && Positive(c.width)
              && AbsentOrNonNegative(c.animationDelay) && AbsentOrNonNegative(c.animationDuration)
              && AbsentOrPositive(c.barWidth) && AbsentOrNonNegative(c.chartInset)
              && AbsentOrNonNegative(c.needleRadius) && ColorsMatchCount(c)
  {
    var cs :=
      [ Check(c.el, InvalidElement),
        Check(Positive(c.height), InvalidHeight),
        Check(PositiveCount(c.sectionsCount), InvalidSectionsCount),
        Check(Positive(c.width), InvalidWidth),
        Check(AbsentOrNonNegative(c.animationDelay), InvalidAnimationDelay),
        Check(AbsentOrNonNegative(c.animationDuration), InvalidAnimationDuration),
        Check(AbsentOrPositive(c.barWidth), InvalidBarWidth),
        Check(AbsentOrNonNegative(c.chartInset), InvalidChartInset),
        Check(AbsentOrNonNegative(c.needleRadius), InvalidNeedleRadius),
        Check(ColorsMatchCount(c), SectionsColorsMismatch) ];
    assert FirstFailure(cs).None? ==>
      cs[0].passes && cs[1].passes && cs[2].passes && cs[3].passes && cs[4].passes
      && cs[5].passes && cs[6].passes && cs[7].passes && cs[8].passes && cs[9].passes;
    cs
  }

  /** The chain of `if (...) throw` at the head of the constructor: it raises
      the error of the first check the configuration fails. */
  method Validate(c: Config) returns (err: Option<GaugeError>)
    ensures err == FirstFailure(Checks(c))
  {
    var checks := Checks(c);
    if !c.el {
      FirstFailureAt(checks, 0);
      return Some(InvalidElement);
    }
    if c.height.IsNaN() || c.height.v <= 0.0 {
      FirstFailureAt(checks, 1);
      return Some(InvalidHeight);
    }
    if c.sectionsCount.IsNaN() || c.sectionsCount.v <= 0 {
      FirstFailureAt(checks, 2);
      return Some(InvalidSectionsCount);
    }
    if c.width.IsNaN() || c.width.v <= 0.0 {
      FirstFailureAt(checks, 3);
      return Some(InvalidWidth);
    }
    if !c.animationDelay.Undefined? && (c.animationDelay.IsNaN() || c.animationDelay.v < 0.0) {
      FirstFailureAt(checks, 4);
      return Some(InvalidAnimationDelay);
    }
    if !c.animationDuration.Undefined? && (c.animationDuration.IsNaN() || c.animationDuration.v < 0.0) {
      FirstFailureAt(checks, 5);
      return Some(InvalidAnimationDuration);
    }
    if !c.barWidth.Undefined? && (c.barWidth.IsNaN() || c.barWidth.v <= 0.0) {
      FirstFailureAt(checks, 6);
      return Some(InvalidBarWidth);
    }
    if !c.chartInset.Undefined? && (c.chartInset.IsNaN() || c.chartInset.v < 0.0) {
      FirstFailureAt(checks, 7);
      return Some(InvalidChartInset);
    }
    if !c.needleRadius.Undefined? && (c.needleRadius.IsNaN() || c.needleRadius.v < 0.0) {
      FirstFailureAt(checks, 8);
      return Some(InvalidNeedleRadius);
    }
    if c.sectionsColors.Some? && (c.sectionsCount.IsNaN() || |c.sectionsColors.value| != c.sectionsCount.v) {
      FirstFailureAt(checks, 9);
      return Some(SectionsColorsMismatch);
    }
    return None;
  }

  /** The field assignments after the checks: `!== undefined` defaults for the
      delay, duration, chart inset and needle radius (an explicit 0 is kept),
      `||` defaults for the bar width and ease type. */
  function Defaults(c: Config): (s: Settings)
    requires FirstFailure(Checks(c)).None?
    ensures SettingsValid(s)
    ensures c.height == Num(s.height) && c.width == Num(s.width) && c.sectionsCount == Num(s.sectionsCount as int)
    ensures s.sectionsColors == c.sectionsColors && s.needleColor == c.needleColor
  {
    Settings(
      animationDelay := Given(c.animationDelay, NEEDLE_ANIMATION_DELAY),
      animationDuration := Given(c.animationDuration, NEEDLE_ANIMATION_DURATION),
      barWidth := OrElse(c.barWidth, BAR_WIDTH),
      chartInset := Given(c.chartInset, Ring.CHART_INSET),
      easeType := c.easeType.GetOr(EaseElastic),
      height := c.height.v,
      needleRadius := Given(c.needleRadius, NEEDLE_RADIUS),
      sectionsCount := c.sectionsCount.v,
      width := c.width.v,
      sectionsColors := c.sectionsColors,
      needleColor := c.needleColor)
  }

  /** A default replaces a field only when the field is absent: a given value,
      zero included, is kept. */
  lemma DefaultsOnlyWhenAbsent(c: Config)
    requires FirstFailure(Checks(c)).None?
    ensures Defaults(c).animationDelay == (if c.animationDelay.Num? then c.animationDelay.v else 0.0)
    ensures Defaults(c).animationDuration == (if c.animationDuration.Num? then c.animationDuration.v else 3000.0)
    ensures Defaults(c).chartInset == (if c.chartInset.Num? then c.chartInset.v else 10.0)
    ensures Defaults(c).needleRadius == (if c.needleRadius.Num? then c.needleRadius.v else 15.0)
    ensures Defaults(c).barWidth == (if c.barWidth.Num? then c.barWidth.v else 40.0)
    ensures Defaults(c).easeType == (if c.easeType.Some? then c.easeType.value else EaseElastic)
  {
  }

  /** What construction raises: the first failing check, else a bad interval,
      else a bad initial percent. */
  function ConstructionError(c: Config): (e: Option<GaugeError>)
    ensures e.None? <==> FirstFailure(Checks(c)).None? && Accept(InitialInterval(c)).Some?
                         && AcceptPercent(InitialPercent(c)).Some?
    ensures FirstFailure(Checks(c)).Some? ==> e == FirstFailure(Checks(c))
    ensures FirstFailure(Checks(c)).None? && e.Some? ==> e.value == InvalidInterval || e.value == InvalidPercent
  {
    if FirstFailure(Checks(c)).Some? then FirstFailure(Checks(c))
    else if Accept(InitialInterval(c)).None? then Some(InvalidInterval)
    else if AcceptPercent(InitialPercent(c)).None? then Some(InvalidPercent)
    else None
  }

  class SimpleGauge {
    const settings: Settings
    /** `_scale`, kept as its domain. */
    var scale: Interval
    /** `_percent`: the logical percent the gauge was last set to. */
    var percent: real
    /** `_arcs`: empty until `Initialize` has drawn the ring. */
    var arcs: seq<Ring.Arc>
    /** Which arcs carry the `active` class. */
    var active: seq<bool>
    /** The chart's `min` and `max` classes. */
    var isMin: bool
    var isMax: bool
    var needle: Needle?

    /** Everything except the derived classes. */
    ghost predicate Core()
      reads this
    {
      && SettingsValid(settings)
      && scale.min <= scale.max
      && 0.0 <= percent <= 1.0
      && (needle == null ==> arcs == [])
      && (needle != null ==>
            && arcs == Background(settings)
            && needle.length == settings.height * 0.5
            && needle.radius == settings.needleRadius
            && needle.color == settings.needleColor
            && needle.animationDelay == settings.animationDelay
            && needle.animationDuration == settings.animationDuration
            && needle.easeType == settings.easeType)
    }

    ghost predicate Valid()
      reads this
    {
      && Core()
      && (needle != null ==>
            && |active| == settings.sectionsCount
            && (forall i :: 0 <= i < |active| ==> active[i] == Sections.IsActive(percent, settings.sectionsCount, i))
            && isMin == Sections.AtMin(percent)
            && isMax == Sections.AtMax(percent))
    }

    /** The gauge before its setters run: the settings are in place, nothing
        is drawn; `scale` and `percent` hold placeholders that the
        construction's setter calls replace. */
    constructor (s: Settings)
      requires SettingsValid(s)
      ensures Valid() && settings == s && needle == null && arcs == []
    {
      settings := s;
      scale := Interval(0.0, 1.0);
      percent := 0.0;
      arcs := [];
      active := [];
      isMin := false;
      isMax := false;
      needle := null;
    }

    /** `new SimpleGauge(config)`: the checks, the defaults, the interval and
        percent setters (the needle does not exist yet, so no transition is
        asked for), then the ring and the needle at the initial percent. */
    static method Create(c: Config) returns (r: Result<SimpleGauge, GaugeError>)
      ensures r.Failure? <==> ConstructionError(c).Some?
      ensures r.Failure? ==> r.error == ConstructionError(c).value
      ensures r.Success? ==>
                && fresh(r.value) && fresh(r.value.needle)
                && r.value.Valid()
                && r.value.settings == Defaults(c)
                && r.value.scale == Accept(InitialInterval(c)).value
                && r.value.percent == InitialPercent(c).v
                && r.value.arcs == Background(r.value.settings)
                && r.value.needle != null
                && r.value.needle.percent == r.value.percent
                && r.value.needle.requested == []
    {
      var err := Validate(c);
      if err.Some? {
        return Failure(err.value);
      }
      var g := new SimpleGauge(Defaults(c));
      err := g.SetInterval(InitialInterval(c));
      if err.Some? {
        return Failure(err.value);
      }
      err := g.SetPercent(InitialPercent(c));
      if err.Some? {
        return Failure(err.value);
      }
      g.Initialize();
      return Success(g);
    }

    /** `_initialize`: draws the ring, creates the needle at the current
        percent, and applies the derived classes. */
    method Initialize()
      requires Valid() && needle == null
      modifies this
      ensures Valid()
      ensures scale == old(scale) && percent == old(percent)
      ensures arcs == Background(settings)
      ensures needle != null && fresh(needle)
      ensures needle.percent == percent && needle.requested == []
    {
      var radius := Ring.Radius(settings.width, settings.height);
      arcs := Ring.DrawArcs(settings.sectionsCount, radius, settings.chartInset, settings.barWidth,
                            settings.sectionsColors);
      needle := new Needle(settings.animationDelay, settings.animationDuration, settings.needleColor,
                           settings.easeType, settings.height * 0.5, percent, settings.needleRadius);
      Update();
    }

    /** `_update`: marks the active arc and the `min`/`max` classes; does
        nothing before the ring is drawn. */
    method Update()
      requires Core()
      modifies this`active, this`isMin, this`isMax
      ensures Valid()
      ensures arcs == [] ==> active == old(active) && isMin == old(isMin) && isMax == old(isMax)
    {
      if arcs == [] {
        return;
      }
      var n := settings.sectionsCount;
      var p := percent;
      active := seq(n, i => Sections.IsActive(p, n, i));
      isMin := p == 0.0;
      isMax := p == 1.0;
    }

    /** The `interval` getter: the accepted pair. */
    function GetInterval(): (d: seq<real>)
      requires Valid()
      reads this
      ensures |d| == 2 && d[0] <= d[1]
    {
      Domain(scale)
    }

    /** The `interval` setter: checks the argument, then replaces the scale;
        on error the previous scale stays. */
    method SetInterval(arg: IntervalArg) returns (err: Option<GaugeError>)
      requires Valid()
      modifies this`scale
      ensures Valid()
      ensures err.Some? <==> Accept(arg).None?
      ensures err.Some? ==> err.value == InvalidInterval && scale == old(scale)
      ensures err.None? ==> GetInterval() == [arg.items[0].v, arg.items[1].v]
    {
      if !arg.Items? || |arg.items| != 2 || arg.items[0].IsNaN() || arg.items[1].IsNaN()
         || arg.items[0].v > arg.items[1].v {
        return Some(InvalidInterval);
      }
      scale := Interval(arg.items[0].v, arg.items[1].v);
      return None;
    }

    /** The `percent` getter. */
    function GetPercent(): (p: real)
      requires Valid()
      reads this
      ensures 0.0 <= p <= 1.0
    {
      percent
    }

    /** The `percent` setter: checks before changing anything, asks the needle
        (once it exists) for a transition, stores the percent and refreshes
        the derived classes. */
    method SetPercent(p: Field<real>) returns (err: Option<GaugeError>)
      requires Valid()
      modifies this, needle
      ensures Valid()
      ensures needle == old(needle) && scale == old(scale) && arcs == old(arcs)
      ensures err.Some? <==> AcceptPercent(p).None?
      ensures err.Some? ==> err.value == InvalidPercent && unchanged(this) && (needle != null ==> unchanged(needle))
      ensures err.None? ==> GetPercent() == p.v
      ensures err.None? && needle != null ==>
                needle.requested == old(needle.requested) + [p.v] && needle.percent == old(needle.percent)
    {
      if p.IsNaN() || p.v < 0.0 || p.v > 1.0 {
        return Some(InvalidPercent);
      }
      if needle != null {
        needle.Update(p.v);
      }
      percent := p.v;
      Update();
      return None;
    }

    /** The `value` setter: a number goes through the clamped scale into the
        percent setter, whose range error therefore never fires. */
    method SetValue(v: Field<real>) returns (err: Option<GaugeError>)
      requires Valid() && scale.min < scale.max
      modifies this, needle
      ensures Valid()
      ensures needle == old(needle) && scale == old(scale) && arcs == old(arcs)
      ensures err.Some? <==> v.IsNaN()
      ensures err.Some? ==> err.value == InvalidValue && unchanged(this) && (needle != null ==> unchanged(needle))
      ensures err.None? ==> GetPercent() == Scale(scale, v.v)
      ensures err.None? && needle != null ==>
                needle.requested == old(needle.requested) + [Scale(scale, v.v)] && needle.percent == old(needle.percent)
    {
      if v.IsNaN() {
        return Some(InvalidValue);
      }
      err := SetPercent(Num(Scale(scale, v.v)));
    }
  }
}
