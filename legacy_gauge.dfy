/** The oldest `SimpleGauge` (src/simple-gauge.js): checked construction, the
    percent getter and setter, the background ring and the needle. It has no
    interval, no value setter and no derived classes; the needle radius is
    always 15. */
module LegacyGauge {
  import opened JsValues
  import opened GaugeConfig
  import Ring
  import opened NeedleModel

  /** The constructor's checks, in the order it makes them (no needle radius check). A
      configuration passes them all iff every field meets its condition. */
  function Checks(c: Config): (cs: seq<Check>)
    ensures |cs| == 7
    ensures FirstFailure(cs).None? <==>
              && c.el && Positive(c.height) && PositiveCount(c.sectionsCount) && Positive(c.width)
              && AbsentOrNonNegative(c.animationDelay) && AbsentOrNonNegative(c.animationDuration)
              && AbsentOrPositive(c.barWidth)
  {
    var cs :=
      [ Check(c.el, InvalidElement),
        Check(Positive(c.height), InvalidHeight),
        Check(PositiveCount(c.sectionsCount), InvalidSectionsCount),
        Check(Positive(c.width), InvalidWidth),
        Check(AbsentOrNonNegative(c.animationDelay), InvalidAnimationDelay),
        Check(AbsentOrNonNegative(c.animationDuration), InvalidAnimationDuration),
        Check(AbsentOrPositive(c.barWidth), InvalidBarWidth) ];
    assert FirstFailure(cs).None? ==>
      cs[0].passes && cs[1].passes && cs[2].passes
      && cs[3].passes && cs[4].passes && cs[5].passes && cs[6].passes;
    cs
  }

  /** The chain of `if (...) throw` at the head of the constructor: it raises
      the error of the first check the configuration fails. */
  method Validate(c: Config) returns (err: Option<GaugeError>)
    ensures err == FirstFailure(Checks(c))
  {
    var checks := Checks(c);
    if !c.el {
      FirstFailureAt(checks, 0);
      return Some(InvalidElement);
    }
    if c.height.IsNaN() || c.height.v <= 0.0 {
      FirstFailureAt(checks, 1);
      return Some(InvalidHeight);
    }
    if c.sectionsCount.IsNaN() || c.sectionsCount.v <= 0 {
      FirstFailureAt(checks, 2);
      return Some(InvalidSectionsCount);
    }
    if c.width.IsNaN() || c.width.v <= 0.0 {
      FirstFailureAt(checks, 3);
      return Some(InvalidWidth);
    }
    if !c.animationDelay.Undefined? && (c.animationDelay.IsNaN() || c.animationDelay.v < 0.0) {
      FirstFailureAt(checks, 4);
      return Some(InvalidAnimationDelay);
    }
    if !c.animationDuration.Undefined? && (c.animationDuration.IsNaN() || c.animationDuration.v < 0.0) {
      FirstFailureAt(checks, 5);
      return Some(InvalidAnimationDuration);
    }
    if !c.barWidth.Undefined? && (c.barWidth.IsNaN() || c.barWidth.v <= 0.0) {
      FirstFailureAt(checks, 6);
      return Some(InvalidBarWidth);
    }
    return None;
  }

  /** The field assignments after the checks, with `||` defaults. The needle
      radius and chart inset are the constants 15 and 10 whatever the
      configuration says. */
  function Defaults(c: Config): (s: Settings)
    requires FirstFailure(Checks(c)).None?
    ensures SettingsValid(s)
    ensures c.height == Num(s.height) && c.width == Num(s.width) && c.sectionsCount == Num(s.sectionsCount as int)
    ensures s.needleRadius == NEEDLE_RADIUS && s.chartInset == Ring.CHART_INSET
    ensures s.sectionsColors == None && s.needleColor == None
  {
    Settings(
      animationDelay := OrElse(c.animationDelay, NEEDLE_ANIMATION_DELAY),
      animationDuration := OrElse(c.animationDuration, NEEDLE_ANIMATION_DURATION),
      barWidth := OrElse(c.barWidth, BAR_WIDTH),
      chartInset := Ring.CHART_INSET,
      easeType := c.easeType.GetOr(EaseElastic),
      height := c.height.v,
      needleRadius := NEEDLE_RADIUS,
      sectionsCount := c.sectionsCount.v,
      width := c.width.v,
      sectionsColors := None,
      needleColor := None)
  }

  /** What construction raises: the first failing check, else a bad initial
      percent; the interval is not looked at. */
  function ConstructionError(c: Config): (e: Option<GaugeError>)
    ensures e.None? <==> FirstFailure(Checks(c)).None? && AcceptPercent(InitialPercent(c)).Some?
    ensures FirstFailure(Checks(c)).Some? ==> e == FirstFailure(Checks(c))
    ensures FirstFailure(Checks(c)).None? && e.Some? ==> e.value == InvalidPercent
  {
    if FirstFailure(Checks(c)).Some? then FirstFailure(Checks(c))
    else if AcceptPercent(InitialPercent(c)).None? then Some(InvalidPercent)
    else None
  }

  class SimpleGauge {
    const settings: Settings
    /** `_percent`. */
    var percent: real
    /** The arc paths drawn under the chart group; empty until `Initialize`. */
    var arcs: seq<Ring.Arc>
    var needle: Needle?

    ghost predicate Valid()
      reads this
    {
      && SettingsValid(settings)
      && settings.chartInset == Ring.CHART_INSET && settings.sectionsColors == None
      && settings.needleRadius == NEEDLE_RADIUS && settings.needleColor == None
      && 0.0 <= percent <= 1.0
      && (needle == null ==> arcs == [])
      && (needle != null ==>
            && arcs == Background(settings)
            && needle.length == settings.height * 0.5
            && needle.radius == NEEDLE_RADIUS
            && needle.color == None
            && needle.animationDelay == settings.animationDelay
            && needle.animationDuration == settings.animationDuration
            && needle.easeType == settings.easeType)
    }

    /** The gauge before its percent setter runs; `percent` holds a
        placeholder that the construction's setter call replaces. */
    constructor (s: Settings)
      requires SettingsValid(s)
      requires s.chartInset == Ring.CHART_INSET && s.sectionsColors == None
      requires s.needleRadius == NEEDLE_RADIUS && s.needleColor == None
      ensures Valid() && settings == s && needle == null && arcs == []
    {
      settings := s;
      percent := 0.0;
      arcs := [];
      needle := null;
    }

    /** `new SimpleGauge(config)`: the checks, the defaults, the percent setter
        (no needle yet, so no transition), then the ring and the needle at the
        initial percent. */
    static method Create(c: Config) returns (r: Result<SimpleGauge, GaugeError>)
      ensures r.Failure? <==> ConstructionError(c).Some?
      ensures r.Failure? ==> r.error == ConstructionError(c).value
      ensures r.Success? ==>
                && fresh(r.value) && fresh(r.value.needle)
                && r.value.Valid()
                && r.value.settings == Defaults(c)
                && r.value.percent == InitialPercent(c).v
                && r.value.arcs == Background(r.value.settings)
                && r.value.needle != null
                && r.value.needle.percent == r.value.percent
                && r.value.needle.requested == []
    {
      var err := Validate(c);
      if err.Some? {
        return Failure(err.value);
      }
      var g := new SimpleGauge(Defaults(c));
      err := g.SetPercent(InitialPercent(c));
      if err.Some? {
        return Failure(err.value);
      }
      g.Initialize();
      return Success(g);
    }

    /** `_initialize`: draws the ring and creates the needle (radius 15,
        length half the height) at the current percent. */
    method Initialize()
      requires Valid() && needle == null
      modifies this
      ensures Valid()
      ensures percent == old(percent)
      ensures arcs == Background(settings)
      ensures needle != null && fresh(needle)
      ensures needle.percent == percent && needle.requested == []
    {
      var radius := Ring.Radius(settings.width, settings.height);
      arcs := Ring.DrawArcs(settings.sectionsCount, radius, Ring.CHART_INSET, settings.barWidth, None);
      needle := new Needle(settings.animationDelay, settings.animationDuration, None,
                           settings.easeType, settings.height * 0.5, percent, NEEDLE_RADIUS);
    }

    /** The `percent` getter. */
    function GetPercent(): (p: real)
      requires Valid()
      reads this
      ensures 0.0 <= p <= 1.0
    {
      percent
    }

    /** The `percent` setter: checks before changing anything, asks the needle
        (once it exists) for a transition and stores the percent. */
    method SetPercent(p: Field<real>) returns (err: Option<GaugeError>)
      requires Valid()
      modifies this, needle
      ensures Valid()
      ensures needle == old(needle) && arcs == old(arcs)
      ensures err.Some? <==> AcceptPercent(p).None?
      ensures err.Some? ==> err.value == InvalidPercent && unchanged(this) && (needle != null ==> unchanged(needle))
      ensures err.None? ==> GetPercent() == p.v
      ensures err.None? && needle != null ==>
                needle.requested == old(needle.requested) + [p.v] && needle.percent == old(needle.percent)
    {
      if p.IsNaN() || p.v < 0.0 || p.v > 1.0 {
        return Some(InvalidPercent);
      }
      if needle != null {
        needle.Update(p.v);
      }
      percent := p.v;
      return None;
    }
  }
}
