/** How the three variants relate: their checks nest, their defaults differ
    on falsy values, and their active-section rules differ only at the top. */
module Variants {
  import opened JsValues
  import opened GaugeConfig
  import LinearScale
  import Sections
  import DistGauge
  import SrcGauge
  import LegacyGauge

  /** Each newer constructor makes the older one's checks first, then its own. */
  lemma ChecksExtend(c: Config)
    ensures SrcGauge.Checks(c) == LegacyGauge.Checks(c) + [Check(AbsentOrNonNegative(c.needleRadius), InvalidNeedleRadius)]
    ensures DistGauge.Checks(c) == LegacyGauge.Checks(c)
              + [ Check(AbsentOrNonNegative(c.chartInset), InvalidChartInset),
                  Check(AbsentOrNonNegative(c.needleRadius), InvalidNeedleRadius),
                  Check(ColorsMatchCount(c), SectionsColorsMismatch) ]
  {
  }

  /** A configuration the oldest variant rejects is rejected by the newer
      ones with the same error; one the newest accepts, the older ones accept. */
  lemma ValidationNests(c: Config)
    ensures LegacyGauge.ConstructionError(c).Some? && LegacyGauge.ConstructionError(c) != Some(InvalidPercent) ==>
              SrcGauge.ConstructionError(c) == LegacyGauge.ConstructionError(c) &&
              DistGauge.ConstructionError(c) == LegacyGauge.ConstructionError(c)
    ensures FirstFailure(DistGauge.Checks(c)).None? ==> FirstFailure(SrcGauge.Checks(c)).None?
    ensures FirstFailure(SrcGauge.Checks(c)).None? ==> FirstFailure(LegacyGauge.Checks(c)).None?
  {
    ChecksExtend(c);
    var base := LegacyGauge.Checks(c);
    FirstFailureAppend(base, [Check(AbsentOrNonNegative(c.needleRadius), InvalidNeedleRadius)]);
    FirstFailureAppend(base, [ Check(AbsentOrNonNegative(c.chartInset), InvalidChartInset),
                              Check(AbsentOrNonNegative(c.needleRadius), InvalidNeedleRadius),
                              Check(ColorsMatchCount(c), SectionsColorsMismatch) ]);
  }

  /** An explicit zero duration is kept by the newest variant and replaced by
      3000 in the earlier ones. */
  lemma ZeroDurationDiffers(c: Config)
    requires FirstFailure(DistGauge.Checks(c)).None?
    requires c.animationDuration == Num(0.0)
    ensures FirstFailure(SrcGauge.Checks(c)).None?
    ensures DistGauge.Defaults(c).animationDuration == 0.0
    ensures SrcGauge.Defaults(c).animationDuration == 3000.0
  {
    ValidationNests(c);
    DistGauge.DefaultsOnlyWhenAbsent(c);
    SrcGauge.ZeroTakesDefault(c);
  }

  /** The two active-section rules agree below the top of the range; at the
      top only the newer one marks the last arc. */
  lemma ActiveRulesCompared(p: real, n: nat)
    requires n > 0 && 0.0 <= p <= 1.0
    ensures p < 1.0 ==> forall i :: 0 <= i < n ==> (Sections.IsActive(p, n, i) <==> Sections.IsActiveWithoutTop(p, n, i))
    ensures p == 1.0 ==> Sections.IsActive(p, n, n - 1) && !Sections.IsActiveWithoutTop(p, n, n - 1)
  {
    Sections.ExactlyOneActive(p, n);
    if p < 1.0 {
      Sections.OlderRuleBelowTop(p, n);
    } else {
      Sections.OlderRuleNoneAtTop(n);
    }
  }

  /** A caller's view of the newest gauge: four sections, the interval
      [0, 250], then a walk through the percents and values the d3-simple-gauge
      test suite uses. */
  method FourSectionScenario(c: Config)
    requires c.el && c.height == Num(100.0) && c.width == Num(300.0) && c.sectionsCount == Num(4)
    requires c.animationDelay.Undefined? && c.animationDuration.Undefined? && c.barWidth.Undefined?
    requires c.chartInset.Undefined? && c.needleRadius.Undefined? && c.sectionsColors.None?
    requires c.interval == Some(LinearScale.Items([Num(0.0), Num(250.0)])) && c.percent.Undefined?
  {
    var checks := DistGauge.Checks(c);
    assert forall i :: 0 <= i < |checks| ==> checks[i].passes by {
      assert checks[0].passes && checks[1].passes && checks[2].passes && checks[3].passes;
      assert checks[4].passes && checks[5].passes && checks[6].passes;
      assert checks[7].passes && checks[8].passes && checks[9].passes;
    }
    var r := DistGauge.SimpleGauge.Create(c);
    assert r.Success?;
    var g := r.value;
    assert g.GetPercent() == 0.0 && g.isMin && !g.isMax;
    assert g.GetInterval() == [0.0, 250.0];
    assert |g.arcs| == 4 && g.active[0] && !g.active[1];

    var e := g.SetPercent(Num(0.5));
    assert e == None && g.GetPercent() == 0.5 && g.needle.requested == [0.5];
    assert (0.5 * 4.0).Floor == 2;
    assert g.active[2] && !g.active[3] && !g.isMin && !g.isMax;

    e := g.SetPercent(Num(1.0));
    assert (1.0 * 4.0).Floor == 4;
    assert g.active[3] && !g.active[2] && g.isMax;

    e := g.SetPercent(Num(1.1));
    assert e == Some(InvalidPercent) && g.GetPercent() == 1.0;

    e := g.SetValue(Num(125.0));
    assert e == None && g.GetPercent() == 0.5;

    e := g.SetValue(Num(300.0));
    assert g.GetPercent() == 1.0;

    e := g.SetInterval(LinearScale.Items([Num(5.0), Num(1.0)]));
    assert e == Some(InvalidInterval) && g.GetInterval() == [0.0, 250.0];
  }
}
