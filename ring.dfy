/** The background ring drawn by `_initialize`: one arc per section, laid out
    by a loop that accumulates `totalPercent` from 0.75 turns (270 degrees) in
    steps of half a turn divided by the section count. */
module Ring {
  import opened JsValues
  import Geometry

  /** `CONSTANTS.PAD_RAD`: the gap, in radians, split between two neighbouring arcs. */
  const PAD_RAD: real := 0.05
  /** `CONSTANTS.CHAR_INSET`: the default (older variants: fixed) chart inset. */
  const CHART_INSET: real := 10.0

  /** What d3's `arc()` is given for one section, plus its `chart-colorK`
      index and its fill. */
  datatype Arc = Arc(sectionIndex: int, startAngle: real, endAngle: real,
                     innerRadius: real, outerRadius: real, fill: Option<Color>)

  /** `Math.min(width, height * 2) / 2`: the largest half-disc that fits the box. */
  function Radius(width: real, height: real): (r: real)
    ensures r <= width / 2.0 && r <= height
    ensures r == width / 2.0 || r == height
  {
    (if width < height * 2.0 then width else height * 2.0) / 2.0
  }

  /** Where section `k` (1-based) begins, in turns, before padding. */
  function SectionStart(n: nat, k: int): real
    requires n > 0
  {
    0.75 + (k - 1) as real / (2.0 * n as real)
  }

  /** Where section `k` ends, in turns, before padding. */
  function SectionEnd(n: nat, k: int): real
    requires n > 0
  {
    0.75 + k as real / (2.0 * n as real)
  }

  /** Colours are given for all sections or for none. */
  predicate ColorsFit(n: nat, colors: Option<seq<Color>>) {
    colors.Some? ==> |colors.value| == n
  }

  /** The arc of section `k`, in closed form: its unpadded span
      [SectionStart, SectionEnd] in turns, the start padded by half a gap, the
      end padded too unless it is the last section. */
  function ArcAt(n: nat, radius: real, inset: real, barWidth: real, colors: Option<seq<Color>>, k: int): (a: Arc)
    requires n > 0 && 1 <= k <= n && ColorsFit(n, colors)
    ensures a.sectionIndex == k
    ensures a.outerRadius == radius - inset && a.outerRadius - a.innerRadius == barWidth
    ensures colors.Some? ==> a.fill == Some(colors.value[k - 1])
    ensures colors.None? ==> a.fill == None
  {
    Arc(k,
        Geometry.PercToRad(SectionStart(n, k)) + PAD_RAD / 2.0,
        Geometry.PercToRad(SectionEnd(n, k)) - (if k == n then 0.0 else PAD_RAD / 2.0),
        radius - inset - barWidth,
        radius - inset,
        if colors.Some? then Some(colors.value[k - 1]) else None)
  }

  /** The whole ring, in draw order. */
  function Layout(n: nat, radius: real, inset: real, barWidth: real, colors: Option<seq<Color>>): (arcs: seq<Arc>)
    requires n > 0 && ColorsFit(n, colors)
    ensures |arcs| == n
    ensures forall i :: 0 <= i < n ==> arcs[i] == ArcAt(n, radius, inset, barWidth, colors, i + 1)
  {
    seq(n, i requires 0 <= i < n => ArcAt(n, radius, inset, barWidth, colors, i + 1))
  }

  /** The loop of `_initialize` over `d3.range(1, sectionsCount + 1)`, with the
      mutable accumulator `totalPercent`. It computes exactly `Layout`. */
  method DrawArcs(n: nat, radius: real, inset: real, barWidth: real, colors: Option<seq<Color>>)
    returns (arcs: seq<Arc>)
    requires n > 0 && ColorsFit(n, colors)
    ensures arcs == Layout(n, radius, inset, barWidth, colors)
  {
    var sectionPercentage := 1.0 / n as real / 2.0;
    var totalPercent := 0.75;
    arcs := [];
    var sectionIndex := 1;
    while sectionIndex <= n
      invariant 1 <= sectionIndex <= n + 1
      invariant |arcs| == sectionIndex - 1
      invariant totalPercent == SectionStart(n, sectionIndex)
      invariant forall i :: 0 <= i < |arcs| ==> arcs[i] == ArcAt(n, radius, inset, barWidth, colors, i + 1)
    {
      var arcStartRad := Geometry.PercToRad(totalPercent);
      var arcEndRad := arcStartRad + Geometry.PercToRad(sectionPercentage);
      SectionStep(n, sectionIndex);
      totalPercent := totalPercent + sectionPercentage;

      var startPadRad := if sectionIndex == 0 then 0.0 else PAD_RAD / 2.0;
      var endPadRad := if sectionIndex == n then 0.0 else PAD_RAD / 2.0;
      var fill := if colors.Some? then Some(colors.value[sectionIndex - 1]) else None;
      arcs := arcs + [Arc(sectionIndex, arcStartRad + startPadRad, arcEndRad - endPadRad,
                          radius - inset - barWidth, radius - inset, fill)];
      sectionIndex := sectionIndex + 1;
    }
  }

  /** One step of the accumulator: a section ends where the next begins, one
      `sectionPercentage` further on. */
  lemma SectionStep(n: nat, k: int)
    requires n > 0
    ensures SectionEnd(n, k) == SectionStart(n, k) + 1.0 / n as real / 2.0
    ensures SectionStart(n, k + 1) == SectionEnd(n, k)
  {
    var m := 2.0 * n as real;
    assert 1.0 / n as real / 2.0 == 1.0 / m;
    assert k as real / m == (k - 1) as real / m + 1.0 / m;
  }

  /** Neighbouring arcs leave exactly one `PAD_RAD` between them. */
  lemma GapBetweenNeighbours(n: nat, radius: real, inset: real, barWidth: real, colors: Option<seq<Color>>, k: int)
    requires n > 0 && 1 <= k < n && ColorsFit(n, colors)
    ensures ArcAt(n, radius, inset, barWidth, colors, k + 1).startAngle
            - ArcAt(n, radius, inset, barWidth, colors, k).endAngle == PAD_RAD
  {
    SectionStep(n, k);
  }

  /** Before padding the ring runs from 0.75 to 1.25 turns: half a circle, from
      270 degrees over the top. The first arc's start is padded too (its
      index is 1, never 0); the last arc's end is not. */
  lemma RingEnds(n: nat, radius: real, inset: real, barWidth: real, colors: Option<seq<Color>>)
    requires n > 0 && ColorsFit(n, colors)
    ensures ArcAt(n, radius, inset, barWidth, colors, 1).startAngle == Geometry.PercToRad(0.75) + PAD_RAD / 2.0
    ensures ArcAt(n, radius, inset, barWidth, colors, n).endAngle == Geometry.PercToRad(1.25)
  {
    var m := 2.0 * n as real;
    assert n as real / m == 0.5;
  }

  /** Each arc spans 1/(2n) of a turn, less half a gap at each padded end. */
  lemma ArcSpan(n: nat, radius: real, inset: real, barWidth: real, colors: Option<seq<Color>>, k: int)
    requires n > 0 && 1 <= k <= n && ColorsFit(n, colors)
    ensures var a := ArcAt(n, radius, inset, barWidth, colors, k);
            a.endAngle - a.startAngle
            == Geometry.PercToRad(1.0 / (2.0 * n as real)) - (if k == n then PAD_RAD / 2.0 else PAD_RAD)
  {
    SectionStep(n, k);
    assert 1.0 / n as real / 2.0 == 1.0 / (2.0 * n as real);
  }

  /** In draw order, the fills are the configured colours. */
  lemma FillsFollowColors(n: nat, radius: real, inset: real, barWidth: real, colors: seq<Color>)
    requires n > 0 && |colors| == n
    ensures var arcs := Layout(n, radius, inset, barWidth, Some(colors));
            seq(n, i requires 0 <= i < n => arcs[i].fill.value) == colors
  {
  }
}
