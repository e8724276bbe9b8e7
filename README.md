# d3-simple-gauge, modelled in Dafny

A model of the state logic and layout arithmetic of `SimpleGauge`, a
semicircular d3 gauge: a ring of coloured arcs (one per section) and a needle
that animates towards a percent in [0, 1], or towards a value mapped into
[0, 1] through a clamped linear scale over a configured interval.

Three variants of the component are modelled, each in its own module:

- `DistGauge`: dist/d3-simple-gauge.js, the newest variant: checked
  construction with `!== undefined` defaults for the delay, duration, chart
  inset and needle radius and `||` defaults for the bar width and ease type,
  chart inset and colour options,
  interval, percent and value setters, and an active-arc rule with a special
  case at percent 1.
- `SrcGauge`: src/d3-simple-gauge.js: no chart-inset or colour options, `||`
  defaults (so a given 0 is replaced), fixed inset 10, and no special case at
  percent 1.
- `LegacyGauge`: src/simple-gauge.js: no interval, value setter or derived
  classes; the needle radius is always 15.

What the three files share is modelled once:

- `Geometry`: `percToDeg`, `degToRad`, `percToRad` and the needle angle.
- `NeedleModel`: the needle and its tween arithmetic.
- `Ring`: the arc layout loop of `_initialize`.
- `LinearScale`: the interval check and the clamped scale.
- `Sections`: the active-arc and min/max rules.
- `GaugeConfig`: the configuration object, the error kinds and the ordered
  check chain.

The same helpers and loops appear at src/d3-simple-gauge.js:23-25, 62-79,
105-107 and 258-299, and at src/simple-gauge.js:22-24, 61-78, 104-106 and
209-249. `Variants` relates the three: their check chains nest, their defaults
differ on a given 0, and their active-arc rules differ only at the top.

Numbers are exact reals. π is `Math.PI` as written (3.141592653589793), and
nothing proved depends on its value beyond being positive. A JavaScript
configuration field is a `Field`: `Undefined`, `NotANumber` (anything
`isNaN` holds of) or `Num(v)`. Thrown errors are `GaugeError` values,
returned in a `Result` or `Option`. Objects whose fields the code updates
(`SimpleGauge`, `Needle`) are classes. Their setters are methods whose
contracts give the new state and keep `Valid()`. The arc loop is a method with
loop invariants, proved equal to the closed-form `Ring.Layout`.

Three details of the code are easy to misread:

- The ring spans half a turn, from 0.75 to 1.25 turns (270° over the top to
  90°). The `// Start at 270deg` comment at dist/d3-simple-gauge.js:276 gives
  only its start.
- The first arc's start is padded like every other start. Its section index
  is 1, so the `sectionIndex === 0` case at dist/d3-simple-gauge.js:288 never
  occurs.
- Each `update` call schedules its own transition. That transition's tween
  aims at the target of that call, but it reads its starting point when the
  transition starts, not when `update` is called. `Needle.Begin` models that
  moment, for whichever requested transition the scheduler starts.

## Model

| member | source | states |
|---|---|---|
| `Geometry.PercToDeg` | dist/d3-simple-gauge.js:74-76 | dividing the degrees by 360 gives back the fraction of a turn |
| `Geometry.DegToRad` | dist/d3-simple-gauge.js:77-79 | the radians, read back through π/180, give the degrees |
| `Geometry.PercToRad` | dist/d3-simple-gauge.js:80-82 | a fraction of a turn becomes exactly 2·π·perc radians |
| `Geometry.PercToRadAdditive` | dist/d3-simple-gauge.js:80-82 | `percToRad` is additive and maps 0 to 0 |
| `Geometry.NeedleAngle` | dist/d3-simple-gauge.js:152-154 | θ = `percToRad(p/2)` = π·p: 0 at p=0, π at p=1, within [0, π] for p in [0, 1] |
| `Geometry.NeedleAngleMonotone` | dist/d3-simple-gauge.js:152-154 | a larger percent gives a strictly larger needle angle |
| `NeedleModel.Interpolate` | dist/d3-simple-gauge.js:131-134 | a frame at progress 0 is the start, and at progress 1 it is exactly start + delta |
| `NeedleModel.TweenTo` | dist/d3-simple-gauge.js:128-130 | the captured tween runs from the live percent (progress 0) to the target (progress 1) |
| `NeedleModel.InterpolateBetween` | dist/d3-simple-gauge.js:131-134 | for progress in [0, 1] a frame lies between start and target; nothing is claimed outside |
| `NeedleModel.PlayFrames` | dist/d3-simple-gauge.js:131-134 | after a run of frames the needle sits where the last frame put it, or where it stood if there was none |
| `NeedleModel.Run` | dist/d3-simple-gauge.js:125-135 | latest request wins: each transition starts from the value the previous one left; if the last one's last frame has progress 1, the needle ends exactly on the last target, however earlier transitions were cut short |
| `NeedleModel.Needle.constructor` | dist/d3-simple-gauge.js:102-114 | the needle keeps its delay, duration, colour, ease, length, radius and initial percent; no transition has been requested |
| `NeedleModel.Needle.Update` | dist/d3-simple-gauge.js:125-127 | `update` schedules one more transition, towards its own target, after the earlier ones; the live percent does not move |
| `NeedleModel.Needle.Begin` | dist/d3-simple-gauge.js:125-130 | the tween factory of the i-th requested transition starts at the live percent when it runs, and ends at the target of its own `update` call |
| `NeedleModel.Needle.Frame` | dist/d3-simple-gauge.js:131-134 | each frame sets the live percent to `initialPercent + progress·delta`; progress 1 lands on start + delta |
| `NeedleModel.Needle.Angle` | dist/d3-simple-gauge.js:152-154 | the wedge's angle for the live percent is π·percent |
| `LinearScale.Accept` | dist/d3-simple-gauge.js:346-349 | an interval is accepted iff it is an array of two numbers with the first not above the second; then its domain is exactly that pair |
| `LinearScale.Domain` | dist/d3-simple-gauge.js:336-338 | the getter returns the two-element pair `[min, max]` |
| `LinearScale.Scale` | dist/d3-simple-gauge.js:350 | the clamped scale maps every value into [0, 1], values at or below min to 0 and at or above max to 1 |
| `LinearScale.Unscale` | dist/d3-simple-gauge.js:350 | the inverse map sends [0, 1] into [min, max] |
| `LinearScale.ScaleUnscale` | dist/d3-simple-gauge.js:350 | every percent in [0, 1] is the scale of some value of the interval: `Scale(Unscale(p)) == p` |
| `LinearScale.UnscaleScale` | dist/d3-simple-gauge.js:350 | inside [min, max] the scale is invertible: `Unscale(Scale(v)) == v` |
| `LinearScale.ScaleClamps` | dist/d3-simple-gauge.js:383-396 | a value outside the interval scales like the nearer end of the interval |
| `LinearScale.ScaleMonotone` | dist/d3-simple-gauge.js:350 | the scale preserves order |
| `LinearScale.ScaleExample` | test/d3-simple-gauge.js:438-451 | [0, 250] is accepted, and 0, 125, 250 scale to 0, 0.5, 1; 300 clamps to 1 |
| `LinearScale.AcceptRejects` | test/d3-simple-gauge.js:349-353 | a non-array, `[1,2,3]`, `['a','b']`, `[0,-100]` and `[100,50]` are all rejected |
| `Ring.Radius` | dist/d3-simple-gauge.js:277 | `min(width, 2·height)/2`: at most width/2, at most the height, and equal to one of them |
| `Ring.ArcAt` | dist/d3-simple-gauge.js:283-298 | arc k has class index k; its outer radius is r − inset and its bar is `barWidth` thick; its fill is colour k−1 when colours are given, and none otherwise |
| `Ring.Layout` | dist/d3-simple-gauge.js:281-299 | the ring has exactly n arcs, the i-th being section i+1 |
| `Ring.DrawArcs` | dist/d3-simple-gauge.js:273-293 | the accumulating loop over `d3.range(1, n + 1)` produces exactly the closed-form ring `Layout` |
| `Ring.SectionStep` | dist/d3-simple-gauge.js:284-286 | each step adds `1/n/2` turns to `totalPercent`: a section ends where the next starts |
| `Ring.GapBetweenNeighbours` | dist/d3-simple-gauge.js:288-290 | consecutive arcs share their unpadded boundary and leave exactly `PAD_RAD` between them |
| `Ring.RingEnds` | dist/d3-simple-gauge.js:276-289 | the first arc starts at 0.75 turns plus half a pad (its start is padded too); the last ends unpadded at 1.25 turns |
| `Ring.ArcSpan` | dist/d3-simple-gauge.js:284-290 | each arc spans 1/(2n) of a turn less `PAD_RAD`, or less half of it for the last arc |
| `Ring.FillsFollowColors` | dist/d3-simple-gauge.js:295-299 | in draw order, the fills are exactly the configured colours |
| `Sections.IsActive` | dist/d3-simple-gauge.js:328-330 | below the top, arc i is active iff p·n lies in [i, i+1); at p = 1, iff i is n−1 (or the non-existent index n) |
| `Sections.IsActiveWithoutTop` | src/d3-simple-gauge.js:310 | arc i is active iff p·n lies in [i, i+1) |
| `Sections.AtMin` | dist/d3-simple-gauge.js:331 | when the `min` class is set, the first arc is the active one under both rules |
| `Sections.AtMax` | dist/d3-simple-gauge.js:332 | when the `max` class is set, the newer rule marks the last arc |
| `Sections.ActiveIndex` | dist/d3-simple-gauge.js:328-330 | the intended active index is in [0, n) and, below the top, is the section containing p·n |
| `Sections.ExactlyOneActive` | dist/d3-simple-gauge.js:328-330 | under the newer rule exactly one arc is active: ⌊p·n⌋ for p < 1, the last for p = 1 |
| `Sections.OlderRuleBelowTop` | src/d3-simple-gauge.js:310 | under the older rule, for p < 1, exactly arc ⌊p·n⌋ is active |
| `Sections.OlderRuleNoneAtTop` | src/d3-simple-gauge.js:310 | under the older rule no arc is active at p = 1 |
| `Sections.FourSectionExample` | test/d3-simple-gauge.js:381-411 | with four sections 0, 0.25, 0.5, 0.75, 1 activate arcs 0, 1, 2, 3, 3; `min` only at 0, `max` only at 1 |
| `GaugeConfig.FirstFailure` | dist/d3-simple-gauge.js:201-230 | a chain of checks raises nothing iff every check passes, else the error of a failing check preceded only by passing ones |
| `GaugeConfig.FirstFailureAt` | dist/d3-simple-gauge.js:201-230 | a failing check preceded only by passing ones decides the chain's error |
| `GaugeConfig.FirstFailureAppend` | dist/d3-simple-gauge.js:201-230 | a chain extended with more checks raises the first part's error if any, else the second's |
| `GaugeConfig.InitialPercent` | dist/d3-simple-gauge.js:249 | construction hands the setter a percent that is never absent; an absent one becomes an accepted 0, a given one is passed unchanged |
| `GaugeConfig.InitialInterval` | dist/d3-simple-gauge.js:248 | with no interval configured the setter accepts [0, 1]; a given one is passed unchanged |
| `JsValues.Given` | dist/d3-simple-gauge.js:232-236 | a `!== undefined` default: a given value is kept, zero included; an absent one becomes the default |
| `JsValues.OrElse` | dist/d3-simple-gauge.js:238 | the logical-or default: the same as the `!== undefined` default except that a given 0 is also replaced |
| `GaugeConfig.AcceptPercent` | dist/d3-simple-gauge.js:372-374 | a percent is accepted iff it is a number in [0, 1], and then unchanged |
| `GaugeConfig.Background` | dist/d3-simple-gauge.js:281 | the ring built from the settings has `sectionsCount` arcs |
| `DistGauge.Validate` | dist/d3-simple-gauge.js:201-230 | the constructor's if-chain raises the first failing check: element, height, count, width, delay, duration, bar width, chart inset, needle radius, colour count |
| `DistGauge.Checks` | dist/d3-simple-gauge.js:201-230 | ten checks, which a configuration passes all of iff every field meets its condition (element, positive height, count and width, non-negative delay, duration, inset and radius when given, positive bar width when given, colours matching the count) |
| `DistGauge.ConstructionError` | dist/d3-simple-gauge.js:198-252 | construction fails iff a check fails or the initial interval or percent is rejected; a check's error comes first, and otherwise the error is the interval's or the percent's |
| `DistGauge.Defaults` | dist/d3-simple-gauge.js:232-246 | the settings after defaults satisfy every bound the checks promise, and copy height, width, count and colours |
| `DistGauge.DefaultsOnlyWhenAbsent` | dist/d3-simple-gauge.js:232-246 | delay 0, duration 3000, inset 10, needle radius 15, bar width 40 and elastic ease are used only when the field is absent; a given 0 is kept |
| `DistGauge.SimpleGauge.constructor` | dist/d3-simple-gauge.js:240-246 | the fields hold the settings; nothing is drawn yet |
| `DistGauge.SimpleGauge.Create` | dist/d3-simple-gauge.js:198-252 | construction fails exactly with the first failing check, else a bad interval, else a bad percent; on success the gauge is valid, with the defaults, the accepted interval, the initial percent, the full ring and a needle at that percent with no transition requested |
| `DistGauge.SimpleGauge.Initialize` | dist/d3-simple-gauge.js:270-312 | draws the ring, creates the needle from the settings at the current percent, and applies the derived classes |
| `DistGauge.SimpleGauge.Update` | dist/d3-simple-gauge.js:322-333 | afterwards, once the ring exists, arc i is active iff the newer rule holds and `min`/`max` hold iff p = 0 / p = 1; before the ring exists nothing changes |
| `DistGauge.SimpleGauge.GetInterval` | dist/d3-simple-gauge.js:336-338 | the getter returns an ordered pair |
| `DistGauge.SimpleGauge.SetInterval` | dist/d3-simple-gauge.js:346-351 | a rejected interval throws and keeps the old scale; an accepted one is returned by the getter |
| `DistGauge.SimpleGauge.GetPercent` | dist/d3-simple-gauge.js:361-363 | the percent read is always in [0, 1] |
| `DistGauge.SimpleGauge.SetPercent` | dist/d3-simple-gauge.js:371-380 | NaN or out-of-range throws before any change; otherwise the getter returns exactly p, the needle is asked to go to p without moving yet, and the derived classes follow |
| `DistGauge.SimpleGauge.SetValue` | dist/d3-simple-gauge.js:392-397 | NaN throws without change; any number sets the percent to its clamped scale, and the percent range error never fires |
| `SrcGauge.Validate` | src/d3-simple-gauge.js:149-174 | the if-chain raises the first failing check: element, height, count, width, delay, duration, bar width, needle radius |
| `SrcGauge.Checks` | src/d3-simple-gauge.js:149-174 | eight checks, which a configuration passes all of iff every field meets its condition (no inset or colour checks) |
| `SrcGauge.ConstructionError` | src/d3-simple-gauge.js:148-187 | construction fails iff a check fails or the initial interval or percent is rejected; a check's error comes first |
| `SrcGauge.Defaults` | src/d3-simple-gauge.js:175-183 | the settings after `||` defaults satisfy the bounds, with inset 10 and no colours |
| `SrcGauge.ZeroTakesDefault` | src/d3-simple-gauge.js:175-181 | a given 0 delay, duration or needle radius is replaced by its default like an absent one |
| `SrcGauge.SimpleGauge.constructor` | src/d3-simple-gauge.js:175-183 | the fields hold the settings, with inset 10 and no colours; nothing is drawn yet |
| `SrcGauge.SimpleGauge.Create` | src/d3-simple-gauge.js:148-187 | construction fails exactly with the first failing check, else a bad interval, else a bad percent; on success as for the newest variant |
| `SrcGauge.SimpleGauge.Initialize` | src/d3-simple-gauge.js:258-299 | draws the ring at the fixed inset 10 without colours, creates the needle at the current percent and applies the derived classes |
| `SrcGauge.SimpleGauge.Update` | src/d3-simple-gauge.js:306-313 | afterwards, once the ring exists, arc i is active iff i = ⌊p·n⌋ and `min`/`max` hold iff p = 0 / p = 1; before the ring exists nothing changes |
| `SrcGauge.SimpleGauge.GetInterval` | src/d3-simple-gauge.js:194-196 | the getter returns an ordered pair |
| `SrcGauge.SimpleGauge.SetInterval` | src/d3-simple-gauge.js:203-212 | a rejected interval throws and keeps the old scale; an accepted one is returned by the getter |
| `SrcGauge.SimpleGauge.GetPercent` | src/d3-simple-gauge.js:219-221 | the percent read is always in [0, 1] |
| `SrcGauge.SimpleGauge.SetPercent` | src/d3-simple-gauge.js:228-237 | NaN or out-of-range throws before any change; otherwise the getter returns p and the needle is asked to go to p |
| `SrcGauge.SimpleGauge.SetValue` | src/d3-simple-gauge.js:246-251 | NaN throws without change; any number sets the percent to its clamped scale |
| `LegacyGauge.Validate` | src/simple-gauge.js:145-167 | the if-chain raises the first failing check: element, height, count, width, delay, duration, bar width (no needle radius check) |
| `LegacyGauge.Checks` | src/simple-gauge.js:145-167 | seven checks, which a configuration passes all of iff every field meets its condition (no needle radius check) |
| `LegacyGauge.ConstructionError` | src/simple-gauge.js:144-178 | construction fails iff a check fails or the initial percent is rejected; a check's error comes first |
| `LegacyGauge.Defaults` | src/simple-gauge.js:168-175 | the settings after `||` defaults satisfy the bounds; needle radius 15 and inset 10 whatever is configured |
| `LegacyGauge.SimpleGauge.constructor` | src/simple-gauge.js:168-175 | the fields hold the settings; nothing is drawn yet |
| `LegacyGauge.SimpleGauge.Create` | src/simple-gauge.js:144-178 | construction fails exactly with the first failing check, else a bad percent; the percent is set before the needle exists, so no transition is requested, and the needle starts at that percent |
| `LegacyGauge.SimpleGauge.Initialize` | src/simple-gauge.js:209-249 | draws the ring and creates the needle with radius 15 and length height·0.5 at the current percent |
| `LegacyGauge.SimpleGauge.GetPercent` | src/simple-gauge.js:185-187 | the percent read is always in [0, 1] |
| `LegacyGauge.SimpleGauge.SetPercent` | src/simple-gauge.js:194-202 | NaN or out-of-range throws before any change; otherwise the getter returns p, and nothing else is derived |
| `Variants.ChecksExtend` | dist/d3-simple-gauge.js:201-230 | each newer check chain is the oldest chain followed by its own extra checks |
| `Variants.ValidationNests` | src/d3-simple-gauge.js:149-174 | a check error of the oldest variant is raised identically by the newer ones; what the newest accepts, the older accept |
| `Variants.ZeroDurationDiffers` | src/d3-simple-gauge.js:176 | an explicit 0 duration is kept by the newest variant and becomes 3000 in the earlier one |
| `Variants.ActiveRulesCompared` | dist/d3-simple-gauge.js:328-330 | the two active rules agree below the top; at p = 1 only the newer marks the last arc |

## Left out

- DOM, SVG and d3 selection plumbing (`append`, `attr`, `style`, `classed`, `select`, the chart group's `translate(width/2, height)`): the model keeps the active flags, the `min`/`max` classes, the arcs and their fills as plain state.
- d3 transition scheduling (`transition().delay().ease().duration()`, interruption of one transition by the next): the scheduler is represented only by its calls to `Needle.Begin` and `Needle.Frame`.
- Easing curves (`d3.easeElastic`): the progress a frame receives is a free parameter, and may leave [0, 1].
- The trigonometry and string formatting of `_getPath` (the cos/sin points and the `M … L …` path): only the angle θ is modelled.
- The needle's drawing in `_initialize` (hub circle, fill colour): visual only.
- `d3.arc` path generation: only the start and end angles, the radii and the fill are modelled.
- `LinearScale.Scale`: requires min < max. The setter allows min == max, but the scale's output for a degenerate domain is defined inside d3-scale, which is not part of this model.
- `DistGauge.SimpleGauge.SetValue`: requires min < max, for the same reason.
- `SrcGauge.SimpleGauge.SetValue`: requires min < max, for the same reason.
- Non-integer `sectionsCount`: its effect depends on `d3.range`. The count is an integer.
- IEEE-754 rounding: all arithmetic is exact over reals. In particular, the frame at progress 1 equals the target exactly.
- JavaScript coercion of non-number inputs: a numeric string that `isNaN` accepts is a `Num`; every input `isNaN` rejects is `NotANumber`.
- A `null` `sectionsColors`, which makes the dist constructor fail with a `TypeError` on `.length`: colours are either absent or a sequence.
- The `el` check of the `Needle` constructor in the two src files: the gauge always passes its own chart group, so the check cannot fire from the gauge.
- The error messages are kept as data (`GaugeConfig.Message`, `GaugeConfig.EarlierMessage`) and the error class as `GaugeConfig.IsRangeError`. No property is stated about them.
- The UMD and Babel wrapper at dist/d3-simple-gauge.js:1-62, the build script gulpfile.js, and the mocha test suite: some of the suite's examples are restated as lemmas (`LinearScale.ScaleExample`, `LinearScale.AcceptRejects`, `Sections.FourSectionExample`).
