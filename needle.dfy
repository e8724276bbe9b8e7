/** The needle: its live (animated) percent and the per-frame tween arithmetic
    of `Needle.update`. The d3 transition that schedules frames is not part of
    this model; it is represented by the calls a scheduler makes: `Begin` when a
    transition starts and `Frame` for each eased progress value. */
module NeedleModel {
  import opened JsValues
  import Geometry

  /** What the tween factory captures when its transition starts:
      `initialPercent` and `delta`. */
  datatype Tween = Tween(initial: real, delta: real)

  /** One frame: `initialPercent + progressPercent * delta`. */
  function Interpolate(t: Tween, progress: real): (p: real)
    ensures progress == 0.0 ==> p == t.initial
    ensures progress == 1.0 ==> p == t.initial + t.delta
  {
    t.initial + progress * t.delta
  }

  /** The tween the factory builds for a transition towards `target` that
      starts while the needle stands at `live`. */
  function TweenTo(live: real, target: real): (t: Tween)
    ensures Interpolate(t, 0.0) == live
    ensures Interpolate(t, 1.0) == target
  {
    Tween(live, target - live)
  }

  /** For progress inside [0, 1] a frame lies between its start and its target.
      An easing curve such as elastic may hand out progress outside [0, 1], so
      nothing is claimed there. */
  lemma InterpolateBetween(live: real, target: real, progress: real)
    requires 0.0 <= progress <= 1.0
    ensures live <= target ==> live <= Interpolate(TweenTo(live, target), progress) <= target
    ensures target <= live ==> target <= Interpolate(TweenTo(live, target), progress) <= live
  {
    var d := target - live;
    var rest := 1.0 - progress;
    assert Interpolate(TweenTo(live, target), progress) == live + progress * d;
    assert rest * d == d - progress * d;
    if d >= 0.0 {
      assert progress * d >= 0.0;
      assert rest * d >= 0.0;
    } else {
      assert progress * (-d) >= 0.0;
      assert rest * (-d) >= 0.0;
    }
  }

  /** A transition as the scheduler runs it: the target the gauge asked for,
      and the eased progress values of the frames that ran before it finished
      or was superseded. */
  datatype Transition = Transition(target: real, frames: seq<real>)

  /** The needle's percent after the frames of tween `t`, starting from `live`:
      only the last frame decides where the needle ends up. */
  function PlayFrames(t: Tween, live: real, frames: seq<real>): (p: real)
    ensures frames == [] ==> p == live
    ensures frames != [] ==> p == Interpolate(t, frames[|frames| - 1])
    decreases |frames|
  {
    if frames == [] then live else PlayFrames(t, Interpolate(t, frames[0]), frames[1..])
  }

  /** The needle's percent after a run of transitions, each starting from the
      value the previous one left behind. Latest request wins: however earlier
      transitions were interrupted, once the last one plays its frame at
      progress 1 the needle sits exactly on the last requested target. */
  function Run(live: real, ts: seq<Transition>): (p: real)
    ensures ts == [] ==> p == live
    ensures ts != [] && ts[|ts| - 1].frames != [] && ts[|ts| - 1].frames[|ts[|ts| - 1].frames| - 1] == 1.0
            ==> p == ts[|ts| - 1].target
    decreases |ts|
  {
    if ts == [] then live
    else Run(PlayFrames(TweenTo(live, ts[0].target), live, ts[0].frames), ts[1..])
  }

  class Needle {
    const animationDelay: real
    const animationDuration: real
    const color: Option<Color>
    const easeType: Ease
    const length: real
    const radius: real
    /** `_percent`: the live, animated position. */
    var percent: real
    /** The targets passed to `update`, oldest first: each call schedules a
        transition whose tween closes over its own target (the transitions
        themselves are held by d3's scheduler). */
    var requested: seq<real>

    constructor (animationDelay: real, animationDuration: real, color: Option<Color>,
                 easeType: Ease, length: real, percent: real, radius: real)
      ensures this.animationDelay == animationDelay && this.animationDuration == animationDuration
      ensures this.color == color && this.easeType == easeType
      ensures this.length == length && this.radius == radius
      ensures this.percent == percent && requested == []
    {
      this.animationDelay := animationDelay;
      this.animationDuration := animationDuration;
      this.color := color;
      this.easeType := easeType;
      this.length := length;
      this.percent := percent;
      this.radius := radius;
      requested := [];
    }

    /** `update(percent)`: schedules one more transition, towards `target`.
        Nothing moves yet; the needle keeps its live percent. */
    method Update(target: real)
      modifies this`requested
      ensures requested == old(requested) + [target]
    {
      requested := requested + [target];
    }

    /** The tween factory of the `i`-th requested transition, run when the
        scheduler starts that transition: the target is the one that `update`
        call was given, while the start is read from the live percent, so a
        transition that supersedes another carries on from wherever the needle
        stands. Which transition starts, and when, is the scheduler's choice. */
    method Begin(i: nat) returns (t: Tween)
      requires i < |requested|
      ensures Interpolate(t, 0.0) == percent
      ensures Interpolate(t, 1.0) == requested[i]
    {
      var delta := requested[i] - percent;
      var initialPercent := percent;
      t := Tween(initialPercent, delta);
    }

    /** One frame: `self._percent = initialPercent + progressPercent * delta`. */
    method Frame(t: Tween, progress: real)
      modifies this`percent
      ensures percent == Interpolate(t, progress)
      ensures progress == 1.0 ==> percent == t.initial + t.delta
    {
      percent := t.initial + progress * t.delta;
    }

    /** The angle of the wedge `_getPath` draws for the live percent. */
    function Angle(): (theta: real)
      reads this
      ensures theta == Geometry.PI * percent
    {
      Geometry.NeedleAngle(percent)
    }
  }
}
