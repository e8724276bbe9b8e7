/** The interval setter's check and the clamped linear scale
    (`d3.scaleLinear().domain(interval).range([0, 1]).clamp(true)`) that maps a
    value of the interval to a percent. */
module LinearScale {
  import opened JsValues

  /** An accepted interval: `[min, max]` with `min <= max`. */
  datatype Interval = Interval(min: real, max: real)

  /** What a caller may assign to `interval`: something that is not an
      array, or an array of entries. */
  datatype IntervalArg = NotAnArray | Items(items: seq<Field<real>>)

  /** The interval used when the configuration gives none: `[0, 1]`. */
  const DefaultInterval := Items([Num(0.0), Num(1.0)])

  /** The setter's check: an array of exactly two numbers, the first not
      above the second. `None` is the 'The interval specified is invalid.' error. */
  function Accept(arg: IntervalArg): (r: Option<Interval>)
    ensures r.Some? <==> arg.Items? && |arg.items| == 2 && arg.items[0].Num? && arg.items[1].Num?
                         && arg.items[0].v <= arg.items[1].v
    ensures r.Some? ==> r.value.min <= r.value.max && Domain(r.value) == [arg.items[0].v, arg.items[1].v]
  {
    if !arg.Items? || |arg.items| != 2 || arg.items[0].IsNaN() || arg.items[1].IsNaN()
       || arg.items[0].v > arg.items[1].v
    then None
    else Some(Interval(arg.items[0].v, arg.items[1].v))
  }

  /** The getter: `_scale.domain()`. */
  function Domain(iv: Interval): (d: seq<real>)
    ensures |d| == 2 && d[0] == iv.min && d[1] == iv.max
  {
    [iv.min, iv.max]
  }

  /** The clamped scale on a non-degenerate interval. */
  function Scale(iv: Interval, v: real): (p: real)
    requires iv.min < iv.max
    ensures 0.0 <= p <= 1.0
    ensures v <= iv.min ==> p == 0.0
    ensures iv.max <= v ==> p == 1.0
  {
    if v <= iv.min then 0.0
    else if iv.max <= v then 1.0
    else
      FractionWithin(v - iv.min, iv.max - iv.min);
      (v - iv.min) / (iv.max - iv.min)
  }

  /** A part of a positive width, as a fraction of it, lies in [0, 1]. */
  lemma FractionWithin(d: real, w: real)
    requires 0.0 <= d <= w && 0.0 < w
    ensures 0.0 <= d / w <= 1.0
  {
    var q := d / w;
    assert q * w == d;
    assert (1.0 - q) * w == w - d;
  }

  /** A fraction of a positive width stays within that width. */
  lemma ScaledBetween(p: real, w: real)
    requires 0.0 <= p <= 1.0 && 0.0 < w
    ensures 0.0 <= p * w <= w
    ensures 0.0 < p ==> 0.0 < p * w
    ensures p < 1.0 ==> p * w < w
  {
    MulNonNeg(p, w);
    MulNonNeg(1.0 - p, w);
    assert (1.0 - p) * w == w - p * w;
  }

  lemma MulNonNeg(a: real, b: real)
    requires 0.0 <= a && 0.0 <= b
    ensures 0.0 <= a * b
  {
  }

  /** The inverse direction: the value of the interval a percent stands for. */
  function Unscale(iv: Interval, p: real): (v: real)
    requires iv.min < iv.max
    ensures 0.0 <= p <= 1.0 ==> iv.min <= v <= iv.max
  {
    var w := iv.max - iv.min;
    if 0.0 <= p <= 1.0 then
      ScaledBetween(p, w);
      iv.min + p * w
    else
      iv.min + p * w
  }

  /** Every percent is reached, by the value `Unscale` gives. */
  lemma ScaleUnscale(iv: Interval, p: real)
    requires iv.min < iv.max
    requires 0.0 <= p <= 1.0
    ensures Scale(iv, Unscale(iv, p)) == p
  {
    var w := iv.max - iv.min;
    var v := Unscale(iv, p);
    assert v - iv.min == p * w;
    ScaledBetween(p, w);
    if 0.0 < p < 1.0 {
      var q := (p * w) / w;
      assert q * w == p * w;
      assert (q - p) * w == 0.0;
    }
  }

  /** Inside the interval the scale loses nothing: mapping back gives the value. */
  lemma UnscaleScale(iv: Interval, v: real)
    requires iv.min < iv.max
    requires iv.min <= v <= iv.max
    ensures Unscale(iv, Scale(iv, v)) == v
  {
    var w := iv.max - iv.min;
    if iv.min < v < iv.max {
      var p := (v - iv.min) / w;
      assert p * w == v - iv.min;
    }
  }

  /** Outside the interval values clamp to the nearer end. */
  lemma ScaleClamps(iv: Interval, v: real)
    requires iv.min < iv.max
    ensures Scale(iv, v) == Scale(iv, if v < iv.min then iv.min else if iv.max < v then iv.max else v)
  {
  }

  /** The scale never reverses the order of two values. */
  lemma ScaleMonotone(iv: Interval, a: real, b: real)
    requires iv.min < iv.max
    requires a <= b
    ensures Scale(iv, a) <= Scale(iv, b)
  {
    var w := iv.max - iv.min;
    if iv.min < a && b < iv.max {
      assert (b - iv.min) / w - (a - iv.min) / w == (b - a) / w;
    }
  }

  /** With the interval [0, 250]: 0, 125, 250 and 300 give 0, 0.5, 1 and 1. */
  lemma ScaleExample()
    ensures Accept(Items([Num(0.0), Num(250.0)])) == Some(Interval(0.0, 250.0))
    ensures Scale(Interval(0.0, 250.0), 0.0) == 0.0
    ensures Scale(Interval(0.0, 250.0), 125.0) == 0.5
    ensures Scale(Interval(0.0, 250.0), 250.0) == 1.0
    ensures Scale(Interval(0.0, 250.0), 300.0) == 1.0
  {
  }

  /** Rejected shapes: `[1, 2, 3]`, `['a', 'b']`, `[0, -100]`, `[100, 50]`. */
  lemma AcceptRejects()
    ensures Accept(NotAnArray) == None
    ensures Accept(Items([Num(1.0), Num(2.0), Num(3.0)])) == None
    ensures Accept(Items([NotANumber, NotANumber])) == None
    ensures Accept(Items([Num(0.0), Num(-100.0)])) == None
    ensures Accept(Items([Num(100.0), Num(50.0)])) == None
  {
  }
}
