/** Which arc `_update` marks `active`, and the chart's `min`/`max` classes,
    as functions of the percent `p` and the section count `n`. */
module Sections {

  /** The arc the gauge means to highlight: the section `p` falls in, and the
      last one at the very top. */
  function ActiveIndex(p: real, n: nat): (i: int)
    requires n > 0 && 0.0 <= p <= 1.0
    ensures 0 <= i < n
    ensures p < 1.0 ==> i as real <= p * n as real < i as real + 1.0
  {
    if p == 1.0 then n - 1
    else
      FloorBelowCount(p, n);
      (p * n as real).Floor
  }

  lemma FloorBelowCount(p: real, n: nat)
    requires n > 0 && 0.0 <= p < 1.0
    ensures 0 <= (p * n as real).Floor < n
  {
    assert 0.0 <= p * n as real;
    assert (1.0 - p) * n as real > 0.0;
  }

  /** The newer rule: `i === Math.floor(p * n) || i === size - 1 && p === 1`.
      Below the top an arc is active iff `p·n` falls in its section; at the
      top both the last arc and the index one past it qualify. */
  predicate IsActive(p: real, n: nat, i: int)
    ensures p < 1.0 ==> (IsActive(p, n, i) <==> i as real <= p * n as real < i as real + 1.0)
    ensures p == 1.0 ==> (IsActive(p, n, i) <==> i == n - 1 || i == n)
  {
    i == (p * n as real).Floor || (i == n - 1 && p == 1.0)
  }

  /** The older rule: `i === Math.floor(p * n)`: an arc is active iff `p·n`
      falls in its section. */
  predicate IsActiveWithoutTop(p: real, n: nat, i: int)
    ensures IsActiveWithoutTop(p, n, i) <==> i as real <= p * n as real < i as real + 1.0
  {
    i == (p * n as real).Floor
  }

  /** `chart.classed('min', p === 0)`: at the minimum the first arc is the active one. */
  predicate AtMin(p: real)
    ensures AtMin(p) ==> forall n: nat :: n > 0 ==> IsActive(p, n, 0) && IsActiveWithoutTop(p, n, 0)
  {
    p == 0.0
  }

  /** `chart.classed('max', p === 1)`: at the maximum the newer rule marks the last arc. */
  predicate AtMax(p: real)
    ensures AtMax(p) ==> forall n: nat, i: int :: i == n - 1 >= 0 ==> IsActive(p, n, i)
  {
    p == 1.0
  }

  /** Under the newer rule exactly one arc is active, the one `ActiveIndex`
      names. */
  lemma ExactlyOneActive(p: real, n: nat)
    requires n > 0 && 0.0 <= p <= 1.0
    ensures forall i :: 0 <= i < n ==> (IsActive(p, n, i) <==> i == ActiveIndex(p, n))
  {
    if p == 1.0 {
      assert (p * n as real).Floor == n;
    }
  }

  /** Under the older rule the same single arc is active below the top ... */
  lemma OlderRuleBelowTop(p: real, n: nat)
    requires n > 0 && 0.0 <= p < 1.0
    ensures forall i :: 0 <= i < n ==> (IsActiveWithoutTop(p, n, i) <==> i == ActiveIndex(p, n))
  {
  }

  /** ... but at the top `Math.floor(1 * n)` is one past the last arc, so no arc
      is active. */
  lemma OlderRuleNoneAtTop(n: nat)
    requires n > 0
    ensures forall i :: 0 <= i < n ==> !IsActiveWithoutTop(1.0, n, i)
  {
    assert (1.0 * n as real).Floor == n;
  }

  /** With four sections: 0 → 0, 0.25 → 1, 0.5 → 2, 0.75 → 3, 1 → 3; `min` only
      at 0 and `max` only at 1. */
  lemma FourSectionExample()
    ensures ActiveIndex(0.0, 4) == 0 && ActiveIndex(0.25, 4) == 1 && ActiveIndex(0.5, 4) == 2
    ensures ActiveIndex(0.75, 4) == 3 && ActiveIndex(1.0, 4) == 3
    ensures AtMin(0.0) && !AtMax(0.0) && !AtMin(0.5) && !AtMax(0.5) && AtMax(1.0) && !AtMin(1.0)
  {
    assert (0.25 * 4.0).Floor == 1;
    assert (0.5 * 4.0).Floor == 2;
    assert (0.75 * 4.0).Floor == 3;
  }
}
