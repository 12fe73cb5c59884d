/**
 * Roving focus over the tab buttons: ArrowRight and ArrowLeft move focus
 * by `(currentIndex + delta + total) % total`, JavaScript's remainder.
 */
module Tabs {
  import opened Wrappers

  /** The quotient of `a / b` truncated toward zero, as `Math.trunc(a / b)`. */
  function Trunc(a: int, b: int): int
    requires b > 0
  {
    if a >= 0 then a / b else -((-a) / b)
  }

  /**
   * JavaScript's `a % b` on integers: what is left after the truncated
   * quotient, so the result takes the sign of `a`.
   */
  function JsRem(a: int, b: int): (r: int)
    requires b > 0
    ensures a == b * Trunc(a, b) + r
    ensures a >= 0 ==> r == a % b
    ensures a < 0 ==> -b < r <= 0
  {
    if a >= 0 then a % b else -((-a) % b)
  }

  /**
   * The index of the tab button `focusTabIndex` focuses, or None when
   * `tabButtons[next]` does not exist (no buttons, or a negative remainder).
   */
  function FocusTabIndex(currentIndex: int, delta: int, total: nat): (next: Option<nat>)
    ensures next.Some? ==> total > 0 && next.value < total
    ensures total > 0 && currentIndex + delta + total >= 0 ==> next.Some?
  {
    if total == 0 then None
    else
      var k := JsRem(currentIndex + delta + total, total);
      if k >= 0 then Some(k) else None
  }

  /** Remainders of the three sums an arrow step can produce. */
  lemma ModSmall(b: int, r: int)
    requires 0 <= r < b
    ensures r % b == r && (b + r) % b == r && (b + b) % b == 0
  {
  }

  /**
   * From any button, one arrow step lands on a button: the neighbour in the
   * step's direction, wrapping from the last button to the first and from
   * the first to the last.
   */
  lemma ArrowStepWraps(currentIndex: int, delta: int, total: nat)
    requires 0 <= currentIndex < total && (delta == 1 || delta == -1)
    ensures var next := FocusTabIndex(currentIndex, delta, total);
      && next.Some? && next.value < total
      && (delta == 1 && currentIndex == total - 1 ==> next.value == 0)
      && (delta == -1 && currentIndex == 0 ==> next.value == total - 1)
      && (0 <= currentIndex + delta < total ==> next.value == currentIndex + delta)
  {
    var s := currentIndex + delta;
    ModSmall(total, if s == -1 then total - 1 else if s == total then 0 else s);
  }

  /** Stepping right and then left returns focus to where it started. */
  lemma ArrowStepsCancel(currentIndex: int, total: nat)
    requires 0 <= currentIndex < total
    ensures FocusTabIndex(FocusTabIndex(currentIndex, 1, total).value, -1, total) == Some(currentIndex)
  {
    ArrowStepWraps(currentIndex, 1, total);
    var k := FocusTabIndex(currentIndex, 1, total).value;
    ArrowStepWraps(k, -1, total);
  }
}
