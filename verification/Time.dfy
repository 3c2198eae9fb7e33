/** Kernel time: a 32-bit tick counter that wraps, compared through a signed difference. */
module Time {

  const TICK_SPAN: int := 0x1_0000_0000
  const HALF_SPAN: int := 0x8000_0000

  type Tick = t: int | 0 <= t < TICK_SPAN

  /** The counter value shown at an instant of the unbounded clock. */
  function Wrap(instant: int): Tick {
    instant % TICK_SPAN
  }

  /** Reinterpretation of an unsigned 32-bit value as two's complement. */
  function AsSigned(u: Tick): int {
    if u < HALF_SPAN then u else u - TICK_SPAN
  }

  predicate DeadlineLe(a: Tick, b: Tick) {
    AsSigned(Wrap(a - b)) <= 0
  }

  /** Between instants less than half a span apart, the wrapped comparison is the true one. */
  lemma DeadlineLeExact(a: int, b: int)
    requires -HALF_SPAN < a - b < HALF_SPAN
    ensures DeadlineLe(Wrap(a), Wrap(b)) <==> a <= b
  {
    WrapDifference(a, b);
  }

  lemma WrapDifference(a: int, b: int)
    ensures Wrap(Wrap(a) - Wrap(b)) == Wrap(a - b)
  {
    var q := (a - b) / TICK_SPAN - (a / TICK_SPAN - b / TICK_SPAN);
    assert a == TICK_SPAN * (a / TICK_SPAN) + Wrap(a);
    assert b == TICK_SPAN * (b / TICK_SPAN) + Wrap(b);
    assert a - b == TICK_SPAN * ((a - b) / TICK_SPAN) + Wrap(a - b);
    assert Wrap(a) - Wrap(b) == TICK_SPAN * q + Wrap(a - b);
    assert -1 <= q <= 0;
  }

  lemma WrapAgain(a: int, d: int)
    ensures Wrap(Wrap(a) + d) == Wrap(a + d)
  {
    WrapMinus(a, d);
    assert a + d == TICK_SPAN * (a / TICK_SPAN) + (Wrap(a) + d);
  }

  lemma WrapMinus(a: int, d: int)
    ensures Wrap(a + d) == Wrap(a + d - TICK_SPAN * (a / TICK_SPAN))
  {
    var c, e := a + d, a + d - TICK_SPAN * (a / TICK_SPAN);
    assert c == TICK_SPAN * (c / TICK_SPAN) + Wrap(c) && e == TICK_SPAN * (e / TICK_SPAN) + Wrap(e);
    assert Wrap(c) - Wrap(e) == TICK_SPAN * (e / TICK_SPAN - c / TICK_SPAN + a / TICK_SPAN);
  }

  lemma WrapSmall(d: int)
    requires 0 <= d < TICK_SPAN
    ensures Wrap(d) == d
  {
  }

  /** An instant that is ahead by half a span or more compares as past. */
  lemma DeadlineLeAhead(a: int, b: int)
    requires 0 <= a - b < TICK_SPAN
    ensures DeadlineLe(Wrap(a), Wrap(b)) <==> a == b || a - b >= HALF_SPAN
  {
    hide Wrap;
    WrapDifference(a, b);
    WrapSmall(a - b);
  }

  /** Two timeouts armed at the same instant are ordered as their lengths are. */
  ghost predicate OrderedFrom(now: nat, s: nat, t: nat) {
    DeadlineLe(Wrap(now + s), Wrap(now + t)) <==> s <= t
  }

  ghost predicate OrdersAll(bound: nat) {
    forall now: nat, s: nat, t: nat :: s <= bound && t <= bound ==> OrderedFrom(now, s, t)
  }

  /** Every pair of timeouts up to `bound` is ordered truly, whatever the instant,
      exactly when the bound is below half a span. */
  lemma HalfSpanIsTheExactBound(bound: nat)
    ensures OrdersAll(bound) <==> bound < HALF_SPAN
  {
    if bound < HALF_SPAN {
      forall now: nat, s: nat, t: nat | s <= bound && t <= bound ensures OrderedFrom(now, s, t) {
        DeadlineLeExact(now + s, now + t);
      }
    } else {
      assert !OrderedFrom(0, HALF_SPAN, 0);
    }
  }

  /** A duration of `count` periods of `num / den` seconds in ticks of `1 / hz` seconds: the
      truncated conversion, one more if it falls short. */
  function ToTicks(count: int, num: nat, den: nat, hz: nat): nat
    requires den > 0
  {
    if count <= 0 then 0
    else
      var exact := count * num * hz;
      var t := exact / den;
      if t * den < exact then t + 1 else t
  }

  /** A number of ticks lasts for the duration exactly if it is at least the conversion's; no
      ticks last for a duration that is zero or negative. */
  lemma ToTicksIsLeast(count: int, num: nat, den: nat, hz: nat, ticks: nat)
    requires den > 0
    ensures ticks * den >= count * num * hz <==> ticks >= ToTicks(count, num, den, hz)
  {
    var exact := count * num * hz;
    if count > 0 {
      Quotient(exact, den, ticks);
    } else {
      NotPositive(count, num, hz);
      assert ticks * den >= 0;
    }
  }

  lemma NotPositive(count: int, num: nat, hz: nat)
    requires count <= 0
    ensures count * num * hz <= 0
  {
    assert count * num <= 0;
  }

  lemma Quotient(exact: int, den: int, ticks: int)
    requires den > 0
    ensures var t := exact / den;
            ticks * den >= exact <==> ticks >= if t * den < exact then t + 1 else t
  {
    var t := exact / den;
    assert exact == t * den + exact % den;
    if ticks <= t - 1 {
      assert ticks * den <= (t - 1) * den;
    } else if ticks >= t + 1 {
      assert ticks * den >= (t + 1) * den;
    }
  }
}
