/**
 * The pure part of the decelerating selection: the two modes and their
 * constants, the planned duration and initial pick drawn from Math.random(),
 * the clamped progress, the cubic ease, the target delay, and the choice of
 * the next candidate at a switch (the forced toggle in Left/Right mode, the
 * rejection redraw in number mode).
 *
 * Timestamps are whole milliseconds (as Date.now() returns them); durations,
 * progress and delays are reals. A Math.random() draw is a real in [0, 1).
 */
module Scheduler {

  /** The two screens: the Left/Right cards ('lr') and the giant digit ('number'). */
  datatype Mode = LR | Number

  /** The planned duration is r * DurationSpread + BaseDuration for a draw r. */
  const BaseDuration: real := 10000.0
  const DurationSpread: real := 5000.0

  /** Fastest switching cadence of a mode: the delay every run starts with. */
  function MinDelay(mode: Mode): real {
    if mode == LR then 500.0 else 50.0
  }

  /** Slowest switching cadence of a mode: the delay reached at the end of a run. */
  function MaxDelay(mode: Mode): real {
    if mode == LR then 1500.0 else 600.0
  }

  /** Number of candidates: two cards, or the ten digits. */
  function Candidates(mode: Mode): nat {
    if mode == LR then 2 else 10
  }

  /** A value Math.random() can return. */
  predicate IsDraw(r: real) {
    0.0 <= r < 1.0
  }

  predicate IsDrawSeq(draws: seq<real>) {
    forall k :: 0 <= k < |draws| ==> IsDraw(draws[k])
  }

  /** Math.floor(r * n): a uniformly drawn index below n. */
  function Pick(r: real, n: nat): (i: int)
    requires IsDraw(r) && n > 0
    ensures 0 <= i < n
  {
    var x := r * n as real;
    ScaledDrawInRange(r, n as real);
    x.Floor
  }

  lemma ScaledDrawInRange(r: real, n: real)
    requires IsDraw(r) && n > 0.0
    ensures 0.0 <= r * n < n
  {
  }

  /** The planned duration of a run, in milliseconds, for a draw r. */
  function PlannedDuration(r: real): (d: real)
    requires IsDraw(r)
    ensures BaseDuration <= d < BaseDuration + DurationSpread
  {
    r * DurationSpread + BaseDuration
  }

  /**
   * Math.min(elapsed / duration, 1.0). The clamp is only from above: the
   * result is non-negative only when the clock has not gone back before the
   * run's start. It reaches 1 exactly when the whole duration has elapsed.
   */
  function Progress(elapsed: int, duration: real): (p: real)
    requires duration > 0.0
    ensures p <= 1.0
    ensures elapsed >= 0 ==> 0.0 <= p
    ensures p == 1.0 <==> elapsed as real >= duration
    ensures elapsed == 0 ==> p == 0.0
  {
    var q := elapsed as real / duration;
    QuotientBelowOne(elapsed as real, duration);
    if q <= 1.0 then q else 1.0
  }

  lemma QuotientBelowOne(x: real, d: real)
    requires d > 0.0
    ensures x / d < 1.0 <==> x < d
    ensures x >= 0.0 ==> x / d >= 0.0
  {
    assert x / d * d == x;
  }

  /** The cubic ease-in progress * progress * progress. */
  function Ease(p: real): (e: real)
    ensures 0.0 <= p <= 1.0 ==> 0.0 <= e <= 1.0
    ensures p == 0.0 ==> e == 0.0
    ensures p == 1.0 ==> e == 1.0
  {
    CubeInUnit(p);
    p * p * p
  }

  lemma CubeInUnit(p: real)
    ensures 0.0 <= p <= 1.0 ==> 0.0 <= p * p * p <= 1.0
  {
    if 0.0 <= p <= 1.0 {
      assert 0.0 <= p * p <= p;
      assert 0.0 <= p * p * p <= p * p;
    }
  }

  /**
   * minDelay + (maxDelay - minDelay) * ease: the delay the next switch will
   * wait for, computed at elapsed time `elapsed` of a run of `duration`.
   * It starts at the mode's minimum and has reached its maximum once the
   * duration is over.
   */
  function TargetDelay(mode: Mode, elapsed: int, duration: real): (t: real)
    requires duration > 0.0
    ensures elapsed >= 0 ==> MinDelay(mode) <= t <= MaxDelay(mode)
    ensures elapsed == 0 ==> t == MinDelay(mode)
    ensures elapsed as real >= duration ==> t == MaxDelay(mode)
  {
    var e := Ease(Progress(elapsed, duration));
    ScaleInRange(MinDelay(mode), MaxDelay(mode), e);
    MinDelay(mode) + (MaxDelay(mode) - MinDelay(mode)) * e
  }

  lemma ScaleInRange(lo: real, hi: real, e: real)
    requires lo <= hi
    ensures 0.0 <= e <= 1.0 ==> lo <= lo + (hi - lo) * e <= hi
  {
  }

  /** The cubic ease grows with progress. */
  lemma EaseMonotone(p: real, q: real)
    requires 0.0 <= p <= q
    ensures Ease(p) <= Ease(q)
  {
  }

  /** Progress never decreases as time moves forward. */
  lemma ProgressMonotone(e1: int, e2: int, duration: real)
    requires duration > 0.0 && e1 <= e2
    ensures Progress(e1, duration) <= Progress(e2, duration)
  {
    var q1, q2 := e1 as real / duration, e2 as real / duration;
    assert q1 <= q2 by {
      QuotientBelowOne((e2 - e1) as real, duration);
      assert q2 - q1 == (e2 - e1) as real / duration;
    }
  }

  /**
   * Deceleration: later in a run the target delay is never shorter, so
   * switches slow down monotonically.
   */
  lemma TargetDelayMonotone(mode: Mode, e1: int, e2: int, duration: real)
    requires duration > 0.0 && 0 <= e1 <= e2
    ensures TargetDelay(mode, e1, duration) <= TargetDelay(mode, e2, duration)
  {
    ProgressMonotone(e1, e2, duration);
    EaseMonotone(Progress(e1, duration), Progress(e2, duration));
    var a, b := Ease(Progress(e1, duration)), Ease(Progress(e2, duration));
    assert (MaxDelay(mode) - MinDelay(mode)) * a <= (MaxDelay(mode) - MinDelay(mode)) * b;
  }

  /**
   * The clock read before the run's start gives negative progress, which
   * Math.min does not clamp: the target delay then falls below the mode's
   * minimum, in both modes and for every planned duration.
   */
  lemma NegativeElapsedUndershoots(mode: Mode, elapsed: int, duration: real)
    requires elapsed < 0 && duration > 0.0
    ensures Progress(elapsed, duration) < 0.0
    ensures TargetDelay(mode, elapsed, duration) < MinDelay(mode)
  {
  }

  /** The undershoot in numbers: 499 ms, one second before a ten-second Left/Right run. */
  lemma UndershootOneSecondEarly()
    ensures Progress(-1000, 10000.0) == -0.1
    ensures TargetDelay(LR, -1000, 10000.0) == 499.0
  {
    NegativeElapsedUndershoots(LR, -1000, 10000.0);
  }

  /** (activeIndex + 1) % 2: the other one of the two cards. */
  function Other(i: int): (j: int)
    requires 0 <= i < 2
    ensures 0 <= j < 2 && j != i
    ensures i + j == 1
  {
    (i + 1) % 2
  }

  /** Some draw in `draws` yields a digit other than `current`. */
  predicate HasFresh(draws: seq<real>, current: int)
    requires IsDrawSeq(draws)
  {
    exists k :: 0 <= k < |draws| && Pick(draws[k], 10) != current
  }

  /** Whatever digit is on display, some draw in `draws` ends the redraw. */
  predicate EscapesEveryDigit(draws: seq<real>)
    requires IsDrawSeq(draws)
  {
    forall c :: 0 <= c < 10 ==> HasFresh(draws, c)
  }

  /**
   * The index of the draw that ends the rejection loop: the first draw whose
   * digit differs from `current`; every earlier draw was rejected.
   */
  function FirstFresh(draws: seq<real>, current: int): (k: nat)
    requires IsDrawSeq(draws) && HasFresh(draws, current)
    ensures k < |draws| && Pick(draws[k], 10) != current
    ensures forall j :: 0 <= j < k ==> Pick(draws[j], 10) == current
    decreases |draws|
  {
    if Pick(draws[0], 10) != current then 0
    else
      assert HasFresh(draws[1..], current) by {
        var k :| 0 <= k < |draws| && Pick(draws[k], 10) != current;
        assert k > 0 && draws[1..][k - 1] == draws[k];
      }
      1 + FirstFresh(draws[1..], current)
  }

  /**
   * The number-mode redraw: Math.floor(Math.random() * 10), repeated while it
   * equals the digit on display. The result is the digit of the first draw
   * that differs.
   */
  method DrawDigit(current: int, draws: seq<real>) returns (d: int)
    requires IsDrawSeq(draws) && HasFresh(draws, current)
    ensures d == Pick(draws[FirstFresh(draws, current)], 10)
    ensures 0 <= d < 10 && d != current
  {
    var k := 0;
    d := Pick(draws[0], 10);
    while d == current
      invariant 0 <= k <= FirstFresh(draws, current)
      invariant d == Pick(draws[k], 10)
      decreases FirstFresh(draws, current) - k
    {
      k := k + 1;
      d := Pick(draws[k], 10);
    }
  }

  /**
   * The candidate shown after a switch: the other card in Left/Right mode,
   * the redrawn digit in number mode. It is a valid candidate and always
   * differs from the one shown before.
   */
  function NextCandidate(mode: Mode, current: int, draws: seq<real>): (n: int)
    requires 0 <= current < Candidates(mode)
    requires mode == Number ==> IsDrawSeq(draws) && HasFresh(draws, current)
    ensures 0 <= n < Candidates(mode) && n != current
    ensures mode == LR ==> current + n == 1
  {
    if mode == LR then Other(current) else Pick(draws[FirstFresh(draws, current)], 10)
  }
}
