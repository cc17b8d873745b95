/**
 * One selection run: the closure state of a started selection (its start
 * time, planned duration, the candidate on display, the time of the last
 * switch and the delay before the next), advanced by `Step` once per
 * animation frame. Left/Right runs and number runs share the algorithm and
 * differ only in their delay bounds and in how the next candidate is chosen.
 */
module Selection {
  import opened Scheduler

  /** Every frame of a chain comes with draws that end the digit redraw, whatever digit is shown. */
  predicate FrameDraws(mode: Mode, draws: seq<seq<real>>) {
    mode == Number ==> forall k :: 0 <= k < |draws| ==> IsDrawSeq(draws[k]) && EscapesEveryDigit(draws[k])
  }

  /**
   * The candidate, last switch time and delay after a chain of frames at the
   * times `ticks`, starting from candidate `idx`, last switch `last` and
   * delay `delay`: each frame switches when the delay has passed since the
   * last switch, and the chain ends after the first frame that reaches the
   * planned duration.
   */
  function Replay(mode: Mode, startTime: int, duration: real, idx: int, last: int, delay: real,
                  ticks: seq<int>, draws: seq<seq<real>>): (r: (int, int, real))
    requires duration > 0.0 && 0 <= idx < Candidates(mode)
    requires |draws| == |ticks| && FrameDraws(mode, draws)
    ensures 0 <= r.0 < Candidates(mode)
    decreases |ticks|
  {
    if ticks == [] then (idx, last, delay)
    else
      var now := ticks[0];
      var next :=
        if (now - last) as real >= delay
        then (NextCandidate(mode, idx, draws[0]), now, TargetDelay(mode, now - startTime, duration))
        else (idx, last, delay);
      if (now - startTime) as real >= duration then next
      else Replay(mode, startTime, duration, next.0, next.1, next.2, ticks[1..], draws[1..])
  }

  /**
   * The finish ends the chain: once a frame has reached the planned duration,
   * no later frame changes the run.
   */
  lemma {:induction false} ReplayStopsAtCommit(mode: Mode, startTime: int, duration: real,
                                               idx: int, last: int, delay: real,
                                               ticks: seq<int>, draws: seq<seq<real>>,
                                               later: seq<int>, laterDraws: seq<seq<real>>)
    requires duration > 0.0 && 0 <= idx < Candidates(mode)
    requires |draws| == |ticks| && |laterDraws| == |later| && FrameDraws(mode, draws + laterDraws)
    requires exists j :: 0 <= j < |ticks| && (ticks[j] - startTime) as real >= duration
    ensures FrameDraws(mode, draws)
    ensures Replay(mode, startTime, duration, idx, last, delay, ticks + later, draws + laterDraws) ==
            Replay(mode, startTime, duration, idx, last, delay, ticks, draws)
    decreases |ticks|
  {
    assert FrameDraws(mode, draws) by {
      if mode == Number {
        forall k | 0 <= k < |draws|
          ensures IsDrawSeq(draws[k]) && EscapesEveryDigit(draws[k])
        {
          assert draws[k] == (draws + laterDraws)[k];
        }
      }
    }
    assert (ticks + later)[0] == ticks[0] && (draws + laterDraws)[0] == draws[0];
    var now := ticks[0];
    if (now - startTime) as real < duration {
      var next :=
        if (now - last) as real >= delay
        then (NextCandidate(mode, idx, draws[0]), now, TargetDelay(mode, now - startTime, duration))
        else (idx, last, delay);
      assert (ticks + later)[1..] == ticks[1..] + later;
      assert (draws + laterDraws)[1..] == draws[1..] + laterDraws;
      var j :| 0 <= j < |ticks| && (ticks[j] - startTime) as real >= duration;
      assert j > 0 && ticks[1..][j - 1] == ticks[j];
      ReplayStopsAtCommit(mode, startTime, duration, next.0, next.1, next.2,
                          ticks[1..], draws[1..], later, laterDraws);
    }
  }

  class SelectionRun {
    const mode: Mode
    const startTime: int
    const duration: real
    /** activeIndex in Left/Right mode, currentNum in number mode. */
    var activeIndex: int
    var lastSwitchTime: int
    var currentDelay: real
    var finished: bool
    /** Every candidate shown so far, in order; the last is on display. */
    ghost var shown: seq<int>

    ghost predicate Valid()
      reads this
    {
      BaseDuration <= duration < BaseDuration + DurationSpread &&
      0 <= activeIndex < Candidates(mode) &&
      startTime <= lastSwitchTime &&
      // the delay to wait is the target computed at the last switch
      currentDelay == TargetDelay(mode, lastSwitchTime - startTime, duration) &&
      MinDelay(mode) <= currentDelay <= MaxDelay(mode) &&
      |shown| > 0 && shown[|shown| - 1] == activeIndex &&
      (forall k :: 0 <= k < |shown| ==> 0 <= shown[k] < Candidates(mode)) &&
      (forall k :: 0 < k < |shown| ==> shown[k] != shown[k - 1])
    }

    /** The state right after the start: first candidate shown, minimum delay. */
    constructor (mode: Mode, duration: real, now: int, first: int)
      requires BaseDuration <= duration < BaseDuration + DurationSpread
      requires 0 <= first < Candidates(mode)
      ensures Valid()
      ensures this.mode == mode && this.duration == duration && startTime == now
      ensures activeIndex == first && lastSwitchTime == now
      ensures currentDelay == MinDelay(mode) && !finished
      ensures shown == [first]
    {
      this.mode := mode;
      this.duration := duration;
      startTime := now;
      activeIndex := first;
      lastSwitchTime := now;
      currentDelay := MinDelay(mode);
      finished := false;
      shown := [first];
    }

    /**
     * One animation frame at time `now`. The run switches when the current
     * delay has passed since the last switch, and commits (finish) exactly
     * when the whole duration has elapsed; otherwise another frame is due.
     * Number-mode `draws` are the Math.random() values the redraw consumes.
     */
    method Step(now: int, draws: seq<real>) returns (switched: bool, committed: bool)
      requires Valid() && !finished && now >= startTime
      requires mode == Number ==> IsDrawSeq(draws) && HasFresh(draws, activeIndex)
      modifies this
      ensures Valid()
      ensures switched == ((now - old(lastSwitchTime)) as real >= old(currentDelay))
      ensures switched ==>
        activeIndex == NextCandidate(mode, old(activeIndex), draws) &&
        lastSwitchTime == now &&
        currentDelay == TargetDelay(mode, now - startTime, duration) &&
        old(currentDelay) <= currentDelay &&
        shown == old(shown) + [activeIndex]
      ensures !switched ==>
        activeIndex == old(activeIndex) &&
        lastSwitchTime == old(lastSwitchTime) &&
        currentDelay == old(currentDelay) &&
        shown == old(shown)
      ensures committed == finished
      ensures committed <==> (now - startTime) as real >= duration
      ensures committed <==> Progress(now - startTime, duration) == 1.0
    {
      var elapsed := now - startTime;
      var progress := Progress(elapsed, duration);
      var ease := Ease(progress);
      var targetDelay := MinDelay(mode) + (MaxDelay(mode) - MinDelay(mode)) * ease;

      switched := (now - lastSwitchTime) as real >= currentDelay;
      if switched {
        TargetDelayMonotone(mode, lastSwitchTime - startTime, elapsed, duration);
        if mode == LR {
          activeIndex := Other(activeIndex);
        } else {
          activeIndex := DrawDigit(activeIndex, draws);
        }
        lastSwitchTime := now;
        currentDelay := targetDelay;
        shown := shown + [activeIndex];
      }

      if progress < 1.0 {
        committed := false;
      } else {
        finished := true;
        committed := true;
      }
    }
  }
}
