/**
 * The selection controller: the page-level state (the re-entrancy flag
 * isAnimating, the current screen, the two cards and the giant number) with
 * the operations the page wires to its buttons and keys: switchMode, the
 * keydown dispatcher, startLRSelection and startNumberSelection, and the
 * per-frame step with its finish. The host's frame callback is `Tick`;
 * `Frames` replays a sequence of frame times.
 *
 * Clock readings and Math.random() draws are parameters.
 */
module Controller {
  import opened Scheduler
  import opened Display
  import opened Selection

  /** What a key press asks the page to do. */
  datatype Command = StartSelection(kind: Mode) | SwitchTo(target: string) | NoCommand

  /**
   * The keydown dispatcher: Space starts the selection of the current screen,
   * ArrowRight goes to the number screen from the Left/Right one, ArrowLeft
   * goes back; any other key, or an arrow towards the screen already shown,
   * does nothing.
   */
  function Dispatch(code: string, current: Mode): Command {
    if code == "Space" then StartSelection(current)
    else if code == "ArrowRight" then (if current == LR then SwitchTo("number") else NoCommand)
    else if code == "ArrowLeft" then (if current == Number then SwitchTo("lr") else NoCommand)
    else NoCommand
  }

  /** The screen switchMode(target) shows: 'number' selects it, anything else Left/Right. */
  function TargetMode(target: string): Mode {
    if target == "number" then Number else LR
  }

  /** The screen after a command has run, when no selection is animating. */
  function ModeAfter(cmd: Command, current: Mode): Mode {
    match cmd
    case SwitchTo(target) => TargetMode(target)
    case _ => current
  }

  /** switchMode picks the number screen exactly for the argument 'number'. */
  lemma TargetModeIsNumberExactly(target: string)
    ensures TargetMode(target) == Number <==> target == "number"
    ensures TargetMode(target) == LR <==> target != "number"
  {
  }

  /**
   * Arrow keys: a key changes the screen exactly when it is ArrowRight on the
   * Left/Right screen or ArrowLeft on the number screen, and then it toggles.
   */
  lemma ArrowKeysToggle(code: string, current: Mode)
    ensures ModeAfter(Dispatch(code, current), current) != current <==>
      (code == "ArrowRight" && current == LR) || (code == "ArrowLeft" && current == Number)
    ensures code == "ArrowRight" ==> ModeAfter(Dispatch(code, current), current) == Number
    ensures code == "ArrowLeft" ==> ModeAfter(Dispatch(code, current), current) == LR
  {
  }

  /** Only Space starts a selection, and it starts the one of the current screen. */
  lemma SpaceStartsCurrentMode(code: string, current: Mode)
    ensures Dispatch(code, current).StartSelection? <==> code == "Space"
    ensures Dispatch(code, current).StartSelection? ==> Dispatch(code, current).kind == current
    ensures Dispatch(code, current).StartSelection? ==> ModeAfter(Dispatch(code, current), current) == current
  {
  }

  class Selector {
    var isAnimating: bool
    var currentMode: Mode
    /** The Left and Right cards. */
    const cards: array<CandidateState>
    /** The giant number: the digit it shows and its highlight/active class. */
    var numberText: int
    var numberLook: CandidateState
    /** The latest run started, if any. */
    var run: SelectionRun?

    /**
     * The flag is set exactly while the latest run has not finished, and the
     * display of that run's screen reflects it: the candidate on display is
     * highlighted while it runs; at the end the Left/Right cards show winner
     * and loser, and the giant number shows the winning digit as active.
     */
    ghost predicate Valid()
      reads this, cards, run
    {
      cards.Length == 2 &&
      (isAnimating <==> run != null && !run.finished) &&
      (run != null ==>
        run.Valid() &&
        (run.mode == LR ==>
          if run.finished then Committed(cards[..], run.activeIndex)
          else Highlighting(cards[..], run.activeIndex)) &&
        (run.mode == Number ==>
          numberText == run.activeIndex &&
          numberLook == (if run.finished then Winner else Highlighted)))
    }

    /** The page as loaded: Left/Right screen, nothing animating, no result shown. */
    constructor ()
      ensures Valid() && fresh(cards)
      ensures !isAnimating && currentMode == LR && run == null
      ensures cards[..] == [Idle, Idle] && numberLook == Idle
    {
      isAnimating := false;
      currentMode := LR;
      cards := new CandidateState[2](_ => Idle);
      numberText := 0;
      numberLook := Idle;
      run := null;
    }

    /** switchMode(target): refused while animating, otherwise shows the target screen. */
    method SwitchMode(target: string)
      requires Valid()
      modifies this`currentMode
      ensures Valid()
      ensures old(isAnimating) ==> currentMode == old(currentMode)
      ensures !old(isAnimating) ==> currentMode == TargetMode(target)
    {
      if isAnimating {
        return;
      }
      if target == "number" {
        currentMode := Number;
      } else {
        currentMode := LR;
      }
    }

    /**
     * startLRSelection: a no-op while animating; otherwise sets the flag,
     * resets both cards, draws the duration and the first card, highlights it
     * and starts a run at time `now` with the minimum delay.
     */
    method StartLR(now: int, durationDraw: real, indexDraw: real)
      requires Valid() && IsDraw(durationDraw) && IsDraw(indexDraw)
      modifies this, cards
      ensures Valid()
      ensures currentMode == old(currentMode)
      ensures numberText == old(numberText) && numberLook == old(numberLook)
      ensures old(isAnimating) ==>
        isAnimating && run == old(run) && cards[..] == old(cards[..])
      ensures !old(isAnimating) ==>
        isAnimating && fresh(run) && run.mode == LR &&
        run.startTime == now && run.duration == PlannedDuration(durationDraw) &&
        run.activeIndex == Pick(indexDraw, 2) && run.lastSwitchTime == now &&
        run.currentDelay == MinDelay(LR) && run.shown == [run.activeIndex] &&
        Highlighting(cards[..], run.activeIndex)
    {
      if isAnimating {
        return;
      }
      isAnimating := true;
      ResetCards(cards);
      var duration := PlannedDuration(durationDraw);
      var startTime := now;
      var activeIndex := Pick(indexDraw, 2);
      ShowHighlight(cards, activeIndex);
      run := new SelectionRun(LR, duration, startTime, activeIndex);
    }

    /**
     * startNumberSelection: a no-op while animating; otherwise sets the flag,
     * highlights the giant number, draws the duration and the first digit,
     * shows it and starts a run at time `now` with the minimum delay.
     */
    method StartNumber(now: int, durationDraw: real, digitDraw: real)
      requires Valid() && IsDraw(durationDraw) && IsDraw(digitDraw)
      modifies this
      ensures Valid()
      ensures currentMode == old(currentMode)
      ensures old(isAnimating) ==>
        isAnimating && run == old(run) &&
        numberText == old(numberText) && numberLook == old(numberLook)
      ensures !old(isAnimating) ==>
        isAnimating && fresh(run) && run.mode == Number &&
        run.startTime == now && run.duration == PlannedDuration(durationDraw) &&
        run.activeIndex == Pick(digitDraw, 10) && run.lastSwitchTime == now &&
        run.currentDelay == MinDelay(Number) && run.shown == [run.activeIndex] &&
        numberText == run.activeIndex && numberLook == Highlighted
    {
      if isAnimating {
        return;
      }
      isAnimating := true;
      numberLook := Highlighted;
      var duration := PlannedDuration(durationDraw);
      var startTime := now;
      var currentNum := Pick(digitDraw, 10);
      numberText := currentNum;
      run := new SelectionRun(Number, duration, startTime, currentNum);
    }

    /**
     * The keydown listener. Its effect is the dispatched command, subject to
     * the guard: while animating nothing changes.
     */
    method KeyDown(code: string, now: int, durationDraw: real, indexDraw: real)
      requires Valid() && IsDraw(durationDraw) && IsDraw(indexDraw)
      modifies this, cards
      ensures Valid()
      ensures old(isAnimating) ==>
        isAnimating && currentMode == old(currentMode) && run == old(run) &&
        cards[..] == old(cards[..]) &&
        numberText == old(numberText) && numberLook == old(numberLook)
      ensures !old(isAnimating) ==>
        currentMode == ModeAfter(Dispatch(code, old(currentMode)), old(currentMode)) &&
        isAnimating == Dispatch(code, old(currentMode)).StartSelection?
      ensures !old(isAnimating) && Dispatch(code, old(currentMode)).StartSelection? ==>
        fresh(run) && run.mode == old(currentMode) && run.startTime == now &&
        run.duration == PlannedDuration(durationDraw) &&
        run.activeIndex == Pick(indexDraw, Candidates(run.mode)) &&
        run.lastSwitchTime == now && run.currentDelay == MinDelay(run.mode) &&
        run.shown == [run.activeIndex]
      ensures old(currentMode) == LR ==> numberText == old(numberText) && numberLook == old(numberLook)
      ensures old(currentMode) == Number ==> cards[..] == old(cards[..])
      ensures !Dispatch(code, old(currentMode)).StartSelection? ==>
        run == old(run) && cards[..] == old(cards[..]) &&
        numberText == old(numberText) && numberLook == old(numberLook)
    {
      match Dispatch(code, currentMode)
      case StartSelection(kind) =>
        if kind == LR {
          StartLR(now, durationDraw, indexDraw);
        } else {
          StartNumber(now, durationDraw, indexDraw);
        }
      case SwitchTo(target) =>
        SwitchMode(target);
      case NoCommand =>
    }

    /**
     * One animation frame of the running selection: the run's step, then its
     * effect on the display (the new highlight or digit after a switch), and
     * at the commit the finish: the result is shown and the flag cleared.
     */
    method Tick(now: int, draws: seq<real>)
      requires Valid() && isAnimating && now >= run.startTime
      requires run.mode == Number ==> IsDrawSeq(draws) && HasFresh(draws, run.activeIndex)
      modifies this, cards, run
      ensures Valid()
      ensures run == old(run) && currentMode == old(currentMode)
      ensures !isAnimating <==> (now - run.startTime) as real >= run.duration
      ensures (now - old(run.lastSwitchTime)) as real >= old(run.currentDelay) ==>
        run.activeIndex == NextCandidate(run.mode, old(run.activeIndex), draws) &&
        run.lastSwitchTime == now &&
        run.currentDelay == TargetDelay(run.mode, now - run.startTime, run.duration) &&
        run.shown == old(run.shown) + [run.activeIndex]
      ensures (now - old(run.lastSwitchTime)) as real < old(run.currentDelay) ==>
        run.activeIndex == old(run.activeIndex) &&
        run.lastSwitchTime == old(run.lastSwitchTime) &&
        run.currentDelay == old(run.currentDelay) &&
        run.shown == old(run.shown)
      ensures old(run.currentDelay) <= run.currentDelay
      ensures run.mode == LR ==> numberText == old(numberText) && numberLook == old(numberLook)
      ensures run.mode == Number ==> cards[..] == old(cards[..])
    {
      var switched, committed := run.Step(now, draws);
      if run.mode == LR {
        if switched {
          ShowHighlight(cards, run.activeIndex);
        }
        if committed {
          MarkResult(cards, run.activeIndex);
        }
      } else {
        if switched {
          numberText := run.activeIndex;
        }
        if committed {
          numberLook := Winner;
        }
      }
      if committed {
        isAnimating := false;
      }
    }

    /**
     * The requestAnimationFrame chain over frame times `ticks`, with the
     * number-mode draws of each frame: frames are processed until the run
     * commits. The flag is still set afterwards exactly when every frame came
     * before the end of the planned duration.
     */
    method Frames(ticks: seq<int>, draws: seq<seq<real>>)
      requires Valid()
      requires |draws| == |ticks|
      requires isAnimating ==> forall k :: 0 <= k < |ticks| ==> ticks[k] >= run.startTime
      requires isAnimating ==> FrameDraws(run.mode, draws)
      modifies this, cards, run
      ensures Valid()
      ensures run == old(run) && currentMode == old(currentMode)
      ensures isAnimating <==>
        old(isAnimating) &&
        forall k :: 0 <= k < |ticks| ==> (ticks[k] - run.startTime) as real < run.duration
      ensures old(isAnimating) ==>
        old(run.shown) <= run.shown && old(run.currentDelay) <= run.currentDelay
      ensures old(isAnimating) ==>
        (run.activeIndex, run.lastSwitchTime, run.currentDelay) ==
        Replay(run.mode, run.startTime, run.duration,
               old(run.activeIndex), old(run.lastSwitchTime), old(run.currentDelay), ticks, draws)
      ensures old(isAnimating) && run.mode == LR ==>
        numberText == old(numberText) && numberLook == old(numberLook)
      ensures old(isAnimating) && run.mode == Number ==> cards[..] == old(cards[..])
      ensures !old(isAnimating) ==>
        cards[..] == old(cards[..]) &&
        numberText == old(numberText) && numberLook == old(numberLook) &&
        (run != null ==> unchanged(run))
    {
      var k := 0;
      while k < |ticks| && isAnimating
        invariant 0 <= k <= |ticks|
        invariant Valid()
        invariant run == old(run) && currentMode == old(currentMode)
        invariant isAnimating ==> old(isAnimating)
        invariant isAnimating ==>
          forall j :: 0 <= j < k ==> (ticks[j] - run.startTime) as real < run.duration
        invariant old(isAnimating) && !isAnimating ==>
          exists j :: 0 <= j < k && (ticks[j] - run.startTime) as real >= run.duration
        invariant old(isAnimating) ==>
          old(run.shown) <= run.shown && old(run.currentDelay) <= run.currentDelay
        invariant old(isAnimating) ==>
          Replay(run.mode, run.startTime, run.duration,
                 old(run.activeIndex), old(run.lastSwitchTime), old(run.currentDelay), ticks, draws) ==
          if isAnimating
          then Replay(run.mode, run.startTime, run.duration,
                      run.activeIndex, run.lastSwitchTime, run.currentDelay, ticks[k..], draws[k..])
          else (run.activeIndex, run.lastSwitchTime, run.currentDelay)
        invariant old(isAnimating) && run.mode == LR ==>
          numberText == old(numberText) && numberLook == old(numberLook)
        invariant old(isAnimating) && run.mode == Number ==> cards[..] == old(cards[..])
        invariant !old(isAnimating) ==>
          cards[..] == old(cards[..]) &&
          numberText == old(numberText) && numberLook == old(numberLook) &&
          (run != null ==> unchanged(run))
      {
        Tick(ticks[k], draws[k]);
        k := k + 1;
      }
    }
  }
}
