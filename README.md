# Random selector: the decelerating selection controller

A Dafny model of the selection controller of the random-selector page
(`src-ui/script.js`). The page picks either Left or Right (two cards) or a
digit 0-9 (the giant number). A start draws a planned duration in
[10000, 15000) ms (over exact reals) and a first candidate. On every animation frame the run
computes `progress = min(elapsed / duration, 1)`, `ease = progress³` and
`targetDelay = min + (max - min) * ease`. It switches to another candidate
only once the current delay has passed since the last switch, and the delay
it then waits for is the target computed at that switch. The delay bounds are
500/1500 ms for the cards and 50/600 ms for the digit. Once progress
reaches 1, the run commits: the card on display wins and the other card
loses, or the digit on display becomes active. A single flag, `isAnimating`,
blocks mode switches and new starts while a run is in progress. Space,
ArrowLeft and ArrowRight are dispatched to these operations.

Files and modules:

- `scheduler.dfy` (`Scheduler`): the pure computations. These are the modes and
  their constants, `Math.floor(Math.random() * n)`, the planned duration,
  progress, ease and target delay, and the choice of the next candidate. The
  number mode's rejection redraw is the loop `DrawDigit`.
- `display.dfy` (`Display`): the state of each candidate on display
  (Idle, Highlighted, Winner, Loser), and the four `forEach` loops over the card
  array. These are the reset, the highlight loop, and the finish's unhighlight
  loop. The highlight loop runs once at the start and again at every switch;
  `ShowHighlight` models both. The file also has counting lemmas for "exactly one highlighted" and "one winner, one
  loser".
- `run.dfy` (`Selection`): one run as a class holding the closure variables
  `activeIndex`/`currentNum`, `lastSwitchTime`, `currentDelay`, `startTime`,
  `duration` and `finished`, and the frame callback `Step`. The two copies of
  `step` in the source become one class parameterised by the mode. A ghost
  history `shown` records every candidate displayed. The invariant says
  consecutive entries differ and the delay to wait is the target computed at
  the last switch.
- `controller.dfy` (`Controller`): the page state (`isAnimating`,
  `currentMode`, the cards, the giant number, the latest run) and the
  operations `switchMode`, keydown, the two starts, the frame with its
  `finish`, and a replay of a sequence of frame times.
- `scenarios.dfy` (`Scenarios`): two client methods. They use only the
  contracts: a run that commits lets the next start through, and a second
  start during a run has no effect.

Times read from `Date.now()` are integers (milliseconds). Durations, progress
and delays are reals. Each `Math.random()` draw is a parameter: a real in
[0, 1). The frame callback chain is an explicit sequence of frame times.

Progress is clamped only from above: `src-ui/script.js:118` uses
`Math.min`, with no lower bound, and the model does the same. A clock reading
before the run's start would therefore make progress negative and the target
delay smaller than the minimum. `Scheduler.NegativeElapsedUndershoots` proves
this for every negative elapsed time, and `Scheduler.UndershootOneSecondEarly`
gives concrete numbers. The model takes the clock to be monotonic:
`Step` and `Tick` require `now >= startTime`.

## Model

| member | source | states |
|---|---|---|
| `Scheduler.Pick` | src-ui/script.js:104 | `Math.floor(r * n)` for a draw r in [0,1) is an index in [0, n): card in [0,2), digit in [0,10) |
| `Scheduler.PlannedDuration` | src-ui/script.js:98 | `r * 5000 + 10000` lies in [10000, 15000) for every draw r in [0,1) |
| `Scheduler.Progress` | src-ui/script.js:118 | progress is at most 1, at least 0 when the elapsed time is not negative, exactly 0 at the start, and equals 1 exactly when elapsed >= duration |
| `Scheduler.Ease` | src-ui/script.js:119 | the cubic ease maps [0,1] into [0,1], with 0 at 0 and 1 at 1 |
| `Scheduler.TargetDelay` | src-ui/script.js:112-120 | for non-negative elapsed time the target delay lies in [minDelay, maxDelay]: [500,1500] for cards, [50,600] for digits. It equals minDelay at the start and maxDelay once the duration has passed |
| `Scheduler.EaseMonotone` | src-ui/script.js:119 | the ease never decreases as progress grows |
| `Scheduler.ProgressMonotone` | src-ui/script.js:117-118 | progress never decreases as elapsed time grows |
| `Scheduler.TargetDelayMonotone` | src-ui/script.js:115-131 | deceleration: a later target delay is never shorter than an earlier one |
| `Scheduler.NegativeElapsedUndershoots` | src-ui/script.js:117-120 | the clamp is one-sided: for every negative elapsed time and every duration, progress is negative and the target delay is below the mode's minimum |
| `Scheduler.UndershootOneSecondEarly` | src-ui/script.js:117-120 | one second before the start of a 10 s Left/Right run, progress is -0.1 and the target delay is 499 ms |
| `Scheduler.Other` | src-ui/script.js:124 | `(i + 1) % 2` is in {0,1}, differs from i, and is the other card (i + j == 1) |
| `Scheduler.FirstFresh` | src-ui/script.js:191-194 | the rejection loop stops at the first draw whose digit differs from the current one; every earlier draw repeated it |
| `Scheduler.DrawDigit` | src-ui/script.js:191-195 | the redraw loop returns the digit of that first differing draw; it is in [0,9] and differs from `currentNum` |
| `Scheduler.NextCandidate` | src-ui/script.js:189-196 | the candidate after a switch is valid for the mode and differs from the previous one; in Left/Right mode it is the other card |
| `Display.Unhighlight` | src-ui/script.js:108 | removing `highlight` turns a highlighted card into one with no class (Idle) and changes no other state |
| `Display.HighlightingShowsOne` | src-ui/script.js:106-109 | after the highlight loop exactly one candidate is highlighted and none is winner or loser |
| `Display.CommittedShowsResult` | src-ui/script.js:141-148 | at commit exactly one card is the winner and one the loser, they are different cards, and none is highlighted |
| `Display.ResetCards` | src-ui/script.js:92-96 | the reset loop leaves every card with no class (Idle) |
| `Display.ShowHighlight` | src-ui/script.js:125-128 | the highlight loop, also run once at the start (src-ui/script.js:106-109), highlights card k and removes the highlight from every other card, leaving their other state alone |
| `Display.MarkResult` | src-ui/script.js:140-148 | finish unhighlights both cards, marks `cards[activeIndex]` winner and `cards[(activeIndex+1)%2]` loser |
| `Selection.SelectionRun.constructor` | src-ui/script.js:101-112 | a run starts with `lastSwitchTime = startTime = now`, `currentDelay = minDelay`, the first candidate shown, not finished |
| `Selection.SelectionRun.Step` | src-ui/script.js:115-138 | a frame switches exactly when `now - lastSwitchTime >= currentDelay`. A switch shows a different valid candidate and sets `lastSwitchTime = now` and `currentDelay = targetDelay`, which is never shorter than before. Otherwise candidate, switch time and delay are unchanged. It commits exactly when progress reaches 1. The invariant keeps the index in range, the delay within [minDelay, maxDelay] and consecutive candidates distinct. The same method is the number-mode `step` (src-ui/script.js:182-207), whose switch is the digit redraw |
| `Selection.Replay` | src-ui/script.js:115-138 | the run's state after a chain of frames: frame by frame it switches to the next candidate, with `lastSwitchTime = now` and the new target delay, exactly when the delay has passed; the chain stops after the first frame whose progress is 1; the candidate stays valid for the mode |
| `Selection.ReplayStopsAtCommit` | src-ui/script.js:133-137 | once a frame has reached the planned duration, `finish` ends the chain: frames after it do not change the run |
| `Controller.Dispatch` | src-ui/script.js:69-80 | the keydown dispatcher: Space starts the current screen's selection, ArrowRight from Left/Right and ArrowLeft from Number switch the screen, any other key does nothing (its meaning is stated by the three dispatch lemmas) |
| `Controller.TargetMode` | src-ui/script.js:37-51 | the screen `switchMode` shows for its argument (stated by `Controller.TargetModeIsNumberExactly`) |
| `Controller.ModeAfter` | src-ui/script.js:69-80 | the screen after a dispatched command when nothing is animating (stated by `Controller.ArrowKeysToggle` and `Controller.SpaceStartsCurrentMode`) |
| `Controller.TargetModeIsNumberExactly` | src-ui/script.js:37-51 | `switchMode` selects the number screen exactly for the argument `'number'`, and Left/Right for anything else |
| `Controller.ArrowKeysToggle` | src-ui/script.js:75-79 | a key changes the screen exactly when it is ArrowRight on Left/Right or ArrowLeft on Number; ArrowRight never ends on Left/Right, ArrowLeft never on Number |
| `Controller.SpaceStartsCurrentMode` | src-ui/script.js:70-74 | only Space starts a selection, it starts the one matching `currentMode`, and it does not change the screen |
| `Controller.Selector.constructor` | src-ui/script.js:4-5 | the page starts on the Left/Right screen with no run animating |
| `Controller.Selector.SwitchMode` | src-ui/script.js:31-52 | while animating the mode is unchanged; otherwise it becomes Number for `'number'` and Left/Right for anything else; nothing else changes |
| `Controller.Selector.StartLR` | src-ui/script.js:83-112 | while animating the flag, mode, run and cards are unchanged. Otherwise the flag is set and a fresh Left/Right run starts at `now` with the planned duration, the drawn card highlighted alone, and delay 500 |
| `Controller.Selector.StartNumber` | src-ui/script.js:159-180 | while animating the flag, mode, run and digit are unchanged. Otherwise the flag is set and a fresh number run starts at `now` with the planned duration, the drawn digit on display and highlighted, and delay 50 |
| `Controller.Selector.KeyDown` | src-ui/script.js:69-80 | with the flag set, a key press changes nothing. Otherwise the screen becomes the one the dispatched command selects, and a run of the current screen's kind starts exactly for Space. Such a run starts at `now` with the planned duration, the drawn candidate, `lastSwitchTime = now`, the mode's minimum delay and a one-entry history. On the Left/Right screen the digit display is unchanged; on the number screen the cards are unchanged |
| `Controller.Selector.Tick` | src-ui/script.js:115-153 | one frame plus its display effect, for the Left/Right `step` and `finish` and for the number-mode ones (src-ui/script.js:182-217). When `now - lastSwitchTime >= currentDelay` the run shows the next candidate, sets `lastSwitchTime = now` and `currentDelay = targetDelay`, and appends the candidate to its history. Otherwise candidate, switch time, delay and history are unchanged. The delay never shrinks. The flag is cleared exactly when the planned duration has elapsed, and then the result is shown (winner and loser cards, or the digit as active). The invariant ties the display to the run |
| `Controller.Selector.Frames` | src-ui/script.js:133-137 | over a sequence of frame times the flag stays set exactly when it was set and every frame came before the end of the planned duration, i.e. the chain calls finish at the first frame with progress 1. The run's final candidate, last switch time and delay are those `Selection.Replay` computes from the frame times and draws. At the end of the chain the run's history of shown candidates extends its history at the start, and its delay is no shorter. A Left/Right run leaves the digit display unchanged and a number run leaves the cards unchanged. When nothing is animating, the cards, the digit and the run are unchanged |

## Left out

- DOM manipulation is not modelled. The cards' and the giant number's class lists become one abstract state per candidate. `textContent` is the digit field. The buttons' `disabled` property, the background's `dimmed` class and the two screens' `hidden`/`active` classes are left out; the screen shown is `currentMode`.
- The abstract card state cannot represent a card that is both highlighted and active. The source never produces one, because every start resets all cards first.
- The logging helper `log` and every log line are left out. They are presentational and depend on the locale.
- The click listeners (src-ui/script.js:55-67) only call `switchMode` and the two starts. The model calls those methods directly.
- `e.preventDefault()` for Space is left out. It only suppresses page scrolling.
- `Date.now()` and `requestAnimationFrame` become parameters: the frame time `now` and a sequence of frame times. The frame rate plays no part.
- The clock is taken to be monotonic: no frame time is before the run's `startTime`. A clock that goes backwards is not modelled; `Scheduler.NegativeElapsedUndershoots` shows what the code would compute.
- `Math.random()` becomes a supplied real in [0,1). Its statistical quality and the uniformity of the winners cannot be stated deductively and are not modelled.
- IEEE-754 double arithmetic is replaced by exact reals. Rounding in the planned duration `r * 5000 + 10000`, in `elapsed / duration`, the cube and the delay formula is not modelled.
- Scheduler.PlannedDuration: its upper bound 15000 is strict only over exact reals. In doubles `r * 5000 + 10000` rounds to exactly 15000 for the draws just below 1, such as 1 - 2^-53.
- Whether the digit rejection loop terminates depends on the random source. The model supplies the draws as a sequence and requires one whose digit differs from the digit on display (`HasFresh`). `Frames` requires draws that can escape every digit.
- The giant number's text before the first number run comes from the page markup, which is not part of this model; the constructor shows 0.
