/**
 * Client code over the controller's contracts: what a page can rely on
 * from the specifications alone.
 */
module Scenarios {
  import opened Scheduler
  import opened Display
  import opened Selection
  import opened Controller

  /**
   * A Left/Right run, given one frame after its planned duration, commits:
   * one card wins, the other loses, the flag is cleared and the next start is
   * accepted.
   */
  method CommitThenRestart(now: int, durationDraw: real, indexDraw: real)
    requires IsDraw(durationDraw) && IsDraw(indexDraw)
  {
    var page := new Selector();
    page.StartLR(now, durationDraw, indexDraw);
    var first := page.run;
    assert page.isAnimating && first.mode == LR;
    page.Tick(now + 15000, []);
    assert !page.isAnimating;
    assert Committed(page.cards[..], first.activeIndex);
    CommittedShowsResult(page.cards[..], first.activeIndex);
    assert Count(page.cards[..], Winner) == 1 && Count(page.cards[..], Highlighted) == 0;
    page.StartLR(now + 20000, durationDraw, indexDraw);
    assert page.isAnimating && page.run != first;
  }

  /**
   * A second start, by button or by Space, while a run is in progress
   * changes nothing: the first run goes on.
   */
  method SecondStartIgnored(now: int, later: int, d1: real, i1: real, d2: real, i2: real)
    requires IsDraw(d1) && IsDraw(i1) && IsDraw(d2) && IsDraw(i2)
  {
    var page := new Selector();
    page.StartNumber(now, d1, i1);
    var first := page.run;
    var digit := page.numberText;
    page.StartNumber(later, d2, i2);
    page.KeyDown("Space", later, d2, i2);
    page.KeyDown("ArrowRight", later, d2, i2);
    page.StartLR(later, d2, i2);
    assert page.run == first && first.startTime == now && page.isAnimating;
    assert page.numberText == digit && page.currentMode == LR;
  }
}
