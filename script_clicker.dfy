/** The script auto clicker (auto_clicker.py): side button x1 switches
    continuous left clicking on and off, x2 does the same for the right button,
    and each button's loop clicks at a jittered rate, counting its clicks per
    second. */
module ScriptClicker {
  import opened Common

  const LeftMaxCps: real := 12.0
  /** The left jitter floor is two below the maximum. */
  const LeftMinCps: real := LeftMaxCps - 2.0
  const LeftJitterRange: real := 1.0
  const RightMaxCps: real := 26.0
  /** The right jitter floor is three below the maximum. */
  const RightMinCps: real := RightMaxCps - 3.0
  const RightJitterRange: real := 1.2

  /** Slowest rate a loop ever runs at. */
  const FloorCps: real := 1.0
  /** Seconds between two readings of the per-second counter. */
  const CountWindow: real := 1.0
  /** Seconds an inactive loop sleeps. */
  const IdleSleep: real := 0.1

  /** The rate of one click: a draw from [minCps, maxCps] plus a jitter drawn
      from [-jitter, jitter], raised to at least 1 CPS. Within that floor it
      stays in [minCps - jitter, maxCps + jitter]. */
  function CurrentCps(minCps: real, maxCps: real, jitter: real, u1: real, u2: real): (cps: real)
    requires 0.0 <= u1 < 1.0 && 0.0 <= u2 < 1.0
    ensures cps >= FloorCps
    ensures minCps <= maxCps && jitter >= 0.0 ==>
              cps >= minCps - jitter && (cps == FloorCps || cps <= maxCps + jitter)
  {
    var base := Uniform(minCps, maxCps, u1);
    var jittered := base + Uniform(-jitter, jitter, u2);
    if jittered > FloorCps then jittered else FloorCps
  }

  /** The pause after a click: one period of the current rate, so at most one
      second and always positive. */
  function ClickDelay(cps: real): (delay: real)
    requires cps >= FloorCps
    ensures 0.0 < delay <= 1.0
    ensures delay * cps == 1.0
  {
    ReciprocalAntitone(FloorCps, cps);
    1.0 / cps
  }

  /** With the configured constants the floor never applies: left clicks run
      at 9 to 13 CPS and right clicks at 21.8 to 27.2 CPS. */
  lemma ConfiguredRates(u1: real, u2: real)
    requires 0.0 <= u1 < 1.0 && 0.0 <= u2 < 1.0
    ensures LeftMinCps < LeftMaxCps && RightMinCps < RightMaxCps
    ensures 9.0 <= CurrentCps(LeftMinCps, LeftMaxCps, LeftJitterRange, u1, u2) <= 13.0
    ensures 21.8 <= CurrentCps(RightMinCps, RightMaxCps, RightJitterRange, u1, u2) <= 27.2
  {
  }

  /** The script's two global switches. */
  class ScriptClicker {
    var leftClickingActive: bool
    var rightClickingActive: bool

    constructor ()
      ensures !leftClickingActive && !rightClickingActive
    {
      leftClickingActive, rightClickingActive := false, false;
    }

    /** The listener callback: pressing x1 flips left clicking, pressing x2
        flips right clicking; releases and other buttons change nothing. */
    method OnMouseClick(button: Button, pressed: bool)
      modifies this
      ensures leftClickingActive == (if button == X1 && pressed then !old(leftClickingActive) else old(leftClickingActive))
      ensures rightClickingActive == (if button == X2 && pressed then !old(rightClickingActive) else old(rightClickingActive))
    {
      if button == X1 && pressed {
        leftClickingActive := !leftClickingActive;
      }
      if button == X2 && pressed {
        rightClickingActive := !rightClickingActive;
      }
    }

    /** One iteration of a clicker loop for `side`, given its click counter
        and the start of its counting window, at `now`, with `u1`, `u2` the
        draws of rate and jitter. While the side is active it clicks once and
        then sleeps one period of the jittered rate `CurrentCps`, at most 1 s; its counter
        grows by one per click and restarts from zero, with the window moved
        to `now`, once a second has elapsed. While inactive it does not click,
        zeroes the counter, restarts the window and sleeps 0.1 s. */
    method ClickerTick(side: Side, clickCount: int, startCountTime: real, now: real, u1: real, u2: real)
      returns (newClickCount: int, newStartCountTime: real, clicked: bool, sleepFor: real)
      requires 0.0 <= u1 < 1.0 && 0.0 <= u2 < 1.0
      ensures var active := if side == LeftSide then leftClickingActive else rightClickingActive;
              && clicked == active
              && (!active ==> newClickCount == 0 && newStartCountTime == now && sleepFor == IdleSleep)
              && (active && now - startCountTime >= CountWindow ==> newClickCount == 0 && newStartCountTime == now)
              && (active && now - startCountTime < CountWindow ==>
                    newClickCount == clickCount + 1 && newStartCountTime == startCountTime)
              && (active ==> sleepFor == ClickDelay(if side == LeftSide
                                                    then CurrentCps(LeftMinCps, LeftMaxCps, LeftJitterRange, u1, u2)
                                                    else CurrentCps(RightMinCps, RightMaxCps, RightJitterRange, u1, u2)))
              && (active ==> 0.0 < sleepFor <= 1.0)
      ensures clickCount >= 0 ==> newClickCount >= 0
    {
      var isActive := if side == LeftSide then leftClickingActive else rightClickingActive;
      if isActive {
        var currentCps := if side == LeftSide
                          then CurrentCps(LeftMinCps, LeftMaxCps, LeftJitterRange, u1, u2)
                          else CurrentCps(RightMinCps, RightMaxCps, RightJitterRange, u1, u2);
        var currentDelay := ClickDelay(currentCps);
        clicked := true;
        newClickCount := clickCount + 1;
        newStartCountTime := startCountTime;
        var elapsed := now - startCountTime;
        if elapsed >= CountWindow {
          newStartCountTime := now;
          newClickCount := 0;
        }
        sleepFor := currentDelay;
      } else {
        clicked := false;
        newClickCount := 0;
        newStartCountTime := now;
        sleepFor := IdleSleep;
      }
    }
  }
}
