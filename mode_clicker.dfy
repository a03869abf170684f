/** The side-button auto clicker (auto_clicker_gui.py). The side buttons switch
    between three modes: in `Normal` nothing is clicked, in `Mode2` both
    buttons are clicked continuously, and in `Mode1` a button is clicked
    continuously only after the user has clicked it three times in quick
    succession, until the user releases it. A clicker loop per button emits
    clicks at a rate drawn from that button's [min, max] range. */
module ModeClicker {
  import opened Common

  /** Presses closer together than this count as one multi-click. */
  const MultiClickWindow: real := 0.3

  datatype Mode = Normal | Mode1 | Mode2

  /** Everything the listener callback updates. */
  datatype Controls = Controls(
    mode: Mode,
    mode1Continuous: bool,
    leftActive: bool,
    rightActive: bool,
    leftHeld: bool,
    rightHeld: bool,
    leftClickCount: int,
    rightClickCount: int,
    lastLeftClickTime: real,
    lastRightClickTime: real,
    sideButtonCount: int,
    lastSideButtonTime: real,
    lastSideButton: Option<Button>)

  /** Invariant of the controls: continuous clicking only exists in mode 1,
      the counters are never negative, and the remembered side button is a
      side button. */
  predicate ControlsOk(c: Controls) {
    && (c.mode1Continuous ==> c.mode == Mode1)
    && c.leftClickCount >= 0 && c.rightClickCount >= 0 && c.sideButtonCount >= 0
    && (c.lastSideButton.Some? ==> IsSideButton(c.lastSideButton.value))
  }

  /** The controls at start-up. */
  const InitialControls: Controls :=
    Controls(Normal, false, false, false, false, false, 0, 0, 0.0, 0.0, 0, 0.0, None)

  /** Whether the mode lets the clicker loops click: mode 2 always, mode 1
      only in its continuous state. */
  predicate ClickingMode(mode: Mode, mode1Continuous: bool) {
    mode == Mode2 || (mode == Mode1 && mode1Continuous)
  }

  /** A side-button press: counts it as a further click of a multi-click when
      the same side button was pressed less than 0.3 s ago, and as a first
      click otherwise. */
  function SidePress(c: Controls, button: Button, now: real): Controls {
    var count := if now - c.lastSideButtonTime < MultiClickWindow && c.lastSideButton == Some(button)
                 then c.sideButtonCount + 1 else 1;
    c.(sideButtonCount := count, lastSideButtonTime := now, lastSideButton := Some(button))
  }

  /** A side-button release: a single click toggles between normal mode and
      mode 1, a click of three or more toggles between normal mode and mode 2,
      each transition resetting the active flags and the continuous state;
      every other case changes nothing. */
  function SideRelease(c: Controls): Controls {
    if c.sideButtonCount == 1 then
      match c.mode
      case Normal => c.(mode := Mode1, leftActive := false, rightActive := false, mode1Continuous := false)
      case Mode1 => c.(mode := Normal, leftActive := false, rightActive := false, mode1Continuous := false)
      case Mode2 => c
    else if c.sideButtonCount >= 3 then
      match c.mode
      case Normal => c.(mode := Mode2, leftActive := true, rightActive := true, mode1Continuous := false)
      case Mode2 => c.(mode := Normal, leftActive := false, rightActive := false, mode1Continuous := false)
      case Mode1 => c
    else c
  }

  /** A left-button event: a press marks the button held and, in mode 1
      only, is counted as part of a multi-click, the third click within
      0.3 s gaps starting continuous clicking of the left button; a release
      clears the held flag and ends mode 1's continuous state, switching the
      left button off. */
  function LeftEvent(c: Controls, pressed: bool, now: real): Controls {
    if pressed then
      var held := c.(leftHeld := true);
      if c.mode == Mode1 then
        var count := c.leftClickCount + 1;
        if now - c.lastLeftClickTime < MultiClickWindow then
          if count >= 3 then
            held.(leftClickCount := count, mode1Continuous := true, leftActive := true, lastLeftClickTime := now)
          else held.(leftClickCount := count, lastLeftClickTime := now)
        else held.(leftClickCount := 1, lastLeftClickTime := now)
      else held
    else
      var released := c.(leftHeld := false);
      if c.mode == Mode1 && c.mode1Continuous then released.(mode1Continuous := false, leftActive := false)
      else released
  }

  /** The right-button counterpart of `LeftEvent`. */
  function RightEvent(c: Controls, pressed: bool, now: real): Controls {
    if pressed then
      var held := c.(rightHeld := true);
      if c.mode == Mode1 then
        var count := c.rightClickCount + 1;
        if now - c.lastRightClickTime < MultiClickWindow then
          if count >= 3 then
            held.(rightClickCount := count, mode1Continuous := true, rightActive := true, lastRightClickTime := now)
          else held.(rightClickCount := count, lastRightClickTime := now)
        else held.(rightClickCount := 1, lastRightClickTime := now)
      else held
    else
      var released := c.(rightHeld := false);
      if c.mode == Mode1 && c.mode1Continuous then released.(mode1Continuous := false, rightActive := false)
      else released
  }

  /** The next state of the listener callback for one event while side-button
      control is enabled. */
  function Step(c: Controls, button: Button, pressed: bool, now: real): Controls {
    if IsSideButton(button) then
      if pressed then SidePress(c, button, now) else SideRelease(c)
    else if button == Left then LeftEvent(c, pressed, now)
    else if button == Right then RightEvent(c, pressed, now)
    else c
  }

  /** Every event keeps the controls invariant. */
  lemma StepKeepsControlsOk(c: Controls, button: Button, pressed: bool, now: real)
    requires ControlsOk(c)
    ensures ControlsOk(Step(c, button, pressed, now))
  {
  }

  /** A side-button press only counts: the multi-click count grows by one
      when the same side button was pressed less than 0.3 s before and
      restarts at one otherwise; the mode and the flags do not change. */
  lemma SidePressCounts(c: Controls, button: Button, now: real)
    requires IsSideButton(button)
    ensures var r := Step(c, button, true, now);
            && r.sideButtonCount == (if now - c.lastSideButtonTime < 0.3 && c.lastSideButton == Some(button)
                                     then c.sideButtonCount + 1 else 1)
            && r.lastSideButtonTime == now && r.lastSideButton == Some(button)
            && r.(sideButtonCount := c.sideButtonCount, lastSideButtonTime := c.lastSideButtonTime,
                  lastSideButton := c.lastSideButton) == c
  {
  }

  /** Releasing a side button after a single click toggles normal mode and
      mode 1, switching both buttons off and leaving the continuous state;
      in mode 2 it does nothing. */
  lemma SingleClickRelease(c: Controls, button: Button, now: real)
    requires IsSideButton(button) && c.sideButtonCount == 1
    ensures var r := Step(c, button, false, now);
            && (c.mode == Normal ==> r.mode == Mode1)
            && (c.mode == Mode1 ==> r.mode == Normal)
            && (c.mode != Mode2 ==> !r.leftActive && !r.rightActive && !r.mode1Continuous)
            && (c.mode == Mode2 ==> r == c)
  {
  }

  /** Releasing a side button after three or more clicks toggles normal mode
      and mode 2, switching both buttons on when entering mode 2 and off when
      leaving it; in mode 1 it does nothing. After exactly two clicks a
      release does nothing in any mode. */
  lemma MultiClickRelease(c: Controls, button: Button, now: real)
    requires IsSideButton(button)
    ensures var r := Step(c, button, false, now);
            && (c.sideButtonCount >= 3 && c.mode == Normal ==>
                  r.mode == Mode2 && r.leftActive && r.rightActive && !r.mode1Continuous)
            && (c.sideButtonCount >= 3 && c.mode == Mode2 ==>
                  r.mode == Normal && !r.leftActive && !r.rightActive && !r.mode1Continuous)
            && (c.sideButtonCount >= 3 && c.mode == Mode1 ==> r == c)
            && (c.sideButtonCount == 2 ==> r == c)
  {
  }

  /** A left press in mode 1 is counted: within 0.3 s of the previous left
      press the count grows, and from the third such click on the left button
      starts clicking continuously; after a longer gap the count restarts at
      one. The right button's state is untouched. */
  lemma Mode1LeftPress(c: Controls, now: real)
    requires c.mode == Mode1
    ensures var r := Step(c, Left, true, now);
            && r.leftHeld && r.lastLeftClickTime == now && r.mode == Mode1
            && (now - c.lastLeftClickTime < 0.3 ==> r.leftClickCount == c.leftClickCount + 1)
            && (now - c.lastLeftClickTime < 0.3 && c.leftClickCount + 1 >= 3 ==> r.mode1Continuous && r.leftActive)
            && (now - c.lastLeftClickTime < 0.3 && c.leftClickCount + 1 < 3 ==>
                  r.mode1Continuous == c.mode1Continuous && r.leftActive == c.leftActive)
            && (now - c.lastLeftClickTime >= 0.3 ==>
                  r.leftClickCount == 1 && r.mode1Continuous == c.mode1Continuous && r.leftActive == c.leftActive)
            && r.rightActive == c.rightActive && r.rightClickCount == c.rightClickCount
  {
  }

  /** The right-button counterpart of `Mode1LeftPress`. */
  lemma Mode1RightPress(c: Controls, now: real)
    requires c.mode == Mode1
    ensures var r := Step(c, Right, true, now);
            && r.rightHeld && r.lastRightClickTime == now && r.mode == Mode1
            && (now - c.lastRightClickTime < 0.3 ==> r.rightClickCount == c.rightClickCount + 1)
            && (now - c.lastRightClickTime < 0.3 && c.rightClickCount + 1 >= 3 ==> r.mode1Continuous && r.rightActive)
            && (now - c.lastRightClickTime < 0.3 && c.rightClickCount + 1 < 3 ==>
                  r.mode1Continuous == c.mode1Continuous && r.rightActive == c.rightActive)
            && (now - c.lastRightClickTime >= 0.3 ==>
                  r.rightClickCount == 1 && r.mode1Continuous == c.mode1Continuous && r.rightActive == c.rightActive)
            && r.leftActive == c.leftActive && r.leftClickCount == c.leftClickCount
  {
  }

  /** Outside mode 1 a left or right press only marks the button as held. */
  lemma PressOutsideMode1(c: Controls, button: Button, now: real)
    requires c.mode != Mode1
    ensures Step(c, Left, true, now) == c.(leftHeld := true)
    ensures Step(c, Right, true, now) == c.(rightHeld := true)
  {
  }

  /** A left or right release in mode 1's continuous state ends it and
      switches that button off only; otherwise a release only clears the
      held flag. */
  lemma ReleaseEndsContinuous(c: Controls, now: real)
    ensures c.mode == Mode1 && c.mode1Continuous ==>
              && Step(c, Left, false, now) == c.(leftHeld := false, mode1Continuous := false, leftActive := false)
              && Step(c, Right, false, now) == c.(rightHeld := false, mode1Continuous := false, rightActive := false)
    ensures !(c.mode == Mode1 && c.mode1Continuous) ==>
              && Step(c, Left, false, now) == c.(leftHeld := false)
              && Step(c, Right, false, now) == c.(rightHeld := false)
  {
  }

  /** Runs a sequence of events (button, pressed, time) through `Step`. */
  function Run(c: Controls, events: seq<(Button, bool, real)>): Controls
    decreases |events|
  {
    if events == [] then c
    else Run(Step(c, events[0].0, events[0].1, events[0].2), events[1..])
  }

  /** A quick triple click of a side button (three press/release pairs, each
      press within 0.3 s of the one before) started in normal mode ends in
      mode 1: the first release already switches to mode 1, and a release
      with a count of three does nothing in mode 1. Started in mode 1, the
      same triple click ends in mode 2. */
  lemma {:induction false} TripleClickOutcome(c: Controls, button: Button, t: real)
    requires IsSideButton(button)
    requires c.mode == Normal || c.mode == Mode1
    requires !(t - c.lastSideButtonTime < 0.3 && c.lastSideButton == Some(button))
    ensures var events := [(button, true, t), (button, false, t + 0.05),
                           (button, true, t + 0.1), (button, false, t + 0.15),
                           (button, true, t + 0.2), (button, false, t + 0.25)];
            && (c.mode == Normal ==> Run(c, events).mode == Mode1)
            && (c.mode == Mode1 ==> Run(c, events).mode == Mode2)
  {
    var events := [(button, true, t), (button, false, t + 0.05),
                   (button, true, t + 0.1), (button, false, t + 0.15),
                   (button, true, t + 0.2), (button, false, t + 0.25)];
    var c1 := Step(c, button, true, t);
    assert c1.sideButtonCount == 1;
    var c2 := Step(c1, button, false, t + 0.05);
    var c3 := Step(c2, button, true, t + 0.1);
    assert c3.sideButtonCount == 2;
    var c4 := Step(c3, button, false, t + 0.15);
    var c5 := Step(c4, button, true, t + 0.2);
    assert c5.sideButtonCount == 3;
    var c6 := Step(c5, button, false, t + 0.25);
    assert Run(c, events) == Run(c1, events[1..]);
    assert Run(c1, events[1..]) == Run(c2, events[2..]);
    assert Run(c2, events[2..]) == Run(c3, events[3..]);
    assert Run(c3, events[3..]) == Run(c4, events[4..]);
    assert Run(c4, events[4..]) == Run(c5, events[5..]);
    assert Run(c5, events[5..]) == c6;
  }

  /** The window of auto_clicker_gui.py: the controls as fields, the CPS
      ranges, and the switch for side-button control. */
  class AutoClickerGui {
    var leftClickingActive: bool
    var rightClickingActive: bool
    var leftButtonHeld: bool
    var rightButtonHeld: bool
    var mode: Mode
    var mode1Continuous: bool
    var leftClickCount: int
    var rightClickCount: int
    var sideButtonCount: int
    var lastLeftClickTime: real
    var lastRightClickTime: real
    var lastSideButtonTime: real
    var lastSideButton: Option<Button>
    var leftMaxCps: real
    var leftMinCps: real
    var rightMaxCps: real
    var rightMinCps: real
    var useMouseSideButtons: bool

    /** The fields the listener callback updates, as one value. */
    function Snapshot(): Controls
      reads this
    {
      Controls(mode, mode1Continuous, leftClickingActive, rightClickingActive,
               leftButtonHeld, rightButtonHeld, leftClickCount, rightClickCount,
               lastLeftClickTime, lastRightClickTime, sideButtonCount,
               lastSideButtonTime, lastSideButton)
    }

    /** The controls invariant, and ranges of at least 1 CPS that are never
        inverted (the spin boxes allow 1 to 100). */
    ghost predicate Valid()
      reads this
    {
      && ControlsOk(Snapshot())
      && 1.0 <= leftMinCps <= leftMaxCps
      && 1.0 <= rightMinCps <= rightMaxCps
    }

    constructor ()
      ensures Valid()
      ensures Snapshot() == InitialControls
      ensures leftMinCps == 10.0 && leftMaxCps == 12.0 && rightMinCps == 23.0 && rightMaxCps == 26.0
      ensures useMouseSideButtons
    {
      leftClickingActive, rightClickingActive := false, false;
      leftButtonHeld, rightButtonHeld := false, false;
      mode, mode1Continuous := Normal, false;
      leftClickCount, rightClickCount, sideButtonCount := 0, 0, 0;
      lastLeftClickTime, lastRightClickTime, lastSideButtonTime := 0.0, 0.0, 0.0;
      lastSideButton := None;
      leftMaxCps, leftMinCps := 12.0, 10.0;
      rightMaxCps, rightMinCps := 26.0, 23.0;
      useMouseSideButtons := true;
    }

    /** The listener callback: with side-button control off every event is
        ignored; otherwise the controls move as `Step` says. */
    method OnMouseClick(button: Button, pressed: bool, now: real)
      requires Valid()
      modifies this`leftClickingActive, this`rightClickingActive, this`leftButtonHeld, this`rightButtonHeld
      modifies this`mode, this`mode1Continuous, this`leftClickCount, this`rightClickCount
      modifies this`sideButtonCount, this`lastLeftClickTime, this`lastRightClickTime
      modifies this`lastSideButtonTime, this`lastSideButton
      ensures Valid()
      ensures !useMouseSideButtons ==> Snapshot() == old(Snapshot())
      ensures useMouseSideButtons ==> Snapshot() == Step(old(Snapshot()), button, pressed, now)
    {
      StepKeepsControlsOk(Snapshot(), button, pressed, now);
      if !useMouseSideButtons {
        return;
      }
      if button == X1 || button == X2 {
        OnSideButton(button, pressed, now);
      } else if button == Left {
        OnLeftButton(pressed, now);
      } else if button == Right {
        OnRightButton(pressed, now);
      }
    }

    method OnSideButton(button: Button, pressed: bool, now: real)
      modifies this`leftClickingActive, this`rightClickingActive, this`mode, this`mode1Continuous
      modifies this`sideButtonCount, this`lastSideButtonTime, this`lastSideButton
      ensures Snapshot() == if pressed then SidePress(old(Snapshot()), button, now) else SideRelease(old(Snapshot()))
    {
      if pressed {
        if now - lastSideButtonTime < MultiClickWindow && lastSideButton == Some(button) {
          sideButtonCount := sideButtonCount + 1;
        } else {
          sideButtonCount := 1;
        }
        lastSideButtonTime := now;
        lastSideButton := Some(button);
      } else {
        if sideButtonCount == 1 {
          if mode == Normal {
            mode := Mode1;
            leftClickingActive, rightClickingActive, mode1Continuous := false, false, false;
          } else if mode == Mode1 {
            mode := Normal;
            leftClickingActive, rightClickingActive, mode1Continuous := false, false, false;
          }
        } else if sideButtonCount >= 3 {
          if mode == Normal {
            mode := Mode2;
            leftClickingActive, rightClickingActive, mode1Continuous := true, true, false;
          } else if mode == Mode2 {
            mode := Normal;
            leftClickingActive, rightClickingActive, mode1Continuous := false, false, false;
          }
        }
      }
    }

    method OnLeftButton(pressed: bool, now: real)
      modifies this`leftClickingActive, this`leftButtonHeld, this`mode1Continuous
      modifies this`leftClickCount, this`lastLeftClickTime
      ensures Snapshot() == LeftEvent(old(Snapshot()), pressed, now)
    {
      if pressed {
        leftButtonHeld := true;
        if mode == Mode1 {
          leftClickCount := leftClickCount + 1;
          if now - lastLeftClickTime < MultiClickWindow {
            if leftClickCount >= 3 {
              mode1Continuous := true;
              leftClickingActive := true;
            }
          } else {
            leftClickCount := 1;
          }
          lastLeftClickTime := now;
        }
      } else {
        leftButtonHeld := false;
        if mode == Mode1 && mode1Continuous {
          mode1Continuous := false;
          leftClickingActive := false;
        }
      }
    }

    method OnRightButton(pressed: bool, now: real)
      modifies this`rightClickingActive, this`rightButtonHeld, this`mode1Continuous
      modifies this`rightClickCount, this`lastRightClickTime
      ensures Snapshot() == RightEvent(old(Snapshot()), pressed, now)
    {
      if pressed {
        rightButtonHeld := true;
        if mode == Mode1 {
          rightClickCount := rightClickCount + 1;
          if now - lastRightClickTime < MultiClickWindow {
            if rightClickCount >= 3 {
              mode1Continuous := true;
              rightClickingActive := true;
            }
          } else {
            rightClickCount := 1;
          }
          lastRightClickTime := now;
        }
      } else {
        rightButtonHeld := false;
        if mode == Mode1 && mode1Continuous {
          mode1Continuous := false;
          rightClickingActive := false;
        }
      }
    }

    /** The window's left on/off button: flips left clicking. */
    method ToggleLeftClicking()
      requires Valid()
      modifies this`leftClickingActive
      ensures Valid()
      ensures leftClickingActive == !old(leftClickingActive)
    {
      leftClickingActive := !leftClickingActive;
    }

    /** The window's right on/off button: flips right clicking. */
    method ToggleRightClicking()
      requires Valid()
      modifies this`rightClickingActive
      ensures Valid()
      ensures rightClickingActive == !old(rightClickingActive)
    {
      rightClickingActive := !rightClickingActive;
    }

    /** The "use mouse side buttons" check box. */
    method ToggleMouseSideButtons(state: bool)
      modifies this`useMouseSideButtons
      ensures useMouseSideButtons == state
    {
      useMouseSideButtons := state;
    }

    /** Sets the left maximum; lowers the left minimum to it when above. */
    method UpdateLeftMaxCps(value: real)
      requires Valid() && value >= 1.0
      modifies this`leftMaxCps, this`leftMinCps
      ensures Valid()
      ensures leftMaxCps == value
      ensures leftMinCps == if old(leftMinCps) > value then value else old(leftMinCps)
    {
      leftMaxCps := value;
      if leftMinCps > value {
        leftMinCps := value;
      }
    }

    /** Sets the left minimum; raises the left maximum to it when below. */
    method UpdateLeftMinCps(value: real)
      requires Valid() && value >= 1.0
      modifies this`leftMaxCps, this`leftMinCps
      ensures Valid()
      ensures leftMinCps == value
      ensures leftMaxCps == if old(leftMaxCps) < value then value else old(leftMaxCps)
    {
      leftMinCps := value;
      if leftMaxCps < value {
        leftMaxCps := value;
      }
    }

    /** Sets the right maximum; lowers the right minimum to it when above. */
    method UpdateRightMaxCps(value: real)
      requires Valid() && value >= 1.0
      modifies this`rightMaxCps, this`rightMinCps
      ensures Valid()
      ensures rightMaxCps == value
      ensures rightMinCps == if old(rightMinCps) > value then value else old(rightMinCps)
    {
      rightMaxCps := value;
      if rightMinCps > value {
        rightMinCps := value;
      }
    }

    /** Sets the right minimum; raises the right maximum to it when below. */
    method UpdateRightMinCps(value: real)
      requires Valid() && value >= 1.0
      modifies this`rightMaxCps, this`rightMinCps
      ensures Valid()
      ensures rightMinCps == value
      ensures rightMaxCps == if old(rightMaxCps) < value then value else old(rightMaxCps)
    {
      rightMinCps := value;
      if rightMaxCps < value {
        rightMaxCps := value;
      }
    }

    /** One iteration of a clicker loop for `side`, whose last click was at
        `lastClickTime`, with `u` the draw of the rate. It clicks only while
        that button is active in a clicking mode and once a period of a rate
        drawn from [min, max] has passed; so it never clicks faster than the
        maximum rate, and always clicks once a period of the minimum rate has
        passed. */
    method ClickerTick(side: Side, lastClickTime: real, now: real, u: real)
      returns (newLastClickTime: real, emitted: bool)
      requires Valid() && 0.0 <= u < 1.0
      ensures var active := if side == LeftSide then leftClickingActive else rightClickingActive;
              var minCps := if side == LeftSide then leftMinCps else rightMinCps;
              var maxCps := if side == LeftSide then leftMaxCps else rightMaxCps;
              && (emitted ==> active && ClickingMode(mode, mode1Continuous))
              && (emitted ==> (now - lastClickTime) * maxCps >= 1.0)
              && (active && ClickingMode(mode, mode1Continuous) && (now - lastClickTime) * minCps >= 1.0 ==> emitted)
              && (emitted <==> active && ClickingMode(mode, mode1Continuous)
                               && (now - lastClickTime) * Uniform(minCps, maxCps, u) >= 1.0)
              && newLastClickTime == (if emitted then now else lastClickTime)
    {
      var active := if side == LeftSide then leftClickingActive else rightClickingActive;
      var minCps := if side == LeftSide then leftMinCps else rightMinCps;
      var maxCps := if side == LeftSide then leftMaxCps else rightMaxCps;
      newLastClickTime, emitted := lastClickTime, false;
      if active && (mode == Mode2 || (mode == Mode1 && mode1Continuous)) {
        var rate := Uniform(minCps, maxCps, u);
        var gap := now - lastClickTime;
        PeriodElapsed(gap, rate, minCps, maxCps);
        if gap >= 1.0 / rate {
          emitted := true;
          newLastClickTime := now;
        }
      }
    }
  }
}
