/** The half-automatic assist clicker (main.py). It logs the user's clicks per
    button, estimates the user's rate, and while the user clicks faster than a
    threshold it adds synthetic clicks so that the combined rate approaches a
    target drawn from the button's [min, max] CPS range. Synthetic clicks go
    into the combined log only, so they never inflate the user's own rate.

    Clock reads become a `now` parameter; each draw of `random.uniform` is a
    parameter `u` in [0, 1) fed through `Uniform`. */
module AssistClicker {
  import opened Common
  import opened ClickLog
  import opened RateEstimator
  import opened ActivityGate

  /** Seconds of history the periodic pruning keeps. */
  const PruneWindow: real := 1.0
  /** Largest assist rate the scheduler will run at (runaway guard). */
  const MaxAssistCps: real := 40.0
  /** Bounds of the random time a target CPS stays in force. */
  const MinChangeInterval: real := 0.5
  const MaxChangeInterval: real := 2.0
  /** Reference window size the font scale is computed against. */
  const BaseWidth: real := 900.0
  const BaseHeight: real := 700.0

  /** The per-button status line. */
  datatype Status = ModeOff | Assisting | UserStopped | Standby

  /** Status shown for one button: off when assist mode is off; otherwise
      assisting when the user is above the threshold and still clicking,
      "user stopped" when above the threshold but no longer clicking, and
      standby when at or below the threshold. */
  function StatusOf(assistModeActive: bool, userCps: real, threshold: real, activelyClicking: bool): (s: Status)
    ensures s == ModeOff <==> !assistModeActive
    ensures s == Assisting <==> assistModeActive && userCps > threshold && activelyClicking
    ensures s == UserStopped <==> assistModeActive && userCps > threshold && !activelyClicking
    ensures s == Standby <==> assistModeActive && userCps <= threshold
  {
    if !assistModeActive then ModeOff
    else if userCps > threshold && activelyClicking then Assisting
    else if userCps > threshold && !activelyClicking then UserStopped
    else Standby
  }

  /** The configuration warning: the idle timeout is shorter than the gap
      between two clicks at exactly the threshold rate, so assistance would
      keep starting and stopping. A non-positive threshold counts as a zero
      gap. */
  function ConfigWarning(threshold: real, idleTimeout: real): (warn: bool)
    ensures threshold > 0.0 ==> (warn <==> idleTimeout * threshold < 1.0)
    ensures threshold <= 0.0 ==> (warn <==> idleTimeout < 0.0)
  {
    var minClickInterval := if threshold > 0.0 then 1.0 / threshold else 0.0;
    if threshold > 0.0 then
      assert idleTimeout < minClickInterval <==> idleTimeout * threshold < 1.0 by {
        BelowReciprocal(idleTimeout, threshold);
      }
      idleTimeout < minClickInterval
    else
      idleTimeout < minClickInterval
  }

  /** The font scale factor for a window of the given size: the smaller of
      the two ratios to the 900x700 reference, clamped to [0.8, 2.0]. Unless
      clamped at 0.8 the scaled reference layout fits the window, and unless
      clamped at 2.0 it fills the window in one dimension. It is 0.8 only
      when one ratio is at most 0.8, and 2.0 only when both are at least 2. */
  function ScaleFactor(width: int, height: int): (f: real)
    ensures 0.8 <= f <= 2.0
    ensures f > 0.8 ==> f * BaseWidth <= width as real && f * BaseHeight <= height as real
    ensures f < 2.0 && f > 0.8 ==> f * BaseWidth == width as real || f * BaseHeight == height as real
    ensures f == 0.8 ==> width as real <= 0.8 * BaseWidth || height as real <= 0.8 * BaseHeight
    ensures f == 2.0 ==> width as real >= 2.0 * BaseWidth && height as real >= 2.0 * BaseHeight
  {
    var widthScale := width as real / BaseWidth;
    var heightScale := height as real / BaseHeight;
    var scale := if widthScale <= heightScale then widthScale else heightScale;
    if scale < 0.8 then 0.8 else if scale > 2.0 then 2.0 else scale
  }

  /** The locals of one assist loop: when it last clicked, the target CPS in
      force, and when and for how long that target was drawn. */
  datatype Scheduler = Scheduler(lastAssistTime: real, targetCps: real, cpsChangeTime: real, cpsChangeInterval: real)

  /** The loop's state before its first iteration: no assist click yet (time
      0), the target at the range minimum, and a validity interval drawn from
      [0.5, 2.0). */
  function InitialScheduler(minCps: real, now: real, u: real): (s: Scheduler)
    requires 0.0 <= u < 1.0
    ensures s.lastAssistTime == 0.0 && s.targetCps == minCps && s.cpsChangeTime == now
    ensures MinChangeInterval <= s.cpsChangeInterval < MaxChangeInterval
  {
    Scheduler(0.0, minCps, now, Uniform(MinChangeInterval, MaxChangeInterval, u))
  }

  /** Step 1 of an iteration: once the target has been in force for its
      interval, draw a new target from [minCps, maxCps] and a new interval
      from [0.5, 2.0), stamped `now`; before that, nothing changes. */
  function RefreshTarget(s: Scheduler, now: real, minCps: real, maxCps: real, u1: real, u2: real): (r: Scheduler)
    requires 0.0 <= u1 < 1.0 && 0.0 <= u2 < 1.0
    ensures r.lastAssistTime == s.lastAssistTime
    ensures now - s.cpsChangeTime < s.cpsChangeInterval ==> r == s
    ensures now - s.cpsChangeTime >= s.cpsChangeInterval ==>
              && r.cpsChangeTime == now
              && MinChangeInterval <= r.cpsChangeInterval < MaxChangeInterval
              && (minCps <= maxCps ==> minCps <= r.targetCps <= maxCps)
  {
    if now - s.cpsChangeTime >= s.cpsChangeInterval then
      s.(targetCps := Uniform(minCps, maxCps, u1),
         cpsChangeTime := now,
         cpsChangeInterval := Uniform(MinChangeInterval, MaxChangeInterval, u2))
    else s
  }

  /** Whether an iteration of a running assist loop emits a click: the user
      is strictly above the threshold and still clicking, the missing rate
      `target - user` is positive and at most 40, and one period of that rate
      has passed since the last assist click. Consecutive assist clicks are
      therefore at least 1/40 s apart. */
  function AssistDue(userCps: real, threshold: real, activelyClicking: bool, targetCps: real,
                     lastAssistTime: real, now: real): (due: bool)
    ensures due ==> userCps > threshold && activelyClicking
    ensures due <==> && userCps > threshold && activelyClicking
                     && 0.0 < targetCps - userCps <= MaxAssistCps
                     && (now - lastAssistTime) * (targetCps - userCps) >= 1.0
    ensures due ==> now - lastAssistTime >= 1.0 / MaxAssistCps
  {
    if userCps > threshold && activelyClicking then
      var assistCps := targetCps - userCps;
      if assistCps > 0.0 && assistCps <= MaxAssistCps then
        var gap := now - lastAssistTime;
        assert gap >= 1.0 / assistCps <==> gap * assistCps >= 1.0 by {
          BelowReciprocal(gap, assistCps);
        }
        assert gap >= 1.0 / assistCps ==> gap >= 1.0 / MaxAssistCps by {
          ReciprocalAntitone(assistCps, MaxAssistCps);
        }
        gap >= 1.0 / assistCps
      else false
    else false
  }

  /** The emission test of one assist iteration as the loop performs it: the
      gate on the user's rate and activity, then the missing rate and its
      bounds, then whether one period of it has passed. It decides exactly
      `AssistDue`. */
  method AssistDecision(userCps: real, threshold: real, activelyClicking: bool, targetCps: real,
                        lastAssistTime: real, now: real) returns (due: bool)
    ensures due == AssistDue(userCps, threshold, activelyClicking, targetCps, lastAssistTime, now)
  {
    due := false;
    if userCps > threshold && activelyClicking {
      var assistCps := targetCps - userCps;
      if assistCps > 0.0 && assistCps <= MaxAssistCps {
        var assistInterval := 1.0 / assistCps;
        if now - lastAssistTime >= assistInterval {
          due := true;
        }
      }
    }
  }

  /** What the display shows for one button. */
  datatype CpsBreakdown = CpsBreakdown(totalCps: real, userCps: real, assistCps: real, status: Status)

  /** The click state the assist clicker keeps for one button: the combined
      (user and assist) log, the user-only log, the time of the last user
      click, whether the button was last seen pressed, the CPS range and
      whether assistance is enabled for it. */
  class ButtonState {
    var clickTimes: seq<real>
    var userClickTimes: seq<real>
    var lastUserClick: real
    var held: bool
    var minCps: real
    var maxCps: real
    var enabled: bool

    /** The range is never inverted, and every user click is also in the
        combined log (as a multiset of timestamps). */
    ghost predicate Valid()
      reads this
    {
      && minCps <= maxCps
      && multiset(userClickTimes) <= multiset(clickTimes)
    }

    constructor (minCps0: real, maxCps0: real)
      requires minCps0 <= maxCps0
      ensures Valid()
      ensures clickTimes == [] && userClickTimes == [] && lastUserClick == 0.0 && !held
      ensures minCps == minCps0 && maxCps == maxCps0 && enabled
    {
      clickTimes, userClickTimes := [], [];
      lastUserClick, held := 0.0, false;
      minCps, maxCps := minCps0, maxCps0;
      enabled := true;
    }

    /** A user press: the same timestamp goes to both logs. */
    method RecordUserClick(now: real)
      requires Valid()
      modifies this`clickTimes, this`userClickTimes, this`held, this`lastUserClick
      ensures Valid()
      ensures clickTimes == old(clickTimes) + [now]
      ensures userClickTimes == old(userClickTimes) + [now]
      ensures held && lastUserClick == now
    {
      clickTimes := clickTimes + [now];
      userClickTimes := userClickTimes + [now];
      held := true;
      lastUserClick := now;
    }

    /** An assist click: the combined log only. */
    method RecordAssistClick(now: real)
      requires Valid()
      modifies this`clickTimes
      ensures Valid()
      ensures clickTimes == old(clickTimes) + [now]
    {
      clickTimes := clickTimes + [now];
    }

    /** Drops from both logs every entry more than `window` seconds old. */
    method Prune(now: real, window: real)
      requires Valid()
      modifies this`clickTimes, this`userClickTimes
      ensures Valid()
      ensures clickTimes == Recent(old(clickTimes), now, window)
      ensures userClickTimes == Recent(old(userClickTimes), now, window)
    {
      RecentSubMultiset(userClickTimes, clickTimes, now, window);
      clickTimes := Recent(clickTimes, now, window);
      userClickTimes := Recent(userClickTimes, now, window);
    }

    /** Sets the maximum; lowers the minimum to it when the minimum was above. */
    method UpdateMaxCps(value: real)
      requires Valid()
      modifies this`minCps, this`maxCps
      ensures Valid()
      ensures maxCps == value
      ensures minCps == if old(minCps) > value then value else old(minCps)
    {
      maxCps := value;
      if minCps > value {
        minCps := value;
      }
    }

    /** Sets the minimum; raises the maximum to it when the maximum was below. */
    method UpdateMinCps(value: real)
      requires Valid()
      modifies this`minCps, this`maxCps
      ensures Valid()
      ensures minCps == value
      ensures maxCps == if old(maxCps) < value then value else old(maxCps)
    {
      minCps := value;
      if maxCps < value {
        maxCps := value;
      }
    }

    /** The "enable assistance" check box of this button. */
    method SetEnabled(checked: bool)
      modifies this`enabled
      ensures enabled == checked
    {
      enabled := checked;
    }
  }

  /** The assist clicker's own state: the two buttons and the global
      settings. */
  class HalfAutoClicker {
    const left: ButtonState
    const right: ButtonState
    var assistModeActive: bool
    var assistThreshold: real
    var idleTimeout: real
    /** Set while a synthetic click is being performed, so that the listener
        does not log it as a user click. */
    var isAssistClicking: bool
    /** Whether the configuration warning is shown. */
    var configWarningShown: bool

    ghost predicate Valid()
      reads this, left, right
    {
      && left != right
      && left.Valid() && right.Valid()
      && configWarningShown == ConfigWarning(assistThreshold, idleTimeout)
    }

    function StateOf(side: Side): (b: ButtonState)
      reads this
      ensures b == left || b == right
    {
      match side
      case LeftSide => left
      case RightSide => right
    }

    /** Start-up state: assist on, threshold 3 CPS, idle timeout 0.2 s, left
        range [22, 23], right range [23, 24], empty logs. The initial
        configuration check shows the warning, as 0.2 s is shorter than the
        1/3 s gap at the threshold. */
    constructor ()
      ensures Valid() && fresh(left) && fresh(right)
      ensures assistModeActive && assistThreshold == 3.0 && idleTimeout == 0.2 && !isAssistClicking
      ensures left.minCps == 22.0 && left.maxCps == 23.0
      ensures right.minCps == 23.0 && right.maxCps == 24.0
      ensures left.clickTimes == [] && left.userClickTimes == [] && left.lastUserClick == 0.0
      ensures right.clickTimes == [] && right.userClickTimes == [] && right.lastUserClick == 0.0
      ensures left.enabled && right.enabled
      ensures configWarningShown
    {
      left := new ButtonState(22.0, 23.0);
      right := new ButtonState(23.0, 24.0);
      assistModeActive := true;
      assistThreshold := 3.0;
      idleTimeout := 0.2;
      isAssistClicking := false;
      configWarningShown := ConfigWarning(3.0, 0.2);
    }

    /** Re-evaluates the configuration warning. */
    method CheckConfigValidity()
      modifies this`configWarningShown
      ensures configWarningShown == ConfigWarning(assistThreshold, idleTimeout)
    {
      configWarningShown := ConfigWarning(assistThreshold, idleTimeout);
    }

    method UpdateMaxCps(side: Side, value: real)
      requires Valid()
      modifies StateOf(side)`minCps, StateOf(side)`maxCps, this`configWarningShown
      ensures Valid()
      ensures StateOf(side).maxCps == value
      ensures StateOf(side).minCps == if old(StateOf(side).minCps) > value then value else old(StateOf(side).minCps)
      ensures configWarningShown == old(configWarningShown)
    {
      StateOf(side).UpdateMaxCps(value);
      CheckConfigValidity();
    }

    method UpdateMinCps(side: Side, value: real)
      requires Valid()
      modifies StateOf(side)`minCps, StateOf(side)`maxCps, this`configWarningShown
      ensures Valid()
      ensures StateOf(side).minCps == value
      ensures StateOf(side).maxCps == if old(StateOf(side).maxCps) < value then value else old(StateOf(side).maxCps)
      ensures configWarningShown == old(configWarningShown)
    {
      StateOf(side).UpdateMinCps(value);
      CheckConfigValidity();
    }

    method UpdateThreshold(value: real)
      requires Valid()
      modifies this`assistThreshold, this`configWarningShown
      ensures Valid()
      ensures assistThreshold == value
    {
      assistThreshold := value;
      CheckConfigValidity();
    }

    method UpdateIdleTimeout(value: real)
      requires Valid()
      modifies this`idleTimeout, this`configWarningShown
      ensures Valid()
      ensures idleTimeout == value
    {
      idleTimeout := value;
      CheckConfigValidity();
    }

    method ToggleAssistMode()
      modifies this`assistModeActive
      ensures assistModeActive == !old(assistModeActive)
    {
      assistModeActive := !assistModeActive;
    }

    /** The listener callback. Releases, buttons other than left and right,
        and anything seen while a synthetic click is in progress are ignored;
        a left or right press is logged as a user click of that button. */
    method OnMouseClick(button: Button, pressed: bool, now: real)
      requires Valid()
      modifies left`clickTimes, left`userClickTimes, left`held, left`lastUserClick
      modifies right`clickTimes, right`userClickTimes, right`held, right`lastUserClick
      ensures Valid()
      ensures !pressed || isAssistClicking || (button != Left && button != Right) ==>
                unchanged(left) && unchanged(right)
      ensures pressed && !isAssistClicking && button == Left ==>
                && left.clickTimes == old(left.clickTimes) + [now]
                && left.userClickTimes == old(left.userClickTimes) + [now]
                && left.held && left.lastUserClick == now
                && unchanged(right)
      ensures pressed && !isAssistClicking && button == Right ==>
                && right.clickTimes == old(right.clickTimes) + [now]
                && right.userClickTimes == old(right.userClickTimes) + [now]
                && right.held && right.lastUserClick == now
                && unchanged(left)
    {
      if !pressed {
        return;
      }
      if isAssistClicking {
        return;
      }
      if button == Left {
        left.RecordUserClick(now);
      } else if button == Right {
        right.RecordUserClick(now);
      }
    }

    /** The 100 ms display timer: prunes all four logs to the last second and
        returns the combined rate of each button. */
    method CalculateCps(now: real) returns (leftCps: real, rightCps: real)
      requires Valid()
      modifies left`clickTimes, left`userClickTimes, right`clickTimes, right`userClickTimes
      ensures Valid()
      ensures left.clickTimes == Recent(old(left.clickTimes), now, PruneWindow)
      ensures left.userClickTimes == Recent(old(left.userClickTimes), now, PruneWindow)
      ensures right.clickTimes == Recent(old(right.clickTimes), now, PruneWindow)
      ensures right.userClickTimes == Recent(old(right.userClickTimes), now, PruneWindow)
      ensures leftCps == RealCps(left.clickTimes, now) && rightCps == RealCps(right.clickTimes, now)
    {
      left.Prune(now, PruneWindow);
      right.Prune(now, PruneWindow);
      leftCps := RealCps(left.clickTimes, now);
      rightCps := RealCps(right.clickTimes, now);
    }

    /** The per-button display: total and user rate, the assist share (never
        negative: the part of the total above the user's rate) and the
        status line. */
    function CpsDisplay(side: Side, now: real): (d: CpsBreakdown)
      reads this, left, right
      ensures d.totalCps == RealCps(StateOf(side).clickTimes, now)
      ensures d.userCps == RealCps(StateOf(side).userClickTimes, now)
      ensures d.assistCps >= 0.0 && d.assistCps >= d.totalCps - d.userCps
      ensures d.assistCps == 0.0 || d.assistCps == d.totalCps - d.userCps
      ensures d.status == StatusOf(assistModeActive, d.userCps, assistThreshold,
                                   IsUserActivelyClicking(StateOf(side).lastUserClick,
                                                          StateOf(side).userClickTimes, now, idleTimeout))
    {
      var b := StateOf(side);
      var userCps := RealCps(b.userClickTimes, now);
      var totalCps := RealCps(b.clickTimes, now);
      var assistCps := if totalCps - userCps > 0.0 then totalCps - userCps else 0.0;
      var active := IsUserActivelyClicking(b.lastUserClick, b.userClickTimes, now, idleTimeout);
      CpsBreakdown(totalCps, userCps, assistCps, StatusOf(assistModeActive, userCps, assistThreshold, active))
    }

    /** One iteration of a button's assist loop at `now`, with `u1` and `u2`
        the draws for a new target and a new interval. While assist mode is
        on and the button is enabled, it refreshes the target when due and
        emits a click when `AssistDue` holds; an emitted click is logged in
        the combined log only and becomes the last assist time. */
    method AssistTick(side: Side, s: Scheduler, now: real, u1: real, u2: real)
      returns (next: Scheduler, emitted: bool)
      requires Valid()
      requires 0.0 <= u1 < 1.0 && 0.0 <= u2 < 1.0
      modifies StateOf(side)`clickTimes, this`isAssistClicking
      ensures Valid()
      ensures !isAssistClicking
      ensures var b := StateOf(side);
              var running := assistModeActive && b.enabled;
              var refreshed := RefreshTarget(s, now, b.minCps, b.maxCps, u1, u2);
              && emitted == (running && AssistDue(RealCps(b.userClickTimes, now), assistThreshold,
                                                  IsUserActivelyClicking(b.lastUserClick, b.userClickTimes, now, idleTimeout),
                                                  refreshed.targetCps, refreshed.lastAssistTime, now))
              && next == (if !running then s else if emitted then refreshed.(lastAssistTime := now) else refreshed)
              && b.clickTimes == (if emitted then old(b.clickTimes) + [now] else old(b.clickTimes))
    {
      var b := StateOf(side);
      next, emitted := s, false;
      isAssistClicking := false;
      if assistModeActive && b.enabled {
        next := RefreshTarget(s, now, b.minCps, b.maxCps, u1, u2);
        var userCps := RealCps(b.userClickTimes, now);
        var userStillClicking := IsUserActivelyClicking(b.lastUserClick, b.userClickTimes, now, idleTimeout);
        var due := AssistDecision(userCps, assistThreshold, userStillClicking, next.targetCps, next.lastAssistTime, now);
        if due {
          isAssistClicking := true;
          b.RecordAssistClick(now);
          isAssistClicking := false;
          next := next.(lastAssistTime := now);
          emitted := true;
        }
      }
    }
  }
}
