/** The activity gate of the assist clicker (`is_user_actively_clicking`): an
    idle timeout on the user's last click, stretched by half when the user-only
    log shows a recent burst. */
module ActivityGate {
  import opened ClickLog

  /** Whether the user still counts as clicking at `now`, given the time of
      their last click and their own click log:
      - the last click is at most `idleTimeout` old: yes;
      - otherwise, when at least two user clicks lie within three timeouts,
        the last click may be up to one and a half timeouts old;
      - otherwise: no. */
  function IsUserActivelyClicking(lastClick: real, userLog: seq<real>, now: real, idleTimeout: real): (active: bool)
    ensures now - lastClick <= idleTimeout ==> active
    ensures active <==> (now - lastClick <= idleTimeout
                         || (|Recent(userLog, now, idleTimeout * 3.0)| >= 2
                             && now - lastClick <= idleTimeout * 1.5))
    ensures idleTimeout >= 0.0 && active ==> now - lastClick <= idleTimeout * 1.5
  {
    var basic := now - lastClick <= idleTimeout;
    if !basic then
      var recent := Recent(userLog, now, idleTimeout * 3.0);
      if |recent| >= 2 then now - lastClick <= idleTimeout * 1.5 else basic
    else basic
  }

  /** Without a new user click, once the gate has closed it stays closed: the
      gate at a later instant implies the gate at every earlier one. */
  lemma StaysClosed(lastClick: real, userLog: seq<real>, now: real, later: real, idleTimeout: real)
    requires now <= later
    requires IsUserActivelyClicking(lastClick, userLog, later, idleTimeout)
    ensures IsUserActivelyClicking(lastClick, userLog, now, idleTimeout)
  {
    RecentLaterCount(userLog, now, later, idleTimeout * 3.0);
  }

  /** With a 0.2 s timeout and one click at 0: active at 0.19, not at 0.25;
      with two clicks within the last 0.6 s, still active at 0.25. */
  lemma Examples()
    ensures IsUserActivelyClicking(0.0, [0.0], 0.19, 0.2)
    ensures !IsUserActivelyClicking(0.0, [0.0], 0.25, 0.2)
    ensures IsUserActivelyClicking(0.0, [-0.1, 0.0], 0.25, 0.2)
  {
    assert Recent([0.0], 0.25, 0.2 * 3.0) == [0.0];
    assert Recent([-0.1, 0.0], 0.25, 0.2 * 3.0) == [-0.1, 0.0];
  }
}
