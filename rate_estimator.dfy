/** The hybrid clicks-per-second estimator of the assist clicker
    (`calculate_real_cps`). The instant `now` is a parameter instead of a read
    of the clock. */
module RateEstimator {
  import opened ClickLog

  /** Seconds of history the estimator looks at. */
  const WideWindow: real := 1.5
  /** Seconds of history whose click count is taken as the rate when dense. */
  const UnitWindow: real := 1.0

  /** The rate of a sparse list of at least two clicks: `n - 1` gaps spread
      over the time between the first and the last entry, or the raw count
      when that time is not positive. */
  function SpanRate(recent: seq<real>): (cps: real)
    requires |recent| >= 2
    ensures cps > 0.0
    ensures recent[|recent| - 1] - recent[0] > 0.0 ==>
              cps * (recent[|recent| - 1] - recent[0]) == (|recent| - 1) as real
    ensures recent[|recent| - 1] - recent[0] <= 0.0 ==> cps == |recent| as real
  {
    var span := recent[|recent| - 1] - recent[0];
    if span > 0.0 then (|recent| - 1) as real / span else |recent| as real
  }

  /** The estimate for one log at `now`:
      - no click in the last 1.5 s: 0; exactly one: 1;
      - at least two clicks in the last 1.0 s: that count (a count over one
        second is a rate);
      - otherwise the span rate of the clicks of the last 1.5 s.
      It never divides by zero and is zero exactly when the 1.5 s window is
      empty. */
  function RealCps(log: seq<real>, now: real): (cps: real)
    ensures cps >= 0.0
    ensures cps == 0.0 <==> Recent(log, now, WideWindow) == []
    ensures |Recent(log, now, WideWindow)| <= 1 ==> cps == |Recent(log, now, WideWindow)| as real
    ensures |Recent(log, now, UnitWindow)| >= 2 ==> cps == |Recent(log, now, UnitWindow)| as real
    ensures |Recent(log, now, WideWindow)| >= 2 && |Recent(log, now, UnitWindow)| < 2 ==>
              cps == SpanRate(Recent(log, now, WideWindow))
  {
    RecentNested(log, now, WideWindow, UnitWindow);
    if |log| == 0 then 0.0
    else
      var recent := Recent(log, now, WideWindow);
      if |recent| <= 1 then |recent| as real
      else
        var recentUnit := Recent(recent, now, UnitWindow);
        if |recentUnit| >= 2 then |recentUnit| as real
        else SpanRate(recent)
  }

  /** Read at the instant of pruning to one second, the estimate is simply
      the number of clicks kept: the span-based case only arises when the
      estimator runs later than the last pruning. */
  lemma EstimateWhenPruned(log: seq<real>, now: real)
    ensures RealCps(Recent(log, now, UnitWindow), now) == |Recent(log, now, UnitWindow)| as real
  {
    RecentNested(log, now, UnitWindow, WideWindow);
    RecentNested(log, now, UnitWindow, UnitWindow);
  }

  /** The display timer prunes every 0.1 s. Pruned to [9.02, 9.5] at 10.0
      and read at 10.08, within one timer period, the log has two clicks in
      the last 1.5 s but one in the last second, so the estimate is the span
      rate, one gap per 0.48 s. */
  lemma SpanCaseAfterPruning()
    ensures Recent([8.5, 9.02, 9.5], 10.0, UnitWindow) == [9.02, 9.5]
    ensures RealCps([9.02, 9.5], 10.08) == 1.0 / 0.48
  {
    assert Recent([9.02, 9.5], 10.08, WideWindow) == [9.02, 9.5];
    assert Recent([9.02, 9.5], 10.08, UnitWindow) == [9.5];
  }

  /** Five clicks all within the last 0.4 s read as 5 CPS. */
  lemma DenseExample()
    ensures RealCps([9.6, 9.7, 9.8, 9.9, 10.0], 10.0) == 5.0
  {
    assert Recent([9.6, 9.7, 9.8, 9.9, 10.0], 10.0, UnitWindow) == [9.6, 9.7, 9.8, 9.9, 10.0];
  }

  /** Two clicks 1.2 s and 1.4 s ago: only the span of 0.2 s is evidence, so
      the estimate is one gap per 0.2 s, 5 CPS. */
  lemma SparseExample()
    ensures RealCps([8.6, 8.8], 10.0) == 5.0
  {
    assert Recent([8.6, 8.8], 10.0, WideWindow) == [8.6, 8.8];
    assert Recent([8.6, 8.8], 10.0, UnitWindow) == [];
  }
}
