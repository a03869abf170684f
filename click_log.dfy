/** Click logs: insertion-ordered lists of click timestamps (seconds), and the
    trailing-window filter that every reader and the pruning step apply to them,
    `[t for t in log if now - t <= window]`. */
module ClickLog {

  /** The entries of `log` that are at most `window` seconds old at `now`, in
      their original order. Entries later than `now` are kept too, as the
      comprehension keeps them. */
  function Recent(log: seq<real>, now: real, window: real): (r: seq<real>)
    ensures |r| <= |log|
  {
    if log == [] then []
    else if now - log[0] <= window then [log[0]] + Recent(log[1..], now, window)
    else Recent(log[1..], now, window)
  }

  /** Filtering keeps exactly the in-window timestamps, each as often as it
      occurs in the log, and drops every other one. */
  lemma {:induction false} RecentCounts(log: seq<real>, now: real, window: real)
    ensures forall t :: multiset(Recent(log, now, window))[t]
                        == (if now - t <= window then multiset(log)[t] else 0)
  {
    if log != [] {
      RecentCounts(log[1..], now, window);
      assert log == [log[0]] + log[1..];
    }
  }

  /** Membership form of `RecentCounts`: a timestamp survives the filter if and
      only if it was logged and lies in the window. */
  lemma {:induction false} RecentMembers(log: seq<real>, now: real, window: real)
    ensures forall t :: t in Recent(log, now, window) <==> t in log && now - t <= window
  {
    RecentCounts(log, now, window);
    forall t ensures t in Recent(log, now, window) <==> t in log && now - t <= window {
      assert t in Recent(log, now, window) <==> multiset(Recent(log, now, window))[t] > 0;
      assert t in log <==> multiset(log)[t] > 0;
    }
  }

  /** Filtering distributes over concatenation, so it never reorders the
      timestamps it keeps. */
  lemma {:induction false} RecentAppend(a: seq<real>, b: seq<real>, now: real, window: real)
    ensures Recent(a + b, now, window) == Recent(a, now, window) + Recent(b, now, window)
  {
    if a == [] {
      assert a + b == b;
    } else {
      assert (a + b)[1..] == a[1..] + b;
      RecentAppend(a[1..], b, now, window);
    }
  }

  /** Filtering twice with the same `now` is filtering once with the narrower
      of the two windows (the 1.0 s count the rate estimator takes of its
      1.5 s list is the 1.0 s count of the log). */
  lemma {:induction false} RecentNested(log: seq<real>, now: real, first: real, second: real)
    ensures Recent(Recent(log, now, first), now, second)
            == Recent(log, now, if first <= second then first else second)
  {
    if log != [] {
      RecentNested(log[1..], now, first, second);
    }
  }

  /** Pruning is idempotent for a fixed `now`: pruning a pruned log changes
      nothing. */
  lemma {:induction false} RecentIdempotent(log: seq<real>, now: real, window: real)
    ensures Recent(Recent(log, now, window), now, window) == Recent(log, now, window)
  {
    RecentNested(log, now, window, window);
  }

  /** A wider window never sees fewer clicks. */
  lemma {:induction false} RecentWiderCount(log: seq<real>, now: real, wide: real, narrow: real)
    requires narrow <= wide
    ensures |Recent(log, now, narrow)| <= |Recent(log, now, wide)|
  {
    RecentNested(log, now, wide, narrow);
  }

  /** Filtering two logs with the same `now` and window keeps the first inside
      the second when it was inside before: pruning the user-only log and the
      combined log together preserves "every user click is in the combined
      log". */
  lemma {:induction false} RecentSubMultiset(sub: seq<real>, log: seq<real>, now: real, window: real)
    requires multiset(sub) <= multiset(log)
    ensures multiset(Recent(sub, now, window)) <= multiset(Recent(log, now, window))
  {
    RecentCounts(sub, now, window);
    RecentCounts(log, now, window);
    forall t ensures multiset(Recent(sub, now, window))[t] <= multiset(Recent(log, now, window))[t] {
      assert multiset(sub)[t] <= multiset(log)[t];
    }
  }

  /** As time passes with nothing logged, a window can only lose clicks. */
  lemma {:induction false} RecentLaterCount(log: seq<real>, now: real, later: real, window: real)
    requires now <= later
    ensures |Recent(log, later, window)| <= |Recent(log, now, window)|
  {
    if log != [] {
      RecentLaterCount(log[1..], now, later, window);
    }
  }
}
