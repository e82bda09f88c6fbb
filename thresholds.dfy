/** Counting how many thresholds of an ascending table a value has reached: the
    reference form of every strict-`<` cascade on the pages. */
module Thresholds {

  ghost predicate Ascending(ts: seq<real>) {
    forall i, j | 0 <= i < j < |ts| :: ts[i] < ts[j]
  }

  /** Number of thresholds `t` in `ts` with `t <= x`. */
  function CountReached(ts: seq<real>, x: real): (k: nat)
    ensures k <= |ts|
    decreases |ts|
  {
    if |ts| == 0 then 0 else (if ts[0] <= x then 1 else 0) + CountReached(ts[1..], x)
  }

  /** Reaching more of the table never takes a smaller value. */
  lemma {:induction false} CountReachedMonotone(ts: seq<real>, x: real, y: real)
    requires x <= y
    ensures CountReached(ts, x) <= CountReached(ts, y)
    decreases |ts|
  {
    if |ts| > 0 {
      CountReachedMonotone(ts[1..], x, y);
    }
  }

  /** On an ascending table the count is `k` exactly when `x` lies in the `k`-th gap:
      at or above threshold `k - 1` and below threshold `k`. */
  lemma {:induction false} CountReachedIsGap(ts: seq<real>, x: real, k: nat)
    requires Ascending(ts) && k <= |ts|
    ensures CountReached(ts, x) == k <==>
              (k == 0 || ts[k - 1] <= x) && (k == |ts| || x < ts[k])
    decreases |ts|
  {
    if |ts| > 0 {
      var rest := ts[1..];
      assert Ascending(rest) by {
        forall i, j | 0 <= i < j < |rest| ensures rest[i] < rest[j] {
          assert rest[i] == ts[i + 1] && rest[j] == ts[j + 1];
        }
      }
      if ts[0] <= x {
        if k > 0 {
          CountReachedIsGap(rest, x, k - 1);
        } else {
          CountReachedIsGap(rest, x, 0);
        }
      } else {
        ReachedNoneBelowFirst(ts, x);
        if k > 0 {
          assert ts[0] <= ts[k - 1];
        }
      }
    }
  }

  /** Below the first threshold of an ascending table nothing is reached. */
  lemma {:induction false} ReachedNoneBelowFirst(ts: seq<real>, x: real)
    requires Ascending(ts) && |ts| > 0 && x < ts[0]
    ensures CountReached(ts, x) == 0
    decreases |ts|
  {
    if |ts| > 1 {
      var rest := ts[1..];
      assert Ascending(rest) by {
        forall i, j | 0 <= i < j < |rest| ensures rest[i] < rest[j] {
          assert rest[i] == ts[i + 1] && rest[j] == ts[j + 1];
        }
      }
      assert x < rest[0];
      ReachedNoneBelowFirst(rest, x);
    }
  }

  /** Number of thresholds `t` in `ts` with `d < t` (an integer day offset that is
      more negative than `t`). */
  function CountExceeded(ts: seq<int>, d: int): (k: nat)
    ensures k <= |ts|
    decreases |ts|
  {
    if |ts| == 0 then 0 else (if d < ts[0] then 1 else 0) + CountExceeded(ts[1..], d)
  }

  /** The more negative the offset, the more thresholds it passes. */
  lemma {:induction false} CountExceededAntitone(ts: seq<int>, d: int, e: int)
    requires d <= e
    ensures CountExceeded(ts, e) <= CountExceeded(ts, d)
    decreases |ts|
  {
    if |ts| > 0 {
      CountExceededAntitone(ts[1..], d, e);
    }
  }
}
