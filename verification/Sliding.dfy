/** Sliding windows over frame verdicts. */
module Sliding {
  import opened Prelude

  /** How many of the frames from lo up to hi are set. */
  function CountIn(s: seq<bool>, lo: nat, hi: nat): (n: nat)
    requires hi <= |s|
    ensures n <= if lo <= hi then hi - lo else 0
  {
    if hi <= lo then 0 else CountIn(s, lo, hi - 1) + if s[hi - 1] then 1 else 0
  }

  /** Equal stretches have equal counts. */
  lemma {:induction false} CountSame(a: seq<bool>, x: nat, b: seq<bool>, y: nat, n: nat)
    requires x + n <= |a| && y + n <= |b|
    requires forall i :: x <= i < x + n ==> a[i] == b[i - x + y]
    ensures CountIn(a, x, x + n) == CountIn(b, y, y + n)
  {
    if n > 0 {
      CountSame(a, x, b, y, n - 1);
    }
  }

  /** A stretch that starts later counts no more. */
  lemma {:induction false} CountLater(s: seq<bool>, lo: nat, later: nat, hi: nat)
    requires lo <= later && hi <= |s|
    ensures CountIn(s, later, hi) <= CountIn(s, lo, hi)
  {
    if hi > later {
      CountLater(s, lo, later, hi - 1);
    }
  }

  method Sum(s: seq<bool>) returns (n: nat)
    ensures n == CountIn(s, 0, |s|)
  {
    n := 0;
    for i := 0 to |s|
      invariant n == CountIn(s, 0, i)
    {
      n := n + if s[i] then 1 else 0;
    }
  }

  /** Append to a deque of bounded length: a full one loses its oldest value. */
  function Push(s: seq<bool>, x: bool, limit: nat): seq<bool> {
    if |s| < limit || s == [] then s + [x] else s[1..] + [x]
  }

  function Min(a: nat, b: nat): nat { if a <= b then a else b }

  /** The deque holds the latest frames of a history, at most limit of them and none
      from before the last since. */
  predicate Holds(window: seq<bool>, heard: seq<bool>, since: nat, limit: nat) {
    && since <= |heard| && |window| == Min(since, limit)
    && forall i :: 0 <= i < |window| ==> window[i] == heard[|heard| - |window| + i]
  }

  lemma PushHolds(window: seq<bool>, heard: seq<bool>, since: nat, limit: nat, x: bool)
    requires limit > 0 && Holds(window, heard, since, limit)
    ensures Holds(Push(window, x, limit), heard + [x], since + 1, limit)
  {
  }

  /** So counting the deque counts the end of the history. */
  lemma {:induction false} HoldsCount(window: seq<bool>, heard: seq<bool>, since: nat, limit: nat)
    requires Holds(window, heard, since, limit)
    ensures CountIn(window, 0, |window|) == CountIn(heard, |heard| - Min(since, limit), |heard|)
  {
    CountSame(window, 0, heard, |heard| - |window|, |window|);
  }

  /** n lots of stride frames. */
  function Lots(n: nat, stride: nat): nat { if n == 0 then 0 else Lots(n - 1, stride) + stride }

  lemma {:induction false} LotsIsProduct(n: nat, stride: nat)
    ensures Lots(n, stride) == n * stride
  {
    if n > 0 {
      LotsIsProduct(n - 1, stride);
    }
  }
}
