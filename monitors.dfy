/** Monitor cycling: which monitor the window moves to when the monitor key is
    pressed. Monitors are given by their origins, in adapter order. */
module Monitors {
  import opened Types

  /** Every monitor has its own origin. */
  predicate Distinct(mons: seq<Origin>) {
    forall i, j :: 0 <= i < j < |mons| ==> mons[i] != mons[j]
  }

  /** The index of the last monitor whose origin is `cur`, or 0 when none is. */
  function LastMatch(mons: seq<Origin>, cur: Origin): (k: nat)
    ensures k == 0 || (k < |mons| && mons[k] == cur)
    ensures forall j :: k < j < |mons| ==> mons[j] != cur
    decreases |mons|
  {
    if |mons| == 0 then 0
    else if mons[|mons| - 1] == cur then |mons| - 1
    else LastMatch(mons[..|mons| - 1], cur)
  }

  /** The origin the window moves to from `cur`: unchanged with at most one
      monitor, otherwise the monitor after the last match, wrapping round. */
  function NextOrigin(mons: seq<Origin>, cur: Origin): Origin {
    if |mons| <= 1 then cur
    else
      var k := LastMatch(mons, cur) + 1;
      mons[if k == |mons| then 0 else k]
  }

  /** `n` presses of the monitor key in a row. */
  function Cycle(mons: seq<Origin>, cur: Origin, n: nat): Origin
    decreases n
  {
    if n == 0 then cur else NextOrigin(mons, Cycle(mons, cur, n - 1))
  }

  /** With fewer than two monitors nothing moves, however often it is asked. */
  lemma SingleMonitorIsNoOp(mons: seq<Origin>, cur: Origin)
    requires |mons| <= 1
    ensures NextOrigin(mons, cur) == cur
    ensures NextOrigin(mons, NextOrigin(mons, cur)) == cur
  {
  }

  /** From an origin no monitor has (first run), the window goes to monitor 1. */
  lemma UnknownOriginGoesToSecond(mons: seq<Origin>, cur: Origin)
    requires |mons| >= 2
    requires forall i :: 0 <= i < |mons| ==> mons[i] != cur
    ensures NextOrigin(mons, cur) == mons[1]
  {
  }

  /** Several monitors at the current origin: the one after the last of them. */
  lemma LastMatchWins(mons: seq<Origin>, k: nat)
    requires 2 <= |mons| && k < |mons|
    requires forall j :: k < j < |mons| ==> mons[j] != mons[k]
    ensures NextOrigin(mons, mons[k]) == mons[(k + 1) % |mons|]
  {
    LastMatchIs(mons, k);
    if k + 1 == |mons| {
      ModUnique(k + 1, |mons|, 1, 0);
    } else {
      ModUnique(k + 1, |mons|, 0, k + 1);
    }
  }

  /** The scan finds `k` when no later monitor shares its origin. */
  lemma {:induction false} LastMatchIs(mons: seq<Origin>, k: nat)
    requires k < |mons|
    requires forall j :: k < j < |mons| ==> mons[j] != mons[k]
    ensures LastMatch(mons, mons[k]) == k
    decreases |mons|
  {
    if k < |mons| - 1 {
      var front := mons[..|mons| - 1];
      assert mons[|mons| - 1] != mons[k];
      assert front[k] == mons[k];
      LastMatchIs(front, k);
    }
  }

  /** From monitor `k` the window moves to monitor `k + 1`, wrapping round. */
  lemma NextOfKnown(mons: seq<Origin>, k: nat)
    requires Distinct(mons) && k < |mons|
    ensures NextOrigin(mons, mons[k]) == mons[(k + 1) % |mons|]
  {
    if |mons| >= 2 {
      LastMatchWins(mons, k);
    }
  }

  /** `n` presses from monitor `k` reach monitor `(k + n) mod N`. */
  lemma {:induction false} CycleVisits(mons: seq<Origin>, k: nat, n: nat)
    requires Distinct(mons) && k < |mons|
    ensures Cycle(mons, mons[k], n) == mons[(k + n) % |mons|]
    decreases n
  {
    var size := |mons|;
    if n > 0 {
      var j := (k + n - 1) % size;
      assert Cycle(mons, mons[k], n - 1) == mons[j] by { CycleVisits(mons, k, n - 1); }
      assert NextOrigin(mons, mons[j]) == mons[(j + 1) % size] by { NextOfKnown(mons, j); }
      assert (j + 1) % size == (k + n) % size by { ModSucc(k + n - 1, size); }
    } else {
      assert k % size == k by { ModUnique(k, size, 0, k); }
    }
  }

  /** N presses bring the window back to the monitor it started on. */
  lemma FullCycleReturns(mons: seq<Origin>, k: nat)
    requires Distinct(mons) && k < |mons|
    ensures Cycle(mons, mons[k], |mons|) == mons[k]
  {
    CycleVisits(mons, k, |mons|);
    ModUnique(k + |mons|, |mons|, 1, k);
  }

  /** Taking the successor commutes with reduction modulo `m`. */
  lemma ModSucc(a: nat, m: nat)
    requires m > 0
    ensures (a % m + 1) % m == (a + 1) % m
  {
    var q, r := a / m, a % m;
    if r + 1 == m {
      ModUnique(a + 1, m, q + 1, 0);
      ModUnique(r + 1, m, 1, 0);
    } else {
      ModUnique(a + 1, m, q, r + 1);
      ModUnique(r + 1, m, 0, r + 1);
    }
  }

  /** The remainder is the only `r` in `[0, m)` with `a == q * m + r`. */
  lemma ModUnique(a: int, m: int, q: int, r: int)
    requires m > 0 && 0 <= r < m && a == q * m + r
    ensures a % m == r
  {
    var q', r' := a / m, a % m;
    assert a == q' * m + r';
    if q > q' {
      MulSplit(q', q - q', m);
      MulAtLeast(q - q', m);
    } else if q < q' {
      MulSplit(q, q' - q, m);
      MulAtLeast(q' - q, m);
    }
  }

  lemma MulSplit(x: int, d: int, m: int)
    ensures (x + d) * m == x * m + d * m
  {
  }

  lemma {:induction false} MulAtLeast(d: int, m: int)
    requires d >= 1 && m > 0
    ensures d * m >= m
    decreases d
  {
    if d > 1 {
      MulAtLeast(d - 1, m);
      MulSplit(d - 1, 1, m);
    }
  }

  /** Two monitors side by side: one press moves right, a second moves back. */
  lemma TwoMonitorScenario()
    ensures NextOrigin([Origin(0, 0), Origin(1920, 0)], Origin(0, 0)) == Origin(1920, 0)
    ensures NextOrigin([Origin(0, 0), Origin(1920, 0)], Origin(1920, 0)) == Origin(0, 0)
  {
    NextOfKnown([Origin(0, 0), Origin(1920, 0)], 0);
    NextOfKnown([Origin(0, 0), Origin(1920, 0)], 1);
  }
}
