/** How many parity segments survive the loss of `f` of `n` backends. */
module Parity {
  import opened Base

  // ---------------------------------------------------------------------
  // The even split. With base = total / n and extra = total % n, backend i
  // holds the segments Start(i), ..., Start(i+1) - 1.
  // ---------------------------------------------------------------------

  function BlockSize(base: nat, extra: nat, i: nat): nat {
    base + (if i < extra then 1 else 0)
  }

  function Start(base: nat, extra: nat, i: nat): nat {
    if i == 0 then 0 else Start(base, extra, i - 1) + BlockSize(base, extra, i - 1)
  }

  /** Segment k lies in the block of backend i. */
  predicate InBlock(base: nat, extra: nat, i: nat, k: int) {
    Start(base, extra, i) <= k < Start(base, extra, i) + BlockSize(base, extra, i)
  }

  lemma {:induction false} StartClosed(base: nat, extra: nat, i: nat)
    ensures Start(base, extra, i) == i * base + Min(i, extra)
  {
    if i > 0 {
      StartClosed(base, extra, i - 1);
      MulAdd(i - 1, 1, base);
    }
  }

  /** The n blocks together hold exactly `total` segments. */
  lemma StartEnd(n: nat, total: nat)
    requires n > 0
    ensures Start(total / n, total % n, n) == total
  {
    StartClosed(total / n, total % n, n);
    assert total == n * (total / n) + total % n;
  }

  lemma {:induction false} StartMonotone(base: nat, extra: nat, i: nat, j: nat)
    requires i <= j
    ensures Start(base, extra, i) <= Start(base, extra, j)
    decreases j - i
  {
    if i < j {
      StartMonotone(base, extra, i, j - 1);
    }
  }

  /** What `getShardParityCount` computes as the worst case. */
  function WorstLoss(n: nat, f: int, total: nat): int
    requires n > 0
  {
    f * (total / n) + (if f < total % n then f else total % n)
  }

  function NeededParity(n: nat, d: nat, f: int): nat
    requires f < n
  {
    if f <= 0 then 0 else f * CeilDiv(d, n - f)
  }

  // ---------------------------------------------------------------------
  // The parity search
  // ---------------------------------------------------------------------

  /** At the needed parity, what the worst failure takes is exactly the parity. */
  lemma NeededParityIsExact(n: nat, d: nat, f: nat)
    requires f < n
    ensures WorstLoss(n, f, d + NeededParity(n, d, f)) == NeededParity(n, d, f)
  {
    if d == 0 || f == 0 {
      assert CeilDiv(0, n - f) == 0 by { CeilDivUnique(0, n - f, 0); }
      DivUnique(0, n, 0, 0);
    } else {
      var m, c := n - f, CeilDiv(d, n - f);
      CeilDivBounds(d, m);
      var r := d - m * (c - 1);
      assert m * (c - 1) == m * c - m;
      assert 1 <= r <= m;
      assert m * c + f * c == n * c;
      assert d + f * c == n * (c - 1) + f + r by {
        assert n * (c - 1) == n * c - n;
      }
      if r < m {
        DivUnique(d + f * c, n, c - 1, f + r);
        assert f * (c - 1) == f * c - f;
      } else {
        assert n * (c - 1) + n == n * c;
        DivUnique(d + f * c, n, c, 0);
      }
    }
  }

  /** With any fewer parity segments, the worst failure takes more than the parity. */
  lemma SmallerParityLoses(n: nat, d: nat, f: int, q: nat)
    requires f < n && q < NeededParity(n, d, f)
    ensures q < WorstLoss(n, f, d + q)
  {
    var m, c := n - f, CeilDiv(d, n - f);
    CeilDivBounds(d, m);
    LightestStayBelow(n, m, f, d, c, q);
  }

  /** What the worst failure leaves, the load of the m = n - f lightest backends, is below d. */
  lemma LightestStayBelow(n: nat, m: nat, f: nat, d: nat, c: nat, q: nat)
    requires f > 0 && m > 0 && n == m + f
    requires d <= m * c < d + m
    requires q < f * c
    ensures q < WorstLoss(n, f, d + q)
  {
    var t := d + q;
    var per, extra := t / n, t % n;
    assert t == n * per + extra;
    MulAdd(m, f, per);
    if per >= c {
      MulMonotone(m, c, per);
      MulMonotone(f, c, per);
    } else {
      MulAdd(per, 1, m);
      MulAdd(per, 1, f);
      MulMonotone(m, per + 1, c);
      if per + 1 < c {
        MulMonotone(m, per + 2, c);
        MulAdd(per, 2, m);
      }
    }
  }

  /** A parity count is enough when it covers the worst loss. */
  predicate Survives(n: nat, d: nat, f: int, p: nat)
    requires n > 0
  {
    p >= WorstLoss(n, f, d + p)
  }

  lemma NegativeToleranceLosesNothing(n: nat, f: int, total: nat)
    requires n > 0 && f < 0
    ensures WorstLoss(n, f, total) <= 0
  {
    MulMonotone(total / n, f, 0);
  }

  /** No parity is enough once every backend may fail, unless there is nothing to keep. */
  lemma ParityExistsIff(n: nat, d: nat, f: int)
    requires n > 0
    ensures (exists p: nat :: Survives(n, d, f, p)) <==> f < n || d == 0
  {
    if 0 <= f < n {
      NeededParityIsExact(n, d, f);
      assert Survives(n, d, f, NeededParity(n, d, f));
    } else if f < 0 {
      NegativeToleranceLosesNothing(n, f, d + 0);
      assert Survives(n, d, f, 0);
    } else if d == 0 {
      DivUnique(0, n, 0, 0);
      assert Survives(n, d, f, 0);
    } else {
      forall p: nat
        ensures !Survives(n, d, f, p)
      {
        MulMonotone((d + p) / n, n, f);
      }
    }
  }

  /** `getShardParityCount`: the counting loop stops, at the least parity that survives. */
  method GetShardParityCount(n: nat, d: nat, f: int) returns (parity: nat)
    requires n > 0 && f < n
    ensures parity == NeededParity(n, d, f)
    ensures Survives(n, d, f, parity)
    ensures forall q: nat :: q < parity ==> !Survives(n, d, f, q)
  {
    parity := 0;
    while true
      invariant parity <= NeededParity(n, d, f)
      invariant forall q: nat :: q < parity ==> !Survives(n, d, f, q)
      decreases NeededParity(n, d, f) - parity
    {
      var total := d + parity;
      var perBackend := total / n;
      var extra := total % n;
      var lost := f * perBackend;
      if f < extra {
        lost := lost + f;
      } else {
        lost := lost + extra;
      }
      if parity >= lost {
        if parity < NeededParity(n, d, f) {
          SmallerParityLoses(n, d, f, parity);
        }
        return;
      }
      if parity == NeededParity(n, d, f) {
        if f >= 0 {
          NeededParityIsExact(n, d, f);
        } else {
          NegativeToleranceLosesNothing(n, f, total);
        }
      }
      parity := parity + 1;
    }
  }

  // ---------------------------------------------------------------------
  // What a set of failed backends takes with it
  // ---------------------------------------------------------------------

  /** The segments held by those of the first `i` backends whose position is in `who`. */
  ghost function Held(base: nat, extra: nat, who: set<nat>, i: nat): (s: set<int>)
    ensures forall k :: k in s ==> 0 <= k < Start(base, extra, i)
  {
    if i == 0 then {}
    else
      Held(base, extra, who, i - 1)
      + (if i - 1 in who then Interval(Start(base, extra, i - 1), Start(base, extra, i)) else {})
  }

  /** The positions in `who` below i. */
  ghost function Below(who: set<nat>, i: nat): set<nat> {
    set j | j in who && j < i
  }

  ghost function FirstBackends(f: nat): (s: set<nat>)
    ensures forall j: nat :: j in s <==> j < f
    ensures |s| == f
  {
    if f == 0 then {} else FirstBackends(f - 1) + {f - 1}
  }

  lemma {:induction false} HeldMembers(base: nat, extra: nat, who: set<nat>, i: nat, k: int)
    ensures k in Held(base, extra, who, i) <==> exists j: nat :: j < i && j in who && InBlock(base, extra, j, k)
  {
    if i > 0 {
      HeldMembers(base, extra, who, i - 1, k);
      assert InBlock(base, extra, i - 1, k)
        <==> k in Interval(Start(base, extra, i - 1), Start(base, extra, i));
    }
  }

  lemma EarlierBlocksAreLarger(base: nat, extra: nat, m: nat, i: nat)
    requires m <= i
    ensures Start(base, extra, m) + BlockSize(base, extra, i) <= Start(base, extra, m + 1)
  {
  }

  lemma BelowStep(who: set<nat>, i: nat)
    ensures |Below(who, i + 1)| == |Below(who, i)| + (if i in who then 1 else 0)
  {
    if i in who {
      assert Below(who, i + 1) == Below(who, i) + {i};
    } else {
      assert Below(who, i + 1) == Below(who, i);
    }
  }

  lemma HeldStep(base: nat, extra: nat, who: set<nat>, i: nat)
    requires i in who
    ensures |Held(base, extra, who, i + 1)| == |Held(base, extra, who, i)| + BlockSize(base, extra, i)
  {
    var a, b := Start(base, extra, i), Start(base, extra, i + 1);
    IntervalSize(a, b);
    assert Held(base, extra, who, i) !! Interval(a, b);
  }

  /** However the failed backends are chosen, they take no more than the first ones would. */
  lemma {:induction false} HeldSize(base: nat, extra: nat, who: set<nat>, i: nat)
    ensures |Below(who, i)| <= i
    ensures |Held(base, extra, who, i)| <= Start(base, extra, |Below(who, i)|)
  {
    if i == 0 {
      assert Below(who, i) == {};
    } else {
      HeldSize(base, extra, who, i - 1);
      HeldNext(base, extra, who, i - 1);
    }
  }

  lemma HeldNext(base: nat, extra: nat, who: set<nat>, i: nat)
    requires |Below(who, i)| <= i && |Held(base, extra, who, i)| <= Start(base, extra, |Below(who, i)|)
    ensures |Below(who, i + 1)| <= i + 1
    ensures |Held(base, extra, who, i + 1)| <= Start(base, extra, |Below(who, i + 1)|)
  {
    BelowStep(who, i);
    if i in who {
      HeldStep(base, extra, who, i);
      EarlierBlocksAreLarger(base, extra, |Below(who, i)|, i);
    }
  }

  lemma {:induction false} PrefixHeld(base: nat, extra: nat, who: set<nat>, f: nat, i: nat)
    requires forall j: nat :: j in who <==> j < f
    ensures Held(base, extra, who, i) == Interval(0, Start(base, extra, Min(f, i)))
  {
    if i > 0 {
      PrefixHeld(base, extra, who, f, i - 1);
    }
  }

  /** What the backends in `who` hold when `total` segments are split over `n` backends. */
  ghost function HeldOf(n: nat, total: nat, who: set<nat>): set<int>
    requires n > 0
  {
    Held(total / n, total % n, who, n)
  }

  lemma WorstLossIsStart(n: nat, f: nat, total: nat)
    requires n > 0
    ensures WorstLoss(n, f, total) == Start(total / n, total % n, f)
  {
    StartClosed(total / n, total % n, f);
  }

  /** Any f of the n backends hold at most WorstLoss segments; the first f hold exactly that many. */
  lemma WorstLossIsTight(n: nat, f: nat, total: nat, who: set<nat>)
    requires f <= n && n > 0
    requires |who| <= f && forall j :: j in who ==> j < n
    ensures |HeldOf(n, total, who)| <= WorstLoss(n, f, total)
    ensures |HeldOf(n, total, FirstBackends(f))| == WorstLoss(n, f, total)
  {
    var base, extra := total / n, total % n;
    HeldSize(base, extra, who, n);
    assert Below(who, n) == who;
    StartMonotone(base, extra, |who|, f);
    WorstLossIsStart(n, f, total);
    PrefixHeld(base, extra, FirstBackends(f), f, n);
    IntervalSize(0, Start(base, extra, f));
  }

  /** The segments that are not on the backends in `who`. */
  ghost function LeftOf(n: nat, total: nat, who: set<nat>): set<int>
    requires n > 0
  {
    Interval(0, total) - HeldOf(n, total, who)
  }

  lemma LeftSize(n: nat, total: nat, who: set<nat>)
    requires n > 0
    ensures |LeftOf(n, total, who)| == total - |HeldOf(n, total, who)|
  {
    StartEnd(n, total);
    IntervalSize(0, total);
    var all, held := Interval(0, total), HeldOf(n, total, who);
    assert held <= all;
    assert |all - held| == |all| - |held|;
  }

  /** A parity count that covers the worst loss survives every set of at most f failures. */
  lemma SurvivesEveryFailure(n: nat, d: nat, f: nat, total: nat, who: set<nat>)
    requires f < n && total - WorstLoss(n, f, total) >= d
    requires |who| <= f && forall j :: j in who ==> j < n
    ensures |LeftOf(n, total, who)| >= d
  {
    WorstLossIsTight(n, f, total, who);
    LeftSize(n, total, who);
  }

  /** The parity the search returns survives every set of at most f failures. */
  lemma EnoughSegmentsSurvive(n: nat, d: nat, f: int, total: nat, who: set<nat>)
    requires n > 0 && f < n && total == d + NeededParity(n, d, f)
    requires |who| <= Max(0, f) && forall j :: j in who ==> j < n
    ensures |LeftOf(n, total, who)| >= d
  {
    var g := Max(0, f);
    NeededParityIsExact(n, d, g);
    SurvivesEveryFailure(n, d, g, total, who);
  }

  lemma FirstFailuresLeave(n: nat, f: nat, total: nat)
    requires f <= n && n > 0
    ensures |LeftOf(n, total, FirstBackends(f))| == total - WorstLoss(n, f, total)
  {
    LeftSize(n, total, FirstBackends(f));
    WorstLossIsTight(n, f, total, FirstBackends(f));
  }

  /** With fewer parity segments than that, losing the first f backends is fatal. */
  lemma FewerSegmentsFail(n: nat, d: nat, f: nat, q: nat)
    requires f < n && q < NeededParity(n, d, f)
    ensures |LeftOf(n, d + q, FirstBackends(f))| < d
  {
    FirstFailuresLeave(n, f, d + q);
    SmallerParityLoses(n, d, f, q);
  }
}
