/** Choosing the segment size for one chunk (`ShardData`, size search). */
module SegmentSize {
  import opened Base

  const MAX_DIVIDE: nat := 10
  const MIN_CANDIDATE: nat := 1024 * 50

  /** limit >> i */
  function Halving(limit: nat, i: nat): nat {
    if i == 0 then limit else Halving(limit, i - 1) / 2
  }

  /** The sizes the search may pick: the limit itself, and its first ten halvings of at least 50 KiB. */
  predicate Allowed(limit: nat, i: nat) {
    i == 0 || (i <= MAX_DIVIDE && Halving(limit, i) >= MIN_CANDIDATE)
  }

  /** `size` leaves the least padding of all allowed sizes, and is the largest of those that do. */
  ghost predicate IsBest(len: nat, limit: nat, size: nat)
    requires limit > 0
  {
    && (exists i: nat :: Allowed(limit, i) && size == Halving(limit, i))
    && size > 0
    && forall i: nat :: Allowed(limit, i) ==>
         var c := Halving(limit, i);
         c > 0 && (len % size < len % c || (len % size == len % c && c <= size))
  }

  lemma {:induction false} HalvingMonotone(limit: nat, i: nat, j: nat)
    requires i <= j
    ensures Halving(limit, j) <= Halving(limit, i)
    decreases j - i
  {
    if i < j {
      HalvingMonotone(limit, i, j - 1);
    }
  }

  function PowerOfTwo(i: nat): (r: nat)
    ensures r > 0
  {
    if i == 0 then 1 else PowerOfTwo(i - 1) + PowerOfTwo(i - 1)
  }

  lemma TwoHalves(d: int, h: int, odd: int)
    requires odd == 0 || odd == 1
    ensures d * (h + h + odd) == (d + d) * h + (if odd == 0 then 0 else d)
  {
  }

  lemma HalvesAre(n: nat, d: nat)
    requires d > 0
    ensures n / d / 2 == n / (d + d)
  {
    var q, r := n / d, n % d;
    var h, odd := q / 2, q % 2;
    assert n == d * q + r && q == h + h + odd;
    TwoHalves(d, h, odd);
    DivUnique(n, d + d, h, if odd == 0 then r else d + r);
  }

  /** The candidates are the limit divided by powers of two, ten at most, and none below 50 KiB. */
  lemma {:induction false} CandidatesAre(limit: nat, i: nat)
    ensures Halving(limit, i) == limit / PowerOfTwo(i)
    ensures Allowed(limit, i) <==> i == 0 || (i <= 10 && limit / PowerOfTwo(i) >= 51200)
  {
    if i > 0 {
      CandidatesAre(limit, i - 1);
      HalvesAre(limit, PowerOfTwo(i - 1));
    }
  }

  lemma BestIsUnique(len: nat, limit: nat, a: nat, b: nat)
    requires limit > 0 && IsBest(len, limit, a) && IsBest(len, limit, b)
    ensures a == b && a <= limit
  {
    var i: nat :| Allowed(limit, i) && a == Halving(limit, i);
    var j: nat :| Allowed(limit, j) && b == Halving(limit, j);
    HalvingMonotone(limit, 0, i);
  }

  /** The size a chunk of `len` bytes gets when the smallest backend limit is `limit`. */
  ghost predicate Chosen(len: nat, limit: nat, size: nat) {
    limit > 0 && if len <= limit then size == limit else IsBest(len, limit, size)
  }

  lemma ChosenIsUnique(len: nat, limit: nat, a: nat, b: nat)
    requires Chosen(len, limit, a) && Chosen(len, limit, b)
    ensures a == b && 0 < a <= limit
  {
    if len > limit {
      BestIsUnique(len, limit, a, b);
    }
  }

  /** The early-exit search finds the same size as looking at every allowed halving. */
  method ChooseSegmentSize(len: nat, limit: nat) returns (size: nat)
    requires limit > 0
    ensures 0 < size <= limit
    ensures Chosen(len, limit, size)
  {
    size := limit;
    if len > limit {
      var least := len % size;
      var i, candidate, best := 1, limit, 0;
      while i <= MAX_DIVIDE
        invariant 1 <= i <= MAX_DIVIDE + 1
        invariant candidate == Halving(limit, i - 1)
        invariant 0 <= best < i && Allowed(limit, best) && size == Halving(limit, best)
        invariant 0 < size <= limit && least == len % size
        invariant forall j: nat :: j < i ==> Allowed(limit, j)
        invariant forall j: nat :: j < i ==> Halving(limit, j) > 0
        invariant forall j: nat :: j < i ==>
                    len % size < len % Halving(limit, j)
                    || (len % size == len % Halving(limit, j) && Halving(limit, j) <= size)
      {
        candidate := candidate / 2;
        if candidate < MIN_CANDIDATE {
          NothingBelow(limit, i);
          return;
        }
        HalvingMonotone(limit, best, i);
        var leftover := len % candidate;
        if leftover < least {
          size := candidate;
          least := leftover;
          best := i;
        }
        if leftover == 0 {
          ExactFitWins(len, limit, size, i);
          return;
        }
        i := i + 1;
      }
    }
  }

  lemma NothingBelow(limit: nat, i: nat)
    requires i > 0 && Halving(limit, i) < MIN_CANDIDATE
    ensures forall j: nat :: Allowed(limit, j) ==> j < i
  {
    forall j: nat | Allowed(limit, j)
      ensures j < i
    {
      if i <= j {
        HalvingMonotone(limit, i, j);
      }
    }
  }

  /** Once a size divides the length, no later (smaller) halving is better. */
  lemma ExactFitWins(len: nat, limit: nat, size: nat, i: nat)
    requires size > 0 && len % size == 0 && Halving(limit, i) <= size
    ensures forall j: nat :: j >= i && Allowed(limit, j) && Halving(limit, j) > 0 ==>
              len % size < len % Halving(limit, j)
              || (len % size == len % Halving(limit, j) && Halving(limit, j) <= size)
    ensures forall j: nat :: j > 0 && Allowed(limit, j) ==> Halving(limit, j) > 0
  {
    forall j: nat | j >= i
      ensures Halving(limit, j) <= size
    {
      HalvingMonotone(limit, i, j);
    }
  }
}
