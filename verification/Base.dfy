/** Types and small facts shared by every other module. */
module Base {

  type Bytes = seq<bv8>

  datatype Option<+T> = None | Some(value: T)

  datatype Result<+T, +E> = Ok(value: T) | Err(error: E)

  function Min(a: int, b: int): int {
    if a < b then a else b
  }

  function Max(a: int, b: int): int {
    if a < b then b else a
  }

  /** Integer ceiling division. */
  function CeilDiv(a: nat, b: nat): nat
    requires b > 0
  {
    (a + b - 1) / b
  }

  function Zeros(n: nat): (z: Bytes)
    ensures |z| == n && forall i :: 0 <= i < n ==> z[i] == 0
  {
    seq(n, _ => 0)
  }

  function Flatten<T>(parts: seq<seq<T>>): seq<T> {
    if parts == [] then [] else parts[0] + Flatten(parts[1..])
  }

  function Elements<K(!new)>(q: seq<K>): set<K> {
    set x | x in q
  }

  predicate Between(lo: int, k: int, hi: int) {
    lo <= k < hi
  }

  /** The integers lo, lo+1, ..., hi-1. */
  function Interval(lo: int, hi: int): (s: set<int>)
    ensures forall k :: k in s <==> lo <= k < hi
  {
    set k: int | lo <= k < hi && Between(lo, k, hi)
  }

  lemma {:induction false} IntervalSize(lo: int, hi: int)
    requires lo <= hi
    ensures |Interval(lo, hi)| == hi - lo
    decreases hi - lo
  {
    if lo < hi {
      IntervalSize(lo, hi - 1);
      assert Interval(lo, hi) == Interval(lo, hi - 1) + {hi - 1};
    }
  }

  lemma SubsetSize<T>(a: set<T>, b: set<T>)
    requires a <= b
    ensures |a| <= |b|
  {
    assert b == a + (b - a);
  }

  lemma AppendAssociates<T>(a: seq<T>, b: seq<T>, c: seq<T>)
    ensures a + (b + c) == (a + b) + c
  {
  }

  lemma {:induction false} FlattenAppend<T>(a: seq<seq<T>>, b: seq<seq<T>>)
    ensures Flatten(a + b) == Flatten(a) + Flatten(b)
  {
    if a == [] {
      assert a + b == b;
    } else {
      assert (a + b)[1..] == a[1..] + b;
      FlattenAppend(a[1..], b);
    }
  }

  lemma FlattenSnoc<T>(a: seq<seq<T>>, x: seq<T>)
    ensures Flatten(a + [x]) == Flatten(a) + x
  {
    FlattenAppend(a, [x]);
    assert Flatten([x]) == x + Flatten<T>([]) == x;
  }

  lemma FlattenTake<T>(a: seq<seq<T>>, i: nat)
    requires i < |a|
    ensures Flatten(a[..i + 1]) == Flatten(a[..i]) + a[i]
  {
    FlattenSnoc(a[..i], a[i]);
    assert a[..i] + [a[i]] == a[..i + 1];
  }

  lemma {:induction false} FlattenLength<T>(parts: seq<seq<T>>, size: nat)
    requires forall k :: 0 <= k < |parts| ==> |parts[k]| == size
    ensures |Flatten(parts)| == |parts| * size
  {
    if parts != [] {
      FlattenLength(parts[1..], size);
      MulAdd(1, |parts| - 1, size);
    }
  }

  /** Parts of one length lie at multiples of that length. */
  lemma FlattenUniform<T>(parts: seq<seq<T>>, size: nat, i: nat)
    requires forall k :: 0 <= k < |parts| ==> |parts[k]| == size
    requires i < |parts|
    ensures i * size <= (i + 1) * size <= |Flatten(parts)|
    ensures Flatten(parts)[i * size..(i + 1) * size] == parts[i]
  {
    var before, after := parts[..i], parts[i + 1..];
    FlattenLength(before, size);
    MulAdd(i, 1, size);
    assert parts == before + [parts[i]] + after;
    FlattenSnoc(before, parts[i]);
    FlattenAppend(before + [parts[i]], after);
  }

  lemma MulMonotone(b: nat, x: int, y: int)
    requires x <= y
    ensures b * x <= b * y
  {
  }

  lemma MulAdd(a: int, b: int, x: int)
    ensures (a + b) * x == a * x + b * x
  {
  }

  lemma DivUnique(a: int, b: int, q: int, r: int)
    requires b > 0 && 0 <= r < b && a == b * q + r
    ensures a / b == q && a % b == r
  {
    var k := a / b;
    assert a == b * k + a % b;
    MulMonotone(b, q + 1, Max(k, q + 1));
    MulMonotone(b, k + 1, Max(q, k + 1));
  }

  /** The ceiling c of a/b is the one number with b*(c-1) < a <= b*c. */
  lemma CeilDivBounds(a: nat, b: nat)
    requires b > 0
    ensures a <= b * CeilDiv(a, b) < a + b
    ensures a > 0 ==> CeilDiv(a, b) > 0
  {
    var c := CeilDiv(a, b);
    assert a + b - 1 == b * c + (a + b - 1) % b;
  }

  lemma CeilDivUnique(a: nat, b: nat, c: nat)
    requires b > 0 && a <= b * c < a + b
    ensures CeilDiv(a, b) == c
  {
    DivUnique(a + b - 1, b, c, a + b - 1 - b * c);
  }

  lemma CeilDivStep(a: nat, b: nat)
    requires 0 < b <= a
    ensures CeilDiv(a, b) == CeilDiv(a - b, b) + 1
  {
    var c := CeilDiv(a - b, b);
    CeilDivBounds(a - b, b);
    MulAdd(c, 1, b);
    CeilDivUnique(a, b, c + 1);
  }

  /** Taking one batch of b, or all that is left, lowers the ceiling by one. */
  lemma CeilDivBatch(a: nat, b: nat)
    requires a > 0 && b > 0
    ensures CeilDiv(a, b) == 1 + CeilDiv(a - Min(b, a), b)
  {
    if b <= a {
      CeilDivStep(a, b);
    } else {
      CeilDivUnique(a, b, 1);
      CeilDivUnique(0, b, 0);
    }
  }

  /** The ceiling is the least multiplier that reaches. */
  lemma CeilDivLeast(a: nat, b: nat, c: nat)
    requires b > 0 && a <= b * c
    ensures CeilDiv(a, b) <= c
  {
    CeilDivBounds(a, b);
    if c < CeilDiv(a, b) {
      MulMonotone(b, c + 1, CeilDiv(a, b));
      MulAdd(c, 1, b);
    }
  }

  /** At most `cap` items of `size` fit into `limit`. */
  predicate Capacity(size: nat, limit: nat, cap: nat) {
    0 < size && 0 < cap && cap * size <= limit < cap * size + size
  }

  lemma CapacityIsQuotient(size: nat, limit: nat)
    requires 0 < size <= limit
    ensures Capacity(size, limit, limit / size)
  {
    var q := limit / size;
    assert limit == size * q + limit % size;
  }

  /** k items fit exactly when k is at most the capacity. */
  lemma FitsIff(k: nat, size: nat, limit: nat, cap: nat)
    requires Capacity(size, limit, cap)
    ensures k * size <= limit <==> k <= cap
  {
    if k <= cap {
      MulMonotone(size, k, cap);
    } else {
      MulMonotone(size, cap + 1, k);
      MulAdd(cap, 1, size);
    }
  }

  predicate Distinct<T(==)>(s: seq<T>) {
    forall i, j :: 0 <= i < j < |s| ==> s[i] != s[j]
  }
}
