/** Cutting data into slices of the chunk size. */
module Slices {
  import opened Base

  /** The consecutive slices of `size` bytes, the last one possibly shorter. */
  function Chop(data: Bytes, size: nat): seq<Bytes>
    requires size > 0
  {
    if data == [] then [] else var n := Min(size, |data|); [data[..n]] + Chop(data[n..], size)
  }

  lemma {:induction false} ChopOfFlatten(pieces: seq<Bytes>, size: nat)
    requires size > 0
    requires forall i :: 0 <= i < |pieces| ==> 0 < |pieces[i]| <= size
    requires forall i :: 0 <= i < |pieces| - 1 ==> |pieces[i]| == size
    ensures Chop(Flatten(pieces), size) == pieces
  {
    if |pieces| > 0 {
      var rest := Flatten(pieces[1..]);
      ChopOfFlatten(pieces[1..], size);
      assert (pieces[0] + rest)[..|pieces[0]|] == pieces[0];
      assert (pieces[0] + rest)[|pieces[0]|..] == rest;
      if |pieces| == 1 {
        assert rest == [];
      }
    }
  }

  /** A stream stops reading after whole slices, or at the end of the data. */
  predicate AtBoundary(data: Bytes, size: nat, n: nat)
    requires size > 0
  {
    n <= |data| && (n % size == 0 || n == |data|)
  }

  lemma Multiples(n: nat, size: nat)
    requires size > 0 && n % size == 0
    ensures (n + size) % size == 0 && (n > 0 ==> n >= size && (n - size) % size == 0)
  {
    var q := n / size;
    assert n == size * q;
    MulAdd(q, 1, size);
    DivUnique(n + size, size, q + 1, 0);
    if n > 0 {
      MulMonotone(size, 1, q);
      MulAdd(q, -1, size);
      DivUnique(n - size, size, q - 1, 0);
    }
  }

  lemma ChopStep(data: Bytes, size: nat)
    requires size > 0 && data != []
    ensures var n := Min(size, |data|); Chop(data, size) == [data[..n]] + Chop(data[n..], size)
  {
  }

  /** Cutting at a boundary is cutting before it and after it. */
  lemma {:induction false} ChopSplits(data: Bytes, size: nat, n: nat)
    requires size > 0 && AtBoundary(data, size, n)
    ensures Chop(data, size) == Chop(data[..n], size) + Chop(data[n..], size)
    decreases |data|
  {
    if n == 0 {
      assert data[..0] == [] && data[0..] == data;
    } else if n == |data| {
      assert data[..n] == data && data[n..] == [];
    } else {
      var rest, before := data[size..], data[..n];
      Multiples(n, size);
      ChopSplits(rest, size, n - size);
      ChopStep(data, size);
      ChopStep(before, size);
      assert before[..size] == data[..size] && before[size..] == rest[..n - size];
      assert rest[n - size..] == data[n..];
    }
  }

  lemma ChopOne(piece: Bytes, size: nat)
    requires 0 < |piece| <= size
    ensures Chop(piece, size) == [piece]
  {
    ChopStep(piece, size);
    assert piece[..|piece|] == piece && piece[|piece|..] == [];
  }

  /** One more slice. */
  lemma ChopNext(data: Bytes, size: nat, n: nat)
    requires size > 0 && AtBoundary(data, size, n) && n < |data|
    ensures var upTo := n + Min(size, |data| - n);
            && AtBoundary(data, size, upTo) && data[n..upTo] in Chop(data, size)
            && Chop(data[..upTo], size) == Chop(data[..n], size) + [data[n..upTo]]
  {
    var upTo := n + Min(size, |data| - n);
    var piece, more := data[n..upTo], data[..upTo];
    Multiples(n, size);
    ChopOne(piece, size);
    ChopSplits(more, size, n);
    assert more[..n] == data[..n] && more[n..] == piece;
    ChopSplits(data, size, upTo);
    assert Chop(more, size)[|Chop(data[..n], size)|] == piece;
  }

  lemma {:induction false} ChopJoins(data: Bytes, size: nat)
    requires size > 0
    ensures Flatten(Chop(data, size)) == data
    decreases |data|
  {
    if data != [] {
      var n := Min(size, |data|);
      ChopJoins(data[n..], size);
      assert data[..n] + data[n..] == data;
    }
  }
}
