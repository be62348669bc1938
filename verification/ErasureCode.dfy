/** Cutting data into equal segments, and the erasure code that protects them. */
module ErasureCode {
  import opened Base
  import opened Parity

  // ---------------------------------------------------------------------
  // The code, as a parameter
  // ---------------------------------------------------------------------

  /** A systematic erasure code: which (data count, parity count, segment size) it accepts, the
      parity segments of a list of data segments, and the reconstruction from what is present. */
  datatype Code = Code(
    supports: (nat, nat, nat) -> bool,
    parity: (seq<Bytes>, nat) -> seq<Bytes>,
    rebuild: (seq<Option<Bytes>>, nat, nat) -> Option<seq<Bytes>>)

  predicate Uniform(segments: seq<Bytes>, size: nat) {
    forall i :: 0 <= i < |segments| ==> |segments[i]| == size
  }

  function Codeword(code: Code, data: seq<Bytes>, p: nat): seq<Bytes> {
    data + code.parity(data, p)
  }

  predicate Matches(slots: seq<Option<Bytes>>, word: seq<Bytes>) {
    && |slots| == |word|
    && forall i :: 0 <= i < |slots| && slots[i].Some? ==> slots[i].value == word[i]
  }

  function Present(slots: seq<Option<Bytes>>): (s: set<int>)
    ensures forall i :: i in s <==> 0 <= i < |slots| && slots[i].Some?
  {
    set i | 0 <= i < |slots| && slots[i].Some?
  }

  /** Parity segments are as many and as long as asked for. */
  ghost predicate ShapeOk(code: Code, data: seq<Bytes>, p: nat, size: nat) {
    Uniform(data, size) && code.supports(|data|, p, size) ==>
      |code.parity(data, p)| == p && Uniform(code.parity(data, p), size)
  }

  /** Enough segments of a codeword give it back. */
  ghost predicate RebuildOk(code: Code, data: seq<Bytes>, p: nat, size: nat, slots: seq<Option<Bytes>>) {
    && Uniform(data, size) && code.supports(|data|, p, size)
    && Matches(slots, Codeword(code, data, p)) && |Present(slots)| >= |data|
    ==> code.rebuild(slots, |data|, p) == Some(Codeword(code, data, p))
  }

  /** Any d of the d + p segments determine all of them. */
  ghost predicate IsMDS(code: Code) {
    && (forall data, p: nat, size: nat {:trigger ShapeOk(code, data, p, size)} :: ShapeOk(code, data, p, size))
    && (forall data, p: nat, size: nat, slots {:trigger RebuildOk(code, data, p, size, slots)} ::
          RebuildOk(code, data, p, size, slots))
  }

  lemma CodewordShape(code: Code, data: seq<Bytes>, p: nat, size: nat)
    requires IsMDS(code) && Uniform(data, size) && code.supports(|data|, p, size)
    ensures |Codeword(code, data, p)| == |data| + p && Uniform(Codeword(code, data, p), size)
    ensures Codeword(code, data, p)[..|data|] == data
  {
    assert ShapeOk(code, data, p, size);
  }

  lemma Rebuilds(code: Code, data: seq<Bytes>, p: nat, size: nat, slots: seq<Option<Bytes>>)
    requires IsMDS(code) && Uniform(data, size) && code.supports(|data|, p, size)
    requires Matches(slots, Codeword(code, data, p)) && |Present(slots)| >= |data|
    ensures code.rebuild(slots, |data|, p) == Some(Codeword(code, data, p))
  {
    assert RebuildOk(code, data, p, size, slots);
  }

  // ---------------------------------------------------------------------
  // Segments
  // ---------------------------------------------------------------------

  /** Consecutive slices of `size` bytes, the last one padded with zeros. */
  function Segments(data: Bytes, size: nat): (s: seq<Bytes>)
    requires size > 0
    ensures Uniform(s, size)
  {
    if |data| == 0 then []
    else if |data| <= size then [data + Zeros(size - |data|)]
    else [data[..size]] + Segments(data[size..], size)
  }

  lemma {:induction false} SegmentsCount(data: Bytes, size: nat)
    requires size > 0
    ensures |Segments(data, size)| == CeilDiv(|data|, size)
  {
    if |data| == 0 {
      CeilDivUnique(0, size, 0);
    } else if |data| <= size {
      CeilDivUnique(|data|, size, 1);
    } else {
      SegmentsCount(data[size..], size);
      CeilDivStep(|data|, size);
    }
  }

  /** Gluing the segments back together gives the data, up to the padding. */
  lemma {:induction false} SegmentsRestore(data: Bytes, size: nat)
    requires size > 0
    ensures |Flatten(Segments(data, size))| >= |data|
    ensures Flatten(Segments(data, size))[..|data|] == data
  {
    if |data| == 0 {
    } else if |data| <= size {
      var padded := data + Zeros(size - |data|);
      assert Flatten([padded]) == padded + Flatten<bv8>([]);
    } else {
      var rest := Segments(data[size..], size);
      SegmentsRestore(data[size..], size);
      assert Segments(data, size)[1..] == rest;
      assert Flatten(Segments(data, size))[..|data|] == data[..size] + Flatten(rest)[..|data| - size];
    }
  }

  lemma SegmentsStep(data: Bytes, size: nat, begin: nat)
    requires size > 0 && begin < |data|
    ensures var end := Min(begin + size, |data|);
            Segments(data[begin..], size)
            == [data[begin..end] + Zeros(size - (end - begin))] + Segments(data[end..], size)
  {
    var end, rest := Min(begin + size, |data|), data[begin..];
    assert rest[..end - begin] == data[begin..end];
    assert rest[end - begin..] == data[end..];
    if |rest| <= size {
      assert data[begin..end] == rest && data[end..] == [];
    } else {
      assert data[begin..end] + Zeros(0) == rest[..size];
    }
  }

  /** Fills the data rows slice by slice. */
  method FillRows(data: Bytes, size: nat) returns (rows: seq<Bytes>)
    requires size > 0
    ensures rows == Segments(data, size)
    ensures |rows| == CeilDiv(|data|, size)
  {
    SegmentsCount(data, size);
    var dataCount := CeilDiv(|data|, size);
    rows := [];
    var i := 0;
    ghost var rest := Segments(data, size);
    assert data[0..] == data;
    while i < dataCount
      invariant 0 <= i <= dataCount
      invariant rest == Segments(data[Min(i * size, |data|)..], size)
      invariant Segments(data, size) == rows + rest
    {
      var begin := i * size;
      var end := Min((i + 1) * size, |data|);
      RowBegins(|data|, size, i);
      SegmentsStep(data, size, begin);
      var row := data[begin..end] + Zeros(size - (end - begin));
      rest := Segments(data[end..], size);
      rows := rows + [row];
      i := i + 1;
    }
    RowBegins(|data|, size, i);
    assert data[|data|..] == [];
  }

  lemma RowBegins(len: nat, size: nat, i: nat)
    requires size > 0
    ensures i < CeilDiv(len, size) <==> i * size < len
    ensures (i + 1) * size == i * size + size
  {
    CeilDivBounds(len, size);
    MulAdd(i, 1, size);
    if i < CeilDiv(len, size) {
      MulMonotone(size, i + 1, CeilDiv(len, size));
    } else {
      MulMonotone(size, CeilDiv(len, size), i);
    }
  }

  /** `encodeParityShards`: the data rows followed by as many parity rows as the tolerance needs. */
  method EncodeParityShards(code: Code, data: Bytes, n: nat, size: nat, f: int)
    returns (rows: Option<seq<Bytes>>, dataCount: nat)
    requires n > 0 && f < n && size > 0
    ensures dataCount == |Segments(data, size)| == CeilDiv(|data|, size)
    ensures rows.Some? <==> code.supports(dataCount, NeededParity(n, dataCount, f), size)
    ensures rows.Some? ==> rows.value == Codeword(code, Segments(data, size), NeededParity(n, dataCount, f))
  {
    SegmentsCount(data, size);
    dataCount := CeilDiv(|data|, size);
    var parityCount := GetShardParityCount(n, dataCount, f);
    if !code.supports(dataCount, parityCount, size) {
      return None, dataCount;
    }
    var filled := FillRows(data, size);
    return Some(filled + code.parity(filled, parityCount)), dataCount;
  }
}

/** An instance: the code with at most one parity segment, the exclusive or of the data. */
module XorCode {
  import opened Base
  import opened ErasureCode

  /** The exclusive or of byte k over all segments. */
  function Column(segments: seq<Bytes>, k: nat): bv8
    requires forall i :: 0 <= i < |segments| ==> k < |segments[i]|
  {
    if segments == [] then 0 else segments[0][k] ^ Column(segments[1..], k)
  }

  function XorAll(segments: seq<Bytes>, size: nat): Bytes
    requires Uniform(segments, size)
  {
    seq(size, k requires 0 <= k < size => Column(segments, k))
  }

  function FirstHole(slots: seq<Option<Bytes>>): (h: nat)
    ensures h <= |slots| && (h < |slots| ==> slots[h].None?)
    ensures forall i :: 0 <= i < h ==> slots[i].Some?
  {
    if slots == [] || slots[0].None? then 0 else 1 + FirstHole(slots[1..])
  }

  function Values(slots: seq<Option<Bytes>>): seq<Bytes>
    requires forall i :: 0 <= i < |slots| ==> slots[i].Some?
  {
    seq(|slots|, i requires 0 <= i < |slots| => slots[i].value)
  }

  function Parity(data: seq<Bytes>, p: nat): seq<Bytes> {
    if p == 0 || data == [] || !Uniform(data, |data[0]|) then [] else [XorAll(data, |data[0]|)]
  }

  function Rebuild(slots: seq<Option<Bytes>>, d: nat, p: nat): Option<seq<Bytes>> {
    var h := FirstHole(slots);
    if h == |slots| then Some(Values(slots))
    else
      var after := slots[h + 1..];
      if FirstHole(after) < |after| then None
      else
        var rest := Values(slots[..h]) + Values(after);
        if rest == [] || !Uniform(rest, |rest[0]|) then None
        else Some(Values(slots[..h]) + [XorAll(rest, |rest[0]|)] + Values(after))
  }

  function Xor(): Code {
    Code((d, p, size) => d > 0 && p <= 1, Parity, Rebuild)
  }

  lemma {:induction false} ColumnAppend(a: seq<Bytes>, b: seq<Bytes>, k: nat)
    requires forall i :: 0 <= i < |a| ==> k < |a[i]|
    requires forall i :: 0 <= i < |b| ==> k < |b[i]|
    ensures Column(a + b, k) == Column(a, k) ^ Column(b, k)
  {
    if a == [] {
      assert a + b == b;
    } else {
      assert (a + b)[1..] == a[1..] + b;
      ColumnAppend(a[1..], b, k);
    }
  }

  /** Missing at most `m` segments means at most `m` holes, for m = 0 and m = 1. */
  lemma FewHoles(slots: seq<Option<Bytes>>, h: nat, i: nat)
    requires h < |slots| && i < |slots| && slots[h].None? && slots[i].None?
    ensures |Present(slots)| < |slots|
    ensures h != i ==> |Present(slots)| + 1 < |slots|
  {
    var all := Interval(0, |slots|);
    IntervalSize(0, |slots|);
    SubsetSize(Present(slots), all - {h, i});
  }

  /** The exclusive or of all but one segment of a codeword is that segment. */
  lemma MissingIsXorOfRest(data: seq<Bytes>, size: nat, h: nat)
    requires data != [] && Uniform(data, size) && h <= |data|
    ensures var word := data + [XorAll(data, size)];
            var rest := word[..h] + word[h + 1..];
            Uniform(rest, size) && XorAll(rest, size) == word[h]
  {
    var x := XorAll(data, size);
    var word := data + [x];
    var rest := word[..h] + word[h + 1..];
    forall k | 0 <= k < size
      ensures Column(rest, k) == word[h][k]
    {
      MissingByte(data, x, h, k);
    }
  }

  lemma MissingByte(data: seq<Bytes>, x: Bytes, h: nat, k: nat)
    requires h <= |data| && k < |x| && forall i :: 0 <= i < |data| ==> k < |data[i]|
    requires x[k] == Column(data, k)
    ensures var word := data + [x];
            Column(word[..h] + word[h + 1..], k) == word[h][k]
  {
    var word := data + [x];
    ColumnSplit(word, h, k);
    ColumnAppend(word[..h], word[h + 1..], k);
    assert word[..|data|] == data && word[|data| + 1..] == [];
    ColumnSplit(word, |data|, k);
    Cancel(Column(word[..h], k), word[h][k], Column(word[h + 1..], k), Column(word, k), Column(data, k));
  }

  lemma ColumnSplit(word: seq<Bytes>, h: nat, k: nat)
    requires h < |word| && forall i :: 0 <= i < |word| ==> k < |word[i]|
    ensures Column(word, k) == Column(word[..h], k) ^ (word[h][k] ^ Column(word[h + 1..], k))
  {
    ColumnAppend(word[..h], word[h..], k);
    assert word[..h] + word[h..] == word;
    assert word[h..][1..] == word[h + 1..];
  }

  lemma Cancel(a: bv8, x: bv8, b: bv8, word: bv8, data: bv8)
    requires word == a ^ (x ^ b) && word == data ^ (data ^ 0)
    ensures a ^ b == x
  {
  }

  /** The hypothesis on the code is not vacuous: the single-parity code meets it. */
  lemma XorIsMDS()
    ensures IsMDS(Xor())
  {
    var code := Xor();
    forall data: seq<Bytes>, p: nat, size: nat, slots: seq<Option<Bytes>> |
      && Uniform(data, size) && code.supports(|data|, p, size)
      && Matches(slots, Codeword(code, data, p)) && |Present(slots)| >= |data|
      ensures code.rebuild(slots, |data|, p) == Some(Codeword(code, data, p))
    {
      RebuildsWord(data, p, size, slots);
    }
  }

  lemma RebuildsWord(data: seq<Bytes>, p: nat, size: nat, slots: seq<Option<Bytes>>)
    requires data != [] && p <= 1 && Uniform(data, size)
    requires Matches(slots, data + Parity(data, p)) && |Present(slots)| >= |data|
    ensures Rebuild(slots, |data|, p) == Some(data + Parity(data, p))
  {
    var word := data + Parity(data, p);
    var h := FirstHole(slots);
    if h == |slots| {
      assert Values(slots) == word;
    } else {
      FewHoles(slots, h, h);
      forall i | 0 <= i < |slots| && i != h
        ensures slots[i].Some?
      {
        if slots[i].None? {
          FewHoles(slots, h, i);
        }
      }
      MissingIsXorOfRest(data, size, h);
      assert Values(slots[..h]) == word[..h];
      assert Values(slots[h + 1..]) == word[h + 1..];
      assert word == word[..h] + [word[h]] + word[h + 1..];
    }
  }
}
