/** Range reads: streaming a slice of an object out of its chunks. */
module RangeRead {
  import opened Base
  import opened Layout
  import opened Backends
  import opened Chunks
  import opened Schema
  import opened ObjectStore
  import opened Refinement
  import opened Promises
  import RH = RangeHeader

  // ---------------------------------------------------------------------
  // The range
  // ---------------------------------------------------------------------

  /** `normalizeRange`: the half-open range to read. An end of 0 stands for the whole object. */
  function Normalize(total: int, begin: int, end: int): Option<(int, int)> {
    if begin < 0 then None
    else if begin > total then None
    else
      var stop := if end == 0 then total else end;
      if stop < begin || stop > total then None else Some((begin, stop))
  }

  // ---------------------------------------------------------------------
  // The stream
  // ---------------------------------------------------------------------

  /** What the chunk stream delivers: the bytes before the first chunk that cannot be read. */
  datatype Delivery = Delivery(bytes: Bytes, complete: bool)

  /** `CollectChunksStream` */
  function Deliver(sys: System, blobs: Blobs, down: set<BackendId>, chunks: seq<Chunk>,
                   kind: CompressionType): Delivery {
    if chunks == [] then Delivery([], true)
    else
      match ReadChunk(sys, blobs, down, chunks[0], kind)
      case None => Delivery([], false)
      case Some(piece) =>
        var rest := Deliver(sys, blobs, down, chunks[1..], kind);
        Delivery(piece + rest.bytes, rest.complete)
  }

  /** The response body, and whether the stream ended normally or with an error. */
  datatype Body = Body(bytes: Bytes, clean: bool)

  /** Bytes begin to end of what is delivered. A stream that ends early ends the body without an error;
      one that breaks does so only if the range reaches that far. */
  function Cut(d: Delivery, begin: nat, length: nat): Body {
    if begin + length <= |d.bytes| then Body(d.bytes[begin..begin + length], true)
    else Body(d.bytes[Min(begin, |d.bytes|)..], d.complete)
  }

  function Prepend(bytes: Bytes, b: Body): Body {
    Body(bytes + b.bytes, b.clean)
  }

  /** A piece that is discarded as a whole. */
  lemma CutDropped(piece: Bytes, rest: Delivery, skip: nat, left: nat)
    requires |piece| <= skip
    ensures Cut(Delivery(piece + rest.bytes, rest.complete), skip, left) == Cut(rest, skip - |piece|, left)
  {
    var all := piece + rest.bytes;
    if skip + left <= |all| {
      assert all[skip..skip + left] == rest.bytes[skip - |piece|..skip - |piece| + left];
    } else {
      assert all[Min(skip, |all|)..] == rest.bytes[Min(skip - |piece|, |rest.bytes|)..];
    }
  }

  /** A piece in which the range ends. */
  lemma CutInside(piece: Bytes, rest: Delivery, skip: nat, left: nat)
    requires skip + left <= |piece|
    ensures Cut(Delivery(piece + rest.bytes, rest.complete), skip, left) == Body(piece[skip..skip + left], true)
  {
    assert (piece + rest.bytes)[skip..skip + left] == piece[skip..skip + left];
  }

  /** A piece that the range goes beyond. */
  lemma CutThrough(piece: Bytes, rest: Delivery, skip: nat, left: nat)
    requires skip < |piece| < skip + left
    ensures Cut(Delivery(piece + rest.bytes, rest.complete), skip, left)
         == Prepend(piece[skip..], Cut(rest, 0, left - (|piece| - skip)))
  {
    var all, more := piece + rest.bytes, left - (|piece| - skip);
    if skip + left <= |all| {
      assert all[skip..skip + left] == piece[skip..] + rest.bytes[0..more];
    } else {
      assert all[skip..] == piece[skip..] + rest.bytes[0..];
    }
  }

  /** The part of a piece that the range wants. */
  function Wanted(piece: Bytes, skip: nat, left: nat): Bytes {
    var drop := Min(skip, |piece|);
    piece[drop..drop + Min(left, |piece| - drop)]
  }

  /** The range continues behind the piece. */
  ghost predicate Continues(piece: Bytes, rest: Delivery, skip: nat, left: nat) {
    var part := Wanted(piece, skip, left);
    && |part| <= left
    && Cut(Delivery(piece + rest.bytes, rest.complete), skip, left)
       == Prepend(part, Cut(rest, skip - Min(skip, |piece|), left - |part|))
  }

  lemma ContinuesBefore(piece: Bytes, rest: Delivery, skip: nat, left: nat)
    requires |piece| <= skip
    ensures Continues(piece, rest, skip, left)
  {
    CutDropped(piece, rest, skip, left);
    assert Wanted(piece, skip, left) == [];
    var b := Cut(rest, skip - |piece|, left);
    assert [] + b.bytes == b.bytes;
  }

  lemma ContinuesInside(piece: Bytes, rest: Delivery, skip: nat, left: nat)
    requires skip < |piece| && skip + left <= |piece|
    ensures Continues(piece, rest, skip, left)
  {
    CutInside(piece, rest, skip, left);
    assert Wanted(piece, skip, left) == piece[skip..skip + left];
    assert Cut(rest, 0, 0) == Body([], true);
    assert piece[skip..skip + left] + [] == piece[skip..skip + left];
  }

  lemma CutPiece(piece: Bytes, rest: Delivery, skip: nat, left: nat)
    ensures Continues(piece, rest, skip, left)
  {
    if |piece| <= skip {
      ContinuesBefore(piece, rest, skip, left);
    } else if skip + left <= |piece| {
      ContinuesInside(piece, rest, skip, left);
    } else {
      CutThrough(piece, rest, skip, left);
    }
  }

  /** What is delivered, and what is left of it behind the first chunk. */
  lemma NextDelivery(sys: System, blobs: Blobs, down: set<BackendId>, chunks: seq<Chunk>, kind: CompressionType,
                     d: Delivery)
    returns (rest: Delivery)
    requires chunks != [] && d == Deliver(sys, blobs, down, chunks, kind)
    ensures match ReadChunk(sys, blobs, down, chunks[0], kind)
            case None => d == Delivery([], false)
            case Some(piece) =>
              rest == Deliver(sys, blobs, down, chunks[1..], kind)
              && d == Delivery(piece + rest.bytes, rest.complete)
  {
    rest := Deliver(sys, blobs, down, chunks[1..], kind);
  }

  lemma CopyEnds(d: Delivery, skip: nat, left: nat)
    requires skip + left == 0 || d == Delivery([], true)
    ensures Cut(d, skip, left) == Body([], true)
  {
  }

  lemma CopyBreaks(skip: nat, left: nat)
    requires skip + left > 0
    ensures Cut(Delivery([], false), skip, left) == Body([], false)
  {
  }

  /** Discards `skip` bytes, then passes on `left` bytes, reading no further than needed. */
  method CopyRange(store: BlobStore, sys: System, down: set<BackendId>, chunks: seq<Chunk>, kind: CompressionType,
                   skip: nat, left: nat, ghost d: Delivery)
    returns (body: Body)
    requires d == Deliver(sys, store.blobs, down, chunks, kind)
    ensures body == Cut(d, skip, left)
    decreases |chunks|
  {
    if skip + left == 0 || chunks == [] {
      CopyEnds(d, skip, left);
      return Body([], true);
    }
    ghost var rest := NextDelivery(sys, store.blobs, down, chunks, kind, d);
    var piece := CollectChunk(store, sys, down, chunks[0], kind);
    if piece.None? {
      CopyBreaks(skip, left);
      return Body([], false);
    }
    CutPiece(piece.value, rest, skip, left);
    var part, dropped := Wanted(piece.value, skip, left), Min(skip, |piece.value|);
    assert Cut(d, skip, left) == Prepend(part, Cut(rest, skip - dropped, left - |part|));
    body := CopyRange(store, sys, down, chunks[1..], kind, skip - dropped, left - |part|, rest);
    body := Prepend(part, body);
  }

  /** `streamRangeFromChunks` */
  method StreamRange(store: BlobStore, sys: System, down: set<BackendId>, chunks: seq<Chunk>, kind: CompressionType,
                     total: nat, begin: int, end: int)
    returns (r: Option<Body>)
    ensures r == Streaming(sys, store.blobs, down, chunks, kind, total, begin, end)
  {
    var range := Normalize(total, begin, end);
    if range.None? {
      return None;
    }
    var start, stop := range.value.0, range.value.1;
    ghost var d := Deliver(sys, store.blobs, down, chunks, kind);
    var body := CopyRange(store, sys, down, chunks, kind, start, stop - start, d);
    return Some(body);
  }

  function Streaming(sys: System, blobs: Blobs, down: set<BackendId>, chunks: seq<Chunk>, kind: CompressionType,
                     total: nat, begin: int, end: int): Option<Body> {
    match Normalize(total, begin, end)
    case None => None
    case Some(range) => Some(Cut(Deliver(sys, blobs, down, chunks, kind), range.0, range.1 - range.0))
  }

  /** The stream delivers everything exactly when the collector can read every chunk. */
  lemma {:induction false} DeliversAll(sys: System, blobs: Blobs, down: set<BackendId>, chunks: seq<Chunk>,
                                       kind: CompressionType)
    ensures ReadChunks(sys, blobs, down, chunks, kind)
         == var d := Deliver(sys, blobs, down, chunks, kind); if d.complete then Some(d.bytes) else None
    decreases |chunks|
  {
    if chunks != [] {
      DeliversAll(sys, blobs, down, chunks[1..], kind);
    }
  }

  // ---------------------------------------------------------------------
  // GetObject
  // ---------------------------------------------------------------------

  datatype Response =
    | Whole(contentLength: int, body: Body)
    | Partial(contentLength: int, contentRange: string, body: Body)
    | InvalidRange
    | InternalError

  /** GetObject's handling of the Range header, for an object row and its chunks. */
  method ServeObject(store: BlobStore, sys: System, down: set<BackendId>, row: ObjectRow, chunks: seq<Chunk>,
                     header: string)
    returns (r: Response)
    ensures r == Serving(sys, store.blobs, down, row, chunks, header)
  {
    if header == "" {
      var body := StreamRange(store, sys, down, chunks, row.compression.kind, row.size, 0, 0);
      return if body.None? then InternalError else Whole(row.size, body.value);
    }
    var range := RH.Parse(header);
    if range.None? || !RH.InBounds(range.value, row.size) {
      return InvalidRange;
    }
    var start, end := range.value.start, range.value.end;
    var body := StreamRange(store, sys, down, chunks, row.compression.kind, row.size, start, end);
    return if body.None? then InternalError
           else Partial(end - start, RH.ContentRange(start, end, row.size), body.value);
  }

  function Serving(sys: System, blobs: Blobs, down: set<BackendId>, row: ObjectRow, chunks: seq<Chunk>,
                   header: string): Response {
    if header == "" then
      match Streaming(sys, blobs, down, chunks, row.compression.kind, row.size, 0, 0)
      case None => InternalError
      case Some(body) => Whole(row.size, body)
    else
      match RH.Accepted(header, row.size)
      case None => InvalidRange
      case Some(range) =>
        match Streaming(sys, blobs, down, chunks, row.compression.kind, row.size, range.start, range.end)
        case None => InternalError
        case Some(body) => Partial(range.end - range.start, RH.ContentRange(range.start, range.end, row.size), body)
  }

  /** What a response must be for an object with these contents. */
  ghost predicate Correct(r: Response, data: Bytes, header: string) {
    match r
    case Whole(length, body) => header == "" && body == Body(data, true) && length == |data|
    case Partial(length, contentRange, body) =>
      && header != ""
      && RH.Parse(contentRange).Some?
      && var range := RH.Parse(contentRange).value;
      && 0 <= range.start < range.end <= |data| && range.total == |data|
      && RH.AsksFor(header, range.start, range.end - 1)
      && body == Body(data[range.start..range.end], true) && length == |body.bytes|
    case InvalidRange =>
      header != "" && forall first: nat, last: nat :: first <= last < |data| ==> !RH.AsksFor(header, first, last)
    case InternalError => false
  }

  lemma StreamsSlice(sys: System, blobs: Blobs, down: set<BackendId>, chunks: seq<Chunk>, kind: CompressionType,
                     data: Bytes, begin: nat, end: nat)
    requires ReadChunks(sys, blobs, down, chunks, kind) == Some(data) && begin < end <= |data|
    ensures Streaming(sys, blobs, down, chunks, kind, |data|, begin, end) == Some(Body(data[begin..end], true))
  {
    DeliversAll(sys, blobs, down, chunks, kind);
  }

  lemma StreamsWhole(sys: System, blobs: Blobs, down: set<BackendId>, chunks: seq<Chunk>, kind: CompressionType,
                     data: Bytes)
    requires ReadChunks(sys, blobs, down, chunks, kind) == Some(data)
    ensures Streaming(sys, blobs, down, chunks, kind, |data|, 0, 0) == Some(Body(data, true))
  {
    DeliversAll(sys, blobs, down, chunks, kind);
    assert data[0..|data|] == data;
  }

  lemma RefusedAsksForNothing(header: string, size: nat)
    requires size < 0x8000_0000_0000_0000 && RH.Accepted(header, size).None?
    ensures forall first: nat, last: nat :: first <= last < size ==> !RH.AsksFor(header, first, last)
  {
    forall first: nat, last: nat | first <= last < size
      ensures !RH.AsksFor(header, first, last)
    {
      RH.AcceptedIff(header, size, first, last + 1);
    }
  }

  lemma StreamsRange(sys: System, blobs: Blobs, down: set<BackendId>, chunks: seq<Chunk>, kind: CompressionType,
                     total: nat, begin: nat, end: nat)
    requires begin < end <= total
    ensures Streaming(sys, blobs, down, chunks, kind, total, begin, end)
         == Some(Cut(Deliver(sys, blobs, down, chunks, kind), begin, end - begin))
  {
  }

  /** A range that is accepted is served from the stream of that range. */
  lemma AcceptedServes(sys: System, blobs: Blobs, down: set<BackendId>, row: ObjectRow, chunks: seq<Chunk>,
                       header: string, start: nat, end: nat)
    requires header != "" && RH.Takes(header, row.size, start, end) && start < end <= row.size
    ensures var body := Cut(Deliver(sys, blobs, down, chunks, row.compression.kind), start, end - start);
            Serving(sys, blobs, down, row, chunks, header)
            == Partial(end - start, RH.ContentRange(start, end, row.size), body)
  {
    var body := Cut(Deliver(sys, blobs, down, chunks, row.compression.kind), start, end - start);
    StreamsRange(sys, blobs, down, chunks, row.compression.kind, row.size, start, end);
    ServingAccepted(sys, blobs, down, row, chunks, header, start, end, body);
  }

  lemma ServesPartially(sys: System, blobs: Blobs, down: set<BackendId>, row: ObjectRow, chunks: seq<Chunk>,
                        header: string, data: Bytes, start: nat, end: nat)
    requires ReadChunks(sys, blobs, down, chunks, row.compression.kind) == Some(data)
    requires row.size == |data| < 0x8000_0000_0000_0000 && header != "" && RH.Takes(header, row.size, start, end)
    ensures start < end <= |data| && RH.AsksFor(header, start, end - 1)
    ensures Serving(sys, blobs, down, row, chunks, header)
         == Partial(end - start, RH.ContentRange(start, end, |data|), Body(data[start..end], true))
  {
    RH.AcceptedIff(header, row.size, start, end);
    StreamsSlice(sys, blobs, down, chunks, row.compression.kind, data, start, end);
    ServingAccepted(sys, blobs, down, row, chunks, header, start, end, Body(data[start..end], true));
  }

  lemma ServingAccepted(sys: System, blobs: Blobs, down: set<BackendId>, row: ObjectRow, chunks: seq<Chunk>,
                        header: string, start: nat, end: nat, body: Body)
    requires header != "" && RH.Takes(header, row.size, start, end) && end > 0
    requires Streaming(sys, blobs, down, chunks, row.compression.kind, row.size, start, end) == Some(body)
    ensures Serving(sys, blobs, down, row, chunks, header)
         == Partial(end - start, RH.ContentRange(start, end, row.size), body)
  {
  }

  lemma PartialIsCorrect(data: Bytes, header: string, start: nat, end: nat)
    requires start < end <= |data| < 0x8000_0000_0000_0000 && header != "" && RH.AsksFor(header, start, end - 1)
    ensures Correct(Partial(end - start, RH.ContentRange(start, end, |data|), Body(data[start..end], true)), data,
                    header)
  {
    RH.ContentRangeRoundTrip(start, end, |data|);
  }

  lemma ServesRange(sys: System, blobs: Blobs, down: set<BackendId>, row: ObjectRow, chunks: seq<Chunk>, header: string,
                    data: Bytes, start: nat, end: nat)
    requires ReadChunks(sys, blobs, down, chunks, row.compression.kind) == Some(data)
    requires row.size == |data| < 0x8000_0000_0000_0000 && header != "" && RH.Takes(header, row.size, start, end)
    ensures Correct(Serving(sys, blobs, down, row, chunks, header), data, header)
  {
    ServesPartially(sys, blobs, down, row, chunks, header, data, start, end);
    PartialIsCorrect(data, header, start, end);
  }

  /** Every response to every Range header is correct, for an object that can be read. */
  lemma ServesCorrectly(sys: System, blobs: Blobs, down: set<BackendId>, row: ObjectRow, chunks: seq<Chunk>,
                        header: string, data: Bytes)
    requires ReadChunks(sys, blobs, down, chunks, row.compression.kind) == Some(data)
    requires row.size == |data| < 0x8000_0000_0000_0000
    ensures Correct(Serving(sys, blobs, down, row, chunks, header), data, header)
  {
    if header == "" {
      StreamsWhole(sys, blobs, down, chunks, row.compression.kind, data);
    } else if RH.Accepted(header, row.size).None? {
      RefusedAsksForNothing(header, row.size);
    } else {
      var range := RH.Accepted(header, row.size).value;
      RH.AcceptedIff(header, row.size, range.start, range.end);
      ServesRange(sys, blobs, down, row, chunks, header, data, range.start, range.end);
    }
  }

  lemma AcceptedIsServed(sys: System, blobs: Blobs, down: set<BackendId>, row: ObjectRow, chunks: seq<Chunk>,
                         header: string, data: Bytes, range: RH.Range)
    requires ReadChunks(sys, blobs, down, chunks, row.compression.kind) == Some(data) && row.size == |data|
    requires header != "" && RH.Accepted(header, row.size) == Some(range) && 0 <= range.start < range.end <= |data|
    ensures Serving(sys, blobs, down, row, chunks, header)
         == Partial(range.end - range.start, RH.ContentRange(range.start, range.end, row.size),
                    Body(data[range.start..range.end], true))
  {
    StreamsSlice(sys, blobs, down, chunks, row.compression.kind, data, range.start, range.end);
  }

  /** A request for bytes first to last of an object that can be read. */
  lemma RequestServed(sys: System, blobs: Blobs, down: set<BackendId>, row: ObjectRow, chunks: seq<Chunk>,
                      data: Bytes, first: nat, last: nat)
    requires ReadChunks(sys, blobs, down, chunks, row.compression.kind) == Some(data)
    requires row.size == |data| < 0x8000_0000_0000_0000
    ensures Serving(sys, blobs, down, row, chunks, RH.Request("=", first, last))
         == if first <= last < |data|
            then Partial(last + 1 - first, RH.ContentRange(first, last + 1, |data|),
                         Body(data[first..last + 1], true))
            else InvalidRange
  {
    var header := RH.Request("=", first, last);
    RH.RequestAccepted("=", first, last, row.size);
    if first <= last < |data| {
      AcceptedIsServed(sys, blobs, down, row, chunks, header, data, RH.Range(first, last + 1, -1));
    }
  }

  /** In every reachable state, with any tolerated set of backends down, every request for a stored object is
      answered correctly, unless a delete of it gave up. */
  lemma RequestsAreServed(env: Env, steps: seq<Step>, down: set<BackendId>, k: ObjectKey, header: string)
    requires Legal(env, NO_STORE, steps) && |down| <= Max(0, env.sys.tolerance)
    requires var spec := Promised(env, NO_STORE, NO_SPEC, steps);
             k in spec.objects && k !in spec.damaged && |spec.objects[k].data| < 0x8000_0000_0000_0000
    ensures var s, spec := Final(env, NO_STORE, steps), Promised(env, NO_STORE, NO_SPEC, steps);
            && k in s.tables.objects
            && Correct(Serving(env.sys, s.blobs, down, s.tables.objects[k], ChunksOf(s.tables, OfObject(k)), header),
                       spec.objects[k].data, header)
  {
    ReadsArePromised(env, steps, down, k);
    ReadsNeverLie(env, steps, down, k);
    var s, spec := Final(env, NO_STORE, steps), Promised(env, NO_STORE, NO_SPEC, steps);
    ServesCorrectly(env.sys, s.blobs, down, s.tables.objects[k], ChunksOf(s.tables, OfObject(k)), header,
                    spec.objects[k].data);
  }

  // ---------------------------------------------------------------------
  // When too much is missing
  // ---------------------------------------------------------------------

  /** Part of the data from its beginning, and all of it if the stream is complete. */
  ghost predicate Prefix(d: Delivery, data: Bytes) {
    d.bytes <= data && (d.complete ==> d.bytes == data)
  }

  lemma {:induction false} DeliversPrefix(sys: System, blobs: Blobs, less: Blobs, down: set<BackendId>,
                                          chunks: seq<Chunk>, pieces: seq<Bytes>)
    requires HeldAs(sys, blobs, chunks, pieces) && Keeps(less, blobs)
    ensures Prefix(Deliver(sys, less, down, chunks, KIND), Flatten(pieces))
    decreases |chunks|
  {
    if chunks != [] {
      assert Holds(sys, blobs, chunks[0], KIND, pieces[0]);
      assert ReadChunk(sys, less, down, chunks[0], KIND)
          == if Enough(less, down, chunks[0]) then Some(pieces[0]) else None;
      RestHeld(sys, blobs, chunks, pieces);
      DeliversPrefix(sys, blobs, less, down, chunks[1..], pieces[1..]);
    }
  }

  lemma RestHeld(sys: System, blobs: Blobs, chunks: seq<Chunk>, pieces: seq<Bytes>)
    requires HeldAs(sys, blobs, chunks, pieces) && chunks != []
    ensures HeldAs(sys, blobs, chunks[1..], pieces[1..])
  {
    forall i | 0 <= i < |chunks| - 1
      ensures Holds(sys, blobs, chunks[1..][i], KIND, pieces[1..][i])
    {
      assert Holds(sys, blobs, chunks[i + 1], KIND, pieces[i + 1]);
    }
  }

  /** The body is the wanted slice, or breaks off in it with an error. */
  ghost predicate Honest(b: Body, wanted: Bytes) {
    b.bytes <= wanted && (b.clean ==> b.bytes == wanted)
  }

  lemma CutIsHonest(d: Delivery, data: Bytes, begin: nat, length: nat)
    requires Prefix(d, data) && begin + length <= |data|
    ensures Honest(Cut(d, begin, length), data[begin..begin + length])
  {
    var from := Min(begin, |d.bytes|);
    if begin + length <= |d.bytes| {
      assert d.bytes[begin..begin + length] == data[begin..begin + length];
    } else {
      var got, wanted := d.bytes[from..], data[begin..begin + length];
      assert |got| <= |wanted| && forall i :: 0 <= i < |got| ==> got[i] == wanted[i];
      assert got == wanted[..|got|];
    }
  }

  /** The stream never contains a wrong byte, and ends without an error only if it is complete. */
  ghost predicate Truthful(r: Response, data: Bytes, header: string) {
    match r
    case Whole(length, body) => header == "" && length == |data| && Honest(body, data)
    case Partial(length, contentRange, body) =>
      && RH.Parse(contentRange).Some?
      && var range := RH.Parse(contentRange).value;
      && 0 <= range.start < range.end <= |data| && RH.AsksFor(header, range.start, range.end - 1)
      && length == range.end - range.start && Honest(body, data[range.start..range.end])
    case InvalidRange =>
      header != "" && forall first: nat, last: nat :: first <= last < |data| ==> !RH.AsksFor(header, first, last)
    case InternalError => false
  }

  lemma PartialIsTruthful(sys: System, blobs: Blobs, down: set<BackendId>, row: ObjectRow, chunks: seq<Chunk>,
                          header: string, data: Bytes, start: nat, end: nat)
    requires Prefix(Deliver(sys, blobs, down, chunks, row.compression.kind), data)
    requires row.size == |data| < 0x8000_0000_0000_0000 && header != "" && RH.Takes(header, row.size, start, end)
    ensures Truthful(Serving(sys, blobs, down, row, chunks, header), data, header)
  {
    RH.AcceptedIff(header, row.size, start, end);
    AcceptedServes(sys, blobs, down, row, chunks, header, start, end);
    CutIsHonest(Deliver(sys, blobs, down, chunks, row.compression.kind), data, start, end - start);
    PartialTruth(data, header, start, end,
                 Cut(Deliver(sys, blobs, down, chunks, row.compression.kind), start, end - start));
  }

  lemma PartialTruth(data: Bytes, header: string, start: nat, end: nat, body: Body)
    requires start < end <= |data| < 0x8000_0000_0000_0000 && RH.AsksFor(header, start, end - 1)
    requires Honest(body, data[start..end])
    ensures Truthful(Partial(end - start, RH.ContentRange(start, end, |data|), body), data, header)
  {
    RH.ContentRangeRoundTrip(start, end, |data|);
  }

  lemma ServesTruthfully(sys: System, blobs: Blobs, down: set<BackendId>, row: ObjectRow, chunks: seq<Chunk>,
                         header: string, data: Bytes)
    requires Prefix(Deliver(sys, blobs, down, chunks, row.compression.kind), data)
    requires row.size == |data| < 0x8000_0000_0000_0000
    ensures Truthful(Serving(sys, blobs, down, row, chunks, header), data, header)
  {
    if header == "" {
      CutIsHonest(Deliver(sys, blobs, down, chunks, row.compression.kind), data, 0, |data|);
      assert data[0..|data|] == data;
    } else if RH.Accepted(header, row.size).None? {
      RefusedAsksForNothing(header, row.size);
    } else {
      var range := RH.Accepted(header, row.size).value;
      RH.AcceptedIff(header, row.size, range.start, range.end);
      PartialIsTruthful(sys, blobs, down, row, chunks, header, data, range.start, range.end);
    }
  }

  /** In every reachable state, whichever backends are down and whatever a delete that gave up has removed: the
      stream behind a response never has a wrong byte. What the handler sends after a stream that breaks is another
      matter. */
  lemma StreamsNeverLie(env: Env, steps: seq<Step>, down: set<BackendId>, k: ObjectKey, header: string)
    requires Legal(env, NO_STORE, steps)
    requires var spec := Promised(env, NO_STORE, NO_SPEC, steps);
             k in spec.objects && |spec.objects[k].data| < 0x8000_0000_0000_0000
    ensures var s, spec := Final(env, NO_STORE, steps), Promised(env, NO_STORE, NO_SPEC, steps);
            && k in s.tables.objects
            && Truthful(Serving(env.sys, s.blobs, down, s.tables.objects[k], ChunksOf(s.tables, OfObject(k)), header),
                        spec.objects[k].data, header)
  {
    var s, spec := Final(env, NO_STORE, steps), Promised(env, NO_STORE, NO_SPEC, steps);
    var full, lists := ReachableRelated(env, steps);
    ListedHeld(env, s, full, lists, spec, k);
    var chunks, data := lists[OfObject(k)].chunks, spec.objects[k].data;
    var pieces :| HeldAs(env.sys, full, chunks, pieces) && Flatten(pieces) == data;
    DeliversPrefix(env.sys, full, s.blobs, down, chunks, pieces);
    ServesTruthfully(env.sys, s.blobs, down, s.tables.objects[k], chunks, header, data);
  }
}
