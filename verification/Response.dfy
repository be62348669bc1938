/** What a client receives: the stream of the object, and what the handler sends when the stream breaks. */
module Response {
  import opened Base
  import opened Layout
  import opened Backends
  import opened Chunks
  import opened Schema
  import opened Representation
  import opened ObjectStore
  import opened Refinement
  import opened Promises
  import opened RangeRead
  import RH = RangeHeader
  import Concurrent
  import Damage
  import Examples
  import Multipart
  import Sharding

  // ---------------------------------------------------------------------
  // The connection
  // ---------------------------------------------------------------------

  function Code(c: char): (b: bv8)
    requires c < '\U{80}'
    ensures b as nat == c as nat
  {
    Multipart.Byte(c as nat)
  }

  /** ASCII text as bytes. */
  function Ascii(text: string): (b: Bytes)
    requires forall i :: 0 <= i < |text| ==> text[i] < '\U{80}'
    ensures |b| == |text| && forall i :: 0 <= i < |b| ==> b[i] as nat == text[i] as nat
  {
    seq(|text|, i requires 0 <= i < |text| => Code(text[i]))
  }

  const XML_DECLARATION: Bytes := Ascii("<?xml version=\"1.0\" encoding=\"UTF-8\"?>\n")

  /** The response writer of the web server, once a length has been declared. */
  class Connection {
    const declared: nat
    var sent: Bytes
    var written: nat // counted even when refused

    constructor (declared: nat)
      ensures this.declared == declared && sent == [] && written == 0
    {
      this.declared, sent, written := declared, [], 0;
    }

    /** A write that would pass the declared length is refused as a whole. */
    method Write(data: Bytes) returns (ok: bool)
      modifies this
      ensures written == old(written) + |data| && ok == (written <= declared)
      ensures sent == if ok then old(sent) + data else old(sent)
    {
      written := written + |data|;
      ok := written <= declared;
      if ok {
        sent := sent + data;
      }
    }

    /** `WriteResponseStream`: copies the stream until it ends or breaks. */
    method CopyStream(body: Body) returns (ok: bool)
      modifies this
      ensures written == old(written) + |body.bytes|
      ensures sent == if written <= declared then old(sent) + body.bytes else old(sent)
      ensures ok <==> body.clean && written <= declared
    {
      ok := Write(body.bytes);
      ok := ok && body.clean;
    }

    /** `writeS3Error`: whether anything was sent before does not matter to it. */
    method SendError(document: Bytes)
      modifies this
      ensures written == old(written) + |XML_DECLARATION| + |document|
      ensures sent == old(sent) + Fitting(declared - old(written), document)
    {
      var _ := Write(XML_DECLARATION);
      var _ := Write(document);
    }

    /** The end of `GetObject`: the stream, and an error document if it breaks. */
    method SendObject(body: Body, document: Bytes)
      requires sent == [] && written == 0 && |body.bytes| <= declared
      modifies this
      ensures sent == Sent(declared, body, document)
    {
      var ok := CopyStream(body);
      if !ok {
        SendError(document);
      }
    }
  }

  /** What of an error document fits into what is left of the declared length. */
  function Fitting(left: int, document: Bytes): Bytes {
    if left < |XML_DECLARATION| then []
    else if left < |XML_DECLARATION| + |document| then XML_DECLARATION
    else XML_DECLARATION + document
  }

  /** All bytes of the response's body. */
  function Sent(length: nat, body: Body, document: Bytes): Bytes {
    body.bytes + if body.clean then [] else Fitting(length - |body.bytes|, document)
  }

  /** Nothing but the stream is sent if and only if the stream does not break or the XML declaration does not fit
      into what it still owes. */
  lemma NothingElseIff(length: nat, body: Body, document: Bytes)
    requires |body.bytes| <= length
    ensures Sent(length, body, document) == body.bytes <==> body.clean || length - |body.bytes| < |XML_DECLARATION|
  {
    var more := if body.clean then [] else Fitting(length - |body.bytes|, document);
    assert |Sent(length, body, document)| == |body.bytes| + |more|;
    if more == [] {
      assert body.bytes + more == body.bytes;
    }
  }

  /** A response whose stream has broken has the declared length, as if it were complete, if and only if what was
      owed is exactly the declaration, or exactly the declaration and the document. */
  lemma LooksCompleteIff(length: nat, body: Body, document: Bytes)
    requires |body.bytes| < length && !body.clean
    ensures var left := length - |body.bytes|;
            |Sent(length, body, document)| == length
            <==> left == |XML_DECLARATION| || left == |XML_DECLARATION| + |document|
  {
    assert |Sent(length, body, document)| == |body.bytes| + |Fitting(length - |body.bytes|, document)|;
  }

  /** The declaration is this text, 39 bytes long. */
  lemma DeclarationIs()
    ensures var text := "<?xml version=\"1.0\" encoding=\"UTF-8\"?>\n";
            |XML_DECLARATION| == |text| == 39 && forall i :: 0 <= i < 39 ==> XML_DECLARATION[i] as nat == text[i] as nat
  {
  }

  /** What follows a stream that breaks is the declaration and the document, each as a whole or not at all. */
  lemma ThenTheDocument(length: nat, body: Body, document: Bytes)
    requires |body.bytes| <= length && !body.clean
    ensures var sent := Sent(length, body, document);
            && body.bytes <= sent && |sent| <= length
            && sent[|body.bytes|..] <= XML_DECLARATION + document
            && (|XML_DECLARATION| + |document| <= length - |body.bytes| ==>
                  sent == body.bytes + XML_DECLARATION + document)
  {
    var more := Fitting(length - |body.bytes|, document);
    assert Sent(length, body, document)[|body.bytes|..] == more;
    AppendAssociates(body.bytes, XML_DECLARATION, document);
  }

  // ---------------------------------------------------------------------
  // When the stream breaks
  // ---------------------------------------------------------------------

  /** Where piece i begins. */
  function Offset(pieces: seq<Bytes>, i: nat): nat {
    if i == 0 || pieces == [] then 0 else |pieces[0]| + Offset(pieces[1..], i - 1)
  }

  /** Of every chunk that begins before `end`, enough segments can be read. */
  ghost predicate EnoughBefore(blobs: Blobs, down: set<BackendId>, chunks: seq<Chunk>, pieces: seq<Bytes>, end: nat) {
    forall i: nat {:trigger Enough(blobs, down, chunks[i])} ::
      i < |chunks| && Offset(pieces, i) < end ==> Enough(blobs, down, chunks[i])
  }

  lemma EnoughSplits(blobs: Blobs, down: set<BackendId>, chunks: seq<Chunk>, pieces: seq<Bytes>, end: nat)
    requires |chunks| == |pieces| > 0
    ensures EnoughBefore(blobs, down, chunks, pieces, end)
       <==> (end == 0 || Enough(blobs, down, chunks[0]))
            && EnoughBefore(blobs, down, chunks[1..], pieces[1..], end - Min(end, |pieces[0]|))
  {
    var n, rest := |pieces[0]|, chunks[1..];
    if EnoughBefore(blobs, down, chunks, pieces, end) {
      assert Offset(pieces, 0) == 0;
      forall i: nat | i < |rest| && Offset(pieces[1..], i) < end - Min(end, n)
        ensures Enough(blobs, down, rest[i])
      {
        assert Offset(pieces, i + 1) == n + Offset(pieces[1..], i);
        assert rest[i] == chunks[i + 1];
      }
    }
    if (end == 0 || Enough(blobs, down, chunks[0])) && EnoughBefore(blobs, down, rest, pieces[1..], end - Min(end, n)) {
      forall i: nat | i < |chunks| && Offset(pieces, i) < end
        ensures Enough(blobs, down, chunks[i])
      {
        if i > 0 {
          assert Offset(pieces, i) == n + Offset(pieces[1..], i - 1);
          assert rest[i - 1] == chunks[i];
        }
      }
    }
  }

  lemma {:induction false} ReachesIff(sys: System, blobs: Blobs, less: Blobs, down: set<BackendId>, chunks: seq<Chunk>,
                                      pieces: seq<Bytes>, end: nat)
    requires HeldAs(sys, blobs, chunks, pieces) && Keeps(less, blobs)
    ensures var d := Deliver(sys, less, down, chunks, KIND);
            d.complete || end <= |d.bytes| <==> EnoughBefore(less, down, chunks, pieces, end)
    decreases |chunks|
  {
    if chunks != [] {
      assert Holds(sys, blobs, chunks[0], KIND, pieces[0]);
      assert ReadChunk(sys, less, down, chunks[0], KIND)
          == if Enough(less, down, chunks[0]) then Some(pieces[0]) else None;
      RestHeld(sys, blobs, chunks, pieces);
      ReachesIff(sys, blobs, less, down, chunks[1..], pieces[1..], end - Min(end, |pieces[0]|));
      EnoughSplits(less, down, chunks, pieces, end);
    }
  }

  /** The stream of a range ends normally if and only if enough can be read of every chunk that begins before the
      end of the range, those before its start included. */
  lemma CleanIff(sys: System, blobs: Blobs, less: Blobs, down: set<BackendId>, chunks: seq<Chunk>, pieces: seq<Bytes>,
                 begin: nat, length: nat)
    requires HeldAs(sys, blobs, chunks, pieces) && Keeps(less, blobs)
    ensures Cut(Deliver(sys, less, down, chunks, KIND), begin, length).clean
       <==> EnoughBefore(less, down, chunks, pieces, begin + length)
  {
    ReachesIff(sys, blobs, less, down, chunks, pieces, begin + length);
  }

  // ---------------------------------------------------------------------
  // Responses in reachable states
  // ---------------------------------------------------------------------

  /** Where the requested range ends. */
  function EndOf(header: string, size: nat): int {
    if header == "" || RH.Accepted(header, size).None? then size else RH.Accepted(header, size).value.end
  }

  /** The body ends normally if and only if enough can be read of every chunk that begins before `end`. */
  ghost predicate BreaksExactly(r: RangeRead.Response, less: Blobs, down: set<BackendId>, chunks: seq<Chunk>,
                                pieces: seq<Bytes>, end: int) {
    r.Whole? || r.Partial? ==> end >= 0 && (r.body.clean <==> EnoughBefore(less, down, chunks, pieces, end))
  }

  lemma PartialBreaks(sys: System, blobs: Blobs, less: Blobs, down: set<BackendId>, row: ObjectRow, chunks: seq<Chunk>,
                      pieces: seq<Bytes>, header: string, start: nat, end: nat)
    requires HeldAs(sys, blobs, chunks, pieces) && Keeps(less, blobs) && row.compression.kind == KIND
    requires header != "" && RH.Takes(header, row.size, start, end) && start < end <= row.size
    ensures BreaksExactly(Serving(sys, less, down, row, chunks, header), less, down, chunks, pieces, end)
  {
    CleanIff(sys, blobs, less, down, chunks, pieces, start, end - start);
    AcceptedServes(sys, less, down, row, chunks, header, start, end);
  }

  lemma ServingBreaks(sys: System, blobs: Blobs, less: Blobs, down: set<BackendId>, row: ObjectRow, chunks: seq<Chunk>,
                      pieces: seq<Bytes>, header: string)
    requires HeldAs(sys, blobs, chunks, pieces) && Keeps(less, blobs) && row.compression.kind == KIND
    requires row.size < 0x8000_0000_0000_0000
    ensures BreaksExactly(Serving(sys, less, down, row, chunks, header), less, down, chunks, pieces,
                          EndOf(header, row.size))
  {
    if header == "" {
      CleanIff(sys, blobs, less, down, chunks, pieces, 0, row.size);
    } else if RH.Accepted(header, row.size).Some? {
      var range := RH.Accepted(header, row.size).value;
      RH.AcceptedIff(header, row.size, range.start, range.end);
      PartialBreaks(sys, blobs, less, down, row, chunks, pieces, header, range.start, range.end);
    }
  }

  /** The response to a request for the object, as the state is. */
  ghost function Answer(env: Env, s: Store, down: set<BackendId>, k: ObjectKey, header: string): RangeRead.Response
    requires k in s.tables.objects
  {
    Serving(env.sys, s.blobs, down, s.tables.objects[k], ChunksOf(s.tables, OfObject(k)), header)
  }

  /** The pieces are the object, cut as its chunks are. */
  ghost predicate CutAs(env: Env, s: Store, k: ObjectKey, data: Bytes, pieces: seq<Bytes>) {
    && Flatten(pieces) == data
    && exists full :: Keeps(s.blobs, full) && HeldAs(env.sys, full, ChunksOf(s.tables, OfObject(k)), pieces)
  }

  lemma ObjectIsCut(env: Env, s: Store, full: Blobs, lists: Lists, spec: Spec, k: ObjectKey)
    returns (pieces: seq<Bytes>)
    requires Related(env, s, full, lists, spec) && k in spec.objects
    ensures k in s.tables.objects && ObjectOk(s.tables.objects[k], spec.objects[k])
    ensures CutAs(env, s, k, spec.objects[k].data, pieces)
  {
    ListedHeld(env, s, full, lists, spec, k);
    var chunks, data := lists[OfObject(k)].chunks, spec.objects[k].data;
    pieces :| HeldAs(env.sys, full, chunks, pieces) && Flatten(pieces) == data;
  }

  /** What is sent for the object: the stream, and nothing else if and only if it does not break or too little of it is
      left for the XML declaration; and it breaks exactly if too little can be read of a chunk that begins before the
      end of the range. */
  ghost predicate SentExactly(env: Env, s: Store, down: set<BackendId>, k: ObjectKey, header: string, document: Bytes,
                              pieces: seq<Bytes>)
    requires k in s.tables.objects
  {
    var r := Answer(env, s, down, k, header);
    r.Whole? || r.Partial? ==>
      && 0 <= r.contentLength && |r.body.bytes| <= r.contentLength
      && BreaksExactly(r, s.blobs, down, ChunksOf(s.tables, OfObject(k)), pieces,
                       EndOf(header, s.tables.objects[k].size))
      && (Sent(r.contentLength, r.body, document) == r.body.bytes
          <==> r.body.clean || r.contentLength - |r.body.bytes| < |XML_DECLARATION|)
  }

  /** After every run, for every request for a stored object, whichever backends are down and whatever is missing. */
  lemma ResponsesAre(env: Env, steps: seq<Step>, down: set<BackendId>, k: ObjectKey, header: string, document: Bytes)
    returns (pieces: seq<Bytes>)
    requires Legal(env, NO_STORE, steps)
    requires var spec := Promised(env, NO_STORE, NO_SPEC, steps);
             k in spec.objects && |spec.objects[k].data| < 0x8000_0000_0000_0000
    ensures var s, data := Final(env, NO_STORE, steps), Promised(env, NO_STORE, NO_SPEC, steps).objects[k].data;
            && k in s.tables.objects && CutAs(env, s, k, data, pieces)
            && Truthful(Answer(env, s, down, k, header), data, header)
            && SentExactly(env, s, down, k, header, document, pieces)
  {
    var s, spec := Final(env, NO_STORE, steps), Promised(env, NO_STORE, NO_SPEC, steps);
    var full, lists := ReachableRelated(env, steps);
    pieces := ObjectIsCut(env, s, full, lists, spec, k);
    StreamsNeverLie(env, steps, down, k, header);
    AnswerIs(env, s, down, k, header, document, spec.objects[k].data, pieces);
  }

  lemma AnswerIs(env: Env, s: Store, down: set<BackendId>, k: ObjectKey, header: string, document: Bytes, data: Bytes,
                 pieces: seq<Bytes>)
    requires k in s.tables.objects && s.tables.objects[k].compression.kind == KIND
    requires s.tables.objects[k].size == |data| < 0x8000_0000_0000_0000 && CutAs(env, s, k, data, pieces)
    requires Truthful(Answer(env, s, down, k, header), data, header)
    ensures SentExactly(env, s, down, k, header, document, pieces)
  {
    var r := Answer(env, s, down, k, header);
    var chunks := ChunksOf(s.tables, OfObject(k));
    var full :| Keeps(s.blobs, full) && HeldAs(env.sys, full, chunks, pieces);
    ServingBreaks(env.sys, full, s.blobs, down, s.tables.objects[k], chunks, pieces, header);
    if r.Whole? || r.Partial? {
      NothingElseIff(r.contentLength, r.body, document);
    }
  }

  // ---------------------------------------------------------------------
  // A response with wrong bytes
  // ---------------------------------------------------------------------

  lemma NothingDelivered(sys: System, blobs: Blobs, less: Blobs, down: set<BackendId>, chunks: seq<Chunk>, data: Bytes)
    requires Held(sys, blobs, chunks, data) && Keeps(less, blobs) && chunks != [] && !Enough(less, down, chunks[0])
    ensures Deliver(sys, less, down, chunks, KIND) == Delivery([], false)
  {
    var pieces :| HeldAs(sys, blobs, chunks, pieces) && Flatten(pieces) == data;
    assert Holds(sys, blobs, chunks[0], KIND, pieces[0]);
    assert ReadChunk(sys, less, down, chunks[0], KIND) == None;
  }

  /** If too little of the first chunk can be read, a request for the whole object is answered with its length, and
      with an XML document instead of its bytes. */
  lemma FirstChunkMissing(sys: System, blobs: Blobs, less: Blobs, down: set<BackendId>, row: ObjectRow,
                          chunks: seq<Chunk>, data: Bytes, document: Bytes)
    requires Held(sys, blobs, chunks, data) && Keeps(less, blobs) && chunks != [] && !Enough(less, down, chunks[0])
    requires row.compression.kind == KIND && row.size == |data| >= |XML_DECLARATION|
    ensures Serving(sys, less, down, row, chunks, "") == Whole(|data|, Body([], false))
    ensures XML_DECLARATION <= Sent(|data|, Body([], false), document)
  {
    NothingDelivered(sys, blobs, less, down, chunks, data);
    assert Sent(|data|, Body([], false), document) == Fitting(|data|, document);
  }

  lemma LostAnswer(env: Env, s: Store, full: Blobs, lists: Lists, spec: Spec, down: set<BackendId>, k: ObjectKey,
                   document: Bytes)
    requires Related(env, s, full, lists, spec) && k in spec.objects && |spec.objects[k].data| >= |XML_DECLARATION|
    requires Damage.FirstGone(s, k)
    ensures var n := |spec.objects[k].data|;
            && k in s.tables.objects && Answer(env, s, down, k, "") == Whole(n, Body([], false))
            && XML_DECLARATION <= Sent(n, Body([], false), document)
  {
    ListedHeld(env, s, full, lists, spec, k);
    var chunks, data := ChunksOf(s.tables, OfObject(k)), spec.objects[k].data;
    Damage.NothingReadable(s.blobs, down, chunks[0]);
    FirstChunkMissing(env.sys, full, s.blobs, down, s.tables.objects[k], chunks, data, document);
  }

  /** One such input, for any data that is long enough and does not itself begin like a document: the data is put, a
      delete gives up, and then the client receives bytes that were never stored, under the length of the object. */
  lemma SomeResponseLies(digest: Bytes -> nat, k: ObjectKey, data: Bytes, down: set<BackendId>, document: Bytes)
    returns (run: seq<Step>)
    requires |XML_DECLARATION| <= |data| <= Sharding.MAX_INT && data[0] != XML_DECLARATION[0]
    ensures var env := Env(Examples.ExampleSystem(), digest);
            && Legal(env, NO_STORE, run)
            && var s, spec := Final(env, NO_STORE, run), Promised(env, NO_STORE, NO_SPEC, run);
            && k in s.tables.objects && k in spec.objects && spec.objects[k].data == data
            && var r := Answer(env, s, down, k, "");
            && r == Whole(|data|, Body([], false))
            && var sent := Sent(|data|, r.body, document); sent != [] && sent[0] != data[0]
  {
    var env := Env(Examples.ExampleSystem(), digest);
    var put, delete := Damage.SomeObjectIsLost(digest, k, data);
    var s := Final(env, NO_STORE, put);
    var spec := Promised(env, NO_STORE, NO_SPEC, put);
    run := put + [delete];
    Concurrent.OneStep(env, s, spec, delete);
    Concurrent.RunsAppend(env, NO_STORE, NO_SPEC, put, [delete]);
    assert PromisedObject(Promised(env, NO_STORE, NO_SPEC, run), k) == Some(data);
    var full, lists := ReachableRelated(env, run);
    var t := Final(env, NO_STORE, run);
    LostAnswer(env, t, full, lists, Promised(env, NO_STORE, NO_SPEC, run), down, k, document);
  }
}
