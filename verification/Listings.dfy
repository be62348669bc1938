/** The paged listings, over the tables: the objects of a bucket, and the parts of an upload. */
module Listings {
  import opened Base
  import opened Ordering
  import opened Paging
  import opened Schema
  import opened Multipart

  // ---------------------------------------------------------------------
  // The order of keys
  // ---------------------------------------------------------------------

  /** Comparison of text, character by character. */
  predicate Before(a: string, b: string) {
    b != [] && (a == [] || a[0] < b[0] || (a[0] == b[0] && Before(a[1..], b[1..])))
  }

  lemma {:induction false} BeforeIrreflexive(a: string)
    ensures !Before(a, a)
  {
    if a != [] {
      BeforeIrreflexive(a[1..]);
    }
  }

  lemma {:induction false} BeforeTransitive(a: string, b: string, c: string)
    requires Before(a, b) && Before(b, c)
    ensures Before(a, c)
  {
    if a != [] && a[0] == b[0] == c[0] {
      BeforeTransitive(a[1..], b[1..], c[1..]);
    }
  }

  lemma {:induction false} BeforeTotal(a: string, b: string)
    ensures Before(a, b) || a == b || Before(b, a)
  {
    if a != [] && b != [] && a[0] == b[0] {
      BeforeTotal(a[1..], b[1..]);
      assert a == [a[0]] + a[1..] && b == [b[0]] + b[1..];
    }
  }

  /** Where two texts first differ, the smaller character decides. */
  lemma {:induction false} FirstDifferenceDecides(p: string, x: char, a: string, y: char, b: string)
    requires x < y
    ensures Before(p + [x] + a, p + [y] + b)
  {
    if p != [] {
      var rest := p[1..];
      assert (p + [x] + a)[1..] == rest + [x] + a && (p + [y] + b)[1..] == rest + [y] + b;
      FirstDifferenceDecides(rest, x, a, y, b);
    }
  }

  /** A text sorts before its continuations. */
  lemma {:induction false} PrefixIsBefore(p: string, rest: string)
    requires rest != []
    ensures Before(p, p + rest)
  {
    if p != [] {
      assert (p + rest)[1..] == p[1..] + rest;
      PrefixIsBefore(p[1..], rest);
    }
  }

  /** The texts agree up to i, and there the first has the smaller character. */
  ghost predicate DiffersAt(a: string, b: string, i: nat) {
    i < |a| && i < |b| && a[..i] == b[..i] && a[i] < b[i]
  }

  lemma {:induction false} BeforeDiffers(a: string, b: string)
    requires Before(a, b)
    ensures a < b || exists i: nat :: DiffersAt(a, b, i)
  {
    if a != [] && a[0] == b[0] {
      BeforeDiffers(a[1..], b[1..]);
      if i: nat :| DiffersAt(a[1..], b[1..], i) {
        assert a[..i + 1] == [a[0]] + a[1..][..i] && b[..i + 1] == [b[0]] + b[1..][..i];
        assert DiffersAt(a, b, i + 1);
      } else {
        assert b == [b[0]] + b[1..] && a == [a[0]] + a[1..];
      }
    } else if a != [] {
      assert DiffersAt(a, b, 0);
    }
  }

  /** The order of text: a proper prefix is smaller, and otherwise the first difference decides. */
  lemma BeforeIff(a: string, b: string)
    ensures Before(a, b) <==> a < b || exists i: nat :: DiffersAt(a, b, i)
  {
    if Before(a, b) {
      BeforeDiffers(a, b);
    } else if a < b {
      assert b == a + b[|a|..];
      PrefixIsBefore(a, b[|a|..]);
    } else if i: nat :| DiffersAt(a, b, i) {
      assert a == a[..i] + [a[i]] + a[i + 1..] && b == a[..i] + [b[i]] + b[i + 1..];
      FirstDifferenceDecides(a[..i], a[i], a[i + 1..], b[i], b[i + 1..]);
    }
  }

  /** The keys that sort before this one. */
  function Preceding(keys: set<ObjectKey>, key: string): set<ObjectKey> {
    set x | x in keys && Before(x.key, key)
  }

  function RankOf(keys: set<ObjectKey>): map<ObjectKey, int> {
    map k | k in keys :: |Preceding(keys, k.key)|
  }

  lemma RankOrders(keys: set<ObjectKey>, a: ObjectKey, b: ObjectKey)
    requires a in keys && b in keys && Before(a.key, b.key)
    ensures RankOf(keys)[a] < RankOf(keys)[b]
  {
    BeforeIrreflexive(a.key);
    forall x | x in Preceding(keys, a.key)
      ensures x in Preceding(keys, b.key)
    {
      BeforeTransitive(x.key, a.key, b.key);
    }
    assert a in Preceding(keys, b.key) && a !in Preceding(keys, a.key);
    SubsetSize(Preceding(keys, a.key) + {a}, Preceding(keys, b.key));
  }

  predicate OneBucket(keys: set<ObjectKey>, bucket: string) {
    forall k :: k in keys ==> k.bucket == bucket
  }

  lemma KeysRank(keys: set<ObjectKey>, bucket: string)
    requires OneBucket(keys, bucket)
    ensures Ranked(keys, RankOf(keys))
  {
    var rank := RankOf(keys);
    forall a, b | a in keys && b in keys && rank[a] == rank[b]
      ensures a == b
    {
      BeforeTotal(a.key, b.key);
      if Before(a.key, b.key) {
        RankOrders(keys, a, b);
      } else if Before(b.key, a.key) {
        RankOrders(keys, b, a);
      }
    }
  }

  lemma RankedIsBefore(keys: set<ObjectKey>, bucket: string, a: ObjectKey, b: ObjectKey)
    requires OneBucket(keys, bucket) && a in keys && b in keys && RankOf(keys)[a] < RankOf(keys)[b]
    ensures Before(a.key, b.key)
  {
    BeforeTotal(a.key, b.key);
    if Before(b.key, a.key) {
      RankOrders(keys, b, a);
    }
  }

  // ---------------------------------------------------------------------
  // Listing
  // ---------------------------------------------------------------------

  function KeysIn(t: Tables, bucket: string): set<ObjectKey> {
    set k | k in t.objects && k.bucket == bucket
  }

  predicate InKeyOrder(q: seq<ObjectKey>) {
    forall i, j :: 0 <= i < j < |q| ==> Before(q[i].key, q[j].key)
  }

  /** `ListObjects`, page after page: every key of the bucket that matches and sorts after the start, once, in
      ascending order. From the empty text on, that is every matching key but an empty one. */
  method ListBucket(t: Tables, bucket: string, matches: string -> bool, startAfter: string, max: nat)
    returns (all: seq<ObjectKey>, pages: nat)
    requires max >= 1
    ensures forall k ::
              k in all <==> k in t.objects && k.bucket == bucket && matches(k.key) && Before(startAfter, k.key)
    ensures startAfter == "" ==> forall k ::
              k in all <==> k in t.objects && k.bucket == bucket && matches(k.key) && k.key != ""
    ensures InKeyOrder(all) && pages == Max(1, CeilDiv(|all|, max))
  {
    var keys := KeysIn(t, bucket);
    KeysRank(keys, bucket);
    var selected := (k: ObjectKey) => matches(k.key) && Before(startAfter, k.key);
    all, pages := ListAllMatching(keys, RankOf(keys), selected, max);
    forall i, j | 0 <= i < j < |all|
      ensures Before(all[i].key, all[j].key)
    {
      assert all[i] in all && all[j] in all;
      RankedIsBefore(keys, bucket, all[i], all[j]);
    }
  }

  /** One request, and the marker for the next one: one past the last number seen. */
  method NextParts(parts: set<PartKey>, id: UploadId, max: nat, marker: int, ghost rest: seq<PartKey>)
    returns (page: seq<PartKey>, hasMore: bool, next: int)
    requires max >= 1 && IsListing(rest, PartsOf(parts, id), ByNumber(parts), marker)
    ensures |page| <= |rest| && page == rest[..|page|]
    ensures if hasMore then |page| == max < |rest| && IsListing(rest[max..], PartsOf(parts, id), ByNumber(parts), next)
            else |page| == |rest| <= max
  {
    NumbersRank(parts, id);
    PageAdvances(PartsOf(parts, id), ByNumber(parts), max, marker, rest);
    var r := ListParts(parts, id, max, marker);
    page, hasMore, next := r.0, r.1, marker;
    if hasMore {
      next := page[|page| - 1].number + 1;
    }
  }

  /** Asks `ListParts` for page after page until the listing says there is no more. */
  method ListUploadFrom(parts: set<PartKey>, id: UploadId, max: nat, marker: int, ghost rest: seq<PartKey>)
    returns (all: seq<PartKey>, pages: nat)
    requires max >= 1 && IsListing(rest, PartsOf(parts, id), ByNumber(parts), marker)
    ensures all == rest && pages == PageCount(|rest|, max)
    decreases |rest|
  {
    var page, hasMore, next := NextParts(parts, id, max, marker, rest);
    if hasMore {
      var more, n := ListUploadFrom(parts, id, max, next, rest[max..]);
      all, pages := page + more, 1 + n;
    } else {
      all, pages := page, 1;
    }
  }

  /** `ListParts`, page after page: every part of the upload from `first` on, once, by ascending number. */
  method ListUpload(t: Tables, id: UploadId, max: nat, first: int) returns (all: seq<PartKey>, pages: nat)
    requires max >= 1
    ensures forall p :: p in all <==> p in t.parts && p.upload == id && p.number >= first
    ensures forall i, j :: 0 <= i < j < |all| ==> all[i].number < all[j].number
    ensures pages == Max(1, CeilDiv(|all|, max))
  {
    NumbersRank(t.parts.Keys, id);
    ghost var q := ListingExists(PartsOf(t.parts.Keys, id), ByNumber(t.parts.Keys), first);
    all, pages := ListUploadFrom(t.parts.Keys, id, max, first, q);
    PageCountIs(|q|, max);
    assert forall i :: 0 <= i < |all| ==> all[i] in all;
  }
}
