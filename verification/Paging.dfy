/** LIMIT max + 1, and walking through a listing page by page. */
module Paging {
  import opened Base
  import opened Ordering

  /** Fetch one row more than asked for; its presence says that there is more, and it is dropped. */
  function Limited<T>(rows: seq<T>, max: nat): (r: (seq<T>, bool))
    ensures r.1 <==> |rows| > max
    ensures r.0 == rows[..Min(max, |rows|)]
  {
    var got := rows[..Min(max + 1, |rows|)];
    var hasMore := |got| == max + 1;
    (if |got| > 0 && hasMore then got[..|got| - 1] else got, hasMore)
  }

  // ---------------------------------------------------------------------
  // ListObjects: pages by OFFSET (page - 1) * max
  // ---------------------------------------------------------------------

  /** One page of the matching rows, in key order. Pages count from 1. */
  function ObjectPage<T>(rows: seq<T>, page: nat, max: nat): (seq<T>, bool)
    requires page >= 1
  {
    Limited(rows[Min((page - 1) * max, |rows|)..], max)
  }

  /** How many requests it takes to see that there is no more. */
  ghost function PageCount(rows: nat, max: nat): nat
    requires max >= 1
  {
    if rows <= max then 1 else 1 + PageCount(rows - max, max)
  }

  lemma {:induction false} PageCountIs(rows: nat, max: nat)
    requires max >= 1
    ensures PageCount(rows, max) == Max(1, CeilDiv(rows, max))
  {
    if rows <= max {
      CeilDivUnique(rows, max, if rows == 0 then 0 else 1);
    } else {
      PageCountIs(rows - max, max);
      CeilDivStep(rows, max);
      CeilDivBounds(rows - max, max);
    }
  }

  /** Asks for page after page until the listing says there is no more. */
  method ListAllObjects<T>(rows: seq<T>, max: nat) returns (all: seq<T>, pages: nat)
    requires max >= 1
    ensures all == rows
    ensures pages == Max(1, CeilDiv(|rows|, max))
  {
    all, pages := [], 0;
    var hasMore := true;
    while hasMore
      invariant hasMore ==> |all| == pages * max && |all| <= |rows|
      invariant |all| <= |rows| && all == rows[..|all|]
      invariant hasMore ==> PageCount(|rows|, max) == pages + PageCount(|rows| - |all|, max)
      invariant !hasMore ==> |all| == |rows| && PageCount(|rows|, max) == pages
      decreases |rows| - |all|, hasMore
    {
      var r := ObjectPage(rows, pages + 1, max);
      MulAdd(pages, 1, max);
      assert rows[|all|..][..|r.0|] == rows[|all|..|all| + |r.0|];
      all, hasMore, pages := all + r.0, r.1, pages + 1;
    }
    PageCountIs(|rows|, max);
  }

  /** The keys that match, in key order: each once. The order of keys is given by their rank. */
  method ListAllMatching<K(!new)>(keys: set<K>, rank: map<K, int>, matches: K -> bool, max: nat)
    returns (all: seq<K>, pages: nat)
    requires max >= 1 && Ranked(keys, rank)
    ensures Ascending(all, rank) && forall k :: k in all <==> k in keys && matches(k)
    ensures pages == Max(1, CeilDiv(|all|, max))
  {
    var matching := set k | k in keys && matches(k);
    SortAscends(matching, rank);
    var rows := Sort(matching, rank);
    all, pages := ListAllObjects(rows, max);
  }

  // ---------------------------------------------------------------------
  // ListParts: pages by first part number
  // ---------------------------------------------------------------------

  /** The rows whose number is at least `first`. */
  function From<K(!new)>(rows: set<K>, number: map<K, int>, first: int): set<K>
    requires rows <= number.Keys
  {
    set x | x in rows && number[x] >= first
  }

  /** WHERE part_number >= first ORDER BY part_number ASC */
  function Listed<K(!new)>(rows: set<K>, number: map<K, int>, first: int): seq<K>
    requires Ranked(rows, number)
  {
    Sort(From(rows, number, first), number)
  }

  /** q lists the rows with a number from `first` on, in ascending order. */
  ghost predicate IsListing<K(!new)>(q: seq<K>, rows: set<K>, number: map<K, int>, first: int) {
    && rows <= number.Keys && Ascending(q, number)
    && forall x :: x in q <==> x in rows && number[x] >= first
  }

  lemma ListingExists<K(!new)>(rows: set<K>, number: map<K, int>, first: int) returns (q: seq<K>)
    requires Ranked(rows, number)
    ensures IsListing(q, rows, number, first)
  {
    q := Listed(rows, number, first);
    SortAscends(From(rows, number, first), number);
  }

  /** In an ascending listing, what follows position n - 1 is what ranks above it. */
  lemma Above<K>(q: seq<K>, number: map<K, int>, n: nat, x: K)
    requires Ascending(q, number) && 0 < n <= |q|
    ensures x in q[n..] <==> x in q && number[x] > number[q[n - 1]]
  {
    if x in q[n..] {
      var i :| n <= i < |q| && q[i] == x;
    }
    if x in q {
      var i :| 0 <= i < |q| && q[i] == x;
      assert i >= n ==> q[n..][i - n] == x;
    }
  }

  lemma AscendingTail<K>(q: seq<K>, number: map<K, int>, n: nat)
    requires Ascending(q, number) && n <= |q|
    ensures Ascending(q[n..], number)
  {
  }

  /** ... LIMIT max + 1 */
  function NumberPage<K(!new)>(rows: set<K>, number: map<K, int>, max: nat, first: int): (seq<K>, bool)
    requires Ranked(rows, number)
  {
    Limited(Listed(rows, number, first), max)
  }

  /** Dropping n rows of the listing leaves the listing from the next marker on. */
  lemma RestLists<K(!new)>(q: seq<K>, rows: set<K>, number: map<K, int>, first: int, n: nat)
    requires IsListing(q, rows, number, first) && 0 < n <= |q|
    ensures IsListing(q[n..], rows, number, number[q[n - 1]] + 1)
  {
    assert q[n - 1] in q;
    AscendingTail(q, number, n);
    forall x
      ensures x in q[n..] <==> x in rows && number[x] >= number[q[n - 1]] + 1
    {
      Above(q, number, n, x);
    }
  }

  lemma PageOf<K(!new)>(q: seq<K>, rows: set<K>, number: map<K, int>, max: nat, first: int)
    requires Ranked(rows, number) && IsListing(q, rows, number, first)
    ensures NumberPage(rows, number, max, first) == Limited(q, max)
  {
    SortIsUnique(q, From(rows, number, first), number);
  }

  /** A page is the next part of the listing. If there is more, what is left is the listing from one past the page's
      last number on. */
  lemma PageAdvances<K(!new)>(rows: set<K>, number: map<K, int>, max: nat, marker: int, rest: seq<K>)
    requires max >= 1 && Ranked(rows, number) && IsListing(rest, rows, number, marker)
    ensures var (page, hasMore) := NumberPage(rows, number, max, marker);
            && |page| <= |rest| && page == rest[..|page|]
            && if hasMore then
                 && |page| == max < |rest| && page[max - 1] in number
                 && IsListing(rest[max..], rows, number, number[page[max - 1]] + 1)
               else |page| == |rest| <= max
  {
    PageOf(rest, rows, number, max, marker);
    if |rest| > max {
      assert rest[max - 1] in rest;
      RestLists(rest, rows, number, marker, max);
    }
  }
}
