/** ORDER BY: listing a finite set by an integer rank that tells its elements apart. */
module Ordering {

  predicate Ranked<K(!new)>(s: set<K>, rank: map<K, int>) {
    && s <= rank.Keys
    && forall a, b :: a in s && b in s && rank[a] == rank[b] ==> a == b
  }

  /** Strictly ascending in rank. */
  predicate Ascending<K>(q: seq<K>, rank: map<K, int>) {
    && (forall i :: 0 <= i < |q| ==> q[i] in rank)
    && forall i, j :: 0 <= i < j < |q| ==> rank[q[i]] < rank[q[j]]
  }

  lemma {:induction false} LeastExists<K>(s: set<K>, rank: map<K, int>)
    requires s != {} && s <= rank.Keys
    ensures exists m :: m in s && forall x :: x in s ==> rank[m] <= rank[x]
  {
    var a :| a in s;
    if s == {a} {
      assert forall x :: x in s ==> rank[a] <= rank[x];
    } else {
      var rest := s - {a};
      LeastExists(rest, rank);
      var m :| m in rest && forall x :: x in rest ==> rank[m] <= rank[x];
      var least := if rank[a] <= rank[m] then a else m;
      assert forall x :: x in s ==> x == a || x in rest;
      assert forall x :: x in s ==> rank[least] <= rank[x];
    }
  }

  function Least<K(!new)>(s: set<K>, rank: map<K, int>): (m: K)
    requires s != {} && Ranked(s, rank)
    ensures m in s && forall x :: x in s ==> rank[m] <= rank[x]
  {
    LeastExists(s, rank);
    var m :| m in s && forall x :: x in s ==> rank[m] <= rank[x];
    m
  }

  function Sort<K(!new)>(s: set<K>, rank: map<K, int>): (q: seq<K>)
    requires Ranked(s, rank)
    ensures |q| == |s| && forall x :: x in q <==> x in s
    decreases |s|
  {
    if s == {} then [] else var m := Least(s, rank); [m] + Sort(s - {m}, rank)
  }

  lemma AscendingCons<K>(m: K, q: seq<K>, rank: map<K, int>)
    requires m in rank && Ascending(q, rank) && forall x :: x in q ==> rank[m] < rank[x]
    ensures Ascending([m] + q, rank)
  {
  }

  lemma {:induction false} SortAscends<K(!new)>(s: set<K>, rank: map<K, int>)
    requires Ranked(s, rank)
    ensures Ascending(Sort(s, rank), rank)
    decreases |s|
  {
    if s != {} {
      var m := Least(s, rank);
      SortAscends(s - {m}, rank);
      AscendingCons(m, Sort(s - {m}, rank), rank);
    }
  }

  lemma SameHead<K>(p: seq<K>, q: seq<K>, rank: map<K, int>)
    requires Ascending(p, rank) && Ascending(q, rank) && p != [] && q != []
    requires p[0] in q && q[0] in p
    ensures p[0] == q[0]
  {
    var i :| 0 <= i < |q| && q[i] == p[0];
    var j :| 0 <= j < |p| && p[j] == q[0];
  }

  lemma TailElements<K(!new)>(q: seq<K>, rank: map<K, int>)
    requires Ascending(q, rank) && q != []
    ensures Ascending(q[1..], rank)
    ensures forall x :: x in q[1..] <==> x in q && x != q[0]
  {
  }

  /** There is only one ascending listing of the same elements. */
  lemma {:induction false} AscendingIsUnique<K(!new)>(p: seq<K>, q: seq<K>, rank: map<K, int>)
    requires Ascending(p, rank) && Ascending(q, rank)
    requires forall x :: x in p <==> x in q
    ensures p == q
  {
    assert |p| > 0 ==> p[0] in p;
    assert |q| > 0 ==> q[0] in q;
    if p != [] && q != [] {
      SameHead(p, q, rank);
      TailElements(p, rank);
      TailElements(q, rank);
      AscendingIsUnique(p[1..], q[1..], rank);
      assert p == [p[0]] + p[1..] && q == [q[0]] + q[1..];
    }
  }

  lemma SortIsUnique<K(!new)>(q: seq<K>, s: set<K>, rank: map<K, int>)
    requires Ranked(s, rank) && Ascending(q, rank)
    requires forall x :: x in q <==> x in s
    ensures Sort(s, rank) == q
  {
    SortAscends(s, rank);
    AscendingIsUnique(Sort(s, rank), q, rank);
  }
}
