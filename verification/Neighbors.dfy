/**
 * Neighbourhood queries for node2vec: prepare_neighbor_query and has_neighbor of src/core/graph.hpp,
 * and the acceptance test of src/core/walk.hpp. Probabilities are reals.
 */
module Neighbors {
  import opened Arith
  import opened Bloom
  import opened Csr

  // ----- Sorting one adjacency list -----

  ghost predicate Sorted(s: seq<nat>) {
    forall i, j :: 0 <= i < j < |s| ==> s[i] <= s[j]
  }

  /** Where x belongs in a sorted list. */
  function Place(s: seq<nat>, x: nat): (k: nat)
    requires Sorted(s)
    ensures k <= |s|
    ensures (forall i :: 0 <= i < k ==> s[i] <= x) && (forall i :: k <= i < |s| ==> x <= s[i])
  {
    if s == [] || s[|s| - 1] <= x then |s| else Place(s[..|s| - 1], x)
  }

  function InsertSorted(s: seq<nat>, x: nat): (r: seq<nat>)
    requires Sorted(s)
    ensures Sorted(r) && multiset(r) == multiset(s) + multiset{x} && |r| == |s| + 1
  {
    var k := Place(s, x);
    assert s == s[..k] + s[k..];
    s[..k] + [x] + s[k..]
  }

  /** What std::sort leaves in a list: the same neighbours, in order. */
  function Sort(s: seq<nat>): (r: seq<nat>)
    ensures Sorted(r) && multiset(r) == multiset(s) && |r| == |s|
  {
    if s == [] then []
    else
      assert s == s[..|s| - 1] + [s[|s| - 1]];
      InsertSorted(Sort(s[..|s| - 1]), s[|s| - 1])
  }

  method BinarySearch(s: seq<nat>, x: nat) returns (found: bool)
    requires Sorted(s)
    ensures found <==> x in s
  {
    var lo, hi := 0, |s|;
    while lo < hi
      invariant 0 <= lo <= hi <= |s|
      invariant forall i :: 0 <= i < lo ==> s[i] < x
      invariant forall i :: hi <= i < |s| ==> x <= s[i]
    {
      var mid := (lo + hi) / 2;
      if s[mid] < x {
        lo := mid + 1;
      } else {
        hi := mid;
      }
    }
    found := lo < |s| && s[lo] == x;
    if !found {
      NotThere(s, x, lo);
    }
  }

  lemma NotThere(s: seq<nat>, x: nat, lo: nat)
    requires Sorted(s) && lo <= |s| && (forall i :: 0 <= i < lo ==> s[i] < x) && (lo < |s| ==> x < s[lo])
    ensures x !in s
  {
    forall i | lo <= i < |s|
      ensures x < s[i]
    {
      assert i == lo || s[lo] <= s[i];
    }
  }

  // ----- Preparing the query -----

  /** h is g with the neighbours of each of the first n vertices sorted, and nothing else changed. */
  ghost predicate SortedUpTo(g: Graph, h: Graph, n: nat)
    requires g.Valid()
  {
    && h.Valid() && h.adj == g.adj
    && forall v :: 0 <= v < |g.adj| ==> h.Neighbors(v) == if v < n then Sort(g.Neighbors(v)) else g.Neighbors(v)
  }

  /** Sorting in place one stretch of the edge arrays. */
  method SortList(g: Graph, v: nat) returns (h: Graph)
    requires g.Valid() && ListsApart(g.adj) && v < |g.adj|
    ensures h.Valid() && h.adj == g.adj
    ensures h.Neighbors(v) == Sort(g.Neighbors(v))
    ensures forall u :: 0 <= u < |g.adj| && u != v ==> h.Neighbors(u) == g.Neighbors(u)
  {
    hide Sort;
    var a := g.adj[v];
    assert g.ListOk(a);
    var edges := g.edges[a.socket];
    var sorted := Sort(edges[a.begin..a.begin + a.degree]);
    var changed := edges[..a.begin] + sorted + edges[a.begin + a.degree..];
    h := Graph(g.adj, g.edges[a.socket := changed]);
    assert |sorted| == a.degree && |changed| == |edges|;
    assert g.NeighborsOk(v);
    KeepsRange(g.Neighbors(v), sorted, |g.adj|);
    forall u | 0 <= u < |g.adj|
      ensures h.ListOk(h.adj[u])
    {
      assert g.ListOk(g.adj[u]);
    }
    assert changed[a.begin..a.begin + a.degree] == sorted;
    assert h.Neighbors(v) == sorted && h.NeighborsOk(v);
    forall u | 0 <= u < |g.adj| && u != v
      ensures h.Neighbors(u) == g.Neighbors(u)
    {
      assert g.ListOk(g.adj[u]);
      if g.adj[u].socket == a.socket {
        assert if u < v then Apart(g.adj[u], a) else Apart(a, g.adj[u]);
        SliceOutside(edges, changed, a, g.adj[u]);
      }
    }
    forall u | 0 <= u < |g.adj|
      ensures h.NeighborsOk(u)
    {
      assert g.NeighborsOk(u);
    }
  }

  lemma SliceOutside(s: seq<nat>, t: seq<nat>, a: AdjList, b: AdjList)
    requires |s| == |t| && a.begin + a.degree <= |s| && b.begin + b.degree <= |s|
    requires forall i :: 0 <= i < |s| && !(a.begin <= i < a.begin + a.degree) ==> s[i] == t[i]
    requires Apart(a, b) || Apart(b, a)
    ensures s[b.begin..b.begin + b.degree] == t[b.begin..b.begin + b.degree]
  {
  }

  lemma KeepsRange(s: seq<nat>, r: seq<nat>, n: nat)
    requires multiset(s) == multiset(r)
    requires forall i :: 0 <= i < |s| ==> s[i] < n
    ensures forall i :: 0 <= i < |r| ==> r[i] < n
  {
    forall i | 0 <= i < |r|
      ensures r[i] < n
    {
      assert r[i] in multiset(r);
      assert r[i] in s;
    }
  }

  ghost predicate AllInserted(h: Graph, bf: BloomFilter, n: nat)
    reads bf
  {
    forall u, v :: 0 <= u < n && h.Edge(u, v) ==> Key(u, v) in bf.keys
  }

  /** The graph is ready for queries: lists sorted, every edge in the filter. */
  ghost predicate Ready(h: Graph, bf: BloomFilter)
    reads bf, bf.table
  {
    && h.Valid() && |h.adj| <= TWO32 && bf.Valid()
    && (forall v :: 0 <= v < |h.adj| ==> Sorted(h.Neighbors(v)))
    && AllInserted(h, bf, |h.adj|)
  }

  /** Nothing was inserted but edges. */
  ghost predicate OnlyEdges(h: Graph, bf: BloomFilter)
    reads bf
  {
    forall k :: k in bf.keys ==> IsEdgeKey(h, k)
  }

  ghost predicate IsEdgeKey(h: Graph, k: nat) {
    exists u, v :: h.Edge(u, v) && k == Key(u, v)
  }

  method InsertList(h: Graph, bf: BloomFilter, u: nat)
    requires h.Valid() && |h.adj| <= TWO32 && bf.Valid() && u < |h.adj|
    requires AllInserted(h, bf, u) && OnlyEdges(h, bf)
    modifies bf, bf.table
    ensures bf.Valid() && AllInserted(h, bf, u + 1) && OnlyEdges(h, bf)
  {
    hide BloomFilter.Valid, Key;
    var a := h.adj[u];
    assert h.ListOk(a);
    ghost var ns := h.Neighbors(u);
    assert h.NeighborsOk(u);
    for i := 0 to a.degree
      invariant bf.Valid()
      invariant old(bf.keys) <= bf.keys && OnlyEdges(h, bf)
      invariant forall j :: 0 <= j < i ==> Key(u, ns[j]) in bf.keys
    {
      assert ns[i] == h.edges[a.socket][a.begin + i];
      bf.Insert(u, h.edges[a.socket][a.begin + i]);
      assert h.Edge(u, ns[i]);
      assert IsEdgeKey(h, Key(u, ns[i]));
    }
    forall x, v | 0 <= x < u + 1 && h.Edge(x, v)
      ensures Key(x, v) in bf.keys
    {
      if x == u {
        var j :| 0 <= j < a.degree && ns[j] == v;
        assert Key(u, ns[j]) in bf.keys;
      }
    }
  }

  method PrepareNeighborQuery(g: Graph, edgeNum: nat, asUndirected: bool) returns (h: Graph, bf: BloomFilter)
    requires g.Valid() && ListsApart(g.adj) && |g.adj| <= TWO32
    ensures SortedUpTo(g, h, |g.adj|)
    ensures fresh(bf) && fresh(bf.table) && Ready(h, bf) && OnlyEdges(h, bf)
    ensures CapacityFor(if asUndirected then edgeNum / 2 else edgeNum, bf.bits, bf.table.Length)
  {
    hide Sort, BloomFilter.Valid, Key, CapacityFor;
    h := g;
    for v := 0 to |g.adj|
      invariant SortedUpTo(g, h, v)
    {
      h := SortList(h, v);
    }
    assert forall v :: 0 <= v < |h.adj| ==> Sorted(h.Neighbors(v));
    bf := new BloomFilter(if asUndirected then edgeNum / 2 else edgeNum);
    for u := 0 to |h.adj|
      invariant fresh(bf) && fresh(bf.table)
      invariant bf.Valid() && AllInserted(h, bf, u) && OnlyEdges(h, bf)
    {
      InsertList(h, bf, u);
    }
  }

  /** Sorting the lists changes no edge. */
  lemma SameEdges(g: Graph, h: Graph, u: nat, v: nat)
    requires g.Valid() && SortedUpTo(g, h, |g.adj|)
    ensures g.Edge(u, v) <==> h.Edge(u, v)
  {
    hide Sort;
    if u < |g.adj| {
      var s, t := g.Neighbors(u), h.Neighbors(u);
      assert multiset(s) == multiset(t);
      assert v in s <==> v in multiset(s);
      assert v in t <==> v in multiset(t);
    }
  }

  /** A filter miss answers at once; a hit is settled by searching the sorted list. */
  method HasNeighbor(h: Graph, bf: BloomFilter, src: nat, dst: nat) returns (found: bool)
    requires Ready(h, bf) && src < |h.adj| && dst < |h.adj|
    ensures found <==> h.Edge(src, dst)
  {
    hide BloomFilter.Valid, Key, Hash, Signature, Graph.NeighborsOk;
    assert h.ListOk(h.adj[src]);
    var maybe := bf.Exist(src, dst);
    if !maybe {
      return false;
    }
    var a := h.adj[src];
    found := BinarySearch(h.edges[a.socket][a.begin..a.begin + a.degree], dst);
  }

  // ----- Acceptance -----

  /** node2vec's unnormalised weight of stepping to next when the walker came from prev. */
  ghost function Weight(h: Graph, p: real, q: real, prev: nat, next: nat): real
    requires 0.0 < p && 0.0 < q
  {
    if prev == next then 1.0 / p
    else if h.Edge(prev, next) then 1.0
    else 1.0 / q
  }

  function MinReal(a: real, b: real): real {
    if a <= b then a else b
  }

  function MaxReal(a: real, b: real): real {
    if a <= b then b else a
  }

  /** n2v_upperbound: the rejection test draws below this. */
  function UpperBound(p: real, q: real): (r: real)
    requires 0.0 < p && 0.0 < q
    ensures 1.0 <= r && 1.0 / p <= r && 1.0 / q <= r && (r == 1.0 || r == 1.0 / p || r == 1.0 / q)
  {
    MaxReal(1.0, MaxReal(1.0 / p, 1.0 / q))
  }

  /** The shortcut below min(1, 1/q) saves the query and never changes the verdict. */
  method Accept(h: Graph, bf: BloomFilter, p: real, q: real, prev: nat, next: nat, prob: real) returns (ok: bool)
    requires Ready(h, bf) && prev < |h.adj| && next < |h.adj|
    requires 0.0 < p && 0.0 < q
    ensures ok <==> prob <= Weight(h, p, q, prev, next)
    ensures prev == next ==> (ok <==> prob <= 1.0 / p)
    ensures prev != next && h.Edge(prev, next) ==> (ok <==> prob <= 1.0)
    ensures prev != next && !h.Edge(prev, next) ==> (ok <==> prob <= 1.0 / q)
  {
    hide Ready;
    if prev == next {
      return prob <= 1.0 / p;
    }
    if prob <= MinReal(1.0, 1.0 / q) {
      return true;
    }
    var known := HasNeighbor(h, bf, prev, next);
    var val := if known then 1.0 else 1.0 / q;
    ok := prob <= val;
  }

  /** Every weight lies within the range the test draws from, so each edge is accepted in proportion. */
  lemma WeightWithinBound(h: Graph, p: real, q: real, prev: nat, next: nat)
    requires 0.0 < p && 0.0 < q
    ensures 0.0 < Weight(h, p, q, prev, next) <= UpperBound(p, q)
  {
  }
}
