/**
 * Graph::make of src/core/graph.hpp: new vertex numbers from the dealt order, sockets for partitions,
 * and the place of every adjacency list in its socket's edge array.
 */
module Build {
  import opened Arith
  import opened Options
  import opened Perm
  import opened Buckets
  import opened Partition
  import opened DegreeSort
  import opened Snake
  import opened Csr
  import opened EdgeFill
  import opened Relabel
  import opened Samplers

  // ----- Dealing the hot partitions -----

  ghost predicate PartsFall(degrees: seq<nat>, pBegin: seq<nat>, pEnd: seq<nat>) {
    && |pBegin| == |pEnd|
    && forall p :: 0 <= p < |pBegin| ==> RangeFalls(degrees, pBegin[p], pEnd[p])
  }

  ghost predicate RangeFalls(degrees: seq<nat>, b: nat, e: nat) {
    forall s, t :: b <= s < t < e && t < |degrees| ==> degrees[t] <= degrees[s]
  }

  /** The first `shuffled` partitions, as hands to deal to. */
  lemma {:induction false} TilesAreHands(n: nat, pBegin: seq<nat>, pEnd: seq<nat>, shuffled: nat)
    requires Tiles(n, pBegin, pEnd) && 0 < shuffled <= |pBegin|
    ensures Hands(pEnd[shuffled - 1], pBegin[..shuffled], pEnd[..shuffled])
    ensures 0 < pEnd[shuffled - 1] <= n
  {
    if shuffled < |pBegin| {
      TilesOrdered(n, pBegin, pEnd, shuffled - 1, |pBegin| - 1);
    }
  }

  /** From `from` on, no degree is higher than any before it. */
  ghost predicate FallsFrom(degrees: seq<nat>, from: nat) {
    forall u, v :: 0 <= u <= v < |degrees| && from <= v ==> degrees[v] <= degrees[u]
  }

  /** The first partitions are dealt, and what follows keeps the order that sorting gave it. */
  ghost predicate HotDealt(degrees: seq<nat>, pBegin: seq<nat>, pEnd: seq<nat>, shuffled: nat) {
    && 0 < shuffled <= |pBegin| == |pEnd|
    && SnakeOrder(degrees, pBegin[..shuffled], pEnd[..shuffled]) && FallsFrom(degrees, pEnd[shuffled - 1])
  }

  /** Deals the first partitions and leaves the rest in degree order. */
  method DealPartitions(units: array<VertexUnit>, pBegin: seq<nat>, pEnd: seq<nat>, shuffled: nat)
    requires Tiles(units.Length, pBegin, pEnd) && 0 < shuffled <= |pBegin|
    requires FallingDegrees(units[..])
    modifies units
    ensures multiset(units[..]) == multiset(old(units[..]))
    ensures HotDealt(Degrees(units[..]), pBegin, pEnd, shuffled)
  {
    TilesAreHands(units.Length, pBegin, pEnd, shuffled);
    var n := pEnd[shuffled - 1];
    ghost var before := units[..];
    assert units[..n] == before[..n];
    assert FallingDegrees(units[..n]);
    hide Hands, SnakeOrder;
    SnakeDeal(units, pBegin[..shuffled], pEnd[..shuffled]);
    assert before == before[..n] + before[n..];
    assert units[..] == units[..n] + units[n..];
    assert units[..n] == units[..][..n] && units[n..] == units[..][n..];
    RestFalls(before, units[..], n);
  }

  lemma RestFalls(before: seq<VertexUnit>, units: seq<VertexUnit>, n: nat)
    requires FallingDegrees(before) && |before| == |units| && n <= |units|
    requires units[n..] == before[n..] && multiset(units[..n]) == multiset(before[..n])
    ensures FallsFrom(Degrees(units), n)
  {
    forall u, v | 0 <= u <= v < |units| && n <= v
      ensures units[v].degree <= units[u].degree
    {
      assert units[v] == units[n..][v - n] && before[v] == before[n..][v - n];
      if u < n {
        var k := Find(before[..n], units[..n], u);
        assert before[k] == units[u];
      } else {
        assert units[u] == units[n..][u - n] && before[u] == before[n..][u - n];
      }
    }
  }

  /** Then degrees fall along every partition. */
  lemma PartsFallOf(n: nat, degrees: seq<nat>, pBegin: seq<nat>, pEnd: seq<nat>, shuffled: nat)
    requires Tiles(n, pBegin, pEnd) && |degrees| == n && HotDealt(degrees, pBegin, pEnd, shuffled)
    ensures PartsFall(degrees, pBegin, pEnd)
  {
    hide SnakeOrder;
    forall p | 0 <= p < |pBegin|
      ensures RangeFalls(degrees, pBegin[p], pEnd[p])
    {
      forall s, t | pBegin[p] <= s < t < pEnd[p] && t < |degrees|
        ensures degrees[t] <= degrees[s]
      {
        if p < shuffled {
          HandFalls(degrees, pBegin[..shuffled], pEnd[..shuffled], p, s, t);
        } else if shuffled - 1 < p {
          TilesOrdered(n, pBegin, pEnd, shuffled - 1, p);
        }
      }
    }
  }

  /** Two dealt partitions of one size differ in edges by at most the range of their degrees. */
  lemma EvenlyDealt(adj: seq<AdjList>, pBegin: seq<nat>, pEnd: seq<nat>, shuffled: nat, p: nat, q: nat)
    requires HotDealt(ListDegrees(adj), pBegin, pEnd, shuffled) && p < shuffled && q < shuffled
    requires pBegin[p] < pEnd[p] <= |adj| && pBegin[q] < pEnd[q] <= |adj|
    requires pEnd[p] - pBegin[p] == pEnd[q] - pBegin[q]
    ensures ClosePair(adj, pBegin[p], pEnd[p], pBegin[q], pEnd[q])
  {
    DealtShapes(ListDegrees(adj), pBegin, pEnd, shuffled, p);
    DealtShapes(ListDegrees(adj), pBegin, pEnd, shuffled, q);
    hide *;
    LevelHands(adj, pBegin[..shuffled], pEnd[..shuffled], p, q, pBegin[p], pBegin[q], pEnd[p] - pBegin[p]);
  }

  /** The ranges [x, x') and [y, y') differ in edges by at most the range of their degrees. */
  ghost predicate ClosePair(adj: seq<AdjList>, x: nat, x': nat, y: nat, y': nat)
    requires x < x' <= |adj| && y < y' <= |adj|
  {
    EdgeNum(adj, x, x') - EdgeNum(adj, y, y')
      <= Max(adj[x].degree, adj[y].degree) - Min(adj[x' - 1].degree, adj[y' - 1].degree)
  }

  /** So it is with all pairs of them. */
  ghost predicate AllClose(adj: seq<AdjList>, pBegin: seq<nat>, pEnd: seq<nat>, shuffled: nat) {
    forall p: nat, q: nat :: SameSize(adj, pBegin, pEnd, shuffled, p, q) ==>
      ClosePair(adj, pBegin[p], pEnd[p], pBegin[q], pEnd[q])
  }

  ghost predicate SameSize(adj: seq<AdjList>, pBegin: seq<nat>, pEnd: seq<nat>, shuffled: nat, p: nat, q: nat) {
    && p < shuffled && q < shuffled <= |pBegin| == |pEnd|
    && pBegin[p] < pEnd[p] <= |adj| && pBegin[q] < pEnd[q] <= |adj|
    && pEnd[p] - pBegin[p] == pEnd[q] - pBegin[q]
  }

  lemma AllEvenlyDealt(adj: seq<AdjList>, pBegin: seq<nat>, pEnd: seq<nat>, shuffled: nat)
    requires HotDealt(ListDegrees(adj), pBegin, pEnd, shuffled)
    ensures AllClose(adj, pBegin, pEnd, shuffled)
  {
    hide HotDealt, ClosePair;
    forall p: nat, q: nat | SameSize(adj, pBegin, pEnd, shuffled, p, q)
      ensures ClosePair(adj, pBegin[p], pEnd[p], pBegin[q], pEnd[q])
    {
      EvenlyDealt(adj, pBegin, pEnd, shuffled, p, q);
    }
  }

  lemma DealtShapes(degrees: seq<nat>, pBegin: seq<nat>, pEnd: seq<nat>, shuffled: nat, p: nat)
    requires HotDealt(degrees, pBegin, pEnd, shuffled) && p < shuffled
    ensures |pBegin[..shuffled]| == |pEnd[..shuffled]| == shuffled
    ensures pBegin[..shuffled][p] == pBegin[p] && pEnd[..shuffled][p] == pEnd[p]
    ensures SnakeOrder(degrees, pBegin[..shuffled], pEnd[..shuffled])
  {
    hide SnakeOrder, FallsFrom;
  }

  lemma LevelHands(adj: seq<AdjList>, b: seq<nat>, e: seq<nat>, p: nat, q: nat, x: nat, y: nat, m: nat)
    requires SnakeOrder(ListDegrees(adj), b, e) && p < |b| && q < |b| && b[p] == x && b[q] == y && 0 < m
    requires e[p] == x + m <= |adj| && e[q] == y + m <= |adj|
    ensures ClosePair(adj, x, x + m, y, y + m)
  {
    hide *;
    KeepsLevel(ListDegrees(adj), b, e, p, q, m);
    LevelRead(adj, x, y, m);
  }

  lemma LevelRead(adj: seq<AdjList>, x: nat, y: nat, m: nat)
    requires 0 < m && x + m <= |adj| && y + m <= |adj|
    requires EdgeSum(ListDegrees(adj), x, x + m) - EdgeSum(ListDegrees(adj), y, y + m)
      <= Max(ListDegrees(adj)[x], ListDegrees(adj)[y]) - Min(ListDegrees(adj)[x + m - 1], ListDegrees(adj)[y + m - 1])
    ensures ClosePair(adj, x, x + m, y, y + m)
  {
    hide EdgeSum, EdgeNum;
    SameSum(adj, x, x + m);
    SameSum(adj, y, y + m);
  }

  ghost function ListDegrees(adj: seq<AdjList>): (d: seq<nat>)
    ensures |d| == |adj| && forall v :: 0 <= v < |adj| ==> d[v] == adj[v].degree
  {
    seq<nat>(|adj|, v requires 0 <= v < |adj| => adj[v].degree)
  }

  lemma {:induction false} SameSum(adj: seq<AdjList>, lo: nat, hi: nat)
    requires hi <= |adj|
    ensures EdgeSum(ListDegrees(adj), lo, hi) == EdgeNum(adj, lo, hi)
    decreases hi
  {
    if lo < hi {
      SameSum(adj, lo, hi - 1);
    }
  }

  // ----- New numbers -----

  /** newId sends the vertex at position v of the units to v. */
  ghost predicate Renumbers(units: seq<VertexUnit>, newId: seq<nat>) {
    && |newId| == |units|
    && forall v :: 0 <= v < |units| ==> units[v].vertex < |units| && newId[units[v].vertex] == v
  }

  ghost function VerticesOf(units: seq<VertexUnit>): (w: seq<nat>)
    ensures |w| == |units|
    ensures forall i :: 0 <= i < |units| ==> w[i] == units[i].vertex
  {
    seq<nat>(|units|, i requires 0 <= i < |units| => units[i].vertex)
  }

  /** Ids go to new ids one to one. */
  lemma RenumbersInjective(units: seq<VertexUnit>, newId: seq<nat>)
    requires Renumbers(units, newId)
    ensures IsPerm(VerticesOf(units))
    ensures IsPerm(newId)
    ensures forall v :: 0 <= v < |newId| ==> units[newId[v]].vertex == v
  {
    var w := VerticesOf(units);
    assert IsPerm(w) by {
      forall i, j | 0 <= i < j < |w|
        ensures w[i] != w[j]
      {
        assert newId[w[i]] == i && newId[w[j]] == j;
      }
    }
    forall v | 0 <= v < |newId|
      ensures newId[v] < |newId| && units[newId[v]].vertex == v
    {
      Surjective(w, v);
      var i :| 0 <= i < |w| && w[i] == v;
      assert newId[units[i].vertex] == i;
    }
    forall u, v | 0 <= u < v < |newId|
      ensures newId[u] != newId[v]
    {
      assert units[newId[u]].vertex == u && units[newId[v]].vertex == v;
    }
  }

  method NewIds(units: array<VertexUnit>, ghost raw: seq<Arc>, ghost undirected: bool) returns (newId: array<nat>)
    requires UnitsOf(units[..], raw, undirected)
    ensures fresh(newId) && Renumbers(units[..], newId[..])
  {
    hide OutDegree;
    newId := new nat[units.Length](_ => 0);
    for v := 0 to units.Length
      invariant forall i :: 0 <= i < v ==> units[i].vertex < units.Length && newId[units[i].vertex] == i
    {
      assert UnitOk(units[..], raw, undirected, v);
      assert forall i :: 0 <= i < v ==> units[..][i].vertex != units[..][v].vertex;
      newId[units[v].vertex] := v;
    }
  }

  /** Edges move to the new numbers. */
  method RenumberEdges(raw: array<Arc>, newId: array<nat>)
    requires forall k :: 0 <= k < raw.Length ==> raw[k].src < newId.Length && raw[k].dst < newId.Length
    modifies raw
    ensures forall k :: 0 <= k < raw.Length ==> raw[k] == Arc(newId[old(raw[k]).src], newId[old(raw[k]).dst])
  {
    for k := 0 to raw.Length
      invariant forall i :: 0 <= i < k ==> raw[i] == Arc(newId[old(raw[i]).src], newId[old(raw[i]).dst])
      invariant forall i :: k <= i < raw.Length ==> raw[i] == old(raw[i])
    {
      raw[k] := Arc(newId[raw[k].src], newId[raw[k].dst]);
    }
  }

  /** id2name: the name each new number stands for. */
  method NameIds(name2id: seq<Option<nat>>, ghost names: seq<nat>, newId: array<nat>) returns (id2name: array<nat>)
    requires Naming(name2id, names) && |names| == newId.Length && IsPerm(newId[..])
    ensures fresh(id2name) && id2name.Length == newId.Length
    ensures forall i :: 0 <= i < |names| ==> newId[i] < id2name.Length && id2name[newId[i]] == names[i]
  {
    assert forall i :: 0 <= i < newId.Length ==> newId[..][i] == newId[i] < newId.Length;
    id2name := new nat[newId.Length](_ => 0);
    for n := 0 to |name2id|
      invariant forall i :: 0 <= i < |names| && names[i] < n ==> id2name[newId[i]] == names[i]
    {
      if name2id[n].Some? {
        ghost var id := name2id[n].value;
        forall i | 0 <= i < |names| && names[i] < n
          ensures newId[i] != newId[id]
        {
          assert i != id;
          assert if i < id then newId[..][i] != newId[..][id] else newId[..][id] != newId[..][i];
        }
        id2name[newId[name2id[n].value]] := n;
      }
    }
  }

  // ----- Sockets -----

  /** Partitions are handed to the sockets in snake order. */
  function SocketOf(socketNum: nat, p: nat): (s: nat)
    requires 0 < socketNum
    ensures s < socketNum
  {
    if p % (socketNum * 2) < socketNum then p % socketNum else socketNum - p % socketNum - 1
  }

  /** Of every 2 * socketNum partitions in a row, each socket gets one going up and one coming back. */
  lemma SnakeOfSockets(socketNum: nat, q: nat, s: nat)
    requires s < socketNum
    ensures SocketOf(socketNum, q * (socketNum * 2) + s) == s
    ensures SocketOf(socketNum, q * (socketNum * 2) + (socketNum * 2 - 1 - s)) == s
  {
    var base, back := q * (socketNum * 2), socketNum * 2 - 1 - s;
    DivUnique(base + s, socketNum * 2, q);
    DivBounds(base + s, socketNum * 2);
    DivUnique(base + back, socketNum * 2, q);
    DivBounds(base + back, socketNum * 2);
    assert base == (2 * q) * socketNum;
    DivUnique(base + s, socketNum, 2 * q);
    DivBounds(base + s, socketNum);
    DivUnique(base + back, socketNum, 2 * q + 1);
    DivBounds(base + back, socketNum);
  }

  /** lists[s] names, in increasing order, exactly the partitions below n of socket s. */
  ghost predicate SocketLists(socketNum: nat, n: nat, lists: seq<seq<nat>>)
    requires 0 < socketNum
  {
    && |lists| == socketNum
    && (forall s, i :: 0 <= s < socketNum && 0 <= i < |lists[s]| ==>
         lists[s][i] < n && SocketOf(socketNum, lists[s][i]) == s)
    && (forall s, i, j :: 0 <= s < socketNum && 0 <= i < j < |lists[s]| ==> lists[s][i] < lists[s][j])
    && (forall p :: 0 <= p < n ==> p in lists[SocketOf(socketNum, p)])
  }

  method AssignSockets(socketNum: nat, n: nat) returns (lists: seq<seq<nat>>)
    requires 0 < socketNum
    ensures SocketLists(socketNum, n, lists)
  {
    hide SocketOf;
    lists := seq(socketNum, _ => []);
    for p := 0 to n
      invariant SocketLists(socketNum, p, lists)
    {
      var s := SocketOf(socketNum, p);
      ghost var before := lists;
      lists := lists[s := lists[s] + [p]];
      forall q | 0 <= q < p + 1
        ensures q in lists[SocketOf(socketNum, q)]
      {
        if q == p {
          assert lists[s][|before[s]|] == p;
        } else {
          assert q in before[SocketOf(socketNum, q)];
        }
      }
    }
  }

  // ----- Placing the lists -----

  /** The placed lists have their degree, fit below the used part of their socket's array, and do not overlap. */
  ghost predicate Placed(units: seq<VertexUnit>, adj: seq<AdjList>, used: seq<nat>, placed: seq<bool>) {
    && |units| == |adj| == |placed|
    && (forall v :: 0 <= v < |adj| && placed[v] ==> ListPlaced(units, adj, used, v))
    && (forall u, v :: 0 <= u < v < |adj| && placed[u] && placed[v] && adj[u].socket == adj[v].socket ==>
          Apart(adj[u], adj[v]))
  }

  ghost predicate ListPlaced(units: seq<VertexUnit>, adj: seq<AdjList>, used: seq<nat>, v: nat)
    requires v < |units| == |adj|
  {
    && adj[v].degree == units[v].degree && adj[v].socket < |used|
    && adj[v].begin + adj[v].degree <= used[adj[v].socket]
  }

  lemma PlaceOne(units: seq<VertexUnit>, adj: seq<AdjList>, used: seq<nat>, placed: seq<bool>, v: nat, s: nat)
    requires Placed(units, adj, used, placed) && v < |adj| && !placed[v] && s < |used|
    ensures Placed(units, adj[v := AdjList(units[v].degree, s, used[s])], used[s := used[s] + units[v].degree],
      placed[v := true])
  {
    var adj', used', placed' :=
      adj[v := AdjList(units[v].degree, s, used[s])], used[s := used[s] + units[v].degree], placed[v := true];
    forall u | 0 <= u < |adj'| && placed'[u]
      ensures ListPlaced(units, adj', used', u)
    {
      if u != v {
        assert ListPlaced(units, adj, used, u);
      }
    }
    forall u, w | 0 <= u < w < |adj'| && placed'[u] && placed'[w] && adj'[u].socket == adj'[w].socket
      ensures Apart(adj'[u], adj'[w])
    {
      if u == v {
        assert ListPlaced(units, adj, used, w);
      } else if w == v {
        assert ListPlaced(units, adj, used, u);
      } else {
        assert Apart(adj[u], adj[w]);
      }
    }
  }

  /** The innermost loop: one partition's lists go to socket s, one after the other. */
  method PlaceRange(units: array<VertexUnit>, adj: array<AdjList>, b: nat, e: nat, s: nat, used0: seq<nat>,
                    ghost placed0: seq<bool>)
    returns (used: seq<nat>, ghost placed: seq<bool>)
    requires units != adj as object && b < e <= adj.Length && s < |used0|
    requires Placed(units[..], adj[..], used0, placed0)
    requires forall v :: b <= v < e ==> !placed0[v]
    modifies adj
    ensures Placed(units[..], adj[..], used, placed) && |used| == |used0|
    ensures forall v :: 0 <= v < adj.Length ==> placed[v] == (placed0[v] || b <= v < e)
    ensures forall v :: 0 <= v < adj.Length && !(b <= v < e) ==> adj[v] == old(adj[v])
    ensures Contiguous(adj[..], b, e) && forall v :: b <= v < e ==> adj[v].socket == s
  {
    hide Placed, Contiguous;
    used, placed := used0, placed0;
    PlacedShape(units[..], adj[..], used, placed);
    for v := b to e
      invariant Placed(units[..], adj[..], used, placed) && |used| == |used0| && |placed| == adj.Length
      invariant forall u :: 0 <= u < adj.Length ==> placed[u] == (placed0[u] || b <= u < v)
      invariant forall u :: 0 <= u < adj.Length && !(b <= u < v) ==> adj[u] == old(adj[u])
      invariant b < v ==> Contiguous(adj[..], b, v)
      invariant b < v ==> adj[v - 1].begin + adj[v - 1].degree == used[s]
      invariant forall u :: b <= u < v ==> adj[u].socket == s
    {
      ghost var before := adj[..];
      PlaceOne(units[..], before, used, placed, v, s);
      adj[v] := AdjList(units[v].degree, s, used[s]);
      assert adj[..] == before[v := AdjList(units[v].degree, s, used[s])];
      ExtendContiguous(before, adj[..], b, v);
      used := used[s := used[s] + units[v].degree];
      placed := placed[v := true];
    }
  }

  lemma PlacedShape(units: seq<VertexUnit>, adj: seq<AdjList>, used: seq<nat>, placed: seq<bool>)
    requires Placed(units, adj, used, placed)
    ensures |units| == |adj| == |placed|
  {
  }

  lemma ExtendContiguous(before: seq<AdjList>, adj: seq<AdjList>, b: nat, v: nat)
    requires b <= v < |before| == |adj| && adj == before[v := adj[v]]
    requires b < v ==> Contiguous(before, b, v)
    requires b < v ==>
      adj[v].socket == before[v - 1].socket && adj[v].begin == before[v - 1].begin + before[v - 1].degree
    ensures Contiguous(adj, b, v + 1)
  {
    forall u | b <= u < v
      ensures Follows(adj, u)
    {
      if u < v - 1 {
        assert Follows(before, u);
      }
    }
  }

  lemma KeepContiguous(before: seq<AdjList>, adj: seq<AdjList>, b: nat, e: nat)
    requires Contiguous(before, b, e) && |before| == |adj|
    requires forall v :: b <= v < e ==> adj[v] == before[v]
    ensures Contiguous(adj, b, e)
  {
    forall v | b <= v < e - 1
      ensures Follows(adj, v)
    {
      assert Follows(before, v);
    }
  }

  /** The lists of [b, e) are in socket s's array. */
  ghost predicate OnSocket(adj: seq<AdjList>, b: nat, e: nat, s: nat) {
    e <= |adj| && forall v :: b <= v < e ==> adj[v].socket == s
  }

  /** Every partition's lists are in the array of the socket it belongs to. */
  ghost predicate OnOwnSockets(socketNum: nat, adj: seq<AdjList>, pBegin: seq<nat>, pEnd: seq<nat>) {
    && 0 < socketNum && |pBegin| == |pEnd|
    && forall p :: 0 <= p < |pBegin| ==> OnSocket(adj, pBegin[p], pEnd[p], SocketOf(socketNum, p))
  }

  /** Which vertices are placed once the partitions in `done` are. */
  ghost predicate PlacedParts(socketNum: nat, pBegin: seq<nat>, pEnd: seq<nat>, done: set<nat>, adj: seq<AdjList>,
                              placed: seq<bool>)
    requires 0 < socketNum
  {
    && |pBegin| == |pEnd| && |placed| == |adj|
    && (forall p :: p in done ==> p < |pBegin| && Contiguous(adj, pBegin[p], pEnd[p])
                                  && OnSocket(adj, pBegin[p], pEnd[p], SocketOf(socketNum, p)))
    && (forall v :: 0 <= v < |placed| ==> (placed[v] <==> InParts(pBegin, pEnd, done, v)))
  }

  ghost predicate InParts(pBegin: seq<nat>, pEnd: seq<nat>, done: set<nat>, v: nat) {
    exists p :: p in done && p < |pBegin| && p < |pEnd| && pBegin[p] <= v < pEnd[p]
  }

  lemma PlacedOneMore(socketNum: nat, n: nat, pBegin: seq<nat>, pEnd: seq<nat>, done: set<nat>, p: nat,
                      before: seq<AdjList>, placed0: seq<bool>, adj: seq<AdjList>, placed: seq<bool>)
    requires 0 < socketNum && Tiles(n, pBegin, pEnd) && p < |pBegin| && p !in done
    requires PlacedParts(socketNum, pBegin, pEnd, done, before, placed0)
    requires |adj| == |before| == |placed| == n && Contiguous(adj, pBegin[p], pEnd[p])
    requires OnSocket(adj, pBegin[p], pEnd[p], SocketOf(socketNum, p))
    requires forall v :: 0 <= v < n ==> placed[v] == (placed0[v] || pBegin[p] <= v < pEnd[p])
    requires forall v :: 0 <= v < n && !(pBegin[p] <= v < pEnd[p]) ==> adj[v] == before[v]
    ensures PlacedParts(socketNum, pBegin, pEnd, done + {p}, adj, placed)
  {
    hide SocketOf;
    forall q | q in done
      ensures Contiguous(adj, pBegin[q], pEnd[q]) && OnSocket(adj, pBegin[q], pEnd[q], SocketOf(socketNum, q))
    {
      if q < p {
        TilesOrdered(n, pBegin, pEnd, q, p);
      } else {
        TilesOrdered(n, pBegin, pEnd, p, q);
      }
      KeepContiguous(before, adj, pBegin[q], pEnd[q]);
    }
    forall v | 0 <= v < |placed|
      ensures placed[v] <==> InParts(pBegin, pEnd, done + {p}, v)
    {
      assert placed0[v] <==> InParts(pBegin, pEnd, done, v);
      if pBegin[p] <= v < pEnd[p] {
        assert p in done + {p};
      } else if placed0[v] {
        var q :| q in done && q < |pBegin| && q < |pEnd| && pBegin[q] <= v < pEnd[q];
        assert q in done + {p};
      }
    }
  }

  lemma NotYetPlaced(socketNum: nat, n: nat, pBegin: seq<nat>, pEnd: seq<nat>, done: set<nat>, p: nat,
                     adj: seq<AdjList>, placed: seq<bool>)
    requires 0 < socketNum && Tiles(n, pBegin, pEnd) && p < |pBegin| && p !in done
    requires PlacedParts(socketNum, pBegin, pEnd, done, adj, placed) && |adj| == n
    ensures pBegin[p] < pEnd[p] <= n
    ensures forall v :: pBegin[p] <= v < pEnd[p] ==> !placed[v]
  {
    if p + 1 < |pBegin| {
      TilesOrdered(n, pBegin, pEnd, p, |pBegin| - 1);
    }
    forall v | pBegin[p] <= v < pEnd[p]
      ensures !placed[v]
    {
      assert placed[v] <==> InParts(pBegin, pEnd, done, v);
      if placed[v] {
        var q :| q in done && q < |pBegin| && q < |pEnd| && pBegin[q] <= v < pEnd[q];
        TilesUnique(n, pBegin, pEnd, v, p, q);
      }
    }
  }

  /** The placement loops: socket by socket, partition by partition. */
  method PlaceLists(units: array<VertexUnit>, pBegin: seq<nat>, pEnd: seq<nat>, socketNum: nat, lists: seq<seq<nat>>)
    returns (adj: array<AdjList>, sizes: seq<nat>)
    requires Tiles(units.Length, pBegin, pEnd)
    requires 0 < socketNum && SocketLists(socketNum, |pBegin|, lists)
    ensures fresh(adj) && adj.Length == units.Length && |sizes| == socketNum
    ensures ListsApart(adj[..])
    ensures forall v :: 0 <= v < adj.Length ==> ListPlaced(units[..], adj[..], sizes, v)
    ensures forall p :: 0 <= p < |pBegin| ==> Contiguous(adj[..], pBegin[p], pEnd[p])
    ensures OnOwnSockets(socketNum, adj[..], pBegin, pEnd)
  {
    TileShape(units.Length, pBegin, pEnd);
    hide Placed, PlacedParts, SocketOf, Tiles, OnOwnSockets;
    var n := units.Length;
    adj := new AdjList[n](_ => AdjList(0, 0, 0));
    sizes := seq(socketNum, _ => 0);
    ghost var placed, done := seq(n, _ => false), {};
    NothingPlaced(socketNum, units[..], pBegin, pEnd, adj[..], sizes, placed);
    for s := 0 to socketNum
      invariant |sizes| == socketNum
      invariant Placed(units[..], adj[..], sizes, placed)
      invariant PlacedParts(socketNum, pBegin, pEnd, done, adj[..], placed)
      invariant forall p :: 0 <= p < |pBegin| ==> (p in done <==> SocketOf(socketNum, p) < s)
    {
      sizes, placed, done := PlaceSocket(units, adj, pBegin, pEnd, socketNum, lists, s, sizes, placed, done);
    }
    AllPlaced(socketNum, units[..], pBegin, pEnd, done, adj[..], sizes, placed);
  }

  method PlaceSocket(units: array<VertexUnit>, adj: array<AdjList>, pBegin: seq<nat>, pEnd: seq<nat>, socketNum: nat,
                     lists: seq<seq<nat>>, s: nat, used0: seq<nat>, ghost placed0: seq<bool>, ghost done0: set<nat>)
    returns (used: seq<nat>, ghost placed: seq<bool>, ghost done: set<nat>)
    requires units != adj as object && Tiles(units.Length, pBegin, pEnd)
    requires s < socketNum && SocketLists(socketNum, |pBegin|, lists) && |used0| == socketNum
    requires Placed(units[..], adj[..], used0, placed0)
    requires PlacedParts(socketNum, pBegin, pEnd, done0, adj[..], placed0)
    requires forall p :: 0 <= p < |pBegin| ==> (p in done0 <==> SocketOf(socketNum, p) < s)
    modifies adj
    ensures Placed(units[..], adj[..], used, placed) && |used| == socketNum
    ensures PlacedParts(socketNum, pBegin, pEnd, done, adj[..], placed)
    ensures forall p :: 0 <= p < |pBegin| ==> (p in done <==> SocketOf(socketNum, p) < s + 1)
  {
    hide Placed, PlacedParts, SocketOf, Tiles;
    var mine := lists[s];
    used, placed, done := used0, placed0, done0;
    for i := 0 to |mine|
      invariant |used| == socketNum
      invariant Placed(units[..], adj[..], used, placed)
      invariant PlacedParts(socketNum, pBegin, pEnd, done, adj[..], placed)
      invariant forall p :: 0 <= p < |pBegin| ==> (p in done <==> SocketOf(socketNum, p) < s || p in mine[..i])
    {
      var p := mine[i];
      assert SocketOf(socketNum, p) == s && p < |pBegin|;
      assert p !in mine[..i];
      ghost var before, was := adj[..], placed;
      PlacedShape(units[..], before, used, was);
      NotYetPlaced(socketNum, units.Length, pBegin, pEnd, done, p, before, was);
      TileShape(units.Length, pBegin, pEnd);
      used, placed := PlaceRange(units, adj, pBegin[p], pEnd[p], s, used, placed);
      PlacedShape(units[..], adj[..], used, placed);
      PlacedOneMore(socketNum, units.Length, pBegin, pEnd, done, p, before, was, adj[..], placed);
      done := done + {p};
      assert mine[..i + 1] == mine[..i] + [p];
    }
    assert mine[..|mine|] == mine;
    forall p | 0 <= p < |pBegin|
      ensures p in done <==> SocketOf(socketNum, p) < s + 1
    {
      assert p in lists[SocketOf(socketNum, p)];
    }
  }

  lemma TileShape(n: nat, pBegin: seq<nat>, pEnd: seq<nat>)
    requires Tiles(n, pBegin, pEnd)
    ensures 0 < |pBegin| == |pEnd|
  {
  }

  lemma NothingPlaced(socketNum: nat, units: seq<VertexUnit>, pBegin: seq<nat>, pEnd: seq<nat>, adj: seq<AdjList>,
                      used: seq<nat>, placed: seq<bool>)
    requires 0 < socketNum && |units| == |adj| == |placed| && |pBegin| == |pEnd|
    requires forall v :: 0 <= v < |placed| ==> !placed[v]
    ensures Placed(units, adj, used, placed)
    ensures PlacedParts(socketNum, pBegin, pEnd, {}, adj, placed)
  {
  }

  lemma AllPlaced(socketNum: nat, units: seq<VertexUnit>, pBegin: seq<nat>, pEnd: seq<nat>, done: set<nat>,
                  adj: seq<AdjList>, used: seq<nat>, placed: seq<bool>)
    requires 0 < socketNum && Tiles(|units|, pBegin, pEnd)
    requires Placed(units, adj, used, placed) && PlacedParts(socketNum, pBegin, pEnd, done, adj, placed)
    requires forall p :: 0 <= p < |pBegin| ==> p in done
    ensures ListsApart(adj)
    ensures forall v :: 0 <= v < |adj| ==> ListPlaced(units, adj, used, v)
    ensures forall p :: 0 <= p < |pBegin| ==> Contiguous(adj, pBegin[p], pEnd[p])
    ensures OnOwnSockets(socketNum, adj, pBegin, pEnd)
  {
    hide Contiguous;
    forall v | 0 <= v < |adj|
      ensures placed[v]
    {
      var p := Owner(|units|, pBegin, pEnd, v, |pBegin| - 1);
      assert p in done;
      assert InParts(pBegin, pEnd, done, v);
    }
  }

  lemma {:induction false} Owner(n: nat, pBegin: seq<nat>, pEnd: seq<nat>, v: nat, q: nat) returns (p: nat)
    requires Tiles(n, pBegin, pEnd) && q < |pBegin| && v < pEnd[q]
    ensures p < |pBegin| && pBegin[p] <= v < pEnd[p]
    decreases q
  {
    if pBegin[q] <= v {
      p := q;
    } else {
      p := Owner(n, pBegin, pEnd, v, q - 1);
    }
  }

  // ----- The built graph -----

  /** What make promises about the lists it lays out, before any edge is inserted. */
  ghost predicate Layout(adj: seq<AdjList>, sizes: seq<nat>, arcs: seq<Arc>, pBegin: seq<nat>, pEnd: seq<nat>) {
    && Fits(adj, sizes, arcs)
    && (forall v :: 0 <= v < |adj| ==> 0 < adj[v].degree)
    && |pBegin| == |pEnd|
    && (forall p :: 0 <= p < |pBegin| ==> Contiguous(adj, pBegin[p], pEnd[p]))
    && (forall p :: 0 <= p < |pBegin| ==> NonIncreasing(adj, pBegin[p], pEnd[p]))
  }

  lemma {:induction false} ArcsInRange(raw: seq<Arc>, undirected: bool, n: nat)
    requires forall k :: 0 <= k < |raw| ==> raw[k].src < n && raw[k].dst < n
    ensures forall k :: 0 <= k < |Arcs(raw, undirected)| ==>
      Arcs(raw, undirected)[k].src < n && Arcs(raw, undirected)[k].dst < n
  {
    if raw != [] {
      ArcsInRange(raw[..|raw| - 1], undirected, n);
    }
  }

  /** A vertex keeps its degree under its new number. */
  lemma DegreesCarryOver(units: seq<VertexUnit>, raw: seq<Arc>, raw': seq<Arc>, undirected: bool, newId: seq<nat>,
                         v: nat)
    requires UnitsOf(units, raw, undirected) && Renumbers(units, newId) && v < |units|
    requires |raw| == |raw'|
    requires forall k :: 0 <= k < |raw| ==> raw[k].src < |newId| && raw[k].dst < |newId|
    requires forall k :: 0 <= k < |raw| ==> raw'[k] == Arc(newId[raw[k].src], newId[raw[k].dst])
    ensures units[v].degree == OutDegree(raw', undirected, v)
  {
    hide OutDegree;
    RenumbersInjective(units, newId);
    assert UnitOk(units, raw, undirected, v);
    OutDegreeRenamed(raw, raw', undirected, newId, units[v].vertex);
  }

  lemma LayoutHolds(units: seq<VertexUnit>, raw: seq<Arc>, raw': seq<Arc>, undirected: bool, newId: seq<nat>,
                    adj: seq<AdjList>, sizes: seq<nat>, pBegin: seq<nat>, pEnd: seq<nat>)
    requires UnitsOf(units, raw, undirected) && Renumbers(units, newId)
    requires |raw| == |raw'| && |adj| == |units| && |pBegin| == |pEnd|
    requires forall k :: 0 <= k < |raw| ==> raw[k].src < |newId| && raw[k].dst < |newId|
    requires forall k :: 0 <= k < |raw| ==> raw'[k] == Arc(newId[raw[k].src], newId[raw[k].dst])
    requires ListsApart(adj)
    requires forall v :: 0 <= v < |adj| ==> ListPlaced(units, adj, sizes, v)
    requires forall p :: 0 <= p < |pBegin| ==> Contiguous(adj, pBegin[p], pEnd[p])
    requires forall v :: 0 <= v < |units| ==> 0 < units[v].degree
    requires PartsFall(Degrees(units), pBegin, pEnd)
    ensures Layout(adj, sizes, Arcs(raw', undirected), pBegin, pEnd)
  {
    hide ListsApart, Count, UnitsOf;
    var arcs := Arcs(raw', undirected);
    RenumbersInjective(units, newId);
    ArcsInRange(raw', undirected, |adj|);
    forall v | 0 <= v < |adj|
      ensures ListFits(adj, sizes, arcs, v) && 0 < adj[v].degree
    {
      assert ListPlaced(units, adj, sizes, v);
      DegreesCarryOver(units, raw, raw', undirected, newId, v);
    }
    forall p | 0 <= p < |pBegin|
      ensures NonIncreasing(adj, pBegin[p], pEnd[p])
    {
      assert Contiguous(adj, pBegin[p], pEnd[p]);
      assert RangeFalls(Degrees(units), pBegin[p], pEnd[p]);
      forall u, v | pBegin[p] <= u <= v < pEnd[p]
        ensures adj[v].degree <= adj[u].degree
      {
        assert ListPlaced(units, adj, sizes, u) && ListPlaced(units, adj, sizes, v);
      }
    }
  }

  /** Everything make does before the parallel edge fill. */
  method Make(raw: array<Arc>, undirected: bool, name2id: seq<Option<nat>>, ghost names: seq<nat>,
              units: array<VertexUnit>, pBegin: seq<nat>, pEnd: seq<nat>, shuffled: nat, socketNum: nat)
    returns (adj: array<AdjList>, sizes: seq<nat>, id2name: array<nat>, lists: seq<seq<nat>>)
    requires Naming(name2id, names) && |names| == units.Length
    requires forall k :: 0 <= k < raw.Length ==> raw[k].src < |names| && raw[k].dst < |names|
    requires UnitsOf(units[..], raw[..], undirected) && FallingDegrees(units[..])
    requires forall i :: 0 <= i < units.Length ==> 0 < units[i].degree
    requires Tiles(units.Length, pBegin, pEnd) && 0 < shuffled <= |pBegin| && 0 < socketNum
    modifies raw, units
    ensures fresh(adj) && adj.Length == id2name.Length == units.Length
    ensures Layout(adj[..], sizes, Arcs(raw[..], undirected), pBegin, pEnd)
    ensures HotDealt(ListDegrees(adj[..]), pBegin, pEnd, shuffled) && AllClose(adj[..], pBegin, pEnd, shuffled)
    ensures OnOwnSockets(socketNum, adj[..], pBegin, pEnd)
    ensures SocketLists(socketNum, |pBegin|, lists)
    ensures forall k :: 0 <= k < raw.Length ==>
      Relabelled(id2name[..], Arc(names[old(raw[k]).src], names[old(raw[k]).dst]), raw[k])
  {
    ghost var raw0, units0 := raw[..], units[..];
    TileShape(units.Length, pBegin, pEnd);
    hide FallingDegrees, UnitsOf, Tiles, Naming, PartsFall, SocketLists, ListsApart, Layout, HotDealt, AllClose;
    hide OnOwnSockets, Arcs;
    hide Contiguous, ListPlaced, Relabelled, Renumbers;
    DealPartitions(units, pBegin, pEnd, shuffled);
    PartsFallOf(units.Length, Degrees(units[..]), pBegin, pEnd, shuffled);
    UnitsRearranged(units0, units[..], raw0, undirected);
    StillPositive(units0, units[..]);
    ghost var newId;
    id2name, newId := Renumber(raw, undirected, name2id, names, units);
    lists := AssignSockets(socketNum, |pBegin|);
    adj, sizes := PlaceLists(units, pBegin, pEnd, socketNum, lists);
    LayoutHolds(units[..], raw0, raw[..], undirected, newId, adj[..], sizes, pBegin, pEnd);
    PlacedDegrees(units[..], adj[..], sizes);
    AllEvenlyDealt(adj[..], pBegin, pEnd, shuffled);
  }

  lemma PlacedDegrees(units: seq<VertexUnit>, adj: seq<AdjList>, used: seq<nat>)
    requires |units| == |adj| && forall v :: 0 <= v < |adj| ==> ListPlaced(units, adj, used, v)
    ensures ListDegrees(adj) == Degrees(units)
  {
    forall v | 0 <= v < |adj|
      ensures ListDegrees(adj)[v] == Degrees(units)[v]
    {
      assert ListPlaced(units, adj, used, v);
    }
  }

  /** New ids for the dealt order, applied to the edges and to the names. */
  method Renumber(raw: array<Arc>, ghost undirected: bool, name2id: seq<Option<nat>>, ghost names: seq<nat>,
                  units: array<VertexUnit>)
    returns (id2name: array<nat>, ghost newId: seq<nat>)
    requires Naming(name2id, names) && |names| == units.Length
    requires forall k :: 0 <= k < raw.Length ==> raw[k].src < |names| && raw[k].dst < |names|
    requires UnitsOf(units[..], raw[..], undirected)
    modifies raw
    ensures fresh(id2name) && id2name.Length == units.Length && Renumbers(units[..], newId) && |newId| == units.Length
    ensures forall k :: 0 <= k < raw.Length ==> raw[k] == Arc(newId[old(raw[k]).src], newId[old(raw[k]).dst])
    ensures forall k :: 0 <= k < raw.Length ==>
      Relabelled(id2name[..], Arc(names[old(raw[k]).src], names[old(raw[k]).dst]), raw[k])
  {
    hide Naming, UnitsOf;
    var ids := NewIds(units, raw[..], undirected);
    newId := ids[..];
    RenumbersInjective(units[..], newId);
    RenumberEdges(raw, ids);
    id2name := NameIds(name2id, names, ids);
  }

  lemma StillPositive(before: seq<VertexUnit>, units: seq<VertexUnit>)
    requires multiset(before) == multiset(units)
    requires forall i :: 0 <= i < |before| ==> 0 < before[i].degree
    ensures forall i :: 0 <= i < |units| ==> 0 < units[i].degree
  {
    forall i | 0 <= i < |units|
      ensures 0 < units[i].degree
    {
      var k := Find(before, units, i);
    }
  }

  /** An arc between new numbers, read as an arc between names. */
  ghost function NamedArc(id2name: seq<nat>, a: Arc): Arc {
    if a.src < |id2name| && a.dst < |id2name| then Arc(id2name[a.src], id2name[a.dst]) else a
  }

  ghost function NamedArcs(id2name: seq<nat>, s: seq<Arc>): (r: seq<Arc>)
    ensures |r| == |s| && forall i :: 0 <= i < |s| ==> r[i] == NamedArc(id2name, s[i])
  {
    Map(a => NamedArc(id2name, a), s)
  }

  lemma NamedKeepsMultiset(id2name: seq<nat>, s: seq<Arc>, t: seq<Arc>)
    requires multiset(s) == multiset(t)
    ensures multiset(NamedArcs(id2name, s)) == multiset(NamedArcs(id2name, t))
  {
    MapKeepsMultiset(a => NamedArc(id2name, a), s, t);
  }

  lemma {:induction false} ArcsNamed(id2name: seq<nat>, input: seq<Arc>, raw: seq<Arc>, undirected: bool)
    requires |input| == |raw| && forall k :: 0 <= k < |raw| ==> Relabelled(id2name, input[k], raw[k])
    ensures NamedArcs(id2name, Arcs(raw, undirected)) == Arcs(input, undirected)
  {
    if raw != [] {
      var m := |raw| - 1;
      ArcsNamed(id2name, input[..m], raw[..m], undirected);
      assert Relabelled(id2name, input[m], raw[m]);
    }
  }

  lemma LayoutFits(adj: seq<AdjList>, sizes: seq<nat>, arcs: seq<Arc>, pBegin: seq<nat>, pEnd: seq<nat>)
    requires Layout(adj, sizes, arcs, pBegin, pEnd)
    ensures Fits(adj, sizes, arcs) && forall v :: 0 <= v < |adj| ==> 0 < adj[v].degree
  {
  }

  /** The fill's result, by name. */
  lemma FilledByName(id2name: seq<nat>, input: seq<Arc>, raw: seq<Arc>, undirected: bool, filled: seq<Arc>)
    requires |input| == |raw| && forall k :: 0 <= k < |raw| ==> Relabelled(id2name, input[k], raw[k])
    requires multiset(filled) == multiset(Arcs(raw, undirected))
    ensures multiset(NamedArcs(id2name, filled)) == multiset(Arcs(input, undirected))
  {
    hide Arcs, NamedArcs, Relabelled;
    NamedKeepsMultiset(id2name, filled, Arcs(raw, undirected));
    ArcsNamed(id2name, input, raw, undirected);
  }

  /**
   * Edge conservation. After any complete run of the fill, the arcs of the graph, read through
   * id2name, are exactly the edges that were loaded, with their reverses when undirected.
   */
  lemma EdgesConserved(adj: seq<AdjList>, sizes: seq<nat>, input: seq<Arc>, raw: seq<Arc>, undirected: bool,
                       pBegin: seq<nat>, pEnd: seq<nat>, id2name: seq<nat>, trace: seq<State>)
    requires Layout(adj, sizes, Arcs(raw, undirected), pBegin, pEnd)
    requires |input| == |raw| && forall k :: 0 <= k < |raw| ==> Relabelled(id2name, input[k], raw[k])
    requires Run(adj, sizes, Arcs(raw, undirected), trace) && AllDone(trace[|trace| - 1])
    ensures Graph(adj, trace[|trace| - 1].edges).Valid() && AllListed(Graph(adj, trace[|trace| - 1].edges))
    ensures multiset(NamedArcs(id2name, ListArcs(Graph(adj, trace[|trace| - 1].edges), |adj|))) ==
      multiset(Arcs(input, undirected))
  {
    hide *;
    LayoutFits(adj, sizes, Arcs(raw, undirected), pBegin, pEnd);
    FillConserves(adj, sizes, Arcs(raw, undirected), trace);
    FilledByName(id2name, input, raw, undirected, ListArcs(Graph(adj, trace[|trace| - 1].edges), |adj|));
  }

  /** The degrees of the first n vertices add up to the arcs that leave them. */
  lemma {:induction false} EdgesCounted(adj: seq<AdjList>, sizes: seq<nat>, arcs: seq<Arc>, n: nat)
    requires Fits(adj, sizes, arcs) && n <= |adj|
    ensures EdgeNum(adj, 0, n) == Start(Sources(arcs), n)
  {
    hide Less, Count, ListsApart;
    if n == 0 {
      LessNone(Sources(arcs));
    } else {
      EdgesCounted(adj, sizes, arcs, n - 1);
      assert ListFits(adj, sizes, arcs, n - 1);
      LessNext(Sources(arcs), n - 1, |arcs|);
    }
  }

  lemma {:induction false} ArcNum(raw: seq<Arc>, undirected: bool)
    ensures |Arcs(raw, undirected)| == (if undirected then 2 * |raw| else |raw|)
  {
    if raw != [] {
      ArcNum(raw[..|raw| - 1], undirected);
    }
  }

  /** A graph that is laid out for these edges has as many, or twice as many when undirected. */
  lemma EdgeNumIs(adj: seq<AdjList>, sizes: seq<nat>, raw: seq<Arc>, undirected: bool, pBegin: seq<nat>, pEnd: seq<nat>)
    requires Layout(adj, sizes, Arcs(raw, undirected), pBegin, pEnd)
    ensures EdgeNum(adj, 0, |adj|) == (if undirected then 2 * |raw| else |raw|)
  {
    hide Less, EdgeNum;
    var arcs := Arcs(raw, undirected);
    EdgesCounted(adj, sizes, arcs, |adj|);
    assert AllBelow(Sources(arcs), |adj|);
    LessEnds(Sources(arcs), |adj|, |arcs|);
    ArcNum(raw, undirected);
  }
}
