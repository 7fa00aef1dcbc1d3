/**
 * The four samplers of src/core/sampler.hpp. The three direct ones answer a draw r for vertex v with
 * the r-th neighbour of v; the buffered one answers with neighbours drawn earlier, in order.
 */
module Samplers {
  import opened Arith
  import opened Csr

  // include/constants.hpp, the branch compiled for production.
  const MAX_HINT_NUM: nat := 8

  // ----- Layout facts the compressed samplers rely on -----

  /** Vertex v + 1's list starts where v's ends. */
  ghost predicate Follows(adj: seq<AdjList>, v: nat)
    requires v + 1 < |adj|
  {
    && adj[v + 1].socket == adj[v].socket
    && adj[v + 1].begin == adj[v].begin + adj[v].degree
  }

  /** The adjacency lists of [b, e) lie one after the other in one socket's edge array. */
  ghost predicate Contiguous(adj: seq<AdjList>, b: nat, e: nat) {
    && b < e <= |adj|
    && forall v :: b <= v < e - 1 ==> Follows(adj, v)
  }

  ghost predicate SameDegree(adj: seq<AdjList>, b: nat, e: nat, d: nat) {
    e <= |adj| && forall v :: b <= v < e ==> adj[v].degree == d
  }

  ghost predicate NonIncreasing(adj: seq<AdjList>, b: nat, e: nat) {
    e <= |adj| && forall u, v :: b <= u <= v < e ==> adj[v].degree <= adj[u].degree
  }

  /** In a run of equal degrees, a list's place follows from its vertex number alone. */
  lemma {:induction false} RunBegin(g: Graph, b: nat, e: nat, lo: nat, d: nat, v: nat)
    requires Contiguous(g.adj, b, e)
    requires b <= lo <= v < e
    requires SameDegree(g.adj, lo, v + 1, d)
    ensures g.adj[v].socket == g.adj[lo].socket
    ensures g.adj[v].begin == g.adj[lo].begin + (v - lo) * d
    decreases v
  {
    if lo < v {
      RunBegin(g, b, e, lo, d, v - 1);
      assert Follows(g.adj, v - 1);
      assert (v - lo) * d == (v - 1 - lo) * d + d;
    }
  }

  /** Slot r of the i-th list of a run of degree d, as 32-bit arithmetic computes it. */
  function RunIndex(i: nat, d: nat, r: nat): (k: nat)
    ensures k <= i * d + r
    ensures i * d + r < TWO32 ==> k == i * d + r
  {
    (i * d + r) % TWO32
  }

  /** The computed index is right for a whole run of n lists exactly when the run has at most 2^32 edges. */
  lemma RunIndexExactIff(n: nat, d: nat)
    requires 0 < n && 0 < d
    ensures (forall i, r :: 0 <= i < n && 0 <= r < d ==> RunIndex(i, d, r) == i * d + r) <==> n * d <= TWO32
  {
    assert (n - 1) * d + d == n * d;
    if n * d <= TWO32 {
      forall i, r | 0 <= i < n && 0 <= r < d
        ensures RunIndex(i, d, r) == i * d + r
      {
        MulMono(i, n - 1, d);
      }
    } else {
      assert RunIndex(n - 1, d, d - 1) < TWO32 <= (n - 1) * d + (d - 1);
    }
  }

  lemma RunIndexExact(n: nat, d: nat, i: nat, r: nat)
    requires i < n && r < d && n * d <= TWO32
    ensures RunIndex(i, d, r) == i * d + r
  {
    RunIndexExactIff(n, d);
  }

  // ----- DirectSampler -----

  class DirectSampler {
    const g: Graph
    const vertexBegin: nat
    const vertexEnd: nat

    ghost predicate Valid() {
      g.Valid() && vertexEnd <= |g.adj|
    }

    constructor (b: nat, e: nat, g: Graph)
      requires g.Valid() && e <= |g.adj|
      ensures Valid() && vertexBegin == b && vertexEnd == e && this.g == g
    {
      vertexBegin, vertexEnd, this.g := b, e, g;
    }

    method Sample(v: nat, rd: Rand) returns (ret: nat)
      requires Valid() && vertexBegin <= v < vertexEnd
      modifies rd
      ensures ret == g.Neighbors(v)[rd.Draw(old(rd.pos), |g.Neighbors(v)|)]
      ensures rd.pos == old(rd.pos) + 1 && rd.realAt == old(rd.realAt)
    {
      var a := g.adj[v];
      var r := rd.Gen(a.degree);
      ret := g.edges[a.socket][a.begin + r];
    }
  }

  // ----- UniformDegreeDirectSampler -----

  class UniformDegreeDirectSampler {
    const g: Graph
    const vertexBegin: nat
    const vertexEnd: nat
    const degree: nat
    const edgeSocket: nat
    const edgeBegin: nat

    ghost predicate Valid() {
      && g.Valid() && Contiguous(g.adj, vertexBegin, vertexEnd)
      && SameDegree(g.adj, vertexBegin, vertexEnd, degree)
      && edgeSocket == g.adj[vertexBegin].socket && edgeBegin == g.adj[vertexBegin].begin
      && (vertexEnd - vertexBegin) * degree <= TWO32
    }

    constructor (b: nat, e: nat, g: Graph)
      requires g.Valid() && Contiguous(g.adj, b, e)
      requires SameDegree(g.adj, b, e, g.adj[b].degree)
      requires (e - b) * g.adj[b].degree <= TWO32
      ensures Valid() && vertexBegin == b && vertexEnd == e && this.g == g
    {
      vertexBegin, vertexEnd, this.g := b, e, g;
      degree, edgeSocket, edgeBegin := g.adj[b].degree, g.adj[b].socket, g.adj[b].begin;
    }

    method Sample(v: nat, rd: Rand) returns (ret: nat)
      requires Valid() && vertexBegin <= v < vertexEnd
      modifies rd
      ensures ret == g.Neighbors(v)[rd.Draw(old(rd.pos), |g.Neighbors(v)|)]
      ensures rd.pos == old(rd.pos) + 1 && rd.realAt == old(rd.realAt)
    {
      var i := v - vertexBegin;
      assert g.adj[v].degree == degree && g.ListOk(g.adj[v]);
      var r := rd.Gen(degree);
      RunBegin(g, vertexBegin, vertexEnd, vertexBegin, degree, v);
      RunIndexExact(vertexEnd - vertexBegin, degree, i, r);
      ret := g.edges[edgeSocket][edgeBegin + RunIndex(i, degree, r)];
    }
  }

  // ----- SimilarDegreeDirectSampler -----

  /** A run of vertices of equal degree, and where the run's edges begin. */
  datatype AdjHint = AdjHint(vertexBegin: nat, vertexEnd: nat, degree: nat, socket: nat, edgeBegin: nat)

  /** h describes the run [h.vertexBegin, e) and its first edge. */
  ghost predicate RunOk(g: Graph, h: AdjHint, e: nat) {
    && h.vertexBegin < e <= |g.adj|
    && SameDegree(g.adj, h.vertexBegin, e, h.degree)
    && h.socket == g.adj[h.vertexBegin].socket && h.edgeBegin == g.adj[h.vertexBegin].begin
  }

  /** The edges of a vertex range. */
  ghost function EdgeNum(adj: seq<AdjList>, b: nat, e: nat): nat
    requires e <= |adj|
    decreases e
  {
    if e <= b then 0 else EdgeNum(adj, b, e - 1) + adj[e - 1].degree
  }

  lemma {:induction false} RunEdges(g: Graph, b: nat, lo: nat, hi: nat, e: nat, d: nat)
    requires b <= lo <= hi <= e <= |g.adj|
    requires SameDegree(g.adj, lo, hi, d)
    ensures (hi - lo) * d <= EdgeNum(g.adj, b, e)
    decreases e
  {
    if lo == hi {
    } else if hi < e {
      RunEdges(g, b, lo, hi, e - 1, d);
    } else {
      RunEdges(g, b, lo, hi - 1, e - 1, d);
      assert (hi - lo) * d == (hi - 1 - lo) * d + d;
    }
  }

  /** No run of equal degrees has more edges than 32-bit indices can tell apart. */
  ghost predicate RunsFit(adj: seq<AdjList>, b: nat, e: nat) {
    e <= |adj| && forall lo, hi :: b <= lo < hi <= e && SameDegree(adj, lo, hi, adj[lo].degree) ==>
      (hi - lo) * adj[lo].degree <= TWO32
  }

  /** A partition of at most 2^32 edges has no such run. */
  lemma SmallRunsFit(g: Graph, b: nat, e: nat)
    requires e <= |g.adj| && EdgeNum(g.adj, b, e) <= TWO32
    ensures RunsFit(g.adj, b, e)
  {
    hide EdgeNum, SameDegree;
    forall lo, hi | b <= lo < hi <= e && SameDegree(g.adj, lo, hi, g.adj[lo].degree)
      ensures (hi - lo) * g.adj[lo].degree <= TWO32
    {
      RunEdges(g, b, lo, hi, e, g.adj[lo].degree);
    }
  }

  /** Where the k-th run ends: at the next run, or at e for the last one. */
  ghost function RunEnd(hs: seq<AdjHint>, k: nat, e: nat): nat
    requires k < |hs|
  {
    if k + 1 < |hs| then hs[k + 1].vertexBegin else e
  }

  /** The hints hs describe the successive runs of [b, e); only the last one's end may still be open. */
  ghost predicate Runs(g: Graph, b: nat, hs: seq<AdjHint>, e: nat) {
    && 0 < |hs| && hs[0].vertexBegin == b
    && (forall k :: 0 <= k < |hs| ==> RunOk(g, hs[k], RunEnd(hs, k, e)))
    && (forall k :: 0 <= k < |hs| - 1 ==> hs[k].vertexEnd == hs[k + 1].vertexBegin)
  }

  lemma DegreeStep(g: Graph, b: nat, e: nat, v: nat)
    requires g.Valid() && NonIncreasing(g.adj, b, e) && b <= v < e
    ensures 0 < g.adj[v].degree
    ensures b < v ==> g.adj[v].degree <= g.adj[v - 1].degree
  {
    assert g.ListOk(g.adj[v]);
  }

  lemma FirstRun(g: Graph, v: nat, h: AdjHint)
    requires v < |g.adj|
    requires h.vertexBegin == v && h.degree == g.adj[v].degree && h.socket == g.adj[v].socket
    requires h.edgeBegin == g.adj[v].begin
    ensures Runs(g, v, [h], v + 1)
  {
  }

  lemma GrowRun(g: Graph, h: AdjHint, v: nat)
    requires RunOk(g, h, v) && v < |g.adj| && h.degree == g.adj[v].degree
    ensures RunOk(g, h, v + 1)
  {
  }

  lemma ExtendRun(g: Graph, b: nat, hs: seq<AdjHint>, v: nat)
    requires Runs(g, b, hs, v) && v < |g.adj|
    requires hs[|hs| - 1].degree == g.adj[v].degree
    ensures Runs(g, b, hs, v + 1)
  {
    hide RunOk;
    forall k | 0 <= k < |hs|
      ensures RunOk(g, hs[k], RunEnd(hs, k, v + 1))
    {
      assert RunOk(g, hs[k], RunEnd(hs, k, v));
      if k == |hs| - 1 {
        GrowRun(g, hs[k], v);
      }
    }
  }

  lemma LastRun(g: Graph, h: AdjHint, v: nat)
    requires v < |g.adj|
    requires h.vertexBegin == v && h.degree == g.adj[v].degree && h.socket == g.adj[v].socket
    requires h.edgeBegin == g.adj[v].begin
    ensures RunOk(g, h, v + 1)
  {
  }

  lemma SameRun(g: Graph, h: AdjHint, h': AdjHint, e: nat)
    requires RunOk(g, h, e) && h' == h.(vertexEnd := h'.vertexEnd)
    ensures RunOk(g, h', e)
  {
  }

  lemma NextRun(g: Graph, b: nat, hs: seq<AdjHint>, v: nat, h: AdjHint, hs': seq<AdjHint>)
    requires Runs(g, b, hs, v) && v < |g.adj|
    requires h.vertexBegin == v && h.degree == g.adj[v].degree && h.socket == g.adj[v].socket
    requires h.edgeBegin == g.adj[v].begin
    requires hs' == hs[|hs| - 1 := hs[|hs| - 1].(vertexEnd := v)] + [h]
    ensures Runs(g, b, hs', v + 1)
  {
    hide RunOk;
    LastRun(g, h, v);
    forall k | 0 <= k < |hs'|
      ensures RunOk(g, hs'[k], RunEnd(hs', k, v + 1))
    {
      if k < |hs| {
        assert RunOk(g, hs[k], RunEnd(hs, k, v));
        SameRun(g, hs[k], hs'[k], RunEnd(hs, k, v));
      }
    }
  }

  lemma CloseRuns(g: Graph, b: nat, hs: seq<AdjHint>, e: nat, hs': seq<AdjHint>)
    requires Runs(g, b, hs, e)
    requires hs' == hs[|hs| - 1 := hs[|hs| - 1].(vertexEnd := e)]
    ensures Runs(g, b, hs', e)
    ensures hs'[|hs| - 1].vertexEnd == e
  {
    forall k | 0 <= k < |hs'|
      ensures RunOk(g, hs'[k], RunEnd(hs', k, e))
    {
      assert RunOk(g, hs[k], RunEnd(hs, k, e));
    }
  }

  lemma {:induction false} RunsEnd(g: Graph, b: nat, hs: seq<AdjHint>, e: nat, k: nat)
    requires Runs(g, b, hs, e) && k < |hs|
    ensures RunEnd(hs, k, e) <= e
    decreases |hs| - k
  {
    if k + 1 < |hs| {
      RunsEnd(g, b, hs, e, k + 1);
      assert RunOk(g, hs[k + 1], RunEnd(hs, k + 1, e));
    }
  }

  lemma {:induction false} RunsBegin(g: Graph, b: nat, hs: seq<AdjHint>, e: nat, k: nat)
    requires Runs(g, b, hs, e) && k < |hs|
    ensures b <= hs[k].vertexBegin
    decreases k
  {
    if k != 0 {
      RunsBegin(g, b, hs, e, k - 1);
      assert RunOk(g, hs[k - 1], RunEnd(hs, k - 1, e));
    }
  }

  /** The first hint whose end lies beyond v is the run that holds v. */
  lemma HintHolds(g: Graph, b: nat, hs: seq<AdjHint>, e: nat, k: nat, v: nat)
    requires Runs(g, b, hs, e) && hs[|hs| - 1].vertexEnd == e
    requires b <= v < e
    requires k < |hs| && v < hs[k].vertexEnd && (0 < k ==> hs[k - 1].vertexEnd <= v)
    ensures b <= hs[k].vertexBegin <= v < hs[k].vertexEnd <= e
    ensures RunOk(g, hs[k], hs[k].vertexEnd)
  {
    assert RunOk(g, hs[k], RunEnd(hs, k, e));
    assert hs[k].vertexEnd == RunEnd(hs, k, e);
    if 0 < k {
      assert hs[k - 1].vertexEnd == hs[k].vertexBegin;
    }
    RunsEnd(g, b, hs, e, k);
    RunsBegin(g, b, hs, e, k);
  }

  /** The arithmetic of a run finds the list of each of its vertices. */
  lemma HintFinds(g: Graph, b: nat, e: nat, h: AdjHint, v: nat, r: nat)
    requires Contiguous(g.adj, b, e) && b <= h.vertexBegin <= v < h.vertexEnd <= e && RunOk(g, h, h.vertexEnd)
    requires (h.vertexEnd - h.vertexBegin) * h.degree <= TWO32 && r < h.degree
    ensures g.adj[v].degree == h.degree && g.adj[v].socket == h.socket
    ensures h.edgeBegin + RunIndex(v - h.vertexBegin, h.degree, r) == g.adj[v].begin + r
  {
    hide RunIndex;
    RunBegin(g, b, e, h.vertexBegin, h.degree, v);
    RunIndexExact(h.vertexEnd - h.vertexBegin, h.degree, v - h.vertexBegin, r);
  }

  class SimilarDegreeDirectSampler {
    const g: Graph
    const vertexBegin: nat
    const vertexEnd: nat
    const hints: array<AdjHint>
    var hintNum: nat

    /** The hints are the successive runs of the partition. */
    ghost predicate Valid()
      reads this, hints
    {
      && g.Valid() && Contiguous(g.adj, vertexBegin, vertexEnd)
      && 0 < hintNum <= hints.Length
      && Runs(g, vertexBegin, hints[..hintNum], vertexEnd)
      && hints[hintNum - 1].vertexEnd == vertexEnd
      && RunsFit(g.adj, vertexBegin, vertexEnd)
    }

    constructor (b: nat, e: nat, g: Graph)
      ensures vertexBegin == b && vertexEnd == e && this.g == g
      ensures fresh(hints) && hints.Length == MAX_HINT_NUM && hintNum == 0
    {
      vertexBegin, vertexEnd, this.g := b, e, g;
      hints := new AdjHint[MAX_HINT_NUM](_ => AdjHint(0, 0, 0, 0, 0));
      hintNum := 0;
    }

    /** The scan has come to v: the runs before it are found, one for each degree seen. */
    ghost predicate Scanned(v: nat, current: nat, maxD: nat)
      reads this, hints
    {
      if v == vertexBegin then hintNum == 0 && current == 0
      else
        && 0 < hintNum <= hints.Length && vertexBegin < v <= |g.adj|
        && Runs(g, vertexBegin, hints[..hintNum], v)
        && current == hints[hintNum - 1].degree == g.adj[v - 1].degree
        && hintNum + current <= maxD + 1
    }

    /**
     * Scans the partition once and opens a hint at every change of degree. Sorted degrees between minD
     * and maxD give at most maxD - minD + 1 hints, so a range that `valid` accepts fits the array.
     */
    method Init(ghost minD: nat, ghost maxD: nat)
      requires g.Valid() && Contiguous(g.adj, vertexBegin, vertexEnd) && NonIncreasing(g.adj, vertexBegin, vertexEnd)
      requires forall v :: vertexBegin <= v < vertexEnd ==> minD <= g.adj[v].degree <= maxD
      requires hints.Length == MAX_HINT_NUM && maxD - minD + 1 <= MAX_HINT_NUM && hintNum == 0
      requires RunsFit(g.adj, vertexBegin, vertexEnd)
      modifies hints, `hintNum
      ensures Valid()
      ensures hintNum <= maxD - minD + 1
    {
      assert vertexBegin < vertexEnd <= |g.adj|;
      hide Runs, RunsFit, Contiguous, NonIncreasing, Graph.Valid;
      Scan(minD, maxD);
      assert g.adj[vertexEnd - 1].degree >= minD;
      Close();
    }

    /** The loop of Init. */
    method Scan(ghost minD: nat, ghost maxD: nat)
      requires g.Valid() && vertexBegin < vertexEnd <= |g.adj| && NonIncreasing(g.adj, vertexBegin, vertexEnd)
      requires forall v :: vertexBegin <= v < vertexEnd ==> minD <= g.adj[v].degree <= maxD
      requires hints.Length == MAX_HINT_NUM && maxD - minD + 1 <= MAX_HINT_NUM && hintNum == 0
      modifies hints, `hintNum
      ensures Scanned(vertexEnd, g.adj[vertexEnd - 1].degree, maxD)
    {
      hide Scanned, NonIncreasing, Graph.Valid;
      var v, current := vertexBegin, 0;
      NothingScanned(maxD);
      while v < vertexEnd
        invariant vertexBegin <= v <= vertexEnd && (vertexBegin < v ==> current == g.adj[v - 1].degree)
        invariant Scanned(v, current, maxD)
        decreases vertexEnd - v
      {
        DegreeStep(g, vertexBegin, vertexEnd, v);
        ScanOne(v, current, minD, maxD);
        current := g.adj[v].degree;
        v := v + 1;
      }
    }

    lemma NothingScanned(maxD: nat)
      requires hintNum == 0
      ensures Scanned(vertexBegin, 0, maxD)
    {
    }

    method ScanOne(v: nat, current: nat, ghost minD: nat, ghost maxD: nat)
      requires Scanned(v, current, maxD) && vertexBegin <= v < |g.adj| && 0 < g.adj[v].degree
      requires minD <= g.adj[v].degree <= maxD && (vertexBegin < v ==> g.adj[v].degree <= current)
      requires hints.Length == MAX_HINT_NUM && maxD - minD + 1 <= MAX_HINT_NUM
      modifies hints, `hintNum
      ensures Scanned(v + 1, g.adj[v].degree, maxD)
    {
      hide Runs;
      Visit(v, current);
    }

    /** The last run ends with the partition. */
    method Close()
      requires 0 < hintNum <= hints.Length && Runs(g, vertexBegin, hints[..hintNum], vertexEnd)
      modifies hints
      ensures Runs(g, vertexBegin, hints[..hintNum], vertexEnd)
      ensures hints[hintNum - 1].vertexEnd == vertexEnd
    {
      hide Runs;
      ghost var hs := hints[..hintNum];
      hints[hintNum - 1] := hints[hintNum - 1].(vertexEnd := vertexEnd);
      CloseRuns(g, vertexBegin, hs, vertexEnd, hints[..hintNum]);
    }

    /** One turn of the scan: vertex v extends the last run or opens the next one. */
    method Visit(v: nat, current: nat)
      requires v < |g.adj| && 0 < g.adj[v].degree
      requires hintNum < hints.Length || current == g.adj[v].degree
      requires if hintNum == 0 then v == vertexBegin && current == 0
               else (&& hintNum <= hints.Length && Runs(g, vertexBegin, hints[..hintNum], v)
                     && current == hints[hintNum - 1].degree)
      modifies hints, `hintNum
      ensures 0 < hintNum <= hints.Length
      ensures hintNum == old(hintNum) + (if current == g.adj[v].degree then 0 else 1)
      ensures Runs(g, vertexBegin, hints[..hintNum], v + 1)
      ensures hints[hintNum - 1].degree == g.adj[v].degree
    {
      hide Runs;
      if current != g.adj[v].degree {
        OpenRun(v);
      } else {
        ExtendRun(g, vertexBegin, hints[..hintNum], v);
      }
    }

    /** A change of degree at v: opens a hint there and closes the one before it. */
    method OpenRun(v: nat)
      requires v < |g.adj| && hintNum < hints.Length
      requires if hintNum == 0 then v == vertexBegin else Runs(g, vertexBegin, hints[..hintNum], v)
      modifies hints, `hintNum
      ensures hintNum == old(hintNum) + 1
      ensures Runs(g, vertexBegin, hints[..hintNum], v + 1)
      ensures hints[hintNum - 1].degree == g.adj[v].degree
    {
      hide Runs;
      ghost var hs := hints[..hintNum];
      var h := AdjHint(v, 0, g.adj[v].degree, g.adj[v].socket, g.adj[v].begin);
      hints[hintNum] := h;
      if hintNum != 0 {
        hints[hintNum - 1] := hints[hintNum - 1].(vertexEnd := v);
        NextRun(g, vertexBegin, hs, v, h, hints[..hintNum + 1]);
      } else {
        FirstRun(g, v, h);
        assert hints[..1] == [h];
      }
      hintNum := hintNum + 1;
    }

    /** The first hint whose end lies beyond v is v's own run; the fall-through return is never taken. */
    method Sample(v: nat, rd: Rand) returns (ret: nat)
      requires Valid() && vertexBegin <= v < vertexEnd
      modifies rd
      ensures ret == g.Neighbors(v)[rd.Draw(old(rd.pos), |g.Neighbors(v)|)]
      ensures rd.pos == old(rd.pos) + 1 && rd.realAt == old(rd.realAt)
      ensures Valid()
    {
      hide Runs, RunIndex;
      ret := 0;
      ghost var hs := hints[..hintNum];
      for h := 0 to hintNum
        invariant h == 0 || hints[h - 1].vertexEnd <= v
        invariant hints[..hintNum] == hs && rd.pos == old(rd.pos) && rd.realAt == old(rd.realAt)
      {
        var hint := hints[h];
        if v < hint.vertexEnd {
          HintHolds(g, vertexBegin, hs, vertexEnd, h, v);
          assert g.ListOk(g.adj[v]) && g.adj[v].degree == hint.degree;
          var r := rd.Gen(hint.degree);
          HintFinds(g, vertexBegin, vertexEnd, hint, v, r);
          ret := g.edges[hint.socket][hint.edgeBegin + RunIndex(v - hint.vertexBegin, hint.degree, r)];
          return;
        }
      }
      assert false;
    }
  }
}
