/**
 * Snake dealing of the hottest partitions (Graph::make, src/core/graph.hpp): vertices in degree order are
 * dealt to the partitions forwards, then backwards, skipping partitions that are full.
 */
module Snake {
  import opened Arith
  import opened Perm
  import opened DegreeSort

  /** What has been dealt: vertex i of temp went to slot w[i], in partition part[i]. */
  datatype Deal = Deal(w: seq<nat>, part: seq<nat>)

  /** Partitions [b[p], e[p]) follow one another from 0 to n. */
  ghost predicate Hands(n: nat, b: seq<nat>, e: seq<nat>) {
    && 0 < |b| == |e|
    && b[0] == 0 && e[|e| - 1] == n
    && (forall p :: 0 <= p < |b| ==> b[p] <= e[p])
    && (forall p :: 0 < p < |b| ==> b[p] == e[p - 1])
  }

  lemma {:induction false} HandsOrdered(n: nat, b: seq<nat>, e: seq<nat>, p: nat, q: nat)
    requires Hands(n, b, e) && p < q < |b|
    ensures e[p] <= b[q]
    decreases q
  {
    if p + 1 < q {
      HandsOrdered(n, b, e, p, q - 1);
    }
  }

  lemma {:induction false} HandEnd(n: nat, b: seq<nat>, e: seq<nat>, p: nat)
    requires Hands(n, b, e) && p < |b|
    ensures e[p] <= n
    decreases |b| - p
  {
    if p + 1 < |b| {
      HandEnd(n, b, e, p + 1);
    }
  }

  /** Cursors stay within their partitions. */
  ghost predicate Within(b: seq<nat>, c: seq<nat>, e: seq<nat>) {
    |b| == |c| == |e| && forall p :: 0 <= p < |b| ==> b[p] <= c[p] <= e[p]
  }

  /** How many slots of the first k partitions are taken. */
  ghost function Taken(b: seq<nat>, c: seq<nat>, e: seq<nat>, k: nat): nat
    requires Within(b, c, e) && k <= |b|
  {
    if k == 0 then 0 else Taken(b, c, e, k - 1) + (c[k - 1] - b[k - 1])
  }

  lemma {:induction false} TakeOne(b: seq<nat>, c: seq<nat>, c': seq<nat>, e: seq<nat>, p: nat, k: nat)
    requires Within(b, c, e) && Within(b, c', e) && k <= |b| && p < |b|
    requires c' == c[p := c[p] + 1]
    ensures Taken(b, c', e, k) == Taken(b, c, e, k) + (if p < k then 1 else 0)
  {
    if k != 0 {
      TakeOne(b, c, c', e, p, k - 1);
    }
  }

  lemma {:induction false} NoneTaken(b: seq<nat>, e: seq<nat>, k: nat)
    requires Within(b, b, e) && k <= |b|
    ensures Taken(b, b, e, k) == 0
  {
    if k != 0 {
      NoneTaken(b, e, k - 1);
    }
  }

  /** With every partition full, all n slots are taken. */
  lemma {:induction false} AllTaken(n: nat, b: seq<nat>, e: seq<nat>, k: nat)
    requires Hands(n, b, e) && Within(b, e, e) && 0 < k <= |b|
    ensures Taken(b, e, e, k) == e[k - 1]
  {
    if k != 1 {
      AllTaken(n, b, e, k - 1);
    } else {
      assert Taken(b, e, e, 0) == 0;
    }
  }

  /** With every partition full, all n slots are taken, and not before. */
  lemma {:induction false} FullTaken(b: seq<nat>, c: seq<nat>, e: seq<nat>, k: nat)
    requires Within(b, c, e) && Within(b, e, e) && k <= |b|
    ensures Taken(b, c, e, k) <= Taken(b, e, e, k)
    ensures Taken(b, c, e, k) == Taken(b, e, e, k) ==> forall p :: 0 <= p < k ==> c[p] == e[p]
  {
    if k != 0 {
      FullTaken(b, c, e, k - 1);
    }
  }

  // ----- The order of dealing -----

  /**
   * Partition p gets its vertex number r before partition q gets its number t: one pass after the other, and
   * within a pass from the first partition to the last or, in every second pass, back.
   */
  ghost predicate Earlier(p: nat, r: nat, q: nat, t: nat) {
    r < t || (r == t && if r % 2 == 0 then p < q else q < p)
  }

  /** The dealing so far: vertex after vertex, into slots inside the dealt parts, in that order. */
  ghost predicate Dealt(units: seq<VertexUnit>, temp: seq<VertexUnit>, d: Deal, b: seq<nat>, c: seq<nat>, e: seq<nat>) {
    && Within(b, c, e)
    && |d.w| == |d.part| == Taken(b, c, e, |b|) <= |temp| <= |units|
    && (forall i :: 0 <= i < |d.w| ==> Placed(units, temp, d, b, c, i))
    && (forall i, j :: 0 <= i < j < |d.w| ==> InOrder(d, b, i, j))
  }

  ghost predicate Placed(units: seq<VertexUnit>, temp: seq<VertexUnit>, d: Deal, b: seq<nat>, c: seq<nat>, i: nat)
    requires i < |d.w| == |d.part| && i < |temp| && |b| == |c|
  {
    && d.part[i] < |b|
    && b[d.part[i]] <= d.w[i] < c[d.part[i]]
    && d.w[i] < |temp| && d.w[i] < |units|
    && units[d.w[i]] == temp[i]
  }

  ghost predicate InOrder(d: Deal, b: seq<nat>, i: nat, j: nat)
    requires i < j < |d.w| == |d.part|
  {
    && d.part[i] < |b| && d.part[j] < |b| && b[d.part[i]] <= d.w[i] && b[d.part[j]] <= d.w[j]
    && Earlier(d.part[i], d.w[i] - b[d.part[i]], d.part[j], d.w[j] - b[d.part[j]])
  }

  lemma DealtShape(units: seq<VertexUnit>, temp: seq<VertexUnit>, d: Deal, b: seq<nat>, c: seq<nat>, e: seq<nat>)
    requires Dealt(units, temp, d, b, c, e)
    ensures Within(b, c, e) && |d.w| == Taken(b, c, e, |b|) <= |temp| <= |units|
  {
  }

  /** The slot partition p fills next belongs to no dealt vertex and to no other partition's dealt part. */
  lemma NextSlotFree(n: nat, b: seq<nat>, c: seq<nat>, e: seq<nat>, p: nat, q: nat, s: nat)
    requires Hands(n, b, e) && Within(b, c, e)
    requires p < |b| && q < |b| && c[p] < e[p]
    requires b[q] <= s < c[q]
    ensures s != c[p]
  {
    if q < p {
      HandsOrdered(n, b, e, q, p);
    } else if p < q {
      HandsOrdered(n, b, e, p, q);
    }
  }

  /** When partition p has its turn in pass r over n partitions. */
  function Turn(n: nat, r: nat, p: nat): int {
    if r % 2 == 0 then p else n - p - 1
  }

  /** After the first i turns of pass r: every partition has its vertex of each pass, as far as it has room. */
  ghost predicate InPass(b: seq<nat>, c: seq<nat>, e: seq<nat>, r: nat, i: nat) {
    && |b| == |c| == |e|
    && forall p :: 0 <= p < |b| ==> c[p] == Min(b[p] + r + (if Turn(|b|, r, p) < i then 1 else 0), e[p])
  }

  /** Giving the next vertex to partition p, whose turn it is and which still has room. */
  lemma DealOne(units: seq<VertexUnit>, temp: seq<VertexUnit>, d: Deal, b: seq<nat>, c: seq<nat>, e: seq<nat>,
                r: nat, p: nat)
    requires Hands(|temp|, b, e) && Dealt(units, temp, d, b, c, e) && p < |b| && c[p] < e[p]
    requires |d.w| < |temp| && InPass(b, c, e, r, Turn(|b|, r, p))
    ensures c[p] < |temp|
    ensures Dealt(units[c[p] := temp[|d.w|]], temp, Deal(d.w + [c[p]], d.part + [p]), b, c[p := c[p] + 1], e)
    ensures InPass(b, c[p := c[p] + 1], e, r, Turn(|b|, r, p) + 1)
  {
    hide Hands;
    HandEnd(|temp|, b, e, p);
    var v := |d.w|;
    var units', d', c' := units[c[p] := temp[v]], Deal(d.w + [c[p]], d.part + [p]), c[p := c[p] + 1];
    TakeOne(b, c, c', e, p, |b|);
    forall i | 0 <= i < v
      ensures Placed(units', temp, d', b, c', i) && InOrder(d', b, i, v)
    {
      assert Placed(units, temp, d, b, c, i);
      NextSlotFree(|temp|, b, c, e, p, d.part[i], d.w[i]);
    }
    forall i, j | 0 <= i < j < |d'.w|
      ensures InOrder(d', b, i, j)
    {
      assert j < v ==> InOrder(d, b, i, j);
    }
  }

  /** A turn that gives nothing: the partition is full. */
  lemma SkipOne(n: nat, b: seq<nat>, c: seq<nat>, e: seq<nat>, r: nat, p: nat, v: nat)
    requires Hands(n, b, e) && Within(b, c, e) && v == Taken(b, c, e, |b|) && p < |b|
    requires InPass(b, c, e, r, Turn(|b|, r, p)) && (v < n ==> c[p] == e[p])
    ensures InPass(b, c, e, r, Turn(|b|, r, p) + 1)
  {
    AllTaken(n, b, e, |b|);
    FullTaken(b, c, e, |b|);
  }

  /** Between two passes; and while something is left to deal, some partition has room in this one. */
  lemma NextPass(n: nat, b: seq<nat>, c: seq<nat>, e: seq<nat>, r: nat)
    requires Hands(n, b, e) && Within(b, c, e)
    ensures InPass(b, c, e, r, |b|) <==> InPass(b, c, e, r + 1, 0)
    ensures InPass(b, c, e, r, 0) && Taken(b, c, e, |b|) < n ==> r < n
  {
    if InPass(b, c, e, r, 0) && Taken(b, c, e, |b|) < n {
      var p := SomeRoom(n, b, c, e);
      hide Hands, Taken;
      HandEnd(n, b, e, p);
    }
  }

  lemma SomeRoom(n: nat, b: seq<nat>, c: seq<nat>, e: seq<nat>) returns (p: nat)
    requires Hands(n, b, e) && Within(b, c, e) && Taken(b, c, e, |b|) < n
    ensures p < |b| && c[p] < e[p]
  {
    AllTaken(n, b, e, |b|);
    p := 0;
    while p < |b| && c[p] == e[p]
      invariant p <= |b| && forall q :: 0 <= q < p ==> c[q] == e[q]
    {
      p := p + 1;
    }
    assert p == |b| ==> c == e;
  }

  lemma TurnOf(n: nat, r: nat, p: nat, i: nat)
    requires p < n && i < n && p == if r % 2 == 1 then n - i - 1 else i
    ensures Turn(n, r, p) == i
  {
  }

  /** Partition p's turn: it gets the next vertex if one is left and it has room. */
  method Give(units: array<VertexUnit>, temp: seq<VertexUnit>, cursors: array<nat>, ghost b: seq<nat>, e: seq<nat>,
              v0: nat, p: nat, ghost d0: Deal, ghost r: nat)
    returns (v: nat, ghost d: Deal)
    requires units != cursors as object && Hands(|temp|, b, e) && p < |e| && 0 <= Turn(|e|, r, p)
    requires Dealt(units[..], temp, d0, b, cursors[..], e) && |d0.w| == v0
    requires InPass(b, cursors[..], e, r, Turn(|e|, r, p))
    modifies units, cursors
    ensures Dealt(units[..], temp, d, b, cursors[..], e) && |d.w| == v
    ensures InPass(b, cursors[..], e, r, Turn(|e|, r, p) + 1)
    ensures |temp| <= units.Length && units[|temp|..] == old(units[|temp|..])
  {
    ghost var us, cs := units[..], cursors[..];
    DealtShape(us, temp, d0, b, cs, e);
    v, d := v0, d0;
    hide Hands, Dealt, InPass, Taken, Turn;
    if v < |temp| && cursors[p] < e[p] {
      DealOne(us, temp, d, b, cs, e, r, p);
      d := Deal(d.w + [cs[p]], d.part + [p]);
      units[cursors[p]] := temp[v];
      cursors[p] := cursors[p] + 1;
      v := v + 1;
      assert units[..] == us[cs[p] := temp[v0]] && cursors[..] == cs[p := cs[p] + 1];
      assert units[|temp|..] == us[|temp|..];
    } else {
      SkipOne(|temp|, b, cs, e, r, p, v);
    }
  }

  /** One of the two inner loops: every partition with room gets the next vertex, in turn. */
  method Pass(units: array<VertexUnit>, temp: seq<VertexUnit>, cursors: array<nat>, ghost b: seq<nat>, e: seq<nat>,
              v0: nat, backward: bool, ghost d0: Deal, ghost r: nat)
    returns (v: nat, ghost d: Deal)
    requires units != cursors as object && Hands(|temp|, b, e) && (backward <==> r % 2 == 1)
    requires Dealt(units[..], temp, d0, b, cursors[..], e) && |d0.w| == v0 && InPass(b, cursors[..], e, r, 0)
    modifies units, cursors
    ensures Dealt(units[..], temp, d, b, cursors[..], e) && |d.w| == v && InPass(b, cursors[..], e, r + 1, 0)
    ensures v <= |temp| <= units.Length && units[|temp|..] == old(units[|temp|..]) && (v < |temp| ==> r + 1 < |temp|)
  {
    DealtShape(units[..], temp, d0, b, cursors[..], e);
    v, d := v0, d0;
    hide Hands, Dealt, InPass, Taken, Turn;
    for i := 0 to |e|
      invariant |b| == |e| == cursors.Length && |temp| <= units.Length
      invariant Dealt(units[..], temp, d, b, cursors[..], e) && |d.w| == v
      invariant InPass(b, cursors[..], e, r, i) && units[|temp|..] == old(units[|temp|..])
    {
      var p := if backward then |e| - i - 1 else i;
      TurnOf(|b|, r, p, i);
      v, d := Give(units, temp, cursors, b, e, v, p, d, r);
    }
    DealtShape(units[..], temp, d, b, cursors[..], e);
    NextPass(|temp|, b, cursors[..], e, r);
    NextPass(|temp|, b, cursors[..], e, r + 1);
  }

  // ----- The whole dealing -----

  lemma DealStart(units: seq<VertexUnit>, temp: seq<VertexUnit>, b: seq<nat>, e: seq<nat>)
    requires Hands(|temp|, b, e) && |temp| <= |units|
    ensures Dealt(units, temp, Deal([], []), b, b, e) && InPass(b, b, e, 0, 0)
  {
    NoneTaken(b, e, |b|);
  }

  /** A finished dealing rearranges the vertices. */
  lemma DealPermutes(units: seq<VertexUnit>, temp: seq<VertexUnit>, d: Deal, b: seq<nat>, c: seq<nat>, e: seq<nat>)
    requires Hands(|temp|, b, e) && Dealt(units, temp, d, b, c, e) && |d.w| == |temp|
    ensures IsPerm(d.w)
    ensures multiset(units[..|temp|]) == multiset(temp)
  {
    DealtShape(units, temp, d, b, c, e);
    hide Taken, Hands;
    forall i | 0 <= i < |d.w|
      ensures d.w[i] < |temp| && units[d.w[i]] == temp[i]
    {
      assert Placed(units, temp, d, b, c, i);
    }
    forall i, j | 0 <= i < j < |d.w|
      ensures d.w[i] != d.w[j]
    {
      assert InOrder(d, b, i, j) && Placed(units, temp, d, b, c, i) && Placed(units, temp, d, b, c, j);
      if d.part[i] < d.part[j] {
        HandsOrdered(|temp|, b, e, d.part[i], d.part[j]);
      } else if d.part[j] < d.part[i] {
        HandsOrdered(|temp|, b, e, d.part[j], d.part[i]);
      }
    }
    assert Gather(units[..|temp|], d.w) == temp;
    GatherKeepsMultiset(units[..|temp|], d.w);
  }

  /**
   * Degrees fall in the order of dealing, which this determines: what partition p gets as its vertex number
   * s - b[p] has no lower degree than whatever is dealt later.
   */
  ghost predicate SnakeOrder(degrees: seq<nat>, b: seq<nat>, e: seq<nat>) {
    && |b| == |e|
    && forall p, s, q, t :: 0 <= p < |b| && 0 <= q < |b| && b[p] <= s < e[p] && b[q] <= t < e[q] ==>
         Falls(degrees, b, p, s, q, t)
  }

  ghost predicate Falls(degrees: seq<nat>, b: seq<nat>, p: nat, s: nat, q: nat, t: nat)
    requires p < |b| && q < |b| && b[p] <= s && b[q] <= t
  {
    s < |degrees| && t < |degrees| && (Earlier(p, s - b[p], q, t - b[q]) ==> degrees[t] <= degrees[s])
  }

  lemma DealOrders(units: seq<VertexUnit>, temp: seq<VertexUnit>, d: Deal, b: seq<nat>, c: seq<nat>, e: seq<nat>)
    requires Hands(|temp|, b, e) && FallingDegrees(temp)
    requires Dealt(units, temp, d, b, c, e) && |d.w| == |temp|
    ensures SnakeOrder(Degrees(units), b, e)
  {
    DealtShape(units, temp, d, b, c, e);
    DealPermutes(units, temp, d, b, c, e);
    hide Hands, Dealt, FallingDegrees, IsPerm;
    forall p, s, q, t | 0 <= p < |b| && 0 <= q < |b| && b[p] <= s < e[p] && b[q] <= t < e[q]
      ensures Falls(Degrees(units), b, p, s, q, t)
    {
      HandEnd(|temp|, b, e, p);
      HandEnd(|temp|, b, e, q);
      DealFalls(units, temp, d, b, c, e, p, s, q, t);
    }
  }

  /** What is dealt later has no higher degree. */
  lemma DealFalls(units: seq<VertexUnit>, temp: seq<VertexUnit>, d: Deal, b: seq<nat>, c: seq<nat>, e: seq<nat>,
                  p: nat, s: nat, q: nat, t: nat)
    requires Hands(|temp|, b, e) && FallingDegrees(temp) && IsPerm(d.w)
    requires Dealt(units, temp, d, b, c, e) && |d.w| == |temp| && s < |temp| && t < |temp|
    requires p < |b| && q < |b| && b[p] <= s < e[p] && b[q] <= t < e[q]
    ensures Falls(Degrees(units), b, p, s, q, t)
  {
    Surjective(d.w, s);
    Surjective(d.w, t);
    var i :| 0 <= i < |d.w| && d.w[i] == s;
    var j :| 0 <= j < |d.w| && d.w[j] == t;
    SlotPart(units, temp, d, b, c, e, p, i);
    SlotPart(units, temp, d, b, c, e, q, j);
    assert j < i ==> InOrder(d, b, j, i);
  }

  lemma SlotPart(units: seq<VertexUnit>, temp: seq<VertexUnit>, d: Deal, b: seq<nat>, c: seq<nat>, e: seq<nat>,
                 p: nat, i: nat)
    requires Hands(|temp|, b, e) && Dealt(units, temp, d, b, c, e)
    requires p < |b| && i < |d.w| && b[p] <= d.w[i] < e[p]
    ensures d.part[i] == p && d.w[i] < |units| && units[d.w[i]] == temp[i]
  {
    assert Placed(units, temp, d, b, c, i);
    var q := d.part[i];
    if q < p {
      HandsOrdered(|temp|, b, e, q, p);
    } else if p < q {
      HandsOrdered(|temp|, b, e, p, q);
    }
  }

  /**
   * Deals the first vertices of `units` to the partitions [b[p], e[p]). It terminates, rearranges only those
   * vertices, and leaves their degrees falling in snake order.
   */
  method SnakeDeal(units: array<VertexUnit>, b: seq<nat>, e: seq<nat>)
    requires 0 < |b| == |e| && 0 < e[|e| - 1] <= units.Length && Hands(e[|e| - 1], b, e)
    requires FallingDegrees(units[..e[|e| - 1]])
    modifies units
    ensures multiset(units[..e[|e| - 1]]) == multiset(old(units[..e[|e| - 1]]))
    ensures units[e[|e| - 1]..] == old(units[e[|e| - 1]..])
    ensures SnakeOrder(Degrees(units[..]), b, e)
  {
    var n := e[|e| - 1];
    var temp := units[..n];
    var cursors := new nat[|b|](i requires 0 <= i < |b| => b[i]);
    assert cursors[..] == b;
    ghost var d, r := Deal([], []), 0;
    DealStart(units[..], temp, b, e);
    var v := 0;
    hide Dealt, Hands, FallingDegrees, InPass, Taken;
    while v < n
      invariant Dealt(units[..], temp, d, b, cursors[..], e) && |d.w| == v <= n
      invariant InPass(b, cursors[..], e, r, 0) && r % 2 == 0
      invariant units[n..] == old(units[n..]) && (v < n ==> r < n)
      decreases if v < n then n - r else 0
    {
      v, d := Pass(units, temp, cursors, b, e, v, false, d, r);
      v, d := Pass(units, temp, cursors, b, e, v, true, d, r + 1);
      r := r + 2;
    }
    DealPermutes(units[..], temp, d, b, cursors[..], e);
    assert units[..][..n] == units[..n];
    DealOrders(units[..], temp, d, b, cursors[..], e);
  }

  // ----- What the order is good for -----

  /** Degrees never rise along a hand. */
  lemma HandFalls(degrees: seq<nat>, b: seq<nat>, e: seq<nat>, p: nat, s: nat, t: nat)
    requires SnakeOrder(degrees, b, e) && p < |b| && b[p] <= s <= t < e[p]
    ensures t < |degrees| && degrees[t] <= degrees[s]
  {
    assert Falls(degrees, b, p, s, p, t);
  }

  /** There and back: two passes give p first, then q, then q again, and p last, whoever is between them. */
  lemma ThereAndBack(degrees: seq<nat>, b: seq<nat>, e: seq<nat>, p: nat, q: nat, k: nat)
    requires SnakeOrder(degrees, b, e) && p < q < |b| && b[p] + 2 * k + 1 < e[p] && b[q] + 2 * k + 1 < e[q]
    ensures b[p] + 2 * k + 1 < |degrees| && b[q] + 2 * k + 1 < |degrees|
    ensures degrees[b[p] + 2 * k] >= degrees[b[q] + 2 * k] >= degrees[b[q] + 2 * k + 1] >= degrees[b[p] + 2 * k + 1]
  {
    assert Falls(degrees, b, p, b[p] + 2 * k, q, b[q] + 2 * k);
    assert Falls(degrees, b, q, b[q] + 2 * k, q, b[q] + 2 * k + 1);
    assert Falls(degrees, b, q, b[q] + 2 * k + 1, p, b[p] + 2 * k + 1);
  }

  /** The edges of the vertices in slots [lo, hi). */
  ghost function EdgeSum(degrees: seq<nat>, lo: nat, hi: nat): nat
    requires hi <= |degrees|
    decreases hi
  {
    if hi <= lo then 0 else EdgeSum(degrees, lo, hi - 1) + degrees[hi - 1]
  }

  /** After k passes the edge totals of two hands differ by at most the range of the degrees they got. */
  lemma {:induction false} KeepsLevel(degrees: seq<nat>, b: seq<nat>, e: seq<nat>, p: nat, q: nat, k: nat)
    requires SnakeOrder(degrees, b, e) && p < |b| && q < |b| && 0 < k && b[p] + k <= e[p] && b[q] + k <= e[q]
    ensures b[p] + k <= |degrees| && b[q] + k <= |degrees|
    ensures EdgeSum(degrees, b[p], b[p] + k) - EdgeSum(degrees, b[q], b[q] + k)
      <= Max(degrees[b[p]], degrees[b[q]]) - Min(degrees[b[p] + k - 1], degrees[b[q] + k - 1])
  {
    assert Falls(degrees, b, p, b[p] + k - 1, q, b[q] + k - 1);
    if 1 < k {
      KeepsLevel(degrees, b, e, p, q, k - 1);
      assert Falls(degrees, b, p, b[p] + k - 2, p, b[p] + k - 1) && Falls(degrees, b, p, b[p] + k - 2, q, b[q] + k - 1);
      assert Falls(degrees, b, q, b[q] + k - 2, p, b[p] + k - 1) && Falls(degrees, b, q, b[q] + k - 2, q, b[q] + k - 1);
    } else {
      assert EdgeSum(degrees, b[p], b[p]) == 0 && EdgeSum(degrees, b[q], b[q]) == 0;
    }
  }
}
