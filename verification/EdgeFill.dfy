/**
 * The parallel edge fill of Graph::make (src/core/graph.hpp) as a state machine. Every directed arc is
 * inserted in two atomic steps, by any thread and in any order: a fetch-and-add on its source's cursor
 * claims a slot, and a store puts its target there.
 */
module EdgeFill {
  import opened Arith
  import opened Buckets
  import opened Perm
  import opened Csr

  datatype Arc = Arc(src: nat, dst: nat)

  /** Where an insertion stands: not begun, slot claimed, or target stored. */
  datatype Pc = Todo | Holding(slot: nat) | Done(slot: nat)

  datatype State = State(cursor: seq<nat>, pcs: seq<Pc>, edges: seq<seq<nat>>)

  ghost function Sources(arcs: seq<Arc>): (s: seq<nat>)
    ensures |s| == |arcs|
    ensures forall k :: 0 <= k < |arcs| ==> s[k] == arcs[k].src
  {
    seq<nat>(|arcs|, k requires 0 <= k < |arcs| => arcs[k].src)
  }

  /** The lists have room for exactly the arcs of their vertex, and do not overlap. */
  ghost predicate Fits(adj: seq<AdjList>, sizes: seq<nat>, arcs: seq<Arc>) {
    && ListsApart(adj)
    && (forall v :: 0 <= v < |adj| ==> ListFits(adj, sizes, arcs, v))
    && (forall k :: 0 <= k < |arcs| ==> arcs[k].src < |adj| && arcs[k].dst < |adj|)
  }

  ghost predicate ListFits(adj: seq<AdjList>, sizes: seq<nat>, arcs: seq<Arc>, v: nat)
    requires v < |adj|
  {
    && adj[v].degree == Count(Sources(arcs), v, |arcs|)
    && adj[v].socket < |sizes| && adj[v].begin + adj[v].degree <= sizes[adj[v].socket]
  }

  ghost predicate Init(adj: seq<AdjList>, sizes: seq<nat>, arcs: seq<Arc>, s: State) {
    && |s.cursor| == |adj| && |s.pcs| == |arcs| && |s.edges| == |sizes|
    && (forall v :: 0 <= v < |adj| ==> s.cursor[v] == adj[v].begin)
    && (forall k :: 0 <= k < |arcs| ==> s.pcs[k] == Todo)
    && (forall i :: 0 <= i < |sizes| ==> |s.edges[i]| == sizes[i])
  }

  /** __sync_fetch_and_add on edge_end. */
  ghost predicate Claim(arcs: seq<Arc>, s: State, s': State, k: nat) {
    && k < |arcs| == |s.pcs| && s.pcs[k] == Todo && arcs[k].src < |s.cursor|
    && var u := arcs[k].src;
       s' == s.(cursor := s.cursor[u := s.cursor[u] + 1], pcs := s.pcs[k := Holding(s.cursor[u])])
  }

  /** The store to the claimed slot. */
  ghost predicate Store(adj: seq<AdjList>, arcs: seq<Arc>, s: State, s': State, k: nat) {
    && k < |arcs| == |s.pcs| && s.pcs[k].Holding? && arcs[k].src < |adj|
    && var a := adj[arcs[k].src];
       && a.socket < |s.edges| && s.pcs[k].slot < |s.edges[a.socket]|
       && s' == s.(pcs := s.pcs[k := Done(s.pcs[k].slot)],
                   edges := s.edges[a.socket := s.edges[a.socket][s.pcs[k].slot := arcs[k].dst]])
  }

  ghost predicate Next(adj: seq<AdjList>, arcs: seq<Arc>, s: State, s': State) {
    exists k :: Claim(arcs, s, s', k) || Store(adj, arcs, s, s', k)
  }

  /** A run of the fill: any interleaving of the insertions' steps. */
  ghost predicate Run(adj: seq<AdjList>, sizes: seq<nat>, arcs: seq<Arc>, trace: seq<State>) {
    && 0 < |trace| && Init(adj, sizes, arcs, trace[0])
    && forall i :: 0 <= i < |trace| - 1 ==> Next(adj, arcs, trace[i], trace[i + 1])
  }

  ghost predicate AllDone(s: State) {
    forall k :: 0 <= k < |s.pcs| ==> s.pcs[k].Done?
  }

  // ----- Invariant -----

  /** How many of the first n insertions from u have claimed a slot. */
  ghost function Begun(arcs: seq<Arc>, pcs: seq<Pc>, u: nat, n: nat): nat
    requires n <= |arcs| == |pcs|
  {
    if n == 0 then 0
    else Begun(arcs, pcs, u, n - 1) + (if arcs[n - 1].src == u && pcs[n - 1] != Todo then 1 else 0)
  }

  ghost predicate Inv(adj: seq<AdjList>, sizes: seq<nat>, arcs: seq<Arc>, s: State) {
    && |s.cursor| == |adj| && |s.pcs| == |arcs| && |s.edges| == |sizes|
    && (forall i :: 0 <= i < |sizes| ==> |s.edges[i]| == sizes[i])
    && (forall v :: 0 <= v < |adj| ==> s.cursor[v] == adj[v].begin + Begun(arcs, s.pcs, v, |arcs|))
    && (forall k :: 0 <= k < |arcs| ==> SlotOk(adj, arcs, s, k))
    && (forall j, k :: 0 <= j < k < |arcs| ==> SlotsDiffer(arcs, s, j, k))
  }

  /** A claimed slot lies between the list's start and its cursor; a stored one holds the target. */
  ghost predicate SlotOk(adj: seq<AdjList>, arcs: seq<Arc>, s: State, k: nat)
    requires k < |arcs| == |s.pcs| && |s.cursor| == |adj|
  {
    s.pcs[k] != Todo ==>
      && arcs[k].src < |adj|
      && adj[arcs[k].src].begin <= s.pcs[k].slot < s.cursor[arcs[k].src]
      && (s.pcs[k].Done? ==> Stored(adj, arcs, s, k))
  }

  ghost predicate Stored(adj: seq<AdjList>, arcs: seq<Arc>, s: State, k: nat)
    requires k < |arcs| == |s.pcs| && s.pcs[k] != Todo && arcs[k].src < |adj|
  {
    var a := adj[arcs[k].src];
    && a.socket < |s.edges| && s.pcs[k].slot < |s.edges[a.socket]|
    && s.edges[a.socket][s.pcs[k].slot] == arcs[k].dst
  }

  ghost predicate SlotsDiffer(arcs: seq<Arc>, s: State, j: nat, k: nat)
    requires j < k < |arcs| == |s.pcs|
  {
    s.pcs[j] != Todo && s.pcs[k] != Todo && arcs[j].src == arcs[k].src ==> s.pcs[j].slot != s.pcs[k].slot
  }

  lemma {:induction false} BegunNone(arcs: seq<Arc>, pcs: seq<Pc>, u: nat, n: nat)
    requires n <= |arcs| == |pcs|
    requires forall k :: 0 <= k < |arcs| ==> pcs[k] == Todo
    ensures Begun(arcs, pcs, u, n) == 0
  {
    if n != 0 {
      BegunNone(arcs, pcs, u, n - 1);
    }
  }

  lemma {:induction false} BegunSet(arcs: seq<Arc>, pcs: seq<Pc>, u: nat, n: nat, k: nat, pc: Pc)
    requires n <= |arcs| == |pcs| && k < |arcs| && pc != Todo
    ensures Begun(arcs, pcs[k := pc], u, n)
         == Begun(arcs, pcs, u, n) + (if k < n && arcs[k].src == u && pcs[k] == Todo then 1 else 0)
  {
    if n != 0 {
      BegunSet(arcs, pcs, u, n - 1, k, pc);
    }
  }

  /** While an insertion from u is still to begin, u's list has room. */
  lemma {:induction false} BegunBelow(arcs: seq<Arc>, pcs: seq<Pc>, u: nat, n: nat)
    requires n <= |arcs| == |pcs|
    ensures Begun(arcs, pcs, u, n) <= Count(Sources(arcs), u, n)
  {
    if n != 0 {
      BegunBelow(arcs, pcs, u, n - 1);
    }
  }

  lemma InitInv(adj: seq<AdjList>, sizes: seq<nat>, arcs: seq<Arc>, s: State)
    requires Init(adj, sizes, arcs, s)
    ensures Inv(adj, sizes, arcs, s)
  {
    forall v | 0 <= v < |adj|
      ensures s.cursor[v] == adj[v].begin + Begun(arcs, s.pcs, v, |arcs|)
    {
      BegunNone(arcs, s.pcs, v, |arcs|);
    }
  }

  lemma ClaimInv(adj: seq<AdjList>, sizes: seq<nat>, arcs: seq<Arc>, s: State, s': State, k: nat)
    requires Inv(adj, sizes, arcs, s) && Claim(arcs, s, s', k)
    ensures Inv(adj, sizes, arcs, s')
  {
    hide Begun, Stored;
    var u := arcs[k].src;
    forall v | 0 <= v < |adj|
      ensures s'.cursor[v] == adj[v].begin + Begun(arcs, s'.pcs, v, |arcs|)
    {
      BegunSet(arcs, s.pcs, v, |arcs|, k, Holding(s.cursor[u]));
    }
    forall i | 0 <= i < |arcs|
      ensures SlotOk(adj, arcs, s', i)
    {
      assert SlotOk(adj, arcs, s, i);
      if i != k && s.pcs[i].Done? {
        SameStored(adj, arcs, s, s', i);
      }
    }
    forall i, j | 0 <= i < j < |arcs|
      ensures SlotsDiffer(arcs, s', i, j)
    {
      assert SlotsDiffer(arcs, s, i, j);
      assert SlotOk(adj, arcs, s, i) && SlotOk(adj, arcs, s, j);
    }
  }

  lemma SameStored(adj: seq<AdjList>, arcs: seq<Arc>, s: State, s': State, i: nat)
    requires i < |arcs| == |s.pcs| == |s'.pcs| && s.pcs[i] == s'.pcs[i] != Todo && arcs[i].src < |adj|
    requires s.edges == s'.edges && Stored(adj, arcs, s, i)
    ensures Stored(adj, arcs, s', i)
  {
  }

  lemma StoreInv(adj: seq<AdjList>, sizes: seq<nat>, arcs: seq<Arc>, s: State, s': State, k: nat)
    requires Fits(adj, sizes, arcs)
    requires Inv(adj, sizes, arcs, s) && Store(adj, arcs, s, s', k)
    ensures Inv(adj, sizes, arcs, s')
  {
    hide Begun;
    forall v | 0 <= v < |adj|
      ensures s'.cursor[v] == adj[v].begin + Begun(arcs, s'.pcs, v, |arcs|)
    {
      BegunSet(arcs, s.pcs, v, |arcs|, k, Done(s.pcs[k].slot));
    }
    forall i | 0 <= i < |arcs|
      ensures SlotOk(adj, arcs, s', i)
    {
      assert SlotOk(adj, arcs, s, i);
      if i != k && s.pcs[i].Done? {
        KeepsStored(adj, sizes, arcs, s, s', k, i);
      }
    }
    forall i, j | 0 <= i < j < |arcs|
      ensures SlotsDiffer(arcs, s', i, j)
    {
      assert SlotsDiffer(arcs, s, i, j);
    }
  }

  /** The claimed slot of an insertion lies inside its own list. */
  lemma SlotInList(adj: seq<AdjList>, sizes: seq<nat>, arcs: seq<Arc>, s: State, k: nat)
    requires Fits(adj, sizes, arcs) && Inv(adj, sizes, arcs, s)
    requires k < |arcs| && s.pcs[k] != Todo
    ensures var a := adj[arcs[k].src]; a.begin <= s.pcs[k].slot < a.begin + a.degree
  {
    hide Begun, Count, ListsApart;
    assert SlotOk(adj, arcs, s, k);
    BegunBelow(arcs, s.pcs, arcs[k].src, |arcs|);
    assert ListFits(adj, sizes, arcs, arcs[k].src);
  }

  /** A store never overwrites another insertion's target. */
  lemma KeepsStored(adj: seq<AdjList>, sizes: seq<nat>, arcs: seq<Arc>, s: State, s': State, k: nat, i: nat)
    requires Fits(adj, sizes, arcs)
    requires Inv(adj, sizes, arcs, s) && Store(adj, arcs, s, s', k)
    requires i < |arcs| && i != k && s.pcs[i].Done? && Stored(adj, arcs, s, i)
    ensures Stored(adj, arcs, s', i)
  {
    SlotInList(adj, sizes, arcs, s, i);
    SlotInList(adj, sizes, arcs, s, k);
    var u, v := arcs[i].src, arcs[k].src;
    if u == v {
      assert SlotsDiffer(arcs, s, if i < k then i else k, if i < k then k else i);
    } else if adj[u].socket == adj[v].socket {
      assert if u < v then Apart(adj[u], adj[v]) else Apart(adj[v], adj[u]);
    }
  }

  lemma {:induction false} RunInv(adj: seq<AdjList>, sizes: seq<nat>, arcs: seq<Arc>, trace: seq<State>, n: nat)
    requires Fits(adj, sizes, arcs) && Run(adj, sizes, arcs, trace) && n < |trace|
    ensures Inv(adj, sizes, arcs, trace[n])
  {
    if n == 0 {
      InitInv(adj, sizes, arcs, trace[0]);
    } else {
      RunInv(adj, sizes, arcs, trace, n - 1);
      var s, s' := trace[n - 1], trace[n];
      assert Next(adj, arcs, trace[n - 1], trace[n - 1 + 1]);
      var k :| Claim(arcs, s, s', k) || Store(adj, arcs, s, s', k);
      if Claim(arcs, s, s', k) {
        ClaimInv(adj, sizes, arcs, s, s', k);
      } else {
        StoreInv(adj, sizes, arcs, s, s', k);
      }
    }
  }

  /** No run gets stuck before every arc is in place. */
  lemma Progress(adj: seq<AdjList>, sizes: seq<nat>, arcs: seq<Arc>, s: State) returns (s': State)
    requires Fits(adj, sizes, arcs) && Inv(adj, sizes, arcs, s) && !AllDone(s)
    ensures Next(adj, arcs, s, s')
  {
    hide Begun;
    var k :| 0 <= k < |s.pcs| && !s.pcs[k].Done?;
    var u := arcs[k].src;
    if s.pcs[k] == Todo {
      s' := s.(cursor := s.cursor[u := s.cursor[u] + 1], pcs := s.pcs[k := Holding(s.cursor[u])]);
      assert Claim(arcs, s, s', k);
    } else {
      SlotInList(adj, sizes, arcs, s, k);
      assert ListFits(adj, sizes, arcs, u);
      var a := adj[u];
      s' := s.(pcs := s.pcs[k := Done(s.pcs[k].slot)],
               edges := s.edges[a.socket := s.edges[a.socket][s.pcs[k].slot := arcs[k].dst]]);
      assert Store(adj, arcs, s, s', k);
    }
  }

  // ----- Every run comes to an end -----

  /** The atomic steps the insertions still have to take, insertion by insertion. */
  ghost function StepsLeft(pcs: seq<Pc>): (r: seq<nat>)
    ensures |r| == |pcs|
  {
    seq<nat>(|pcs|, k requires 0 <= k < |pcs| => match pcs[k] case Todo => 2 case Holding(_) => 1 case Done(_) => 0)
  }

  lemma StepsLeftSet(pcs: seq<Pc>, k: nat, pc: Pc)
    requires k < |pcs|
    ensures Total(StepsLeft(pcs[k := pc])) == Total(StepsLeft(pcs)) - StepsLeft(pcs)[k] + StepsLeft([pc])[0]
  {
    TotalSet(StepsLeft(pcs), k, StepsLeft([pc])[0]);
    assert StepsLeft(pcs[k := pc]) == StepsLeft(pcs)[k := StepsLeft([pc])[0]];
  }

  lemma OneStepLess(adj: seq<AdjList>, arcs: seq<Arc>, s: State, s': State)
    requires Next(adj, arcs, s, s')
    ensures Total(StepsLeft(s'.pcs)) + 1 == Total(StepsLeft(s.pcs))
  {
    var k: nat :| Claim(arcs, s, s', k) || Store(adj, arcs, s, s', k);
    StepsLeftSet(s.pcs, k, s'.pcs[k]);
  }

  lemma NothingBegun(pcs: seq<Pc>)
    requires forall k :: 0 <= k < |pcs| ==> pcs[k] == Todo
    ensures Total(StepsLeft(pcs)) == 2 * |pcs|
  {
    TotalSame(StepsLeft(pcs), 2);
  }

  lemma {:induction false} StepsCounted(adj: seq<AdjList>, sizes: seq<nat>, arcs: seq<Arc>, trace: seq<State>, n: nat)
    requires Run(adj, sizes, arcs, trace) && n < |trace|
    ensures n + Total(StepsLeft(trace[n].pcs)) == 2 * |arcs|
  {
    hide StepsLeft, Next;
    if n == 0 {
      NothingBegun(trace[0].pcs);
    } else {
      StepsCounted(adj, sizes, arcs, trace, n - 1);
      assert Next(adj, arcs, trace[n - 1], trace[n - 1 + 1]);
      OneStepLess(adj, arcs, trace[n - 1], trace[n]);
    }
  }

  lemma NothingLeft(pcs: seq<Pc>)
    ensures Total(StepsLeft(pcs)) == 0 <==> forall k :: 0 <= k < |pcs| ==> pcs[k].Done?
  {
    var none := seq<nat>(|pcs|, _ => 0);
    TotalSame(none, 0);
    TotalMono(none, StepsLeft(pcs));
    if forall k :: 0 <= k < |pcs| ==> pcs[k].Done? {
      TotalSame(StepsLeft(pcs), 0);
    } else {
      var k :| 0 <= k < |pcs| && !pcs[k].Done?;
      assert none[k] < StepsLeft(pcs)[k];
    }
  }

  /** However the insertions are interleaved, a run takes two steps for each arc, and has then come to its end. */
  lemma RunLength(adj: seq<AdjList>, sizes: seq<nat>, arcs: seq<Arc>, trace: seq<State>)
    requires Run(adj, sizes, arcs, trace)
    ensures |trace| <= 2 * |arcs| + 1
    ensures AllDone(trace[|trace| - 1]) <==> |trace| == 2 * |arcs| + 1
  {
    StepsCounted(adj, sizes, arcs, trace, |trace| - 1);
    NothingLeft(trace[|trace| - 1].pcs);
  }

  /** Every run can go on to its end. */
  lemma {:induction false} Completed(adj: seq<AdjList>, sizes: seq<nat>, arcs: seq<Arc>, begun: seq<State>)
    returns (trace: seq<State>)
    requires Fits(adj, sizes, arcs) && Run(adj, sizes, arcs, begun)
    ensures Run(adj, sizes, arcs, trace) && AllDone(trace[|trace| - 1]) && begun <= trace
    decreases 2 * |arcs| + 1 - |begun|
  {
    hide Fits, Next, AllDone, Init;
    var s := begun[|begun| - 1];
    RunLength(adj, sizes, arcs, begun);
    if AllDone(s) {
      trace := begun;
    } else {
      RunInv(adj, sizes, arcs, begun, |begun| - 1);
      var s' := Progress(adj, sizes, arcs, s);
      trace := Completed(adj, sizes, arcs, begun + [s']);
    }
  }

  /** There is a complete run of the fill. */
  lemma Fillable(adj: seq<AdjList>, sizes: seq<nat>, arcs: seq<Arc>) returns (trace: seq<State>)
    requires Fits(adj, sizes, arcs)
    ensures Run(adj, sizes, arcs, trace) && AllDone(trace[|trace| - 1])
  {
    var first := State(seq<nat>(|adj|, v requires 0 <= v < |adj| => adj[v].begin), seq(|arcs|, _ => Todo),
                       seq(|sizes|, i requires 0 <= i < |sizes| => seq<nat>(sizes[i], _ => 0)));
    trace := Completed(adj, sizes, arcs, [first]);
  }

  // ----- Conservation -----

  /** Every list lies inside its edge array. */
  ghost predicate AllListed(g: Graph) {
    forall v :: 0 <= v < |g.adj| ==> g.ListOk(g.adj[v])
  }

  /** All arcs of the graph's first n lists, list after list. */
  ghost function ListArcs(g: Graph, n: nat): seq<Arc>
    requires n <= |g.adj| && AllListed(g)
  {
    if n == 0 then [] else ListArcs(g, n - 1) + VertexArcs(g, n - 1)
  }

  ghost function VertexArcs(g: Graph, v: nat): (r: seq<Arc>)
    requires v < |g.adj| && g.ListOk(g.adj[v])
    ensures |r| == g.adj[v].degree
    ensures forall i :: 0 <= i < |r| ==> r[i] == Arc(v, g.Neighbors(v)[i])
  {
    seq<Arc>(g.adj[v].degree, i requires 0 <= i < g.adj[v].degree => Arc(v, g.Neighbors(v)[i]))
  }

  /** Every list lies inside its edge array and is as long as its vertex has arcs. */
  ghost predicate ListsMatch(g: Graph, arcs: seq<Arc>) {
    && AllListed(g)
    && (forall v :: 0 <= v < |g.adj| ==> g.adj[v].degree == Count(Sources(arcs), v, |arcs|))
  }

  /** List u of the concatenation starts at the number of arcs from smaller vertices. */
  lemma {:induction false} ListArcsAt(g: Graph, arcs: seq<Arc>, n: nat, u: nat, r: nat)
    requires n <= |g.adj|
    requires ListsMatch(g, arcs)
    ensures |ListArcs(g, n)| == Start(Sources(arcs), n)
    ensures u < n && r < g.adj[u].degree ==>
      Start(Sources(arcs), u) + r < |ListArcs(g, n)|
      && ListArcs(g, n)[Start(Sources(arcs), u) + r] == Arc(u, g.Neighbors(u)[r])
    decreases n
  {
    hide Less, Count;
    if n == 0 {
      LessNone(Sources(arcs));
    } else {
      ListArcsAt(g, arcs, n - 1, u, r);
      LessNext(Sources(arcs), n - 1, |arcs|);
    }
  }

  lemma LessNone(ids: seq<nat>)
    ensures Start(ids, 0) == 0
  {
    var high := Bound(ids);
    LessEnds(ids, high, |ids|);
  }

  lemma Bound(ids: seq<nat>) returns (n: nat)
    ensures AllBelow(ids, n)
  {
    n := 0;
    for i := 0 to |ids|
      invariant forall j :: 0 <= j < i ==> ids[j] < n
    {
      n := if n <= ids[i] then ids[i] + 1 else n;
    }
  }

  /** Where arc k ends up in the concatenation of the lists. */
  ghost function Place(adj: seq<AdjList>, arcs: seq<Arc>, s: State, k: nat): int
    requires k < |arcs| == |s.pcs| && s.pcs[k].Done? && arcs[k].src < |adj|
  {
    Start(Sources(arcs), arcs[k].src) + s.pcs[k].slot - adj[arcs[k].src].begin
  }

  ghost function Places(adj: seq<AdjList>, arcs: seq<Arc>, s: State): (w: seq<nat>)
    requires |arcs| == |s.pcs|
    requires forall k :: 0 <= k < |arcs| ==> s.pcs[k].Done? && arcs[k].src < |adj| && 0 <= Place(adj, arcs, s, k)
    ensures |w| == |arcs|
    ensures forall k :: 0 <= k < |arcs| ==> w[k] == Place(adj, arcs, s, k)
  {
    seq<nat>(|arcs|, k requires 0 <= k < |arcs| => Place(adj, arcs, s, k))
  }

  lemma PlaceBounds(adj: seq<AdjList>, sizes: seq<nat>, arcs: seq<Arc>, s: State, k: nat)
    requires Fits(adj, sizes, arcs) && Inv(adj, sizes, arcs, s) && AllDone(s)
    requires k < |arcs|
    ensures arcs[k].src < |adj|
    ensures Start(Sources(arcs), arcs[k].src) <= Place(adj, arcs, s, k) < Start(Sources(arcs), arcs[k].src + 1) <=
      |arcs|
  {
    hide Less, Count, Inv;
    var u := arcs[k].src;
    InvShape(adj, sizes, arcs, s);
    SlotInList(adj, sizes, arcs, s, k);
    assert ListFits(adj, sizes, arcs, u);
    LessNext(Sources(arcs), u, |arcs|);
    LessMono(Sources(arcs), u + 1, |adj|, |arcs|);
    LessEnds(Sources(arcs), |adj|, |arcs|);
  }

  lemma InvShape(adj: seq<AdjList>, sizes: seq<nat>, arcs: seq<Arc>, s: State)
    requires Inv(adj, sizes, arcs, s)
    ensures |s.pcs| == |arcs| && |s.edges| == |sizes|
    ensures forall i :: 0 <= i < |sizes| ==> |s.edges[i]| == sizes[i]
  {
  }

  /** Different arcs end up in different places. */
  lemma PlaceDistinct(adj: seq<AdjList>, sizes: seq<nat>, arcs: seq<Arc>, s: State, j: nat, k: nat)
    requires Fits(adj, sizes, arcs) && Inv(adj, sizes, arcs, s) && AllDone(s)
    requires j < k < |arcs|
    ensures arcs[j].src < |adj| && arcs[k].src < |adj|
    ensures Place(adj, arcs, s, j) != Place(adj, arcs, s, k)
  {
    hide Less, Count;
    PlaceBounds(adj, sizes, arcs, s, j);
    PlaceBounds(adj, sizes, arcs, s, k);
    assert SlotsDiffer(arcs, s, j, k);
    var u, v := arcs[j].src, arcs[k].src;
    if u < v {
      LessMono(Sources(arcs), u + 1, v, |arcs|);
    } else if v < u {
      LessMono(Sources(arcs), v + 1, u, |arcs|);
    }
  }

  /** Every slot of every list is written by exactly one insertion. */
  lemma PlacesArePerm(adj: seq<AdjList>, sizes: seq<nat>, arcs: seq<Arc>, s: State)
    requires Fits(adj, sizes, arcs) && Inv(adj, sizes, arcs, s) && AllDone(s)
    ensures forall k :: 0 <= k < |arcs| ==> s.pcs[k].Done? && arcs[k].src < |adj| && 0 <= Place(adj, arcs, s, k)
    ensures IsPerm(Places(adj, arcs, s))
  {
    hide Place, Inv, Fits;
    InvShape(adj, sizes, arcs, s);
    forall k | 0 <= k < |arcs|
      ensures arcs[k].src < |adj| && 0 <= Place(adj, arcs, s, k) < |arcs|
    {
      PlaceBounds(adj, sizes, arcs, s, k);
    }
    forall j, k | 0 <= j < k < |arcs|
      ensures Place(adj, arcs, s, j) != Place(adj, arcs, s, k)
    {
      PlaceDistinct(adj, sizes, arcs, s, j, k);
    }
  }

  lemma FilledLists(adj: seq<AdjList>, sizes: seq<nat>, arcs: seq<Arc>, s: State)
    requires Fits(adj, sizes, arcs) && Inv(adj, sizes, arcs, s)
    requires forall v :: 0 <= v < |adj| ==> 0 < adj[v].degree
    ensures ListsMatch(Graph(adj, s.edges), arcs)
  {
    InvShape(adj, sizes, arcs, s);
    forall v | 0 <= v < |adj|
      ensures Graph(adj, s.edges).ListOk(adj[v]) && adj[v].degree == Count(Sources(arcs), v, |arcs|)
    {
      assert ListFits(adj, sizes, arcs, v);
    }
  }

  /** A stored arc is found in its own list. */
  lemma ArcInList(adj: seq<AdjList>, sizes: seq<nat>, arcs: seq<Arc>, s: State, k: nat)
    requires Fits(adj, sizes, arcs) && Inv(adj, sizes, arcs, s) && AllDone(s)
    requires ListsMatch(Graph(adj, s.edges), arcs)
    requires k < |arcs|
    ensures arcs[k].src < |adj|
    ensures var u := arcs[k].src;
            var r := s.pcs[k].slot - adj[u].begin;
            0 <= r < adj[u].degree && Graph(adj, s.edges).Neighbors(u)[r] == arcs[k].dst
  {
    hide Begun, Count, ListsApart;
    SlotInList(adj, sizes, arcs, s, k);
    assert SlotOk(adj, arcs, s, k);
    assert Stored(adj, arcs, s, k);
  }

  /** Arc k is found at its place in the finished graph. */
  lemma ArcAtPlace(adj: seq<AdjList>, sizes: seq<nat>, arcs: seq<Arc>, s: State, k: nat)
    requires Fits(adj, sizes, arcs) && Inv(adj, sizes, arcs, s) && AllDone(s)
    requires ListsMatch(Graph(adj, s.edges), arcs)
    requires k < |arcs|
    ensures arcs[k].src < |adj| && 0 <= Place(adj, arcs, s, k) < |ListArcs(Graph(adj, s.edges), |adj|)|
    ensures ListArcs(Graph(adj, s.edges), |adj|)[Place(adj, arcs, s, k)] == arcs[k]
  {
    hide Fits, Inv, ListsMatch, ListArcs, Less;
    InvShape(adj, sizes, arcs, s);
    PlaceBounds(adj, sizes, arcs, s, k);
    ArcInList(adj, sizes, arcs, s, k);
    var u := arcs[k].src;
    ListArcsAt(Graph(adj, s.edges), arcs, |adj|, u, s.pcs[k].slot - adj[u].begin);
  }

  lemma ArcsConserved(adj: seq<AdjList>, sizes: seq<nat>, arcs: seq<Arc>, s: State)
    requires Fits(adj, sizes, arcs) && Inv(adj, sizes, arcs, s) && AllDone(s)
    requires ListsMatch(Graph(adj, s.edges), arcs)
    requires |ListArcs(Graph(adj, s.edges), |adj|)| == |arcs|
    ensures multiset(ListArcs(Graph(adj, s.edges), |adj|)) == multiset(arcs)
  {
    PlacesArePerm(adj, sizes, arcs, s);
    var w := Places(adj, arcs, s);
    var all := ListArcs(Graph(adj, s.edges), |adj|);
    hide Fits, Place, Inv, ListsMatch, ListArcs, AllDone;
    forall k | 0 <= k < |arcs|
      ensures w[k] < |all| && all[w[k]] == arcs[k]
    {
      ArcAtPlace(adj, sizes, arcs, s, k);
    }
    assert Gather(all, w) == arcs;
    GatherKeepsMultiset(all, w);
  }

  /**
   * Whatever the interleaving, the finished lists hold exactly the arcs, each the right number of
   * times, and every neighbour is a vertex.
   */
  lemma FillConserves(adj: seq<AdjList>, sizes: seq<nat>, arcs: seq<Arc>, trace: seq<State>)
    requires Fits(adj, sizes, arcs) && Run(adj, sizes, arcs, trace) && AllDone(trace[|trace| - 1])
    requires forall v :: 0 <= v < |adj| ==> 0 < adj[v].degree
    ensures 0 < |trace| && Graph(adj, trace[|trace| - 1].edges).Valid()
    ensures AllListed(Graph(adj, trace[|trace| - 1].edges))
    ensures multiset(ListArcs(Graph(adj, trace[|trace| - 1].edges), |adj|)) == multiset(arcs)
  {
    assert 0 < |trace|;
    hide *;
    RunInv(adj, sizes, arcs, trace, |trace| - 1);
    FinalConserves(adj, sizes, arcs, trace[|trace| - 1]);
  }

  lemma FinalConserves(adj: seq<AdjList>, sizes: seq<nat>, arcs: seq<Arc>, s: State)
    requires Fits(adj, sizes, arcs) && Inv(adj, sizes, arcs, s) && AllDone(s)
    requires forall v :: 0 <= v < |adj| ==> 0 < adj[v].degree
    ensures Graph(adj, s.edges).Valid() && AllListed(Graph(adj, s.edges))
    ensures multiset(ListArcs(Graph(adj, s.edges), |adj|)) == multiset(arcs)
  {
    hide *;
    ListSizes(adj, sizes, arcs, s);
    MatchListed(Graph(adj, s.edges), arcs);
    ArcsConserved(adj, sizes, arcs, s);
    forall v | 0 <= v < |adj|
      ensures Graph(adj, s.edges).ListOk(adj[v]) && Graph(adj, s.edges).NeighborsOk(v)
    {
      IsListed(Graph(adj, s.edges), v);
      TargetsInRange(adj, sizes, arcs, Graph(adj, s.edges), v);
    }
    IsValid(Graph(adj, s.edges));
  }

  lemma MatchListed(g: Graph, arcs: seq<Arc>)
    requires ListsMatch(g, arcs)
    ensures AllListed(g)
  {
  }

  lemma IsListed(g: Graph, v: nat)
    requires AllListed(g) && v < |g.adj|
    ensures g.ListOk(g.adj[v])
  {
  }

  lemma IsValid(g: Graph)
    requires AllListed(g) && forall v :: 0 <= v < |g.adj| ==> g.ListOk(g.adj[v]) && g.NeighborsOk(v)
    ensures g.Valid()
  {
  }

  lemma ListSizes(adj: seq<AdjList>, sizes: seq<nat>, arcs: seq<Arc>, s: State)
    requires Fits(adj, sizes, arcs) && Inv(adj, sizes, arcs, s)
    requires forall v :: 0 <= v < |adj| ==> 0 < adj[v].degree
    ensures ListsMatch(Graph(adj, s.edges), arcs)
    ensures |ListArcs(Graph(adj, s.edges), |adj|)| == |arcs|
  {
    FilledLists(adj, sizes, arcs, s);
    ListArcsAt(Graph(adj, s.edges), arcs, |adj|, 0, 0);
    LessEnds(Sources(arcs), |adj|, |arcs|);
  }

  lemma TargetsInRange(adj: seq<AdjList>, sizes: seq<nat>, arcs: seq<Arc>, g: Graph, v: nat)
    requires Fits(adj, sizes, arcs) && g.adj == adj && v < |adj|
    requires ListsMatch(g, arcs)
    requires multiset(ListArcs(g, |adj|)) == multiset(arcs)
    ensures g.NeighborsOk(v)
  {
    forall i | 0 <= i < |g.Neighbors(v)|
      ensures g.Neighbors(v)[i] < |adj|
    {
      ListArcsAt(g, arcs, |adj|, v, i);
      var all := ListArcs(g, |adj|);
      var arc := all[Start(Sources(arcs), v) + i];
      assert arc in multiset(all);
      assert arc in arcs;
    }
  }
}
