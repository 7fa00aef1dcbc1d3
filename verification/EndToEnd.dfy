/**
 * From the edges that were read to the paths that are written: every step of every path, read through
 * id2name, is one of the edges of the input.
 */
module EndToEnd {
  import opened Arith
  import opened Bits
  import opened Options
  import opened Partition
  import opened Hints
  import opened DegreeSort
  import opened Csr
  import opened EdgeFill
  import opened Relabel
  import opened Build
  import opened Snake
  import opened Neighbors
  import opened Samplers
  import opened BufferSampler
  import opened Walk
  import opened Stepping
  import opened Rounds
  import opened EpochSize
  import opened Solver
  import opened Prepare
  import opened Ledgers
  import opened WalkerRanges
  import opened Sharing
  import WorkStealing

  /** Every edge of the graph is among its arcs. */
  lemma {:induction false} EdgeIsArc(g: Graph, n: nat, u: nat, v: nat)
    requires g.Valid() && AllListed(g) && n <= |g.adj| && u < n && g.Edge(u, v)
    ensures Arc(u, v) in ListArcs(g, n)
  {
    if u == n - 1 {
      var i :| 0 <= i < |g.Neighbors(u)| && g.Neighbors(u)[i] == v;
      assert VertexArcs(g, u)[i] == Arc(u, v);
    } else {
      EdgeIsArc(g, n - 1, u, v);
    }
  }

  /**
   * What make works out before any edge is inserted: the lists and the sizes of the edge arrays, the names of
   * the new numbers, the partitioning, and the sockets' partitions.
   */
  datatype Blueprint = Blueprint(adj: seq<AdjList>, sizes: seq<nat>, id2name: seq<nat>, parts: Partitioning,
                                 lists: seq<seq<nat>>) {

    /** It is one for the edges that were read, which have been renumbered. */
    ghost predicate For(input: seq<Arc>, raw: seq<Arc>, undirected: bool) {
      && 0 < |adj| == |id2name| <= TWO32 && parts.Of(|adj|)
      && Layout(adj, sizes, Arcs(raw, undirected), parts.pBegin, parts.pEnd)
      && |input| == |raw| && forall k :: 0 <= k < |raw| ==> Relabelled(id2name, input[k], raw[k])
    }

    /**
     * It is made as asked: the groups are cut as in a cheapest plan, with the samplers that are best, the first
     * partitions are dealt evenly, and each partition belongs to its socket.
     */
    ghost predicate Meets(bench: Benchmark, threadNum: nat, socketNum: nat)
      requires parts.Of(|adj|)
    {
      && 0 < |parts.hints| && Planned(|adj|, bench, parts)
      && HotDealt(ListDegrees(adj), parts.pBegin, parts.pEnd, Min(threadNum, parts.hints[0].partitionNum))
      && AllClose(adj, parts.pBegin, parts.pEnd, Min(threadNum, parts.hints[0].partitionNum))
      && OnOwnSockets(socketNum, adj, parts.pBegin, parts.pEnd) && SocketLists(socketNum, |parts.pBegin|, lists)
    }

    /** The edges are inserted in a run of the fill. */
    ghost predicate Filled(arcs: seq<Arc>, trace: seq<State>) {
      Run(adj, sizes, arcs, trace) && AllDone(trace[|trace| - 1])
    }

    /** The graph after such a run. */
    function After(trace: seq<State>): (g: Graph)
      ensures g.adj == adj
    {
      Graph(adj, if trace == [] then [] else trace[|trace| - 1].edges)
    }
  }

  /** The graph is what the fill made of the blueprint. */
  ghost predicate Built(g: Graph, bp: Blueprint, input: seq<Arc>, raw: seq<Arc>, undirected: bool, trace: seq<State>) {
    bp.For(input, raw, undirected) && bp.Filled(Arcs(raw, undirected), trace) && g == bp.After(trace)
  }

  /** Whatever the order of the insertions, an edge of the built graph is an edge of the input. */
  lemma EdgeIsInput(g: Graph, bp: Blueprint, input: seq<Arc>, raw: seq<Arc>, undirected: bool, trace: seq<State>,
                    u: nat, v: nat)
    requires Built(g, bp, input, raw, undirected, trace) && g.Edge(u, v)
    ensures g.Valid() && u < |bp.id2name| && v < |bp.id2name|
    ensures Arc(bp.id2name[u], bp.id2name[v]) in Arcs(input, undirected)
  {
    assert 0 < |trace| && g == Graph(bp.adj, trace[|trace| - 1].edges);
    hide Layout, Run, AllDone, Arcs, ListArcs, Graph.ListOk, Partitioning.Of;
    EdgesConserved(bp.adj, bp.sizes, input, raw, undirected, bp.parts.pBegin, bp.parts.pEnd, bp.id2name, trace);
    assert g.NeighborsOk(u);
    EdgeIsArc(g, |g.adj|, u, v);
    NamedIn(bp.id2name, ListArcs(g, |g.adj|), Arcs(input, undirected), Arc(u, v));
  }

  lemma NamedIn(id2name: seq<nat>, s: seq<Arc>, t: seq<Arc>, a: Arc)
    requires multiset(NamedArcs(id2name, s)) == multiset(t) && a in s
    ensures NamedArc(id2name, a) in t
  {
    var i :| 0 <= i < |s| && s[i] == a;
    assert NamedArcs(id2name, s)[i] == NamedArc(id2name, a);
    assert NamedArc(id2name, a) in multiset(NamedArcs(id2name, s));
  }

  /** Every step of the path, by name, is an edge of the input. */
  ghost predicate NamedPath(id2name: seq<nat>, arcs: seq<Arc>, path: seq<nat>) {
    forall l :: 0 < l < |path| ==> NamedStep(id2name, arcs, path, l)
  }

  ghost predicate NamedStep(id2name: seq<nat>, arcs: seq<Arc>, path: seq<nat>, l: nat)
    requires 0 < l < |path|
  {
    && path[l - 1] < |id2name| && path[l] < |id2name|
    && Arc(id2name[path[l - 1]], id2name[path[l]]) in arcs
  }

  lemma LegalPathIsInput(g: Graph, bp: Blueprint, input: seq<Arc>, raw: seq<Arc>, undirected: bool, trace: seq<State>,
                         w: World, led: Ledger, n: nat, path: seq<nat>)
    requires Built(g, bp, input, raw, undirected, trace)
    requires g.Valid() && w.mode.Legal() && SameGraph(g, w.h, w.mode) && LegalPath(w, led, n, path)
    ensures NamedPath(bp.id2name, Arcs(input, undirected), path)
  {
    hide Built, LegalPath, Arcs, Graph.Valid, SortedUpTo;
    forall l | 0 < l < |path|
      ensures NamedStep(bp.id2name, Arcs(input, undirected), path, l)
    {
      LegalPathIsPath(w, led, n, path, l);
      if w.mode.Node2vec? {
        SameEdges(g, w.h, path[l - 1], path[l]);
      }
      EdgeIsInput(g, bp, input, raw, undirected, trace, path[l - 1], path[l]);
    }
  }

  // ----- Building -----

  datatype BuildResult = Ready(blueprint: Blueprint) | NoOutEdge | TooManyVertices | NoPartitioning

  /** The first partitions, one for each thread as far as group 0 has them, are dealt. */
  lemma ShuffledFits(vNum: nat, groupBits: nat, hints: seq<GroupHint>, pBegin: seq<nat>, pEnd: seq<nat>)
    requires ValidHints(vNum, groupBits, hints) && AllLaidOut(vNum, groupBits, hints, pBegin, pEnd)
    ensures 0 < |hints| && 0 < hints[0].partitionNum <= |pBegin|
  {
    hide Shl, Shr;
    Partition.HintsFit(vNum, groupBits, hints);
    assert ValidHint(vNum, groupBits, 0, hints[0]);
    CeilShrBounds(hints[0].vertexEnd - hints[0].vertexBegin, hints[0].partitionBits);
    assert LaidOut(vNum, groupBits, hints, 0, pBegin, pEnd);
  }

  /** Which inputs are turned away. */
  ghost predicate TurnsAway(result: BuildResult, input: seq<Arc>, undirected: bool, bench: Benchmark, groupBits: nat) {
    && (result.NoOutEdge? <==> !undirected && !TargetsAreSources(input))
    && (result.TooManyVertices? <==> !result.NoOutEdge? && TWO32 - Shl(1, 25) < |NamesIn(input)|)
    && (!result.NoOutEdge? && !result.TooManyVertices? ==>
          && LeastGroupBits(|NamesIn(input)|, groupBits)
          && (result.NoPartitioning? <==> !exists hints :: Allowed(|NamesIn(input)|, groupBits, bench, hints)))
  }

  /**
   * load, the partitioning and make, up to the parallel edge fill. It fails exactly where the source does, or
   * has no partitioning to choose from: a vertex without an out-edge, more vertices than groups can cover, or no
   * way to cut the groups in measured sizes into few enough partitions.
   */
  method BuildGraph(raw: array<Arc>, undirected: bool, bench: Benchmark, threadNum: nat, socketNum: nat)
    returns (result: BuildResult, ghost groupBits: nat)
    requires 0 < raw.Length
    requires CostsNonNegative(bench) && 0 < threadNum && 0 < socketNum
    modifies raw
    ensures TurnsAway(result, old(raw[..]), undirected, bench, groupBits)
    ensures result.Ready? ==> |result.blueprint.adj| == |NamesIn(old(raw[..]))|
    ensures result.Ready? ==> result.blueprint.For(old(raw[..]), raw[..], undirected)
    ensures result.Ready? ==> result.blueprint.Meets(bench, threadNum, socketNum)
  {
    hide Shl, Shr, Naming, UnitsOf, FallingDegrees, ValidHints, Headers, AllLaidOut, Tiles, Layout, SocketLists, Arcs;
    hide TargetsAreSources, NamesIn, LeastGroupBits, CostsNonNegative, Allowed, Planned, HotDealt, AllClose;
    hide OnOwnSockets;
    ghost var input := raw[..];
    ghost var names;
    var ok, name2id, vNum, units;
    ok, name2id, names, vNum, units := Load(raw, undirected);
    groupBits := 0;
    if !ok {
      return NoOutEdge, groupBits;
    }
    if TWO32 - Shl(1, 25) < vNum {
      return TooManyVertices, groupBits;
    }
    var gBits, pt := PlanPartitions(vNum, bench);
    groupBits := gBits;
    if pt.None? {
      return NoPartitioning, groupBits;
    }
    var parts := pt.value;
    PartitionsTile(vNum, gBits, parts.hints, parts.pBegin, parts.pEnd);
    ShuffledFits(vNum, gBits, parts.hints, parts.pBegin, parts.pEnd);
    var adj, sizes, id2name, lists :=
      Make(raw, undirected, name2id, names, units, parts.pBegin, parts.pEnd,
           Min(threadNum, parts.hints[0].partitionNum), socketNum);
    result := Ready(Blueprint(adj[..], sizes, id2name[..], parts, lists));
  }

  // ----- Walking -----

  /** What 32-bit indices demand of the partitions, each for the sampler class it gets. */
  ghost predicate WithinLimits(g: Graph, pt: Partitioning, l2: nat) {
    && |pt.pBegin| == |pt.pEnd| == |pt.classes|
    && forall p :: 0 <= p < |pt.pBegin| ==> FitsClass(g, pt.pBegin[p], pt.pEnd[p], pt.classes[p], l2)
  }

  /** They are met by partitions of at most 2^32 edges, and buffers of less than 2^32 numbers. */
  lemma SmallPartitionsFit(g: Graph, pt: Partitioning, l2: nat)
    requires |pt.pBegin| == |pt.pEnd| == |pt.classes|
    requires forall p :: 0 <= p < |pt.pBegin| ==> pt.pBegin[p] <= pt.pEnd[p] <= |g.adj|
    requires forall p :: 0 <= p < |pt.pBegin| ==>
      if pt.classes[p] == ExclusiveBuffer then Begin(g, pt.pBegin[p], pt.pEnd[p] - pt.pBegin[p]) < TWO32
      else EdgeNum(g.adj, pt.pBegin[p], pt.pEnd[p]) <= TWO32
    ensures WithinLimits(g, pt, l2)
  {
    hide EdgeNum, Begin, RunsFit, LowDegree, HighDegree, ValidSimilar;
    forall p | 0 <= p < |pt.pBegin|
      ensures FitsClass(g, pt.pBegin[p], pt.pEnd[p], pt.classes[p], l2)
    {
      if pt.classes[p] != ExclusiveBuffer {
        SmallRunsFit(g, pt.pBegin[p], pt.pEnd[p]);
      }
    }
  }

  /** A graph that make laid out and the fill completed is ready for prepare. */
  lemma BuiltIsReady(g: Graph, bp: Blueprint, input: seq<Arc>, raw: seq<Arc>, undirected: bool, trace: seq<State>,
                     l2: nat)
    requires Built(g, bp, input, raw, undirected, trace) && WithinLimits(g, bp.parts, l2)
    ensures GraphReady(g, bp.parts, l2)
  {
    var pt := bp.parts;
    assert 0 < |trace| && g == Graph(bp.adj, trace[|trace| - 1].edges);
    assert ListsApart(bp.adj);
    hide Run, AllDone, Arcs, ListArcs, ValidHints, Headers, AllLaidOut, FitsClass, ListsApart, Graph.Valid, Contiguous;
    hide NonIncreasing;
    EdgesConserved(bp.adj, bp.sizes, input, raw, undirected, pt.pBegin, pt.pEnd, bp.id2name, trace);
    forall p | 0 <= p < |pt.pBegin|
      ensures PartitionOk(g, pt.pBegin[p], pt.pEnd[p], pt.classes[p], l2)
    {
      assert FitsClass(g, pt.pBegin[p], pt.pEnd[p], pt.classes[p], l2);
    }
  }

  ghost predicate AllNamed(id2name: seq<nat>, arcs: seq<Arc>, paths: seq<seq<nat>>, len: nat) {
    forall i :: 0 <= i < |paths| ==> |paths[i]| == len && NamedPath(id2name, arcs, paths[i])
  }

  /** All paths a solver has written run along edges of the input. */
  lemma WrittenIsNamed(s: FMobSolver, g: Graph, bp: Blueprint, input: seq<Arc>, raw: seq<Arc>, undirected: bool,
                       trace: seq<State>)
    requires Built(g, bp, input, raw, undirected, trace)
    requires s.Valid() && g.Valid() && SameGraph(g, s.w.h, s.w.mode)
    ensures AllNamed(bp.id2name, Arcs(input, undirected), s.written, s.walkLen)
  {
    s.ValidParts();
    hide Built, Arcs, Graph.Valid, LegalPath, NamedPath, SameGraph, FMobSolver.Valid, FMobSolver.World, Primed, Sound;
    hide FMobSolver.Arrays;
    forall n | 0 <= n < |s.written|
      ensures |s.written[n]| == s.walkLen && NamedPath(bp.id2name, Arcs(input, undirected), s.written[n])
    {
      LegalPathIsInput(g, bp, input, raw, undirected, trace, s.w, s.ledger, n, s.written[n]);
    }
  }

  /** Some vertex of the input has an edge to itself. */
  ghost predicate Looped(arcs: seq<Arc>) {
    exists x :: Arc(x, x) in arcs
  }

  /** A self-loop of the graph is one of the input. */
  lemma LoopIsInput(g: Graph, bp: Blueprint, input: seq<Arc>, raw: seq<Arc>, undirected: bool, trace: seq<State>,
                    w: World)
    requires Built(g, bp, input, raw, undirected, trace)
    requires g.Valid() && SameGraph(g, w.h, w.mode) && exists v :: w.h.Edge(v, v)
    ensures Looped(Arcs(input, undirected))
  {
    var v :| w.h.Edge(v, v);
    hide Built, Arcs, Graph.Valid, SortedUpTo;
    if w.mode.Node2vec? {
      SameEdges(g, w.h, v, v);
    }
    EdgeIsInput(g, bp, input, raw, undirected, trace, v, v);
  }

  /** What is asked for, and the numbers the threads' generators will produce. */
  datatype Request = Request(order: Order, mode: Mode, undirected: bool, streams: seq<Stream>, l2: nat) {

    ghost predicate Legal() {
      && mode.Legal() && 0 < order.walkLen && 0 < order.socketNum
      && 0 < |streams| && |streams| % order.socketNum == 0
    }

    /** The job is what is asked for, on this graph. */
    ghost predicate JobOn(g: Graph, pt: Partitioning, job: Job) {
      JobFor(job, order, g, pt, mode, undirected)
    }
  }

  /** What a job has come to: the epochs' blocks of paths, the draws that decided them, and why it stopped. */
  ghost predicate Harvested(s: FMobSolver, plan: Plan, walkerNum: nat, fuel: nat, stop: Stop, epochs: nat,
                            blocks: seq<seq<seq<nat>>>, out: seq<nat>, clock: seq<Meter>)
    reads s, s.w.rands
  {
    && 0 < s.maxEpoch && s.written == Flatten(blocks) && |blocks| == epochs && s.Blocks(blocks, walkerNum)
    && BlocksTurned(s.w, s.ledger, 0, blocks, plan, s.maxEpoch)
    && s.w.mode.Legal() && WhyStopped(s.w, fuel, stop, clock, Clock(s.w.rands))
    && (stop == NoStop ==>
          && epochs == CeilDiv(walkerNum, s.maxEpoch) && |s.written| == walkerNum
          && (0 < epochs ==> s.LastBlock(blocks[epochs - 1], out))
          && Advanced(map[], s.ledger, clock, Clock(s.w.rands)))
  }

  /** What the job asked for has come to, on the plan that the protocols' runs make. */
  ghost predicate Reaped(s: FMobSolver, share: Job -> Runs, rq: Request, bp: Blueprint, job: Job, fuel: nat, stop: Stop,
                         epochs: nat, blocks: seq<seq<seq<nat>>>, out: seq<nat>)
    reads s, s.w.rands
  {
    && 0 < rq.order.socketNum && 0 < |rq.streams| / rq.order.socketNum
    && Harvested(s, PlanFor(share, rq, bp, job), rq.order.walkerNum, fuel, stop, epochs, blocks, out,
                 Unread(|rq.streams|))
  }

  lemma IsReaped(s: FMobSolver, share: Job -> Runs, rq: Request, bp: Blueprint, job: Job, fuel: nat, stop: Stop,
                 epochs: nat, blocks: seq<seq<seq<nat>>>, out: seq<nat>)
    requires 0 < rq.order.socketNum && 0 < |rq.streams| / rq.order.socketNum
    requires Harvested(s, PlanFor(share, rq, bp, job), rq.order.walkerNum, fuel, stop, epochs, blocks, out,
                       Unread(|rq.streams|))
    ensures Reaped(s, share, rq, bp, job, fuel, stop, epochs, blocks, out)
  {
  }

  /** The run of a solver that has just been prepared. */
  method WalkEpochs(s: FMobSolver, plan: Plan, fuel: nat)
    returns (output: array<nat>, epochs: nat, stop: Stop, ghost blocks: seq<seq<seq<nat>>>)
    requires s.Valid() && 0 < s.maxEpoch && s.PlanOk(plan, s.rest) && s.written == [] && s.ledger == map[]
    modifies s, s.tasks, s.own, s.parts, s.w.rands, s.walks, s.starts
    ensures s.Valid() && fresh(output) && output.Length == s.maxEpoch * s.walkLen
    ensures Harvested(s, plan, old(s.rest), fuel, stop, epochs, blocks, output[..], old(Clock(s.w.rands)))
    ensures stop == SelfStep ==> exists v :: s.w.h.Edge(v, v)
    ensures !s.w.mode.Node2vec? ==> stop == NoStop
  {
    ghost var n, c := s.rest, Clock(s.w.rands);
    var length := s.maxEpoch * s.walkLen;
    output := new nat[length];
    s.ValidParts();
    OutputFits(s, output);
    assert s.terminated == 0;
    hide *;
    assert Clock(s.w.rands) == c;
    var done;
    epochs, done, stop, blocks := s.Run(output, plan, fuel);
    s.ValidParts();
    IsHarvested(s, plan, n, fuel, stop, epochs, blocks, output[..], c);
  }

  lemma OutputFits(s: FMobSolver, output: array<nat>)
    requires s.Valid() && output.Length == s.maxEpoch * s.walkLen
    requires output !in s.own && output !in s.parts && output != s.starts
    requires forall l :: 0 <= l < |s.walks| ==> s.walks[l] != output
    requires s.w.filter != null ==> s.w.filter.table != output as object
    ensures s.OutputOk(output)
  {
  }

  lemma IsHarvested(s: FMobSolver, plan: Plan, walkerNum: nat, fuel: nat, stop: Stop, epochs: nat,
                    blocks: seq<seq<seq<nat>>>, out: seq<nat>, clock: seq<Meter>)
    requires 0 < s.maxEpoch && s.written == [] + Flatten(blocks) && |blocks| == epochs && s.Blocks(blocks, walkerNum)
    requires |s.written| == s.terminated && s.w.mode.Legal() && WhyStopped(s.w, fuel, stop, clock, Clock(s.w.rands))
    requires stop == NoStop ==> epochs == CeilDiv(walkerNum, s.maxEpoch) && s.terminated == walkerNum
    requires stop == NoStop && 0 < epochs ==> s.LastBlock(blocks[epochs - 1], out)
    requires BlocksTurned(s.w, s.ledger, 0, blocks, plan, s.maxEpoch)
    requires stop == NoStop ==> Advanced(map[], s.ledger, clock, Clock(s.w.rands))
    ensures Harvested(s, plan, walkerNum, fuel, stop, epochs, blocks, out, clock)
  {
  }

  /** What the job counts are the vertices that were named and the edges that were read, both ways when undirected. */
  lemma JobCounts(g: Graph, bp: Blueprint, input: seq<Arc>, raw: seq<Arc>, trace: seq<State>, rq: Request, job: Job)
    requires Built(g, bp, input, raw, rq.undirected, trace) && rq.JobOn(g, bp.parts, job)
    ensures job.vertexNum == |bp.id2name| && job.edgeNum == (if rq.undirected then 2 * |input| else |input|)
  {
    hide Layout, EdgeNum, BufferEdges, Run, AllDone;
    EdgeNumIs(bp.adj, bp.sizes, raw, rq.undirected, bp.parts.pBegin, bp.parts.pEnd);
  }

  /** The plan that these runs make for the job: who has which turn in which round of which epoch. */
  function PlanFor(share: Job -> Runs, rq: Request, bp: Blueprint, job: Job): Plan
    requires 0 < rq.order.socketNum && 0 < |rq.streams| / rq.order.socketNum
  {
    PlanOf(share(job), rq.order.walkLen, |rq.streams| / rq.order.socketNum, bp.lists)
  }

  /** The threads share out the job in runs of the protocols that come to their ends. */
  ghost predicate SharedOut(share: Job -> Runs, rq: Request, g: Graph, bp: Blueprint) {
    && 0 < rq.order.socketNum && 0 < |rq.streams| / rq.order.socketNum
    && forall j :: rq.JobOn(g, bp.parts, j) && Estimate(j).Sized? ==>
         AllShared(share(j), rq.order.walkerNum, Estimate(j).walkers, rq.order.walkLen, rq.order.socketNum,
                   |rq.streams| / rq.order.socketNum, bp.lists)
  }

  /**
   * The graph that is walked has the edges of g, its partitions have the samplers that were chosen for them, and
   * the generators produce these numbers.
   */
  ghost predicate ServesOn(w: World, g: Graph, pt: Partitioning, mode: Mode, streams: seq<Stream>) {
    && Equipped(w, mode, pt) && g.Valid() && SameGraph(g, w.h, mode) && |w.rands| == |streams|
    && forall r :: 0 <= r < |streams| ==> w.rands[r].ints == streams[r].ints && w.rands[r].reals == streams[r].reals
  }

  /** The clock before anybody has drawn. */
  ghost function Unread(threadNum: nat): seq<Meter> {
    seq(threadNum, _ => Meter(0, {}))
  }

  /** Every path written is legal, and no draw decided two steps. */
  ghost predicate Legal(s: FMobSolver)
    reads s, s.w.rands
  {
    s.w.mode.Legal() && AllLegal(s.w, s.ledger, s.written, s.walkLen) && Sound(s.ledger, Clock(s.w.rands))
  }

  /** The solver is the one asked for, and every path it wrote is legal and by name a path of the input. */
  ghost predicate Served(s: FMobSolver, g: Graph, bp: Blueprint, input: seq<Arc>, rq: Request, job: Job)
    reads s, s.w.rands
  {
    && Estimate(job) == Sized(s.maxEpoch) && s.walkLen == rq.order.walkLen
    && ServesOn(s.w, g, bp.parts, rq.mode, rq.streams) && Legal(s)
    && RightKinds(s.w.h, bp.parts.pBegin, bp.parts.pEnd, bp.parts.classes, rq.l2, s.samplers)
    && AllNamed(bp.id2name, Arcs(input, rq.undirected), s.written, rq.order.walkLen)
  }

  /** The graph, the buffers as the estimate counts them, the filter, the solver's arrays and the output fit. */
  ghost predicate WithinQuota(s: FMobSolver, outputLength: nat, job: Job) {
    12 * job.vertexNum * job.socketNum + 4 * job.edgeNum + 4 * job.bufferEdgeNum + job.other
      + 4 * (Words(s) + outputLength) <= job.quota
  }

  lemma IsWithinQuota(s: FMobSolver, outputLength: nat, job: Job)
    requires Estimate(job) == Sized(s.maxEpoch) && s.walkLen == job.walkLen && HoldsFor(s, s.maxEpoch, s.walkLen)
    requires outputLength == s.maxEpoch * s.walkLen
    ensures WithinQuota(s, outputLength, job)
  {
    hide Estimate, Words;
    var w := EpochFits(job);
    var n, l := s.maxEpoch, s.walkLen;
    assert n * (l + 3) == n * l + 3 * n;
    assert n * (4 * l + 4 * l + 12) == 4 * (n * l) + 4 * (n * l) + 12 * n;
  }

  /**
   * The whole of it. For any order of the edge insertions, any random streams, any sampler classes the
   * partitioning chose, any thread counts, and any interleaving of the protocols by which the threads shared
   * the work: the solver that prepare makes takes the promised number of epochs and writes every walker's path,
   * in blocks of the promised sizes, the last of which the output still holds. Every path starts at the vertex
   * drawn for its walker, every step is one the walk can take, decided by draws that no other step shares, and
   * by name every step is an edge of the input. It stops early only in a rejection loop of a node2vec walk: one
   * that was logged with `fuel` rejected proposals, or one that accepted the walker's own vertex.
   */
  method WalkGraph(g: Graph, bp: Blueprint, ghost input: seq<Arc>, ghost raw: seq<Arc>, ghost trace: seq<State>,
                   rq: Request, share: Job -> Runs, fuel: nat)
    returns (job: Job, solver: Option<FMobSolver>, output: array?<nat>, epochs: nat, stop: Stop,
             ghost blocks: seq<seq<seq<nat>>>)
    requires Built(g, bp, input, raw, rq.undirected, trace) && WithinLimits(g, bp.parts, rq.l2) && rq.Legal()
    requires SocketLists(rq.order.socketNum, |bp.parts.pBegin|, bp.lists) && SharedOut(share, rq, g, bp)
    ensures rq.JobOn(g, bp.parts, job)
    ensures solver.Some? <==> Estimate(job).Sized?
    ensures solver.Some? ==> output != null && fresh(output)
    ensures solver.Some? ==> fresh(solver.value) && fresh(solver.value.w.rands) && solver.value.Valid()
    ensures solver.Some? ==>
      Reaped(solver.value, share, rq, bp, job, fuel, stop, epochs, blocks, output[..])
    ensures solver.Some? ==> Served(solver.value, g, bp, input, rq, job)
    ensures solver.Some? ==> WithinQuota(solver.value, output.Length, job)
    ensures stop == SelfStep ==> Looped(Arcs(input, rq.undirected))
    ensures solver.None? || !rq.mode.Node2vec? ==> stop == NoStop
  {
    BuiltIsReady(g, bp, input, raw, rq.undirected, trace, rq.l2);
    assert g.Valid() && 0 < |rq.streams| / rq.order.socketNum;
    hide *;
    epochs, stop, blocks, output := 0, NoStop, [], null;
    solver, job := PrepareSolver(g, bp.parts, rq.mode, rq.undirected, rq.streams, rq.order, rq.l2);
    if solver.Some? {
      var s := solver.value;
      PreparedParts(s, g, bp.parts, rq, job);
      PlanReady(s, share, rq, g, bp, job);
      output, epochs, stop, blocks := WalkEpochs(s, PlanFor(share, rq, bp, job), fuel);
      IsReaped(s, share, rq, bp, job, fuel, stop, epochs, blocks, output[..]);
      IsLegal(s);
      IsWithinQuota(s, output.Length, job);
      WrittenIsNamed(s, g, bp, input, raw, rq.undirected, trace);
      if stop == SelfStep {
        LoopIsInput(g, bp, input, raw, rq.undirected, trace, s.w);
      }
    }
  }

  /** The protocols' runs are a plan for the solver that was prepared. */
  lemma PlanReady(s: FMobSolver, share: Job -> Runs, rq: Request, g: Graph, bp: Blueprint, job: Job)
    requires s.Valid() && rq.Legal() && SharedOut(share, rq, g, bp)
    requires rq.JobOn(g, bp.parts, job) && Estimate(job) == Sized(s.maxEpoch) && s.walkLen == rq.order.walkLen
    requires s.rest == rq.order.walkerNum && |s.w.rands| == |rq.streams| && s.w.pBegin == bp.parts.pBegin
    requires SocketLists(rq.order.socketNum, |bp.parts.pBegin|, bp.lists)
    ensures 0 < s.maxEpoch && 0 < |rq.streams| / rq.order.socketNum
    ensures s.PlanOk(PlanFor(share, rq, bp, job), s.rest)
  {
    var perSocket := |rq.streams| / rq.order.socketNum;
    s.ValidParts();
    assert 0 < s.maxEpoch && |s.samplers| == |bp.parts.pBegin|;
    PerSocket(|rq.streams|, rq.order.socketNum);
    assert AllShared(share(job), rq.order.walkerNum, Estimate(job).walkers, rq.order.walkLen, rq.order.socketNum,
                     perSocket, bp.lists);
    hide *;
    RunsMakePlan(s, share(job), rq.order.walkerNum, rq.order.socketNum, perSocket, bp.lists);
  }

  lemma PreparedParts(s: FMobSolver, g: Graph, pt: Partitioning, rq: Request, job: Job)
    requires Estimate(job).Sized? && rq.JobOn(g, pt, job)
    requires Prepared(s, Estimate(job).walkers, g, pt, rq.mode, rq.streams, rq.order, rq.l2)
    ensures Estimate(job) == Sized(s.maxEpoch) && s.walkLen == rq.order.walkLen == job.walkLen
    ensures s.rest == rq.order.walkerNum && s.written == [] && s.ledger == map[] && s.w.mode == rq.mode
    ensures |s.w.rands| == |rq.streams| && s.w.pBegin == pt.pBegin && HoldsFor(s, s.maxEpoch, s.walkLen)
    ensures ServesOn(s.w, g, pt, rq.mode, rq.streams) && Clock(s.w.rands) == Unread(|rq.streams|)
    ensures g.Valid() && SameGraph(g, s.w.h, s.w.mode)
    ensures RightKinds(s.w.h, pt.pBegin, pt.pEnd, pt.classes, rq.l2, s.samplers)
  {
    hide Graph.Valid, SameGraph, RightKinds, HoldsFor, Estimate;
    forall r | 0 <= r < |rq.streams|
      ensures s.w.rands[r].ints == rq.streams[r].ints && s.w.rands[r].reals == rq.streams[r].reals
      ensures MeterOf(s.w.rands[r]) == Meter(0, {})
    {
      assert Unused(s.w.rands[r], rq.streams[r]);
    }
  }

  lemma IsLegal(s: FMobSolver)
    requires s.Valid()
    ensures Legal(s)
  {
    hide Primed, AllLegal, Sound;
  }

  // ----- From the edges that were read to the paths -----

  /** The numbers of walkers, threads and partitions leave the 32-bit indices and cursors the room they need. */
  ghost predicate HasRoom(rq: Request, g: Graph, pt: Partitioning) {
    && WithinLimits(g, pt, rq.l2) && 0 < rq.order.socketNum && 0 < |rq.streams| / rq.order.socketNum
    && forall j :: rq.JobOn(g, pt, j) && Estimate(j).Sized? ==>
         AllFit(rq.order.walkerNum, Estimate(j).walkers, rq.order.socketNum, |rq.streams| / rq.order.socketNum)
  }

  /** For every blueprint of these edges: a run of the fill to its end, room, and the runs that share out the job. */
  ghost predicate Supplied(input: seq<Arc>, rq: Request, fill: (Blueprint, seq<Arc>) -> seq<State>,
                           share: (Blueprint, Job) -> Runs) {
    && 0 < rq.order.socketNum
    && forall bp: Blueprint, raw: seq<Arc> ::
         bp.For(input, raw, rq.undirected) && SocketLists(rq.order.socketNum, |bp.parts.pBegin|, bp.lists) ==>
           SuppliedWith(bp, raw, rq, fill(bp, raw), j => share(bp, j))
  }

  ghost predicate SuppliedWith(bp: Blueprint, raw: seq<Arc>, rq: Request, trace: seq<State>, share: Job -> Runs) {
    && bp.Filled(Arcs(raw, rq.undirected), trace)
    && WithinLimits(bp.After(trace), bp.parts, rq.l2) && SharedOut(share, rq, bp.After(trace), bp)
  }

  /** The fill, prepare and walk, if there is a blueprint. */
  method FillAndWalk(result: BuildResult, ghost input: seq<Arc>, raw: seq<Arc>, rq: Request,
                     fill: (Blueprint, seq<Arc>) -> seq<State>, share: (Blueprint, Job) -> Runs, fuel: nat)
    returns (job: Job, solver: Option<FMobSolver>, output: array?<nat>, epochs: nat, stop: Stop,
             ghost blocks: seq<seq<seq<nat>>>)
    requires rq.Legal() && Supplied(input, rq, fill, share)
    requires result.Ready? ==> result.blueprint.For(input, raw, rq.undirected)
    requires result.Ready? ==> SocketLists(rq.order.socketNum, |result.blueprint.parts.pBegin|, result.blueprint.lists)
    ensures result.Ready? ==> BuiltFor(result.blueprint, input, raw, rq, fill(result.blueprint, raw), job)
    ensures solver.Some? <==> result.Ready? && Estimate(job).Sized?
    ensures solver.Some? ==> output != null && fresh(output)
    ensures solver.Some? ==> fresh(solver.value) && fresh(solver.value.w.rands) && solver.value.Valid()
    ensures solver.Some? ==>
      Reaped(solver.value, j => share(result.blueprint, j), rq, result.blueprint, job, fuel, stop, epochs, blocks,
        output[..])
    ensures solver.Some? ==> WithinQuota(solver.value, output.Length, job)
    ensures solver.Some? ==>
      var bp := result.blueprint;
      Served(solver.value, bp.After(fill(bp, raw)), bp, input, rq, job)
    ensures stop == SelfStep ==> Looped(Arcs(input, rq.undirected))
    ensures solver.None? || !rq.mode.Node2vec? ==> stop == NoStop
  {
    assert 0 < rq.order.socketNum;
    hide *;
    solver, output, epochs, stop, blocks := None, null, 0, NoStop, [];
    job := Job(0, 0, 0, 0, 0, 0, 0, 0);
    if result.Ready? {
      var bp := result.blueprint;
      var trace := fill(bp, raw);
      SuppliesHere(input, rq, fill, share, bp, raw);
      job, solver, output, epochs, stop, blocks :=
        WalkGraph(bp.After(trace), bp, input, raw, trace, rq, j => share(bp, j), fuel);
      IsBuiltFor(bp, input, raw, rq, trace, job);
    }
  }

  /** The fill makes a graph of the blueprint, and this is the job on it. */
  ghost predicate BuiltFor(bp: Blueprint, input: seq<Arc>, raw: seq<Arc>, rq: Request, trace: seq<State>, job: Job) {
    Built(bp.After(trace), bp, input, raw, rq.undirected, trace) && rq.JobOn(bp.After(trace), bp.parts, job)
  }

  lemma IsBuiltFor(bp: Blueprint, input: seq<Arc>, raw: seq<Arc>, rq: Request, trace: seq<State>, job: Job)
    requires Built(bp.After(trace), bp, input, raw, rq.undirected, trace) && rq.JobOn(bp.After(trace), bp.parts, job)
    ensures BuiltFor(bp, input, raw, rq, trace, job)
  {
  }

  /**
   * load, partitioning, make, the fill, prepare and walk, in the source's order, for any run of the fill and any
   * runs of the protocols. Either the input is one of those that BuildGraph turns away, or the quota is too
   * small, or every walker's path is written, along edges of the input.
   */
  method BuildAndWalk(edges: array<Arc>, bench: Benchmark, rq: Request, fill: (Blueprint, seq<Arc>) -> seq<State>,
                      share: (Blueprint, Job) -> Runs, fuel: nat)
    returns (result: BuildResult, ghost groupBits: nat, job: Job, solver: Option<FMobSolver>, output: array?<nat>,
             epochs: nat, stop: Stop, ghost blocks: seq<seq<seq<nat>>>)
    requires 0 < edges.Length && CostsNonNegative(bench) && rq.Legal() && Supplied(edges[..], rq, fill, share)
    modifies edges
    ensures TurnsAway(result, old(edges[..]), rq.undirected, bench, groupBits)
    ensures result.Ready? ==> |result.blueprint.adj| == |NamesIn(old(edges[..]))|
    ensures result.Ready? ==> result.blueprint.parts.Of(|result.blueprint.adj|)
    ensures result.Ready? ==> result.blueprint.Meets(bench, |rq.streams|, rq.order.socketNum)
    ensures result.Ready? ==>
      BuiltFor(result.blueprint, old(edges[..]), edges[..], rq, fill(result.blueprint, edges[..]), job)
    ensures solver.Some? <==> result.Ready? && Estimate(job).Sized?
    ensures solver.Some? ==> output != null && fresh(output)
    ensures solver.Some? ==> fresh(solver.value) && fresh(solver.value.w.rands) && solver.value.Valid()
    ensures solver.Some? ==>
      Reaped(solver.value, j => share(result.blueprint, j), rq, result.blueprint, job, fuel, stop, epochs, blocks,
        output[..])
    ensures solver.Some? ==> WithinQuota(solver.value, output.Length, job)
    ensures solver.Some? ==>
      var bp := result.blueprint;
      Served(solver.value, bp.After(fill(bp, edges[..])), bp, old(edges[..]), rq, job)
    ensures stop == SelfStep ==> Looped(Arcs(old(edges[..]), rq.undirected))
    ensures solver.None? || !rq.mode.Node2vec? ==> stop == NoStop
  {
    ghost var input := edges[..];
    assert 0 < |rq.streams| && 0 < rq.order.socketNum;
    hide *;
    result, groupBits := BuildGraph(edges, rq.undirected, bench, |rq.streams|, rq.order.socketNum);
    if result.Ready? {
      MeetsParts(result.blueprint, input, edges[..], rq.undirected, bench, |rq.streams|, rq.order.socketNum);
    }
    job, solver, output, epochs, stop, blocks := FillAndWalk(result, input, edges[..], rq, fill, share, fuel);
  }

  lemma MeetsParts(bp: Blueprint, input: seq<Arc>, raw: seq<Arc>, undirected: bool, bench: Benchmark, threadNum: nat,
                   socketNum: nat)
    requires bp.For(input, raw, undirected) && bp.Meets(bench, threadNum, socketNum)
    ensures bp.parts.Of(|bp.adj|) && 0 < socketNum && SocketLists(socketNum, |bp.parts.pBegin|, bp.lists)
  {
  }

  lemma SuppliesHere(input: seq<Arc>, rq: Request, fill: (Blueprint, seq<Arc>) -> seq<State>,
                     share: (Blueprint, Job) -> Runs, bp: Blueprint, raw: seq<Arc>)
    requires Supplied(input, rq, fill, share) && bp.For(input, raw, rq.undirected)
    requires SocketLists(rq.order.socketNum, |bp.parts.pBegin|, bp.lists)
    ensures Built(bp.After(fill(bp, raw)), bp, input, raw, rq.undirected, fill(bp, raw))
    ensures WithinLimits(bp.After(fill(bp, raw)), bp.parts, rq.l2)
    ensures SharedOut(j => share(bp, j), rq, bp.After(fill(bp, raw)), bp)
  {
    hide Blueprint.For, Blueprint.Filled, SocketLists, WithinLimits, SharedOut;
    assert SuppliedWith(bp, raw, rq, fill(bp, raw), j => share(bp, j));
  }

  // ----- The runs exist -----

  /** Every blueprint can be filled. */
  lemma Fillable(bp: Blueprint, input: seq<Arc>, raw: seq<Arc>, undirected: bool) returns (trace: seq<State>)
    requires bp.For(input, raw, undirected)
    ensures Built(bp.After(trace), bp, input, raw, undirected, trace)
  {
    hide Arcs, Run, AllDone, Relabelled;
    LayoutFits(bp.adj, bp.sizes, Arcs(raw, undirected), bp.parts.pBegin, bp.parts.pEnd);
    trace := EdgeFill.Fillable(bp.adj, bp.sizes, Arcs(raw, undirected));
  }

  /** Some run of the fill to its end, where there is one. */
  ghost function SomeFill(bp: Blueprint, arcs: seq<Arc>): seq<State> {
    if trace: seq<State> :| bp.Filled(arcs, trace) then trace else []
  }

  ghost function SomeShare(rq: Request, bp: Blueprint, job: Job): Runs
    requires 0 < rq.order.socketNum && 0 < |rq.streams| / rq.order.socketNum
  {
    var walkers := match Estimate(job) case Sized(n) => n case _ => 1;
    SomeRuns(rq.order.walkerNum, walkers, rq.order.socketNum, |rq.streams| / rq.order.socketNum, bp.lists)
  }

  /** Where there is room, every job can be shared out. */
  lemma Shared(rq: Request, g: Graph, bp: Blueprint, share: Job -> Runs)
    requires HasRoom(rq, g, bp.parts) && forall j :: share(j) == SomeShare(rq, bp, j)
    ensures SharedOut(share, rq, g, bp)
  {
    hide AllFit, SomeRuns, AllShared, Request.JobOn;
    forall j | rq.JobOn(g, bp.parts, j) && Estimate(j).Sized?
      ensures AllShared(share(j), rq.order.walkerNum, Estimate(j).walkers, rq.order.walkLen, rq.order.socketNum,
                        |rq.streams| / rq.order.socketNum, bp.lists)
    {
      Shareable(rq.order.walkerNum, Estimate(j).walkers, rq.order.walkLen, rq.order.socketNum,
                |rq.streams| / rq.order.socketNum, bp.lists);
    }
  }

  /** Whatever the build comes to, there is room. */
  ghost predicate AlwaysRoom(input: seq<Arc>, rq: Request) {
    forall bp: Blueprint, raw: seq<Arc>, trace ::
      Built(bp.After(trace), bp, input, raw, rq.undirected, trace) ==> HasRoom(rq, bp.After(trace), bp.parts)
  }

  /** Then there are runs of the fill and of the protocols to walk with. */
  lemma Suppliable(input: seq<Arc>, rq: Request, fill: (Blueprint, seq<Arc>) -> seq<State>,
                   share: (Blueprint, Job) -> Runs)
    requires rq.Legal() && 0 < |rq.streams| / rq.order.socketNum && AlwaysRoom(input, rq)
    requires forall bp, raw :: fill(bp, raw) == SomeFill(bp, Arcs(raw, rq.undirected))
    requires forall bp, j :: share(bp, j) == SomeShare(rq, bp, j)
    ensures Supplied(input, rq, fill, share)
  {
    hide Blueprint.For, Blueprint.Filled, SocketLists, WithinLimits, SomeShare, Arcs, SharedOut;
    forall bp: Blueprint, raw: seq<Arc> | bp.For(input, raw, rq.undirected)
      ensures SuppliedWith(bp, raw, rq, fill(bp, raw), j => share(bp, j))
    {
      var trace := Fillable(bp, input, raw, rq.undirected);
      assert bp.Filled(Arcs(raw, rq.undirected), trace);
      var g := bp.After(fill(bp, raw));
      assert Built(g, bp, input, raw, rq.undirected, fill(bp, raw));
      Shared(rq, g, bp, j => share(bp, j));
    }
  }

  /** There is, for the cursors, with a chunk for each thread, and one more, between the walkers and 2^32. */
  lemma FewWalkersHaveRoom(rq: Request, g: Graph, pt: Partitioning)
    requires rq.Legal() && WithinLimits(g, pt, rq.l2)
    requires rq.order.walkerNum + WorkStealing.CHUNK * (|rq.streams| + 1) <= TWO32
    ensures HasRoom(rq, g, pt)
  {
    PerSocket(|rq.streams|, rq.order.socketNum);
    var sockets, perSocket := rq.order.socketNum, |rq.streams| / rq.order.socketNum;
    hide WithinLimits, AllFit, Estimate;
    forall j | rq.JobOn(g, pt, j) && Estimate(j).Sized?
      ensures AllFit(rq.order.walkerNum, Estimate(j).walkers, sockets, perSocket)
    {
      var w := EpochFits(j);
      RoomForAll(rq.order.walkerNum, Estimate(j).walkers, sockets, perSocket);
    }
  }
}
