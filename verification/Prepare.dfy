/**
 * FMobSolver::prepare of src/core/solver.hpp: from a built graph to a solver that is ready to walk.
 */
module Prepare {
  import opened Arith
  import opened Options
  import opened Perm
  import opened Buckets
  import opened Partition
  import opened Csr
  import opened Samplers
  import opened BufferSampler
  import opened Bloom
  import opened Neighbors
  import opened Walk
  import opened Message
  import opened Shuffling
  import opened Stepping
  import opened Rounds
  import opened WalkerRanges
  import opened EpochSize
  import opened Solver

  // ----- Tasks -----

  /** The first tasks, one for each range, on arrays of their own. */
  ghost predicate TasksFor(tasks: seq<MessageTask>, partitionNum: nat, tb: seq<nat>, te: seq<nat>, ids: array<nat>,
                           own: set<object>)
    reads tasks
  {
    && |tasks| <= |tb| == |te|
    && (forall k :: 0 <= k < |tasks| ==> TaskFor(tasks[k], partitionNum, tb[k], te[k], ids, own))
    && (forall j, k :: 0 <= j < k < |tasks| ==> Strangers(tasks[j], tasks[k]))
  }

  ghost predicate TaskFor(t: MessageTask, partitionNum: nat, b: nat, e: nat, ids: array<nat>, own: set<object>)
    reads t
  {
    && t.Valid() && t.partitionNum == partitionNum && t.originBegin == b && t.originEnd == e && t.partitionIds == ids
    && t.Own() <= own && t !in own && t.messages.Length == t.states.Length == Max(0, e - b)
  }

  ghost function MessageLengths(tasks: seq<MessageTask>): (r: seq<nat>)
    ensures |r| == |tasks| && forall k :: 0 <= k < |tasks| ==> r[k] == tasks[k].messages.Length
  {
    seq<nat>(|tasks|, k requires 0 <= k < |tasks| => tasks[k].messages.Length)
  }

  ghost function StateLengths(tasks: seq<MessageTask>): (r: seq<nat>)
    ensures |r| == |tasks| && forall k :: 0 <= k < |tasks| ==> r[k] == tasks[k].states.Length
  {
    seq<nat>(|tasks|, k requires 0 <= k < |tasks| => tasks[k].states.Length)
  }

  method MakeTasks(partitionNum: nat, tb: seq<nat>, te: seq<nat>, n: nat)
    returns (tasks: seq<MessageTask>, ghost own: set<object>)
    requires Chain(tb, te, 0, n) && 0 < |tb|
    ensures Team(tasks, partitionNum, n) && |tasks| == |tb| && Within(tasks, own)
    ensures fresh(own) && fresh(tasks)
    ensures forall vNum: nat :: 0 < vNum ==> StatesBelow(tasks, vNum)
    ensures Total(MessageLengths(tasks)) == Total(StateLengths(tasks)) == n
  {
    assert |tb| == |te| && forall k :: 0 <= k < |tb| ==> tb[k] <= te[k];
    hide Chain, TasksFor, ZeroStates;
    var ids := new nat[n];
    tasks, own := [], {ids};
    NoTasks(partitionNum, tb, te, ids, own);
    for k := 0 to |tb|
      invariant |tasks| == k && fresh(own) && fresh(tasks) && ids in own
      invariant TasksFor(tasks, partitionNum, tb, te, ids, own)
      invariant ZeroStates(tasks)
    {
      ChainOrdered(tb, te, 0, n, k, |tb| - 1);
      var t := new MessageTask(partitionNum, tb[k], te[k], ids);
      assert t !in own && t.Own() !! own && forall j :: 0 <= j < k ==> tasks[j] !in t.Own() && tasks[j] != t;
      OneMoreTask(tasks, partitionNum, tb, te, ids, own, t);
      tasks := tasks + [t];
      own := own + t.Own();
    }
    TasksAreTeam(tasks, partitionNum, tb, te, n, ids, own);
    TasksTotal(tasks, partitionNum, tb, te, n, ids, own);
  }

  lemma TasksTotal(tasks: seq<MessageTask>, partitionNum: nat, tb: seq<nat>, te: seq<nat>, n: nat, ids: array<nat>,
                   own: set<object>)
    requires Chain(tb, te, 0, n) && 0 < |tb| == |tasks| && TasksFor(tasks, partitionNum, tb, te, ids, own)
    ensures Total(MessageLengths(tasks)) == Total(StateLengths(tasks)) == n
  {
    ChainTotal(tb, te, 0, n, |tb|);
    assert Sizes(tb, te)[..|tb|] == Sizes(tb, te);
    forall k | 0 <= k < |tasks|
      ensures tasks[k].messages.Length == tasks[k].states.Length == Sizes(tb, te)[k]
    {
      assert TaskFor(tasks[k], partitionNum, tb[k], te[k], ids, own);
    }
    assert MessageLengths(tasks) == Sizes(tb, te) && StateLengths(tasks) == Sizes(tb, te);
  }

  lemma NoTasks(partitionNum: nat, tb: seq<nat>, te: seq<nat>, ids: array<nat>, own: set<object>)
    requires |tb| == |te|
    ensures TasksFor([], partitionNum, tb, te, ids, own) && ZeroStates([])
  {
  }

  lemma OneMoreTask(tasks: seq<MessageTask>, partitionNum: nat, tb: seq<nat>, te: seq<nat>, ids: array<nat>,
                    own: set<object>, t: MessageTask)
    requires TasksFor(tasks, partitionNum, tb, te, ids, own) && ZeroStates(tasks) && |tasks| < |tb| == |te|
    requires t.Valid() && t.partitionNum == partitionNum && t.originBegin == tb[|tasks|] && t.originEnd == te[|tasks|]
    requires t.partitionIds == ids
    requires t !in own && t.Own() !! own && forall j :: 0 <= j < |tasks| ==> tasks[j] !in t.Own() && tasks[j] != t
    requires t.messages.Length == t.states.Length == Max(0, te[|tasks|] - tb[|tasks|])
    requires t !in t.Own() && forall i :: 0 <= i < t.states.Length ==> t.states[i] == 0
    ensures TasksFor(tasks + [t], partitionNum, tb, te, ids, own + t.Own()) && ZeroStates(tasks + [t])
  {
    assert forall k :: 0 <= k < |tasks| ==> TaskFor(tasks[k], partitionNum, tb[k], te[k], ids, own);
    forall k | 0 <= k < |tasks| + 1
      ensures TaskFor((tasks + [t])[k], partitionNum, tb[k], te[k], ids, own + t.Own())
    {
    }
  }

  ghost predicate ZeroStates(tasks: seq<MessageTask>)
    reads MessageStates(tasks)
  {
    forall k :: 0 <= k < |tasks| ==> forall i :: 0 <= i < tasks[k].states.Length ==> tasks[k].states[i] == 0
  }

  lemma TasksAreTeam(tasks: seq<MessageTask>, partitionNum: nat, tb: seq<nat>, te: seq<nat>, n: nat, ids: array<nat>,
                     own: set<object>)
    requires Chain(tb, te, 0, n) && 0 < |tb| == |tasks| && ids in own
    requires TasksFor(tasks, partitionNum, tb, te, ids, own) && ZeroStates(tasks)
    ensures Team(tasks, partitionNum, n) && Within(tasks, own)
    ensures forall vNum: nat :: 0 < vNum ==> StatesBelow(tasks, vNum)
  {
    assert forall k :: 0 <= k < |tasks| ==> TaskFor(tasks[k], partitionNum, tb[k], te[k], ids, own);
    forall k | 0 < k < |tasks|
      ensures Joined(tasks, k)
    {
      assert Meets(tb, te, k);
    }
  }

  // ----- Samplers -----

  /** The partition is laid out for its sampler, and fits the 32-bit indices of the class it gets. */
  ghost predicate PartitionOk(g: Graph, b: nat, e: nat, hint: SamplerClass, l2: nat) {
    Contiguous(g.adj, b, e) && NonIncreasing(g.adj, b, e) && FitsClass(g, b, e, hint, l2)
  }

  ghost predicate PartitionsOk(g: Graph, pBegin: seq<nat>, pEnd: seq<nat>, hints: seq<SamplerClass>, l2: nat) {
    && |pBegin| == |pEnd| == |hints|
    && forall p :: 0 <= p < |pBegin| ==> PartitionOk(g, pBegin[p], pEnd[p], hints[p], l2)
  }

  /** The samplers of the first partitions, sharing nothing. */
  ghost predicate SamplersFor(g: Graph, pBegin: seq<nat>, pEnd: seq<nat>, samplers: seq<AnySampler>, parts: set<object>)
    reads parts
  {
    && |samplers| <= |pBegin| == |pEnd|
    && (forall p :: 0 <= p < |samplers| ==> samplers[p].Parts() <= parts && samplers[p].Serves(g, pBegin[p], pEnd[p]))
    && (forall p, q :: 0 <= p < q < |samplers| ==> samplers[p].Parts() !! samplers[q].Parts())
  }

  lemma OneMoreSampler(g: Graph, pBegin: seq<nat>, pEnd: seq<nat>, samplers: seq<AnySampler>, parts: set<object>,
                       s: AnySampler)
    requires SamplersFor(g, pBegin, pEnd, samplers, parts) && |samplers| < |pBegin|
    requires s.Serves(g, pBegin[|samplers|], pEnd[|samplers|]) && s.Parts() !! parts
    ensures SamplersFor(g, pBegin, pEnd, samplers + [s], parts + s.Parts())
  {
    hide AnySampler.Serves, AnySampler.Parts;
  }

  /** The first partitions have samplers of the kinds they call for. */
  ghost predicate RightKinds(g: Graph, pBegin: seq<nat>, pEnd: seq<nat>, hints: seq<SamplerClass>, l2: nat,
                             samplers: seq<AnySampler>)
  {
    && |samplers| <= |pBegin| == |pEnd| == |hints|
    && forall p :: 0 <= p < |samplers| ==>
         pBegin[p] < pEnd[p] <= |g.adj| && RightKind(g, pBegin[p], pEnd[p], hints[p], l2, samplers[p])
  }

  /** SamplerManager::init. */
  method MakeSamplers(g: Graph, pBegin: seq<nat>, pEnd: seq<nat>, hints: seq<SamplerClass>, l2: nat)
    returns (samplers: seq<AnySampler>, ghost parts: set<object>)
    requires g.Valid() && PartitionsOk(g, pBegin, pEnd, hints, l2)
    ensures |samplers| == |pBegin| && SamplersFor(g, pBegin, pEnd, samplers, parts) && fresh(parts)
    ensures RightKinds(g, pBegin, pEnd, hints, l2, samplers)
  {
    hide Contiguous, NonIncreasing, FitsClass, Graph.Valid, AnySampler.Serves, AnySampler.Parts, RightKind;
    samplers, parts := [], {};
    for p := 0 to |pBegin|
      invariant |samplers| == p && SamplersFor(g, pBegin, pEnd, samplers, parts) && fresh(parts)
      invariant RightKinds(g, pBegin, pEnd, hints, l2, samplers)
    {
      hide SamplersFor;
      assert PartitionOk(g, pBegin[p], pEnd[p], hints[p], l2);
      var s := MakeSampler(g, pBegin[p], pEnd[p], hints[p], l2);
      OneMoreSampler(g, pBegin, pEnd, samplers, parts, s);
      samplers := samplers + [s];
      parts := parts + s.Parts();
    }
  }

  // ----- Step arrays -----

  method MakeArrays(num: nat, length: nat) returns (walks: seq<array<nat>>)
    ensures |walks| == num && fresh(walks)
    ensures forall l :: 0 <= l < num ==> walks[l].Length == length
    ensures forall l, m :: 0 <= l < m < num ==> walks[l] != walks[m]
  {
    walks := [];
    for l := 0 to num
      invariant |walks| == l && fresh(walks)
      invariant forall i :: 0 <= i < l ==> walks[i].Length == length
      invariant forall i, m :: 0 <= i < m < l ==> walks[i] != walks[m]
    {
      var a := new nat[length](_ => 0);
      walks := walks + [a];
    }
  }

  // ----- The solver -----

  lemma {:induction false} BeginSame(g: Graph, h: Graph, b: nat, k: nat)
    requires g.adj == h.adj && b + k <= |g.adj|
    ensures Begin(g, b, k) == Begin(h, b, k)
  {
    if k != 0 {
      BeginSame(g, h, b, k - 1);
    }
  }

  lemma PartitionStaysOk(g: Graph, h: Graph, b: nat, e: nat, hint: SamplerClass, l2: nat)
    requires PartitionOk(g, b, e, hint, l2) && g.adj == h.adj
    ensures PartitionOk(h, b, e, hint, l2)
  {
    hide LowDegree, HighDegree, EdgeNum, ValidSimilar, RunsFit, Begin, Contiguous, NonIncreasing;
    BeginSame(g, h, b, e - b);
  }

  /** h has the neighbours of g: sorted for node2vec queries, untouched otherwise. */
  ghost predicate SameGraph(g: Graph, h: Graph, mode: Mode)
    requires g.Valid()
  {
    if mode.Node2vec? then SortedUpTo(g, h, |g.adj|) else h == g
  }

  /** There is a filter for node2vec walks only, of the capacity that the edges call for. */
  ghost predicate FilterFor(w: World, edgeNum: nat, asUndirected: bool)
    reads w.filter
  {
    && (w.filter != null <==> w.mode.Node2vec?)
    && (w.filter != null ==>
         CapacityFor(if asUndirected then edgeNum / 2 else edgeNum, w.filter.bits, w.filter.table.Length))
  }

  /** The part of prepare that readies neighbourhood queries. */
  method MakeWorld(g: Graph, mode: Mode, edgeNum: nat, asUndirected: bool, rands: seq<Rand>, pBegin: seq<nat>,
                   pEnd: seq<nat>, buffered: seq<bool>)
    returns (w: World)
    requires g.Valid() && ListsApart(g.adj) && |g.adj| <= TWO32 && mode.Legal()
    ensures w.mode == mode && w.rands == rands && w.pBegin == pBegin && w.pEnd == pEnd && w.buffered == buffered
    ensures w.h.Valid() && w.h.adj == g.adj && SameGraph(g, w.h, mode) && Queryable(w)
    ensures w.filter != null ==> fresh(w.filter) && fresh(w.filter.table)
    ensures FilterFor(w, edgeNum, asUndirected)
  {
    hide Graph.Valid, ListsApart, CapacityFor;
    if mode.Node2vec? {
      var h, bf := PrepareNeighborQuery(g, edgeNum, asUndirected);
      w := World(h, mode, rands, bf, pBegin, pEnd, buffered);
    } else {
      w := World(g, mode, rands, null, pBegin, pEnd, buffered);
    }
  }

  lemma LookupFinds(w: World, groupBits: nat, hints: seq<GroupHint>, headers: seq<GroupHeader>)
    requires ValidHints(|w.h.adj|, groupBits, hints) && Headers(groupBits, hints, headers)
    requires AllLaidOut(|w.h.adj|, groupBits, hints, w.pBegin, w.pEnd)
    ensures Finds(w, groupBits, headers) && |w.pBegin| == |w.pEnd|
  {
    hide ValidHints, Headers, PartitionId;
    forall v | 0 <= v < |w.h.adj|
      ensures FoundAt(w, groupBits, headers, v)
    {
      PartitionIdFinds(|w.h.adj|, groupBits, hints, headers, w.pBegin, w.pEnd, v);
    }
  }

  /** The partitions with buffered samplers are those whose class says so. */
  function BufferedOf(classes: seq<SamplerClass>): (buffered: seq<bool>)
    ensures |buffered| == |classes|
    ensures forall p :: 0 <= p < |classes| ==> (buffered[p] <==> classes[p] == ExclusiveBuffer)
  {
    seq(|classes|, p requires 0 <= p < |classes| => classes[p] == ExclusiveBuffer)
  }

  /** The pieces of a solver, put together, are a valid solver. */
  lemma PiecesFit(s: FMobSolver)
    requires s.w.mode.Legal() && s.w.h.Valid() && 0 < |s.w.h.adj| && Queryable(s.w)
    requires Finds(s.w, s.groupBits, s.headers)
    requires |s.w.pBegin| == |s.w.pEnd|
    requires Team(s.tasks, |s.w.pBegin|, s.covered) && StatesBelow(s.tasks, |s.w.h.adj|)
    requires |s.tasks| == s.socketNum * s.perSocket
    requires SamplersFor(s.w.h, s.w.pBegin, s.w.pEnd, s.samplers, s.parts)
    requires |s.samplers| == |s.w.pBegin| == |s.w.buffered|
    requires forall p :: 0 <= p < |s.samplers| ==> (s.samplers[p].Buffered? <==> s.w.buffered[p])
    requires Separate(s.w, s.tasks, s.own, s.parts) && s.written == [] && s.ledger == map[] && s.terminated == 0
    requires s.Arrays() && Min(s.maxEpoch, s.rest) <= s.covered <= s.maxEpoch
    ensures s.Valid()
  {
    assert forall r :: 0 <= r < |s.w.rands| ==> s.w.rands[r] !in s.parts;
    hide Ready, Finds, Team, StatesBelow, Graph.Valid, AnySampler.Serves, AnySampler.Parts, Separate;
  }

  twostate lemma StatesKept(tasks: seq<MessageTask>, new vNum: nat)
    requires old(StatesBelow(tasks, vNum)) && forall k :: 0 <= k < |tasks| ==> unchanged(tasks[k].states)
    ensures StatesBelow(tasks, vNum)
  {
    hide AllBelow;
    forall k | 0 <= k < |tasks|
      ensures AllBelow(tasks[k].states[..], vNum)
    {
      assert tasks[k].states[..] == old(tasks[k].states[..]);
    }
  }

  /** The storage of prepare beside the tasks: samplers and arrays, all new. */
  method Furnish(w: World, groupBits: nat, headers: seq<GroupHeader>, classes: seq<SamplerClass>, maxEpoch: nat,
                 walkerNum: nat, walkLen: nat, socketNum: nat, perSocket: nat, l2: nat, tasks: seq<MessageTask>,
                 ghost own: set<object>)
    returns (s: FMobSolver)
    requires w.mode.Legal() && w.h.Valid() && 0 < |w.h.adj| && Queryable(w) && Finds(w, groupBits, headers)
    requires PartitionsOk(w.h, w.pBegin, w.pEnd, classes, l2) && Distinct(w.rands) && w.buffered == BufferedOf(classes)
    requires 0 < maxEpoch && 0 < walkLen && |tasks| == socketNum * perSocket
    requires Team(tasks, |w.pBegin|, maxEpoch) && Within(tasks, own) && StatesBelow(tasks, |w.h.adj|)
    requires Total(MessageLengths(tasks)) == Total(StateLengths(tasks)) == maxEpoch
    requires w.filter != null ==> w.filter !in own && w.filter.table !in own
    requires forall r :: 0 <= r < |w.rands| ==> w.rands[r] !in own
    ensures fresh(s) && s.Valid() && s.w == w && s.walkLen == walkLen && s.maxEpoch == maxEpoch
    ensures s.rest == walkerNum && s.terminated == 0 && s.own == own && s.tasks == tasks && s.written == []
    ensures s.ledger == map[]
    ensures s.socketNum == socketNum && s.perSocket == perSocket
    ensures RightKinds(w.h, w.pBegin, w.pEnd, classes, l2, s.samplers) && HoldsFor(s, maxEpoch, walkLen)
    ensures fresh(s.parts) && fresh(s.walks) && fresh(s.starts)
  {
    assert |w.pBegin| == |w.pEnd|;
    hide Queryable, Ready, Finds, Team, Graph.Valid, AnySampler.Serves, AnySampler.Parts, PartitionsOk, Within;
    hide SamplersFor;
    var samplers, starts, walks;
    ghost var parts;
    samplers, starts, walks, parts := Equip(w, classes, maxEpoch, walkLen, l2);
    s := new FMobSolver(w, tasks, samplers, groupBits, headers, socketNum, perSocket, maxEpoch, walkerNum, starts,
      walks, own, parts);
    assert Separate(w, tasks, own, parts);
    StatesKept(tasks, |w.h.adj|);
    PiecesFit(s);
    WordsAre(s, maxEpoch);
  }

  ghost function Lengths(walks: seq<array<nat>>): (r: seq<nat>)
    ensures |r| == |walks| && forall l :: 0 <= l < |walks| ==> r[l] == walks[l].Length
  {
    seq<nat>(|walks|, l requires 0 <= l < |walks| => walks[l].Length)
  }

  /** The words of 4 bytes in the arrays that grow with the walkers. */
  ghost function Words(s: FMobSolver): nat {
    Total(Lengths(s.walks)) + s.starts.Length + Total(MessageLengths(s.tasks)) + Total(StateLengths(s.tasks))
  }

  /** One for each walker in each step array, and one each for its start, its message and its state. */
  ghost predicate HoldsFor(s: FMobSolver, walkers: nat, walkLen: nat) {
    Words(s) == walkers * (walkLen + 3)
  }

  lemma WordsAre(s: FMobSolver, n: nat)
    requires Total(MessageLengths(s.tasks)) == Total(StateLengths(s.tasks)) == n && s.starts.Length == n
    requires forall l :: 0 <= l < |s.walks| ==> s.walks[l].Length == n
    ensures HoldsFor(s, n, |s.walks|)
  {
    TotalSame(Lengths(s.walks), n);
    assert n * (|s.walks| + 3) == n * |s.walks| + 3 * n;
  }

  /** Samplers and arrays, all new. */
  method Equip(w: World, classes: seq<SamplerClass>, maxEpoch: nat, walkLen: nat, l2: nat)
    returns (samplers: seq<AnySampler>, starts: array<nat>, walks: seq<array<nat>>, ghost parts: set<object>)
    requires w.h.Valid() && PartitionsOk(w.h, w.pBegin, w.pEnd, classes, l2) && w.buffered == BufferedOf(classes)
    ensures |samplers| == |w.pBegin| == |w.buffered| && SamplersFor(w.h, w.pBegin, w.pEnd, samplers, parts)
    ensures fresh(parts)
    ensures RightKinds(w.h, w.pBegin, w.pEnd, classes, l2, samplers)
    ensures forall p :: 0 <= p < |samplers| ==> (samplers[p].Buffered? <==> w.buffered[p])
    ensures fresh(starts) && starts.Length == maxEpoch && starts !in parts && starts !in walks
    ensures |walks| == walkLen && fresh(walks)
    ensures forall l :: 0 <= l < walkLen ==> walks[l].Length == maxEpoch && walks[l] !in parts
    ensures forall l, m :: 0 <= l < m < walkLen ==> walks[l] != walks[m]
  {
    assert |w.pBegin| == |w.pEnd| == |classes|;
    hide Graph.Valid, AnySampler.Serves, AnySampler.Parts, PartitionsOk, SamplersFor;
    samplers, parts := MakeSamplers(w.h, w.pBegin, w.pEnd, classes, l2);
    starts := new nat[maxEpoch](_ => 0);
    walks := MakeArrays(walkLen, maxEpoch);
  }

  /** The storage of prepare: ranges, tasks, samplers and arrays, all new. */
  method Assemble(w: World, groupBits: nat, headers: seq<GroupHeader>, classes: seq<SamplerClass>, maxEpoch: nat,
                  walkerNum: nat, walkLen: nat, socketNum: nat, threadNum: nat, l2: nat)
    returns (s: FMobSolver)
    requires w.mode.Legal() && w.h.Valid() && 0 < |w.h.adj| && Queryable(w) && Finds(w, groupBits, headers)
    requires PartitionsOk(w.h, w.pBegin, w.pEnd, classes, l2) && Distinct(w.rands) && w.buffered == BufferedOf(classes)
    requires 0 < maxEpoch && 0 < walkLen && 0 < socketNum && 0 < threadNum && threadNum % socketNum == 0
    ensures fresh(s) && s.Valid() && s.w == w && s.walkLen == walkLen && s.maxEpoch == maxEpoch
    ensures s.rest == walkerNum && s.terminated == 0 && s.written == [] && s.ledger == map[]
    ensures s.socketNum == socketNum && s.perSocket == threadNum / socketNum
    ensures RightKinds(w.h, w.pBegin, w.pEnd, classes, l2, s.samplers) && HoldsFor(s, maxEpoch, walkLen)
    ensures fresh(s.own) && fresh(s.parts) && fresh(s.tasks) && fresh(s.walks) && fresh(s.starts)
  {
    hide Ready, Finds, Team, Graph.Valid, PartitionsOk, Within, Chain, StatesBelow, FMobSolver.Valid, ThreadBegins;
    hide ThreadEnds;
    var sb, se, tb, te := InitRanges(maxEpoch, socketNum, threadNum);
    PerSocket(threadNum, socketNum);
    ghost var own;
    var tasks;
    tasks, own := MakeTasks(|w.pBegin|, tb, te, maxEpoch);
    s := Furnish(w, groupBits, headers, classes, maxEpoch, walkerNum, walkLen, socketNum, threadNum / socketNum, l2,
      tasks, own);
  }

  /** What prepare needs of the graph: built, partitioned, and with a sampler class for every partition. */
  ghost predicate GraphReady(g: Graph, pt: Partitioning, l2: nat) {
    && g.Valid() && ListsApart(g.adj) && 0 < |g.adj| <= TWO32 && pt.Of(|g.adj|)
    && PartitionsOk(g, pt.pBegin, pt.pEnd, pt.classes, l2)
  }

  lemma WorldReady(g: Graph, w: World, pt: Partitioning, l2: nat)
    requires GraphReady(g, pt, l2) && w.h.adj == g.adj && w.pBegin == pt.pBegin && w.pEnd == pt.pEnd
    ensures Finds(w, pt.groupBits, pt.headers) && PartitionsOk(w.h, w.pBegin, w.pEnd, pt.classes, l2)
  {
    hide Graph.Valid, ListsApart, ValidHints, Headers, AllLaidOut, PartitionOk;
    LookupFinds(w, pt.groupBits, pt.hints, pt.headers);
    forall p | 0 <= p < |w.pBegin|
      ensures PartitionOk(w.h, w.pBegin[p], w.pEnd[p], pt.classes[p], l2)
    {
      PartitionStaysOk(g, w.h, pt.pBegin[p], pt.pEnd[p], pt.classes[p], l2);
    }
  }

  /** One generator for each thread, with the numbers it will produce. */
  method MakeRands(streams: seq<Stream>) returns (rands: seq<Rand>)
    ensures |rands| == |streams| && fresh(rands) && Distinct(rands)
    ensures forall r :: 0 <= r < |rands| ==> Unused(rands[r], streams[r])
  {
    rands := [];
    for r := 0 to |streams|
      invariant |rands| == r && fresh(rands) && Distinct(rands)
      invariant forall i :: 0 <= i < r ==> Unused(rands[i], streams[i])
    {
      var rd := new Rand(streams[r].ints, streams[r].reals);
      rands := rands + [rd];
    }
  }

  /** A generator nobody has drawn from. */
  ghost predicate Unused(rd: Rand, stream: Stream)
    reads rd
  {
    rd.ints == stream.ints && rd.reals == stream.reals && rd.pos == 0 && rd.realAt == {}
  }

  // ----- The memory estimate's input -----

  /** The edges of the partitions that get buffered samplers. */
  ghost function BufferEdges(adj: seq<AdjList>, pBegin: seq<nat>, pEnd: seq<nat>, classes: seq<SamplerClass>,
                             n: nat): nat
    requires n <= |pBegin| == |pEnd| == |classes| && forall p :: 0 <= p < |pBegin| ==> pEnd[p] <= |adj|
  {
    if n == 0 then 0
    else
      var edgeNum := if classes[n - 1] == ExclusiveBuffer then EdgeNum(adj, pBegin[n - 1], pEnd[n - 1]) else 0;
      BufferEdges(adj, pBegin, pEnd, classes, n - 1) + edgeNum
  }

  /**
   * The buffers hold at least a number for each edge, and as many exactly where every degree is 8 or more and no
   * power of two above 8; elsewhere the estimate, which counts edges, counts too little.
   */
  lemma {:induction false} BuffersCountedIff(g: Graph, b: nat, n: nat)
    requires b + n <= |g.adj|
    ensures EdgeNum(g.adj, b, b + n) <= Begin(g, b, n)
    ensures EdgeNum(g.adj, b, b + n) == Begin(g, b, n) <==> forall v :: b <= v < b + n ==> ExactBuffer(g.adj[v].degree)
  {
    if n != 0 {
      BuffersCountedIff(g, b, n - 1);
      BufferLengthPow2Iff(g.adj[b + n - 1].degree);
    }
  }

  predicate ExactBuffer(degree: nat) {
    8 <= degree && (degree == 8 || !IsPow2(degree))
  }

  method CountBufferEdges(adj: seq<AdjList>, pBegin: seq<nat>, pEnd: seq<nat>, classes: seq<SamplerClass>)
    returns (n: nat)
    requires |pBegin| == |pEnd| == |classes| && forall p :: 0 <= p < |pBegin| ==> pBegin[p] <= pEnd[p] <= |adj|
    ensures n == BufferEdges(adj, pBegin, pEnd, classes, |pBegin|)
  {
    n := 0;
    for p := 0 to |pBegin|
      invariant n == BufferEdges(adj, pBegin, pEnd, classes, p)
    {
      if classes[p] == ExclusiveBuffer {
        var m := CountEdges(adj, pBegin[p], pEnd[p]);
        n := n + m;
      }
    }
  }

  /** What the user asks for. */
  datatype Order = Order(walkerNum: nat, walkLen: nat, socketNum: nat, quota: nat)

  /** The job is the order on this graph; a node2vec job has its edge filter on top. */
  ghost predicate JobFor(job: Job, order: Order, g: Graph, pt: Partitioning, mode: Mode, asUndirected: bool) {
    && |pt.pBegin| == |pt.pEnd| == |pt.classes| && (forall p :: 0 <= p < |pt.pBegin| ==> pt.pEnd[p] <= |g.adj|)
    && job.vertexNum == |g.adj| && job.edgeNum == EdgeNum(g.adj, 0, |g.adj|)
    && job.bufferEdgeNum == BufferEdges(g.adj, pt.pBegin, pt.pEnd, pt.classes, |pt.pBegin|)
    && job.walkerNum == order.walkerNum && job.walkLen == order.walkLen
    && job.socketNum == order.socketNum && job.quota == order.quota
    && (if mode.Node2vec? then FilterBytes(if asUndirected then job.edgeNum / 2 else job.edgeNum, job.other)
        else job.other == 0)
  }

  /** The size of the filter for so many items. */
  ghost predicate FilterBytes(itemNum: nat, bytes: nat) {
    bytes % 8 == 0 && exists bits: nat :: CapacityFor(itemNum, bits, bytes / 8)
  }

  /** The job is worked out from the graph. */
  method MakeJob(order: Order, g: Graph, w: World, edgeNum: nat, pt: Partitioning, ghost asUndirected: bool)
    returns (job: Job)
    requires |pt.pBegin| == |pt.pEnd| == |pt.classes|
    requires forall p :: 0 <= p < |pt.pBegin| ==> pt.pBegin[p] <= pt.pEnd[p] <= |g.adj|
    requires edgeNum == EdgeNum(g.adj, 0, |g.adj|) && FilterFor(w, edgeNum, asUndirected)
    ensures JobFor(job, order, g, pt, w.mode, asUndirected)
  {
    hide EdgeNum, BufferEdges, CapacityFor;
    var bufferEdgeNum := CountBufferEdges(g.adj, pt.pBegin, pt.pEnd, pt.classes);
    var other := if w.filter == null then 0 else 8 * w.filter.table.Length;
    assert w.filter != null ==>
      CapacityFor(if asUndirected then edgeNum / 2 else edgeNum, w.filter.bits, other / 8);
    job := Job(|g.adj|, edgeNum, bufferEdgeNum, order.walkerNum, order.walkLen, order.socketNum, order.quota, other);
  }

  /**
   * prepare: generators, the edge filter, the epoch size worked out for this graph, and the storage. There is
   * a solver exactly when the epoch size can be worked out.
   */
  method PrepareSolver(g: Graph, pt: Partitioning, mode: Mode, asUndirected: bool, streams: seq<Stream>, order: Order,
                       l2: nat)
    returns (s: Option<FMobSolver>, job: Job)
    requires GraphReady(g, pt, l2) && mode.Legal()
    requires 0 < order.walkLen && 0 < order.socketNum && 0 < |streams| && |streams| % order.socketNum == 0
    ensures JobFor(job, order, g, pt, mode, asUndirected)
    ensures s.Some? <==> Estimate(job).Sized?
    ensures s.Some? ==> fresh(s.value) && s.value.Valid() && fresh(s.value.w.rands)
    ensures s.Some? ==> Prepared(s.value, Estimate(job).walkers, g, pt, mode, streams, order, l2)
    ensures s.Some? ==> fresh(s.value.own) && fresh(s.value.parts) && fresh(s.value.tasks)
    ensures s.Some? ==> fresh(s.value.walks) && fresh(s.value.starts)
  {
    assert forall p :: 0 <= p < |pt.pBegin| ==>
      PartitionOk(g, pt.pBegin[p], pt.pEnd[p], pt.classes[p], l2) && pt.pBegin[p] <= pt.pEnd[p] <= |g.adj|;
    assert g.Valid() && ListsApart(g.adj) && 0 < |g.adj| <= TWO32 && |pt.pBegin| == |pt.pEnd| == |pt.classes|;
    hide GraphReady, Prepared, Graph.Valid, Queryable, SameGraph, Distinct, Unused, RightKinds, HoldsFor, PartitionsOk;
    hide JobFor, FilterFor, Estimate, FMobSolver.Valid, ListsApart, EdgeNum;
    var rands := MakeRands(streams);
    var edgeNum := CountEdges(g.adj, 0, |g.adj|);
    var w := MakeWorld(g, mode, edgeNum, asUndirected, rands, pt.pBegin, pt.pEnd, BufferedOf(pt.classes));
    job := MakeJob(order, g, w, edgeNum, pt, asUndirected);
    var size := Estimate(job);
    if !size.Sized? {
      return None, job;
    }
    var solver := Start(g, w, pt, mode, streams, order, l2, size.walkers);
    s := Some(solver);
  }

  /** The storage for an epoch of so many walkers. */
  method Start(g: Graph, w: World, pt: Partitioning, mode: Mode, streams: seq<Stream>, order: Order, l2: nat, n: nat)
    returns (s: FMobSolver)
    requires GraphReady(g, pt, l2) && w.h.adj == g.adj && w.h.Valid() && Queryable(w) && SameGraph(g, w.h, mode)
    requires mode.Legal() && 0 < n && Equipped(w, mode, pt) && Distinct(w.rands)
    requires |w.rands| == |streams| && forall r :: 0 <= r < |streams| ==> Unused(w.rands[r], streams[r])
    requires 0 < order.walkLen && 0 < order.socketNum && 0 < |streams| && |streams| % order.socketNum == 0
    ensures fresh(s) && s.Valid() && s.w == w && Prepared(s, n, g, pt, mode, streams, order, l2)
    ensures fresh(s.own) && fresh(s.parts) && fresh(s.tasks) && fresh(s.walks) && fresh(s.starts)
  {
    WorldReady(g, w, pt, l2);
    assert 0 < |w.h.adj| && g.Valid();
    hide GraphReady, Prepared, Graph.Valid, Queryable, SameGraph, Distinct, Unused, RightKinds, HoldsFor, PartitionsOk;
    hide Finds, FMobSolver.Valid;
    s := Assemble(w, pt.groupBits, pt.headers, pt.classes, n, order.walkerNum, order.walkLen, order.socketNum,
                  |streams|, l2);
    forall r | 0 <= r < |streams|
      ensures Unused(w.rands[r], streams[r])
    {
      StillUnused(w.rands[r], streams[r]);
    }
    IsPrepared(s, n, g, pt, mode, streams, order, l2);
  }

  twostate lemma StillUnused(rd: Rand, new stream: Stream)
    requires old(Unused(rd, stream)) && unchanged(rd)
    ensures Unused(rd, stream)
  {
  }

  /** The solver is set up as ordered: over this graph, with these partitions, samplers, streams and arrays. */
  ghost predicate Prepared(s: FMobSolver, maxEpoch: nat, g: Graph, pt: Partitioning, mode: Mode, streams: seq<Stream>,
                           order: Order, l2: nat)
    reads s, s.w.rands
  {
    && Unstarted(s, maxEpoch, order) && HoldsFor(s, maxEpoch, order.walkLen)
    && Equipped(s.w, mode, pt) && g.Valid() && SameGraph(g, s.w.h, mode)
    && RightKinds(s.w.h, pt.pBegin, pt.pEnd, pt.classes, l2, s.samplers)
    && |s.w.rands| == |streams| && forall r :: 0 <= r < |streams| ==> Unused(s.w.rands[r], streams[r])
  }

  lemma IsPrepared(s: FMobSolver, maxEpoch: nat, g: Graph, pt: Partitioning, mode: Mode, streams: seq<Stream>,
                   order: Order, l2: nat)
    requires s.maxEpoch == maxEpoch && s.walkLen == order.walkLen && s.rest == order.walkerNum
    requires s.written == [] && s.ledger == map[] && HoldsFor(s, maxEpoch, order.walkLen)
    requires s.w.mode == mode && s.w.pBegin == pt.pBegin && s.w.pEnd == pt.pEnd
    requires s.w.buffered == BufferedOf(pt.classes)
    requires g.Valid() && SameGraph(g, s.w.h, mode)
    requires RightKinds(s.w.h, pt.pBegin, pt.pEnd, pt.classes, l2, s.samplers)
    requires |s.w.rands| == |streams| && forall r :: 0 <= r < |streams| ==> Unused(s.w.rands[r], streams[r])
    ensures Prepared(s, maxEpoch, g, pt, mode, streams, order, l2)
  {
    hide Words, RightKinds, SameGraph, Graph.Valid;
  }

  /** The solver is set for this order, and has not walked yet. */
  ghost predicate Unstarted(s: FMobSolver, maxEpoch: nat, order: Order)
    reads s
  {
    && s.maxEpoch == maxEpoch && s.walkLen == order.walkLen && s.rest == order.walkerNum
    && s.written == [] && s.ledger == map[]
  }

  /** The walks are of this kind, over these partitions, with samplers of these classes. */
  ghost predicate Equipped(w: World, mode: Mode, pt: Partitioning) {
    w.mode == mode && w.pBegin == pt.pBegin && w.pEnd == pt.pEnd && w.buffered == BufferedOf(pt.classes)
  }
}
