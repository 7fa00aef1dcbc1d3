/**
 * The walk step of src/core/walk.hpp on one partition's messages, the dispatch to the partition's
 * sampler, and SamplerManager's choice of that sampler (src/core/sampler.hpp).
 */
module Walk {
  import opened Arith
  import opened Partition
  import opened Csr
  import opened Samplers
  import opened BufferSampler
  import opened Bloom
  import opened Neighbors
  import opened Ledgers

  datatype AnySampler =
    | Buffered(buffered: ExclusiveBufferSampler)
    | Plain(plain: DirectSampler)
    | Uniform(uniform: UniformDegreeDirectSampler)
    | Similar(similar: SimilarDegreeDirectSampler)
  {
    ghost function Parts(): set<object> {
      match this
      case Buffered(s) => {s, s.units, s.headers}
      case Plain(s) => {s}
      case Uniform(s) => {s}
      case Similar(s) => {s, s.hints}
    }

    /** The sampler is ready to step the vertices [b, e) of g. */
    ghost predicate Serves(g: Graph, b: nat, e: nat)
      reads Parts()
    {
      match this
      case Buffered(s) => s.Valid() && s.g == g && s.vertexBegin == b && s.vertexEnd == e
      case Plain(s) => s.Valid() && s.g == g && s.vertexBegin == b && s.vertexEnd == e
      case Uniform(s) => s.Valid() && s.g == g && s.vertexBegin == b && s.vertexEnd == e
      case Similar(s) => s.Valid() && s.g == g && s.vertexBegin == b && s.vertexEnd == e
    }
  }

  /** No generator is part of a sampler. */
  lemma RandApart(s: AnySampler, rd: Rand)
    ensures rd !in s.Parts()
  {
  }

  /**
   * The answer for vertex v, and the draws [from, to) made for it. A direct sampler makes one draw, which
   * picks the answer. A buffered one makes none, and hands out a neighbour drawn ahead, or fills v's buffer
   * and hands out the first neighbour drawn.
   */
  ghost predicate Answered(g: Graph, rd: Rand, v: nat, direct: bool, from: nat, to: nat, ret: nat) {
    && g.Edge(v, ret)
    && var first := g.Neighbors(v)[rd.Draw(from, |g.Neighbors(v)|)];
       if direct then to == from + 1 && ret == first
       else to == from || (to == from + BufferLength(g.adj[v].degree) && ret == first)
  }

  ghost function AccountOf(s: AnySampler): Account
    reads s.Parts()
  {
    match s
    case Buffered(x) => x.Books()
    case _ => Account([], [])
  }

  /** What was drawn ahead comes out in the order in which it was drawn. */
  lemma HandedOutInOrder(s: AnySampler, g: Graph, b: nat, e: nat, k: nat)
    requires s.Buffered? && s.Serves(g, b, e) && b <= e && k < e - b
    ensures k < |AccountOf(s).served| == |AccountOf(s).drawn| && AccountOf(s).served[k] <= AccountOf(s).drawn[k]
  {
    assert s.buffered.Slot(k);
  }

  /** Whatever the sampler, the sampled vertex is a neighbour, got with the draws that its kind makes. */
  method Sample(s: AnySampler, g: Graph, b: nat, e: nat, v: nat, rd: Rand) returns (ret: nat)
    requires s.Serves(g, b, e) && b <= v < e
    modifies rd, s.Parts()
    ensures s.Serves(g, b, e)
    ensures v < |g.adj| && g.ListOk(g.adj[v]) && ret in g.Neighbors(v)
    ensures old(rd.pos) <= rd.pos && rd.realAt == old(rd.realAt)
    ensures Answered(g, rd, v, !s.Buffered?, old(rd.pos), rd.pos, ret)
    ensures s.Buffered? ==> Entered(g, rd, b, v, old(rd.pos), rd.pos, ret, old(AccountOf(s)), AccountOf(s))
  {
    hide Contiguous, SameDegree, Runs, EdgeNum, BufferLength;
    match s
    case Buffered(x) => ret := SampleBuffered(x, v, rd);
    case Plain(x) => ret := x.Sample(v, rd);
    case Uniform(x) =>
      assert b < e <= |g.adj| by { assert Contiguous(g.adj, b, e); UniformRange(g, b, e); }
      ret := x.Sample(v, rd);
    case Similar(x) =>
      assert b < e <= |g.adj| by { assert Contiguous(g.adj, b, e); UniformRange(g, b, e); }
      ret := x.Sample(v, rd);
  }

  method SampleBuffered(x: ExclusiveBufferSampler, v: nat, rd: Rand) returns (ret: nat)
    requires x.Valid() && x.vertexBegin <= v < x.vertexEnd
    modifies rd, x, x.units, x.headers
    ensures x.Valid() && old(rd.pos) <= rd.pos && rd.realAt == old(rd.realAt)
    ensures v < |x.g.adj| && x.g.ListOk(x.g.adj[v]) && Answered(x.g, rd, v, false, old(rd.pos), rd.pos, ret)
    ensures Entered(x.g, rd, x.vertexBegin, v, old(rd.pos), rd.pos, ret, old(x.Books()), x.Books())
  {
    x.Listed(v - x.vertexBegin);
    assert x.Slot(v - x.vertexBegin) && x.Shape();
    var k := v - x.vertexBegin;
    ghost var from := rd.pos;
    hide *;
    ret := x.Sample(v, rd);
    IsAnswered(x.g, rd, v, from, rd.pos, ret);
  }

  lemma IsAnswered(g: Graph, rd: Rand, v: nat, from: nat, to: nat, ret: nat)
    requires v < |g.adj| && g.ListOk(g.adj[v]) && ret in g.Neighbors(v)
    requires to == from
      || (to == from + BufferLength(g.adj[v].degree) && ret == g.Neighbors(v)[rd.Draw(from, |g.Neighbors(v)|)])
    ensures Answered(g, rd, v, false, from, to, ret)
  {
    hide BufferLength;
  }

  /**
   * Every neighbour of v is the answer on some stream, the i-th one where the draw is i; of a buffered sampler,
   * when it has nothing left of what it drew before.
   */
  method AnswersAny(s: AnySampler, g: Graph, b: nat, e: nat, v: nat, i: nat) returns (rd: Rand, ret: nat)
    requires s.Serves(g, b, e) && b <= v < e && v < |g.adj| && g.ListOk(g.adj[v]) && i < |g.Neighbors(v)|
    requires s.Buffered? ==> UsedUp(AccountOf(s), v - b)
    modifies s.Parts()
    ensures s.Serves(g, b, e) && fresh(rd) && ret == g.Neighbors(v)[i]
  {
    rd := new Rand(_ => i, _ => 0.0);
    ghost var acc := AccountOf(s);
    ret := Sample(s, g, b, e, v, rd);
    if s.Buffered? && rd.pos == 0 {
      HandedOutInOrder(s, g, b, e, v - b);
      assert false;
    }
  }

  /** All that was drawn for the k-th vertex has been handed out. */
  ghost predicate UsedUp(acc: Account, k: nat) {
    k < |acc.drawn| == |acc.served| && acc.drawn[k] == acc.served[k]
  }

  lemma UniformRange(g: Graph, b: nat, e: nat)
    requires Contiguous(g.adj, b, e)
    ensures b < e <= |g.adj|
  {
  }

  // ----- Choosing a sampler -----

  /** partition_min_degree: the search starts from the vertex count, so the result may be too low. */
  ghost function LowDegree(adj: seq<AdjList>, b: nat, e: nat): nat
    requires e <= |adj|
    decreases e
  {
    if e <= b then |adj| else Min(LowDegree(adj, b, e - 1), adj[e - 1].degree)
  }

  /** partition_max_degree. */
  ghost function HighDegree(adj: seq<AdjList>, b: nat, e: nat): nat
    requires e <= |adj|
    decreases e
  {
    if e <= b then 0 else Max(HighDegree(adj, b, e - 1), adj[e - 1].degree)
  }

  method DegreeBounds(adj: seq<AdjList>, b: nat, e: nat) returns (low: nat, high: nat)
    requires b < e <= |adj|
    ensures low == LowDegree(adj, b, e) && high == HighDegree(adj, b, e)
  {
    low, high := |adj|, 0;
    for v := b to e
      invariant low == LowDegree(adj, b, v) && high == HighDegree(adj, b, v)
    {
      high := Max(high, adj[v].degree);
      low := Min(low, adj[v].degree);
    }
  }

  /** Every degree lies in the range, and the range's ends are degrees, but for a minimum above the vertex count. */
  lemma {:induction false} DegreesInRange(adj: seq<AdjList>, b: nat, e: nat)
    requires b <= e <= |adj|
    ensures forall v :: b <= v < e ==> LowDegree(adj, b, e) <= adj[v].degree <= HighDegree(adj, b, e)
    ensures b < e ==> exists v :: b <= v < e && adj[v].degree == HighDegree(adj, b, e)
    ensures LowDegree(adj, b, e) == |adj| || exists v :: b <= v < e && adj[v].degree == LowDegree(adj, b, e)
    decreases e
  {
    if b < e {
      DegreesInRange(adj, b, e - 1);
    }
  }

  /** The two ends meet exactly when all degrees are equal and no degree exceeds the vertex count. */
  lemma UniformIff(adj: seq<AdjList>, b: nat, e: nat)
    requires b < e <= |adj|
    ensures LowDegree(adj, b, e) == HighDegree(adj, b, e) <==>
      adj[b].degree <= |adj| && SameDegree(adj, b, e, adj[b].degree)
  {
    DegreesInRange(adj, b, e);
    if adj[b].degree <= |adj| && SameDegree(adj, b, e, adj[b].degree) {
      LowIsAtMost(adj, b, e, adj[b].degree);
    } else if LowDegree(adj, b, e) == HighDegree(adj, b, e) {
      LowIsAtMost(adj, b, e, LowDegree(adj, b, e));
    }
  }

  lemma {:induction false} LowIsAtMost(adj: seq<AdjList>, b: nat, e: nat, d: nat)
    requires b <= e <= |adj|
    ensures LowDegree(adj, b, e) <= |adj|
    ensures d <= |adj| && (forall v :: b <= v < e ==> d <= adj[v].degree) ==> d <= LowDegree(adj, b, e)
    decreases e
  {
    if b < e {
      LowIsAtMost(adj, b, e - 1, d);
    }
  }

  /** partition_edge_num of one partition. */
  method CountEdges(adj: seq<AdjList>, b: nat, e: nat) returns (n: nat)
    requires b <= e <= |adj|
    ensures n == EdgeNum(adj, b, e)
  {
    n := 0;
    for v := b to e
      invariant n == EdgeNum(adj, b, v)
    {
      n := n + adj[v].degree;
    }
  }

  /** SimilarDegreeDirectSampler::valid. */
  function ValidSimilar(low: nat, high: nat, edgeNum: nat, vertexNum: nat, l2: nat): (ok: bool)
    ensures ok ==> high - low + 1 <= MAX_HINT_NUM
  {
    high - low + 1 <= MAX_HINT_NUM && l2 <= edgeNum * ADJ_UNIT_BYTES + vertexNum * ADJ_LIST_BYTES
  }

  lemma UniformFits(adj: seq<AdjList>, b: nat, e: nat)
    requires b < e && RunsFit(adj, b, e) && SameDegree(adj, b, e, adj[b].degree)
    ensures (e - b) * adj[b].degree <= TWO32
  {
  }

  /** What 32-bit indices demand of a partition, for the sampler it gets; the plain one demands nothing. */
  ghost predicate FitsClass(g: Graph, b: nat, e: nat, hint: SamplerClass, l2: nat) {
    && b <= e <= |g.adj|
    && (hint == ExclusiveBuffer ==> Begin(g, b, e - b) < TWO32)
    && (hint != ExclusiveBuffer
        && (LowDegree(g.adj, b, e) == HighDegree(g.adj, b, e)
            || ValidSimilar(LowDegree(g.adj, b, e), HighDegree(g.adj, b, e), EdgeNum(g.adj, b, e), e - b, l2))
        ==> RunsFit(g.adj, b, e))
  }

  /**
   * The sampler has the kind that the partition calls for: buffers if it was chosen so; otherwise one for equal
   * degrees where they are equal, one for similar degrees where there are at most 8 and the partition does not fit
   * the cache, and a plain one elsewhere.
   */
  ghost predicate RightKind(g: Graph, b: nat, e: nat, hint: SamplerClass, l2: nat, s: AnySampler)
    requires b < e <= |g.adj|
  {
    && (s.Buffered? <==> hint == ExclusiveBuffer)
    && (s.Uniform? <==>
          hint != ExclusiveBuffer && g.adj[b].degree <= |g.adj| && SameDegree(g.adj, b, e, g.adj[b].degree))
    && (s.Similar? <==> !s.Buffered? && !s.Uniform? && HighDegree(g.adj, b, e) - LowDegree(g.adj, b, e) < 8
                        && l2 <= 4 * EdgeNum(g.adj, b, e) + 12 * (e - b))
  }

  /**
   * The sampler for one partition. It is fit for the partition it is chosen for, even though the
   * minimum degree the choice rests on may be too low.
   */
  method MakeSampler(g: Graph, b: nat, e: nat, hint: SamplerClass, l2: nat) returns (s: AnySampler)
    requires g.Valid() && Contiguous(g.adj, b, e) && NonIncreasing(g.adj, b, e) && FitsClass(g, b, e, hint, l2)
    ensures fresh(s.Parts()) && s.Serves(g, b, e)
    ensures b < e <= |g.adj| && RightKind(g, b, e, hint, l2, s)
  {
    hide Graph.Valid, Begin, Contiguous, NonIncreasing, EdgeNum, LowDegree, HighDegree, RunsFit;
    UniformRange(g, b, e);
    UniformIff(g.adj, b, e);
    DegreesInRange(g.adj, b, e);
    hide SameDegree;
    var low, high := DegreeBounds(g.adj, b, e);
    if hint == ExclusiveBuffer {
      var x := new ExclusiveBufferSampler(b, e, g);
      return Buffered(x);
    }
    if low == high {
      UniformFits(g.adj, b, e);
      var x := new UniformDegreeDirectSampler(b, e, g);
      return Uniform(x);
    }
    var edgeNum := CountEdges(g.adj, b, e);
    if ValidSimilar(low, high, edgeNum, e - b, l2) {
      var x := new SimilarDegreeDirectSampler(b, e, g);
      x.Init(low, high);
      return Similar(x);
    }
    var x := new DirectSampler(b, e, g);
    s := Plain(x);
  }

  // ----- Walks -----

  datatype Mode = Static | Node2vec(p: real, q: real) {
    ghost predicate Legal() {
      Node2vec? ==> 0.0 < p && 0.0 < q
    }
  }

  /** Every message of [b, e) is a vertex the sampler serves. */
  ghost predicate InRange(messages: seq<nat>, b: nat, e: nat, lo: nat, hi: nat) {
    b <= e <= |messages| && forall m :: b <= m < e ==> lo <= messages[m] < hi
  }

  /** A proposal for a walker at cur: a neighbour of cur, and a draw from the stream below the bound. */
  ghost predicate Offered(h: Graph, p: real, q: real, rd: Rand, cur: nat, o: Proposal)
    requires 0.0 < p && 0.0 < q
  {
    h.Edge(cur, o.next) && o.prob == rd.DrawReal(o.at, UpperBound(p, q))
  }

  /** Every proposal of the log was offered and turned down. */
  ghost predicate AllRejected(h: Graph, p: real, q: real, rd: Rand, prev: nat, cur: nat, log: seq<Proposal>)
    requires 0.0 < p && 0.0 < q
  {
    forall i :: 0 <= i < |log| ==>
      Offered(h, p, q, rd, cur, log[i]) && Weight(h, p, q, prev, log[i].next) < log[i].prob
  }

  /**
   * The log of the rejection loop for a walker that came to cur from prev: everything but the last
   * proposal was rejected, and the last one was accepted.
   */
  ghost predicate FirstAccepted(h: Graph, p: real, q: real, rd: Rand, prev: nat, cur: nat, log: seq<Proposal>)
    requires 0.0 < p && 0.0 < q
  {
    && 0 < |log|
    && AllRejected(h, p, q, rd, prev, cur, log[..|log| - 1])
    && Offered(h, p, q, rd, cur, log[|log| - 1])
    && log[|log| - 1].prob <= Weight(h, p, q, prev, log[|log| - 1].next)
  }

  /** Where the i-th proposal's draws begin: after the real draw before it. */
  ghost function DrawsFrom(log: seq<Proposal>, from: nat, i: nat): nat
    requires i <= |log|
  {
    if i == 0 then from else log[i - 1].at + 1
  }

  /**
   * The proposals and the real draws they met take turns, from `from` up to `to` without a gap: each proposal
   * is the sampler's answer with the draws before its real one.
   */
  ghost predicate TakesTurns(h: Graph, rd: Rand, cur: nat, direct: bool, from: nat, to: nat, log: seq<Proposal>) {
    to == DrawsFrom(log, from, |log|) && forall i :: 0 <= i < |log| ==> TurnAt(h, rd, cur, direct, from, log, i)
  }

  ghost predicate TurnAt(h: Graph, rd: Rand, cur: nat, direct: bool, from: nat, log: seq<Proposal>, i: nat)
    requires i < |log|
  {
    Answered(h, rd, cur, direct, DrawsFrom(log, from, i), log[i].at, log[i].next)
  }

  /** One proposal: a neighbour, and a real draw. */
  method ProposeOne(s: AnySampler, h: Graph, lo: nat, hi: nat, bf: BloomFilter, p: real, q: real, cur: nat, rd: Rand)
    returns (next: nat, prob: real, ghost at: nat)
    requires s.Serves(h, lo, hi) && lo <= cur < hi && Ready(h, bf) && 0.0 < p && 0.0 < q
    requires bf !in s.Parts() && bf.table !in s.Parts()
    modifies rd, s.Parts()
    ensures s.Serves(h, lo, hi) && Ready(h, bf)
    ensures Offered(h, p, q, rd, cur, Proposal(next, at, prob)) && next < |h.adj|
    ensures old(rd.pos) <= at && rd.pos == at + 1 && rd.realAt == old(rd.realAt) + {at}
    ensures Answered(h, rd, cur, !s.Buffered?, old(rd.pos), at, next)
  {
    hide AnySampler.Serves, Ready, UpperBound, BloomFilter.Valid;
    next := Sample(s, h, lo, hi, cur, rd);
    at := rd.pos;
    prob := rd.GenFloat(UpperBound(p, q));
    NeighborInRange(h, bf, cur, next);
  }

  /** One proposal and its verdict, added to the log of those that were turned down. */
  method TryOnce(s: AnySampler, h: Graph, lo: nat, hi: nat, bf: BloomFilter, p: real, q: real, prev: nat, cur: nat,
                 rd: Rand, ghost from: nat, ghost reals: set<nat>, ghost before: seq<Proposal>)
    returns (next: nat, accepted: bool, ghost log: seq<Proposal>)
    requires s.Serves(h, lo, hi) && lo <= cur < hi
    requires Ready(h, bf) && prev < |h.adj| && 0.0 < p && 0.0 < q
    requires bf !in s.Parts() && bf.table !in s.Parts()
    requires Logged(h, rd, cur, before, from, rd.pos, reals, rd.realAt, !s.Buffered?)
    requires AllRejected(h, p, q, rd, prev, cur, before)
    modifies rd, s.Parts()
    ensures s.Serves(h, lo, hi) && Ready(h, bf) && |log| == |before| + 1
    ensures Logged(h, rd, cur, log, from, rd.pos, reals, rd.realAt, !s.Buffered?)
    ensures if accepted then FirstAccepted(h, p, q, rd, prev, cur, log) && next == log[|log| - 1].next
            else AllRejected(h, p, q, rd, prev, cur, log)
  {
    ghost var to, was := rd.pos, rd.realAt;
    hide *;
    ghost var at;
    var prob;
    next, prob, at := ProposeOne(s, h, lo, hi, bf, p, q, cur, rd);
    ghost var o := Proposal(next, at, prob);
    OneLogged(h, rd, cur, before, o, from, to, reals, was, rd.realAt, !s.Buffered?);
    OneJudged(h, p, q, rd, prev, cur, before, o);
    log := before + [o];
    accepted := Accept(h, bf, p, q, prev, next, prob);
  }

  /**
   * The rejection loop for one walker. The real loop has no bound; here it ends after `fuel` proposals.
   * The log holds every real draw the loop made.
   */
  method Propose(s: AnySampler, h: Graph, lo: nat, hi: nat, bf: BloomFilter, p: real, q: real,
                 prev: nat, cur: nat, rd: Rand, fuel: nat)
    returns (next: nat, accepted: bool, ghost log: seq<Proposal>)
    requires s.Serves(h, lo, hi) && lo <= cur < hi
    requires Ready(h, bf) && prev < |h.adj| && 0.0 < p && 0.0 < q
    requires bf !in s.Parts() && bf.table !in s.Parts()
    modifies rd, s.Parts()
    ensures s.Serves(h, lo, hi) && Ready(h, bf)
    ensures Logged(h, rd, cur, log, old(rd.pos), rd.pos, old(rd.realAt), rd.realAt, !s.Buffered?)
    ensures accepted ==> FirstAccepted(h, p, q, rd, prev, cur, log) && next == log[|log| - 1].next
    ensures !accepted ==> |log| == fuel && AllRejected(h, p, q, rd, prev, cur, log)
  {
    next, accepted, log := 0, false, [];
    ghost var from, reals := rd.pos, rd.realAt;
    NothingLogged(h, p, q, rd, prev, cur, from, reals, !s.Buffered?);
    hide *;
    for i := 0 to fuel
      invariant s.Serves(h, lo, hi) && Ready(h, bf)
      invariant |log| == i && !accepted && AllRejected(h, p, q, rd, prev, cur, log)
      invariant Logged(h, rd, cur, log, from, rd.pos, reals, rd.realAt, !s.Buffered?)
    {
      next, accepted, log := TryOnce(s, h, lo, hi, bf, p, q, prev, cur, rd, from, reals, log);
      if accepted {
        return;
      }
    }
  }

  /**
   * The loop has made the draws [from, to): its proposals, each with a real draw, one after the other; and the
   * real draws of the log are all that were added to those made at `reals`.
   */
  ghost predicate Logged(h: Graph, rd: Rand, cur: nat, log: seq<Proposal>, from: nat, to: nat,
                         reals: set<nat>, reals': set<nat>, direct: bool)
  {
    Climbs(log, from, to) && reals' == reals + Ats(log) && TakesTurns(h, rd, cur, direct, from, to, log)
  }

  lemma LoggedParts(h: Graph, rd: Rand, cur: nat, log: seq<Proposal>, from: nat, to: nat,
                    reals: set<nat>, reals': set<nat>, direct: bool)
    requires Logged(h, rd, cur, log, from, to, reals, reals', direct)
    ensures Climbs(log, from, to) && reals' == reals + Ats(log) && TakesTurns(h, rd, cur, direct, from, to, log)
  {
  }

  lemma NothingLogged(h: Graph, p: real, q: real, rd: Rand, prev: nat, cur: nat, from: nat, reals: set<nat>,
                      direct: bool)
    requires 0.0 < p && 0.0 < q
    ensures Logged(h, rd, cur, [], from, from, reals, reals, direct) && AllRejected(h, p, q, rd, prev, cur, [])
  {
  }

  lemma OneLogged(h: Graph, rd: Rand, cur: nat, log: seq<Proposal>, o: Proposal, from: nat, to: nat,
                  reals: set<nat>, was: set<nat>, now: set<nat>, direct: bool)
    requires Logged(h, rd, cur, log, from, to, reals, was, direct) && to <= o.at && now == was + {o.at}
    requires Answered(h, rd, cur, direct, to, o.at, o.next)
    ensures Logged(h, rd, cur, log + [o], from, o.at + 1, reals, now, direct)
  {
    hide Climbs, TakesTurns, Answered, Ats;
    AtsGrow(log, o);
    ClimbsOn(log, o, from, to);
    OneTurn(h, rd, cur, direct, from, to, log, o);
  }

  lemma ClimbsOn(log: seq<Proposal>, o: Proposal, from: nat, to: nat)
    requires Climbs(log, from, to) && to <= o.at
    ensures Climbs(log + [o], from, o.at + 1)
  {
  }

  lemma OneTurn(h: Graph, rd: Rand, cur: nat, direct: bool, from: nat, to: nat, log: seq<Proposal>, o: Proposal)
    requires TakesTurns(h, rd, cur, direct, from, to, log) && Answered(h, rd, cur, direct, to, o.at, o.next)
    ensures TakesTurns(h, rd, cur, direct, from, o.at + 1, log + [o])
  {
    hide Answered;
    var log' := log + [o];
    assert forall i :: 0 <= i < |log| ==> log'[i] == log[i];
    forall i | 0 <= i < |log'|
      ensures TurnAt(h, rd, cur, direct, from, log', i)
    {
      if i < |log| {
        assert TurnAt(h, rd, cur, direct, from, log, i);
      }
    }
  }

  /** The last proposal is accepted or rejected. */
  lemma OneJudged(h: Graph, p: real, q: real, rd: Rand, prev: nat, cur: nat, log: seq<Proposal>, o: Proposal)
    requires 0.0 < p && 0.0 < q && AllRejected(h, p, q, rd, prev, cur, log) && Offered(h, p, q, rd, cur, o)
    ensures (log + [o])[|log + [o]| - 1] == o
    ensures if o.prob <= Weight(h, p, q, prev, o.next) then FirstAccepted(h, p, q, rd, prev, cur, log + [o])
            else AllRejected(h, p, q, rd, prev, cur, log + [o])
  {
    hide Weight, Offered;
    assert (log + [o])[..|log|] == log;
    assert forall i :: 0 <= i < |log| ==> (log + [o])[i] == log[i];
  }

  lemma NeighborInRange(h: Graph, bf: BloomFilter, cur: nat, next: nat)
    requires Ready(h, bf) && h.Edge(cur, next)
    ensures next < |h.adj|
  {
    hide BloomFilter.Valid;
    assert h.NeighborsOk(cur);
  }

  /**
   * The step was decided by the visit: with the stretch of this generator that the visit names, the
   * rejection loop for a walker that came to cur from prev turned everything down before next.
   */
  ghost predicate Decided(h: Graph, p: real, q: real, rd: Rand, v: Visit, prev: nat, cur: nat, next: nat)
    requires 0.0 < p && 0.0 < q
  {
    && FirstAccepted(h, p, q, rd, prev, cur, v.log) && v.log[|v.log| - 1].next == next
    && Climbs(v.log, v.from, v.to) && TakesTurns(h, rd, cur, v.direct, v.from, v.to, v.log)
  }

  /** The step was taken with the visit's draws. */
  ghost predicate TakenWith(h: Graph, mode: Mode, rd: Rand, v: Visit, prev: nat, cur: nat, next: nat)
    requires mode.Legal()
  {
    match mode
    case Static => v.log == [] && Answered(h, rd, cur, v.direct, v.from, v.to, next)
    case Node2vec(p, q) => next != cur && Decided(h, p, q, rd, v, prev, cur, next)
  }

  /**
   * A walker that came to cur from prev has stepped to next, with the draws booked under the tag, by a direct
   * sampler or by a buffered one.
   */
  ghost predicate StepBooked(h: Graph, mode: Mode, direct: bool, rands: seq<Rand>, led: Ledger, tag: Tag,
                             prev: nat, cur: nat, next: nat)
    requires mode.Legal()
  {
    && h.Edge(cur, next) && tag in led && led[tag].direct == direct
    && led[tag].r < |rands| && TakenWith(h, mode, rands[led[tag].r], led[tag], prev, cur, next)
  }

  lemma StepBookedKept(h: Graph, mode: Mode, direct: bool, rands: seq<Rand>, led: Ledger, led': Ledger, tag: Tag,
                       prev: nat, cur: nat, next: nat)
    requires mode.Legal() && StepBooked(h, mode, direct, rands, led, tag, prev, cur, next) && Kept(led, led')
    ensures StepBooked(h, mode, direct, rands, led', tag, prev, cur, next)
  {
  }

  /**
   * A booked node2vec step ended with a real draw of at most 1/p if it goes back to where the walker came from, of
   * at most 1 if it goes to a neighbour of that, and of at most 1/q otherwise. All draws before it were above what
   * their proposals ask for in the same way.
   */
  lemma DrawnAgainst(h: Graph, p: real, q: real, direct: bool, rands: seq<Rand>, led: Ledger, tag: Tag, prev: nat,
                     cur: nat, next: nat, i: nat)
    requires 0.0 < p && 0.0 < q && StepBooked(h, Node2vec(p, q), direct, rands, led, tag, prev, cur, next)
    requires i < |led[tag].log|
    ensures var o, last := led[tag].log[i], i == |led[tag].log| - 1;
            && o.prob == rands[led[tag].r].DrawReal(o.at, UpperBound(p, q))
            && h.Edge(cur, o.next) && (last ==> o.next == next)
            && (o.next == prev ==> (o.prob <= 1.0 / p <==> last))
            && (o.next != prev && h.Edge(prev, o.next) ==> (o.prob <= 1.0 <==> last))
            && (o.next != prev && !h.Edge(prev, o.next) ==> (o.prob <= 1.0 / q <==> last))
  {
    hide Climbs, TakesTurns;
    var log := led[tag].log;
    if i < |log| - 1 {
      assert log[..|log| - 1][i] == log[i];
    }
  }

  // ----- Stopping early -----

  /** The source's assertion, or more rejections than the model follows. */
  datatype Stop = NoStop | SelfStep | OutOfFuel

  /**
   * What stopped a walker at cur that had come from prev: its rejection loop accepted cur itself, or turned
   * down `fuel` proposals.
   */
  ghost predicate StoppedBy(h: Graph, mode: Mode, direct: bool, rands: seq<Rand>, fuel: nat, stop: Stop, v: Visit,
                            prev: nat, cur: nat)
    requires mode.Legal()
  {
    && mode.Node2vec? && v.r < |rands| && v.direct == direct && prev < |h.adj|
    && match stop
       case NoStop => false
       case SelfStep => Decided(h, mode.p, mode.q, rands[v.r], v, prev, cur, cur)
       case OutOfFuel =>
         && |v.log| == fuel && AllRejected(h, mode.p, mode.q, rands[v.r], prev, cur, v.log)
         && Climbs(v.log, v.from, v.to) && TakesTurns(h, rands[v.r], cur, v.direct, v.from, v.to, v.log)
  }

  /**
   * A walk that stops has some walker at a vertex of [lo, hi) to show for it, and draws made between the two
   * moments.
   */
  ghost predicate Explained(h: Graph, mode: Mode, direct: bool, rands: seq<Rand>, fuel: nat, stop: Stop,
                            c: seq<Meter>, c': seq<Meter>, lo: nat, hi: nat)
    requires mode.Legal()
  {
    stop != NoStop ==> exists v, prev, cur ::
      lo <= cur < hi && During(v, c, c') && StoppedBy(h, mode, direct, rands, fuel, stop, v, prev, cur)
  }

  /** A walk stops at the assertion only where there is a self-loop. */
  lemma SelfStepIsLoop(h: Graph, mode: Mode, direct: bool, rands: seq<Rand>, fuel: nat, v: Visit, prev: nat, cur: nat)
    requires mode.Legal() && StoppedBy(h, mode, direct, rands, fuel, SelfStep, v, prev, cur)
    ensures h.Edge(cur, cur)
  {
  }

  lemma ExplainedLater(h: Graph, mode: Mode, direct: bool, rands: seq<Rand>, fuel: nat, stop: Stop,
                       c: seq<Meter>, c1: seq<Meter>, c': seq<Meter>, lo: nat, hi: nat)
    requires mode.Legal() && Explained(h, mode, direct, rands, fuel, stop, c1, c', lo, hi) && Ticked(c, c1)
    requires Ticked(c1, c')
    ensures Explained(h, mode, direct, rands, fuel, stop, c, c', lo, hi)
  {
    hide StoppedBy;
    if stop != NoStop {
      var v, prev, cur :| lo <= cur < hi && During(v, c1, c')
        && StoppedBy(h, mode, direct, rands, fuel, stop, v, prev, cur);
      StillDuring(v, c, c1, c');
    }
  }

  // ----- A stretch of messages -----

  /** The messages [b, e) of an array, as they were, with the walkers' states and the tags of their steps. */
  datatype Stretch = Stretch(h: Graph, mode: Mode, direct: bool, rands: seq<Rand>, r: nat, tags: seq<Tag>,
                             states: seq<nat>, before: seq<nat>, b: nat, e: nat)
  {
    ghost predicate Legal() {
      mode.Legal() && b <= e <= |tags| && e <= |states| && e <= |before|
    }

    /** Message i has stepped. */
    ghost predicate Stepped(led: Ledger, after: seq<nat>, i: nat)
      requires Legal() && i < e && i < |after|
    {
      StepBooked(h, mode, direct, rands, led, tags[i], states[i], before[i], after[i])
    }
  }

  /** The tags of the messages of a stretch: all different, none booked yet. */
  ghost predicate Unbooked(led: Ledger, tags: seq<Tag>, b: nat, e: nat) {
    && e <= |tags|
    && (forall m :: b <= m < e ==> tags[m] !in led)
    && (forall m, n :: b <= m < n < e ==> tags[m] != tags[n])
  }

  ghost function TagsOf(tags: seq<Tag>, b: nat, e: nat): set<Tag>
    requires e <= |tags|
  {
    set m | b <= m < e :: tags[m]
  }

  /** The tags from b up to m have been booked. */
  lemma OneMoreTag(led: Ledger, led1: Ledger, led': Ledger, tags: seq<Tag>, b: nat, m: nat, e: nat)
    requires Unbooked(led, tags, b, e) && b <= m < e
    requires led1.Keys == led.Keys + TagsOf(tags, b, m) && led'.Keys == led1.Keys + {tags[m]}
    ensures led'.Keys == led.Keys + TagsOf(tags, b, m + 1)
  {
  }

  lemma NotYetBooked(led: Ledger, tags: seq<Tag>, b: nat, m: nat, e: nat)
    requires Unbooked(led, tags, b, e) && b <= m < e
    ensures tags[m] !in led && tags[m] !in TagsOf(tags, b, m)
  {
  }

  /** Nothing changed outside the stretch. */
  ghost predicate Untouched(before: seq<nat>, after: seq<nat>, b: nat, e: nat) {
    |before| == |after| && forall i :: 0 <= i < |before| && !(b <= i < e) ==> after[i] == before[i]
  }

  /** The messages before m have stepped, and nothing else changed. */
  ghost predicate SteppedTo(x: Stretch, led: Ledger, after: seq<nat>, m: nat)
    requires x.Legal() && m <= x.e
  {
    && Untouched(x.before, after, x.b, m)
    && forall i :: x.b <= i < m ==> x.Stepped(led, after, i)
  }

  /** One message more. */
  lemma OneMoreStepped(x: Stretch, led: Ledger, led': Ledger, after: seq<nat>, next: nat, m: nat)
    requires x.Legal() && x.b <= m < x.e && SteppedTo(x, led, after, m) && Kept(led, led')
    requires StepBooked(x.h, x.mode, x.direct, x.rands, led', x.tags[m], x.states[m], x.before[m], next)
    ensures SteppedTo(x, led', after[m := next], m + 1)
  {
    hide StepBooked, Kept;
    var after' := after[m := next];
    forall i | x.b <= i < m
      ensures x.Stepped(led', after', i)
    {
      assert x.Stepped(led, after, i);
      StepBookedKept(x.h, x.mode, x.direct, x.rands, led, led', x.tags[i], x.states[i], x.before[i], after[i]);
    }
  }

  /** What holds once the messages before m have stepped: they did, and their draws, and no others, are booked. */
  ghost predicate Midway(x: Stretch, led: Ledger, led': Ledger, c: seq<Meter>, c': seq<Meter>, after: seq<nat>, m: nat)
    requires x.Legal() && m <= x.e
  {
    && SteppedTo(x, led', after, m) && Advanced(led, led', c, c') && NewBy(led, led', x.r)
    && led'.Keys == led.Keys + TagsOf(x.tags, x.b, m)
  }

  lemma MidwayFrom(x: Stretch, led: Ledger, c: seq<Meter>)
    requires x.Legal()
    ensures Midway(x, led, led, c, c, x.before, x.b)
  {
    NothingBooked(led, c, c);
    assert led.Keys == led.Keys + TagsOf(x.tags, x.b, x.b);
  }

  lemma MidwayOn(x: Stretch, led: Ledger, led1: Ledger, led': Ledger, c: seq<Meter>, c1: seq<Meter>, c': seq<Meter>,
                 after: seq<nat>, next: nat, m: nat)
    requires x.Legal() && x.b <= m < x.e && Midway(x, led, led1, c, c1, after, m) && Unbooked(led, x.tags, x.b, x.e)
    requires Advanced(led1, led', c1, c') && led'.Keys == led1.Keys + {x.tags[m]} && NewBy(led1, led', x.r)
    requires StepBooked(x.h, x.mode, x.direct, x.rands, led', x.tags[m], x.states[m], x.before[m], next)
    ensures m < |after| && Midway(x, led, led', c, c', after[m := next], m + 1)
  {
    BookingKept(led1, led', c1, c');
    AdvancedOn(led, led1, led', c, c1, c');
    NewByOn(led, led1, led', x.r);
    hide Advanced, StepBooked, Kept, NewBy;
    OneMoreTag(led, led1, led', x.tags, x.b, m, x.e);
    OneMoreStepped(x, led1, led', after, next, m);
  }

  lemma MidwayParts(x: Stretch, led: Ledger, led1: Ledger, c: seq<Meter>, c1: seq<Meter>, after: seq<nat>, m: nat)
    requires x.Legal() && m <= x.e && Midway(x, led, led1, c, c1, after, m)
    ensures Ticked(c, c1) && Kept(led, led1) && |x.before| == |after|
    ensures SteppedTo(x, led1, after, m) && Advanced(led, led1, c, c1) && NewBy(led, led1, x.r)
    ensures led1.Keys == led.Keys + TagsOf(x.tags, x.b, m)
  {
    BookingKept(led, led1, c, c1);
  }

  /** The next message is still where it was, and its step not booked. */
  lemma MidwayRest(x: Stretch, led: Ledger, led1: Ledger, c: seq<Meter>, c1: seq<Meter>, after: seq<nat>, m: nat,
                   lo: nat, hi: nat)
    requires x.Legal() && x.b <= m < x.e && Midway(x, led, led1, c, c1, after, m) && Unbooked(led, x.tags, x.b, x.e)
    requires InRange(x.before, x.b, x.e, lo, hi)
    ensures m < |after| && lo <= after[m] < hi && after[m] == x.before[m] && x.tags[m] !in led1
  {
    hide Advanced;
    NotYetBooked(led, x.tags, x.b, m, x.e);
  }

  /** The whole stretch was walked between the two moments. */
  ghost predicate Walked(x: Stretch, led: Ledger, led': Ledger, c: seq<Meter>, c': seq<Meter>, after: seq<nat>)
    requires x.Legal()
  {
    Midway(x, led, led', c, c', after, x.e)
  }

  // ----- Static walks -----

  /** The answers for the messages before m that are at v. */
  ghost function AnswersAt(x: Stretch, after: seq<nat>, v: nat, m: nat): seq<nat>
    requires m <= |x.before| && m <= |after|
  {
    if m <= x.b then []
    else AnswersAt(x, after, v, m - 1) + (if x.before[m - 1] == v then [after[m - 1]] else [])
  }

  /** The neighbours of v that were drawn for them. */
  ghost function RefillsAt(x: Stretch, led: Ledger, v: nat, m: nat): seq<nat>
    requires m <= |x.before| && m <= |x.tags|
  {
    if m <= x.b then []
    else RefillsAt(x, led, v, m - 1) + (if x.before[m - 1] == v then RefillFor(x, led, x.tags[m - 1], v) else [])
  }

  ghost function RefillFor(x: Stretch, led: Ledger, tag: Tag, v: nat): seq<nat> {
    if tag in led && led[tag].r < |x.rands| && led[tag].from <= led[tag].to && v < |x.h.adj|
      && x.h.ListOk(x.h.adj[v]) then
      Draws(x.h, v, x.rands[led[tag].r], led[tag].from, led[tag].to - led[tag].from)
    else []
  }

  /**
   * A buffered sampler's books after the messages before m: for every vertex of the partition, what was drawn
   * for them is added, and what they got.
   */
  ghost predicate Accounted(x: Stretch, lo: nat, led: Ledger, after: seq<nat>, acc: Account, acc': Account, m: nat)
    requires m <= |x.before| && m <= |x.tags| && m <= |after|
  {
    && |acc.drawn| == |acc.served| == |acc'.drawn| == |acc'.served|
    && forall k :: 0 <= k < |acc.drawn| ==> AccountedAt(x, lo, led, after, acc, acc', m, k)
  }

  ghost predicate AccountedAt(x: Stretch, lo: nat, led: Ledger, after: seq<nat>, acc: Account, acc': Account, m: nat,
                              k: nat)
    requires m <= |x.before| && m <= |x.tags| && m <= |after|
    requires k < |acc.drawn| == |acc.served| == |acc'.drawn| == |acc'.served|
  {
    && acc'.served[k] == acc.served[k] + AnswersAt(x, after, lo + k, m)
    && acc'.drawn[k] == acc.drawn[k] + RefillsAt(x, led, lo + k, m)
  }

  lemma AccountedFrom(x: Stretch, lo: nat, led: Ledger, acc: Account)
    requires x.Legal() && |acc.drawn| == |acc.served|
    ensures Accounted(x, lo, led, x.before, acc, acc, x.b)
  {
  }

  lemma {:induction false} AnswersSame(x: Stretch, after: seq<nat>, after': seq<nat>, v: nat, m: nat)
    requires m <= |x.before| && m <= |after| && m <= |after'| && forall i :: x.b <= i < m ==> after'[i] == after[i]
    ensures AnswersAt(x, after', v, m) == AnswersAt(x, after, v, m)
  {
    if x.b < m {
      AnswersSame(x, after, after', v, m - 1);
    }
  }

  lemma {:induction false} RefillsSame(x: Stretch, led: Ledger, led': Ledger, v: nat, m: nat)
    requires m <= |x.before| && m <= |x.tags| && Kept(led, led') && forall i :: x.b <= i < m ==> x.tags[i] in led
    ensures RefillsAt(x, led', v, m) == RefillsAt(x, led, v, m)
  {
    if x.b < m {
      RefillsSame(x, led, led', v, m - 1);
    }
  }

  lemma SteppedTagged(x: Stretch, led: Ledger, after: seq<nat>, m: nat, i: nat)
    requires x.Legal() && m <= x.e && SteppedTo(x, led, after, m) && x.b <= i < m
    ensures x.tags[i] in led
  {
    assert x.Stepped(led, after, i);
  }

  /** What message m adds to the books. */
  ghost predicate EnteredFor(x: Stretch, lo: nat, led: Ledger, next: nat, acc: Account, acc': Account, m: nat)
    requires m < |x.tags| && m < |x.before|
  {
    var tag := x.tags[m];
    && tag in led && led[tag].r < |x.rands|
    && Entered(x.h, x.rands[led[tag].r], lo, x.before[m], led[tag].from, led[tag].to, next, acc, acc')
  }

  lemma EntersOne(x: Stretch, lo: nat, led: Ledger, next: nat, acc: Account, acc': Account, m: nat, k: nat)
    requires m < |x.tags| && m < |x.before| && EnteredFor(x, lo, led, next, acc, acc', m) && k < |acc.drawn|
    ensures |acc'.drawn| == |acc.drawn| == |acc.served| == |acc'.served|
    ensures acc'.served[k] == acc.served[k] + (if x.before[m] == lo + k then [next] else [])
    ensures acc'.drawn[k] == acc.drawn[k] + (if x.before[m] == lo + k then RefillFor(x, led, x.tags[m], lo + k) else [])
  {
    hide Graph.ListOk;
  }

  lemma AccountedAtOn(x: Stretch, lo: nat, led1: Ledger, led': Ledger, after: seq<nat>, after': seq<nat>, acc: Account,
                      acc1: Account, acc': Account, m: nat, k: nat)
    requires x.Legal() && x.b <= m < x.e && m < |after| == |after'| && after' == after[m := after'[m]]
    requires Kept(led1, led') && forall i :: x.b <= i < m ==> x.tags[i] in led1
    requires k < |acc.drawn| == |acc.served| == |acc1.drawn| == |acc1.served|
    requires AccountedAt(x, lo, led1, after, acc, acc1, m, k) && EnteredFor(x, lo, led', after'[m], acc1, acc', m)
    ensures |acc'.drawn| == |acc'.served| == |acc.drawn|
    ensures AccountedAt(x, lo, led', after', acc, acc', m + 1, k)
  {
    hide Kept, EnteredFor, RefillFor;
    EntersOne(x, lo, led', after'[m], acc1, acc', m, k);
    AnswersSame(x, after, after', lo + k, m);
    RefillsSame(x, led1, led', lo + k, m);
  }

  /** One message more, entered by a buffered sampler; the others keep no books. */
  lemma AccountedOn(x: Stretch, lo: nat, led1: Ledger, led': Ledger, after: seq<nat>, after': seq<nat>, acc: Account,
                    acc1: Account, acc': Account, m: nat)
    requires x.Legal() && x.b <= m < x.e && m < |after| == |after'| && after' == after[m := after'[m]]
    requires SteppedTo(x, led1, after, m) && Kept(led1, led') && Accounted(x, lo, led1, after, acc, acc1, m)
    requires if acc1.drawn == [] then acc' == acc1 else EnteredFor(x, lo, led', after'[m], acc1, acc', m)
    ensures Accounted(x, lo, led', after', acc, acc', m + 1)
  {
    var n := m + 1;
    if acc1.drawn != [] {
      EntersOne(x, lo, led', after'[m], acc1, acc', m, 0);
      forall i | x.b <= i < m
        ensures x.tags[i] in led1
      {
        SteppedTagged(x, led1, after, m, i);
      }
      hide SteppedTo, Kept, EnteredFor, AccountedAt;
      forall k | 0 <= k < |acc.drawn|
        ensures AccountedAt(x, lo, led', after', acc, acc', n, k)
      {
        assert AccountedAt(x, lo, led1, after, acc, acc1, m, k);
        AccountedAtOn(x, lo, led1, led', after, after', acc, acc1, acc', m, k);
      }
    }
  }

  /** One walker's static step, and its draws booked. */
  method StaticStep(s: AnySampler, h: Graph, lo: nat, hi: nat, cur: nat, rd: Rand,
                    ghost rands: seq<Rand>, ghost r: nat, ghost c: seq<Meter>, ghost led: Ledger, ghost tag: Tag,
                    ghost prev: nat)
    returns (next: nat, ghost led': Ledger)
    requires s.Serves(h, lo, hi) && lo <= cur < hi
    requires r < |rands| == |c| && rands[r] == rd && c[r] == MeterOf(rd) && tag !in led
    modifies rd, s.Parts()
    ensures s.Serves(h, lo, hi)
    ensures Advanced(led, led', c, c[r := MeterOf(rd)]) && led'.Keys == led.Keys + {tag}
    ensures StepBooked(h, Static, !s.Buffered?, rands, led', tag, prev, cur, next)
    ensures led'[tag].r == r && NewBy(led, led', r)
    ensures s.Buffered? ==> Entered(h, rd, lo, cur, led'[tag].from, led'[tag].to, next, old(AccountOf(s)), AccountOf(s))
  {
    hide AnySampler.Serves, AnySampler.Parts, Entered;
    ghost var from := rd.pos;
    next := Sample(s, h, lo, hi, cur, rd);
    ghost var v := Visit(r, from, rd.pos, !s.Buffered?, []);
    assert c[r].reals == c[r].reals + Ats([]);
    OneBooked(led, c, tag, v, MeterOf(rd));
    led' := led[tag := v];
  }

  /** Where a static walk stands before message m: the others before it have stepped and are in the books. */
  ghost predicate Underway(x: Stretch, lo: nat, led: Ledger, led': Ledger, c: seq<Meter>, c': seq<Meter>,
                           after: seq<nat>, acc: Account, acc': Account, m: nat)
    requires x.Legal() && m <= x.e
  {
    Midway(x, led, led', c, c', after, m) && Accounted(x, lo, led', after, acc, acc', m)
  }

  lemma UnderwayOn(x: Stretch, lo: nat, led: Ledger, led1: Ledger, led': Ledger, c: seq<Meter>, c1: seq<Meter>,
                   c': seq<Meter>, after: seq<nat>, next: nat, acc: Account, acc1: Account, acc': Account, m: nat)
    requires x.Legal() && x.b <= m < x.e && Underway(x, lo, led, led1, c, c1, after, acc, acc1, m)
    requires Unbooked(led, x.tags, x.b, x.e) && Advanced(led1, led', c1, c') && led'.Keys == led1.Keys + {x.tags[m]}
    requires NewBy(led1, led', x.r)
    requires StepBooked(x.h, x.mode, x.direct, x.rands, led', x.tags[m], x.states[m], x.before[m], next)
    requires if acc1.drawn == [] then acc' == acc1 else EnteredFor(x, lo, led', next, acc1, acc', m)
    ensures m < |after| && Underway(x, lo, led, led', c, c', after[m := next], acc, acc', m + 1)
  {
    hide Advanced, StepBooked, EnteredFor, Accounted, Unbooked, NewBy;
    MidwayParts(x, led, led1, c, c1, after, m);
    BookingKept(led1, led', c1, c');
    MidwayOn(x, led, led1, led', c, c1, c', after, next, m);
    hide Midway;
    AccountedOn(x, lo, led1, led', after, after[m := next], acc, acc1, acc', m);
  }

  lemma UnderwayParts(x: Stretch, lo: nat, led: Ledger, led': Ledger, c: seq<Meter>, c': seq<Meter>,
                      after: seq<nat>, acc: Account, acc': Account, m: nat)
    requires x.Legal() && m <= x.e && Underway(x, lo, led, led', c, c', after, acc, acc', m)
    ensures Midway(x, led, led', c, c', after, m) && Accounted(x, lo, led', after, acc, acc', m)
  {
  }

  lemma UnderwayFrom(x: Stretch, lo: nat, led: Ledger, c: seq<Meter>, acc: Account)
    requires x.Legal() && |acc.drawn| == |acc.served|
    ensures Underway(x, lo, led, led, c, c, x.before, acc, acc, x.b)
  {
    MidwayFrom(x, led, c);
    AccountedFrom(x, lo, led, acc);
  }

  lemma BooksApart(s: AnySampler, h: Graph, lo: nat, hi: nat)
    requires s.Serves(h, lo, hi)
    ensures |AccountOf(s).drawn| == |AccountOf(s).served| && (!s.Buffered? ==> AccountOf(s) == Account([], []))
    ensures s.Buffered? && lo < hi ==> AccountOf(s).drawn != []
  {
  }

  /** Message m's turn in a static walk. */
  method StaticTurn(s: AnySampler, h: Graph, lo: nat, hi: nat, messages: array<nat>, m: nat, rd: Rand,
                    ghost x: Stretch, ghost r: nat, ghost c: seq<Meter>, ghost led: Ledger, ghost led1: Ledger,
                    ghost acc: Account)
    returns (ghost led': Ledger)
    requires x.Legal() && x.h == h && x.mode == Static && x.direct == !s.Buffered? && Unbooked(led, x.tags, x.b, x.e)
    requires s.Serves(h, lo, hi) && messages !in s.Parts() && x.b <= m < x.e && m < messages.Length
    requires InRange(x.before, x.b, x.e, lo, hi)
    requires r == x.r < |x.rands| == |c| && x.rands[r] == rd
    requires Underway(x, lo, led, led1, c, c[r := MeterOf(rd)], messages[..], acc, AccountOf(s), m)
    modifies messages, rd, s.Parts()
    ensures s.Serves(h, lo, hi)
    ensures Underway(x, lo, led, led', c, c[r := MeterOf(rd)], messages[..], acc, AccountOf(s), m + 1)
  {
    assert rd !in s.Parts() by { RandApart(s, rd); }
    ghost var c1, now, acc1 := c[r := MeterOf(rd)], messages[..], AccountOf(s);
    assert x.mode.Legal();
    BooksApart(s, h, lo, hi);
    UnderwayParts(x, lo, led, led1, c, c1, now, acc, acc1, m);
    hide *;
    MidwayRest(x, led, led1, c, c1, now, m, lo, hi);
    var next;
    next, led' := StaticStep(s, h, lo, hi, messages[m], rd, x.rands, r, c1, led1, x.tags[m], x.states[m]);
    ghost var c2 := c[r := MeterOf(rd)];
    assert c1[r := MeterOf(rd)] == c2;
    BooksApart(s, h, lo, hi);
    IsEnteredFor(x, lo, led', next, acc1, AccountOf(s), m, s.Buffered?);
    ghost var acc2 := AccountOf(s);
    messages[m] := next;
    assert messages[..] == now[m := next] && c[r := MeterOf(rd)] == c2 && AccountOf(s) == acc2;
    UnderwayOn(x, lo, led, led1, led', c, c1, c2, now, next, acc, acc1, acc2, m);
  }

  lemma IsEnteredFor(x: Stretch, lo: nat, led: Ledger, next: nat, acc: Account, acc': Account, m: nat, buffered: bool)
    requires m < |x.tags| && m < |x.before| && x.tags[m] in led && led[x.tags[m]].r < |x.rands|
    requires buffered ==>
      var v := led[x.tags[m]];
      Entered(x.h, x.rands[v.r], lo, x.before[m], v.from, v.to, next, acc, acc')
    requires !buffered ==> acc == acc' == Account([], [])
    requires buffered ==> acc.drawn != []
    ensures if acc.drawn == [] then acc' == acc else EnteredFor(x, lo, led, next, acc, acc', m)
  {
  }

  /**
   * walk_message: every walker of the stretch moves to a neighbour, in place: the one its sampler answers with,
   * on draws of its own. With a direct sampler that is one draw, and it picks the neighbour. A buffered sampler's
   * books grow, vertex by vertex, by the neighbours that were drawn in the walkers' turns and by those the walkers
   * got, in their order; and what it hands out is, in order, what it has drawn.
   */
  method WalkMessages(s: AnySampler, h: Graph, lo: nat, hi: nat, messages: array<nat>, b: nat, e: nat, rd: Rand,
                      ghost x: Stretch, ghost r: nat, ghost c: seq<Meter>, ghost led: Ledger)
    returns (ghost led': Ledger)
    requires x.Legal() && x.h == h && x.mode == Static && x.direct == !s.Buffered? && Unbooked(led, x.tags, b, e)
    requires x.before == messages[..] && x.b == b && x.e == e
    requires s.Serves(h, lo, hi) && messages !in s.Parts() && InRange(messages[..], b, e, lo, hi)
    requires r == x.r < |x.rands| == |c| && x.rands[r] == rd && c[r] == MeterOf(rd)
    modifies messages, rd, s.Parts()
    ensures s.Serves(h, lo, hi)
    ensures Walked(x, led, led', c, c[r := MeterOf(rd)], messages[..])
    ensures Accounted(x, lo, led', messages[..], old(AccountOf(s)), AccountOf(s), e)
  {
    led' := led;
    ghost var acc := AccountOf(s);
    assert c[r := MeterOf(rd)] == c;
    BooksApart(s, h, lo, hi);
    UnderwayFrom(x, lo, led, c, acc);
    hide *;
    for m := b to e
      invariant s.Serves(h, lo, hi)
      invariant Underway(x, lo, led, led', c, c[r := MeterOf(rd)], messages[..], acc, AccountOf(s), m)
    {
      led' := StaticTurn(s, h, lo, hi, messages, m, rd, x, r, c, led, led', acc);
    }
    UnderwayParts(x, lo, led, led', c, c[r := MeterOf(rd)], messages[..], acc, AccountOf(s), e);
    IsWalked(x, led, led', c, c[r := MeterOf(rd)], messages[..]);
  }

  lemma IsWalked(x: Stretch, led: Ledger, led': Ledger, c: seq<Meter>, c': seq<Meter>, after: seq<nat>)
    requires x.Legal() && Midway(x, led, led', c, c', after, x.e)
    ensures Walked(x, led, led', c, c', after)
  {
  }

  // ----- Node2vec walks -----

  /** One walker's step: the rejection loop, and its draws booked. */
  method NodeStep(s: AnySampler, h: Graph, lo: nat, hi: nat, bf: BloomFilter, p: real, q: real,
                  prev: nat, cur: nat, rd: Rand, fuel: nat,
                  ghost rands: seq<Rand>, ghost r: nat, ghost c: seq<Meter>, ghost led: Ledger, ghost tag: Tag)
    returns (next: nat, stop: Stop, ghost led': Ledger, ghost v: Visit)
    requires s.Serves(h, lo, hi) && lo <= cur < hi
    requires Ready(h, bf) && prev < |h.adj| && 0.0 < p && 0.0 < q
    requires bf !in s.Parts() && bf.table !in s.Parts()
    requires r < |rands| == |c| && rands[r] == rd && c[r] == MeterOf(rd) && tag !in led
    modifies rd, s.Parts()
    ensures s.Serves(h, lo, hi) && Ready(h, bf)
    ensures Ticked(c, c[r := MeterOf(rd)])
    ensures stop == NoStop ==> Advanced(led, led', c, c[r := MeterOf(rd)]) && led'.Keys == led.Keys + {tag}
    ensures stop == NoStop ==> NewBy(led, led', r)
    ensures stop == NoStop ==> StepBooked(h, Node2vec(p, q), !s.Buffered?, rands, led', tag, prev, cur, next)
    ensures During(v, c, c[r := MeterOf(rd)])
    ensures stop != NoStop ==> StoppedBy(h, Node2vec(p, q), !s.Buffered?, rands, fuel, stop, v, prev, cur)
  {
    hide AnySampler.Serves, AnySampler.Parts, Ready, BloomFilter.Valid, AllRejected, TakesTurns, Climbs, Ats, Logged;
    led' := led;
    ghost var log;
    var accepted;
    ghost var from := rd.pos;
    next, accepted, log := Propose(s, h, lo, hi, bf, p, q, prev, cur, rd, fuel);
    LoggedParts(h, rd, cur, log, from, rd.pos, c[r].reals, rd.realAt, !s.Buffered?);
    ClimbsUp(log, from, rd.pos);
    v := Visit(r, from, rd.pos, !s.Buffered?, log);
    stop := if !accepted then OutOfFuel else if next == cur then SelfStep else NoStop;
    if stop == NoStop {
      OneBooked(led, c, tag, v, MeterOf(rd));
      led' := led[tag := v];
    } else {
      assert StoppedBy(h, Node2vec(p, q), !s.Buffered?, rands, fuel, stop, v, prev, cur);
    }
  }

  lemma ClimbsUp(log: seq<Proposal>, from: nat, to: nat)
    requires Climbs(log, from, to)
    ensures from <= to
  {
  }

  // ----- What a step can come to -----

  /** All draws pick the i-th neighbour of v, and all real draws are x. */
  ghost predicate Always(h: Graph, rd: Rand, v: nat, i: nat, x: real) {
    && v < |h.adj| && h.ListOk(h.adj[v]) && i < |h.Neighbors(v)|
    && forall at :: rd.ints(at) == i && rd.reals(at) == x
  }

  /** Then every proposal is that neighbour with that draw. */
  lemma AlwaysProposed(h: Graph, p: real, q: real, rd: Rand, v: nat, i: nat, x: real, from: nat, to: nat,
                       log: seq<Proposal>, k: nat)
    requires 0.0 < p && 0.0 < q && 0.0 <= x < UpperBound(p, q) && Always(h, rd, v, i, x)
    requires TakesTurns(h, rd, v, true, from, to, log) && k < |log|
    ensures log[k].next == h.Neighbors(v)[i] && (Offered(h, p, q, rd, v, log[k]) ==> log[k].prob == x)
  {
    hide UpperBound;
    assert TurnAt(h, rd, v, true, from, log, k);
  }

  /** With these draws the first proposal is accepted, and it is the i-th neighbour. */
  lemma AtOnce(h: Graph, p: real, q: real, rd: Rand, prev: nat, v: nat, from: nat, to: nat, log: seq<Proposal>, i: nat)
    requires 0.0 < p && 0.0 < q && TakesTurns(h, rd, v, true, from, to, log) && 0 < |log| && Always(h, rd, v, i, 0.0)
    ensures !AllRejected(h, p, q, rd, prev, v, log)
    ensures FirstAccepted(h, p, q, rd, prev, v, log) ==> log[|log| - 1].next == h.Neighbors(v)[i]
  {
    assert 0.0 < UpperBound(p, q);
    AlwaysProposed(h, p, q, rd, v, i, 0.0, from, to, log, 0);
    AlwaysProposed(h, p, q, rd, v, i, 0.0, from, to, log, |log| - 1);
    hide TakesTurns, UpperBound;
    WeightWithinBound(h, p, q, prev, log[0].next);
  }

  /** With these draws the loop turns down whatever it proposes. */
  lemma NotAtAll(h: Graph, p: real, q: real, rd: Rand, prev: nat, v: nat, from: nat, to: nat, log: seq<Proposal>,
                 i: nat, x: real)
    requires 0.0 < p && 0.0 < q && TakesTurns(h, rd, v, true, from, to, log) && Always(h, rd, v, i, x)
    requires Weight(h, p, q, prev, h.Neighbors(v)[i]) < x < UpperBound(p, q)
    ensures !FirstAccepted(h, p, q, rd, prev, v, log)
  {
    WeightWithinBound(h, p, q, prev, h.Neighbors(v)[i]);
    hide UpperBound;
    if 0 < |log| {
      AlwaysProposed(h, p, q, rd, v, i, x, from, to, log, |log| - 1);
    }
  }

  /** One step on such streams. */
  method StepAlways(h: Graph, bf: BloomFilter, p: real, q: real, prev: nat, v: nat, i: nat, x: real, fuel: nat)
    returns (rd: Rand, next: nat, stop: Stop, ghost visit: Visit)
    requires Ready(h, bf) && prev < |h.adj| && 0.0 < p && 0.0 < q
    requires v < |h.adj| && h.ListOk(h.adj[v]) && i < |h.Neighbors(v)|
    ensures fresh(rd) && Always(h, rd, v, i, x) && visit.r == 0 && visit.direct
    ensures stop == NoStop ==> next != v && Decided(h, p, q, rd, visit, prev, v, next)
    ensures stop != NoStop ==> StoppedBy(h, Node2vec(p, q), true, [rd], fuel, stop, visit, prev, v)
  {
    assert h.Valid();
    rd := new Rand(_ => i, _ => x);
    hide Ready, Decided, AllRejected, TakesTurns, Climbs, Weight, UpperBound, Advanced;
    var sampler := new DirectSampler(v, v + 1, h);
    ghost var tag, c := Tag(0, 0), [MeterOf(rd)];
    ghost var led;
    next, stop, led, visit :=
      NodeStep(Plain(sampler), h, v, v + 1, bf, p, q, prev, v, rd, fuel, [rd], 0, c, map[], tag);
    if stop == NoStop {
      visit := led[tag];
    }
  }

  /**
   * Every neighbour of v is where some streams take the walker, whatever its state; and if that is v itself, the
   * source's assertion fails for them.
   */
  method StepsAnywhere(h: Graph, bf: BloomFilter, p: real, q: real, prev: nat, v: nat, i: nat, fuel: nat)
    returns (rd: Rand, next: nat, stop: Stop)
    requires Ready(h, bf) && prev < |h.adj| && 0.0 < p && 0.0 < q && 0 < fuel
    requires v < |h.adj| && h.ListOk(h.adj[v]) && i < |h.Neighbors(v)|
    ensures fresh(rd)
    ensures if h.Neighbors(v)[i] == v then stop == SelfStep else stop == NoStop && next == h.Neighbors(v)[i]
  {
    ghost var visit;
    rd, next, stop, visit := StepAlways(h, bf, p, q, prev, v, i, 0.0, fuel);
    hide Ready, AllRejected, FirstAccepted, Climbs, Always, TakesTurns;
    if visit.log != [] {
      AtOnce(h, p, q, rd, prev, v, visit.from, visit.to, visit.log, i);
    } else {
      EmptyLog(h, p, q, rd, prev, v);
    }
  }

  lemma EmptyLog(h: Graph, p: real, q: real, rd: Rand, prev: nat, v: nat)
    requires 0.0 < p && 0.0 < q
    ensures !FirstAccepted(h, p, q, rd, prev, v, [])
  {
  }

  /** If some neighbour has less than the highest weight, there are streams for which the loop never ends. */
  method RunsDry(h: Graph, bf: BloomFilter, p: real, q: real, prev: nat, v: nat, i: nat, x: real, fuel: nat)
    returns (rd: Rand, stop: Stop)
    requires Ready(h, bf) && prev < |h.adj| && 0.0 < p && 0.0 < q
    requires v < |h.adj| && h.ListOk(h.adj[v]) && i < |h.Neighbors(v)|
    requires Weight(h, p, q, prev, h.Neighbors(v)[i]) < x < UpperBound(p, q)
    ensures fresh(rd) && stop == OutOfFuel
  {
    var next;
    ghost var visit;
    rd, next, stop, visit := StepAlways(h, bf, p, q, prev, v, i, x, fuel);
    hide Ready, AllRejected, FirstAccepted, Climbs, Always, TakesTurns, Weight, UpperBound;
    if stop != OutOfFuel {
      NotAtAll(h, p, q, rd, prev, v, visit.from, visit.to, visit.log, i, x);
    }
  }

  lemma OfferedBelow(h: Graph, p: real, q: real, rd: Rand, cur: nat, o: Proposal)
    requires 0.0 < p && 0.0 < q
    ensures Offered(h, p, q, rd, cur, o) ==> h.Edge(cur, o.next) && 0.0 <= o.prob < UpperBound(p, q)
  {
  }

  /** Otherwise the first proposal is accepted, whatever the streams. */
  lemma FirstTry(h: Graph, p: real, q: real, rd: Rand, prev: nat, cur: nat, log: seq<Proposal>)
    requires 0.0 < p && 0.0 < q && AllRejected(h, p, q, rd, prev, cur, log)
    requires forall next :: h.Edge(cur, next) ==> UpperBound(p, q) <= Weight(h, p, q, prev, next)
    ensures log == []
  {
    hide Weight, UpperBound, Offered;
    if log != [] {
      OfferedBelow(h, p, q, rd, cur, log[0]);
    }
  }

  /** The step of the walker at message m, which came to cur from prev, before it is written down. */
  method NodeMove(s: AnySampler, h: Graph, lo: nat, hi: nat, bf: BloomFilter, p: real, q: real, prev: nat, cur: nat,
                  rd: Rand, fuel: nat, ghost x: Stretch, ghost now: seq<nat>, ghost m: nat, ghost r: nat,
                  ghost c: seq<Meter>, ghost led: Ledger, ghost led1: Ledger)
    returns (next: nat, stop: Stop, ghost led': Ledger)
    requires x.Legal() && x.h == h && x.mode == Node2vec(p, q) && x.direct == !s.Buffered?
    requires Unbooked(led, x.tags, x.b, x.e) && x.b <= m < x.e
    requires s.Serves(h, lo, hi) && x.before[m] == cur && x.states[m] == prev && lo <= cur < hi
    requires Ready(h, bf) && prev < |h.adj| && bf !in s.Parts() && bf.table !in s.Parts()
    requires r == x.r < |x.rands| == |c| && x.rands[r] == rd && Midway(x, led, led1, c, c[r := MeterOf(rd)], now, m)
    modifies rd, s.Parts()
    ensures s.Serves(h, lo, hi) && Ready(h, bf) && Ticked(c, c[r := MeterOf(rd)])
    ensures stop == NoStop ==> m < |now| && Midway(x, led, led', c, c[r := MeterOf(rd)], now[m := next], m + 1)
    ensures Explained(h, x.mode, x.direct, x.rands, fuel, stop, c, c[r := MeterOf(rd)], lo, hi)
  {
    assert rd !in s.Parts() by { RandApart(s, rd); }
    ghost var c1 := c[r := MeterOf(rd)];
    assert 0.0 < p && 0.0 < q;
    NotYetBooked(led, x.tags, x.b, m, x.e);
    MidwayParts(x, led, led1, c, c1, now, m);
    hide *;
    ghost var v;
    next, stop, led', v := NodeStep(s, h, lo, hi, bf, p, q, prev, cur, rd, fuel, x.rands, r, c1, led1, x.tags[m]);
    ghost var c2 := c[r := MeterOf(rd)];
    assert c1[r := MeterOf(rd)] == c2;
    TickedOn(c, c1, c2);
    IsExplained(h, x.mode, x.direct, x.rands, fuel, stop, c, c1, c2, lo, hi, v, prev, cur);
    if stop == NoStop {
      MidwayOn(x, led, led1, led', c, c1, c2, now, next, m);
    }
  }

  /** Message m's turn in a node2vec walk. */
  method NodeTurn(s: AnySampler, h: Graph, lo: nat, hi: nat, bf: BloomFilter, p: real, q: real,
                  messages: array<nat>, states: array<nat>, m: nat, rd: Rand, fuel: nat,
                  ghost x: Stretch, ghost r: nat, ghost c: seq<Meter>, ghost led: Ledger, ghost led1: Ledger)
    returns (stop: Stop, ghost led': Ledger)
    requires x.Legal() && x.h == h && x.mode == Node2vec(p, q) && x.direct == !s.Buffered?
    requires Unbooked(led, x.tags, x.b, x.e)
    requires s.Serves(h, lo, hi) && messages !in s.Parts() && states !in s.Parts() && messages != states
    requires x.b <= m < x.e && m < messages.Length && InRange(x.before, x.b, x.e, lo, hi)
    requires x.states == states[..] && InRange(x.states, x.b, x.e, 0, |h.adj|)
    requires Ready(h, bf) && bf !in s.Parts() && bf.table !in s.Parts() && bf.table != messages as object
    requires r == x.r < |x.rands| == |c| && x.rands[r] == rd
    requires Midway(x, led, led1, c, c[r := MeterOf(rd)], messages[..], m)
    modifies messages, rd, s.Parts()
    ensures s.Serves(h, lo, hi) && Ready(h, bf) && states[..] == old(states[..])
    ensures Ticked(c, c[r := MeterOf(rd)])
    ensures stop == NoStop ==> Midway(x, led, led', c, c[r := MeterOf(rd)], messages[..], m + 1)
    ensures Explained(h, x.mode, x.direct, x.rands, fuel, stop, c, c[r := MeterOf(rd)], lo, hi)
  {
    assert rd !in s.Parts() by { RandApart(s, rd); }
    ghost var now := messages[..];
    assert x.states[m] == states[m] < |h.adj|;
    hide *;
    MidwayRest(x, led, led1, c, c[r := MeterOf(rd)], now, m, lo, hi);
    var next;
    next, stop, led' :=
      NodeMove(s, h, lo, hi, bf, p, q, states[m], messages[m], rd, fuel, x, now, m, r, c, led, led1);
    if stop == NoStop {
      messages[m] := next;
      assert messages[..] == now[m := next];
    }
  }

  lemma NotStopped(h: Graph, mode: Mode, direct: bool, rands: seq<Rand>, fuel: nat, c: seq<Meter>, c': seq<Meter>,
                   lo: nat, hi: nat)
    requires mode.Legal()
    ensures Explained(h, mode, direct, rands, fuel, NoStop, c, c', lo, hi)
  {
  }

  lemma IsExplained(h: Graph, mode: Mode, direct: bool, rands: seq<Rand>, fuel: nat, stop: Stop,
                    c: seq<Meter>, c1: seq<Meter>, c': seq<Meter>, lo: nat, hi: nat, v: Visit, prev: nat, cur: nat)
    requires mode.Legal() && lo <= cur < hi && Ticked(c, c1) && Ticked(c1, c')
    requires stop != NoStop ==> During(v, c1, c') && StoppedBy(h, mode, direct, rands, fuel, stop, v, prev, cur)
    ensures Explained(h, mode, direct, rands, fuel, stop, c, c', lo, hi)
  {
    hide StoppedBy;
    if stop != NoStop {
      StillDuring(v, c, c1, c');
    }
  }

  /**
   * node2vec_walk_message: every walker of the stretch takes one node2vec step from its own state. The
   * source asserts that a walker moves; the assertion can only fail where the graph has a self-loop.
   */
  method NodeWalkMessages(s: AnySampler, h: Graph, lo: nat, hi: nat, bf: BloomFilter, p: real, q: real,
                          messages: array<nat>, states: array<nat>, b: nat, e: nat, rd: Rand, fuel: nat,
                          ghost x: Stretch, ghost r: nat, ghost c: seq<Meter>, ghost led: Ledger)
    returns (stop: Stop, ghost led': Ledger)
    requires x.Legal() && x.h == h && x.mode == Node2vec(p, q) && x.direct == !s.Buffered?
    requires Unbooked(led, x.tags, b, e)
    requires x.before == messages[..] && x.states == states[..] && x.b == b && x.e == e
    requires s.Serves(h, lo, hi) && messages !in s.Parts() && states !in s.Parts() && messages != states
    requires InRange(messages[..], b, e, lo, hi) && InRange(states[..], b, e, 0, |h.adj|)
    requires Ready(h, bf) && bf !in s.Parts() && bf.table !in s.Parts() && bf.table != messages as object
    requires r == x.r < |x.rands| == |c| && x.rands[r] == rd && c[r] == MeterOf(rd)
    modifies messages, rd, s.Parts()
    ensures s.Serves(h, lo, hi) && Ready(h, bf) && states[..] == old(states[..])
    ensures Ticked(c, c[r := MeterOf(rd)])
    ensures stop == NoStop ==> Walked(x, led, led', c, c[r := MeterOf(rd)], messages[..])
    ensures Explained(h, x.mode, x.direct, x.rands, fuel, stop, c, c[r := MeterOf(rd)], lo, hi)
  {
    led' := led;
    assert c[r := MeterOf(rd)] == c;
    MidwayFrom(x, led, c);
    MidwayParts(x, led, led, c, c, x.before, b);
    hide *;
    NotStopped(h, x.mode, x.direct, x.rands, fuel, c, c, lo, hi);
    stop := NoStop;
    for m := b to e
      invariant s.Serves(h, lo, hi) && Ready(h, bf) && states[..] == x.states && stop == NoStop
      invariant Midway(x, led, led', c, c[r := MeterOf(rd)], messages[..], m) && Ticked(c, c[r := MeterOf(rd)])
      invariant Explained(h, x.mode, x.direct, x.rands, fuel, stop, c, c[r := MeterOf(rd)], lo, hi)
    {
      MidwayRest(x, led, led', c, c[r := MeterOf(rd)], messages[..], m, lo, hi);
      stop, led' := NodeTurn(s, h, lo, hi, bf, p, q, messages, states, m, rd, fuel, x, r, c, led, led');
      if stop != NoStop {
        return;
      }
    }
    IsWalked(x, led, led', c, c[r := MeterOf(rd)], messages[..]);
  }
}
