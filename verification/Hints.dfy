/**
 * From vertex count to partitions (src/core/partition.hpp): which candidates the DP is given, that the
 * coarsest ones always fit, and that the DP's per-partition sampler list lines up with the partitions
 * Graph::make lays out.
 */
module Hints {
  import opened Arith
  import opened Bits
  import opened Options
  import opened Partition
  import opened Knapsack

  /**
   * The mini-benchmark's verdict: the partition sizes it has results for, the cost of cutting a group's
   * vertex range into partitions of 2^bits, and the best sampler for one partition's vertex range.
   */
  datatype Benchmark = Benchmark(
    measured: set<nat>,
    cost: (nat, nat, nat) -> real,
    sampler: (nat, nat, nat) -> SamplerClass)

  ghost predicate CostsNonNegative(bench: Benchmark) {
    forall bits, b, e :: 0.0 <= bench.cost(bits, b, e)
  }

  /** A candidate is a valid hint whose sampler list follows the partitions make would lay out. */
  ghost predicate ValidCandidate(vNum: nat, groupBits: nat, bench: Benchmark, g: nat, cand: Candidate) {
    && ValidHint(vNum, groupBits, g, cand.hint)
    && cand.hint.partitionBits in bench.measured
    && cand.totalTime == bench.cost(cand.hint.partitionBits, cand.hint.vertexBegin, cand.hint.vertexEnd)
    && |cand.samplers| == cand.hint.partitionNum
    && forall k :: 0 <= k < |cand.samplers| ==> SamplerMatches(vNum, bench, cand.hint, k, cand.samplers[k])
  }

  ghost predicate SamplerMatches(vNum: nat, bench: Benchmark, h: GroupHint, k: nat, sc: SamplerClass) {
    && 0 <= PartEnd(vNum, h, k)
    && sc == bench.sampler(h.partitionBits, PartBegin(h, k), PartEnd(vNum, h, k))
  }

  ghost predicate ValidCandidates(vNum: nat, groupBits: nat, bench: Benchmark, c: Candidates) {
    && |c| == CeilShr(vNum, groupBits)
    && forall g, k :: 0 <= g < |c| && 0 <= k < |c[g]| ==> ValidCandidate(vNum, groupBits, bench, g, c[g][k])
  }

  /** Every candidate's size is one of those that are tried. */
  ghost predicate WithinBits(cands: seq<Candidate>, minBits: nat, maxBits: nat) {
    forall k :: 0 <= k < |cands| ==> minBits <= cands[k].hint.partitionBits <= maxBits
  }

  /** Some candidate of the list cuts its group into partitions of 2^bits vertices. */
  ghost predicate Offers(cands: seq<Candidate>, bits: nat) {
    exists k :: 0 <= k < |cands| && cands[k].hint.partitionBits == bits
  }

  /** A group's bounds as 32-bit shifts compute them are its place in the vertex range. */
  lemma GroupBounds(vNum: nat, groupBits: nat, g: nat)
    requires 0 < vNum <= TWO32 - Shl(1, 25) && groupBits <= 25
    requires g < CeilShr(vNum, groupBits)
    ensures Shl(g, groupBits) < vNum
    ensures Shl(g + 1, groupBits) < TWO32
    ensures Shl(g, groupBits) < Shl(g + 1, groupBits)
  {
    hide Shl, Shr;
    ShlWider(1, groupBits, 25);
    CeilShrBounds(vNum, groupBits);
    ShlMono(g, CeilShr(vNum, groupBits) - 1, groupBits);
    ShlAdd(g, 1, groupBits);
  }

  /** The DP cuts a group at the same places as make: its end clamp and make's agree. */
  lemma SameRange(vNum: nat, groupBits: nat, g: nat, h: GroupHint, k: nat)
    requires ValidHint(vNum, groupBits, g, h)
    requires k < h.partitionNum
    ensures PartBegin(h, k) < h.vertexEnd
    ensures Min(h.vertexEnd, PartBegin(h, k) + Shl(1, h.partitionBits)) == PartEnd(vNum, h, k)
  {
    hide Shl, Shr;
    PartitionInGroup(vNum, groupBits, g, h, k);
    ShlAdd(k, 1, h.partitionBits);
  }

  method ChooseSamplers(vNum: nat, ghost groupBits: nat, bench: Benchmark, ghost g: nat, h: GroupHint)
    returns (samplers: seq<SamplerClass>)
    requires ValidHint(vNum, groupBits, g, h)
    ensures |samplers| == h.partitionNum
    ensures forall k :: 0 <= k < |samplers| ==> SamplerMatches(vNum, bench, h, k, samplers[k])
  {
    hide Shl, Shr;
    samplers := [];
    for k := 0 to h.partitionNum
      invariant |samplers| == k
      invariant forall i :: 0 <= i < k ==> SamplerMatches(vNum, bench, h, i, samplers[i])
    {
      SameRange(vNum, groupBits, g, h, k);
      var b := h.vertexBegin + Shl(k, h.partitionBits);
      var e := Min(h.vertexEnd, b + Shl(1, h.partitionBits));
      samplers := samplers + [bench.sampler(h.partitionBits, b, e)];
    }
  }

  method GroupCandidates(vNum: nat, groupBits: nat, minBits: nat, maxBits: nat, bench: Benchmark, g: nat)
    returns (cands: seq<Candidate>)
    requires 0 < vNum <= TWO32 - Shl(1, 25) && groupBits <= 25
    requires minBits <= maxBits <= groupBits
    requires g < CeilShr(vNum, groupBits)
    ensures forall k :: 0 <= k < |cands| ==> ValidCandidate(vNum, groupBits, bench, g, cands[k])
    ensures forall bits :: minBits <= bits <= maxBits && bits in bench.measured ==> Offers(cands, bits)
    ensures WithinBits(cands, minBits, maxBits)
  {
    hide Shl, Shr;
    GroupBounds(vNum, groupBits, g);
    var vertexBegin := Shl(g, groupBits) % TWO32;
    var vertexEnd := Min(vNum, Shl(g + 1, groupBits) % TWO32);
    cands := [];
    for bits := minBits to maxBits + 1
      invariant forall k :: 0 <= k < |cands| ==> ValidCandidate(vNum, groupBits, bench, g, cands[k])
      invariant forall i :: minBits <= i < bits && i in bench.measured ==> Offers(cands, i)
      invariant WithinBits(cands, minBits, maxBits)
    {
      if bits in bench.measured {
        var h := GroupHint(vertexBegin, vertexEnd, bits, CeilShr(vertexEnd - vertexBegin, bits));
        var samplers := ChooseSamplers(vNum, groupBits, bench, g, h);
        ghost var before := cands;
        cands := cands + [Candidate(h, bench.cost(bits, vertexBegin, vertexEnd), samplers)];
        assert cands[|before|].hint.partitionBits == bits;
        forall i | minBits <= i < bits + 1 && i in bench.measured
          ensures Offers(cands, i)
        {
          if i < bits {
            var k :| 0 <= k < |before| && before[k].hint.partitionBits == i;
            assert cands[k] == before[k];
          }
        }
      }
    }
  }

  method BuildCandidates(vNum: nat, groupBits: nat, minBits: nat, maxBits: nat, bench: Benchmark)
    returns (c: Candidates)
    requires 0 < vNum <= TWO32 - Shl(1, 25) && groupBits <= 25
    requires minBits <= maxBits <= groupBits
    ensures ValidCandidates(vNum, groupBits, bench, c)
    ensures forall g, bits :: 0 <= g < |c| && minBits <= bits <= maxBits && bits in bench.measured ==>
      Offers(c[g], bits)
    ensures forall g :: 0 <= g < |c| ==> WithinBits(c[g], minBits, maxBits)
  {
    hide Shl, Shr;
    c := [];
    for g := 0 to CeilShr(vNum, groupBits)
      invariant |c| == g
      invariant forall i, k :: 0 <= i < g && 0 <= k < |c[i]| ==> ValidCandidate(vNum, groupBits, bench, i, c[i][k])
      invariant forall i, bits :: 0 <= i < g && minBits <= bits <= maxBits && bits in bench.measured ==>
        Offers(c[i], bits)
      invariant forall i :: 0 <= i < g ==> WithinBits(c[i], minBits, maxBits)
    {
      var cands := GroupCandidates(vNum, groupBits, minBits, maxBits, bench, g);
      c := c + [cands];
    }
  }

  // ----- The coarsest candidates fit -----

  /** A group cut as coarsely as allowed has at most two partitions. */
  lemma CoarseIsSmall(vNum: nat, groupBits: nat, g: nat, h: GroupHint)
    requires ValidHint(vNum, groupBits, g, h)
    requires groupBits <= 25
    requires h.partitionBits == Min(MAX_VERTEX_BITS, groupBits)
    ensures h.partitionNum <= 2
  {
    var bits := h.partitionBits;
    assert Shl(1, groupBits - bits) <= 2 by {
      assert Shl(1, 0) == 1 && Shl(1, 1) == 2;
    }
    hide Shr, Shl;
    ShlAdd(g, 1, groupBits);
    ShlShl(1, groupBits - bits, bits);
    CeilShrBounds(h.vertexEnd - h.vertexBegin, bits);
    if 2 < h.partitionNum {
      ShlMono(2, h.partitionNum - 1, bits);
      ShlMono(Shl(1, groupBits - bits), 2, bits);
    }
  }

  lemma {:induction false} CoarseWeight(vNum: nat, groupBits: nat, bench: Benchmark, c: Candidates,
                                        picks: seq<nat>, n: nat)
    requires ValidCandidates(vNum, groupBits, bench, c)
    requires groupBits <= 25
    requires Choice(c, picks, 0, n)
    requires forall g :: 0 <= g < n ==> c[g][picks[g]].hint.partitionBits == Min(MAX_VERTEX_BITS, groupBits)
    ensures Weight(c, picks, 0, n) <= 2 * n
    decreases n
  {
    hide Shl, Shr;
    if n != 0 {
      CoarseWeight(vNum, groupBits, bench, c, picks, n - 1);
      assert ValidCandidate(vNum, groupBits, bench, n - 1, c[n - 1][picks[n - 1]]);
      CoarseIsSmall(vNum, groupBits, n - 1, c[n - 1][picks[n - 1]].hint);
    }
  }

  lemma {:induction false} CoarsePicks(c: Candidates, bits: nat, n: nat) returns (picks: seq<nat>)
    requires n <= |c|
    requires forall g :: 0 <= g < n ==> Offers(c[g], bits)
    ensures Choice(c, picks, 0, n)
    ensures forall g :: 0 <= g < n ==> c[g][picks[g]].hint.partitionBits == bits
    decreases n
  {
    if n == 0 {
      picks := seq(|c|, _ => 0);
    } else {
      var before := CoarsePicks(c, bits, n - 1);
      assert Offers(c[n - 1], bits);
      var k :| 0 <= k < |c[n - 1]| && c[n - 1][k].hint.partitionBits == bits;
      picks := before[n - 1 := k];
    }
  }

  /** Whenever the benchmark measured the coarsest size, some choice fits. */
  lemma CoarsestFits(vNum: nat, groupBits: nat, bench: Benchmark, c: Candidates)
    requires 0 < vNum <= TWO32 - Shl(1, 25) && groupBits <= 25
    requires LeastGroupBits(vNum, groupBits)
    requires ValidCandidates(vNum, groupBits, bench, c)
    requires forall g :: 0 <= g < |c| ==> Offers(c[g], Min(MAX_VERTEX_BITS, groupBits))
    ensures Feasible(c, |c|, 2048)
  {
    hide Shl, Shr;
    ShlValues();
    GroupsCoverIff(vNum, groupBits);
    var picks := CoarsePicks(c, Min(MAX_VERTEX_BITS, groupBits), |c|);
    CoarseWeight(vNum, groupBits, bench, c, picks, |c|);
  }

  // ----- The chosen partitioning -----

  ghost predicate Picked(c: Candidates, picks: seq<nat>, n: nat, hints: seq<GroupHint>) {
    && Choice(c, picks, 0, |c|)
    && n <= |hints| && n <= |c|
    && forall g :: 0 <= g < n ==> hints[g] == c[g][picks[g]].hint
  }

  /** classes lists, group after group, the samplers of the picked candidates. */
  ghost predicate Listed(c: Candidates, picks: seq<nat>, g: nat, classes: seq<SamplerClass>)
    requires g < |c| && Choice(c, picks, 0, |c|)
  {
    var w := Weight(c, picks, 0, g);
    && w + |c[g][picks[g]].samplers| <= |classes|
    && forall p :: w <= p < w + |c[g][picks[g]].samplers| ==> classes[p] == c[g][picks[g]].samplers[p - w]
  }

  method Select(vNum: nat, groupBits: nat, bench: Benchmark, c: Candidates, picks: seq<nat>)
    returns (hints: seq<GroupHint>, classes: seq<SamplerClass>)
    requires ValidCandidates(vNum, groupBits, bench, c)
    requires Choice(c, picks, 0, |c|)
    ensures |hints| == |c| && Picked(c, picks, |c|, hints)
    ensures |classes| == Weight(c, picks, 0, |c|)
    ensures forall g :: 0 <= g < |c| ==> Listed(c, picks, g, classes)
  {
    hide Shl, Shr;
    hints, classes := [], [];
    for g := 0 to |c|
      invariant |hints| == g && Picked(c, picks, g, hints)
      invariant |classes| == Weight(c, picks, 0, g)
      invariant forall i :: 0 <= i < g ==> Listed(c, picks, i, classes)
    {
      assert ValidCandidate(vNum, groupBits, bench, g, c[g][picks[g]]);
      hints := hints + [c[g][picks[g]].hint];
      ghost var before := classes;
      classes := classes + c[g][picks[g]].samplers;
      forall i | 0 <= i < g
        ensures Listed(c, picks, i, classes)
      {
        assert Listed(c, picks, i, before);
      }
    }
  }

  /** The running partition count of the picks is the offset make gives the group. */
  lemma {:induction false} WeightIsOffset(vNum: nat, groupBits: nat, bench: Benchmark, c: Candidates,
                                          picks: seq<nat>, hints: seq<GroupHint>, g: nat)
    requires ValidCandidates(vNum, groupBits, bench, c)
    requires ValidHints(vNum, groupBits, hints) && BitsFit(groupBits, hints)
    requires |hints| == |c| && Picked(c, picks, |c|, hints)
    requires g < |c|
    ensures Weight(c, picks, 0, g) == Offset(groupBits, hints, g)
    decreases g
  {
    hide Shl, Shr;
    if g != 0 {
      WeightIsOffset(vNum, groupBits, bench, c, picks, hints, g - 1);
      FullGroup(vNum, groupBits, hints, g - 1);
    }
  }

  lemma PickedAreValid(vNum: nat, groupBits: nat, bench: Benchmark, c: Candidates, picks: seq<nat>,
                       hints: seq<GroupHint>)
    requires 0 < vNum <= TWO32 - Shl(1, 25) && groupBits <= 25
    requires ValidCandidates(vNum, groupBits, bench, c)
    requires |hints| == |c| && Picked(c, picks, |c|, hints)
    ensures ValidHints(vNum, groupBits, hints)
  {
    forall g | 0 <= g < |hints|
      ensures ValidHint(vNum, groupBits, g, hints[g])
    {
      assert ValidCandidate(vNum, groupBits, bench, g, c[g][picks[g]]);
    }
  }

  /** Entry p of the class list was chosen for exactly the vertex range of make's partition p. */
  ghost predicate ClassFits(groupBits: nat, bench: Benchmark, hints: seq<GroupHint>,
                            pBegin: seq<nat>, pEnd: seq<nat>, p: nat, sc: SamplerClass)
    requires BitsFit(groupBits, hints)
    requires p < |pBegin| == |pEnd|
  {
    exists g: nat :: InGroup(groupBits, hints, g, p)
             && sc == bench.sampler(hints[g].partitionBits, pBegin[p], pEnd[p])
  }

  lemma ClassesLineUp(vNum: nat, groupBits: nat, bench: Benchmark, c: Candidates, picks: seq<nat>,
                      hints: seq<GroupHint>, classes: seq<SamplerClass>, pBegin: seq<nat>, pEnd: seq<nat>)
    requires ValidCandidates(vNum, groupBits, bench, c)
    requires ValidHints(vNum, groupBits, hints)
    requires |hints| == |c| && Picked(c, picks, |c|, hints)
    requires |classes| == Weight(c, picks, 0, |c|)
    requires forall g :: 0 <= g < |c| ==> Listed(c, picks, g, classes)
    requires AllLaidOut(vNum, groupBits, hints, pBegin, pEnd)
    ensures |classes| == |pBegin|
    ensures forall p :: 0 <= p < |pBegin| ==>
      ClassFits(groupBits, bench, hints, pBegin, pEnd, p, classes[p])
  {
    hide Shl, Shr;
    var last := |hints| - 1;
    WeightIsOffset(vNum, groupBits, bench, c, picks, hints, last);
    forall p | 0 <= p < |pBegin|
      ensures ClassFits(groupBits, bench, hints, pBegin, pEnd, p, classes[p])
    {
      var g := GroupOfPartition(vNum, groupBits, hints, p, last);
      WeightIsOffset(vNum, groupBits, bench, c, picks, hints, g);
      assert Listed(c, picks, g, classes);
      assert LaidOut(vNum, groupBits, hints, g, pBegin, pEnd);
      var cand := c[g][picks[g]];
      assert ValidCandidate(vNum, groupBits, bench, g, cand);
      assert SamplerMatches(vNum, bench, cand.hint, p - Offset(groupBits, hints, g), classes[p]);
    }
  }

  // ----- What the plan is worth -----

  /** What the benchmark says it costs to walk the groups as they are cut. */
  ghost function PlanCost(bench: Benchmark, hints: seq<GroupHint>): real {
    if hints == [] then 0.0
    else
      var h := hints[|hints| - 1];
      PlanCost(bench, hints[..|hints| - 1]) + bench.cost(h.partitionBits, h.vertexBegin, h.vertexEnd)
  }

  /** The partitions of all groups. */
  ghost function PlanSize(hints: seq<GroupHint>): nat {
    if hints == [] then 0 else PlanSize(hints[..|hints| - 1]) + hints[|hints| - 1].partitionNum
  }

  /**
   * Every group is cut in a measured size from 2^4 to 2^24 vertices, if it has as many, into 2048 partitions
   * in all.
   */
  ghost predicate Allowed(vNum: nat, groupBits: nat, bench: Benchmark, hints: seq<GroupHint>) {
    && ValidHints(vNum, groupBits, hints) && PlanSize(hints) <= 2048
    && forall g :: 0 <= g < |hints| ==> SizeAllowed(groupBits, bench, hints[g])
  }

  ghost predicate SizeAllowed(groupBits: nat, bench: Benchmark, h: GroupHint) {
    h.partitionBits in bench.measured && Min(4, groupBits) <= h.partitionBits <= Min(24, groupBits)
  }

  /** No other plan that is allowed costs less. */
  ghost predicate Cheapest(vNum: nat, groupBits: nat, bench: Benchmark, hints: seq<GroupHint>) {
    && Allowed(vNum, groupBits, bench, hints)
    && forall other :: Allowed(vNum, groupBits, bench, other) ==> PlanCost(bench, hints) <= PlanCost(bench, other)
  }

  /** The candidates are those that plans are made of. */
  ghost predicate AllOffered(vNum: nat, groupBits: nat, bench: Benchmark, c: Candidates) {
    && ValidCandidates(vNum, groupBits, bench, c)
    && (forall g, bits :: 0 <= g < |c| && Min(4, groupBits) <= bits <= Min(24, groupBits) && bits in bench.measured ==>
          Offers(c[g], bits))
    && (forall g :: 0 <= g < |c| ==> WithinBits(c[g], Min(4, groupBits), Min(24, groupBits)))
  }

  /** Picks of candidates are worth as much as the plan they make. */
  lemma {:induction false} PicksAreWorth(vNum: nat, groupBits: nat, bench: Benchmark, c: Candidates, picks: seq<nat>,
                                         hints: seq<GroupHint>, n: nat)
    requires ValidCandidates(vNum, groupBits, bench, c) && Choice(c, picks, 0, n) && n <= |hints|
    requires forall g :: 0 <= g < n ==> hints[g] == c[g][picks[g]].hint
    ensures Weight(c, picks, 0, n) == PlanSize(hints[..n]) && Cost(c, picks, 0, n) == PlanCost(bench, hints[..n])
    decreases n
  {
    if n != 0 {
      PicksAreWorth(vNum, groupBits, bench, c, picks, hints, n - 1);
      assert hints[..n][..n - 1] == hints[..n - 1];
      assert ValidCandidate(vNum, groupBits, bench, n - 1, c[n - 1][picks[n - 1]]);
    }
  }

  /** Every plan that is allowed can be picked. */
  lemma {:induction false} PicksFor(vNum: nat, groupBits: nat, bench: Benchmark, c: Candidates, hints: seq<GroupHint>,
                                    n: nat) returns (picks: seq<nat>)
    requires AllOffered(vNum, groupBits, bench, c) && Allowed(vNum, groupBits, bench, hints) && n <= |hints| == |c|
    ensures Choice(c, picks, 0, n) && forall g :: 0 <= g < n ==> hints[g] == c[g][picks[g]].hint
    decreases n
  {
    hide Shl, CeilShr;
    if n == 0 {
      picks := seq(|c|, _ => 0);
    } else {
      var before := PicksFor(vNum, groupBits, bench, c, hints, n - 1);
      var h := hints[n - 1];
      assert SizeAllowed(groupBits, bench, h) && ValidHint(vNum, groupBits, n - 1, h);
      assert Offers(c[n - 1], h.partitionBits);
      var k :| 0 <= k < |c[n - 1]| && c[n - 1][k].hint.partitionBits == h.partitionBits;
      assert ValidCandidate(vNum, groupBits, bench, n - 1, c[n - 1][k]);
      picks := before[n - 1 := k];
    }
  }

  lemma PickedIsAllowed(vNum: nat, groupBits: nat, bench: Benchmark, c: Candidates, picks: seq<nat>,
                        hints: seq<GroupHint>)
    requires AllOffered(vNum, groupBits, bench, c) && ValidHints(vNum, groupBits, hints)
    requires |hints| == |c| && Picked(c, picks, |c|, hints) && Weight(c, picks, 0, |c|) <= 2048
    ensures Allowed(vNum, groupBits, bench, hints)
  {
    hide ValidHint;
    PicksAreWorth(vNum, groupBits, bench, c, picks, hints, |c|);
    assert hints[..|c|] == hints;
    forall g | 0 <= g < |hints|
      ensures SizeAllowed(groupBits, bench, hints[g])
    {
      assert ValidCandidate(vNum, groupBits, bench, g, c[g][picks[g]])
        && WithinBits(c[g], Min(4, groupBits), Min(24, groupBits));
    }
  }

  /** What the DP finds is the cheapest plan. */
  lemma OptimalIsCheapest(vNum: nat, groupBits: nat, bench: Benchmark, c: Candidates, picks: seq<nat>,
                          hints: seq<GroupHint>)
    requires AllOffered(vNum, groupBits, bench, c) && ValidHints(vNum, groupBits, hints)
    requires |hints| == |c| && Picked(c, picks, |c|, hints) && Optimal(c, |c|, 2048, picks)
    ensures Cheapest(vNum, groupBits, bench, hints)
  {
    PickedIsAllowed(vNum, groupBits, bench, c, picks, hints);
    hide Allowed, AllOffered, ValidHints;
    forall other | Allowed(vNum, groupBits, bench, other)
      ensures PlanCost(bench, hints) <= PlanCost(bench, other)
    {
      OptimalIsBelow(vNum, groupBits, bench, c, picks, hints, other);
    }
  }

  lemma OptimalIsBelow(vNum: nat, groupBits: nat, bench: Benchmark, c: Candidates, picks: seq<nat>,
                       hints: seq<GroupHint>, other: seq<GroupHint>)
    requires AllOffered(vNum, groupBits, bench, c) && |hints| == |c| && Picked(c, picks, |c|, hints)
    requires Optimal(c, |c|, 2048, picks) && Allowed(vNum, groupBits, bench, other)
    ensures PlanCost(bench, hints) <= PlanCost(bench, other)
  {
    OfferedShape(vNum, groupBits, bench, c);
    AllowedShape(vNum, groupBits, bench, other);
    assert hints[..|c|] == hints && other[..|c|] == other;
    hide AllOffered, Allowed, ValidCandidates;
    var others := PicksFor(vNum, groupBits, bench, c, other, |c|);
    PicksAreWorth(vNum, groupBits, bench, c, picks, hints, |c|);
    PicksAreWorth(vNum, groupBits, bench, c, others, other, |c|);
  }

  /** There are picks that fit exactly when some plan is allowed. */
  lemma FeasibleIff(vNum: nat, groupBits: nat, bench: Benchmark, c: Candidates)
    requires 0 < vNum <= TWO32 - Shl(1, 25) && groupBits <= 25 && AllOffered(vNum, groupBits, bench, c)
    ensures Feasible(c, |c|, 2048) <==> exists hints :: Allowed(vNum, groupBits, bench, hints)
  {
    hide Shl, ValidCandidates, Allowed, AllOffered;
    if picks :| Choice(c, picks, 0, |c|) && Weight(c, picks, 0, |c|) <= 2048 {
      assert ValidCandidates(vNum, groupBits, bench, c) by { OfferedShape(vNum, groupBits, bench, c); }
      var hints := seq(|c|, g requires 0 <= g < |c| => c[g][picks[g]].hint);
      PickedAreValid(vNum, groupBits, bench, c, picks, hints);
      PickedIsAllowed(vNum, groupBits, bench, c, picks, hints);
    }
    if hints :| Allowed(vNum, groupBits, bench, hints) {
      OfferedShape(vNum, groupBits, bench, c);
      AllowedShape(vNum, groupBits, bench, hints);
      var picks := PicksFor(vNum, groupBits, bench, c, hints, |c|);
      PicksAreWorth(vNum, groupBits, bench, c, picks, hints, |c|);
      assert hints[..|c|] == hints;
    }
  }

  lemma OfferedShape(vNum: nat, groupBits: nat, bench: Benchmark, c: Candidates)
    requires AllOffered(vNum, groupBits, bench, c)
    ensures ValidCandidates(vNum, groupBits, bench, c) && |c| == CeilShr(vNum, groupBits)
  {
  }

  lemma AllowedShape(vNum: nat, groupBits: nat, bench: Benchmark, hints: seq<GroupHint>)
    requires Allowed(vNum, groupBits, bench, hints)
    ensures |hints| == CeilShr(vNum, groupBits) && PlanSize(hints) <= 2048
  {
  }

  lemma {:induction false} OneGroupOther(bench: Benchmark, hints: seq<GroupHint>, g: nat, h: GroupHint)
    requires g < |hints|
    ensures PlanSize(hints[g := h]) == PlanSize(hints) - hints[g].partitionNum + h.partitionNum
    ensures PlanCost(bench, hints[g := h]) == PlanCost(bench, hints)
      - bench.cost(hints[g].partitionBits, hints[g].vertexBegin, hints[g].vertexEnd)
      + bench.cost(h.partitionBits, h.vertexBegin, h.vertexEnd)
  {
    var m := |hints| - 1;
    if g < m {
      OneGroupOther(bench, hints[..m], g, h);
      assert hints[g := h][..m] == hints[..m][g := h];
    } else {
      assert hints[g := h][..m] == hints[..m];
    }
  }

  /** In a cheapest plan no group by itself can be cut more cheaply, unless that took too many partitions. */
  lemma NoBetterGroup(vNum: nat, groupBits: nat, bench: Benchmark, hints: seq<GroupHint>, g: nat, h: GroupHint)
    requires Cheapest(vNum, groupBits, bench, hints) && g < |hints|
    requires ValidHint(vNum, groupBits, g, h) && SizeAllowed(groupBits, bench, h)
    requires PlanSize(hints) - hints[g].partitionNum + h.partitionNum <= 2048
    ensures bench.cost(hints[g].partitionBits, hints[g].vertexBegin, hints[g].vertexEnd)
      <= bench.cost(h.partitionBits, h.vertexBegin, h.vertexEnd)
  {
    hide ValidHint;
    OneGroupOther(bench, hints, g, h);
    assert Allowed(vNum, groupBits, bench, hints[g := h]);
  }

  /**
   * get_partition_hint followed by the layout of Graph::make. It succeeds exactly when some plan is allowed, in
   * particular when the benchmark measured the coarsest size, and then takes a cheapest one. The partitions tile
   * the vertices, number at most 2048, and line up with the class list.
   */
  method PlanPartitions(vNum: nat, bench: Benchmark) returns (groupBits: nat, parts: Option<Partitioning>)
    requires 0 < vNum <= TWO32 - Shl(1, 25)
    requires CostsNonNegative(bench)
    ensures groupBits <= 25 && LeastGroupBits(vNum, groupBits)
    ensures parts.Some? <==> exists hints :: Allowed(vNum, groupBits, bench, hints)
    ensures Min(24, groupBits) in bench.measured ==> parts.Some?
    ensures parts.Some? ==>
      parts.value.groupBits == groupBits && parts.value.Of(vNum) && Planned(vNum, bench, parts.value)
  {
    hide Shl, Shr;
    ShlValues();
    var groupNum;
    groupBits, groupNum := SizeGroups(vNum);
    GroupsCoverIff(vNum, groupBits);
    var minBits, maxBits := Min(MIN_PARTITION_BITS, groupBits), Min(MAX_VERTEX_BITS, groupBits);
    var c := BuildCandidates(vNum, groupBits, minBits, maxBits, bench);
    CandidateCosts(vNum, groupBits, bench, c);
    FeasibleIff(vNum, groupBits, bench, c);
    if maxBits in bench.measured {
      CoarsestFits(vNum, groupBits, bench, c);
    }
    var outcome := Dp(c, MAX_PARTITION_NUM);
    if !outcome.Chosen? {
      return groupBits, None;
    }
    var pt := TakePlan(vNum, groupBits, bench, c, outcome.picks);
    parts := Some(pt);
  }

  /** The hints and classes that were picked, and the layout that make gives them. */
  method TakePlan(vNum: nat, groupBits: nat, bench: Benchmark, c: Candidates, picks: seq<nat>)
    returns (pt: Partitioning)
    requires 0 < vNum <= TWO32 - Shl(1, 25) && groupBits <= 25
    requires AllOffered(vNum, groupBits, bench, c) && Optimal(c, |c|, 2048, picks)
    ensures pt.groupBits == groupBits && pt.Of(vNum) && Planned(vNum, bench, pt)
  {
    OfferedShape(vNum, groupBits, bench, c);
    assert Weight(c, picks, 0, |c|) <= 2048;
    hide Shl, Shr, ValidHints, AllOffered, Optimal, ValidCandidates, Cheapest, ClassFits, Headers;
    var hints, classes := Select(vNum, groupBits, bench, c, picks);
    PickedAreValid(vNum, groupBits, bench, c, picks, hints);
    HintsFit(vNum, groupBits, hints);
    OptimalIsCheapest(vNum, groupBits, bench, c, picks, hints);
    var headers := MakeHeaders(groupBits, hints);
    var pBegin, pEnd := MakePartitions(vNum, groupBits, hints);
    ClassesLineUp(vNum, groupBits, bench, c, picks, hints, classes, pBegin, pEnd);
    pt := Partitioning(groupBits, hints, headers, pBegin, pEnd, classes);
  }

  /** The groups are cut as in a cheapest plan, and every partition has the sampler that is best for it. */
  ghost predicate Planned(vNum: nat, bench: Benchmark, pt: Partitioning)
    requires pt.Of(vNum)
  {
    && Cheapest(vNum, pt.groupBits, bench, pt.hints) && |pt.pBegin| <= 2048
    && forall p :: 0 <= p < |pt.pBegin| ==>
         ClassFits(pt.groupBits, bench, pt.hints, pt.pBegin, pt.pEnd, p, pt.classes[p])
  }

  lemma CandidateCosts(vNum: nat, groupBits: nat, bench: Benchmark, c: Candidates)
    requires ValidCandidates(vNum, groupBits, bench, c)
    requires CostsNonNegative(bench)
    ensures NonNegative(c)
  {
    forall g, k | 0 <= g < |c| && 0 <= k < |c[g]|
      ensures 0.0 <= c[g][k].totalTime
    {
      assert ValidCandidate(vNum, groupBits, bench, g, c[g][k]);
    }
  }
}
