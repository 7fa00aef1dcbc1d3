/**
 * Groups and partitions of the vertex range: group sizing (src/core/partition.hpp), the partitions
 * that Graph::make lays out and the index arithmetic that finds a vertex's partition
 * (src/core/graph.hpp).
 */
module Partition {
  import opened Arith
  import opened Bits

  // include/constants.hpp, the branch compiled for production.
  const MAX_GROUP_NUM: nat := 128
  const MAX_PARTITION_NUM: nat := 2048
  const MIN_PARTITION_BITS: nat := 4
  const MAX_VERTEX_BITS: nat := 24

  datatype GroupHint = GroupHint(vertexBegin: nat, vertexEnd: nat, partitionBits: nat, partitionNum: nat)

  datatype SamplerClass = ExclusiveBuffer | Direct | UniformDegree | SimilarDegree

  datatype GroupHeader = GroupHeader(partitionBits: nat, partitionOffset: nat)

  // ----- Group sizing -----

  /** The number of groups as 32-bit arithmetic computes it; dividing by 1u << groupBits is a shift. */
  function GroupNum(vNum: nat, groupBits: nat): nat {
    Shr((vNum + Shl(1, groupBits) - 1) % TWO32, groupBits)
  }

  /** groupBits is the least shift that leaves at most 128. */
  ghost predicate LeastGroupBits(vNum: nat, groupBits: nat) {
    && Shr(vNum, groupBits) <= 128
    && (0 < groupBits ==> 128 < Shr(vNum, groupBits - 1))
  }

  method SizeGroups(vNum: nat) returns (groupBits: nat, groupNum: nat)
    requires vNum < TWO32
    ensures LeastGroupBits(vNum, groupBits)
    ensures groupBits <= 25
    ensures groupNum == GroupNum(vNum, groupBits)
  {
    groupBits := 0;
    while MAX_GROUP_NUM < Shr(vNum, groupBits)
      invariant groupBits <= 25
      invariant 0 < groupBits ==> MAX_GROUP_NUM < Shr(vNum, groupBits - 1)
      decreases 25 - groupBits
    {
      SmallAt25(vNum);
      groupBits := groupBits + 1;
    }
    groupNum := Shr((vNum + Shl(1, groupBits) - 1) % TWO32, groupBits);
  }

  lemma SmallAt25(vNum: nat)
    requires vNum < TWO32
    ensures Shr(vNum, 25) < MAX_GROUP_NUM
  {
    ShlValues();
    ShrBounds(vNum, 25);
    ShlIsMul(Shr(vNum, 25), 25);
  }

  /** Below 25 bits the vertex count itself is small. */
  lemma SmallGroups(vNum: nat, groupBits: nat)
    requires groupBits <= 24
    requires LeastGroupBits(vNum, groupBits)
    ensures vNum + Shl(1, 25) < TWO32
  {
    ShlValues();
    ShrBounds(vNum, groupBits);
    ShlWider(1, groupBits, 24);
    ShlIsMul(Shr(vNum, groupBits), groupBits);
    MulMono(Shr(vNum, groupBits), MAX_GROUP_NUM, Shl(1, groupBits));
  }

  /**
   * The groups cover every vertex, and there are at most 129 of them, exactly when the
   * vertex count leaves room below 2^32 for one more group of 2^25 vertices.
   */
  lemma GroupsCoverIff(vNum: nat, groupBits: nat)
    requires 0 < vNum < TWO32
    requires groupBits <= 25
    requires LeastGroupBits(vNum, groupBits)
    ensures GroupNum(vNum, groupBits) <= 129
    ensures vNum <= Shl(GroupNum(vNum, groupBits), groupBits) <==> vNum <= TWO32 - Shl(1, 25)
    ensures vNum <= TWO32 - Shl(1, 25) ==> GroupNum(vNum, groupBits) == CeilShr(vNum, groupBits)
  {
    hide Shl, Shr;
    ShlValues();
    if groupBits <= 24 {
      SmallGroups(vNum, groupBits);
      ShlWider(1, groupBits, 25);
    }
    if vNum + Shl(1, groupBits) - 1 < TWO32 {
      CeilShrBounds(vNum, groupBits);
      CeilAtMostOneMore(vNum, groupBits);
    } else {
      ShlZero(25);
      ShrUnique(vNum + Shl(1, 25) - 1 - TWO32, 25, 0);
    }
  }

  lemma CeilAtMostOneMore(v: nat, b: nat)
    ensures CeilShr(v, b) <= Shr(v, b) + 1
  {
    var s := Shl(1, b);
    ShrBounds(v, b);
    CeilShrBounds(v, b);
    var c, q := CeilShr(v, b), Shr(v, b);
    var more := q + 1;
    ShlAdd(q, 1, b);
    if more < c {
      ShlMono(more, c - 1, b);
    }
  }

  /** 2^32 - 1 vertices: the rounding sum wraps, and no group is left. */
  lemma GroupsMayVanish()
    ensures LeastGroupBits(TWO32 - 1, 25)
    ensures GroupNum(TWO32 - 1, 25) == 0
  {
    ShlValues();
    SmallAt25(TWO32 - 1);
    ShlZero(25);
    ShrUnique(Shl(1, 25) - 2, 25, 0);
    ShlIsMul(255, 24);
    ShrUnique(TWO32 - 1, 24, 255);
  }

  // ----- Layout -----

  /** One group's hint, as the DP builds it: a full group, or what is left for the last one. */
  ghost predicate ValidHint(vNum: nat, groupBits: nat, g: nat, h: GroupHint) {
    && h.vertexBegin == Shl(g, groupBits)
    && h.vertexEnd == Min(vNum, Shl(g + 1, groupBits))
    && h.vertexBegin < h.vertexEnd
    && h.partitionBits <= groupBits
    && h.partitionNum == CeilShr(h.vertexEnd - h.vertexBegin, h.partitionBits)
  }

  ghost predicate ValidHints(vNum: nat, groupBits: nat, hints: seq<GroupHint>) {
    && 0 < vNum <= TWO32 - Shl(1, 25)
    && groupBits <= 25
    && |hints| == CeilShr(vNum, groupBits)
    && forall g :: 0 <= g < |hints| ==> ValidHint(vNum, groupBits, g, hints[g])
  }

  ghost predicate BitsFit(groupBits: nat, hints: seq<GroupHint>) {
    forall i :: 0 <= i < |hints| ==> hints[i].partitionBits <= groupBits
  }

  lemma HintsFit(vNum: nat, groupBits: nat, hints: seq<GroupHint>)
    requires ValidHints(vNum, groupBits, hints)
    ensures BitsFit(groupBits, hints)
    ensures 0 < |hints|
  {
    CeilShrBounds(vNum, groupBits);
    forall i | 0 <= i < |hints|
      ensures hints[i].partitionBits <= groupBits
    {
      assert ValidHint(vNum, groupBits, i, hints[i]);
    }
  }

  /** The index of the first partition of group g. */
  ghost function Offset(groupBits: nat, hints: seq<GroupHint>, g: nat): nat
    requires g <= |hints|
    requires BitsFit(groupBits, hints)
  {
    if g == 0 then 0
    else Offset(groupBits, hints, g - 1) + Shl(1, groupBits - hints[g - 1].partitionBits)
  }

  ghost predicate Headers(groupBits: nat, hints: seq<GroupHint>, headers: seq<GroupHeader>) {
    && BitsFit(groupBits, hints)
    && |headers| == |hints|
    && forall g {:trigger headers[g]} :: 0 <= g < |hints| ==>
         headers[g] == GroupHeader(hints[g].partitionBits, Offset(groupBits, hints, g))
  }

  method MakeHeaders(groupBits: nat, hints: seq<GroupHint>) returns (headers: seq<GroupHeader>)
    requires BitsFit(groupBits, hints)
    ensures Headers(groupBits, hints, headers)
  {
    headers := [];
    for g := 0 to |hints|
      invariant |headers| == g
      invariant forall i {:trigger headers[i]} :: 0 <= i < g ==>
        headers[i] == GroupHeader(hints[i].partitionBits, Offset(groupBits, hints, i))
    {
      var offset := 0;
      if g != 0 {
        offset := headers[g - 1].partitionOffset + Shl(1, groupBits - hints[g - 1].partitionBits);
      }
      headers := headers + [GroupHeader(hints[g].partitionBits, offset)];
    }
  }

  /** Where partition k of a group starts, and where it ends. */
  function PartBegin(h: GroupHint, k: nat): nat {
    h.vertexBegin + Shl(k, h.partitionBits)
  }

  function PartEnd(vNum: nat, h: GroupHint, k: nat): int {
    Min(PartBegin(h, k) + Shl(1, h.partitionBits), vNum)
  }

  /** Entries o, o + 1, ..., o + n - 1 are the first n partitions of the group. */
  ghost predicate Block(vNum: nat, h: GroupHint, o: nat, n: nat, pBegin: seq<nat>, pEnd: seq<nat>)
  {
    && |pBegin| == |pEnd|
    && o + n <= |pBegin|
    && forall p :: o <= p < o + n ==> pBegin[p] == PartBegin(h, p - o) && pEnd[p] == PartEnd(vNum, h, p - o)
  }

  /** The partitions of group g sit at Offset(g), Offset(g) + 1, ... */
  ghost predicate LaidOut(vNum: nat, groupBits: nat, hints: seq<GroupHint>, g: nat,
                          pBegin: seq<nat>, pEnd: seq<nat>)
    requires g < |hints|
    requires BitsFit(groupBits, hints)
  {
    Block(vNum, hints[g], Offset(groupBits, hints, g), hints[g].partitionNum, pBegin, pEnd)
  }

  ghost predicate AllLaidOut(vNum: nat, groupBits: nat, hints: seq<GroupHint>, pBegin: seq<nat>, pEnd: seq<nat>)
  {
    && BitsFit(groupBits, hints)
    && 0 < |hints|
    && |pBegin| == |pEnd| == TotalPartitions(groupBits, hints)
    && forall g :: 0 <= g < |hints| ==> LaidOut(vNum, groupBits, hints, g, pBegin, pEnd)
  }

  ghost function TotalPartitions(groupBits: nat, hints: seq<GroupHint>): nat
    requires 0 < |hints|
    requires BitsFit(groupBits, hints)
  {
    Offset(groupBits, hints, |hints| - 1) + hints[|hints| - 1].partitionNum
  }

  /** What the partitioning decides: the groups, the partitions' ranges, and a sampler class for each partition. */
  datatype Partitioning = Partitioning(groupBits: nat, hints: seq<GroupHint>, headers: seq<GroupHeader>,
                                       pBegin: seq<nat>, pEnd: seq<nat>, classes: seq<SamplerClass>) {

    /** It is one of so many vertices. */
    ghost predicate Of(vNum: nat) {
      && ValidHints(vNum, groupBits, hints) && Headers(groupBits, hints, headers)
      && AllLaidOut(vNum, groupBits, hints, pBegin, pEnd) && |classes| == |pBegin|
    }
  }

  /** Every group but the last is full, so it holds 2^(groupBits - partitionBits) partitions. */
  lemma FullGroup(vNum: nat, groupBits: nat, hints: seq<GroupHint>, g: nat)
    requires ValidHints(vNum, groupBits, hints)
    requires g + 1 < |hints|
    ensures hints[g].partitionBits <= groupBits
    ensures hints[g].vertexEnd == hints[g].vertexBegin + Shl(1, groupBits) == hints[g + 1].vertexBegin
    ensures hints[g].partitionNum == Shl(1, groupBits - hints[g].partitionBits)
    ensures PartBegin(hints[g], hints[g].partitionNum) == hints[g].vertexEnd
  {
    hide Shl, Shr;
    assert ValidHint(vNum, groupBits, g, hints[g]);
    assert ValidHint(vNum, groupBits, g + 1, hints[g + 1]);
    var bits := hints[g].partitionBits;
    ShlAdd(g, 1, groupBits);
    ShlShl(1, groupBits - bits, bits);
    CeilShrUnique(Shl(1, groupBits), bits, Shl(1, groupBits - bits));
  }

  method MakePartitions(vNum: nat, groupBits: nat, hints: seq<GroupHint>)
    returns (pBegin: seq<nat>, pEnd: seq<nat>)
    requires ValidHints(vNum, groupBits, hints)
    ensures AllLaidOut(vNum, groupBits, hints, pBegin, pEnd)
  {
    hide Shl, Shr;
    HintsFit(vNum, groupBits, hints);
    pBegin, pEnd := [], [];
    for g := 0 to |hints|
      invariant |pBegin| == |pEnd|
      invariant |pBegin| == if g < |hints| then Offset(groupBits, hints, g) else TotalPartitions(groupBits, hints)
      invariant forall i :: 0 <= i < g ==> LaidOut(vNum, groupBits, hints, i, pBegin, pEnd)
    {
      ghost var o, pb, pe := |pBegin|, pBegin, pEnd;
      pBegin, pEnd := SplitGroup(vNum, groupBits, g, hints[g], pBegin, pEnd);
      if g + 1 < |hints| {
        FullGroup(vNum, groupBits, hints, g);
      }
      forall i | 0 <= i < g
        ensures LaidOut(vNum, groupBits, hints, i, pBegin, pEnd)
      {
        assert LaidOut(vNum, groupBits, hints, i, pb, pe);
      }
    }
  }

  /** The inner loop of the layout: one group's partitions are appended. */
  method SplitGroup(vNum: nat, ghost groupBits: nat, ghost g: nat, h: GroupHint, pb: seq<nat>, pe: seq<nat>)
    returns (pBegin: seq<nat>, pEnd: seq<nat>)
    requires vNum <= TWO32 - Shl(1, 25) && groupBits <= 25
    requires ValidHint(vNum, groupBits, g, h)
    requires |pb| == |pe|
    ensures pb <= pBegin && pe <= pEnd
    ensures |pBegin| == |pb| + h.partitionNum
    ensures Block(vNum, h, |pb|, h.partitionNum, pBegin, pEnd)
  {
    hide Shl, Shr;
    ShlWider(1, h.partitionBits, 25);
    ShlZero(h.partitionBits);
    pBegin, pEnd := pb, pe;
    var v := h.vertexBegin;
    ghost var k := 0;
    while v < h.vertexEnd
      invariant v == PartBegin(h, k)
      invariant v < h.vertexEnd + Shl(1, h.partitionBits)
      invariant |pBegin| == |pEnd| == |pb| + k
      invariant pb <= pBegin && pe <= pEnd
      invariant Block(vNum, h, |pb|, k, pBegin, pEnd)
      decreases h.vertexEnd + Shl(1, h.partitionBits) - v
    {
      ShlAdd(k, 1, h.partitionBits);
      pBegin := pBegin + [v];
      pEnd := pEnd + [Min((v + Shl(1, h.partitionBits)) % TWO32, vNum)];
      v := (v + Shl(1, h.partitionBits)) % TWO32;
      k := k + 1;
    }
    CeilShrUnique(h.vertexEnd - h.vertexBegin, h.partitionBits, k);
  }

  // ----- Tiling and lookup -----

  /** The ranges [pBegin[p], pEnd[p]) are non-empty and follow one another from 0 to n. */
  ghost predicate Tiles(n: nat, pBegin: seq<nat>, pEnd: seq<nat>) {
    && 0 < |pBegin| == |pEnd|
    && pBegin[0] == 0
    && pEnd[|pEnd| - 1] == n
    && (forall p :: 0 <= p < |pBegin| ==> pBegin[p] < pEnd[p])
    && (forall p :: 0 < p < |pBegin| ==> pBegin[p] == pEnd[p - 1])
  }

  lemma {:induction false} TilesOrdered(n: nat, pBegin: seq<nat>, pEnd: seq<nat>, p: nat, q: nat)
    requires Tiles(n, pBegin, pEnd)
    requires p < q < |pBegin|
    ensures pEnd[p] <= pBegin[q]
    decreases q - p
  {
    if p + 1 < q {
      TilesOrdered(n, pBegin, pEnd, p, q - 1);
    }
  }

  lemma TilesUnique(n: nat, pBegin: seq<nat>, pEnd: seq<nat>, v: nat, p: nat, q: nat)
    requires Tiles(n, pBegin, pEnd)
    requires p < |pBegin| && q < |pBegin|
    requires pBegin[p] <= v < pEnd[p] && pBegin[q] <= v < pEnd[q]
    ensures p == q
  {
    if p < q {
      TilesOrdered(n, pBegin, pEnd, p, q);
    } else if q < p {
      TilesOrdered(n, pBegin, pEnd, q, p);
    }
  }

  /** get_vertex_partition_id: two lookups in the group table, no search. */
  function PartitionId(groupBits: nat, headers: seq<GroupHeader>, v: nat): nat
    requires Shr(v, groupBits) < |headers|
  {
    var h := headers[Shr(v, groupBits)];
    Shr(Low(v, groupBits), h.partitionBits) + h.partitionOffset
  }

  /** The group of a vertex, and the vertex's place in the group. */
  lemma GroupOf(vNum: nat, groupBits: nat, hints: seq<GroupHint>, v: nat)
    requires ValidHints(vNum, groupBits, hints)
    requires v < vNum
    ensures Shr(v, groupBits) < |hints|
    ensures var h := hints[Shr(v, groupBits)];
            h.vertexBegin + Low(v, groupBits) == v < h.vertexEnd
  {
    hide Shl, Shr;
    var g := Shr(v, groupBits);
    ShrBounds(v, groupBits);
    CeilShrBounds(vNum, groupBits);
    ShlAdd(g, 1, groupBits);
    if |hints| <= g {
      ShlMono(|hints|, g, groupBits);
    }
    assert ValidHint(vNum, groupBits, g, hints[g]);
  }

  /** The looked-up partition is the one whose range holds the vertex. */
  lemma PartitionIdFinds(vNum: nat, groupBits: nat, hints: seq<GroupHint>, headers: seq<GroupHeader>,
                         pBegin: seq<nat>, pEnd: seq<nat>, v: nat)
    requires ValidHints(vNum, groupBits, hints)
    requires Headers(groupBits, hints, headers)
    requires AllLaidOut(vNum, groupBits, hints, pBegin, pEnd)
    requires v < vNum
    ensures Shr(v, groupBits) < |headers|
    ensures PartitionId(groupBits, headers, v) < |pBegin|
    ensures pBegin[PartitionId(groupBits, headers, v)] <= v < pEnd[PartitionId(groupBits, headers, v)]
  {
    hide Shl, Shr;
    GroupOf(vNum, groupBits, hints, v);
    var g := Shr(v, groupBits);
    var h := hints[g];
    var r := Low(v, groupBits);
    var k := Shr(r, h.partitionBits);
    assert ValidHint(vNum, groupBits, g, h);
    ShrBounds(r, h.partitionBits);
    CeilShrBounds(h.vertexEnd - h.vertexBegin, h.partitionBits);
    if h.partitionNum <= k {
      ShlMono(h.partitionNum, k, h.partitionBits);
    }
    assert LaidOut(vNum, groupBits, hints, g, pBegin, pEnd);
    assert pBegin[Offset(groupBits, hints, g) + k] == PartBegin(h, k);
  }

  /** The partition index p belongs to group g. */
  ghost predicate InGroup(groupBits: nat, hints: seq<GroupHint>, g: nat, p: nat)
    requires BitsFit(groupBits, hints)
  {
    g < |hints| && Offset(groupBits, hints, g) <= p < Offset(groupBits, hints, g) + hints[g].partitionNum
  }

  /** A partition has the size its group is cut in, as far as there are vertices, and does not leave the group. */
  lemma PartitionSize(vNum: nat, groupBits: nat, hints: seq<GroupHint>, pBegin: seq<nat>, pEnd: seq<nat>, g: nat,
                      p: nat)
    requires ValidHints(vNum, groupBits, hints) && AllLaidOut(vNum, groupBits, hints, pBegin, pEnd)
    requires InGroup(groupBits, hints, g, p)
    ensures p < |pBegin| == |pEnd| && hints[g].vertexBegin <= pBegin[p] < pEnd[p] <= hints[g].vertexEnd
    ensures pEnd[p] - pBegin[p] == Shl(1, hints[g].partitionBits)
      || (pEnd[p] == vNum && pEnd[p] - pBegin[p] < Shl(1, hints[g].partitionBits))
  {
    hide Shl, Shr;
    var h, k := hints[g], p - Offset(groupBits, hints, g);
    assert ValidHint(vNum, groupBits, g, h) && LaidOut(vNum, groupBits, hints, g, pBegin, pEnd);
    OffsetsRise(vNum, groupBits, hints, g, |hints| - 1);
    PartitionInGroup(vNum, groupBits, g, h, k);
    assert pBegin[p] == PartBegin(h, k) && pEnd[p] == PartEnd(vNum, h, k);
  }

  lemma {:induction false} OffsetsRise(vNum: nat, groupBits: nat, hints: seq<GroupHint>, g: nat, n: nat)
    requires ValidHints(vNum, groupBits, hints) && BitsFit(groupBits, hints) && g <= n < |hints|
    ensures Offset(groupBits, hints, g) + hints[g].partitionNum <= Offset(groupBits, hints, n) + hints[n].partitionNum
    decreases n
  {
    hide Shl, Shr;
    if g < n {
      OffsetsRise(vNum, groupBits, hints, g, n - 1);
      FullGroup(vNum, groupBits, hints, n - 1);
    }
  }

  lemma PartitionInGroup(vNum: nat, groupBits: nat, g: nat, h: GroupHint, k: nat)
    requires ValidHint(vNum, groupBits, g, h) && k < h.partitionNum
    ensures h.vertexBegin <= PartBegin(h, k) < PartEnd(vNum, h, k) <= h.vertexEnd
  {
    hide Shl, Shr;
    var bits := h.partitionBits;
    var full := Shl(1, groupBits - bits);
    CeilShrBounds(h.vertexEnd - h.vertexBegin, bits);
    ShlAdd(g, 1, groupBits);
    ShlShl(1, groupBits - bits, bits);
    ShlMono(k, h.partitionNum - 1, bits);
    ShlAdd(k, 1, bits);
    if full < k + 1 {
      ShlMono(full, k, bits);
    } else {
      ShlMono(k + 1, full, bits);
    }
  }

  lemma {:induction false} GroupOfPartition(vNum: nat, groupBits: nat, hints: seq<GroupHint>, p: nat, n: nat)
      returns (g: nat)
    requires ValidHints(vNum, groupBits, hints) && BitsFit(groupBits, hints)
    requires n < |hints|
    requires p < Offset(groupBits, hints, n) + hints[n].partitionNum
    ensures InGroup(groupBits, hints, g, p)
    decreases n
  {
    hide Shl, Shr;
    if Offset(groupBits, hints, n) <= p {
      g := n;
    } else {
      FullGroup(vNum, groupBits, hints, n - 1);
      g := GroupOfPartition(vNum, groupBits, hints, p, n - 1);
    }
  }

  lemma LastPartition(vNum: nat, groupBits: nat, hints: seq<GroupHint>, g: nat)
    requires ValidHints(vNum, groupBits, hints)
    requires g < |hints|
    ensures 0 < hints[g].partitionNum
    ensures PartBegin(hints[g], hints[g].partitionNum - 1) < hints[g].vertexEnd
         <= PartBegin(hints[g], hints[g].partitionNum - 1) + Shl(1, hints[g].partitionBits)
  {
    hide Shl, Shr;
    assert ValidHint(vNum, groupBits, g, hints[g]);
    var b, n := hints[g].partitionBits, hints[g].partitionNum;
    CeilShrBounds(hints[g].vertexEnd - hints[g].vertexBegin, b);
    ShlAdd(n - 1, 1, b);
  }

  /** The laid-out partitions tile [0, vNum). */
  lemma PartitionsTile(vNum: nat, groupBits: nat, hints: seq<GroupHint>, pBegin: seq<nat>, pEnd: seq<nat>)
    requires ValidHints(vNum, groupBits, hints)
    requires AllLaidOut(vNum, groupBits, hints, pBegin, pEnd)
    ensures Tiles(vNum, pBegin, pEnd)
  {
    var last := |hints| - 1;
    FirstAndLast(vNum, groupBits, hints, pBegin, pEnd);
    forall p | 0 <= p < |pBegin|
      ensures pBegin[p] < pEnd[p]
      ensures 0 < p ==> pBegin[p] == pEnd[p - 1]
    {
      var g := GroupOfPartition(vNum, groupBits, hints, p, last);
      TileAt(vNum, groupBits, hints, pBegin, pEnd, g, p);
    }
  }

  lemma FirstAndLast(vNum: nat, groupBits: nat, hints: seq<GroupHint>, pBegin: seq<nat>, pEnd: seq<nat>)
    requires ValidHints(vNum, groupBits, hints)
    requires AllLaidOut(vNum, groupBits, hints, pBegin, pEnd)
    ensures 0 < |pBegin| && pBegin[0] == 0
    ensures pEnd[|pEnd| - 1] == vNum
  {
    hide Shl, Shr;
    var last := |hints| - 1;
    LastPartition(vNum, groupBits, hints, 0);
    LastPartition(vNum, groupBits, hints, last);
    assert LaidOut(vNum, groupBits, hints, 0, pBegin, pEnd);
    assert LaidOut(vNum, groupBits, hints, last, pBegin, pEnd);
    assert ValidHint(vNum, groupBits, 0, hints[0]);
    assert ValidHint(vNum, groupBits, last, hints[last]);
    ShlZero(groupBits);
    ShlZero(hints[0].partitionBits);
    CeilShrBounds(vNum, groupBits);
  }

  lemma TileAt(vNum: nat, groupBits: nat, hints: seq<GroupHint>, pBegin: seq<nat>, pEnd: seq<nat>, g: nat, p: nat)
    requires ValidHints(vNum, groupBits, hints)
    requires AllLaidOut(vNum, groupBits, hints, pBegin, pEnd)
    requires p < |pBegin|
    requires InGroup(groupBits, hints, g, p)
    ensures pBegin[p] < pEnd[p]
    ensures 0 < p ==> pBegin[p] == pEnd[p - 1]
  {
    hide Shl, Shr;
    var h := hints[g];
    var k := p - Offset(groupBits, hints, g);
    assert LaidOut(vNum, groupBits, hints, g, pBegin, pEnd);
    assert ValidHint(vNum, groupBits, g, h);
    LastPartition(vNum, groupBits, hints, g);
    ShlMono(k, h.partitionNum - 1, h.partitionBits);
    if 0 < k {
      ShlAdd(k - 1, 1, h.partitionBits);
      assert pEnd[p - 1] == PartEnd(vNum, h, k - 1);
    } else if 0 < g {
      LastOfGroup(vNum, groupBits, hints, g - 1);
      assert LaidOut(vNum, groupBits, hints, g - 1, pBegin, pEnd);
      ShlZero(h.partitionBits);
      assert pEnd[p - 1] == PartEnd(vNum, hints[g - 1], hints[g - 1].partitionNum - 1);
    }
  }

  /** The last partition of a full group ends where the next group begins. */
  lemma LastOfGroup(vNum: nat, groupBits: nat, hints: seq<GroupHint>, g: nat)
    requires ValidHints(vNum, groupBits, hints) && BitsFit(groupBits, hints)
    requires g + 1 < |hints|
    ensures 0 < hints[g].partitionNum
    ensures Offset(groupBits, hints, g + 1) == Offset(groupBits, hints, g) + hints[g].partitionNum
    ensures PartEnd(vNum, hints[g], hints[g].partitionNum - 1) == hints[g + 1].vertexBegin
  {
    hide Shl, Shr;
    FullGroup(vNum, groupBits, hints, g);
    LastPartition(vNum, groupBits, hints, g);
    assert ValidHint(vNum, groupBits, g, hints[g]);
    ShlAdd(hints[g].partitionNum - 1, 1, hints[g].partitionBits);
  }
}
