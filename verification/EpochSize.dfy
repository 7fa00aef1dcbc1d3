/**
 * How many walkers an epoch takes: estimate_epoch_walker of src/core/partition.hpp and the epoch count
 * of FMobSolver::prepare (src/core/solver.hpp).
 */
module EpochSize {
  import opened Arith
  import opened Csr

  // sizeof(vertex_id_t).
  const VERTEX_BYTES: nat := 4

  /** What the estimate is made from. `other` is the size of the edge filter, 0 without one. */
  datatype Job = Job(vertexNum: nat, edgeNum: nat, bufferEdgeNum: nat, walkerNum: nat, walkLen: nat, socketNum: nat,
                     quota: nat, other: nat) {

    /** Memory that does not depend on the number of walkers. */
    function Fixed(): nat {
      ADJ_LIST_BYTES * vertexNum * socketNum + ADJ_UNIT_BYTES * edgeNum + VERTEX_BYTES * bufferEdgeNum + other
    }

    /** Two path slots a step, two messages and a start for each walker. */
    function PerWalker(): (n: nat)
      ensures 12 <= n
    {
      VERTEX_BYTES * (walkLen * 2 + 2 + 1)
    }

    /** The most walkers the quota has memory for. */
    function Affordable(): nat
      requires Fixed() <= quota
    {
      (quota - Fixed()) / PerWalker()
    }
  }

  datatype Sizing =
    | Sized(walkers: nat)
    | CheckFailed        // the quota does not even cover the graph
    | DividesByZero      // nobody can walk: no walkers, or no memory for one

  /** The epoch size before the clamp to 32 bits: the walkers spread evenly over as few epochs as possible. */
  function Even(walkerNum: nat, most: nat): nat
    requires 0 < walkerNum && 0 < most
  {
    CeilDivBounds(walkerNum, most);
    CeilDiv(walkerNum, CeilDiv(walkerNum, most))
  }

  function Estimate(j: Job): (r: Sizing)
    ensures r.Sized? <==> Room(j, 1) && 0 < j.walkerNum
    ensures r.CheckFailed? <==>
      j.quota <= 12 * j.vertexNum * j.socketNum + 4 * j.edgeNum + 4 * j.bufferEdgeNum + j.other
    ensures r.Sized? ==> 0 < r.walkers <= TWO32 - 2
  {
    if j.quota <= j.Fixed() then CheckFailed
    else
      DivBounds(j.quota - j.Fixed(), j.PerWalker());
      AffordsIff(j, 1);
      var most := Min(j.Affordable(), j.walkerNum);
      if most == 0 then DividesByZero
      else
        EvenBounds(j.walkerNum, most);
        Sized(Min(Even(j.walkerNum, most), TWO32 - 2))
  }

  /**
   * The quota has memory for so many walkers at a time: a header of 12 bytes for each vertex on each socket, 4
   * bytes for each edge and for each edge of a buffered partition, the filter, and for each walker 4 bytes in each
   * step array, 4 in the output for each step, and 4 each for its message, its state and its start.
   */
  ghost predicate Room(j: Job, walkers: nat) {
    12 * j.vertexNum * j.socketNum + 4 * j.edgeNum + 4 * j.bufferEdgeNum + j.other
      + walkers * (4 * j.walkLen + 4 * j.walkLen + 4 + 4 + 4) <= j.quota
  }

  lemma AffordsIff(j: Job, walkers: nat)
    requires j.Fixed() <= j.quota
    ensures walkers <= j.Affordable() <==> Room(j, walkers)
  {
    var a, b := j.quota - j.Fixed(), j.PerWalker();
    DivBounds(a, b);
    if walkers <= a / b {
      MulMono(walkers, a / b, b);
    } else {
      MulMono(a / b + 1, walkers, b);
    }
  }

  /**
   * Evening out never asks for more than `most` walkers an epoch, and never adds an epoch: it takes
   * exactly as many as full epochs of `most` would. Fewer walkers an epoch would take more epochs.
   */
  lemma EvenBounds(walkerNum: nat, most: nat)
    requires 0 < walkerNum && 0 < most
    ensures 1 <= Even(walkerNum, most) <= most
    ensures CeilDiv(walkerNum, Even(walkerNum, most)) == CeilDiv(walkerNum, most)
    ensures forall w: nat :: 0 < w < Even(walkerNum, most) ==> CeilDiv(walkerNum, most) < CeilDiv(walkerNum, w)
  {
    hide CeilDiv;
    var k := CeilDiv(walkerNum, most);
    CeilDivBounds(walkerNum, most);
    var w := CeilDiv(walkerNum, k);
    CeilDivBounds(walkerNum, k);
    CeilDivLeast(walkerNum, k, most);
    CeilDivLeast(walkerNum, w, k);
    var epochs := CeilDiv(walkerNum, w);
    CeilDivBounds(walkerNum, w);
    MulMono(w, most, epochs);
    CeilDivLeast(walkerNum, most, epochs);
    forall x: nat | 0 < x < w
      ensures k < CeilDiv(walkerNum, x)
    {
      CeilDivBounds(walkerNum, x);
      if CeilDiv(walkerNum, x) <= k {
        MulMono(CeilDiv(walkerNum, x), k, x);
        CeilDivLeast(walkerNum, k, x);
      }
    }
  }

  /** More walkers an epoch never take more epochs. */
  lemma FewerEpochs(walkerNum: nat, w: nat, most: nat)
    requires 0 < w <= most
    ensures CeilDiv(walkerNum, most) <= CeilDiv(walkerNum, w)
  {
    CeilDivBounds(walkerNum, w);
    MulMono(w, most, CeilDiv(walkerNum, w));
    CeilDivLeast(walkerNum, most, CeilDiv(walkerNum, w));
  }

  /** No epoch is larger than all the walkers need be. */
  lemma OneEpoch(walkerNum: nat, w: nat)
    requires 0 < walkerNum <= w
    ensures CeilDiv(walkerNum, w) == 1
  {
    DivUnique(walkerNum + w - 1, w, 1);
  }

  /**
   * The epoch size before the clamp is the least one that takes as few epochs as the quota allows. The quota has
   * room for it, and no walkers are asked for that do not exist.
   */
  lemma EpochFits(j: Job) returns (w: nat)
    requires Estimate(j).Sized?
    ensures 0 < w <= j.walkerNum && Room(j, w) && Estimate(j).walkers == (if w <= 4294967294 then w else 4294967294)
    ensures Estimate(j).walkers <= j.walkerNum && Room(j, Estimate(j).walkers)
    ensures forall x: nat :: 0 < x && Room(j, x) ==> CeilDiv(j.walkerNum, w) <= CeilDiv(j.walkerNum, x)
    ensures forall x: nat :: 0 < x < w ==> CeilDiv(j.walkerNum, w) < CeilDiv(j.walkerNum, x)
  {
    assert j.Fixed() < j.quota;
    hide CeilDiv, Job.PerWalker, Job.Fixed, Job.Affordable, Room;
    AffordsIff(j, 1);
    var most := Min(j.Affordable(), j.walkerNum);
    EvenBounds(j.walkerNum, most);
    w := Even(j.walkerNum, most);
    AffordsIff(j, w);
    AffordsIff(j, Estimate(j).walkers);
    forall x: nat | 0 < x && Room(j, x)
      ensures CeilDiv(j.walkerNum, w) <= CeilDiv(j.walkerNum, x)
    {
      AffordsIff(j, x);
      if x <= most {
        FewerEpochs(j.walkerNum, x, most);
      } else {
        OneEpoch(j.walkerNum, most);
        CeilDivBounds(j.walkerNum, x);
      }
    }
  }

  // ----- Counting epochs -----

  /** An epoch takes a full share of the walkers, or all that are left. */
  lemma EpochStep(rest: nat, share: nat)
    requires 0 < rest && 0 < share
    ensures 1 + CeilDiv(rest - Min(share, rest), share) == CeilDiv(rest, share)
  {
    var n := Min(share, rest);
    var c := CeilDiv(rest - n, share);
    CeilDivBounds(rest - n, share);
    assert (1 + c) * share == share + c * share;
    if n == rest {
      CeilDivLeast(0, share, 0);
      DivUnique(rest + share - 1, share, 1);
    } else {
      DivUnique(rest + share - 1, share, 1 + c);
    }
  }

  lemma NoneLeft(share: nat)
    requires 0 < share
    ensures CeilDiv(0, share) == 0
  {
    CeilDivLeast(0, share, 0);
  }

  /** How many walkers are left after e epochs. */
  function Remaining(walkerNum: nat, share: nat, e: nat): (r: nat)
    ensures r <= walkerNum
  {
    if e == 0 then walkerNum
    else
      var before := Remaining(walkerNum, share, e - 1);
      before - Min(share, before)
  }

  /** How many walkers epoch e takes. */
  function EpochWalkers(walkerNum: nat, share: nat, e: nat): nat {
    Min(share, Remaining(walkerNum, share, e))
  }

  /** The loop of prepare that lists the epochs. */
  method CountEpochs(walkerNum: nat, share: nat) returns (epochs: seq<nat>)
    requires 0 < share
    ensures |epochs| == CeilDiv(walkerNum, share)
    ensures Total(epochs) == walkerNum
    ensures forall e :: 0 <= e < |epochs| ==> 0 < epochs[e] <= share && (e < |epochs| - 1 ==> epochs[e] == share)
    ensures forall e :: 0 <= e < |epochs| ==> epochs[e] == EpochWalkers(walkerNum, share, e)
  {
    hide CeilDiv;
    epochs := [];
    NoneLeft(share);
    var w: nat := 0;
    while w < walkerNum
      invariant w <= walkerNum && Total(epochs) == w
      invariant |epochs| + CeilDiv(walkerNum - w, share) == CeilDiv(walkerNum, share)
      invariant walkerNum - w == Remaining(walkerNum, share, |epochs|)
      invariant forall e :: 0 <= e < |epochs| ==> epochs[e] == EpochWalkers(walkerNum, share, e)
      invariant forall e :: 0 <= e < |epochs| ==>
        0 < epochs[e] <= share && (w < walkerNum || e < |epochs| - 1 ==> epochs[e] == share)
    {
      EpochStep(walkerNum - w, share);
      var n: nat := Min(share, walkerNum - w);
      TotalGrows(epochs, n);
      epochs := epochs + [n];
      w := w + n;
    }
  }
}
