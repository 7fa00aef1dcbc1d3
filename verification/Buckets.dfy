/**
 * The stable counting sort behind message shuffling, as arithmetic on the list of partition ids:
 * message i of a task goes to slot Pos(ids, i).
 */
module Buckets {
  import opened Perm

  /** How many of the first k entries are p. */
  ghost function Count(ids: seq<nat>, p: nat, k: nat): nat
    requires k <= |ids|
  {
    if k == 0 then 0 else Count(ids, p, k - 1) + (if ids[k - 1] == p then 1 else 0)
  }

  /** How many of the first k entries are below p. */
  ghost function Less(ids: seq<nat>, p: nat, k: nat): nat
    requires k <= |ids|
  {
    if k == 0 then 0 else Less(ids, p, k - 1) + (if ids[k - 1] < p then 1 else 0)
  }

  /** Where bucket p starts. */
  ghost function Start(ids: seq<nat>, p: nat): nat {
    Less(ids, p, |ids|)
  }

  ghost function Pos(ids: seq<nat>, i: nat): nat
    requires i < |ids|
  {
    Start(ids, ids[i]) + Count(ids, ids[i], i)
  }

  ghost predicate AllBelow(ids: seq<nat>, n: nat) {
    forall i :: 0 <= i < |ids| ==> ids[i] < n
  }

  lemma {:induction false} LessNext(ids: seq<nat>, p: nat, k: nat)
    requires k <= |ids|
    ensures Less(ids, p + 1, k) == Less(ids, p, k) + Count(ids, p, k)
  {
    if k != 0 {
      LessNext(ids, p, k - 1);
    }
  }

  lemma {:induction false} LessMono(ids: seq<nat>, p: nat, q: nat, k: nat)
    requires k <= |ids| && p <= q
    ensures Less(ids, p, k) <= Less(ids, q, k)
  {
    if k != 0 {
      LessMono(ids, p, q, k - 1);
    }
  }

  lemma {:induction false} LessEnds(ids: seq<nat>, n: nat, k: nat)
    requires k <= |ids| && AllBelow(ids, n)
    ensures Less(ids, 0, k) == 0 && Less(ids, n, k) == k
  {
    if k != 0 {
      LessEnds(ids, n, k - 1);
    }
  }

  lemma {:induction false} CountGrows(ids: seq<nat>, i: nat, k: nat)
    requires i < k <= |ids|
    ensures Count(ids, ids[i], i) < Count(ids, ids[i], k)
    decreases k
  {
    if i < k - 1 {
      CountGrows(ids, i, k - 1);
    }
  }

  /** A message lands inside its own partition's bucket. */
  lemma PosInBucket(ids: seq<nat>, i: nat)
    requires i < |ids|
    ensures Start(ids, ids[i]) <= Pos(ids, i) < Start(ids, ids[i] + 1)
  {
    LessNext(ids, ids[i], |ids|);
    CountGrows(ids, i, |ids|);
  }

  lemma PosBelow(ids: seq<nat>, n: nat, i: nat)
    requires AllBelow(ids, n) && i < |ids|
    ensures Pos(ids, i) < |ids|
  {
    PosInBucket(ids, i);
    LessMono(ids, ids[i] + 1, n, |ids|);
    LessEnds(ids, n, |ids|);
  }

  /** Two messages never share a slot. */
  lemma PosDistinct(ids: seq<nat>, i: nat, j: nat)
    requires i < j < |ids|
    ensures Pos(ids, i) != Pos(ids, j)
  {
    PosInBucket(ids, i);
    PosInBucket(ids, j);
    if ids[i] == ids[j] {
      CountGrows(ids, i, j);
    } else if ids[i] < ids[j] {
      LessMono(ids, ids[i] + 1, ids[j], |ids|);
    } else {
      LessMono(ids, ids[j] + 1, ids[i], |ids|);
    }
  }

  ghost function Slots(ids: seq<nat>): (w: seq<nat>)
    ensures |w| == |ids|
    ensures forall i :: 0 <= i < |ids| ==> w[i] == Pos(ids, i)
  {
    seq(|ids|, i requires 0 <= i < |ids| => Pos(ids, i))
  }

  /** The slots are a permutation: nothing is lost and nothing is overwritten. */
  lemma SlotsArePerm(ids: seq<nat>, n: nat)
    requires AllBelow(ids, n)
    ensures IsPerm(Slots(ids))
  {
    var w := Slots(ids);
    forall i | 0 <= i < |w|
      ensures w[i] < |w|
    {
      PosBelow(ids, n, i);
    }
    forall i, j | 0 <= i < j < |w|
      ensures w[i] != w[j]
    {
      PosDistinct(ids, i, j);
    }
  }

  /** Every slot of a bucket holds exactly the messages of its partition. */
  lemma SlotOwner(ids: seq<nat>, n: nat, p: nat, s: nat) returns (i: nat)
    requires AllBelow(ids, n) && p < n
    requires Start(ids, p) <= s < Start(ids, p + 1)
    ensures i < |ids| && Pos(ids, i) == s && ids[i] == p
  {
    hide Less, Count;
    SlotsArePerm(ids, n);
    LessMono(ids, p + 1, n, |ids|);
    LessEnds(ids, n, |ids|);
    Surjective(Slots(ids), s);
    i :| 0 <= i < |ids| && Slots(ids)[i] == s;
    PosInBucket(ids, i);
    if ids[i] < p {
      LessMono(ids, ids[i] + 1, p, |ids|);
    } else if p < ids[i] {
      LessMono(ids, p + 1, ids[i], |ids|);
    }
  }

  /** The message in a slot. */
  ghost function OwnerOf(ids: seq<nat>, n: nat, s: nat): (i: nat)
    requires AllBelow(ids, n) && s < |ids|
    ensures i < |ids| && Pos(ids, i) == s
  {
    hide Less, Count;
    SlotsArePerm(ids, n);
    Surjective(Slots(ids), s);
    var i: nat :| i < |ids| && Slots(ids)[i] == s;
    i
  }

  /** Within a bucket, messages keep their order. */
  lemma Stable(ids: seq<nat>, i: nat, j: nat)
    requires i < j < |ids| && ids[i] == ids[j]
    ensures Pos(ids, i) < Pos(ids, j)
  {
    CountGrows(ids, i, j);
  }

  lemma SlotFacts(ids: seq<nat>, n: nat)
    requires AllBelow(ids, n)
    ensures forall i :: 0 <= i < |ids| ==> Pos(ids, i) < |ids|
    ensures forall i, j :: 0 <= i < j < |ids| ==> Pos(ids, i) != Pos(ids, j)
  {
    SlotsArePerm(ids, n);
    var w := Slots(ids);
    assert forall i :: 0 <= i < |ids| ==> w[i] == Pos(ids, i);
  }
}
