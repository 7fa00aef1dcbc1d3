/** MessageTask of src/core/message.hpp: counting, shuffling and writing back one block of walkers. */
module Message {
  import opened Bits
  import opened Partition
  import opened Buckets

  /** A vertex's partition can be looked up, and is one of the n partitions. */
  ghost predicate Known(groupBits: nat, headers: seq<GroupHeader>, n: nat, v: nat) {
    Shr(v, groupBits) < |headers| && PartitionId(groupBits, headers, v) < n
  }

  ghost predicate AllKnown(groupBits: nat, headers: seq<GroupHeader>, n: nat, vs: seq<nat>) {
    forall i :: 0 <= i < |vs| ==> Known(groupBits, headers, n, vs[i])
  }

  ghost function IdsOf(groupBits: nat, headers: seq<GroupHeader>, n: nat, vs: seq<nat>): (ids: seq<nat>)
    requires AllKnown(groupBits, headers, n, vs)
    ensures |ids| == |vs|
    ensures forall i :: 0 <= i < |vs| ==>
      Known(groupBits, headers, n, vs[i]) && ids[i] == PartitionId(groupBits, headers, vs[i])
    ensures AllBelow(ids, n)
  {
    seq(|vs|, i requires 0 <= i < |vs| =>
      assert Known(groupBits, headers, n, vs[i]); PartitionId(groupBits, headers, vs[i]))
  }

  class MessageTask {
    const partitionNum: nat
    var originBegin: nat
    var originEnd: nat
    const shuffledBegin: array<nat>
    const shuffledEnd: array<nat>
    const messages: array<nat>
    const states: array<nat>
    const partitionIds: array<nat>  // one array shared by all tasks

    ghost predicate Valid()
      reads this
    {
      Holds(originBegin, originEnd)
    }

    /** The task's arrays are its own, and large enough for the walkers [b, e). */
    ghost predicate Holds(b: nat, e: nat) {
      && b <= e <= partitionIds.Length
      && e - b <= messages.Length == states.Length
      && shuffledBegin.Length == shuffledEnd.Length == partitionNum
      && shuffledBegin != shuffledEnd && shuffledBegin != messages && shuffledBegin != states
      && shuffledBegin != partitionIds && shuffledEnd != messages && shuffledEnd != states
      && shuffledEnd != partitionIds && messages != states && messages != partitionIds && states != partitionIds
    }

    /** The partition ids of the task's own block. */
    ghost function Ids(): (ids: seq<nat>)
      requires Valid()
      reads this, partitionIds
      ensures |ids| == originEnd - originBegin
    {
      partitionIds[originBegin..originEnd]
    }

    /** The task's arrays other than the shared one. */
    ghost function Own(): set<object> {
      {shuffledBegin, shuffledEnd, messages, states}
    }

    constructor (n: nat, b: nat, e: nat, ids: array<nat>)
      requires b <= e <= ids.Length
      ensures Valid() && fresh(Own())
      ensures partitionNum == n && originBegin == b && originEnd == e && partitionIds == ids
      ensures messages.Length == states.Length == e - b
      ensures forall i :: 0 <= i < e - b ==> states[i] == 0
    {
      partitionNum := n;
      originBegin, originEnd := b, e;
      shuffledBegin := new nat[n];
      shuffledEnd := new nat[n];
      messages := new nat[e - b];
      states := new nat[e - b](_ => 0);  // fresh memory is zeroed
      partitionIds := ids;
    }

    /**
     * Counts the messages for each partition and turns the counts into bucket starts. Afterwards both
     * cursors of every partition stand at the start of its bucket.
     */
    method Prepare(origin: array<nat>, groupBits: nat, headers: seq<GroupHeader>)
      requires Valid() && originEnd <= origin.Length
      requires AllKnown(groupBits, headers, partitionNum, origin[originBegin..originEnd])
      requires origin != shuffledBegin && origin != shuffledEnd && origin != partitionIds
      modifies shuffledBegin, shuffledEnd, partitionIds
      ensures Ids() == IdsOf(groupBits, headers, partitionNum, old(origin[originBegin..originEnd]))
      ensures forall i :: 0 <= i < partitionIds.Length && !(originBegin <= i < originEnd) ==>
        partitionIds[i] == old(partitionIds[i])
      ensures forall p :: 0 <= p < partitionNum ==> shuffledBegin[p] == shuffledEnd[p] == Start(Ids(), p)
    {
      hide Shr, Shl, PartitionId, Count, Less, IdsOf, AllKnown;
      ghost var ids := IdsOf(groupBits, headers, partitionNum, origin[originBegin..originEnd]);
      CountIds(origin, groupBits, headers, ids);
      assert Ids() == ids;
      LessEnds(ids, partitionNum, |ids|);
      var counter := 0;
      for p := 0 to partitionNum
        invariant counter == Start(ids, p)
        invariant forall q :: 0 <= q < p ==> shuffledBegin[q] == Start(ids, q)
        invariant forall q :: 0 <= q < partitionNum ==> shuffledEnd[q] == Count(ids, q, |ids|)
        invariant Ids() == ids
        invariant forall i :: 0 <= i < partitionIds.Length && !(originBegin <= i < originEnd) ==>
          partitionIds[i] == old(partitionIds[i])
      {
        LessNext(ids, p, |ids|);
        shuffledBegin[p] := counter;
        counter := counter + shuffledEnd[p];
      }
      for p := 0 to partitionNum
        invariant forall q :: 0 <= q < partitionNum ==> shuffledBegin[q] == Start(ids, q)
        invariant forall q :: 0 <= q < p ==> shuffledEnd[q] == Start(ids, q)
        invariant Ids() == ids
        invariant forall i :: 0 <= i < partitionIds.Length && !(originBegin <= i < originEnd) ==>
          partitionIds[i] == old(partitionIds[i])
      {
        shuffledEnd[p] := shuffledBegin[p];
      }
    }

    /** The counting loop of Prepare. */
    method CountIds(origin: array<nat>, groupBits: nat, headers: seq<GroupHeader>, ghost ids: seq<nat>)
      requires Valid() && originEnd <= origin.Length
      requires AllKnown(groupBits, headers, partitionNum, origin[originBegin..originEnd])
      requires ids == IdsOf(groupBits, headers, partitionNum, origin[originBegin..originEnd])
      requires origin != shuffledEnd && origin != partitionIds
      modifies shuffledEnd, partitionIds
      ensures forall i :: originBegin <= i < originEnd ==> partitionIds[i] == ids[i - originBegin]
      ensures forall i :: 0 <= i < partitionIds.Length && !(originBegin <= i < originEnd) ==>
        partitionIds[i] == old(partitionIds[i])
      ensures forall p :: 0 <= p < partitionNum ==> shuffledEnd[p] == Count(ids, p, |ids|)
    {
      hide Shr, Shl, PartitionId, Count, Less, IdsOf;
      CountNone(ids, partitionNum);
      for p := 0 to partitionNum
        invariant forall q :: 0 <= q < p ==> shuffledEnd[q] == 0
        modifies shuffledEnd
      {
        shuffledEnd[p] := 0;
      }
      for m := originBegin to originEnd
        invariant forall i :: originBegin <= i < m ==> partitionIds[i] == ids[i - originBegin]
        invariant forall i :: 0 <= i < partitionIds.Length && !(originBegin <= i < m) ==>
          partitionIds[i] == old(partitionIds[i])
        invariant forall p :: 0 <= p < partitionNum ==> shuffledEnd[p] == Count(ids, p, m - originBegin)
      {
        assert origin[m] == origin[originBegin..originEnd][m - originBegin];
        assert Known(groupBits, headers, partitionNum, origin[m]);
        var p := PartitionId(groupBits, headers, origin[m]);
        partitionIds[m] := p;
        shuffledEnd[p] := shuffledEnd[p] + 1;
        NextCursor(ids, partitionNum, m - originBegin);
      }
    }

    /** Cursor `c` of each partition has passed the first k messages of its bucket. */
    ghost predicate Cursors(c: array<nat>, k: nat)
      requires Valid() && k <= originEnd - originBegin && c.Length == partitionNum
      reads this, partitionIds, c
    {
      forall p :: 0 <= p < partitionNum ==> c[p] == Start(Ids(), p) + Count(Ids(), p, k)
    }

    /**
     * Sends every message, and its state if states are given, to its slot. The end cursor of each
     * partition then stands at the end of its bucket.
     */
    method Shuffle(origin: array<nat>, originStates: array?<nat>)
      requires Valid() && originEnd <= origin.Length
      requires AllBelow(Ids(), partitionNum)
      requires originStates != null ==> originEnd <= originStates.Length
      requires Cursors(shuffledEnd, 0)
      requires origin != shuffledEnd && origin != messages && origin != states
      requires originStates != shuffledEnd && originStates != messages && originStates != states
      modifies shuffledEnd, messages, states
      ensures forall p :: 0 <= p < partitionNum ==> shuffledEnd[p] == Start(Ids(), p + 1)
      ensures forall i :: 0 <= i < |Ids()| ==>
        Pos(Ids(), i) < messages.Length && messages[Pos(Ids(), i)] == origin[originBegin + i]
      ensures originStates != null ==> forall i :: 0 <= i < |Ids()| ==>
        states[Pos(Ids(), i)] == originStates[originBegin + i]
      ensures originStates == null ==> states[..] == old(states[..])
      ensures forall s :: |Ids()| <= s < states.Length ==> states[s] == old(states[s])
    {
      hide Count, Less;
      if originStates == null {
        SendMessages(origin);
      } else {
        SendBoth(origin, originStates);
      }
      ghost var ids := Ids();
      SlotFacts(ids, partitionNum);
      forall p | 0 <= p < partitionNum
        ensures shuffledEnd[p] == Start(ids, p + 1)
      {
        LessNext(ids, p, |ids|);
      }
    }

    /** The loop of Shuffle for walks without states. */
    method SendMessages(origin: array<nat>)
      requires Valid() && originEnd <= origin.Length
      requires AllBelow(Ids(), partitionNum)
      requires Cursors(shuffledEnd, 0)
      requires origin != shuffledEnd && origin != messages
      modifies shuffledEnd, messages
      ensures Cursors(shuffledEnd, |Ids()|)
      ensures forall i :: 0 <= i < |Ids()| ==>
        Pos(Ids(), i) < messages.Length && messages[Pos(Ids(), i)] == origin[originBegin + i]
    {
      hide Count, Less;
      ghost var ids := Ids();
      SlotFacts(ids, partitionNum);
      for m := originBegin to originEnd
        invariant Ids() == ids
        invariant Cursors(shuffledEnd, m - originBegin)
        invariant forall i :: 0 <= i < m - originBegin ==> messages[Pos(ids, i)] == origin[originBegin + i]
      {
        var p := partitionIds[m];
        assert p == ids[m - originBegin];
        var slot := shuffledEnd[p];
        assert slot == Pos(ids, m - originBegin);
        shuffledEnd[p] := slot + 1;
        messages[slot] := origin[m];
        NextCursor(ids, partitionNum, m - originBegin);
      }
    }

    /** The loop of Shuffle that carries a state with each message. */
    method SendBoth(origin: array<nat>, originStates: array<nat>)
      requires Valid() && originEnd <= origin.Length && originEnd <= originStates.Length
      requires AllBelow(Ids(), partitionNum)
      requires Cursors(shuffledEnd, 0)
      requires origin != shuffledEnd && origin != messages && origin != states
      requires originStates != shuffledEnd && originStates != messages && originStates != states
      modifies shuffledEnd, messages, states
      ensures Cursors(shuffledEnd, |Ids()|)
      ensures forall i :: 0 <= i < |Ids()| ==>
        && Pos(Ids(), i) < messages.Length
        && messages[Pos(Ids(), i)] == origin[originBegin + i]
        && states[Pos(Ids(), i)] == originStates[originBegin + i]
      ensures forall s :: |Ids()| <= s < states.Length ==> states[s] == old(states[s])
    {
      hide Count, Less;
      ghost var ids := Ids();
      SlotFacts(ids, partitionNum);
      for m := originBegin to originEnd
        invariant Ids() == ids
        invariant Cursors(shuffledEnd, m - originBegin)
        invariant forall i :: 0 <= i < m - originBegin ==>
          && messages[Pos(ids, i)] == origin[originBegin + i]
          && states[Pos(ids, i)] == originStates[originBegin + i]
        invariant forall s :: |ids| <= s < states.Length ==> states[s] == old(states[s])
      {
        var p := partitionIds[m];
        assert p == ids[m - originBegin];
        var slot := shuffledEnd[p];
        assert slot == Pos(ids, m - originBegin);
        shuffledEnd[p] := slot + 1;
        messages[slot] := origin[m];
        states[slot] := originStates[m];
        NextCursor(ids, partitionNum, m - originBegin);
      }
    }

    /**
     * Replays the same cursor order on the begin cursors and writes each slot back to the walker it
     * came from.
     */
    method Update(target: array<nat>)
      requires Valid() && originEnd <= target.Length
      requires AllBelow(Ids(), partitionNum)
      requires Cursors(shuffledBegin, 0)
      requires target != shuffledBegin && target != messages && target != partitionIds
      modifies shuffledBegin, target
      ensures forall i :: 0 <= i < |Ids()| ==>
        Pos(Ids(), i) < messages.Length && target[originBegin + i] == messages[Pos(Ids(), i)]
      ensures forall i :: 0 <= i < target.Length && !(originBegin <= i < originEnd) ==> target[i] == old(target[i])
    {
      hide Count, Less;
      ghost var ids := Ids();
      SlotFacts(ids, partitionNum);
      for m := originBegin to originEnd
        invariant Ids() == ids
        invariant Cursors(shuffledBegin, m - originBegin)
        invariant forall i :: 0 <= i < m - originBegin ==> target[originBegin + i] == messages[Pos(ids, i)]
        invariant forall i :: 0 <= i < target.Length && !(originBegin <= i < m) ==> target[i] == old(target[i])
      {
        ghost var k := m - originBegin;
        var p := partitionIds[m];
        assert p == ids[k];
        var slot := shuffledBegin[p];
        assert slot == Pos(ids, k);
        shuffledBegin[p] := slot + 1;
        target[m] := messages[slot];
        NextCursor(ids, partitionNum, k);
      }
    }
  }

  lemma CountNone(ids: seq<nat>, n: nat)
    ensures forall p :: 0 <= p < n ==> Count(ids, p, 0) == 0
  {
  }

  /** Taking message k advances the count of its own partition and of no other. */
  lemma NextCursor(ids: seq<nat>, n: nat, k: nat)
    requires k < |ids|
    ensures forall p :: 0 <= p < n ==> Count(ids, p, k + 1) == Count(ids, p, k) + (if ids[k] == p then 1 else 0)
  {
  }
}
