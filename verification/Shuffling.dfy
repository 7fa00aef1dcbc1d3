/**
 * The shuffle phase of one lock-step round: every thread sends the vertices, and states, of its own
 * block of walkers to their partitions' buckets (src/core/message.hpp).
 */
module Shuffling {
  import opened Bits
  import opened Perm
  import opened Buckets
  import opened Partition
  import opened Message
  import opened Ledgers

  // ----- One task's block of walkers -----

  /**
   * What a task holds during a round: its walkers' partition ids, states and vertices, in walker order, and
   * which step of which walkers the round is for.
   */
  datatype Block = Block(ids: seq<nat>, prev: seq<nat>, cur: seq<nat>, span: Span)

  /** The block is for step `step` of the task's own walkers, numbered from `first` on. */
  ghost predicate Numbered(t: MessageTask, k: Block, first: nat, step: nat)
    reads t
  {
    k.span == Span(step, first + t.originBegin, first + t.originEnd)
  }

  /** The buckets of the task are laid out for these ids. */
  ghost predicate Bucketed(t: MessageTask, ids: seq<nat>)
    reads t, t.partitionIds, t.shuffledBegin, t.shuffledEnd
  {
    && t.Valid() && t.Ids() == ids && AllBelow(ids, t.partitionNum)
    && (forall p :: 0 <= p < t.partitionNum ==>
         t.shuffledBegin[p] == Start(ids, p) && t.shuffledEnd[p] == Start(ids, p + 1))
  }

  /** The i-th value sits in the i-th message's slot. */
  ghost predicate Carries(a: seq<nat>, ids: seq<nat>, vals: seq<nat>) {
    && |vals| == |ids|
    && forall i :: 0 <= i < |ids| ==> Pos(ids, i) < |a| && a[Pos(ids, i)] == vals[i]
  }

  /** What a task holds once it has shuffled. Without given states, `prev` is what its state array held. */
  ghost predicate Loaded(t: MessageTask, k: Block)
    reads t, t.partitionIds, t.shuffledBegin, t.shuffledEnd, t.messages, t.states
  {
    Bucketed(t, k.ids) && Carries(t.messages[..], k.ids, k.cur) && Carries(t.states[..], k.ids, k.prev)
  }

  /** Task t's own walkers of an array over all walkers. */
  ghost function Part(t: MessageTask, a: seq<nat>): seq<nat>
    requires t.Valid() && t.originEnd <= |a|
    reads t
  {
    a[t.originBegin..t.originEnd]
  }

  /** The block was taken from these arrays over all walkers. */
  ghost predicate TakenFrom(t: MessageTask, k: Block, cur: seq<nat>, prev: seq<nat>, groupBits: nat,
                            headers: seq<GroupHeader>)
    reads t
  {
    && t.Valid() && t.originEnd <= |cur| && k.cur == Part(t, cur)
    && AllKnown(groupBits, headers, t.partitionNum, k.cur) && k.ids == IdsOf(groupBits, headers, t.partitionNum, k.cur)
    && (prev != [] ==> t.originEnd <= |prev| && k.prev == Part(t, prev))
  }

  /** Task t has shuffled its part of these arrays. */
  ghost predicate LoadedFrom(t: MessageTask, k: Block, cur: seq<nat>, prev: seq<nat>,
                             groupBits: nat, headers: seq<GroupHeader>, vNum: nat)
    reads t, t.Own(), t.partitionIds
  {
    Loaded(t, k) && AllBelow(k.prev, vNum) && TakenFrom(t, k, cur, prev, groupBits, headers)
  }

  /** prepare and shuffle of one task. */
  method ShuffleOne(t: MessageTask, origin: array<nat>, prev: array?<nat>, groupBits: nat, headers: seq<GroupHeader>,
                    ghost vNum: nat, ghost first: nat, ghost step: nat)
    returns (ghost k: Block)
    requires t.Valid() && t.originEnd <= origin.Length && (prev != null ==> t.originEnd <= prev.Length)
    requires AllKnown(groupBits, headers, t.partitionNum, Part(t, origin[..]))
    requires AllBelow(t.states[..], vNum) && (prev != null ==> AllBelow(Part(t, prev[..]), vNum))
    requires origin !in t.Own() && origin != t.partitionIds && prev !in t.Own() && prev != t.partitionIds
    modifies t.Own(), t.partitionIds
    ensures Loaded(t, k) && AllBelow(t.states[..], vNum) && AllBelow(k.prev, vNum) && Numbered(t, k, first, step)
    ensures k.ids == IdsOf(groupBits, headers, t.partitionNum, Part(t, origin[..])) && k.cur == Part(t, origin[..])
    ensures prev != null ==> k.prev == Part(t, prev[..])
    ensures forall i :: 0 <= i < t.partitionIds.Length && !(t.originBegin <= i < t.originEnd) ==>
      t.partitionIds[i] == old(t.partitionIds[i])
  {
    hide Count, Less, AllKnown, Shr, PartitionId;
    ghost var cur := origin[t.originBegin..t.originEnd];
    ghost var span := Span(step, first + t.originBegin, first + t.originEnd);
    ghost var was := if prev == null then [] else prev[t.originBegin..t.originEnd];
    assert Part(t, origin[..]) == cur && (prev != null ==> Part(t, prev[..]) == was);
    t.Prepare(origin, groupBits, headers);
    ghost var ids := t.Ids();
    NoneTaken(ids, t.partitionNum);
    ghost var states := t.states[..];
    assert AllBelow(states, vNum);
    t.Shuffle(origin, prev);
    assert Bucketed(t, ids) && Carries(t.messages[..], ids, cur);
    if prev == null {
      AtSlotsBelow(states, ids, t.partitionNum, vNum);
      k := Block(ids, AtSlots(states, ids, t.partitionNum), cur, span);
      assert t.states[..] == states;
    } else {
      assert Carries(t.states[..], ids, was);
      k := Block(ids, was, cur, span);
      SentBelow(t.states[..], ids, t.partitionNum, k.prev, states, vNum);
    }
  }

  /** The values found in the messages' slots. */
  ghost function AtSlots(a: seq<nat>, ids: seq<nat>, n: nat): (vals: seq<nat>)
    requires AllBelow(ids, n) && |ids| <= |a|
    ensures Carries(a, ids, vals)
  {
    hide Less, Count;
    SlotFacts(ids, n);
    seq<nat>(|ids|, i requires 0 <= i < |ids| => a[Pos(ids, i)])
  }

  lemma AtSlotsBelow(a: seq<nat>, ids: seq<nat>, n: nat, vNum: nat)
    requires AllBelow(ids, n) && |ids| <= |a| && AllBelow(a, vNum)
    ensures AllBelow(AtSlots(a, ids, n), vNum)
  {
  }

  lemma SentBelow(a: seq<nat>, ids: seq<nat>, n: nat, vals: seq<nat>, rest: seq<nat>, vNum: nat)
    requires AllBelow(ids, n) && |ids| <= |a| == |rest| && Carries(a, ids, vals)
    requires AllBelow(vals, vNum) && AllBelow(rest, vNum)
    requires forall s :: |ids| <= s < |a| ==> a[s] == rest[s]
    ensures AllBelow(a, vNum)
  {
    hide Less, Count;
    SlotsArePerm(ids, n);
    forall s | 0 <= s < |a|
      ensures a[s] < vNum
    {
      if s < |ids| {
        Surjective(Slots(ids), s);
        var i :| 0 <= i < |ids| && Slots(ids)[i] == s;
        assert a[Pos(ids, i)] == vals[i];
      }
    }
  }

  lemma NoneTaken(ids: seq<nat>, n: nat)
    ensures forall p :: 0 <= p < n ==> Count(ids, p, 0) == 0
  {
  }

  // ----- All tasks -----

  /** The tasks share the id array, own everything else, and their ranges follow one another from 0 to n. */
  ghost predicate Team(tasks: seq<MessageTask>, partitionNum: nat, n: nat)
    reads tasks
  {
    && 0 < |tasks|
    && (forall k :: 0 <= k < |tasks| ==> tasks[k].Valid() && tasks[k].partitionNum == partitionNum)
    && (forall j, k :: 0 <= j < k < |tasks| ==> Strangers(tasks[j], tasks[k]))
    && tasks[0].originBegin == 0 && tasks[|tasks| - 1].originEnd == n
    && (forall k :: 0 < k < |tasks| ==> Joined(tasks, k))
  }

  ghost predicate Strangers(s: MessageTask, t: MessageTask)
  {
    s != t && s.partitionIds == t.partitionIds && s.Own() !! t.Own()
  }

  ghost predicate Joined(tasks: seq<MessageTask>, k: nat)
    requires 0 < k < |tasks|
    reads tasks
  {
    tasks[k].originBegin == tasks[k - 1].originEnd
  }

  lemma {:induction false} RangesOrdered(tasks: seq<MessageTask>, partitionNum: nat, n: nat, j: nat, k: nat)
    requires Team(tasks, partitionNum, n) && j < k < |tasks|
    ensures tasks[j].originEnd <= tasks[k].originBegin
    decreases k
  {
    assert Joined(tasks, k);
    if j < k - 1 {
      RangesOrdered(tasks, partitionNum, n, j, k - 1);
      assert tasks[k - 1].Valid();
    }
  }

  lemma {:induction false} RangesEnd(tasks: seq<MessageTask>, partitionNum: nat, n: nat, k: nat)
    requires Team(tasks, partitionNum, n) && k < |tasks|
    ensures tasks[k].originBegin <= tasks[k].originEnd <= n
    decreases |tasks| - k
  {
    assert tasks[k].Valid();
    if k + 1 < |tasks| {
      RangesEnd(tasks, partitionNum, n, k + 1);
      RangesOrdered(tasks, partitionNum, n, k, k + 1);
    }
  }

  /** Every walker below n has a task. */
  lemma {:induction false} TaskOf(tasks: seq<MessageTask>, partitionNum: nat, n: nat, w: nat, k: nat) returns (j: nat)
    requires Team(tasks, partitionNum, n) && k < |tasks| && w < tasks[k].originEnd
    ensures j < |tasks| && tasks[j].originBegin <= w < tasks[j].originEnd
    decreases k
  {
    if tasks[k].originBegin <= w {
      j := k;
    } else {
      assert Joined(tasks, k);
      j := TaskOf(tasks, partitionNum, n, w, k - 1);
    }
  }

  /** Other tasks' work leaves the buckets of this one alone. */
  twostate lemma BucketedKept(t: MessageTask, new ids: seq<nat>)
    requires old(Bucketed(t, ids)) && unchanged(t) && unchanged(t.shuffledBegin) && unchanged(t.shuffledEnd)
    requires forall i :: t.originBegin <= i < t.originEnd ==> t.partitionIds[i] == old(t.partitionIds[i])
    ensures Bucketed(t, ids)
  {
    hide Less, Count;
    assert t.Ids() == old(t.Ids());
  }

  twostate lemma LoadedKept(t: MessageTask, new k: Block)
    requires old(Loaded(t, k)) && unchanged(t) && unchanged(t.shuffledBegin) && unchanged(t.shuffledEnd)
    requires unchanged(t.messages) && unchanged(t.states)
    requires forall i :: t.originBegin <= i < t.originEnd ==> t.partitionIds[i] == old(t.partitionIds[i])
    ensures Loaded(t, k)
  {
    hide Carries, Bucketed;
    BucketedKept(t, k.ids);
    assert t.messages[..] == old(t.messages[..]) && t.states[..] == old(t.states[..]);
  }

  ghost predicate StatesBelow(tasks: seq<MessageTask>, vNum: nat)
    reads MessageStates(tasks)
  {
    forall k :: 0 <= k < |tasks| ==> AllBelow(tasks[k].states[..], vNum)
  }

  ghost function MessageStates(tasks: seq<MessageTask>): set<object> {
    set k | 0 <= k < |tasks| :: tasks[k].states
  }

  twostate lemma LoadedFromKept(t: MessageTask, new k: Block, new b: nat, new e: nat, new cur: seq<nat>,
                                new prev: seq<nat>, new groupBits: nat, new headers: seq<GroupHeader>, new vNum: nat)
    requires old(LoadedFrom(t, k, cur, prev, groupBits, headers, vNum))
    requires unchanged(t) && unchanged(t.Own()) && t.originEnd <= b
    requires forall i :: 0 <= i < t.partitionIds.Length && !(b <= i < e) ==> t.partitionIds[i] == old(t.partitionIds[i])
    ensures LoadedFrom(t, k, cur, prev, groupBits, headers, vNum)
  {
    hide Carries, Bucketed, AllKnown, Count, Less;
    LoadedKept(t, k);
  }

  ghost function OrEmpty(a: array?<nat>): seq<nat>
    reads a
  {
    if a == null then [] else a[..]
  }

  /** Task k's turn. */
  method ShuffleAt(tasks: seq<MessageTask>, k: nat, origin: array<nat>, prev: array?<nat>, groupBits: nat,
                   headers: seq<GroupHeader>, ghost partitionNum: nat, ghost active: nat, ghost vNum: nat,
                   ghost first: nat, ghost step: nat)
    returns (ghost block: Block)
    requires Team(tasks, partitionNum, active) && active <= origin.Length && (prev != null ==> active <= prev.Length)
    requires k < |tasks| && AllBelow(tasks[k].states[..], vNum)
    requires AllKnown(groupBits, headers, partitionNum, origin[..active])
    requires prev != null ==> AllBelow(prev[..active], vNum)
    requires origin !in tasks[k].Own() && prev !in tasks[k].Own()
    requires origin != tasks[k].partitionIds && prev != tasks[k].partitionIds
    modifies tasks[k].Own(), tasks[k].partitionIds
    ensures LoadedFrom(tasks[k], block, origin[..], OrEmpty(prev), groupBits, headers, vNum)
    ensures AllBelow(tasks[k].states[..], vNum) && Numbered(tasks[k], block, first, step)
    ensures forall i :: 0 <= i < tasks[k].partitionIds.Length && !(tasks[k].originBegin <= i < tasks[k].originEnd) ==>
      tasks[k].partitionIds[i] == old(tasks[k].partitionIds[i])
  {
    hide AllKnown, Count, Less;
    var t := tasks[k];
    PartKnown(tasks, k, origin[..], OrEmpty(prev), groupBits, headers, partitionNum, active, vNum);
    hide LoadedFrom, Loaded;
    block := ShuffleOne(t, origin, prev, groupBits, headers, vNum, first, step);
    IsLoaded(t, block, origin[..], OrEmpty(prev), groupBits, headers, vNum);
  }

  /** One task more: the tasks before it keep what they hold. */
  method ShuffleNext(tasks: seq<MessageTask>, k: nat, origin: array<nat>, prev: array?<nat>, groupBits: nat,
                     headers: seq<GroupHeader>, ghost partitionNum: nat, ghost active: nat, ghost vNum: nat,
                     ghost blocks: seq<Block>, ghost first: nat, ghost step: nat)
    returns (ghost block: Block)
    requires Team(tasks, partitionNum, active) && active <= origin.Length && (prev != null ==> active <= prev.Length)
    requires k < |tasks| && k == |blocks|
    requires AllKnown(groupBits, headers, partitionNum, origin[..active])
    requires StatesBelow(tasks, vNum) && (prev != null ==> AllBelow(prev[..active], vNum))
    requires origin !in tasks[k].Own() && prev !in tasks[k].Own()
    requires origin != tasks[k].partitionIds && prev != tasks[k].partitionIds
    requires forall j :: 0 <= j < k ==>
      LoadedFrom(tasks[j], blocks[j], origin[..], OrEmpty(prev), groupBits, headers, vNum)
    modifies tasks[k].Own(), tasks[k].partitionIds
    ensures StatesBelow(tasks, vNum)
    ensures forall j :: 0 <= j < k ==>
      LoadedFrom(tasks[j], blocks[j], origin[..], OrEmpty(prev), groupBits, headers, vNum)
    ensures LoadedFrom(tasks[k], block, origin[..], OrEmpty(prev), groupBits, headers, vNum)
    ensures Numbered(tasks[k], block, first, step)
  {
    hide AllKnown, Count, Less, LoadedFrom, OrEmpty;
    var t := tasks[k];
    block := ShuffleAt(tasks, k, origin, prev, groupBits, headers, partitionNum, active, vNum, first, step);
    forall j | 0 <= j < k
      ensures LoadedFrom(tasks[j], blocks[j], origin[..], OrEmpty(prev), groupBits, headers, vNum)
    {
      assert Strangers(tasks[j], t);
      RangesOrdered(tasks, partitionNum, active, j, k);
      LoadedFromKept(tasks[j], blocks[j], t.originBegin, t.originEnd, origin[..],
                     OrEmpty(prev), groupBits, headers, vNum);
    }
  }

  lemma IsLoaded(t: MessageTask, k: Block, cur: seq<nat>, prev: seq<nat>, groupBits: nat, headers: seq<GroupHeader>,
                 vNum: nat)
    requires Loaded(t, k) && AllBelow(k.prev, vNum)
    requires t.originEnd <= |cur| && k.cur == Part(t, cur)
    requires AllKnown(groupBits, headers, t.partitionNum, k.cur)
    requires k.ids == IdsOf(groupBits, headers, t.partitionNum, k.cur)
    requires prev != [] ==> t.originEnd <= |prev| && k.prev == Part(t, prev)
    ensures LoadedFrom(t, k, cur, prev, groupBits, headers, vNum)
  {
  }

  lemma PartKnown(tasks: seq<MessageTask>, k: nat, cur: seq<nat>, prev: seq<nat>, groupBits: nat,
                  headers: seq<GroupHeader>, partitionNum: nat, active: nat, vNum: nat)
    requires Team(tasks, partitionNum, active) && k < |tasks|
    requires active <= |cur| && AllKnown(groupBits, headers, partitionNum, cur[..active])
    requires prev != [] ==> active <= |prev| && AllBelow(prev[..active], vNum)
    ensures tasks[k].Valid() && tasks[k].partitionNum == partitionNum && tasks[k].originEnd <= active
    ensures AllKnown(groupBits, headers, partitionNum, Part(tasks[k], cur))
    ensures prev != [] ==> AllBelow(Part(tasks[k], prev), vNum)
  {
    hide AllKnown;
    RangesEnd(tasks, partitionNum, active, k);
    KnownPart(groupBits, headers, partitionNum, cur, active, tasks[k].originBegin, tasks[k].originEnd);
    if prev != [] {
      var p := Part(tasks[k], prev);
      assert forall i :: 0 <= i < |p| ==> p[i] == prev[..active][tasks[k].originBegin + i];
    }
  }

  /** The arrays the tasks work on lie within `own`. */
  ghost predicate Within(tasks: seq<MessageTask>, own: set<object>) {
    forall k :: 0 <= k < |tasks| ==> tasks[k].Own() <= own && tasks[k].partitionIds in own && tasks[k] !in own
  }

  lemma WithinAt(tasks: seq<MessageTask>, own: set<object>, k: nat)
    requires Within(tasks, own) && k < |tasks|
    ensures tasks[k].Own() <= own && tasks[k].partitionIds in own
  {
  }

  /** MessageManager::shuffle, once the ranges are clamped: every thread shuffles its own task. */
  method ShuffleAll(tasks: seq<MessageTask>, origin: array<nat>, prev: array?<nat>, groupBits: nat,
                    headers: seq<GroupHeader>, ghost own: set<object>, ghost partitionNum: nat, ghost active: nat,
                    ghost vNum: nat, ghost first: nat, ghost step: nat)
    returns (ghost blocks: seq<Block>)
    requires Team(tasks, partitionNum, active) && active <= origin.Length && (prev != null ==> active <= prev.Length)
    requires AllKnown(groupBits, headers, partitionNum, origin[..active])
    requires StatesBelow(tasks, vNum) && (prev != null ==> AllBelow(prev[..active], vNum))
    requires Within(tasks, own) && origin !in own && prev !in own
    modifies own
    ensures |blocks| == |tasks| && StatesBelow(tasks, vNum)
    ensures forall k :: 0 <= k < |tasks| ==>
      LoadedFrom(tasks[k], blocks[k], origin[..], OrEmpty(prev), groupBits, headers, vNum)
    ensures forall k :: 0 <= k < |tasks| ==> Numbered(tasks[k], blocks[k], first, step)
  {
    hide AllKnown, Count, Less, LoadedFrom, OrEmpty, StatesBelow, Team, Within;
    blocks := [];
    for k := 0 to |tasks|
      invariant |blocks| == k && StatesBelow(tasks, vNum)
      invariant Team(tasks, partitionNum, active)
      invariant forall j :: 0 <= j < k ==>
        LoadedFrom(tasks[j], blocks[j], origin[..], OrEmpty(prev), groupBits, headers, vNum)
      invariant forall j :: 0 <= j < k ==> Numbered(tasks[j], blocks[j], first, step)
    {
      WithinAt(tasks, own, k);
      ghost var b :=
        ShuffleNext(tasks, k, origin, prev, groupBits, headers, partitionNum, active, vNum, blocks, first, step);
      blocks := blocks + [b];
    }
  }

  lemma KnownPart(groupBits: nat, headers: seq<GroupHeader>, n: nat, a: seq<nat>, active: nat, b: nat, e: nat)
    requires b <= e <= active <= |a| && AllKnown(groupBits, headers, n, a[..active])
    ensures AllKnown(groupBits, headers, n, a[b..e])
  {
    forall i | 0 <= i < e - b
      ensures Known(groupBits, headers, n, a[b..e][i])
    {
      assert a[b..e][i] == a[..active][b + i];
    }
  }
}
