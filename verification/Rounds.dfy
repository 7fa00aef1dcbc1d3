/**
 * One whole lock-step round of the loop of src/core/solver.hpp: shuffle, walk, write back. Its result
 * is what stepping every walker in place, one by one, could have given.
 */
module Rounds {
  import opened Perm
  import opened Buckets
  import opened Partition
  import opened Neighbors
  import opened Walk
  import opened Message
  import opened Shuffling
  import opened Stepping
  import opened Ledgers

  // ----- Writing back -----

  /** The i-th walker of the range found the value of its message's slot. */
  ghost predicate Delivered(target: seq<nat>, b: nat, ids: seq<nat>, a: seq<nat>) {
    b + |ids| <= |target|
    && forall i :: 0 <= i < |ids| ==> Pos(ids, i) < |a| && target[b + i] == a[Pos(ids, i)]
  }

  method UpdateOne(t: MessageTask, target: array<nat>, ghost ids: seq<nat>)
    requires Bucketed(t, ids) && t.originEnd <= target.Length
    requires target != t.shuffledBegin && target != t.messages && target != t.partitionIds
    modifies t.shuffledBegin, target
    ensures Delivered(target[..], t.originBegin, ids, t.messages[..])
    ensures forall i :: 0 <= i < target.Length && !(t.originBegin <= i < t.originEnd) ==> target[i] == old(target[i])
  {
    hide Less, Count;
    NoneTaken(ids, t.partitionNum);
    t.Update(target);
    assert t.Ids() == ids;
    ghost var a, b := t.messages[..], target[..];
    assert forall i :: 0 <= i < |ids| ==>
      b[t.originBegin + i] == target[t.originBegin + i] && a[Pos(ids, i)] == t.messages[Pos(ids, i)];
  }

  /** The first n tasks have written back, the rest still can. */
  ghost predicate Updating(tasks: seq<MessageTask>, blocks: seq<Block>, a: seq<seq<nat>>, n: nat, target: seq<nat>)
    reads tasks, set k | 0 <= k < |tasks| :: tasks[k].messages
    reads set k | 0 <= k < |tasks| :: tasks[k].shuffledBegin
    reads set k | 0 <= k < |tasks| :: tasks[k].shuffledEnd
    reads set k | 0 <= k < |tasks| :: tasks[k].partitionIds
  {
    && |blocks| == |a| == |tasks|
    && (forall k :: 0 <= k < |tasks| ==> tasks[k].messages[..] == a[k])
    && (forall k :: n <= k < |tasks| ==> Bucketed(tasks[k], blocks[k].ids))
    && (forall k :: 0 <= k < n && k < |tasks| ==> Delivered(target, tasks[k].originBegin, blocks[k].ids, a[k]))
  }

  lemma DeliveredKept(target: seq<nat>, target': seq<nat>, b: nat, ids: seq<nat>, a: seq<nat>, lo: nat, hi: nat)
    requires Delivered(target, b, ids, a) && |target| == |target'| && b + |ids| <= lo
    requires forall i :: 0 <= i < |target| && !(lo <= i < hi) ==> target'[i] == target[i]
    ensures Delivered(target', b, ids, a)
  {
    hide Less, Count;
  }

  method UpdateNext(tasks: seq<MessageTask>, k: nat, target: array<nat>, ghost blocks: seq<Block>,
                    ghost a: seq<seq<nat>>, ghost partitionNum: nat, ghost active: nat)
    requires Team(tasks, partitionNum, active) && active <= target.Length && k < |tasks|
    requires forall j :: 0 <= j < |tasks| ==> target !in tasks[j].Own() && target != tasks[j].partitionIds
    requires Updating(tasks, blocks, a, k, target[..])
    requires forall j :: 0 <= j < k ==> tasks[j].originBegin + |blocks[j].ids| == tasks[j].originEnd
    modifies tasks[k].shuffledBegin, target
    ensures Updating(tasks, blocks, a, k + 1, target[..])
  {
    hide Less, Count, Delivered;
    ghost var before := target[..];
    RangesEnd(tasks, partitionNum, active, k);
    UpdateOne(tasks[k], target, blocks[k].ids);
    forall j | k + 1 <= j < |tasks|
      ensures Bucketed(tasks[j], blocks[j].ids)
    {
      assert Strangers(tasks[k], tasks[j]);
      BucketedKept(tasks[j], blocks[j].ids);
    }
    forall j | 0 <= j < |tasks|
      ensures tasks[j].messages[..] == a[j]
    {
      assert if j < k then Strangers(tasks[j], tasks[k]) else j == k || Strangers(tasks[k], tasks[j]);
    }
    forall j | 0 <= j < k
      ensures Delivered(target[..], tasks[j].originBegin, blocks[j].ids, a[j])
    {
      RangesOrdered(tasks, partitionNum, active, j, k);
      DeliveredKept(before, target[..], tasks[j].originBegin, blocks[j].ids, a[j], tasks[k].originBegin,
                    tasks[k].originEnd);
    }
  }

  ghost predicate BeginsIn(tasks: seq<MessageTask>, begins: set<object>) {
    forall k :: 0 <= k < |tasks| ==> tasks[k].shuffledBegin in begins && tasks[k] !in begins
  }

  lemma BeginsAt(tasks: seq<MessageTask>, begins: set<object>, k: nat)
    requires BeginsIn(tasks, begins) && k < |tasks|
    ensures tasks[k].shuffledBegin in begins
  {
  }

  /** MessageManager::update: every task writes its walkers' new vertices back. */
  method UpdateAll(tasks: seq<MessageTask>, target: array<nat>, ghost blocks: seq<Block>, ghost a: seq<seq<nat>>,
                   ghost begins: set<object>, ghost partitionNum: nat, ghost active: nat)
    requires Team(tasks, partitionNum, active) && active <= target.Length && |blocks| == |tasks|
    requires forall k :: 0 <= k < |tasks| ==> target !in tasks[k].Own() && target != tasks[k].partitionIds
    requires Updating(tasks, blocks, a, 0, target[..])
    requires forall k :: 0 <= k < |tasks| ==> tasks[k].originBegin + |blocks[k].ids| == tasks[k].originEnd
    requires BeginsIn(tasks, begins)
    modifies begins, target
    ensures Updating(tasks, blocks, a, |tasks|, target[..])
  {
    hide Less, Count, Delivered, Bucketed, Team, Updating, BeginsIn;
    for k := 0 to |tasks|
      invariant Team(tasks, partitionNum, active) && Updating(tasks, blocks, a, k, target[..])
      invariant forall j :: 0 <= j < |tasks| ==> tasks[j].originBegin + |blocks[j].ids| == tasks[j].originEnd
    {
      BeginsAt(tasks, begins, k);
      UpdateNext(tasks, k, target, blocks, a, partitionNum, active);
    }
  }

  // ----- The round -----

  /** Partition lookup finds the partition that holds the vertex. */
  ghost predicate Finds(w: World, groupBits: nat, headers: seq<GroupHeader>) {
    forall v :: 0 <= v < |w.h.adj| ==> FoundAt(w, groupBits, headers, v)
  }

  ghost predicate FoundAt(w: World, groupBits: nat, headers: seq<GroupHeader>, v: nat) {
    && Known(groupBits, headers, |w.pBegin|, v) && |w.pBegin| == |w.pEnd|
    && w.pBegin[PartitionId(groupBits, headers, v)] <= v < w.pEnd[PartitionId(groupBits, headers, v)]
  }

  lemma AllFound(w: World, groupBits: nat, headers: seq<GroupHeader>, vs: seq<nat>)
    requires Finds(w, groupBits, headers) && AllBelow(vs, |w.h.adj|)
    ensures AllKnown(groupBits, headers, |w.pBegin|, vs)
  {
    forall i | 0 <= i < |vs|
      ensures Known(groupBits, headers, |w.pBegin|, vs[i])
    {
      assert FoundAt(w, groupBits, headers, vs[i]);
    }
  }

  /** No walker of the span has taken the span's step. */
  ghost predicate Unwalked(led: Ledger, span: Span) {
    forall x: nat :: span.lo <= x < span.hi ==> Tag(x, span.step) !in led
  }

  /** A loaded task is ready to be walked. */
  lemma LoadedIsReady(w: World, t: MessageTask, k: Block, cur: seq<nat>, prev: seq<nat>, groupBits: nat,
                      headers: seq<GroupHeader>, first: nat, step: nat, led: Ledger)
    requires w.mode.Legal() && Finds(w, groupBits, headers) && |w.pBegin| == |w.pEnd|
    requires LoadedFrom(t, k, cur, prev, groupBits, headers, |w.h.adj|) && t.partitionNum == |w.pBegin|
    requires AllBelow(k.cur, |w.h.adj|) && Numbered(t, k, first, step) && Unwalked(led, k.span)
    ensures Fixed(w, t, k) && Partway(t.messages[..], w, k, map[], led)
  {
    hide Less, Count, Stepped;
    forall i | 0 <= i < |k.ids|
      ensures k.ids[i] < |w.pBegin| && w.pBegin[k.ids[i]] <= k.cur[i] < w.pEnd[k.ids[i]]
    {
      assert FoundAt(w, groupBits, headers, k.cur[i]);
    }
  }

  /** What a round makes of walkers first, first + 1, ...: each stepped, from its own state when states are given. */
  ghost predicate Moved(w: World, led: Ledger, first: nat, step: nat, prev: seq<nat>, cur: seq<nat>, next: seq<nat>,
                        n: nat)
    requires w.mode.Legal()
  {
    && n <= |cur| && n <= |next| && (prev != [] ==> n <= |prev|)
    && forall x :: 0 <= x < n ==> WalkerMoved(w, led, first, step, prev, cur, next, x)
  }

  ghost predicate WalkerMoved(w: World, led: Ledger, first: nat, step: nat, prev: seq<nat>, cur: seq<nat>,
                              next: seq<nat>, x: nat)
    requires w.mode.Legal() && x < |cur| && x < |next| && (prev != [] ==> x < |prev|)
  {
    var tag := Tag(first + x, step);
    if prev == [] then SteppedSomehow(w, led, tag, cur[x], next[x]) else Stepped(w, led, tag, prev[x], cur[x], next[x])
  }

  /** A step drawn against a state that is not known, but for being a vertex. */
  ghost predicate SteppedSomehow(w: World, led: Ledger, tag: Tag, cur: nat, next: nat)
    requires w.mode.Legal()
  {
    exists s: nat :: s < |w.h.adj| && Stepped(w, led, tag, s, cur, next)
  }

  lemma MovedKept(w: World, led: Ledger, led': Ledger, first: nat, step: nat, prev: seq<nat>, cur: seq<nat>,
                  next: seq<nat>, n: nat)
    requires w.mode.Legal() && Moved(w, led, first, step, prev, cur, next, n) && Kept(led, led')
    ensures Moved(w, led', first, step, prev, cur, next, n)
  {
    hide Stepped, Kept;
    forall x | 0 <= x < n
      ensures WalkerMoved(w, led', first, step, prev, cur, next, x)
    {
      var tag := Tag(first + x, step);
      assert WalkerMoved(w, led, first, step, prev, cur, next, x);
      if prev == [] {
        var s: nat :| s < |w.h.adj| && Stepped(w, led, tag, s, cur[x], next[x]);
        SteppedKept(w, led, led', tag, s, cur[x], next[x]);
      } else {
        SteppedKept(w, led, led', tag, prev[x], cur[x], next[x]);
      }
    }
  }

  /** The steps of walkers first, first + 1, ... were taken by the threads named for the partitions they were in. */
  ghost predicate TurnsKept(w: World, led: Ledger, first: nat, step: nat, cur: seq<nat>, who: map<nat, nat>,
                            n: nat)
  {
    n <= |cur| && forall x :: 0 <= x < n ==> TurnKept(w, led, Tag(first + x, step), cur[x], who)
  }

  ghost predicate TurnKept(w: World, led: Ledger, tag: Tag, cur: nat, who: map<nat, nat>) {
    exists p: nat :: p in who && OwnsVertex(w, p, cur) && BookedBy(led, tag, who[p])
  }

  ghost predicate OwnsVertex(w: World, p: nat, v: nat) {
    p < |w.pBegin| == |w.pEnd| && w.pBegin[p] <= v < w.pEnd[p]
  }

  lemma TurnKeptOn(w: World, led: Ledger, led': Ledger, tag: Tag, cur: nat, who: map<nat, nat>)
    requires TurnKept(w, led, tag, cur, who) && Kept(led, led')
    ensures TurnKept(w, led', tag, cur, who)
  {
    var p: nat :| p in who && OwnsVertex(w, p, cur) && BookedBy(led, tag, who[p]);
    assert BookedBy(led', tag, who[p]);
  }

  lemma TurnsKeptOn(w: World, led: Ledger, led': Ledger, first: nat, step: nat, cur: seq<nat>, who: map<nat, nat>,
                    n: nat)
    requires TurnsKept(w, led, first, step, cur, who, n) && Kept(led, led')
    ensures TurnsKept(w, led', first, step, cur, who, n)
  {
    hide TurnKept, Kept;
    forall x | 0 <= x < n
      ensures TurnKept(w, led', Tag(first + x, step), cur[x], who)
    {
      TurnKeptOn(w, led, led', Tag(first + x, step), cur[x], who);
    }
  }

  /** What the three phases leave behind, put together for one task. */
  lemma BlockMoved(w: World, led: Ledger, first: nat, b: nat, e: nat, k: Block, prev: seq<nat>, cur: seq<nat>,
                   next: seq<nat>, a: seq<nat>, done: map<nat, nat>, n: nat, x: nat)
    requires w.mode.Legal() && Partway(a, w, k, done, led) && Delivered(next, b, k.ids, a)
    requires b <= e <= |cur| && |k.ids| == e - b && k.cur == cur[b..e] && k.span.lo == first + b
    requires prev != [] ==> e <= |prev| && k.prev == prev[b..e]
    requires AllBelow(k.ids, n) && AllBelow(k.prev, |w.h.adj|) && forall p :: 0 <= p < n ==> p in done
    requires b <= x < e && AtHome(k, w)
    ensures x < |next| && WalkerMoved(w, led, first, k.span.step, prev, cur, next, x)
    ensures TurnKept(w, led, Tag(first + x, k.span.step), cur[x], done)
  {
    hide Less, Count, Stepped;
    var i := x - b;
    assert MovedIf(w, k, i, a[Pos(k.ids, i)], done, led);
    assert k.ids[i] in done && next[b + i] == a[Pos(k.ids, i)];
    assert Stepped(w, led, Tag(first + x, k.span.step), k.prev[i], k.cur[i], next[x]);
    assert OwnsVertex(w, k.ids[i], cur[x]);
  }

  /** The blocks are cut from these arrays along the tasks' ranges. */
  ghost predicate BlocksFrom(tasks: seq<MessageTask>, blocks: seq<Block>, cur: seq<nat>, prev: seq<nat>,
                             partitionNum: nat, first: nat, step: nat)
    reads tasks
  {
    && |blocks| == |tasks|
    && forall k :: 0 <= k < |tasks| ==> BlockFrom(tasks[k], blocks[k], cur, prev, partitionNum, first, step)
  }

  ghost predicate BlockFrom(t: MessageTask, k: Block, cur: seq<nat>, prev: seq<nat>, partitionNum: nat, first: nat,
                            step: nat)
    reads t
  {
    && t.originBegin <= t.originEnd <= |cur| && |k.ids| == t.originEnd - t.originBegin
    && k.cur == cur[t.originBegin..t.originEnd] && AllBelow(k.ids, partitionNum)
    && (prev != [] ==> t.originEnd <= |prev| && k.prev == prev[t.originBegin..t.originEnd])
    && Numbered(t, k, first, step)
  }

  /** Blocks cut along the tasks' ranges are for different walkers. */
  lemma BlocksRanked(tasks: seq<MessageTask>, blocks: seq<Block>, cur: seq<nat>, prev: seq<nat>, partitionNum: nat,
                     active: nat, first: nat, step: nat)
    requires Team(tasks, partitionNum, active) && BlocksFrom(tasks, blocks, cur, prev, partitionNum, first, step)
    ensures Ranked(blocks, Span(step, first, first + active))
  {
    forall k | 0 <= k < |blocks|
      ensures blocks[k].span.hi <= first + active && blocks[k].span.step == step && first <= blocks[k].span.lo
    {
      assert BlockFrom(tasks[k], blocks[k], cur, prev, partitionNum, first, step);
      RangesEnd(tasks, partitionNum, active, k);
    }
    forall j, k | 0 <= j < k < |blocks|
      ensures Stepping.Follows(blocks[j], blocks[k])
    {
      assert BlockFrom(tasks[j], blocks[j], cur, prev, partitionNum, first, step)
        && BlockFrom(tasks[k], blocks[k], cur, prev, partitionNum, first, step);
      RangesOrdered(tasks, partitionNum, active, j, k);
    }
  }

  /** The shuffle phase of a round. */
  method ShufflePhase(w: World, tasks: seq<MessageTask>, groupBits: nat, headers: seq<GroupHeader>,
                      origin: array<nat>, prev: array?<nat>, ghost own: set<object>, ghost active: nat,
                      ghost first: nat, ghost step: nat, ghost led: Ledger)
    returns (ghost blocks: seq<Block>)
    requires w.mode.Legal() && Finds(w, groupBits, headers) && |w.pBegin| == |w.pEnd|
    requires Team(tasks, |w.pBegin|, active) && StatesBelow(tasks, |w.h.adj|)
    requires active <= origin.Length && AllBelow(origin[..active], |w.h.adj|)
    requires prev != null ==> active <= prev.Length && AllBelow(prev[..active], |w.h.adj|)
    requires Within(tasks, own) && origin !in own && prev !in own && Unwalked(led, Span(step, first, first + active))
    modifies own
    ensures StatesBelow(tasks, |w.h.adj|)
    ensures BlocksFrom(tasks, blocks, origin[..], OrEmpty(prev), |w.pBegin|, first, step)
    ensures Walking(w, tasks, blocks, 0, map[], map[], led)
  {
    AllFound(w, groupBits, headers, origin[..active]);
    hide AllKnown, Count, Less, LoadedFrom, OrEmpty, StatesBelow, Within, Finds, Fixed, Partway;
    blocks := ShuffleAll(tasks, origin, prev, groupBits, headers, own, |w.pBegin|, active, |w.h.adj|, first, step);
    forall k | 0 <= k < |tasks|
      ensures Fixed(w, tasks[k], blocks[k]) && Partway(tasks[k].messages[..], w, blocks[k], map[], led)
      ensures BlockFrom(tasks[k], blocks[k], origin[..], OrEmpty(prev), |w.pBegin|, first, step)
    {
      RangesEnd(tasks, |w.pBegin|, active, k);
      LoadedParts(tasks[k], blocks[k], origin[..], OrEmpty(prev), groupBits, headers, |w.h.adj|, active, first, step);
      LoadedIsReady(w, tasks[k], blocks[k], origin[..], OrEmpty(prev), groupBits, headers, first, step, led);
    }
  }

  lemma LoadedParts(t: MessageTask, k: Block, cur: seq<nat>, prev: seq<nat>, groupBits: nat,
                    headers: seq<GroupHeader>, vNum: nat, active: nat, first: nat, step: nat)
    requires LoadedFrom(t, k, cur, prev, groupBits, headers, vNum) && Numbered(t, k, first, step)
    requires active <= |cur| && t.originEnd <= active && AllBelow(cur[..active], vNum)
    ensures BlockFrom(t, k, cur, prev, t.partitionNum, first, step) && AllBelow(k.cur, vNum)
  {
    assert forall i :: 0 <= i < |k.cur| ==> k.cur[i] == cur[..active][t.originBegin + i];
  }

  ghost function Contents(tasks: seq<MessageTask>): (a: seq<seq<nat>>)
    reads tasks, set k | 0 <= k < |tasks| :: tasks[k].messages
    ensures |a| == |tasks| && forall k :: 0 <= k < |tasks| ==> a[k] == tasks[k].messages[..]
  {
    if tasks == [] then [] else Contents(tasks[..|tasks| - 1]) + [tasks[|tasks| - 1].messages[..]]
  }

  ghost predicate AllPartway(w: World, a: seq<seq<nat>>, blocks: seq<Block>, done: map<nat, nat>, led: Ledger)
    requires w.mode.Legal()
  {
    |a| == |blocks| && forall k :: 0 <= k < |a| ==>
      Partway(a[k], w, blocks[k], done, led) && AllBelow(blocks[k].prev, |w.h.adj|) && AtHome(blocks[k], w)
  }

  lemma AllMoved(w: World, led: Ledger, first: nat, step: nat, tasks: seq<MessageTask>, blocks: seq<Block>,
                 a: seq<seq<nat>>, done: map<nat, nat>, prev: seq<nat>, cur: seq<nat>, next: seq<nat>, active: nat)
    requires w.mode.Legal() && Team(tasks, |w.pBegin|, active) && active <= |cur| && active <= |next|
    requires prev != [] ==> active <= |prev|
    requires BlocksFrom(tasks, blocks, cur, prev, |w.pBegin|, first, step) && AllPartway(w, a, blocks, done, led)
    requires Updating(tasks, blocks, a, |tasks|, next) && forall p :: 0 <= p < |w.pBegin| ==> p in done
    ensures Moved(w, led, first, step, prev, cur, next, active) && TurnsKept(w, led, first, step, cur, done, active)
  {
    hide Count, Less, Partway, Delivered, WalkerMoved, TurnKept, AtHome;
    forall x | 0 <= x < active
      ensures WalkerMoved(w, led, first, step, prev, cur, next, x)
      ensures TurnKept(w, led, Tag(first + x, step), cur[x], done)
    {
      var k := TaskOf(tasks, |w.pBegin|, active, x, |tasks| - 1);
      assert BlockFrom(tasks[k], blocks[k], cur, prev, |w.pBegin|, first, step);
      BlockMoved(w, led, first, tasks[k].originBegin, tasks[k].originEnd, blocks[k], prev, cur, next, a[k], done,
                 |w.pBegin|, x);
    }
  }

  /** Between walking and writing back. */
  lemma ReadyToUpdate(w: World, led: Ledger, first: nat, step: nat, tasks: seq<MessageTask>, blocks: seq<Block>,
                      done: map<nat, nat>, cur: seq<nat>, prev: seq<nat>, target: seq<nat>)
    requires w.mode.Legal() && Walking(w, tasks, blocks, 0, done, map[], led)
    requires BlocksFrom(tasks, blocks, cur, prev, |w.pBegin|, first, step)
    ensures |blocks| == |tasks| && AllPartway(w, Contents(tasks), blocks, done, led)
    ensures Updating(tasks, blocks, Contents(tasks), 0, target)
    ensures forall k :: 0 <= k < |tasks| ==> tasks[k].originBegin + |blocks[k].ids| == tasks[k].originEnd
  {
    hide Count, Less, Partway, Bucketed, Delivered, AtHome, Carries, Contents;
    var a := Contents(tasks);
    forall k | 0 <= k < |tasks|
      ensures Partway(a[k], w, blocks[k], done, led) && AllBelow(blocks[k].prev, |w.h.adj|) && AtHome(blocks[k], w)
      ensures Bucketed(tasks[k], blocks[k].ids) && tasks[k].messages[..] == a[k]
      ensures tasks[k].originBegin + |blocks[k].ids| == tasks[k].originEnd
    {
      assert Fixed(w, tasks[k], blocks[k]);
      assert BlockFrom(tasks[k], blocks[k], cur, prev, |w.pBegin|, first, step);
    }
  }

  /** The write-back phase of a round. */
  method UpdatePhase(w: World, tasks: seq<MessageTask>, origin: array<nat>, prev: array?<nat>, target: array<nat>,
                     ghost blocks: seq<Block>, ghost done: map<nat, nat>, ghost begins: set<object>, ghost active: nat,
                     ghost first: nat, ghost step: nat, ghost led: Ledger)
    requires w.mode.Legal() && Team(tasks, |w.pBegin|, active) && active <= target.Length && active <= origin.Length
    requires prev != null ==> active <= prev.Length
    requires forall k :: 0 <= k < |tasks| ==> target !in tasks[k].Own() && target != tasks[k].partitionIds
    requires BlocksFrom(tasks, blocks, origin[..], OrEmpty(prev), |w.pBegin|, first, step)
    requires Walking(w, tasks, blocks, 0, done, map[], led) && forall p :: 0 <= p < |w.pBegin| ==> p in done
    requires BeginsIn(tasks, begins) && target != origin && target != prev && origin !in begins && prev !in begins
    modifies begins, target
    ensures Moved(w, led, first, step, OrEmpty(prev), origin[..], target[..], active)
    ensures TurnsKept(w, led, first, step, origin[..], done, active)
  {
    ghost var a := Contents(tasks);
    ReadyToUpdate(w, led, first, step, tasks, blocks, done, origin[..], OrEmpty(prev), target[..]);
    assert forall k :: 0 <= k < |tasks| ==> tasks[k] !in begins;
    hide Walking, Updating, Team, BlockFrom, AllPartway, Moved, BeginsIn, TurnsKept;
    UpdateAll(tasks, target, blocks, a, begins, |w.pBegin|, active);
    AllMoved(w, led, first, step, tasks, blocks, a, done, OrEmpty(prev), origin[..], target[..], active);
  }

  /**
   * The whole round as arithmetic: send every walker's vertex and state to its slot, apply any step f to
   * every slot, and hand the slots back. Each walker gets f of its own state and vertex.
   */
  lemma LockstepIsMap(ids: seq<nat>, n: nat, cur: seq<nat>, prev: seq<nat>, a: seq<nat>, st: seq<nat>, a': seq<nat>,
                      target: seq<nat>, b: nat, f: (nat, nat) -> nat)
    requires AllBelow(ids, n) && Carries(a, ids, cur) && Carries(st, ids, prev) && |a'| == |a|
    requires forall s :: 0 <= s < |ids| && s < |a| && s < |st| ==> a'[s] == f(st[s], a[s])
    requires Delivered(target, b, ids, a')
    ensures b + |ids| <= |target| && target[b..b + |ids|] == seq(|ids|, i requires 0 <= i < |ids| => f(prev[i], cur[i]))
  {
    hide Less, Count;
    SlotFacts(ids, n);
    forall i | 0 <= i < |ids|
      ensures target[b..b + |ids|][i] == f(prev[i], cur[i])
    {
      var s := Pos(ids, i);
      assert a[s] == cur[i] && st[s] == prev[i];
    }
  }

  // ----- The three phases together -----

  ghost function MessagesOf(tasks: seq<MessageTask>): set<object> {
    set k | 0 <= k < |tasks| :: tasks[k].messages
  }

  ghost function BeginsOf(tasks: seq<MessageTask>): set<object> {
    set k | 0 <= k < |tasks| :: tasks[k].shuffledBegin
  }

  /** Tasks, samplers, generators and filter share nothing. */
  ghost predicate Separate(w: World, tasks: seq<MessageTask>, own: set<object>, parts: set<object>) {
    && Within(tasks, own) && own !! parts && Distinct(w.rands)
    && (forall k :: 0 <= k < |tasks| ==> tasks[k] !in parts)
    && (forall r :: 0 <= r < |w.rands| ==> w.rands[r] !in own && w.rands[r] !in parts)
    && (w.filter != null ==> w.filter !in own + parts && w.filter.table !in own + parts)
  }

  lemma DividedHolds(w: World, tasks: seq<MessageTask>, own: set<object>, parts: set<object>, partitionNum: nat,
                     active: nat)
    requires Separate(w, tasks, own, parts) && Team(tasks, partitionNum, active)
    ensures Divided(w, tasks, MessagesOf(tasks), parts)
    ensures MessagesOf(tasks) <= own && BeginsOf(tasks) <= own && BeginsIn(tasks, BeginsOf(tasks))
    ensures forall k :: 0 <= k < |tasks| ==>
      tasks[k].states !in MessagesOf(tasks) && tasks[k].states !in BeginsOf(tasks)
  {
    var msgs := MessagesOf(tasks);
    forall k, j | 0 <= k < |tasks| && 0 <= j < |tasks|
      ensures tasks[j].messages !in Rest(tasks[k]) && tasks[j].shuffledBegin != tasks[k].states
      ensures j < k ==> tasks[j].messages != tasks[k].messages
    {
      OwnApart(tasks, partitionNum, active, j, k);
    }
    forall k | 0 <= k < |tasks|
      ensures tasks[k].messages in msgs && Rest(tasks[k]) !! msgs && Rest(tasks[k]) !! parts
    {
      WithinAt(tasks, own, k);
      assert tasks[k].messages in tasks[k].Own();
    }
    forall k | 0 <= k < |tasks|
      ensures tasks[k].messages in own && tasks[k].shuffledBegin in own
    {
      WithinAt(tasks, own, k);
      assert tasks[k].messages in tasks[k].Own() && tasks[k].shuffledBegin in tasks[k].Own();
    }
  }

  lemma OwnApart(tasks: seq<MessageTask>, partitionNum: nat, active: nat, j: nat, k: nat)
    requires Team(tasks, partitionNum, active) && j < |tasks| && k < |tasks|
    ensures tasks[j].messages !in Rest(tasks[k]) && tasks[j].shuffledBegin != tasks[k].states
    ensures j != k ==> tasks[j].messages != tasks[k].messages
  {
    assert tasks[j].Valid() && tasks[k].Valid();
    if j < k {
      assert Strangers(tasks[j], tasks[k]);
    } else if k < j {
      assert Strangers(tasks[k], tasks[j]);
    }
  }

  /** Everything a round relies on and keeps. */
  ghost predicate Primed(w: World, tasks: seq<MessageTask>, samplers: seq<AnySampler>, groupBits: nat,
                         headers: seq<GroupHeader>, parts: set<object>, active: nat)
    requires w.mode.Legal()
    reads tasks, parts, w.filter, if w.filter == null then {} else {w.filter.table}
    reads MessageStates(tasks)
  {
    && Queryable(w) && Finds(w, groupBits, headers) && |w.pBegin| == |w.pEnd|
    && Team(tasks, |w.pBegin|, active) && Staffed(w, samplers, parts) && StatesBelow(tasks, |w.h.adj|)
  }

  ghost predicate Vertices(w: World, a: array?<nat>, n: nat)
    reads a
  {
    a != null ==> n <= a.Length && AllBelow(a[..n], |w.h.adj|)
  }

  ghost predicate Foreign(a: array?<nat>, own: set<object>, parts: set<object>) {
    a !in own && a !in parts
  }

  lemma PrimedParts(w: World, tasks: seq<MessageTask>, samplers: seq<AnySampler>, groupBits: nat,
                    headers: seq<GroupHeader>, parts: set<object>, active: nat)
    requires w.mode.Legal() && Primed(w, tasks, samplers, groupBits, headers, parts, active)
    ensures Queryable(w) && Finds(w, groupBits, headers) && |w.pBegin| == |w.pEnd|
    ensures Team(tasks, |w.pBegin|, active) && Staffed(w, samplers, parts) && StatesBelow(tasks, |w.h.adj|)
  {
  }

  /** A phase that writes outside the samplers, the filter and the tasks keeps a round primed. */
  twostate lemma StaysPrimed(new w: World, new tasks: seq<MessageTask>, new samplers: seq<AnySampler>,
                             new groupBits: nat, new headers: seq<GroupHeader>, parts: set<object>, new active: nat)
    requires old(allocated(w)) && old(allocated(tasks)) && old(allocated(samplers))
    requires w.mode.Legal() && old(Primed(w, tasks, samplers, groupBits, headers, parts, active))
    requires Staffed(w, samplers, parts) && StatesBelow(tasks, |w.h.adj|)
    requires forall k :: 0 <= k < |tasks| ==> unchanged(tasks[k])
    requires w.filter != null ==> unchanged(w.filter) && unchanged(w.filter.table)
    ensures Primed(w, tasks, samplers, groupBits, headers, parts, active)
  {
    hide Staffed, StatesBelow, Finds, Ready;
  }

  twostate lemma SameArrays(origin: array<nat>, new prev: array?<nat>)
    requires prev != null ==> old(allocated(prev))
    requires unchanged(origin) && (prev != null ==> unchanged(prev))
    ensures origin[..] == old(origin[..]) && OrEmpty(prev) == old(OrEmpty(prev))
  {
  }

  method RoundShuffle(w: World, tasks: seq<MessageTask>, ghost samplers: seq<AnySampler>, groupBits: nat,
                      headers: seq<GroupHeader>, origin: array<nat>, prev: array?<nat>, ghost own: set<object>,
                      ghost parts: set<object>, ghost active: nat, ghost first: nat, ghost step: nat, ghost led: Ledger)
    returns (ghost blocks: seq<Block>)
    requires w.mode.Legal() && Primed(w, tasks, samplers, groupBits, headers, parts, active)
    requires Separate(w, tasks, own, parts)
    requires active <= origin.Length && Vertices(w, origin, active) && Vertices(w, prev, active)
    requires Foreign(origin, own, parts) && Foreign(prev, own, parts)
    requires Unwalked(led, Span(step, first, first + active))
    modifies own
    ensures Primed(w, tasks, samplers, groupBits, headers, parts, active)
    ensures BlocksFrom(tasks, blocks, origin[..], OrEmpty(prev), |w.pBegin|, first, step)
    ensures Walking(w, tasks, blocks, 0, map[], map[], led)
    ensures origin[..] == old(origin[..]) && OrEmpty(prev) == old(OrEmpty(prev))
    ensures Clock(w.rands) == old(Clock(w.rands))
  {
    PrimedParts(w, tasks, samplers, groupBits, headers, parts, active);
    hide Primed, Finds, Team, Staffed, Walking, BlocksFrom, StatesBelow, OrEmpty;
    blocks := ShufflePhase(w, tasks, groupBits, headers, origin, prev, own, active, first, step, led);
    SameArrays(origin, prev);
    StaysPrimed(w, tasks, samplers, groupBits, headers, parts, active);
  }

  /** What a phase that leaves the tasks and their states alone keeps. */
  twostate lemma TasksKept(new tasks: seq<MessageTask>, new blocks: seq<Block>, new cur: seq<nat>,
                           new prev: seq<nat>, new partitionNum: nat, new first: nat, new step: nat, new vNum: nat)
    requires old(allocated(tasks)) && old(BlocksFrom(tasks, blocks, cur, prev, partitionNum, first, step))
    requires old(StatesBelow(tasks, vNum))
    requires forall k :: 0 <= k < |tasks| ==> unchanged(tasks[k]) && unchanged(tasks[k].states)
    ensures BlocksFrom(tasks, blocks, cur, prev, partitionNum, first, step) && StatesBelow(tasks, vNum)
  {
    forall k | 0 <= k < |tasks|
      ensures BlockFrom(tasks[k], blocks[k], cur, prev, partitionNum, first, step)
      ensures AllBelow(tasks[k].states[..], vNum)
    {
      assert old(BlockFrom(tasks[k], blocks[k], cur, prev, partitionNum, first, step));
      assert tasks[k].states[..] == old(tasks[k].states[..]);
    }
  }

  /** The walk phase, which touches neither the tasks, but for their messages, nor the filter. */
  method WalkQuietly(w: World, tasks: seq<MessageTask>, samplers: seq<AnySampler>, turns: seq<Turn>, fuel: nat,
                     ghost blocks: seq<Block>, ghost msgs: set<object>, ghost parts: set<object>, ghost span: Span,
                     ghost led: Ledger)
    returns (stop: Stop, ghost led': Ledger)
    requires w.mode.Legal() && Queryable(w) && Schedule(turns, |samplers|, |w.rands|) && Ranked(blocks, span)
    requires Divided(w, tasks, msgs, parts) && Staffed(w, samplers, parts)
    requires Walking(w, tasks, blocks, 0, map[], map[], led)
    modifies msgs, parts, w.rands
    ensures Staffed(w, samplers, parts)
    ensures Ticked(old(Clock(w.rands)), Clock(w.rands))
    ensures stop == NoStop ==> Walking(w, tasks, blocks, 0, Taken(turns, |turns|), map[], led')
    ensures stop == NoStop ==> Books(led, led', old(Clock(w.rands)), Clock(w.rands), span)
    ensures WhyStopped(w, fuel, stop, old(Clock(w.rands)), Clock(w.rands))
    ensures forall k :: 0 <= k < |tasks| ==> unchanged(tasks[k]) && unchanged(tasks[k].states)
    ensures w.filter != null ==> unchanged(w.filter) && unchanged(w.filter.table)
  {
    assert w.filter != null ==> w.filter !in msgs + parts && w.filter.table !in msgs + parts;
    forall k | 0 <= k < |tasks|
      ensures tasks[k] !in msgs + parts && tasks[k].states !in msgs + parts
    {
      assert tasks[k] in Rest(tasks[k]) && tasks[k].states in Rest(tasks[k]);
    }
    hide *;
    stop, led' := WalkAll(w, tasks, samplers, turns, fuel, blocks, msgs, parts, span, led);
  }

  method RoundWalk(w: World, tasks: seq<MessageTask>, samplers: seq<AnySampler>, ghost groupBits: nat,
                   ghost headers: seq<GroupHeader>, turns: seq<Turn>, fuel: nat, ghost blocks: seq<Block>,
                   ghost cur: seq<nat>, ghost was: seq<nat>, ghost msgs: set<object>, ghost parts: set<object>,
                   ghost active: nat, ghost first: nat, ghost step: nat, ghost led: Ledger)
    returns (stop: Stop, ghost led': Ledger)
    requires w.mode.Legal() && Primed(w, tasks, samplers, groupBits, headers, parts, active)
    requires Divided(w, tasks, msgs, parts) && Schedule(turns, |samplers|, |w.rands|)
    requires Walking(w, tasks, blocks, 0, map[], map[], led)
    requires BlocksFrom(tasks, blocks, cur, was, |w.pBegin|, first, step)
    modifies msgs, parts, w.rands
    ensures Primed(w, tasks, samplers, groupBits, headers, parts, active)
    ensures Ticked(old(Clock(w.rands)), Clock(w.rands))
    ensures stop == NoStop ==> Books(led, led', old(Clock(w.rands)), Clock(w.rands), Span(step, first, first + active))
    ensures stop == NoStop ==> Walking(w, tasks, blocks, 0, Taken(turns, |turns|), map[], led')
    ensures BlocksFrom(tasks, blocks, cur, was, |w.pBegin|, first, step)
    ensures WhyStopped(w, fuel, stop, old(Clock(w.rands)), Clock(w.rands))
  {
    PrimedParts(w, tasks, samplers, groupBits, headers, parts, active);
    BlocksRanked(tasks, blocks, cur, was, |w.pBegin|, active, first, step);
    hide *;
    stop, led' :=
      WalkQuietly(w, tasks, samplers, turns, fuel, blocks, msgs, parts, Span(step, first, first + active), led);
    TasksKept(tasks, blocks, cur, was, |w.pBegin|, first, step, |w.h.adj|);
    StaysPrimed(w, tasks, samplers, groupBits, headers, parts, active);
  }

  method RoundUpdate(w: World, tasks: seq<MessageTask>, ghost samplers: seq<AnySampler>, ghost groupBits: nat,
                     ghost headers: seq<GroupHeader>, origin: array<nat>, prev: array?<nat>, target: array<nat>,
                     ghost blocks: seq<Block>, ghost done: map<nat, nat>, ghost own: set<object>,
                     ghost begins: set<object>, ghost parts: set<object>, ghost active: nat, ghost first: nat,
                     ghost step: nat, ghost led: Ledger)
    requires w.mode.Legal() && Primed(w, tasks, samplers, groupBits, headers, parts, active)
    requires Separate(w, tasks, own, parts)
    requires active <= origin.Length && active <= target.Length && (prev != null ==> active <= prev.Length)
    requires Foreign(origin, own, parts) && Foreign(prev, own, parts) && Foreign(target, own, parts)
    requires target != origin && target != prev && (w.filter != null ==> w.filter.table != target as object)
    requires BlocksFrom(tasks, blocks, origin[..], OrEmpty(prev), |w.pBegin|, first, step)
    requires Walking(w, tasks, blocks, 0, done, map[], led) && forall p :: 0 <= p < |w.pBegin| ==> p in done
    requires begins <= own && BeginsIn(tasks, begins) && forall k :: 0 <= k < |tasks| ==> tasks[k].states !in begins
    modifies begins, target
    ensures Primed(w, tasks, samplers, groupBits, headers, parts, active)
    ensures Moved(w, led, first, step, OrEmpty(prev), origin[..], target[..], active)
    ensures TurnsKept(w, led, first, step, origin[..], done, active) && Clock(w.rands) == old(Clock(w.rands))
  {
    PrimedParts(w, tasks, samplers, groupBits, headers, parts, active);
    forall k | 0 <= k < |tasks|
      ensures target !in tasks[k].Own() && target != tasks[k].partitionIds && tasks[k] !in begins
      ensures tasks[k].states != target
    {
      WithinAt(tasks, own, k);
    }
    hide Primed, Finds, Team, Staffed, Walking, BlocksFrom, Moved, BeginsIn, Within, TurnsKept;
    UpdatePhase(w, tasks, origin, prev, target, blocks, done, begins, active, first, step, led);
    StaysPrimed(w, tasks, samplers, groupBits, headers, parts, active);
  }

  lemma SetUp(w: World, tasks: seq<MessageTask>, samplers: seq<AnySampler>, groupBits: nat, headers: seq<GroupHeader>,
              own: set<object>, parts: set<object>, active: nat)
    requires w.mode.Legal() && Primed(w, tasks, samplers, groupBits, headers, parts, active)
    requires Separate(w, tasks, own, parts)
    ensures Divided(w, tasks, MessagesOf(tasks), parts) && |samplers| == |w.pBegin|
    ensures MessagesOf(tasks) <= own && BeginsOf(tasks) <= own && BeginsIn(tasks, BeginsOf(tasks))
    ensures forall k :: 0 <= k < |tasks| ==> tasks[k].states !in BeginsOf(tasks)
  {
    hide Divided, Finds, Team, Separate;
    DividedHolds(w, tasks, own, parts, |w.pBegin|, active);
  }

  lemma EveryPartition(turns: seq<Turn>, partitionNum: nat, threadNum: nat)
    requires Schedule(turns, partitionNum, threadNum)
    ensures forall p :: 0 <= p < partitionNum ==> p in Taken(turns, |turns|)
  {
    forall p | 0 <= p < partitionNum
      ensures p in Taken(turns, |turns|)
    {
      AllTaken(turns, partitionNum, threadNum, p);
    }
  }

  lemma OutOfReach(w: World, a: array?<nat>, own: set<object>, msgs: set<object>, parts: set<object>)
    requires Foreign(a, own, parts) && msgs <= own
    ensures a !in own && a !in msgs && a !in parts && forall r :: 0 <= r < |w.rands| ==> w.rands[r] as object? != a
  {
  }

  /** Walking leaves the arrays over all walkers alone. */
  method WalkBeside(w: World, tasks: seq<MessageTask>, samplers: seq<AnySampler>, ghost groupBits: nat,
                    ghost headers: seq<GroupHeader>, turns: seq<Turn>, fuel: nat, ghost blocks: seq<Block>,
                    ghost origin: array<nat>, ghost prev: array?<nat>, ghost own: set<object>,
                    ghost msgs: set<object>, ghost parts: set<object>, ghost active: nat, ghost first: nat,
                    ghost step: nat, ghost led: Ledger)
    returns (stop: Stop, ghost led': Ledger)
    requires w.mode.Legal() && Primed(w, tasks, samplers, groupBits, headers, parts, active)
    requires Divided(w, tasks, msgs, parts) && Schedule(turns, |samplers|, |w.rands|)
    requires Walking(w, tasks, blocks, 0, map[], map[], led)
    requires BlocksFrom(tasks, blocks, origin[..], OrEmpty(prev), |w.pBegin|, first, step)
    requires Foreign(origin, own, parts) && Foreign(prev, own, parts) && msgs <= own
    modifies msgs, parts, w.rands
    ensures Primed(w, tasks, samplers, groupBits, headers, parts, active)
    ensures Ticked(old(Clock(w.rands)), Clock(w.rands))
    ensures stop == NoStop ==> Books(led, led', old(Clock(w.rands)), Clock(w.rands), Span(step, first, first + active))
    ensures stop == NoStop ==> Walking(w, tasks, blocks, 0, Taken(turns, |turns|), map[], led')
    ensures BlocksFrom(tasks, blocks, origin[..], OrEmpty(prev), |w.pBegin|, first, step)
    ensures origin[..] == old(origin[..]) && OrEmpty(prev) == old(OrEmpty(prev))
    ensures WhyStopped(w, fuel, stop, old(Clock(w.rands)), Clock(w.rands))
  {
    hide *;
    OutOfReach(w, origin, own, msgs, parts);
    OutOfReach(w, prev, own, msgs, parts);
    ghost var cur, was := origin[..], OrEmpty(prev);
    stop, led' :=
      RoundWalk(w, tasks, samplers, groupBits, headers, turns, fuel, blocks, cur, was, msgs, parts, active, first,
        step, led);
    SameArrays(origin, prev);
  }

  /** Shuffle and walk. */
  method RoundFront(w: World, tasks: seq<MessageTask>, samplers: seq<AnySampler>, groupBits: nat,
                    headers: seq<GroupHeader>, turns: seq<Turn>, fuel: nat, origin: array<nat>, prev: array?<nat>,
                    ghost own: set<object>, ghost parts: set<object>, ghost active: nat, ghost first: nat,
                    ghost step: nat, ghost led: Ledger)
    returns (stop: Stop, ghost blocks: seq<Block>, ghost led': Ledger)
    requires w.mode.Legal() && Primed(w, tasks, samplers, groupBits, headers, parts, active)
    requires Separate(w, tasks, own, parts) && Schedule(turns, |samplers|, |w.rands|)
    requires active <= origin.Length && Vertices(w, origin, active) && Vertices(w, prev, active)
    requires Foreign(origin, own, parts) && Foreign(prev, own, parts)
    requires Unwalked(led, Span(step, first, first + active))
    modifies own, parts, w.rands
    ensures Primed(w, tasks, samplers, groupBits, headers, parts, active)
    ensures BlocksFrom(tasks, blocks, origin[..], OrEmpty(prev), |w.pBegin|, first, step)
    ensures origin[..] == old(origin[..]) && OrEmpty(prev) == old(OrEmpty(prev))
    ensures Ticked(old(Clock(w.rands)), Clock(w.rands))
    ensures stop == NoStop ==> Books(led, led', old(Clock(w.rands)), Clock(w.rands), Span(step, first, first + active))
    ensures stop == NoStop ==> Walking(w, tasks, blocks, 0, Taken(turns, |turns|), map[], led')
    ensures WhyStopped(w, fuel, stop, old(Clock(w.rands)), Clock(w.rands))
  {
    SetUp(w, tasks, samplers, groupBits, headers, own, parts, active);
    ghost var msgs := MessagesOf(tasks);
    hide *;
    blocks := RoundShuffle(w, tasks, samplers, groupBits, headers, origin, prev, own, parts, active, first, step, led);
    stop, led' :=
      WalkBeside(w, tasks, samplers, groupBits, headers, turns, fuel, blocks, origin, prev, own, msgs, parts, active,
        first, step, led);
  }

  /**
   * One iteration of the lock-step loop: step `step` of the walkers from number `first` on. The draws that
   * decided it, all made in this round, are booked, and every real draw of the round is among them.
   */
  method Round(w: World, tasks: seq<MessageTask>, samplers: seq<AnySampler>, groupBits: nat,
               headers: seq<GroupHeader>, turns: seq<Turn>, fuel: nat, origin: array<nat>, prev: array?<nat>,
               target: array<nat>, ghost own: set<object>, ghost parts: set<object>, ghost active: nat,
               ghost first: nat, ghost step: nat, ghost led: Ledger)
    returns (stop: Stop, ghost led': Ledger)
    requires w.mode.Legal() && Primed(w, tasks, samplers, groupBits, headers, parts, active)
    requires Separate(w, tasks, own, parts) && Schedule(turns, |samplers|, |w.rands|)
    requires active <= origin.Length && active <= target.Length && Vertices(w, origin, active)
    requires prev != null ==> active <= prev.Length && Vertices(w, prev, active)
    requires Foreign(origin, own, parts) && Foreign(prev, own, parts) && Foreign(target, own, parts)
    requires target != origin && target != prev && (w.filter != null ==> w.filter.table != target as object)
    requires Unwalked(led, Span(step, first, first + active))
    modifies own, parts, w.rands, target
    ensures Primed(w, tasks, samplers, groupBits, headers, parts, active)
    ensures Ticked(old(Clock(w.rands)), Clock(w.rands))
    ensures stop == NoStop ==> Books(led, led', old(Clock(w.rands)), Clock(w.rands), Span(step, first, first + active))
    ensures stop == NoStop ==> Moved(w, led', first, step, OrEmpty(prev), origin[..], target[..], active)
    ensures stop == NoStop ==> TurnsKept(w, led', first, step, origin[..], Taken(turns, |turns|), active)
    ensures WhyStopped(w, fuel, stop, old(Clock(w.rands)), Clock(w.rands))
  {
    SetUp(w, tasks, samplers, groupBits, headers, own, parts, active);
    EveryPartition(turns, |samplers|, |w.rands|);
    ghost var begins := BeginsOf(tasks);
    hide *;
    ghost var blocks;
    stop, blocks, led' :=
      RoundFront(w, tasks, samplers, groupBits, headers, turns, fuel, origin, prev, own, parts, active, first, step,
        led);
    if stop == NoStop {
      RoundUpdate(w, tasks, samplers, groupBits, headers, origin, prev, target, blocks, Taken(turns, |turns|), own,
                  begins, parts, active, first, step, led');
    }
  }
}
