/**
 * The walk phase of one lock-step round: partition after partition, each claimed by some thread, the
 * walkers in the partition's buckets step in place (src/core/walk.hpp).
 */
module Stepping {
  import opened Perm
  import opened Buckets
  import opened Csr
  import opened Bloom
  import opened Neighbors
  import opened Walk
  import opened Message
  import opened Shuffling
  import opened Ledgers

  // ----- Stepping one partition -----

  /**
   * What a round does not change: the graph, the kind of walk, the threads' generators, the edge filter, the
   * partitions and which of them have buffered samplers.
   */
  datatype World = World(h: Graph, mode: Mode, rands: seq<Rand>, filter: BloomFilter?,
                         pBegin: seq<nat>, pEnd: seq<nat>, buffered: seq<bool>)

  /** The vertex lies in partition p. */
  ghost predicate InPartition(w: World, p: nat, v: nat) {
    p < |w.pBegin| == |w.pEnd| == |w.buffered| && w.pBegin[p] <= v < w.pEnd[p]
  }

  /**
   * A walker at cur, which came from prev, has moved to next, with the draws that the ledger books under its
   * tag, by the sampler of the partition it was in.
   */
  ghost predicate Stepped(w: World, led: Ledger, tag: Tag, prev: nat, cur: nat, next: nat)
    requires w.mode.Legal()
  {
    exists p: nat :: InPartition(w, p, cur)
      && StepBooked(w.h, w.mode, !w.buffered[p], w.rands, led, tag, prev, cur, next)
  }

  lemma SteppedIsBooked(w: World, led: Ledger, tag: Tag, prev: nat, cur: nat, next: nat)
    requires w.mode.Legal() && Stepped(w, led, tag, prev, cur, next)
    ensures tag in led
  {
  }

  lemma SteppedKept(w: World, led: Ledger, led': Ledger, tag: Tag, prev: nat, cur: nat, next: nat)
    requires w.mode.Legal() && Stepped(w, led, tag, prev, cur, next) && Kept(led, led')
    ensures Stepped(w, led', tag, prev, cur, next) && tag in led && tag in led' && led'[tag] == led[tag]
  {
    assert tag in led;
    hide StepBooked;
    var p: nat :| InPartition(w, p, cur) && StepBooked(w.h, w.mode, !w.buffered[p], w.rands, led, tag, prev, cur, next);
    StepBookedKept(w.h, w.mode, !w.buffered[p], w.rands, led, led', tag, prev, cur, next);
  }

  /**
   * A walk that stops early has a walker in some partition to show for it, whose rejection loop made its draws
   * between the two moments: it accepted the vertex it was at, or turned down `fuel` proposals.
   */
  ghost predicate WhyStopped(w: World, fuel: nat, stop: Stop, c: seq<Meter>, c': seq<Meter>)
    requires w.mode.Legal()
  {
    stop != NoStop ==> exists p: nat :: StoppedIn(w, p, fuel, stop, c, c')
  }

  ghost predicate StoppedIn(w: World, p: nat, fuel: nat, stop: Stop, c: seq<Meter>, c': seq<Meter>)
    requires w.mode.Legal()
  {
    && p < |w.pBegin| == |w.pEnd| == |w.buffered|
    && Explained(w.h, w.mode, !w.buffered[p], w.rands, fuel, stop, c, c', w.pBegin[p], w.pEnd[p])
  }

  lemma StoppedLater(w: World, fuel: nat, stop: Stop, c: seq<Meter>, c1: seq<Meter>, c': seq<Meter>)
    requires w.mode.Legal() && WhyStopped(w, fuel, stop, c1, c') && Ticked(c, c1) && Ticked(c1, c')
    ensures WhyStopped(w, fuel, stop, c, c')
  {
    hide Explained;
    if stop != NoStop {
      var p: nat :| StoppedIn(w, p, fuel, stop, c1, c');
      ExplainedLater(w.h, w.mode, !w.buffered[p], w.rands, fuel, stop, c, c1, c', w.pBegin[p], w.pEnd[p]);
      assert StoppedIn(w, p, fuel, stop, c, c');
    }
  }

  /** Static walks do not stop, and the assertion stops a walk only where there is a self-loop. */
  lemma StopMeans(w: World, fuel: nat, stop: Stop, c: seq<Meter>, c': seq<Meter>)
    requires w.mode.Legal() && WhyStopped(w, fuel, stop, c, c')
    ensures !w.mode.Node2vec? ==> stop == NoStop
    ensures stop == SelfStep ==> exists v :: w.h.Edge(v, v)
  {
    if stop != NoStop {
      var p: nat :| StoppedIn(w, p, fuel, stop, c, c');
      var v, prev, cur :| StoppedBy(w.h, w.mode, !w.buffered[p], w.rands, fuel, stop, v, prev, cur);
      if stop == SelfStep {
        SelfStepIsLoop(w.h, w.mode, !w.buffered[p], w.rands, fuel, v, prev, cur);
      }
    }
  }

  lemma GoesOn(w: World, fuel: nat, c: seq<Meter>, c': seq<Meter>)
    requires w.mode.Legal()
    ensures WhyStopped(w, fuel, NoStop, c, c')
  {
  }

  /** The tag of the block's i-th walker in this round. */
  ghost function TagOf(k: Block, i: nat): Tag {
    Tag(k.span.lo + i, k.span.step)
  }

  ghost predicate BookedBy(led: Ledger, tag: Tag, r: nat) {
    tag in led && led[tag].r == r
  }

  /** The walkers of the partitions in `done` have moved, by the threads it names for them; the others have not. */
  ghost predicate Partway(a: seq<nat>, w: World, k: Block, done: map<nat, nat>, led: Ledger)
    requires w.mode.Legal()
  {
    && |k.prev| == |k.cur| == |k.ids| <= |a|
    && forall i :: 0 <= i < |k.ids| ==> Pos(k.ids, i) < |a| && MovedIf(w, k, i, a[Pos(k.ids, i)], done, led)
  }

  ghost predicate MovedIf(w: World, k: Block, i: nat, next: nat, done: map<nat, nat>, led: Ledger)
    requires w.mode.Legal() && |k.prev| == |k.cur| == |k.ids| && i < |k.ids|
  {
    if k.ids[i] in done then
      Stepped(w, led, TagOf(k, i), k.prev[i], k.cur[i], next) && BookedBy(led, TagOf(k, i), done[k.ids[i]])
    else next == k.cur[i] && TagOf(k, i) !in led
  }

  /** Booking other walkers' steps leaves a block as it was. */
  lemma PartwayKept(a: seq<nat>, w: World, k: Block, done: map<nat, nat>, led: Ledger, led': Ledger)
    requires w.mode.Legal() && Partway(a, w, k, done, led) && Kept(led, led')
    requires forall i :: 0 <= i < |k.ids| ==> !New(led, led', TagOf(k, i))
    ensures Partway(a, w, k, done, led')
  {
    hide Less, Count, Stepped, Kept;
    forall i | 0 <= i < |k.ids|
      ensures Pos(k.ids, i) < |a| && MovedIf(w, k, i, a[Pos(k.ids, i)], done, led')
    {
      assert MovedIf(w, k, i, a[Pos(k.ids, i)], done, led);
      if k.ids[i] in done {
        SteppedKept(w, led, led', TagOf(k, i), k.prev[i], k.cur[i], a[Pos(k.ids, i)]);
      }
    }
  }

  /** The current vertices of a block lie in their partitions. */
  ghost predicate AtHome(k: Block, w: World) {
    && |k.cur| == |k.ids| && |w.pBegin| == |w.pEnd|
    && forall i :: 0 <= i < |k.ids| ==> k.ids[i] < |w.pBegin| && w.pBegin[k.ids[i]] <= k.cur[i] < w.pEnd[k.ids[i]]
  }

  lemma BucketBounds(ids: seq<nat>, n: nat, p: nat)
    requires AllBelow(ids, n) && p < n
    ensures Start(ids, p) <= Start(ids, p + 1) <= |ids|
  {
    hide Less;
    LessMono(ids, p, p + 1, |ids|);
    LessMono(ids, p + 1, n, |ids|);
    LessEnds(ids, n, |ids|);
  }

  /** An untouched bucket holds vertices of its partition, and states that are vertices. */
  lemma BucketReady(a: seq<nat>, st: seq<nat>, w: World, k: Block, done: map<nat, nat>, led: Ledger, p: nat)
    requires w.mode.Legal() && Partway(a, w, k, done, led) && Carries(st, k.ids, k.prev) && |a| == |st|
    requires AtHome(k, w) && p < |w.pBegin| && p !in done && AllBelow(k.ids, |w.pBegin|)
    requires AllBelow(k.prev, |w.h.adj|)
    ensures InRange(a, Start(k.ids, p), Start(k.ids, p + 1), w.pBegin[p], w.pEnd[p])
    ensures InRange(st, Start(k.ids, p), Start(k.ids, p + 1), 0, |w.h.adj|)
  {
    hide Less, Count, Stepped;
    BucketBounds(k.ids, |w.pBegin|, p);
    forall m | Start(k.ids, p) <= m < Start(k.ids, p + 1)
      ensures w.pBegin[p] <= a[m] < w.pEnd[p] && st[m] < |w.h.adj|
    {
      var i := SlotOwner(k.ids, |w.pBegin|, p, m);
      assert MovedIf(w, k, i, a[Pos(k.ids, i)], done, led);
    }
  }

  /** The tags of the messages, slot by slot. */
  ghost function SlotTags(k: Block, n: nat): (tags: seq<Tag>)
    requires AllBelow(k.ids, n)
    ensures |tags| == |k.ids| && forall m :: 0 <= m < |tags| ==> tags[m] == TagOf(k, OwnerOf(k.ids, n, m))
  {
    seq(|k.ids|, m requires 0 <= m < |k.ids| => TagOf(k, OwnerOf(k.ids, n, m)))
  }

  lemma SlotTagAt(k: Block, n: nat, i: nat)
    requires AllBelow(k.ids, n) && i < |k.ids|
    ensures Pos(k.ids, i) < |k.ids| && SlotTags(k, n)[Pos(k.ids, i)] == TagOf(k, i)
  {
    hide Less, Count;
    SlotFacts(k.ids, n);
    var j := OwnerOf(k.ids, n, Pos(k.ids, i));
    assert i == j;
  }

  /** The steps of an untouched bucket are not booked yet. */
  lemma BucketUnbooked(a: seq<nat>, w: World, k: Block, done: map<nat, nat>, led: Ledger, n: nat, p: nat)
    requires w.mode.Legal() && Partway(a, w, k, done, led) && AllBelow(k.ids, n) && p < n && p !in done
    ensures Unbooked(led, SlotTags(k, n), Start(k.ids, p), Start(k.ids, p + 1))
  {
    hide Less, Count, Stepped;
    BucketBounds(k.ids, n, p);
    var tags := SlotTags(k, n);
    forall m | Start(k.ids, p) <= m < Start(k.ids, p + 1)
      ensures tags[m] !in led
    {
      var i := OwnerOf(k.ids, n, m);
      InOwnBucket(k.ids, i, p);
      assert MovedIf(w, k, i, a[Pos(k.ids, i)], done, led);
    }
    forall m, m' | 0 <= m < m' < |tags|
      ensures tags[m] != tags[m']
    {
      assert Pos(k.ids, OwnerOf(k.ids, n, m)) == m && Pos(k.ids, OwnerOf(k.ids, n, m')) == m';
    }
  }

  /** A stretch of messages has stepped, and the draws of their steps, and no other, are booked. */
  ghost predicate StretchMoved(w: World, led: Ledger, led': Ledger, tags: seq<Tag>, st: seq<nat>, a: seq<nat>,
                               a': seq<nat>, b: nat, e: nat)
    requires w.mode.Legal()
  {
    && b <= e <= |tags| && e <= |st| && e <= |a| && Untouched(a, a', b, e) && Kept(led, led')
    && (forall t :: New(led, led', t) ==> t in TagsOf(tags, b, e))
    && (forall m :: b <= m < e ==> Stepped(w, led', tags[m], st[m], a[m], a'[m]))
  }

  /** Stepping one bucket moves exactly the walkers of its partition. */
  lemma BucketMoved(a: seq<nat>, a': seq<nat>, st: seq<nat>, w: World, k: Block, done: map<nat, nat>, led: Ledger,
                    led': Ledger, n: nat, p: nat, r: nat)
    requires w.mode.Legal() && Partway(a, w, k, done, led) && Carries(st, k.ids, k.prev) && NewBy(led, led', r)
    requires AllBelow(k.ids, n) && p < n && p !in done && |a| == |a'| == |st|
    requires StretchMoved(w, led, led', SlotTags(k, n), st, a, a', Start(k.ids, p), Start(k.ids, p + 1))
    ensures Partway(a', w, k, done[p := r], led')
  {
    hide Less, Count, Stepped, Kept, SlotTags;
    forall i | 0 <= i < |k.ids|
      ensures Pos(k.ids, i) < |a'| && MovedIf(w, k, i, a'[Pos(k.ids, i)], done[p := r], led')
    {
      assert MovedIf(w, k, i, a[Pos(k.ids, i)], done, led);
      InOwnBucket(k.ids, i, p);
      SlotTagAt(k, n, i);
      if k.ids[i] in done {
        SteppedKept(w, led, led', TagOf(k, i), k.prev[i], k.cur[i], a[Pos(k.ids, i)]);
      } else if k.ids[i] != p {
        OtherTag(k, n, p, i);
        assert !New(led, led', TagOf(k, i));
      } else {
        SteppedIsBooked(w, led', TagOf(k, i), k.prev[i], k.cur[i], a'[Pos(k.ids, i)]);
        assert New(led, led', TagOf(k, i));
      }
    }
  }

  /** The tag of a walker in another bucket is not among this bucket's. */
  lemma OtherTag(k: Block, n: nat, p: nat, i: nat)
    requires AllBelow(k.ids, n) && p < n && i < |k.ids| && k.ids[i] != p
    requires Start(k.ids, p) <= Start(k.ids, p + 1) <= |k.ids|
    ensures TagOf(k, i) !in TagsOf(SlotTags(k, n), Start(k.ids, p), Start(k.ids, p + 1))
  {
    hide Less, Count;
    forall m | Start(k.ids, p) <= m < Start(k.ids, p + 1)
      ensures SlotTags(k, n)[m] != TagOf(k, i)
    {
      InOwnBucket(k.ids, OwnerOf(k.ids, n, m), p);
    }
  }

  /** A bucket's newly booked steps are steps of the block's walkers. */
  lemma BucketSpan(w: World, led: Ledger, led': Ledger, k: Block, n: nat, st: seq<nat>, a: seq<nat>, a': seq<nat>,
                   b: nat, e: nat)
    requires w.mode.Legal() && AllBelow(k.ids, n) && k.span.hi == k.span.lo + |k.ids|
    requires StretchMoved(w, led, led', SlotTags(k, n), st, a, a', b, e)
    ensures BookedOnly(led, led', k.span)
  {
    hide Less, Count, Stepped, Kept;
  }

  lemma InOwnBucket(ids: seq<nat>, i: nat, p: nat)
    requires i < |ids|
    ensures Start(ids, p) <= Pos(ids, i) < Start(ids, p + 1) <==> ids[i] == p
  {
    hide Less, Count;
    PosInBucket(ids, i);
    if ids[i] < p {
      LessMono(ids, ids[i] + 1, p, |ids|);
    } else if p < ids[i] {
      LessMono(ids, p + 1, ids[i], |ids|);
    }
  }

  /** Node2vec walks have a filter to query. */
  ghost predicate Queryable(w: World)
    reads w.filter, if w.filter == null then {} else {w.filter.table}
  {
    w.mode.Node2vec? ==> w.filter != null && Ready(w.h, w.filter)
  }

  /** Stepping one task's bucket touches neither the filter nor the arrays of other samplers. */
  ghost predicate Clear(w: World, t: MessageTask, s: AnySampler) {
    && Distinct(w.rands) && t.messages !in s.Parts() && t.states !in s.Parts() && t.messages != t.states
    && (w.filter != null ==>
         w.filter !in s.Parts() && w.filter.table !in s.Parts() && w.filter.table != t.messages as object)
  }

  /** The walk of one partition's messages in one task. */
  method WalkBucket(w: World, t: MessageTask, p: nat, s: AnySampler, r: nat, fuel: nat, ghost k: Block,
                    ghost done: map<nat, nat>, ghost led: Ledger)
    returns (stop: Stop, ghost led': Ledger)
    requires w.mode.Legal() && Queryable(w) && r < |w.rands| && Clear(w, t, s)
    requires Bucketed(t, k.ids) && Carries(t.states[..], k.ids, k.prev) && Partway(t.messages[..], w, k, done, led)
    requires AtHome(k, w) && AllBelow(k.prev, |w.h.adj|) && t.partitionNum == |w.pBegin|
    requires k.span.hi == k.span.lo + |k.ids|
    requires Fits(w, p, s) && p !in done && s.Serves(w.h, w.pBegin[p], w.pEnd[p])
    modifies t.messages, w.rands[r], s.Parts()
    ensures s.Serves(w.h, w.pBegin[p], w.pEnd[p]) && Queryable(w)
    ensures Ticked(old(Clock(w.rands)), Clock(w.rands))
    ensures stop == NoStop ==> Partway(t.messages[..], w, k, done[p := r], led')
    ensures stop == NoStop ==> Books(led, led', old(Clock(w.rands)), Clock(w.rands), k.span)
    ensures WhyStopped(w, fuel, stop, old(Clock(w.rands)), Clock(w.rands))
  {
    ghost var a, st, c := t.messages[..], t.states[..], Clock(w.rands);
    ghost var tags := SlotTags(k, t.partitionNum);
    BucketBounds(k.ids, t.partitionNum, p);
    BucketReady(a, st, w, k, done, led, p);
    BucketUnbooked(a, w, k, done, led, t.partitionNum, p);
    assert |a| == |st| && Distinct(w.rands) && AllBelow(k.ids, t.partitionNum);
    var b, e := t.shuffledBegin[p], t.shuffledEnd[p];
    assert b == Start(k.ids, p) && e == Start(k.ids, p + 1);
    hide *;
    stop, led' := WalkStretch(w, t.messages, t.states, b, e, p, s, r, fuel, led, tags);
    if stop == NoStop {
      BucketMoved(a, t.messages[..], st, w, k, done, led, led', t.partitionNum, p, r);
      BucketSpan(w, led, led', k, t.partitionNum, st, a, t.messages[..], b, e);
      IsBooks(led, led', c, Clock(w.rands), k.span);
    }
  }

  lemma IsBooks(led: Ledger, led': Ledger, c: seq<Meter>, c': seq<Meter>, span: Span)
    requires Advanced(led, led', c, c') && BookedOnly(led, led', span)
    ensures Books(led, led', c, c', span)
  {
  }

  /** The sampler is of the kind that partition p has. */
  ghost predicate Fits(w: World, p: nat, s: AnySampler) {
    p < |w.pBegin| == |w.pEnd| == |w.buffered| && (s.Buffered? <==> w.buffered[p])
  }

  /** The dispatch on the kind of walk. */
  method WalkStretch(w: World, messages: array<nat>, states: array<nat>, b: nat, e: nat, p: nat, s: AnySampler,
                     r: nat, fuel: nat, ghost led: Ledger, ghost tags: seq<Tag>)
    returns (stop: Stop, ghost led': Ledger)
    requires w.mode.Legal() && Queryable(w) && r < |w.rands| && Fits(w, p, s) && s.Serves(w.h, w.pBegin[p], w.pEnd[p])
    requires messages !in s.Parts() && states !in s.Parts() && messages != states && Distinct(w.rands)
    requires w.filter != null ==>
      w.filter !in s.Parts() && w.filter.table !in s.Parts() && w.filter.table != messages as object
    requires InRange(messages[..], b, e, w.pBegin[p], w.pEnd[p]) && InRange(states[..], b, e, 0, |w.h.adj|)
    requires Unbooked(led, tags, b, e)
    modifies messages, w.rands[r], s.Parts()
    ensures s.Serves(w.h, w.pBegin[p], w.pEnd[p]) && Queryable(w) && states[..] == old(states[..])
    ensures Ticked(old(Clock(w.rands)), Clock(w.rands))
    ensures stop == NoStop ==> StretchMoved(w, led, led', tags, states[..], old(messages[..]), messages[..], b, e)
    ensures stop == NoStop ==> Advanced(led, led', old(Clock(w.rands)), Clock(w.rands)) && NewBy(led, led', r)
    ensures WhyStopped(w, fuel, stop, old(Clock(w.rands)), Clock(w.rands))
  {
    ghost var a, st, c := messages[..], states[..], Clock(w.rands);
    ghost var x := Stretch(w.h, w.mode, !w.buffered[p], w.rands, r, tags, st, a, b, e);
    var lo, hi := w.pBegin[p], w.pEnd[p];
    assert x.Legal();
    RandsApart(s, w.rands);
    hide AnySampler.Serves, AnySampler.Parts, Ready, Walked, Explained, Unbooked, Ticked, InRange;
    if w.mode.Node2vec? {
      stop, led' :=
        NodeWalkMessages(s, w.h, lo, hi, w.filter, w.mode.p, w.mode.q, messages, states, b, e, w.rands[r], fuel,
                                     x, r, c, led);
    } else {
      led' := WalkMessages(s, w.h, lo, hi, messages, b, e, w.rands[r], x, r, c, led);
      stop := NoStop;
      WalkedParts(x, led, led', c, c[r := MeterOf(w.rands[r])], messages[..]);
    }
    OneDrew(w.rands, r);
    if stop == NoStop {
      WalkedParts(x, led, led', c, Clock(w.rands), messages[..]);
      IsStretch(w, p, x, led, led', c, Clock(w.rands), messages[..]);
      GoesOn(w, fuel, c, Clock(w.rands));
    } else {
      assert StoppedIn(w, p, fuel, stop, c, Clock(w.rands));
    }
  }

  lemma WalkedParts(x: Stretch, led: Ledger, led': Ledger, c: seq<Meter>, c': seq<Meter>, after: seq<nat>)
    requires x.Legal() && Walked(x, led, led', c, c', after)
    ensures Ticked(c, c') && Advanced(led, led', c, c') && NewBy(led, led', x.r)
  {
    MidwayParts(x, led, led', c, c', after, x.e);
  }

  lemma RandsApart(s: AnySampler, rands: seq<Rand>)
    ensures forall k :: 0 <= k < |rands| ==> rands[k] !in s.Parts()
  {
  }

  lemma IsStretch(w: World, p: nat, x: Stretch, led: Ledger, led': Ledger, c: seq<Meter>, c': seq<Meter>, a': seq<nat>)
    requires w.mode.Legal() && x.Legal() && x.h == w.h && x.mode == w.mode && x.rands == w.rands
    requires p < |w.pBegin| == |w.pEnd| == |w.buffered| && x.direct == !w.buffered[p]
    requires InRange(x.before, x.b, x.e, w.pBegin[p], w.pEnd[p]) && Walked(x, led, led', c, c', a')
    ensures StretchMoved(w, led, led', x.tags, x.states, x.before, a', x.b, x.e)
  {
    MidwayParts(x, led, led', c, c', a', x.e);
    hide TagsOf, Kept, StepBooked, Advanced;
    forall m | x.b <= m < x.e
      ensures Stepped(w, led', x.tags[m], x.states[m], x.before[m], a'[m])
    {
      assert x.Stepped(led', a', m) && InPartition(w, p, x.before[m]);
    }
    forall t | New(led, led', t)
      ensures t in TagsOf(x.tags, x.b, x.e)
    {
      assert t in led'.Keys && t !in led.Keys;
    }
  }

  /** All that walking needs of a task and does not change. */
  ghost predicate Fixed(w: World, t: MessageTask, k: Block)
    reads t, t.partitionIds, t.shuffledBegin, t.shuffledEnd, t.states
  {
    && Bucketed(t, k.ids) && Carries(t.states[..], k.ids, k.prev)
    && AtHome(k, w) && AllBelow(k.prev, |w.h.adj|) && t.partitionNum == |w.pBegin| && k.span.hi == k.span.lo + |k.ids|
  }

  /** The blocks are for the same step of different walkers, all in the span. */
  ghost predicate Ranked(blocks: seq<Block>, span: Span) {
    && (forall k :: 0 <= k < |blocks| ==>
         span.lo <= blocks[k].span.lo && blocks[k].span.hi <= span.hi && blocks[k].span.step == span.step)
    && (forall j, k :: 0 <= j < k < |blocks| ==> Follows(blocks[j], blocks[k]))
  }

  ghost predicate Follows(j: Block, k: Block) {
    j.span.hi <= k.span.lo
  }

  /** Booking steps of one block leaves another one as it was. */
  lemma OtherKept(a: seq<nat>, w: World, blocks: seq<Block>, span: Span, j: nat, k: nat, done: map<nat, nat>,
                  led: Ledger, led': Ledger)
    requires w.mode.Legal() && Ranked(blocks, span) && j < |blocks| && k < |blocks| && j != k
    requires Partway(a, w, blocks[j], done, led) && Kept(led, led') && BookedOnly(led, led', blocks[k].span)
    requires blocks[j].span.hi == blocks[j].span.lo + |blocks[j].ids|
    ensures Partway(a, w, blocks[j], done, led')
  {
    hide Partway, Kept;
    assert if j < k then Follows(blocks[j], blocks[k]) else Follows(blocks[k], blocks[j]);
    PartwayKept(a, w, blocks[j], done, led, led');
  }

  ghost function Rest(t: MessageTask): set<object> {
    {t, t.partitionIds, t.shuffledBegin, t.shuffledEnd, t.states}
  }

  /**
   * Walking writes the tasks' messages, all different, and the samplers' parts, and neither belongs to
   * anything else.
   */
  ghost predicate Divided(w: World, tasks: seq<MessageTask>, msgs: set<object>, parts: set<object>) {
    && msgs !! parts && Distinct(w.rands)
    && (forall k :: 0 <= k < |tasks| ==> tasks[k].messages in msgs && Rest(tasks[k]) !! msgs && Rest(tasks[k]) !! parts)
    && (forall j, k :: 0 <= j < k < |tasks| ==> tasks[j].messages != tasks[k].messages)
    && (w.filter != null ==> w.filter !in msgs + parts && w.filter.table !in msgs + parts)
  }

  lemma DividedAt(w: World, tasks: seq<MessageTask>, msgs: set<object>, parts: set<object>, s: AnySampler, k: nat)
    requires Divided(w, tasks, msgs, parts) && s.Parts() <= parts && k < |tasks|
    ensures Clear(w, tasks[k], s) && tasks[k].messages in msgs
    ensures forall j :: 0 <= j < |tasks| && j != k ==>
      tasks[j].messages != tasks[k].messages && tasks[j].messages !in s.Parts()
    ensures forall j :: 0 <= j < |tasks| ==> Rest(tasks[j]) !! s.Parts() && tasks[k].messages !in Rest(tasks[j])
  {
    assert tasks[k].states in Rest(tasks[k]);
    forall j | 0 <= j < |tasks| && j != k
      ensures tasks[j].messages != tasks[k].messages
    {
      assert if j < k then tasks[j].messages != tasks[k].messages else tasks[k].messages != tasks[j].messages;
    }
  }

  twostate lemma FixedKept(new w: World, t: MessageTask, new k: Block)
    requires old(allocated(w))
    requires old(Fixed(w, t, k)) && unchanged(Rest(t))
    ensures Fixed(w, t, k)
  {
    hide Carries, Bucketed, AtHome;
    assert unchanged(t) && unchanged(t.shuffledBegin) && unchanged(t.shuffledEnd) && unchanged(t.states)
      && unchanged(t.partitionIds);
    BucketedKept(t, k.ids);
    assert t.states[..] == old(t.states[..]);
  }

  /** The tasks' state while one partition is walked: the first n tasks are done with it. */
  ghost predicate Walking(w: World, tasks: seq<MessageTask>, blocks: seq<Block>, n: nat, before: map<nat, nat>,
                          after: map<nat, nat>, led: Ledger)
    requires w.mode.Legal()
    reads tasks, set k | 0 <= k < |tasks| :: tasks[k].messages
    reads set k | 0 <= k < |tasks| :: tasks[k].states
    reads set k | 0 <= k < |tasks| :: tasks[k].shuffledBegin
    reads set k | 0 <= k < |tasks| :: tasks[k].shuffledEnd
    reads set k | 0 <= k < |tasks| :: tasks[k].partitionIds
  {
    && |blocks| == |tasks|
    && (forall k :: 0 <= k < |tasks| ==> Fixed(w, tasks[k], blocks[k]))
    && (forall k :: 0 <= k < |tasks| ==>
         Partway(tasks[k].messages[..], w, blocks[k], if k < n then after else before, led))
  }

  /** Task k is done with partition p; the other tasks keep what they hold. */
  method WalkTask(w: World, tasks: seq<MessageTask>, k: nat, p: nat, s: AnySampler, r: nat, fuel: nat,
                  ghost blocks: seq<Block>, ghost done: map<nat, nat>, ghost msgs: set<object>,
                    ghost parts: set<object>,
                  ghost span: Span, ghost led: Ledger)
    returns (stop: Stop, ghost led': Ledger)
    requires w.mode.Legal() && Queryable(w) && r < |w.rands| && k < |tasks| && Ranked(blocks, span)
    requires Divided(w, tasks, msgs, parts) && s.Parts() <= parts
    requires Walking(w, tasks, blocks, k, done, done[p := r], led)
    requires Fits(w, p, s) && p !in done && s.Serves(w.h, w.pBegin[p], w.pEnd[p])
    modifies tasks[k].messages, w.rands[r], s.Parts()
    ensures s.Serves(w.h, w.pBegin[p], w.pEnd[p]) && Queryable(w)
    ensures Ticked(old(Clock(w.rands)), Clock(w.rands))
    ensures stop == NoStop ==> Walking(w, tasks, blocks, k + 1, done, done[p := r], led')
    ensures stop == NoStop ==> Books(led, led', old(Clock(w.rands)), Clock(w.rands), span)
    ensures WhyStopped(w, fuel, stop, old(Clock(w.rands)), Clock(w.rands))
  {
    hide AnySampler.Serves, AnySampler.Parts, Ready, Bucketed, Carries, Partway, AtHome, Clear, Queryable, Ticked;
    hide Advanced, WhyStopped;
    DividedAt(w, tasks, msgs, parts, s, k);
    ghost var c := Clock(w.rands);
    stop, led' := WalkBucket(w, tasks[k], p, s, r, fuel, blocks[k], done, led);
    if stop == NoStop {
      BookingKept(led, led', c, Clock(w.rands));
      forall j | 0 <= j < |tasks|
        ensures Fixed(w, tasks[j], blocks[j])
      {
        FixedKept(w, tasks[j], blocks[j]);
      }
      forall j | 0 <= j < |tasks|
        ensures Partway(tasks[j].messages[..], w, blocks[j], if j < k + 1 then done[p := r] else done, led')
      {
        if j != k {
          assert tasks[j].messages[..] == old(tasks[j].messages[..]);
          OtherKept(tasks[j].messages[..], w, blocks, span, j, k, if j < k then done[p := r] else done, led, led');
        }
      }
      BooksWider(led, led', c, Clock(w.rands), blocks[k].span, span);
    }
  }

  /** One claimed partition: its sampler steps its bucket of every task. */
  method WalkPartition(w: World, tasks: seq<MessageTask>, p: nat, s: AnySampler, r: nat, fuel: nat,
                       ghost blocks: seq<Block>, ghost done: map<nat, nat>, ghost msgs: set<object>,
                       ghost parts: set<object>, ghost span: Span, ghost led: Ledger)
    returns (stop: Stop, ghost led': Ledger)
    requires w.mode.Legal() && Queryable(w) && r < |w.rands| && Ranked(blocks, span)
    requires Divided(w, tasks, msgs, parts) && s.Parts() <= parts
    requires Walking(w, tasks, blocks, 0, done, done[p := r], led)
    requires Fits(w, p, s) && p !in done && s.Serves(w.h, w.pBegin[p], w.pEnd[p])
    modifies msgs, w.rands[r], s.Parts()
    ensures s.Serves(w.h, w.pBegin[p], w.pEnd[p]) && Queryable(w)
    ensures Ticked(old(Clock(w.rands)), Clock(w.rands))
    ensures stop == NoStop ==> Walking(w, tasks, blocks, |tasks|, done, done[p := r], led')
    ensures stop == NoStop ==> Books(led, led', old(Clock(w.rands)), Clock(w.rands), span)
    ensures WhyStopped(w, fuel, stop, old(Clock(w.rands)), Clock(w.rands))
  {
    ghost var c := Clock(w.rands);
    NoBooks(led, c, span);
    GoesOn(w, fuel, c, c);
    hide AnySampler.Serves, AnySampler.Parts, Ready, Walking, Divided, Queryable, Ticked, Books, Ranked, WhyStopped;
    stop, led' := NoStop, led;
    for k := 0 to |tasks|
      invariant stop == NoStop && Queryable(w) && s.Serves(w.h, w.pBegin[p], w.pEnd[p])
      invariant Walking(w, tasks, blocks, k, done, done[p := r], led')
      invariant Books(led, led', c, Clock(w.rands), span) && Ticked(c, Clock(w.rands))
      invariant WhyStopped(w, fuel, stop, c, Clock(w.rands))
    {
      DividedAt(w, tasks, msgs, parts, s, k);
      ghost var c1, led1 := Clock(w.rands), led';
      stop, led' := WalkTask(w, tasks, k, p, s, r, fuel, blocks, done, msgs, parts, span, led1);
      TickedOn(c, c1, Clock(w.rands));
      StoppedLater(w, fuel, stop, c, c1, Clock(w.rands));
      if stop != NoStop {
        return;
      }
      BooksOn(led, led1, led', c, c1, Clock(w.rands), span);
    }
  }

  /** Partition p's turn, taken by thread r. */
  datatype Turn = Turn(p: nat, r: nat)

  /** Every partition has exactly one turn. */
  ghost predicate Schedule(turns: seq<Turn>, partitionNum: nat, threadNum: nat) {
    && |turns| == partitionNum
    && (forall i :: 0 <= i < |turns| ==> turns[i].p < partitionNum && turns[i].r < threadNum)
    && (forall i, j :: 0 <= i < j < |turns| ==> turns[i].p != turns[j].p)
  }

  lemma TurnInRange(turns: seq<Turn>, partitionNum: nat, threadNum: nat, i: nat)
    requires Schedule(turns, partitionNum, threadNum) && i < |turns|
    ensures turns[i].p < partitionNum && turns[i].r < threadNum
  {
  }

  /** The samplers serve their partitions, and no two share anything. */
  ghost predicate Staffed(w: World, samplers: seq<AnySampler>, parts: set<object>)
    reads parts
  {
    && |samplers| == |w.pBegin| == |w.pEnd|
    && (forall p :: 0 <= p < |samplers| ==> Fits(w, p, samplers[p]))
    && (forall p :: 0 <= p < |samplers| ==>
         samplers[p].Parts() <= parts && samplers[p].Serves(w.h, w.pBegin[p], w.pEnd[p]))
    && (forall p, q :: 0 <= p < q < |samplers| ==> samplers[p].Parts() !! samplers[q].Parts())
  }

  lemma StaffedAt(w: World, samplers: seq<AnySampler>, parts: set<object>, p: nat)
    requires Staffed(w, samplers, parts) && p < |samplers|
    ensures |samplers| == |w.pBegin| == |w.pEnd| && Fits(w, p, samplers[p])
    ensures samplers[p].Parts() <= parts && samplers[p].Serves(w.h, w.pBegin[p], w.pEnd[p])
  {
  }

  /** Work of partition p leaves the other samplers alone. */
  twostate lemma StaffedKept(new w: World, new samplers: seq<AnySampler>, parts: set<object>, new p: nat)
    requires old(allocated(w)) && old(allocated(samplers))
    requires old(Staffed(w, samplers, parts)) && p < |samplers| && p < |w.pBegin| == |w.pEnd|
    requires samplers[p].Serves(w.h, w.pBegin[p], w.pEnd[p])
    requires forall q :: 0 <= q < |samplers| && q != p ==> unchanged(samplers[q].Parts())
    ensures Staffed(w, samplers, parts)
  {
    hide AnySampler.Serves, AnySampler.Parts;
    forall q | 0 <= q < |samplers|
      ensures samplers[q].Serves(w.h, w.pBegin[q], w.pEnd[q])
    {
      if q != p {
        assert old(samplers[q].Serves(w.h, w.pBegin[q], w.pEnd[q]));
      }
    }
  }

  lemma OtherParts(w: World, samplers: seq<AnySampler>, msgs: set<object>, parts: set<object>, p: nat, r: nat)
    requires Staffed(w, samplers, parts) && msgs !! parts && p < |samplers| && r < |w.rands|
    ensures forall q :: 0 <= q < |samplers| && q != p ==>
      samplers[q].Parts() !! samplers[p].Parts() && samplers[q].Parts() !! msgs && w.rands[r] !in samplers[q].Parts()
  {
    hide AnySampler.Serves;
    forall q | 0 <= q < |samplers| && q != p
      ensures samplers[q].Parts() !! samplers[p].Parts() && samplers[q].Parts() !! msgs
      ensures w.rands[r] !in samplers[q].Parts()
    {
      RandApart(samplers[q], w.rands[r]);
      assert if q < p then samplers[q].Parts() !! samplers[p].Parts() else samplers[p].Parts() !! samplers[q].Parts();
    }
  }

  lemma WalkingOn(w: World, tasks: seq<MessageTask>, blocks: seq<Block>, before: map<nat, nat>, after: map<nat, nat>,
                  next: map<nat, nat>, led: Ledger)
    requires w.mode.Legal() && Walking(w, tasks, blocks, |tasks|, before, after, led)
    ensures Walking(w, tasks, blocks, 0, after, next, led)
  {
  }

  method WalkTurn(w: World, tasks: seq<MessageTask>, samplers: seq<AnySampler>, turn: Turn, fuel: nat,
                  ghost blocks: seq<Block>, ghost done: map<nat, nat>, ghost next: map<nat, nat>,
                    ghost msgs: set<object>, ghost parts: set<object>,
                  ghost span: Span, ghost led: Ledger)
    returns (stop: Stop, ghost led': Ledger)
    requires w.mode.Legal() && Queryable(w) && turn.r < |w.rands| && turn.p < |samplers| && turn.p !in done
    requires Ranked(blocks, span)
    requires Divided(w, tasks, msgs, parts) && Staffed(w, samplers, parts)
    requires Walking(w, tasks, blocks, 0, done, next, led) && next == done[turn.p := turn.r]
    modifies msgs, parts, w.rands[turn.r]
    ensures Staffed(w, samplers, parts) && Queryable(w)
    ensures Ticked(old(Clock(w.rands)), Clock(w.rands))
    ensures stop == NoStop ==> Walking(w, tasks, blocks, |tasks|, done, next, led')
    ensures stop == NoStop ==> Books(led, led', old(Clock(w.rands)), Clock(w.rands), span)
    ensures WhyStopped(w, fuel, stop, old(Clock(w.rands)), Clock(w.rands))
  {
    StaffedAt(w, samplers, parts, turn.p);
    OtherParts(w, samplers, msgs, parts, turn.p, turn.r);
    hide AnySampler.Serves, Ready, Walking, Divided, Staffed, Queryable, Ticked, Books, Ranked, WhyStopped;
    stop, led' := WalkPartition(w, tasks, turn.p, samplers[turn.p], turn.r, fuel, blocks, done, msgs, parts, span, led);
    StaffedKept(w, samplers, parts, turn.p);
  }

  /** The partitions that had one of the first n turns, and the threads that took them. */
  ghost function Taken(turns: seq<Turn>, n: nat): (m: map<nat, nat>)
    requires n <= |turns|
  {
    if n == 0 then map[] else Taken(turns, n - 1)[turns[n - 1].p := turns[n - 1].r]
  }

  lemma {:induction false} TakenIff(turns: seq<Turn>, n: nat, p: nat)
    requires n <= |turns|
    ensures p in Taken(turns, n) <==> exists i :: 0 <= i < n && turns[i].p == p
  {
    if n != 0 {
      TakenIff(turns, n - 1, p);
      assert turns[n - 1].p == p ==> exists i :: 0 <= i < n && turns[i].p == p;
    }
  }

  /** Whoever had the turn is named for the partition. */
  lemma {:induction false} TakenBy(turns: seq<Turn>, partitionNum: nat, threadNum: nat, n: nat, i: nat)
    requires Schedule(turns, partitionNum, threadNum) && i < n <= |turns|
    ensures turns[i].p in Taken(turns, n) && Taken(turns, n)[turns[i].p] == turns[i].r
    decreases n
  {
    if i < n - 1 {
      TakenBy(turns, partitionNum, threadNum, n - 1, i);
      assert turns[i].p != turns[n - 1].p;
    }
  }

  lemma TakenNext(turns: seq<Turn>, partitionNum: nat, threadNum: nat, n: nat)
    requires Schedule(turns, partitionNum, threadNum) && n < |turns|
    ensures turns[n].p !in Taken(turns, n) && Taken(turns, n + 1) == Taken(turns, n)[turns[n].p := turns[n].r]
  {
    TakenIff(turns, n, turns[n].p);
  }

  /** After all turns every partition was walked. */
  lemma AllTaken(turns: seq<Turn>, partitionNum: nat, threadNum: nat, p: nat)
    requires Schedule(turns, partitionNum, threadNum) && p < partitionNum
    ensures p in Taken(turns, |turns|)
  {
    var w := seq<nat>(|turns|, i requires 0 <= i < |turns| => turns[i].p);
    assert IsPerm(w);
    Surjective(w, p);
    var i :| 0 <= i < |w| && w[i] == p;
    assert turns[i].p == p;
    TakenIff(turns, |turns|, p);
  }

  /** WalkManager::walk for one schedule of the claimed partitions over the threads. */
  method WalkAll(w: World, tasks: seq<MessageTask>, samplers: seq<AnySampler>, turns: seq<Turn>, fuel: nat,
                 ghost blocks: seq<Block>, ghost msgs: set<object>, ghost parts: set<object>, ghost span: Span,
                 ghost led: Ledger)
    returns (stop: Stop, ghost led': Ledger)
    requires w.mode.Legal() && Queryable(w) && Schedule(turns, |samplers|, |w.rands|) && Ranked(blocks, span)
    requires Divided(w, tasks, msgs, parts) && Staffed(w, samplers, parts)
    requires Walking(w, tasks, blocks, 0, map[], map[], led)
    modifies msgs, parts, w.rands
    ensures Staffed(w, samplers, parts) && Queryable(w)
    ensures Ticked(old(Clock(w.rands)), Clock(w.rands))
    ensures stop == NoStop ==> Walking(w, tasks, blocks, 0, Taken(turns, |turns|), map[], led')
    ensures stop == NoStop ==> Books(led, led', old(Clock(w.rands)), Clock(w.rands), span)
    ensures WhyStopped(w, fuel, stop, old(Clock(w.rands)), Clock(w.rands))
  {
    ghost var c := Clock(w.rands);
    NoBooks(led, c, span);
    GoesOn(w, fuel, c, c);
    hide *;
    stop, led' := NoStop, led;
    WalkingFrom(w, tasks, blocks, map[], map[], map[], led);
    NoneTakenYet(turns);
    ghost var done := Taken(turns, 0);
    for i := 0 to |turns|
      invariant stop == NoStop && Queryable(w) && Staffed(w, samplers, parts)
      invariant Walking(w, tasks, blocks, 0, done, map[], led') && done == Taken(turns, i)
      invariant Books(led, led', c, Clock(w.rands), span) && Ticked(c, Clock(w.rands))
      invariant WhyStopped(w, fuel, stop, c, Clock(w.rands))
    {
      ghost var next, c1, led1 := Taken(turns, i + 1), Clock(w.rands), led';
      TakenNext(turns, |samplers|, |w.rands|, i);
      TurnInRange(turns, |samplers|, |w.rands|, i);
      WalkingFrom(w, tasks, blocks, done, map[], next, led1);
      stop, led' := WalkTurn(w, tasks, samplers, turns[i], fuel, blocks, done, next, msgs, parts, span, led1);
      TickedOn(c, c1, Clock(w.rands));
      StoppedLater(w, fuel, stop, c, c1, Clock(w.rands));
      if stop != NoStop {
        return;
      }
      BooksOn(led, led1, led', c, c1, Clock(w.rands), span);
      WalkingOn(w, tasks, blocks, done, next, map[], led');
      done := next;
    }
  }

  lemma NoneTakenYet(turns: seq<Turn>)
    ensures Taken(turns, 0) == map[]
  {
  }

  lemma WalkingFrom(w: World, tasks: seq<MessageTask>, blocks: seq<Block>, before: map<nat, nat>, after: map<nat, nat>,
                    next: map<nat, nat>, led: Ledger)
    requires w.mode.Legal() && Walking(w, tasks, blocks, 0, before, after, led)
    ensures Walking(w, tasks, blocks, 0, before, next, led)
  {
  }
}
