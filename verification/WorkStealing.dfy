/**
 * Chunked work stealing over walker ranges: WalkerManager::process_walkers of src/core/walker.hpp, as a
 * state machine over atomic steps. A thread takes chunks from its own queue by fetch-and-add until the
 * queue is used up, marks it complete, and then does the same with the other threads' queues.
 */
module WorkStealing {
  import opened Arith
  import opened Perm
  import opened Stepping
  import opened WalkerRanges

  const CHUNK: nat := 64

  /** Where a thread is; v is the queue it is at, counted along its own order of visits. */
  datatype Pc =
    | Check(v: nat)                      // about to read the queue's status
    | Fetch(v: nat)                      // the queue was working; about to move its cursor
    | Work(v: nat, i: nat, stop: nat)    // has the indices from i on, up to stop
    | Leave(v: nat)                      // is done with the queue
    | Done

  /** Queue k holds [begin[k], end[k]); thread j visits the queues in the order order[j], its own one first. */
  datatype Config = Config(begin: seq<nat>, end: seq<nat>, order: seq<seq<nat>>) {

    ghost predicate Valid() {
      && |begin| == |end| == |order|
      && (forall k :: 0 <= k < |end| ==> end[k] < TWO32 && begin[k] < TWO32)
      && (forall j :: 0 <= j < |order| ==> OrderOk(j))
    }

    ghost predicate OrderOk(j: nat)
      requires j < |order|
    {
      IsPerm(order[j]) && |order[j]| == |order| && order[j][0] == j
    }

    /** No index lies in two queues. */
    ghost predicate Disjoint()
      requires |begin| == |end|
    {
      forall k, l :: 0 <= k < l < |end| ==> NoOverlap(k, l)
    }

    ghost predicate NoOverlap(k: nat, l: nat)
      requires k < |begin| == |end| && l < |end|
    {
      end[k] <= begin[k] || end[l] <= begin[l] || end[k] <= begin[l] || end[l] <= begin[k]
    }

    /** The highest value a cursor can reach: one chunk past its range, and one more for each thread. */
    ghost function Limit(k: nat): nat
      requires k < |begin| == |end|
    {
      Max(begin[k], end[k] + CHUNK - 1) + CHUNK * |order|
    }

    /** No cursor can wrap. */
    ghost predicate Room()
      requires |begin| == |end|
    {
      forall k :: 0 <= k < |end| ==> Limit(k) < TWO32
    }

    /** Where the cursor stands once all of queue k has been handed out. */
    function Top(k: nat): nat
      requires k < |begin| == |end|
    {
      if end[k] <= begin[k] then begin[k] else begin[k] + CHUNK * CeilDiv(end[k] - begin[k], CHUNK)
    }

    /** Every thread can read a cursor that has not wrapped when it finds the queue used up. */
    predicate Roomy(k: nat)
      requires k < |begin| == |end|
    {
      Top(k) + CHUNK * (|order| - 1) < TWO32
    }

    /** A wrapped cursor does no harm to queue k: it is not read, or it still is not below the end. */
    predicate FitsAt(k: nat)
      requires k < |begin| == |end|
    {
      Roomy(k) || end[k] <= begin[k] % CHUNK
    }

    predicate Fits()
      requires |begin| == |end|
    {
      forall k :: 0 <= k < |end| ==> FitsAt(k)
    }
  }

  /** The log records which thread processed which index. */
  datatype State = State(curr: seq<nat>, working: seq<bool>, pcs: seq<Pc>, log: seq<Turn>)

  ghost predicate Init(c: Config, s: State) {
    && s.curr == c.begin && |s.working| == |s.pcs| == |c.order| && s.log == []
    && (forall k :: 0 <= k < |s.working| ==> s.working[k])
    && (forall j :: 0 <= j < |s.pcs| ==> s.pcs[j] == Check(0))
  }

  ghost predicate Shape(c: Config, s: State) {
    |c.begin| == |c.end| == |c.order| == |s.curr| == |s.working| == |s.pcs|
  }

  /** The queue thread j is at. */
  ghost predicate At(c: Config, s: State, j: nat, v: nat, k: nat) {
    Shape(c, s) && j < |c.order| && v < |c.order[j]| && c.order[j][v] == k < |c.order|
  }

  ghost predicate ReadStatus(c: Config, s: State, s': State, j: nat, v: nat, k: nat) {
    && At(c, s, j, v, k) && s.pcs[j] == Check(v)
    && s' == s.(pcs := s.pcs[j := if s.working[k] then Fetch(v) else Leave(v)])
  }

  /** Fetch-and-add on 32-bit cursors, and the end of the chunk in 32-bit arithmetic. */
  ghost predicate FetchAdd(c: Config, s: State, s': State, j: nat, v: nat, k: nat) {
    && At(c, s, j, v, k) && s.pcs[j] == Fetch(v)
    && var b := s.curr[k];
       s' == s.(curr := s.curr[k := (b + CHUNK) % TWO32],
                pcs := s.pcs[j := if b < c.end[k] then Work(v, b, Min((b + CHUNK) % TWO32, c.end[k])) else Leave(v)])
  }

  ghost predicate Process(c: Config, s: State, s': State, j: nat, v: nat, k: nat) {
    && At(c, s, j, v, k) && s.pcs[j].Work? && s.pcs[j].v == v
    && var i := s.pcs[j].i;
       s' == if i < s.pcs[j].stop then s.(pcs := s.pcs[j := Work(v, i + 1, s.pcs[j].stop)], log := s.log + [Turn(i, j)])
             else s.(pcs := s.pcs[j := Check(v)])
  }

  ghost predicate MoveOn(c: Config, s: State, s': State, j: nat, v: nat, k: nat) {
    && At(c, s, j, v, k) && s.pcs[j] == Leave(v)
    && s' == s.(working := if v == 0 then s.working[k := false] else s.working,
                pcs := s.pcs[j := if v + 1 == |c.order| then Done else Check(v + 1)])
  }

  ghost predicate Move(c: Config, s: State, s': State, j: nat, v: nat, k: nat) {
    ReadStatus(c, s, s', j, v, k) || FetchAdd(c, s, s', j, v, k) || Process(c, s, s', j, v, k)
      || MoveOn(c, s, s', j, v, k)
  }

  ghost predicate Next(c: Config, s: State, s': State) {
    exists j: nat, v: nat, k: nat :: Move(c, s, s', j, v, k)
  }

  ghost predicate Run(c: Config, trace: seq<State>) {
    && 0 < |trace| && Init(c, trace[0])
    && forall n :: 0 <= n < |trace| - 1 ==> Next(c, trace[n], trace[n + 1])
  }

  ghost predicate AllDone(s: State) {
    forall j :: 0 <= j < |s.pcs| ==> s.pcs[j] == Done
  }

  // ----- The invariant -----

  /** How many queues of its order the thread is done with. */
  ghost function Progress(c: Config, pc: Pc): nat {
    match pc
    case Check(v) => v
    case Fetch(v) => v
    case Work(v, _, _) => v
    case Leave(v) => v + 1
    case Done => |c.order|
  }

  /** Thread j is done with queue k. */
  ghost predicate Past(c: Config, j: nat, pc: Pc, k: nat)
    requires j < |c.order|
  {
    Progress(c, pc) <= |c.order[j]| && k in c.order[j][..Progress(c, pc)]
  }

  /** How many of the first n threads are done with queue k. */
  ghost function PastCount(c: Config, pcs: seq<Pc>, k: nat, n: nat): (r: nat)
    requires n <= |pcs| == |c.order|
    ensures r <= n
  {
    if n == 0 then 0 else PastCount(c, pcs, k, n - 1) + (if Past(c, n - 1, pcs[n - 1], k) then 1 else 0)
  }

  /** All threads are done with queue k, so its cursor will not be read again. */
  ghost predicate AllPast(c: Config, s: State, k: nat)
    requires Shape(c, s)
  {
    PastCount(c, s.pcs, k, |s.pcs|) == |s.pcs|
  }

  /** Index x of queue k has been handed out. */
  ghost predicate Given(c: Config, s: State, k: nat, x: nat)
    requires Shape(c, s) && k < |s.curr|
  {
    c.begin[k] <= x < c.end[k] && (x < s.curr[k] || AllPast(c, s, k))
  }

  /** All of queue k has been handed out. */
  ghost predicate Emptied(c: Config, s: State, k: nat)
    requires Shape(c, s) && k < |s.curr|
  {
    forall x: nat :: c.begin[k] <= x < c.end[k] ==> Given(c, s, k, x)
  }

  /** Where the cursor of queue k can be. */
  ghost predicate CursorOk(c: Config, s: State, k: nat)
    requires Shape(c, s) && k < |s.curr|
  {
    && s.curr[k] % CHUNK == c.begin[k] % CHUNK
    && (c.Roomy(k) ==> s.curr[k] <= c.Top(k) + CHUNK * PastCount(c, s.pcs, k, |s.pcs|))
    && (c.Roomy(k) && !AllPast(c, s, k) ==> c.begin[k] <= s.curr[k])
  }

  ghost predicate InHand(s: State, j: nat, x: nat)
    requires j < |s.pcs|
  {
    s.pcs[j].Work? && s.pcs[j].i <= x < s.pcs[j].stop
  }

  ghost predicate Logged(s: State, x: nat, e: nat)
    requires e < |s.log|
  {
    s.log[e].p == x
  }

  /** Somebody processed the index or is about to. */
  ghost predicate Accounted(s: State, x: nat) {
    || (exists j :: 0 <= j < |s.pcs| && InHand(s, j, x))
    || (exists e :: 0 <= e < |s.log| && Logged(s, x, e))
  }

  ghost predicate QueueOk(c: Config, s: State, k: nat)
    requires Shape(c, s) && k < |s.curr|
  {
    && CursorOk(c, s, k)
    && (forall x :: Given(c, s, k, x) ==> Accounted(s, x))
    && (0 < Progress(c, s.pcs[k]) ==> Emptied(c, s, k))
    && (!s.working[k] ==> 0 < Progress(c, s.pcs[k]))
  }

  ghost predicate ThreadOk(c: Config, s: State, j: nat)
    requires Shape(c, s) && j < |s.pcs|
  {
    var pc := s.pcs[j];
    && (pc == Done || (pc.v < |c.order| && pc.v < |c.order[j]|))
    && (pc.Work? && pc.i < pc.stop ==>
         c.order[j][pc.v] < |s.curr| && Given(c, s, c.order[j][pc.v], pc.i)
           && Given(c, s, c.order[j][pc.v], pc.stop - 1))
  }

  ghost predicate HandsApart(s: State, i: nat, j: nat)
    requires i < |s.pcs| && j < |s.pcs|
  {
    forall x :: InHand(s, i, x) ==> !InHand(s, j, x)
  }

  ghost predicate EntryOk(c: Config, s: State, e: nat)
    requires Shape(c, s) && e < |s.log|
  {
    && s.log[e].r < |c.order|
    && (exists k :: 0 <= k < |s.curr| && Given(c, s, k, s.log[e].p))
    && (forall j :: 0 <= j < |s.pcs| ==> !InHand(s, j, s.log[e].p))
  }

  ghost predicate Inv(c: Config, s: State) {
    && Shape(c, s)
    && (forall k :: 0 <= k < |s.curr| ==> QueueOk(c, s, k))
    && (forall j :: 0 <= j < |s.pcs| ==> ThreadOk(c, s, j))
    && (forall i, j :: 0 <= i < j < |s.pcs| ==> HandsApart(s, i, j))
    && (forall e :: 0 <= e < |s.log| ==> EntryOk(c, s, e))
    && (forall e, f :: 0 <= e < f < |s.log| ==> s.log[e].p != s.log[f].p)
  }

  // ----- Counting the threads that are done with a queue -----

  lemma {:induction false} PastSet(c: Config, pcs: seq<Pc>, k: nat, n: nat, j: nat, pc: Pc)
    requires n <= |pcs| == |c.order| && j < |pcs|
    ensures PastCount(c, pcs[j := pc], k, n) == PastCount(c, pcs, k, n)
      + (if j < n then (if Past(c, j, pc, k) then 1 else 0) - (if Past(c, j, pcs[j], k) then 1 else 0) else 0)
  {
    hide Past;
    if n != 0 {
      PastSet(c, pcs, k, n - 1, j, pc);
    }
  }

  /** A thread that gets on stays done with what it was done with. */
  lemma PastStays(c: Config, j: nat, pc: Pc, pc': Pc, k: nat)
    requires j < |c.order| && Progress(c, pc) <= Progress(c, pc') <= |c.order[j]|
    ensures Past(c, j, pc, k) ==> Past(c, j, pc', k)
  {
    if Past(c, j, pc, k) {
      var w := c.order[j];
      var i :| 0 <= i < Progress(c, pc) && w[..Progress(c, pc)][i] == k;
      assert w[..Progress(c, pc')][i] == k;
    }
  }

  /** Leaving a queue is what makes a thread done with it. */
  lemma PastNow(c: Config, j: nat, v: nat, k: nat)
    requires c.Valid() && j < |c.order| && v < |c.order[j]| && c.order[j][v] == k
    ensures !Past(c, j, Fetch(v), k) && Past(c, j, Leave(v), k)
  {
    var w := c.order[j];
    assert c.OrderOk(j);
    forall i | 0 <= i < v
      ensures w[..v][i] != k
    {
      assert w[i] != w[v];
    }
    assert w[..v + 1][v] == k;
  }

  lemma {:induction false} CountedAll(c: Config, pcs: seq<Pc>, k: nat, n: nat, j: nat)
    requires j < n <= |pcs| == |c.order| && PastCount(c, pcs, k, n) == n
    ensures Past(c, j, pcs[j], k)
  {
    if j < n - 1 {
      CountedAll(c, pcs, k, n - 1, j);
    }
  }

  /** When all threads are done with a queue, so is its owner. */
  lemma OwnerPast(c: Config, s: State, k: nat)
    requires Shape(c, s) && k < |s.pcs| && AllPast(c, s, k)
    ensures 0 < Progress(c, s.pcs[k])
  {
    CountedAll(c, s.pcs, k, |s.pcs|, k);
  }

  lemma {:induction false} CountedNot(c: Config, pcs: seq<Pc>, k: nat, n: nat, j: nat)
    requires j < n <= |pcs| == |c.order| && !Past(c, j, pcs[j], k)
    ensures PastCount(c, pcs, k, n) < n
  {
    if j < n - 1 {
      CountedNot(c, pcs, k, n - 1, j);
    }
  }

  /** s' is s but for thread j's place, which did not go back, and perhaps the cursors and the log. */
  ghost predicate Onward(c: Config, s: State, s': State, j: nat) {
    && Shape(c, s) && Shape(c, s') && j < |s.pcs| && s'.pcs == s.pcs[j := s'.pcs[j]]
    && Progress(c, s.pcs[j]) <= Progress(c, s'.pcs[j]) <= |c.order| == |c.order[j]|
  }

  lemma CountsOnward(c: Config, s: State, s': State, j: nat, k: nat)
    requires Onward(c, s, s', j)
    ensures PastCount(c, s.pcs, k, |s.pcs|) <= PastCount(c, s'.pcs, k, |s'.pcs|)
    ensures AllPast(c, s, k) ==> AllPast(c, s', k)
  {
    hide Past, Progress;
    PastSet(c, s.pcs, k, |s.pcs|, j, s'.pcs[j]);
    PastStays(c, j, s.pcs[j], s'.pcs[j], k);
  }

  /** A queue whose cursor stays put has no more handed out than before, and no less. */
  lemma SameGiven(c: Config, s: State, s': State, j: nat, k: nat)
    requires Onward(c, s, s', j) && k < |s.curr| && s'.curr[k] == s.curr[k]
    requires 0 < Progress(c, s.pcs[k]) ==> Emptied(c, s, k)
    requires k == j && 0 < Progress(c, s'.pcs[j]) ==> Emptied(c, s, j)
    ensures forall x :: Given(c, s', k, x) <==> Given(c, s, k, x)
  {
    hide Past, PastCount, Progress;
    CountsOnward(c, s, s', j, k);
    if AllPast(c, s', k) && !AllPast(c, s, k) {
      OwnerPast(c, s', k);
      assert Emptied(c, s, k);
    }
  }

  // ----- Every step keeps the invariant -----

  lemma {:induction false} NonePast(c: Config, pcs: seq<Pc>, k: nat, n: nat)
    requires n <= |pcs| == |c.order| && forall j :: 0 <= j < n ==> pcs[j] == Check(0)
    ensures PastCount(c, pcs, k, n) == 0
  {
    if n != 0 {
      NonePast(c, pcs, k, n - 1);
    }
  }

  lemma InitInv(c: Config, s: State)
    requires c.Valid() && Init(c, s)
    ensures Inv(c, s)
  {
    forall k | 0 <= k < |s.curr|
      ensures QueueOk(c, s, k)
    {
      NonePast(c, s.pcs, k, |s.pcs|);
    }
    forall j | 0 <= j < |s.pcs|
      ensures ThreadOk(c, s, j)
    {
      assert c.OrderOk(j);
    }
  }

  /** s' is s but for thread j's place, which moved on without taking or giving up an index. */
  ghost predicate Quiet(c: Config, s: State, s': State, j: nat) {
    && Onward(c, s, s', j) && s'.curr == s.curr && s'.log == s.log
    && (forall x :: !InHand(s, j, x)) && !s'.pcs[j].Work?
    && (s'.pcs[j] == Done || s'.pcs[j].v < |c.order|)
    && (0 < Progress(c, s'.pcs[j]) ==> Emptied(c, s, j))
    && (forall k :: 0 <= k < |s'.working| && !s'.working[k] ==> !s.working[k] || (k == j && 0 < Progress(c, s'.pcs[j])))
  }

  lemma QuietInv(c: Config, s: State, s': State, j: nat)
    requires c.Valid() && Inv(c, s) && Quiet(c, s, s', j)
    ensures Inv(c, s')
  {
    hide Past, PastCount, Progress, Accounted, CursorOk, Given, Emptied;
    forall k | 0 <= k < |s'.curr|
      ensures QueueOk(c, s', k)
    {
      QuietQueue(c, s, s', j, k);
    }
    forall i | 0 <= i < |s'.pcs|
      ensures ThreadOk(c, s', i)
    {
      assert ThreadOk(c, s, i);
      if s'.pcs[i].Work? && s'.pcs[i].i < s'.pcs[i].stop {
        assert QueueOk(c, s, c.order[i][s.pcs[i].v]);
        SameGiven(c, s, s', j, c.order[i][s.pcs[i].v]);
      }
    }
    forall a, b | 0 <= a < b < |s'.pcs|
      ensures HandsApart(s', a, b)
    {
      assert HandsApart(s, a, b);
      SameHands(s, s', j, a);
      SameHands(s, s', j, b);
    }
    forall e | 0 <= e < |s'.log|
      ensures EntryOk(c, s', e)
    {
      QuietEntry(c, s, s', j, e);
    }
  }

  lemma QuietQueue(c: Config, s: State, s': State, j: nat, k: nat)
    requires c.Valid() && Inv(c, s) && Quiet(c, s, s', j) && k < |s.curr|
    ensures QueueOk(c, s', k)
  {
    hide Past, PastCount, Progress, Accounted;
    assert QueueOk(c, s, k);
    SameGiven(c, s, s', j, k);
    CountsOnward(c, s, s', j, k);
    MulMono(PastCount(c, s.pcs, k, |s.pcs|), PastCount(c, s'.pcs, k, |s'.pcs|), CHUNK);
    forall x | Given(c, s', k, x)
      ensures Accounted(s', x)
    {
      SameAccount(s, s', j, x);
    }
  }

  lemma SameHands(s: State, s': State, j: nat, a: nat)
    requires |s.pcs| == |s'.pcs| && j < |s.pcs| && a < |s.pcs| && s'.pcs == s.pcs[j := s'.pcs[j]]
    requires (forall x :: !InHand(s, j, x)) && !s'.pcs[j].Work?
    ensures forall x :: InHand(s', a, x) <==> InHand(s, a, x)
  {
    assert a == j ==> forall x :: !InHand(s', a, x);
  }

  lemma SameAccount(s: State, s': State, j: nat, x: nat)
    requires |s.pcs| == |s'.pcs| && j < |s.pcs| && s'.pcs == s.pcs[j := s'.pcs[j]] && s'.log == s.log
    requires !InHand(s, j, x) && Accounted(s, x)
    ensures Accounted(s', x)
  {
    if e :| 0 <= e < |s.log| && Logged(s, x, e) {
      assert Logged(s', x, e);
    } else {
      var i :| 0 <= i < |s.pcs| && InHand(s, i, x);
      assert InHand(s', i, x);
    }
  }

  lemma QuietEntry(c: Config, s: State, s': State, j: nat, e: nat)
    requires c.Valid() && Inv(c, s) && Quiet(c, s, s', j) && e < |s.log|
    ensures EntryOk(c, s', e)
  {
    hide Past, PastCount, Progress, Given, Emptied, CursorOk, Accounted;
    assert EntryOk(c, s, e);
    var k :| 0 <= k < |s.curr| && Given(c, s, k, s.log[e].p);
    assert QueueOk(c, s, k);
    SameGiven(c, s, s', j, k);
    assert Given(c, s', k, s'.log[e].p);
    forall i | 0 <= i < |s'.pcs|
      ensures !InHand(s', i, s'.log[e].p)
    {
      SameHands(s, s', j, i);
    }
  }

  lemma ReadStatusInv(c: Config, s: State, s': State, j: nat, v: nat, k: nat)
    requires c.Valid() && Inv(c, s) && ReadStatus(c, s, s', j, v, k)
    ensures Inv(c, s')
  {
    assert c.OrderOk(j) && QueueOk(c, s, j) && ThreadOk(c, s, j);
    QuietInv(c, s, s', j);
  }

  lemma MoveOnInv(c: Config, s: State, s': State, j: nat, v: nat, k: nat)
    requires c.Valid() && Inv(c, s) && MoveOn(c, s, s', j, v, k)
    ensures Inv(c, s')
  {
    assert c.OrderOk(j) && QueueOk(c, s, j);
    QuietInv(c, s, s', j);
  }

  lemma ProcessInv(c: Config, s: State, s': State, j: nat, v: nat, k: nat)
    requires c.Valid() && Inv(c, s) && Process(c, s, s', j, v, k)
    ensures Inv(c, s')
  {
    assert c.OrderOk(j) && QueueOk(c, s, j) && ThreadOk(c, s, j);
    if s.pcs[j].i < s.pcs[j].stop {
      OneIndexInv(c, s, s', j, v, k);
    } else {
      QuietInv(c, s, s', j);
    }
  }

  /** Processing one index moves it from the thread's hand to the log. */
  lemma OneIndexInv(c: Config, s: State, s': State, j: nat, v: nat, k: nat)
    requires c.Valid() && Inv(c, s) && Process(c, s, s', j, v, k) && s.pcs[j].i < s.pcs[j].stop
    ensures Inv(c, s')
  {
    hide Past, PastCount;
    var y := s.pcs[j].i;
    assert ThreadOk(c, s, j);
    forall l | 0 <= l < |s'.curr|
      ensures QueueOk(c, s', l)
    {
      OneIndexQueue(c, s, s', j, v, k, l);
    }
    forall i | 0 <= i < |s'.pcs|
      ensures ThreadOk(c, s', i)
    {
      assert ThreadOk(c, s, i);
      if s.pcs[i].Work? && s.pcs[i].i < s.pcs[i].stop {
        SameCount(c, s, s', j, c.order[i][s.pcs[i].v]);
      }
    }
    forall a, b | 0 <= a < b < |s'.pcs|
      ensures HandsApart(s', a, b)
    {
      assert HandsApart(s, a, b);
      FewerHands(s, s', j, a);
      FewerHands(s, s', j, b);
    }
    forall e | 0 <= e < |s'.log|
      ensures EntryOk(c, s', e)
    {
      LoggedEntry(c, s, s', j, k, e);
    }
    forall e, f | 0 <= e < f < |s'.log|
      ensures s'.log[e].p != s'.log[f].p
    {
      if f == |s.log| {
        assert EntryOk(c, s, e) && InHand(s, j, y);
      }
    }
  }

  lemma SamePast(c: Config, j: nat, pc: Pc, pc': Pc, k: nat)
    requires j < |c.order| && Progress(c, pc) == Progress(c, pc')
    ensures Past(c, j, pc, k) <==> Past(c, j, pc', k)
  {
  }

  lemma OneIndexQueue(c: Config, s: State, s': State, j: nat, v: nat, k: nat, l: nat)
    requires c.Valid() && Inv(c, s) && Process(c, s, s', j, v, k) && s.pcs[j].i < s.pcs[j].stop && l < |s.curr|
    ensures QueueOk(c, s', l)
  {
    hide Past, PastCount, Accounted;
    assert QueueOk(c, s, l);
    SameCount(c, s, s', j, l);
    assert forall x :: Given(c, s', l, x) <==> Given(c, s, l, x);
    assert Emptied(c, s, l) ==> Emptied(c, s', l);
    forall x | Given(c, s', l, x)
      ensures Accounted(s', x)
    {
      LoggedAccount(s, s', j, x);
    }
  }

  lemma SameCount(c: Config, s: State, s': State, j: nat, k: nat)
    requires Shape(c, s) && Shape(c, s') && j < |s.pcs| && s'.pcs == s.pcs[j := s'.pcs[j]]
    requires Progress(c, s.pcs[j]) == Progress(c, s'.pcs[j])
    ensures PastCount(c, s'.pcs, k, |s'.pcs|) == PastCount(c, s.pcs, k, |s.pcs|)
  {
    hide Past, Progress;
    PastSet(c, s.pcs, k, |s.pcs|, j, s'.pcs[j]);
    SamePast(c, j, s.pcs[j], s'.pcs[j], k);
  }

  lemma FewerHands(s: State, s': State, j: nat, a: nat)
    requires |s.pcs| == |s'.pcs| && j < |s.pcs| && a < |s.pcs| && s.pcs[j].Work?
    requires s'.pcs == s.pcs[j := Work(s.pcs[j].v, s.pcs[j].i + 1, s.pcs[j].stop)]
    ensures forall x :: InHand(s', a, x) <==> InHand(s, a, x) && !(a == j && x == s.pcs[j].i)
  {
  }

  lemma LoggedAccount(s: State, s': State, j: nat, x: nat)
    requires |s.pcs| == |s'.pcs| && j < |s.pcs| && s.pcs[j].Work? && s'.log == s.log + [Turn(s.pcs[j].i, j)]
    requires s'.pcs == s.pcs[j := Work(s.pcs[j].v, s.pcs[j].i + 1, s.pcs[j].stop)] && Accounted(s, x)
    ensures Accounted(s', x)
  {
    if e :| 0 <= e < |s.log| && Logged(s, x, e) {
      assert Logged(s', x, e);
    } else {
      var i :| 0 <= i < |s.pcs| && InHand(s, i, x);
      FewerHands(s, s', j, i);
      if i == j && x == s.pcs[j].i {
        assert Logged(s', x, |s.log|);
      } else {
        assert InHand(s', i, x);
      }
    }
  }

  lemma LoggedEntry(c: Config, s: State, s': State, j: nat, k: nat, e: nat)
    requires Inv(c, s) && Shape(c, s') && j < |s.pcs| && s.pcs[j].Work? && s.pcs[j].i < s.pcs[j].stop
    requires s'.curr == s.curr && s'.log == s.log + [Turn(s.pcs[j].i, j)] && e < |s'.log|
    requires s'.pcs == s.pcs[j := Work(s.pcs[j].v, s.pcs[j].i + 1, s.pcs[j].stop)]
    ensures EntryOk(c, s', e)
  {
    hide Past, PastCount;
    var y := s'.log[e].p;
    assert ThreadOk(c, s, j);
    if e < |s.log| {
      assert EntryOk(c, s, e);
      var l :| 0 <= l < |s.curr| && Given(c, s, l, y);
      SameCount(c, s, s', j, l);
      assert Given(c, s', l, y);
    } else {
      SameCount(c, s, s', j, c.order[j][s.pcs[j].v]);
      assert Given(c, s', c.order[j][s.pcs[j].v], y);
    }
    forall i | 0 <= i < |s'.pcs|
      ensures !InHand(s', i, y)
    {
      FewerHands(s, s', j, i);
      if e == |s.log| && i != j {
        assert InHand(s, j, y);
        assert if i < j then HandsApart(s, i, j) else HandsApart(s, j, i);
      }
    }
  }

  // ----- Fetch-and-add -----

  /** What lies at and beyond the cursor of a queue has not been given to anyone. */
  lemma FreshChunk(c: Config, s: State, k: nat, x: nat)
    requires c.Valid() && c.Disjoint() && Shape(c, s) && k < |s.curr| && !AllPast(c, s, k)
    requires c.begin[k] <= s.curr[k] <= x < c.end[k]
    ensures forall l :: 0 <= l < |s.curr| ==> !Given(c, s, l, x)
  {
    hide AllPast;
    forall l | 0 <= l < |s.curr|
      ensures !Given(c, s, l, x)
    {
      if l != k {
        assert if l < k then c.NoOverlap(l, k) else c.NoOverlap(k, l);
      }
    }
  }

  /** A thread only has in hand what its queue gave it. */
  lemma HandGiven(c: Config, s: State, i: nat, x: nat)
    requires Shape(c, s) && i < |s.pcs| && ThreadOk(c, s, i) && InHand(s, i, x)
    ensures c.order[i][s.pcs[i].v] < |s.curr| && Given(c, s, c.order[i][s.pcs[i].v], x)
  {
    hide AllPast;
  }

  /** A cursor that is below the end of its queue does not pass the top with one chunk more. */
  lemma ChunkFits(begin: nat, end: nat, curr: nat)
    requires begin <= curr < end && curr % CHUNK == begin % CHUNK
    ensures curr + CHUNK <= begin + CHUNK * CeilDiv(end - begin, CHUNK)
  {
  }

  /** A thread that still looks at the queue reads a cursor that has not wrapped, or one that is no use. */
  lemma CursorRead(c: Config, s: State, s': State, j: nat, v: nat, k: nat)
    requires c.Valid() && c.Fits() && Inv(c, s) && FetchAdd(c, s, s', j, v, k)
    ensures !AllPast(c, s, k) && PastCount(c, s.pcs, k, |s.pcs|) <= |c.order| - 1
    ensures c.Roomy(k) ==> c.begin[k] <= s.curr[k] <= c.Top(k) + CHUNK * (|c.order| - 1) < TWO32
    ensures !c.Roomy(k) ==> c.end[k] <= c.begin[k] && c.end[k] <= s.curr[k]
  {
    hide Past, PastCount;
    assert QueueOk(c, s, k) && c.FitsAt(k);
    PastNow(c, j, v, k);
    CountedNot(c, s.pcs, k, |s.pcs|, j);
    MulMono(PastCount(c, s.pcs, k, |s.pcs|), |c.order| - 1, CHUNK);
  }

  /** How many threads are done with the queue after a fetch-and-add. */
  lemma CountAfter(c: Config, s: State, s': State, j: nat, v: nat, k: nat)
    requires c.Valid() && FetchAdd(c, s, s', j, v, k)
    ensures PastCount(c, s'.pcs, k, |s'.pcs|) == PastCount(c, s.pcs, k, |s.pcs|) + (if s.curr[k] < c.end[k] then 0
      else 1)
  {
    PastNow(c, j, v, k);
    hide Past, PastCount;
    PastSet(c, s.pcs, k, |s.pcs|, j, s'.pcs[j]);
    if s.curr[k] < c.end[k] {
      SamePast(c, j, s.pcs[j], s'.pcs[j], k);
    }
  }

  lemma NextCursor(curr: nat, begin: nat, end: nat, top: nat, n: nat, threads: nat)
    requires n < threads && curr % CHUNK == begin % CHUNK
    requires begin <= curr <= top + CHUNK * n && top + CHUNK * (threads - 1) < TWO32
    requires top == if end <= begin then begin else begin + CHUNK * CeilDiv(end - begin, CHUNK)
    ensures curr < end ==> (curr + CHUNK) % TWO32 == curr + CHUNK <= top
    ensures end <= curr && n + 1 < threads ==> (curr + CHUNK) % TWO32 == curr + CHUNK
    ensures (curr + CHUNK) % TWO32 <= curr + CHUNK
  {
    if curr < end {
      ChunkFits(begin, end, curr);
    }
    hide CeilDiv;
    MulMono(n, threads - 1, CHUNK);
  }

  /** A chunk more keeps a cursor's remainder, also when it wraps. */
  lemma OneChunkOn(curr: nat, begin: nat)
    requires curr % CHUNK == begin % CHUNK
    ensures (curr + CHUNK) % TWO32 % CHUNK == begin % CHUNK
  {
  }

  /** What a fetch-and-add does to its own queue's cursor. */
  lemma Fetched(c: Config, s: State, s': State, j: nat, v: nat, k: nat)
    requires c.Valid() && Shape(c, s) && FetchAdd(c, s, s', j, v, k)
    ensures Shape(c, s') && k < |s.curr| && s'.curr[k] == (s.curr[k] + CHUNK) % TWO32
  {
  }

  /** As long as anyone will look at the queue again, the cursor does not wrap. */
  lemma NoWrap(c: Config, s: State, s': State, j: nat, v: nat, k: nat)
    requires c.Valid() && c.Fits() && Inv(c, s) && FetchAdd(c, s, s', j, v, k)
    ensures s.curr[k] < c.end[k] ==> s'.curr[k] == s.curr[k] + CHUNK && s.curr[k] + CHUNK < TWO32
    ensures c.Roomy(k) && !AllPast(c, s', k) ==> s'.curr[k] == s.curr[k] + CHUNK
    ensures CursorOk(c, s', k)
  {
    CursorRead(c, s, s', j, v, k);
    CountAfter(c, s, s', j, v, k);
    Fetched(c, s, s', j, v, k);
    assert QueueOk(c, s, k);
    assert CursorOk(c, s, k);
    hide Past, PastCount, CeilDiv, Inv, QueueOk, FetchAdd, Config.Valid, Config.Fits;
    OneChunkOn(s.curr[k], c.begin[k]);
    if c.Roomy(k) {
      NextCursor(s.curr[k], c.begin[k], c.end[k], c.Top(k), PastCount(c, s.pcs, k, |s.pcs|), |c.order|);
    }
  }

  /** What a fetch-and-add leaves of what was handed out: all of it. */
  lemma GivenStays(c: Config, s: State, s': State, j: nat, v: nat, k: nat, l: nat, x: nat)
    requires c.Valid() && c.Fits() && Inv(c, s) && FetchAdd(c, s, s', j, v, k) && l < |s.curr| && Given(c, s, l, x)
    ensures Given(c, s', l, x)
  {
    hide Past, PastCount;
    assert c.OrderOk(j);
    CountsOnward(c, s, s', j, l);
    if l == k {
      CursorRead(c, s, s', j, v, k);
      NoWrap(c, s, s', j, v, k);
    }
  }

  /** What a fetch-and-add hands out: what thread j now has in hand. */
  lemma NewlyGiven(c: Config, s: State, s': State, j: nat, v: nat, k: nat, l: nat, x: nat)
    requires c.Valid() && c.Fits() && Inv(c, s) && FetchAdd(c, s, s', j, v, k) && l < |s.curr|
    requires Given(c, s', l, x) && !Given(c, s, l, x)
    ensures l == k && s.curr[k] <= x && InHand(s', j, x)
  {
    assert c.OrderOk(j) && QueueOk(c, s, l);
    hide Past, PastCount;
    if l != k {
      SameGiven(c, s, s', j, l);
    } else {
      CursorRead(c, s, s', j, v, k);
      NoWrap(c, s, s', j, v, k);
      assert s.curr[k] < c.end[k];
      SameCount(c, s, s', j, k);
    }
  }

  lemma FetchAddInv(c: Config, s: State, s': State, j: nat, v: nat, k: nat)
    requires c.Valid() && c.Fits() && c.Disjoint() && Inv(c, s) && FetchAdd(c, s, s', j, v, k)
    ensures Inv(c, s')
  {
    NoWrap(c, s, s', j, v, k);
    assert c.OrderOk(j) && QueueOk(c, s, k);
    forall l | 0 <= l < |s'.curr|
      ensures QueueOk(c, s', l)
    {
      FetchQueue(c, s, s', j, v, k, l);
    }
    hide Past, PastCount, Emptied, Given, CursorOk, Accounted;
    forall i | 0 <= i < |s'.pcs|
      ensures ThreadOk(c, s', i)
    {
      FetchThread(c, s, s', j, v, k, i);
    }
    forall a, b | 0 <= a < b < |s'.pcs|
      ensures HandsApart(s', a, b)
    {
      FetchHands(c, s, s', j, v, k, a, b);
    }
    forall e | 0 <= e < |s'.log|
      ensures EntryOk(c, s', e)
    {
      FetchEntry(c, s, s', j, v, k, e);
    }
  }

  lemma FetchThread(c: Config, s: State, s': State, j: nat, v: nat, k: nat, i: nat)
    requires c.Valid() && c.Fits() && Inv(c, s) && FetchAdd(c, s, s', j, v, k) && i < |s.pcs|
    ensures ThreadOk(c, s', i)
  {
    assert ThreadOk(c, s, i) && c.OrderOk(j);
    if i != j {
      hide Given;
      if s.pcs[i].Work? && s.pcs[i].i < s.pcs[i].stop {
        GivenStays(c, s, s', j, v, k, c.order[i][s.pcs[i].v], s.pcs[i].i);
        GivenStays(c, s, s', j, v, k, c.order[i][s.pcs[i].v], s.pcs[i].stop - 1);
      }
    } else {
      CursorRead(c, s, s', j, v, k);
      NoWrap(c, s, s', j, v, k);
    }
  }

  lemma FetchQueue(c: Config, s: State, s': State, j: nat, v: nat, k: nat, l: nat)
    requires c.Valid() && c.Fits() && Inv(c, s) && FetchAdd(c, s, s', j, v, k) && l < |s.curr|
    ensures QueueOk(c, s', l)
  {
    FetchCursor(c, s, s', j, v, k, l);
    FetchEmptied(c, s, s', j, v, k, l);
    hide Past, PastCount, CursorOk, Given, Emptied, AllPast;
    assert QueueOk(c, s, l);
    forall x | Given(c, s', l, x)
      ensures Accounted(s', x)
    {
      if Given(c, s, l, x) {
        QuietAccount(s, s', j, x);
      } else {
        NewlyGiven(c, s, s', j, v, k, l, x);
      }
    }
  }

  lemma FetchCursor(c: Config, s: State, s': State, j: nat, v: nat, k: nat, l: nat)
    requires c.Valid() && c.Fits() && Inv(c, s) && FetchAdd(c, s, s', j, v, k) && l < |s.curr|
    ensures CursorOk(c, s', l)
  {
    hide Past, PastCount;
    assert c.OrderOk(j) && QueueOk(c, s, l);
    if l == k {
      NoWrap(c, s, s', j, v, k);
    } else {
      CountsOnward(c, s, s', j, l);
      MulMono(PastCount(c, s.pcs, l, |s.pcs|), PastCount(c, s'.pcs, l, |s'.pcs|), CHUNK);
    }
  }

  lemma FetchEmptied(c: Config, s: State, s': State, j: nat, v: nat, k: nat, l: nat)
    requires c.Valid() && c.Fits() && Inv(c, s) && FetchAdd(c, s, s', j, v, k) && l < |s.curr|
    ensures 0 < Progress(c, s'.pcs[l]) ==> Emptied(c, s', l)
  {
    hide Past, PastCount;
    assert c.OrderOk(j) && QueueOk(c, s, l);
    if 0 < Progress(c, s'.pcs[l]) {
      forall x: nat | c.begin[l] <= x < c.end[l]
        ensures Given(c, s', l, x)
      {
        CursorRead(c, s, s', j, v, k);
        GivenOrStaysSo(c, s, s', j, v, k, l, x);
      }
    }
  }

  lemma GivenOrStaysSo(c: Config, s: State, s': State, j: nat, v: nat, k: nat, l: nat, x: nat)
    requires c.Valid() && c.Fits() && Inv(c, s) && FetchAdd(c, s, s', j, v, k) && l < |s.curr|
    requires 0 < Progress(c, s'.pcs[l]) && c.begin[l] <= x < c.end[l]
    ensures Given(c, s', l, x)
  {
    hide Past, PastCount, AllPast;
    assert c.OrderOk(j) && QueueOk(c, s, l);
    if 0 < Progress(c, s.pcs[l]) {
      assert Emptied(c, s, l);
    } else {
      assert l == j == k && c.end[k] <= s.curr[k];
    }
    assert Given(c, s, l, x);
    GivenStays(c, s, s', j, v, k, l, x);
  }

  lemma QuietAccount(s: State, s': State, j: nat, x: nat)
    requires |s.pcs| == |s'.pcs| && j < |s.pcs| && s'.pcs == s.pcs[j := s'.pcs[j]] && s'.log == s.log
    requires !s.pcs[j].Work? && Accounted(s, x)
    ensures Accounted(s', x)
  {
    SameAccount(s, s', j, x);
  }

  lemma FetchHands(c: Config, s: State, s': State, j: nat, v: nat, k: nat, a: nat, b: nat)
    requires c.Valid() && c.Fits() && c.Disjoint() && Inv(c, s) && FetchAdd(c, s, s', j, v, k) && a < b < |s.pcs|
    ensures HandsApart(s', a, b)
  {
    hide Past, PastCount, AllPast;
    assert HandsApart(s, a, b) && QueueOk(c, s, k);
    assert ThreadOk(c, s, a) && ThreadOk(c, s, b);
    forall x | InHand(s', a, x)
      ensures !InHand(s', b, x)
    {
      if a != j && b != j {
        assert InHand(s, a, x) && !InHand(s, b, x);
      } else if InHand(s', b, x) {
        var other := if a == j then b else a;
        assert InHand(s, other, x);
        CursorRead(c, s, s', j, v, k);
        NoWrap(c, s, s', j, v, k);
        FreshChunk(c, s, k, x);
        HandGiven(c, s, other, x);
      }
    }
  }

  lemma FetchEntry(c: Config, s: State, s': State, j: nat, v: nat, k: nat, e: nat)
    requires c.Valid() && c.Fits() && c.Disjoint() && Inv(c, s) && FetchAdd(c, s, s', j, v, k) && e < |s.log|
    ensures EntryOk(c, s', e)
  {
    hide Past, PastCount, AllPast, Accounted;
    assert EntryOk(c, s, e) && QueueOk(c, s, k);
    var y := s.log[e].p;
    var l :| 0 <= l < |s.curr| && Given(c, s, l, y);
    GivenStays(c, s, s', j, v, k, l, y);
    forall i | 0 <= i < |s'.pcs|
      ensures !InHand(s', i, y)
    {
      assert !InHand(s, i, y);
      if i == j && InHand(s', i, y) {
        CursorRead(c, s, s', j, v, k);
        NoWrap(c, s, s', j, v, k);
        FreshChunk(c, s, k, y);
      }
    }
  }

  // ----- Whole runs -----

  lemma StepInv(c: Config, s: State, s': State)
    requires c.Valid() && c.Fits() && c.Disjoint() && Inv(c, s) && Next(c, s, s')
    ensures Inv(c, s')
  {
    var j: nat, v: nat, k: nat :| Move(c, s, s', j, v, k);
    hide Inv;
    if ReadStatus(c, s, s', j, v, k) {
      ReadStatusInv(c, s, s', j, v, k);
    } else if FetchAdd(c, s, s', j, v, k) {
      FetchAddInv(c, s, s', j, v, k);
    } else if Process(c, s, s', j, v, k) {
      ProcessInv(c, s, s', j, v, k);
    } else {
      MoveOnInv(c, s, s', j, v, k);
    }
  }

  lemma {:induction false} RunInv(c: Config, trace: seq<State>, n: nat)
    requires c.Valid() && c.Fits() && c.Disjoint() && Run(c, trace) && n < |trace|
    ensures Inv(c, trace[n])
  {
    hide Inv;
    if n == 0 {
      InitInv(c, trace[0]);
    } else {
      RunInv(c, trace, n - 1);
      assert Next(c, trace[n - 1], trace[n - 1 + 1]);
      StepInv(c, trace[n - 1], trace[n]);
    }
  }

  /** Room for every overshoot is more than enough. */
  lemma RoomFits(c: Config)
    requires c.Valid() && c.Room()
    ensures c.Fits()
    ensures forall k :: 0 <= k < |c.order| ==> c.Roomy(k) && c.Top(k) <= Max(c.begin[k], c.end[k] + CHUNK - 1)
  {
    forall k | 0 <= k < |c.order|
      ensures c.FitsAt(k) && c.Roomy(k) && c.Top(k) <= Max(c.begin[k], c.end[k] + CHUNK - 1)
    {
      assert c.Limit(k) < TWO32;
      if c.begin[k] < c.end[k] {
        CeilDivBounds(c.end[k] - c.begin[k], CHUNK);
      }
    }
  }

  /** The overshoot bound: in every state of every run, no cursor is beyond its limit. */
  lemma CursorBound(c: Config, trace: seq<State>, n: nat, k: nat)
    requires c.Valid() && c.Room() && c.Disjoint() && Run(c, trace) && n < |trace| && k < |c.order|
    ensures k < |trace[n].curr| && trace[n].curr[k] <= Max(c.begin[k], c.end[k] + 63) + 64 * |c.order| < TWO32
  {
    hide PastCount;
    RoomFits(c);
    RunInv(c, trace, n);
    assert QueueOk(c, trace[n], k);
    assert c.Limit(k) < TWO32;
    MulMono(PastCount(c, trace[n].pcs, k, |trace[n].pcs|), |c.order|, CHUNK);
  }

  /** A run does not get stuck before every thread is done. */
  lemma Unstuck(c: Config, s: State) returns (s': State)
    requires c.Valid() && Inv(c, s) && !AllDone(s)
    ensures Next(c, s, s')
  {
    var j :| 0 <= j < |s.pcs| && s.pcs[j] != Done;
    assert ThreadOk(c, s, j) && c.OrderOk(j);
    var v := s.pcs[j].v;
    var k := c.order[j][v];
    assert At(c, s, j, v, k);
    match s.pcs[j]
    case Check(_) =>
      s' := s.(pcs := s.pcs[j := if s.working[k] then Fetch(v) else Leave(v)]);
      assert ReadStatus(c, s, s', j, v, k) && Move(c, s, s', j, v, k);
    case Fetch(_) =>
      var b := s.curr[k];
      s' := s.(curr := s.curr[k := (b + CHUNK) % TWO32],
               pcs := s.pcs[j := if b < c.end[k] then Work(v, b, Min((b + CHUNK) % TWO32, c.end[k])) else Leave(v)]);
      assert FetchAdd(c, s, s', j, v, k) && Move(c, s, s', j, v, k);
    case Work(_, i, stop) =>
      s' := if i < stop then s.(pcs := s.pcs[j := Work(v, i + 1, stop)], log := s.log + [Turn(i, j)])
            else s.(pcs := s.pcs[j := Check(v)]);
      assert Process(c, s, s', j, v, k) && Move(c, s, s', j, v, k);
    case Leave(_) =>
      s' := s.(working := if v == 0 then s.working[k := false] else s.working,
               pcs := s.pcs[j := if v + 1 == |c.order| then Done else Check(v + 1)]);
      assert MoveOn(c, s, s', j, v, k) && Move(c, s, s', j, v, k);
  }

  /** The queues hold exactly the indices below `active`. */
  ghost predicate Covers(c: Config, active: nat)
    requires |c.begin| == |c.end|
  {
    && (forall k :: 0 <= k < |c.end| ==> c.end[k] <= active)
    && (forall x :: 0 <= x < active ==> InSomeQueue(c, x))
  }

  ghost predicate InSomeQueue(c: Config, x: nat)
    requires |c.begin| == |c.end|
  {
    exists k :: 0 <= k < |c.end| && c.begin[k] <= x < c.end[k]
  }

  /** When a thread is done, its own queue is used up; so when all are, everything is in the log. */
  lemma AllLogged(c: Config, s: State, active: nat, x: nat)
    requires c.Valid() && Inv(c, s) && AllDone(s) && Covers(c, active) && x < active
    ensures exists e :: 0 <= e < |s.log| && s.log[e].p == x
  {
    hide PastCount;
    assert InSomeQueue(c, x);
    var k :| 0 <= k < |c.end| && c.begin[k] <= x < c.end[k];
    assert QueueOk(c, s, k) && s.pcs[k] == Done && Emptied(c, s, k);
    assert Given(c, s, k, x) && Accounted(s, x);
    assert forall j :: 0 <= j < |s.pcs| ==> !InHand(s, j, x);
    var e :| 0 <= e < |s.log| && Logged(s, x, e);
  }

  /**
   * Whatever the interleaving: when all threads are done, every index below `active` was processed
   * exactly once, and no other.
   */
  lemma ProcessedOnce(c: Config, trace: seq<State>, active: nat)
    requires c.Valid() && c.Fits() && c.Disjoint() && Covers(c, active)
    requires Run(c, trace) && AllDone(trace[|trace| - 1])
    ensures Schedule(trace[|trace| - 1].log, active, |c.order|)
  {
    hide PastCount, Past;
    var s := trace[|trace| - 1];
    RunInv(c, trace, |trace| - 1);
    hide Run, AllDone;
    forall e | 0 <= e < |s.log|
      ensures s.log[e].p < active && s.log[e].r < |c.order|
    {
      assert EntryOk(c, s, e);
      var k :| 0 <= k < |s.curr| && Given(c, s, k, s.log[e].p);
    }
    var w := seq<nat>(|s.log|, e requires 0 <= e < |s.log| => s.log[e].p);
    forall x | 0 <= x < active
      ensures x in w
    {
      AllLogged(c, s, active, x);
      var e :| 0 <= e < |s.log| && s.log[e].p == x;
      assert w[e] == x;
    }
    CoverCount(w, active);
  }

  // ----- The configuration of process_walkers -----

  /** The v-th queue thread j visits: first its own socket's threads, starting from itself, then the next socket's. */
  function Target(sockets: nat, perSocket: nat, j: nat, v: nat): nat
    requires 0 < sockets && 0 < perSocket
  {
    Turned(sockets, perSocket, j / perSocket, j % perSocket, v / perSocket, v % perSocket)
  }

  /** The thread x sockets and y places on from place b of socket a. */
  function Turned(sockets: nat, perSocket: nat, a: nat, b: nat, x: nat, y: nat): nat
    requires 0 < sockets && 0 < perSocket
  {
    (a + x) % sockets * perSocket + (b + y) % perSocket
  }

  lemma SameRemainder(a: nat, x: nat, y: nat, m: nat)
    requires x < m && y < m && (a + x) % m == (a + y) % m
    ensures x == y
  {
    var p, q := (a + x) / m, (a + y) / m;
    DivBounds(a + x, m);
    DivBounds(a + y, m);
    assert x - y == (p - q) * m;
    if p < q {
      MulMono(1, q - p, m);
    } else if q < p {
      MulMono(1, p - q, m);
    }
  }

  lemma QuotientAndRemainder(q: nat, r: nat, m: nat)
    requires r < m
    ensures (q * m + r) / m == q && (q * m + r) % m == r
  {
    DivUnique(q * m + r, m, q);
    DivBounds(q * m + r, m);
  }

  lemma QuotientBelow(v: nat, sockets: nat, perSocket: nat)
    requires 0 < perSocket && v < sockets * perSocket
    ensures v / perSocket < sockets
  {
    DivBounds(v, perSocket);
    if sockets <= v / perSocket {
      MulMono(sockets, v / perSocket, perSocket);
    }
  }

  lemma TargetInRange(sockets: nat, perSocket: nat, j: nat, v: nat)
    requires 0 < sockets && 0 < perSocket
    ensures Target(sockets, perSocket, j, v) < sockets * perSocket
  {
    var q, r := (j / perSocket + v / perSocket) % sockets, (j % perSocket + v % perSocket) % perSocket;
    MulMono(q + 1, sockets, perSocket);
    assert (q + 1) * perSocket == q * perSocket + perSocket;
  }

  lemma SplitSame(q: nat, r: nat, q': nat, r': nat, m: nat)
    requires r < m && r' < m && q * m + r == q' * m + r'
    ensures q == q' && r == r'
  {
    QuotientAndRemainder(q, r, m);
    QuotientAndRemainder(q', r', m);
  }

  /** Turning both coordinates of a place by the same amounts keeps places apart. */
  lemma TurnedSame(m: nat, n: nat, a: nat, b: nat, x: nat, y: nat, x': nat, y': nat)
    requires x < m && x' < m && y < n && y' < n
    requires Turned(m, n, a, b, x, y) == Turned(m, n, a, b, x', y')
    ensures x == x' && y == y'
  {
    SplitSame((a + x) % m, (b + y) % n, (a + x') % m, (b + y') % n, n);
    SameRemainder(a, x, x', m);
    SameRemainder(b, y, y', n);
  }

  lemma Coordinates(v: nat, m: nat) returns (x: nat, y: nat)
    requires 0 < m
    ensures x == v / m && y == v % m && y < m && v == x * m + y
  {
    DivBounds(v, m);
    DivUnique(0, m, 0);
    DivMono(0, v, m);
    x, y := v / m, v % m;
  }

  /** The target of visit v, by the coordinates of v and j. */
  lemma TargetAt(sockets: nat, perSocket: nat, j: nat, v: nat) returns (a: nat, b: nat, x: nat, y: nat)
    requires 0 < sockets && 0 < perSocket && v < sockets * perSocket
    ensures a == j / perSocket && b == j % perSocket && x < sockets && y < perSocket && v == x * perSocket + y
    ensures Target(sockets, perSocket, j, v) == Turned(sockets, perSocket, a, b, x, y)
  {
    hide Turned;
    QuotientBelow(v, sockets, perSocket);
    x, y := Coordinates(v, perSocket);
    a, b := Coordinates(j, perSocket);
  }

  /** No queue is visited twice. */
  lemma TargetInjective(sockets: nat, perSocket: nat, j: nat, v: nat, v': nat)
    requires 0 < sockets && 0 < perSocket && v < sockets * perSocket && v' < sockets * perSocket
    requires Target(sockets, perSocket, j, v) == Target(sockets, perSocket, j, v')
    ensures v == v'
  {
    hide Target, Turned;
    var a, b, x, y := TargetAt(sockets, perSocket, j, v);
    var a', b', x', y' := TargetAt(sockets, perSocket, j, v');
    TurnedSame(sockets, perSocket, a, b, x, y, x', y');
  }

  lemma TargetFirst(sockets: nat, perSocket: nat, j: nat)
    requires 0 < sockets && 0 < perSocket && j < sockets * perSocket
    ensures Target(sockets, perSocket, j, 0) == j
  {
    QuotientBelow(j, sockets, perSocket);
    DivUnique(j / perSocket, sockets, 0);
    DivBounds(j / perSocket, sockets);
    DivUnique(j % perSocket, perSocket, 0);
    DivBounds(j % perSocket, perSocket);
    DivBounds(j, perSocket);
    DivUnique(0, perSocket, 0);
  }

  lemma SocketVisited(sockets: nat, perSocket: nat, j: nat, v: nat) returns (a: nat, x: nat)
    requires 0 < sockets && 0 < perSocket && j < sockets * perSocket && v < sockets * perSocket
    ensures a == j / perSocket < sockets && x == v / perSocket < sockets
    ensures Target(sockets, perSocket, j, v) / perSocket == (a + x) % sockets
  {
    QuotientBelow(j, sockets, perSocket);
    QuotientBelow(v, sockets, perSocket);
    DivBounds(j % perSocket + v % perSocket, perSocket);
    DivBounds(j / perSocket + v / perSocket, sockets);
    a, x := j / perSocket, v / perSocket;
    QuotientAndRemainder((a + x) % sockets, (j % perSocket + v % perSocket) % perSocket, perSocket);
  }

  lemma Unturned(m: nat, a: nat, x: nat)
    requires a < m && x < m
    ensures (a + x) % m == a <==> x == 0
  {
    DivUnique(a, m, 0);
    DivBounds(a, m);
    if (a + x) % m == a {
      SameRemainder(a, x, 0, m);
    }
  }

  /** A thread visits the queues of its own socket first, and only then those of the others. */
  lemma OwnSocketFirst(sockets: nat, perSocket: nat, j: nat, v: nat)
    requires 0 < sockets && 0 < perSocket && j < sockets * perSocket && v < sockets * perSocket
    ensures Target(sockets, perSocket, j, v) / perSocket == j / perSocket <==> v < perSocket
  {
    hide Target;
    var a, x := SocketVisited(sockets, perSocket, j, v);
    Unturned(sockets, a, x);
    DivBounds(v, perSocket);
    if v < perSocket {
      DivUnique(v, perSocket, 0);
    } else {
      DivMono(perSocket, v, perSocket);
      DivUnique(perSocket, perSocket, 1);
    }
  }

  function Visits(sockets: nat, perSocket: nat, j: nat): (w: seq<nat>)
    requires 0 < sockets && 0 < perSocket
    ensures |w| == sockets * perSocket
    ensures forall v :: 0 <= v < |w| ==> w[v] == Target(sockets, perSocket, j, v)
  {
    seq<nat>(sockets * perSocket, v requires 0 <= v < sockets * perSocket => Target(sockets, perSocket, j, v))
  }

  /** Every thread visits every queue exactly once, its own one first. */
  lemma VisitsArePerm(sockets: nat, perSocket: nat, j: nat)
    requires 0 < sockets && 0 < perSocket && j < sockets * perSocket
    ensures IsPerm(Visits(sockets, perSocket, j)) && Visits(sockets, perSocket, j)[0] == j
  {
    hide Target;
    var w := Visits(sockets, perSocket, j);
    forall v | 0 <= v < |w|
      ensures w[v] < |w|
    {
      TargetInRange(sockets, perSocket, j, v);
    }
    forall v, v' | 0 <= v < v' < |w|
      ensures w[v] != w[v']
    {
      if w[v] == w[v'] {
        TargetInjective(sockets, perSocket, j, v, v');
      }
    }
    TargetFirst(sockets, perSocket, j);
  }

  /** process_walkers over the thread ranges [b[k], e[k]), cut to the active walkers. */
  function QueueConfig(sockets: nat, perSocket: nat, b: seq<nat>, e: seq<nat>, active: nat): (c: Config)
    requires 0 < sockets && 0 < perSocket && |b| == |e|
    ensures |c.begin| == |c.end|
  {
    Config(b, seq<nat>(|e|, k requires 0 <= k < |e| => Min(e[k], active)),
           seq(sockets * perSocket, j requires 0 <= j < sockets * perSocket => Visits(sockets, perSocket, j)))
  }

  lemma {:induction false} ChainHolds(b: seq<nat>, e: seq<nat>, n: nat, x: nat, k: nat) returns (j: nat)
    requires Chain(b, e, 0, n) && k < |b| && x < e[k]
    ensures j < |b| && b[j] <= x < e[j]
    decreases k
  {
    if b[k] <= x {
      j := k;
    } else {
      assert Meets(b, e, k);
      j := ChainHolds(b, e, n, x, k - 1);
    }
  }

  /** The thread ranges of init, cut to the active walkers: disjoint queues that hold exactly those. */
  lemma QueueConfigOk(sockets: nat, perSocket: nat, b: seq<nat>, e: seq<nat>, n: nat, active: nat)
    requires 0 < sockets && 0 < perSocket && |b| == sockets * perSocket
    requires Chain(b, e, 0, n) && active <= n < TWO32
    ensures QueueConfig(sockets, perSocket, b, e, active).Valid()
    ensures QueueConfig(sockets, perSocket, b, e, active).Disjoint()
    ensures Covers(QueueConfig(sockets, perSocket, b, e, active), active)
  {
    hide Visits, Target;
    var c := QueueConfig(sockets, perSocket, b, e, active);
    forall k | 0 <= k < |b|
      ensures c.begin[k] <= n && c.end[k] <= n && c.end[k] <= active
    {
      ChainOrdered(b, e, 0, n, k, |b| - 1);
    }
    forall j | 0 <= j < |c.order|
      ensures c.OrderOk(j)
    {
      VisitsArePerm(sockets, perSocket, j);
    }
    forall k, l | 0 <= k < l < |b|
      ensures c.NoOverlap(k, l)
    {
      assert Meets(b, e, k + 1);
      ChainOrdered(b, e, 0, n, k + 1, l);
    }
    forall x | 0 <= x < active
      ensures InSomeQueue(c, x)
    {
      var j := ChainHolds(b, e, n, x, |b| - 1);
      assert c.begin[j] <= x < c.end[j];
    }
  }

  /**
   * There is room for every cursor as long as one chunk for each thread, and one more, fit between the
   * walker count and 2^32.
   */
  lemma QueueConfigFits(sockets: nat, perSocket: nat, b: seq<nat>, e: seq<nat>, n: nat, active: nat)
    requires 0 < sockets && 0 < perSocket && |b| == sockets * perSocket
    requires Chain(b, e, 0, n) && active <= n && n + 64 * (|b| + 1) <= TWO32
    ensures QueueConfig(sockets, perSocket, b, e, active).Room() && QueueConfig(sockets, perSocket, b, e, active).Fits()
  {
    hide Visits, Target;
    var c := QueueConfig(sockets, perSocket, b, e, active);
    forall k | 0 <= k < |b|
      ensures c.Limit(k) < TWO32
    {
      ChainOrdered(b, e, 0, n, k, |b| - 1);
    }
    QueueConfigOk(sockets, perSocket, b, e, n, active);
    RoomFits(c);
  }
}
