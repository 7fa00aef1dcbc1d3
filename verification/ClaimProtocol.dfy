/**
 * How threads claim partitions during a walk (WalkManager::walk of src/core/walk.hpp), as a state
 * machine over atomic steps. Each socket has a ticket counter that admits one thread per partition, and
 * two cursors: half of the threads take partitions from the front of the socket's list, the others from
 * its back.
 */
module ClaimProtocol {
  import opened Arith
  import opened Perm
  import opened Build
  import opened Stepping

  // ----- The machine -----

  /** Where a thread is in its loop. */
  datatype Pc =
    | Idle           // about to draw a ticket
    | Admitted       // its ticket was good; about to move a cursor
    | Holding(i: int) // owns index i of its socket's list; about to step it
    | Exited

  /** Thread t stepped index i of socket s's list. */
  datatype Entry = Entry(s: nat, i: int, t: nat)

  /** The sockets' partition lists; for each thread its socket and whether it takes from the front. */
  datatype Config = Config(lists: seq<seq<nat>>, home: seq<nat>, fromFront: seq<bool>) {

    ghost predicate Valid() {
      && |home| == |fromFront|
      && (forall t :: 0 <= t < |home| ==> home[t] < |lists|)
      && (forall s :: 0 <= s < |lists| ==> Manned(s))
    }

    /** Some thread belongs to the socket. */
    ghost predicate Manned(s: nat) {
      exists t :: 0 <= t < |home| && home[t] == s
    }
  }

  /** MultiThreadConfig: `perSocket` consecutive threads to a socket, the odd ones taking from the front. */
  function ThreadConfig(lists: seq<seq<nat>>, perSocket: nat): (c: Config)
    requires 0 < perSocket
    ensures c.lists == lists && |c.home| == |lists| * perSocket
  {
    Config(lists, seq<nat>(|lists| * perSocket, t requires 0 <= t < |lists| * perSocket => t / perSocket),
           seq(|lists| * perSocket, t requires 0 <= t < |lists| * perSocket => t % perSocket % 2 == 1))
  }

  /** The i-th thread of socket s belongs to it, and takes from the front exactly if i is odd. */
  ghost predicate ThreadOf(c: Config, perSocket: nat, s: nat, i: nat) {
    var t := s * perSocket + i;
    t < |c.home| == |c.fromFront| && c.home[t] == s && (c.fromFront[t] <==> i % 2 == 1)
  }

  /** Every socket has its `perSocket` threads, every second one at the front of its list. */
  lemma ThreadConfigValid(lists: seq<seq<nat>>, perSocket: nat)
    requires 0 < perSocket
    ensures ThreadConfig(lists, perSocket).Valid()
    ensures forall s, i :: 0 <= s < |lists| && 0 <= i < perSocket ==>
      ThreadOf(ThreadConfig(lists, perSocket), perSocket, s, i)
  {
    var c := ThreadConfig(lists, perSocket);
    forall s, i | 0 <= s < |lists| && 0 <= i < perSocket
      ensures ThreadOf(c, perSocket, s, i)
    {
      MulMono(s + 1, |lists|, perSocket);
      assert (s + 1) * perSocket == s * perSocket + perSocket;
      DivUnique(s * perSocket + i, perSocket, s);
      DivBounds(s * perSocket + i, perSocket);
    }
    forall t | 0 <= t < |c.home|
      ensures c.home[t] < |lists|
    {
      DivBounds(t, perSocket);
      if |lists| <= t / perSocket {
        MulMono(|lists|, t / perSocket, perSocket);
      }
    }
    forall s | 0 <= s < |lists|
      ensures c.Manned(s)
    {
      MulMono(s + 1, |lists|, perSocket);
      assert (s + 1) * perSocket == s * perSocket + perSocket;
      DivUnique(s * perSocket, perSocket, s);
      assert c.home[s * perSocket] == s;
    }
  }

  datatype State = State(ticket: seq<nat>, front: seq<nat>, back: seq<nat>, pcs: seq<Pc>, log: seq<Entry>)

  ghost predicate Init(c: Config, s: State) {
    && |s.ticket| == |s.front| == |s.back| == |c.lists| && |s.pcs| == |c.home| && s.log == []
    && (forall k :: 0 <= k < |c.lists| ==> s.ticket[k] == s.front[k] == s.back[k] == 0)
    && (forall t :: 0 <= t < |s.pcs| ==> s.pcs[t] == Idle)
  }

  /** Fetch-and-add on the ticket counter. */
  ghost predicate DrawTicket(c: Config, s: State, s': State, t: nat) {
    && t < |c.home| == |s.pcs| && c.home[t] < |c.lists| == |s.ticket| && s.pcs[t] == Idle
    && var k := c.home[t];
       s' == s.(ticket := s.ticket[k := s.ticket[k] + 1],
                pcs := s.pcs[t := if s.ticket[k] < |c.lists[k]| then Admitted else Exited])
  }

  /** Fetch-and-add on the front cursor. */
  ghost predicate TakeFront(c: Config, s: State, s': State, t: nat) {
    && t < |c.home| == |s.pcs| == |c.fromFront| && c.home[t] < |s.front| && s.pcs[t] == Admitted && c.fromFront[t]
    && var k := c.home[t];
       s' == s.(front := s.front[k := s.front[k] + 1], pcs := s.pcs[t := Holding(s.front[k])])
  }

  /** Fetch-and-add on the back cursor. */
  ghost predicate TakeBack(c: Config, s: State, s': State, t: nat) {
    && t < |c.home| == |s.pcs| == |c.fromFront| && c.home[t] < |s.back| && c.home[t] < |c.lists|
    && s.pcs[t] == Admitted && !c.fromFront[t]
    && var k := c.home[t];
       s' == s.(back := s.back[k := s.back[k] + 1], pcs := s.pcs[t := Holding(|c.lists[k]| - s.back[k] - 1)])
  }

  /** The held partition is stepped. */
  ghost predicate StepHeld(c: Config, s: State, s': State, t: nat) {
    && t < |c.home| == |s.pcs| && s.pcs[t].Holding?
    && s' == s.(pcs := s.pcs[t := Idle], log := s.log + [Entry(c.home[t], s.pcs[t].i, t)])
  }

  ghost predicate Next(c: Config, s: State, s': State) {
    exists t :: DrawTicket(c, s, s', t) || TakeFront(c, s, s', t) || TakeBack(c, s, s', t) || StepHeld(c, s, s', t)
  }

  ghost predicate Run(c: Config, trace: seq<State>) {
    && 0 < |trace| && Init(c, trace[0])
    && forall n :: 0 <= n < |trace| - 1 ==> Next(c, trace[n], trace[n + 1])
  }

  ghost predicate AllExited(s: State) {
    forall t :: 0 <= t < |s.pcs| ==> s.pcs[t] == Exited
  }

  // ----- The invariant -----

  /** How many of the first n threads of socket k are admitted and have not taken a partition yet. */
  ghost function Pending(c: Config, pcs: seq<Pc>, k: nat, n: nat): nat
    requires n <= |pcs| == |c.home|
  {
    if n == 0 then 0
    else Pending(c, pcs, k, n - 1) + (if c.home[n - 1] == k && pcs[n - 1] == Admitted then 1 else 0)
  }

  /** Index i of socket k's list has been handed out. */
  ghost predicate Claimed(c: Config, s: State, k: nat, i: int)
    requires k < |c.lists| == |s.front| == |s.back|
  {
    0 <= i < |c.lists[k]| && (i < s.front[k] || |c.lists[k]| <= i + s.back[k])
  }

  /** Some thread holds the index, or has stepped it. */
  ghost predicate Handled(c: Config, s: State, k: nat, i: int)
    requires |s.pcs| == |c.home|
  {
    || (exists t :: 0 <= t < |s.pcs| && HeldBy(c, s, k, i, t))
    || (exists e :: 0 <= e < |s.log| && SteppedAt(s, k, i, e))
  }

  ghost predicate HeldBy(c: Config, s: State, k: nat, i: int, t: nat)
    requires t < |s.pcs| == |c.home|
  {
    c.home[t] == k && s.pcs[t] == Holding(i)
  }

  ghost predicate SteppedAt(s: State, k: nat, i: int, e: nat)
    requires e < |s.log|
  {
    s.log[e].s == k && s.log[e].i == i
  }

  ghost predicate Shape(c: Config, s: State) {
    |s.ticket| == |s.front| == |s.back| == |c.lists| && |s.pcs| == |c.home|
  }

  /** The cursors stay within the tickets, and every index handed out is accounted for. */
  ghost predicate SocketOk(c: Config, s: State, k: nat)
    requires Shape(c, s) && k < |c.lists|
  {
    && s.front[k] + s.back[k] + Pending(c, s.pcs, k, |s.pcs|) == Min(s.ticket[k], |c.lists[k]|)
    && (forall i :: Claimed(c, s, k, i) ==> Handled(c, s, k, i))
  }

  ghost predicate ThreadOk(c: Config, s: State, t: nat)
    requires Shape(c, s) && t < |s.pcs|
  {
    && c.home[t] < |c.lists|
    && (s.pcs[t] == Exited ==> |c.lists[c.home[t]]| <= s.ticket[c.home[t]])
    && (s.pcs[t].Holding? ==> Claimed(c, s, c.home[t], s.pcs[t].i))
    && (s.pcs[t].Holding? ==> forall e :: 0 <= e < |s.log| ==> !SteppedAt(s, c.home[t], s.pcs[t].i, e))
  }

  ghost predicate EntryOk(c: Config, s: State, e: nat)
    requires Shape(c, s) && e < |s.log|
  {
    var x := s.log[e];
    x.s < |c.lists| && x.t < |c.home| && c.home[x.t] == x.s && Claimed(c, s, x.s, x.i)
  }

  ghost predicate Inv(c: Config, s: State) {
    && Shape(c, s)
    && (forall k :: 0 <= k < |c.lists| ==> SocketOk(c, s, k))
    && (forall t :: 0 <= t < |s.pcs| ==> ThreadOk(c, s, t))
    && (forall e :: 0 <= e < |s.log| ==> EntryOk(c, s, e))
    && (forall t, u :: 0 <= t < u < |s.pcs| ==> Apart(c, s, t, u))
    && (forall e, f :: 0 <= e < f < |s.log| ==> s.log[e].s != s.log[f].s || s.log[e].i != s.log[f].i)
  }

  /** Two threads never hold the same index. */
  ghost predicate Apart(c: Config, s: State, t: nat, u: nat)
    requires Shape(c, s) && t < |s.pcs| && u < |s.pcs|
  {
    c.home[t] == c.home[u] && s.pcs[t].Holding? && s.pcs[u].Holding? ==> s.pcs[t].i != s.pcs[u].i
  }

  // ----- Counting -----

  lemma {:induction false} PendingSet(c: Config, pcs: seq<Pc>, k: nat, n: nat, t: nat, pc: Pc)
    requires n <= |pcs| == |c.home| && t < |pcs|
    ensures Pending(c, pcs[t := pc], k, n) == Pending(c, pcs, k, n)
      + (if t < n && c.home[t] == k then (if pc == Admitted then 1 else 0) - (if pcs[t] == Admitted then 1 else 0)
        else 0)
  {
    if n != 0 {
      PendingSet(c, pcs, k, n - 1, t, pc);
    }
  }

  lemma {:induction false} PendingNone(c: Config, pcs: seq<Pc>, k: nat, n: nat)
    requires n <= |pcs| == |c.home| && forall t :: 0 <= t < n ==> pcs[t] != Admitted
    ensures Pending(c, pcs, k, n) == 0
  {
    if n != 0 {
      PendingNone(c, pcs, k, n - 1);
    }
  }

  lemma {:induction false} PendingSome(c: Config, pcs: seq<Pc>, t: nat, n: nat)
    requires t < n <= |pcs| == |c.home| && pcs[t] == Admitted
    ensures 0 < Pending(c, pcs, c.home[t], n)
  {
    if t < n - 1 {
      PendingSome(c, pcs, t, n - 1);
    }
  }

  // ----- Every step keeps it -----

  lemma InitInv(c: Config, s: State)
    requires c.Valid() && Init(c, s)
    ensures Inv(c, s)
  {
    forall k | 0 <= k < |c.lists|
      ensures SocketOk(c, s, k)
    {
      PendingNone(c, s.pcs, k, |s.pcs|);
    }
  }

  lemma DrawTicketInv(c: Config, s: State, s': State, t: nat)
    requires c.Valid() && Inv(c, s) && DrawTicket(c, s, s', t)
    ensures Inv(c, s')
  {
    hide Pending;
    var pc := s'.pcs[t];
    forall k | 0 <= k < |c.lists|
      ensures SocketOk(c, s', k)
    {
      assert SocketOk(c, s, k);
      PendingSet(c, s.pcs, k, |s.pcs|, t, pc);
      HandledKept(c, s, s', k, t);
    }
    forall u | 0 <= u < |s'.pcs|
      ensures ThreadOk(c, s', u)
    {
      assert ThreadOk(c, s, u);
      if s.pcs[u].Holding? {
        assert forall e :: 0 <= e < |s'.log| && SteppedAt(s', c.home[u], s.pcs[u].i, e) ==>
          SteppedAt(s, c.home[u], s.pcs[u].i, e);
      }
    }
    forall e | 0 <= e < |s'.log|
      ensures EntryOk(c, s', e)
    {
      assert EntryOk(c, s, e);
    }
    forall u, v | 0 <= u < v < |s'.pcs|
      ensures Apart(c, s', u, v)
    {
      assert Apart(c, s, u, v);
    }
  }

  /** A step of a thread that holds nothing loses no index. */
  lemma HandledKept(c: Config, s: State, s': State, k: nat, t: nat)
    requires Shape(c, s) && Shape(c, s') && t < |s.pcs| && !s.pcs[t].Holding?
    requires s'.pcs == s.pcs[t := s'.pcs[t]] && s'.log == s.log
    ensures forall i :: Handled(c, s, k, i) ==> Handled(c, s', k, i)
  {
    forall i | Handled(c, s, k, i)
      ensures Handled(c, s', k, i)
    {
      if u :| 0 <= u < |s.pcs| && HeldBy(c, s, k, i, u) {
        assert HeldBy(c, s', k, i, u);
      } else {
        var e :| 0 <= e < |s.log| && SteppedAt(s, k, i, e);
        assert SteppedAt(s', k, i, e);
      }
    }
  }

  /** Either cursor step: thread t comes to hold index i. */
  ghost predicate Takes(c: Config, s: State, s': State, t: nat, i: int) {
    && Shape(c, s) && t < |s.pcs| && c.home[t] < |c.lists| && s.pcs[t] == Admitted
    && var k := c.home[t];
       s'.pcs == s.pcs[t := Holding(i)] && s'.log == s.log && s'.ticket == s.ticket
       && (|| (s'.front == s.front[k := s.front[k] + 1] && s'.back == s.back && i == s.front[k])
           || (s'.back == s.back[k := s.back[k] + 1] && s'.front == s.front && i == |c.lists[k]| - s.back[k] - 1))
  }

  /**
   * An admitted thread finds an index of its list that no one has been given: the front and the back
   * cursor do not meet.
   */
  lemma FreshIndex(c: Config, s: State, s': State, t: nat, i: int)
    requires c.Valid() && Inv(c, s) && Takes(c, s, s', t, i)
    ensures 0 <= i < |c.lists[c.home[t]]| && !Claimed(c, s, c.home[t], i)
    ensures forall k, j :: 0 <= k < |c.lists| ==>
      (Claimed(c, s', k, j) <==> Claimed(c, s, k, j) || (k == c.home[t] && j == i))
  {
    hide Pending;
    assert SocketOk(c, s, c.home[t]);
    PendingSome(c, s.pcs, t, |s.pcs|);
  }

  lemma TakesInv(c: Config, s: State, s': State, t: nat, i: int)
    requires c.Valid() && Inv(c, s) && Takes(c, s, s', t, i)
    ensures Inv(c, s')
  {
    FreshIndex(c, s, s', t, i);
    hide Pending, Claimed;
    forall k | 0 <= k < |c.lists|
      ensures SocketOk(c, s', k)
    {
      assert SocketOk(c, s, k);
      PendingSet(c, s.pcs, k, |s.pcs|, t, Holding(i));
      HandledKept(c, s, s', k, t);
      assert HeldBy(c, s', c.home[t], i, t);
    }
    forall u | 0 <= u < |s'.pcs|
      ensures ThreadOk(c, s', u)
    {
      assert ThreadOk(c, s, u);
      forall e | 0 <= e < |s'.log| && s'.pcs[u].Holding?
        ensures !SteppedAt(s', c.home[u], s'.pcs[u].i, e)
      {
        assert EntryOk(c, s, e);
        assert SteppedAt(s', c.home[u], s'.pcs[u].i, e) ==> SteppedAt(s, c.home[u], s'.pcs[u].i, e);
      }
    }
    forall e | 0 <= e < |s'.log|
      ensures EntryOk(c, s', e)
    {
      assert EntryOk(c, s, e);
    }
    forall u, v | 0 <= u < v < |s'.pcs|
      ensures Apart(c, s', u, v)
    {
      assert Apart(c, s, u, v) && ThreadOk(c, s, u) && ThreadOk(c, s, v);
    }
  }

  lemma OthersApart(c: Config, s: State, t: nat, u: nat)
    requires Inv(c, s) && t < |s.pcs| && u < |s.pcs| && t != u
    ensures Apart(c, s, t, u) && Apart(c, s, u, t)
  {
    assert if t < u then Apart(c, s, t, u) else Apart(c, s, u, t);
  }

  lemma StillHandled(c: Config, s: State, s': State, t: nat, k: nat, i: int)
    requires Shape(c, s) && StepHeld(c, s, s', t) && Handled(c, s, k, i)
    ensures Handled(c, s', k, i)
  {
    if e :| 0 <= e < |s.log| && SteppedAt(s, k, i, e) {
      assert SteppedAt(s', k, i, e);
    } else {
      var u :| 0 <= u < |s.pcs| && HeldBy(c, s, k, i, u);
      if u == t {
        assert SteppedAt(s', k, i, |s.log|);
      } else {
        assert HeldBy(c, s', k, i, u);
      }
    }
  }

  lemma StepHeldInv(c: Config, s: State, s': State, t: nat)
    requires c.Valid() && Inv(c, s) && StepHeld(c, s, s', t)
    ensures Inv(c, s')
  {
    hide Pending;
    assert ThreadOk(c, s, t);
    var x := s'.log[|s.log|];
    forall k | 0 <= k < |c.lists|
      ensures SocketOk(c, s', k)
    {
      assert SocketOk(c, s, k);
      PendingSet(c, s.pcs, k, |s.pcs|, t, Idle);
      forall i | Claimed(c, s', k, i)
        ensures Handled(c, s', k, i)
      {
        assert Claimed(c, s, k, i);
        StillHandled(c, s, s', t, k, i);
      }
    }
    forall u | 0 <= u < |s'.pcs|
      ensures ThreadOk(c, s', u)
    {
      assert ThreadOk(c, s, u);
      if u != t {
        OthersApart(c, s, t, u);
      }
      forall e | 0 <= e < |s'.log| && s'.pcs[u].Holding?
        ensures !SteppedAt(s', c.home[u], s'.pcs[u].i, e)
      {
        assert e < |s.log| ==> !SteppedAt(s, c.home[u], s.pcs[u].i, e);
      }
    }
    forall e | 0 <= e < |s'.log|
      ensures EntryOk(c, s', e)
    {
      assert e < |s.log| ==> EntryOk(c, s, e);
    }
    forall u, v | 0 <= u < v < |s'.pcs|
      ensures Apart(c, s', u, v)
    {
      assert Apart(c, s, u, v);
    }
    forall e, f | 0 <= e < f < |s'.log|
      ensures s'.log[e].s != s'.log[f].s || s'.log[e].i != s'.log[f].i
    {
      assert f == |s.log| ==> !SteppedAt(s, c.home[t], s.pcs[t].i, e);
    }
  }

  /** Whatever the interleaving, every state of a run satisfies the invariant. */
  lemma {:induction false} RunInv(c: Config, trace: seq<State>, n: nat)
    requires c.Valid() && Run(c, trace) && n < |trace|
    ensures Inv(c, trace[n])
  {
    if n == 0 {
      InitInv(c, trace[0]);
    } else {
      RunInv(c, trace, n - 1);
      var s, s' := trace[n - 1], trace[n];
      assert Next(c, trace[n - 1], trace[n - 1 + 1]);
      StepInv(c, s, s');
    }
  }

  lemma StepInv(c: Config, s: State, s': State)
    requires c.Valid() && Inv(c, s) && Next(c, s, s')
    ensures Inv(c, s')
  {
    var t: nat :| DrawTicket(c, s, s', t) || TakeFront(c, s, s', t) || TakeBack(c, s, s', t) || StepHeld(c, s, s', t);
    hide Inv;
    if DrawTicket(c, s, s', t) {
      DrawTicketInv(c, s, s', t);
    } else if StepHeld(c, s, s', t) {
      StepHeldInv(c, s, s', t);
    } else {
      InvShape(c, s);
      TakesInv(c, s, s', t, s'.pcs[t].i);
    }
  }

  lemma InvShape(c: Config, s: State)
    requires Inv(c, s)
    ensures Shape(c, s) && forall t :: 0 <= t < |s.pcs| ==> c.home[t] < |c.lists|
  {
    forall t | 0 <= t < |s.pcs|
      ensures c.home[t] < |c.lists|
    {
      assert ThreadOk(c, s, t);
    }
  }

  /** At any time, what a thread holds is an index of its list, held and stepped by no one else. */
  lemma HeldIsOwn(c: Config, trace: seq<State>, n: nat, t: nat)
    requires c.Valid() && Run(c, trace) && n < |trace| && t < |trace[n].pcs| && trace[n].pcs[t].Holding?
    ensures t < |c.home| && c.home[t] < |c.lists| && 0 <= trace[n].pcs[t].i < |c.lists[c.home[t]]|
    ensures forall u :: 0 <= u < |trace[n].pcs| && u != t && u < |c.home| && c.home[u] == c.home[t] ==>
      trace[n].pcs[u] != trace[n].pcs[t]
    ensures forall e :: 0 <= e < |trace[n].log| ==>
      trace[n].log[e].s != c.home[t] || trace[n].log[e].i != trace[n].pcs[t].i
  {
    RunInv(c, trace, n);
    var s := trace[n];
    assert ThreadOk(c, s, t);
    forall u | 0 <= u < |s.pcs| && u != t && c.home[u] == c.home[t]
      ensures s.pcs[u] != s.pcs[t]
    {
      OthersApart(c, s, t, u);
    }
    forall e | 0 <= e < |s.log|
      ensures s.log[e].s != c.home[t] || s.log[e].i != s.pcs[t].i
    {
      assert !SteppedAt(s, c.home[t], s.pcs[t].i, e);
    }
  }

  /** A run does not get stuck before every thread has left. */
  lemma Progress(c: Config, s: State) returns (s': State)
    requires c.Valid() && Inv(c, s) && !AllExited(s)
    ensures Next(c, s, s')
  {
    InvShape(c, s);
    var t :| 0 <= t < |s.pcs| && s.pcs[t] != Exited;
    var k := c.home[t];
    match s.pcs[t]
    case Idle =>
      s' := s.(ticket := s.ticket[k := s.ticket[k] + 1],
        pcs := s.pcs[t := if s.ticket[k] < |c.lists[k]| then Admitted else Exited]);
      assert DrawTicket(c, s, s', t);
    case Admitted =>
      if c.fromFront[t] {
        s' := s.(front := s.front[k := s.front[k] + 1], pcs := s.pcs[t := Holding(s.front[k])]);
        assert TakeFront(c, s, s', t);
      } else {
        s' := s.(back := s.back[k := s.back[k] + 1], pcs := s.pcs[t := Holding(|c.lists[k]| - s.back[k] - 1)]);
        assert TakeBack(c, s, s', t);
      }
    case Holding(i) =>
      s' := s.(pcs := s.pcs[t := Idle], log := s.log + [Entry(k, i, t)]);
      assert StepHeld(c, s, s', t);
  }

  // ----- Every run comes to an end -----

  /** The partitions of each socket that no ticket was drawn for. */
  ghost function Unclaimed(c: Config, ticket: seq<nat>): (r: seq<nat>)
    requires |ticket| == |c.lists|
    ensures |r| == |ticket|
  {
    seq<nat>(|ticket|, k requires 0 <= k < |ticket| => if ticket[k] < |c.lists[k]| then |c.lists[k]| - ticket[k] else 0)
  }

  /** The steps each thread has before it without a new partition. */
  ghost function StepsLeft(pcs: seq<Pc>): (r: seq<nat>)
    ensures |r| == |pcs|
  {
    seq<nat>(|pcs|, t requires 0 <= t < |pcs| => Before(pcs[t]))
  }

  ghost function Before(pc: Pc): nat {
    match pc case Idle => 1 case Admitted => 3 case Holding(_) => 2 case Exited => 0
  }

  /** How many steps a run still takes: three for each partition no ticket was drawn for, and the threads'. */
  ghost function Ahead(c: Config, s: State): nat
    requires Shape(c, s)
  {
    3 * Total(Unclaimed(c, s.ticket)) + Total(StepsLeft(s.pcs))
  }

  lemma StepsLeftSet(pcs: seq<Pc>, t: nat, pc: Pc)
    requires t < |pcs|
    ensures Total(StepsLeft(pcs[t := pc])) == Total(StepsLeft(pcs)) - Before(pcs[t]) + Before(pc)
  {
    TotalSet(StepsLeft(pcs), t, Before(pc));
    assert StepsLeft(pcs[t := pc]) == StepsLeft(pcs)[t := Before(pc)];
  }

  lemma UnclaimedNext(c: Config, ticket: seq<nat>, k: nat)
    requires |ticket| == |c.lists| && k < |ticket|
    ensures Total(Unclaimed(c, ticket)) ==
      Total(Unclaimed(c, ticket[k := ticket[k] + 1])) + (if ticket[k] < |c.lists[k]| then 1 else 0)
  {
    var less := Unclaimed(c, ticket[k := ticket[k] + 1]);
    TotalSet(Unclaimed(c, ticket), k, less[k]);
    assert less == Unclaimed(c, ticket)[k := less[k]];
  }

  lemma OneStepLess(c: Config, s: State, s': State)
    requires Shape(c, s) && Next(c, s, s')
    ensures Shape(c, s') && Ahead(c, s') + 1 == Ahead(c, s)
  {
    var t: nat :| DrawTicket(c, s, s', t) || TakeFront(c, s, s', t) || TakeBack(c, s, s', t) || StepHeld(c, s, s', t);
    hide Unclaimed, StepsLeft, Total;
    StepsLeftSet(s.pcs, t, s'.pcs[t]);
    if DrawTicket(c, s, s', t) {
      UnclaimedNext(c, s.ticket, c.home[t]);
    }
  }

  /** The partitions of all sockets. */
  ghost function Sizes(lists: seq<seq<nat>>): (r: seq<nat>)
    ensures |r| == |lists|
  {
    seq<nat>(|lists|, k requires 0 <= k < |lists| => |lists[k]|)
  }

  lemma AheadAtFirst(c: Config, s: State)
    requires Init(c, s)
    ensures Ahead(c, s) == 3 * Total(Sizes(c.lists)) + |c.home|
  {
    assert Unclaimed(c, s.ticket) == Sizes(c.lists);
    TotalSame(StepsLeft(s.pcs), 1);
  }

  lemma {:induction false} StepsCounted(c: Config, trace: seq<State>, n: nat)
    requires Run(c, trace) && n < |trace|
    ensures Shape(c, trace[n]) && n + Ahead(c, trace[n]) == 3 * Total(Sizes(c.lists)) + |c.home|
  {
    hide Ahead, Next;
    if n == 0 {
      AheadAtFirst(c, trace[0]);
    } else {
      StepsCounted(c, trace, n - 1);
      assert Next(c, trace[n - 1], trace[n - 1 + 1]);
      OneStepLess(c, trace[n - 1], trace[n]);
    }
  }

  /** When all threads have left, no partition is unclaimed. */
  lemma NothingLeft(c: Config, s: State)
    requires c.Valid() && Inv(c, s)
    ensures Ahead(c, s) == 0 <==> AllExited(s)
  {
    hide Pending, Claimed;
    var none := seq<nat>(|s.pcs|, _ => 0);
    TotalSame(none, 0);
    TotalMono(none, StepsLeft(s.pcs));
    if AllExited(s) {
      TotalSame(StepsLeft(s.pcs), 0);
      forall k | 0 <= k < |c.lists|
        ensures Unclaimed(c, s.ticket)[k] == 0
      {
        assert c.Manned(k);
        var t :| 0 <= t < |c.home| && c.home[t] == k;
        assert ThreadOk(c, s, t);
      }
      TotalSame(Unclaimed(c, s.ticket), 0);
    } else {
      var t :| 0 <= t < |s.pcs| && s.pcs[t] != Exited;
      assert none[t] < StepsLeft(s.pcs)[t];
    }
  }

  /**
   * However the threads are interleaved, a run takes three steps for each partition and one for each thread, and
   * has then come to its end.
   */
  lemma RunLength(c: Config, trace: seq<State>)
    requires c.Valid() && Run(c, trace)
    ensures |trace| <= 3 * Total(Sizes(c.lists)) + |c.home| + 1
    ensures AllExited(trace[|trace| - 1]) <==> |trace| == 3 * Total(Sizes(c.lists)) + |c.home| + 1
  {
    hide Inv;
    StepsCounted(c, trace, |trace| - 1);
    RunInv(c, trace, |trace| - 1);
    NothingLeft(c, trace[|trace| - 1]);
  }

  /** Every run can go on to its end. */
  lemma {:induction false} Completed(c: Config, begun: seq<State>) returns (trace: seq<State>)
    requires c.Valid() && Run(c, begun)
    ensures Run(c, trace) && AllExited(trace[|trace| - 1]) && begun <= trace
    decreases 3 * Total(Sizes(c.lists)) + |c.home| + 1 - |begun|
  {
    hide Next, AllExited, Init, Inv, Config.Valid;
    var s := begun[|begun| - 1];
    RunLength(c, begun);
    if AllExited(s) {
      trace := begun;
    } else {
      RunInv(c, begun, |begun| - 1);
      var s' := Progress(c, s);
      trace := Completed(c, begun + [s']);
    }
  }

  lemma Claimable(c: Config) returns (trace: seq<State>)
    requires c.Valid()
    ensures Run(c, trace) && AllExited(trace[|trace| - 1])
  {
    var zeros := seq(|c.lists|, _ => 0);
    trace := Completed(c, [State(zeros, zeros, zeros, seq(|c.home|, _ => Idle), [])]);
  }

  // ----- When all threads have left -----

  /** Every index of every list was stepped. */
  lemma AllStepped(c: Config, s: State, k: nat, i: nat)
    requires c.Valid() && Inv(c, s) && AllExited(s) && k < |c.lists| && i < |c.lists[k]|
    ensures exists e :: 0 <= e < |s.log| && s.log[e].s == k && s.log[e].i == i
  {
    assert SocketOk(c, s, k) && c.Manned(k);
    var t :| 0 <= t < |c.home| && c.home[t] == k;
    assert ThreadOk(c, s, t) && s.pcs[t] == Exited;
    PendingNone(c, s.pcs, k, |s.pcs|);
    assert Claimed(c, s, k, i);
    assert Handled(c, s, k, i);
    assert forall u :: 0 <= u < |s.pcs| ==> !HeldBy(c, s, k, i, u);
    var e :| 0 <= e < |s.log| && SteppedAt(s, k, i, e);
  }

  /** The log as turns at partitions. */
  function Turns(c: Config, s: State): seq<Turn> {
    seq<Turn>(|s.log|, e requires 0 <= e < |s.log| => if EntryIn(c, s.log[e]) then TurnOf(c, s.log[e]) else Turn(0, 0))
  }

  /** The entry names an index of the list of its thread's socket. */
  predicate EntryIn(c: Config, x: Entry) {
    x.s < |c.lists| && 0 <= x.i < |c.lists[x.s]| && x.t < |c.home| && c.home[x.t] == x.s
  }

  function TurnOf(c: Config, x: Entry): Turn
    requires EntryIn(c, x)
  {
    Turn(c.lists[x.s][x.i], x.t)
  }

  ghost predicate EntriesOk(c: Config, log: seq<Entry>) {
    forall e :: 0 <= e < |log| ==> EntryIn(c, log[e])
  }

  lemma LogOk(c: Config, s: State)
    requires Inv(c, s)
    ensures EntriesOk(c, s.log)
    ensures forall e, f :: 0 <= e < f < |s.log| ==> s.log[e].s != s.log[f].s || s.log[e].i != s.log[f].i
  {
    forall e | 0 <= e < |s.log|
      ensures EntryIn(c, s.log[e])
    {
      assert EntryOk(c, s, e);
    }
  }

  /** The sockets' lists name every partition once. */
  lemma ListedOnce(socketNum: nat, n: nat, lists: seq<seq<nat>>, s: nat, i: nat, s': nat, i': nat)
    requires 0 < socketNum && SocketLists(socketNum, n, lists)
    requires s < socketNum && i < |lists[s]| && s' < socketNum && i' < |lists[s']| && (s != s' || i != i')
    ensures lists[s][i] != lists[s'][i']
  {
    hide SocketOf;
    assert SocketOf(socketNum, lists[s][i]) == s && SocketOf(socketNum, lists[s'][i']) == s';
    if s == s' {
      assert if i < i' then lists[s][i] < lists[s][i'] else lists[s][i'] < lists[s][i];
    }
  }

  /**
   * When all threads have left, the log is a schedule: every partition of every socket was stepped
   * exactly once, by a thread of its socket.
   */
  lemma FinishedSchedule(c: Config, trace: seq<State>, socketNum: nat, n: nat)
    requires c.Valid() && Run(c, trace) && AllExited(trace[|trace| - 1])
    requires 0 < socketNum && SocketLists(socketNum, n, c.lists)
    ensures EntriesOk(c, trace[|trace| - 1].log)
    ensures Schedule(Turns(c, trace[|trace| - 1]), n, |c.home|)
  {
    var s := trace[|trace| - 1];
    RunInv(c, trace, |trace| - 1);
    LogOk(c, s);
    var turns := Turns(c, s);
    hide Run, SocketOf, Inv;
    assert forall e :: 0 <= e < |turns| ==> EntryIn(c, s.log[e]) && turns[e] == TurnOf(c, s.log[e]);
    hide EntriesOk;
    forall e, f | 0 <= e < f < |turns|
      ensures turns[e].p != turns[f].p
    {
      ListedOnce(socketNum, n, c.lists, s.log[e].s, s.log[e].i, s.log[f].s, s.log[f].i);
    }
    forall p | 0 <= p < n
      ensures p in Partitions(turns)
    {
      TurnFor(c, s, socketNum, n, p);
    }
    CoverCount(Partitions(turns), n);
  }

  lemma TurnFor(c: Config, s: State, socketNum: nat, n: nat, p: nat)
    requires c.Valid() && Inv(c, s) && AllExited(s) && EntriesOk(c, s.log)
    requires 0 < socketNum && SocketLists(socketNum, n, c.lists) && p < n
    ensures p in Partitions(Turns(c, s))
  {
    hide SocketOf, Inv;
    var k := SocketOf(socketNum, p);
    assert p in c.lists[k];
    var i :| 0 <= i < |c.lists[k]| && c.lists[k][i] == p;
    AllStepped(c, s, k, i);
    var e :| 0 <= e < |s.log| && s.log[e].s == k && s.log[e].i == i;
    assert Partitions(Turns(c, s))[e] == p;
  }

  ghost function Partitions(turns: seq<Turn>): seq<nat> {
    seq<nat>(|turns|, e requires 0 <= e < |turns| => turns[e].p)
  }
}
