/**
 * When 32 bits are enough for the cursors of process_walkers: the condition under which WorkStealing proves
 * every index processed once is exact. Wherever it fails, the runs built here process an index twice.
 */
module StealingLimits {
  import opened Arith
  import opened Perm
  import opened Stepping
  import opened WorkStealing

  ghost predicate Logged(log: seq<Turn>, x: nat) {
    exists e :: 0 <= e < |log| && log[e].p == x
  }

  /** No index was processed twice. */
  ghost predicate NoRepeat(log: seq<Turn>) {
    forall e, f :: 0 <= e < f < |log| ==> log[e].p != log[f].p
  }

  ghost predicate Ran(c: Config, trace: seq<State>) {
    0 < |trace| && Run(c, trace)
  }

  ghost function Last(trace: seq<State>): State
    requires 0 < |trace|
  {
    trace[|trace| - 1]
  }

  lemma StillLogged(log: seq<Turn>, more: seq<Turn>, x: nat)
    requires Logged(log, x)
    ensures Logged(log + more, x)
  {
    var e :| 0 <= e < |log| && log[e].p == x;
    assert (log + more)[e].p == x;
  }

  // ----- Making runs longer -----

  lemma Prolong(c: Config, trace: seq<State>, s': State, j: nat, v: nat, k: nat) returns (t: seq<State>)
    requires Ran(c, trace) && Move(c, Last(trace), s', j, v, k)
    ensures Ran(c, t) && Last(t) == s'
  {
    hide Move;
    t := trace + [s'];
    assert Next(c, Last(trace), s');
    forall n | 0 <= n < |t| - 1
      ensures Next(c, t[n], t[n + 1])
    {
      assert n < |trace| - 1 ==> Next(c, trace[n], trace[n + 1]);
    }
  }

  /** Thread j is about to read the status of queue k, its v-th one, which is still working. */
  ghost predicate Arrived(c: Config, s: State, j: nat, v: nat, k: nat) {
    At(c, s, j, v, k) && s.pcs[j] == Check(v) && s.working[k]
  }

  /** A thread that finds the cursor below the end takes a chunk. */
  lemma Take(c: Config, trace: seq<State>, j: nat, v: nat, k: nat) returns (t: seq<State>)
    requires Ran(c, trace) && Arrived(c, Last(trace), j, v, k) && Last(trace).curr[k] < c.end[k]
    ensures Ran(c, t)
    ensures var s, b := Last(trace), Last(trace).curr[k];
            Last(t) == s.(curr := s.curr[k := (b + CHUNK) % TWO32],
              pcs := s.pcs[j := Work(v, b, Min((b + CHUNK) % TWO32, c.end[k]))])
  {
    hide Run;
    var s := Last(trace);
    var b := s.curr[k];
    var s1 := s.(pcs := s.pcs[j := Fetch(v)]);
    assert ReadStatus(c, s, s1, j, v, k);
    t := Prolong(c, trace, s1, j, v, k);
    var s2 := s1.(curr := s.curr[k := (b + CHUNK) % TWO32],
      pcs := s1.pcs[j := Work(v, b, Min((b + CHUNK) % TWO32, c.end[k]))]);
    assert FetchAdd(c, s1, s2, j, v, k);
    t := Prolong(c, t, s2, j, v, k);
    assert s2.pcs == s.pcs[j := Work(v, b, Min((b + CHUNK) % TWO32, c.end[k]))];
  }

  /** A thread that finds the cursor beyond the end is done with the queue. */
  lemma Miss(c: Config, trace: seq<State>, j: nat, v: nat, k: nat) returns (t: seq<State>)
    requires Ran(c, trace) && Arrived(c, Last(trace), j, v, k) && c.end[k] <= Last(trace).curr[k]
    ensures Ran(c, t)
    ensures var s := Last(trace);
            Last(t) == s.(curr := s.curr[k := (s.curr[k] + CHUNK) % TWO32], pcs := s.pcs[j := Leave(v)])
  {
    hide Run;
    var s := Last(trace);
    var s1 := s.(pcs := s.pcs[j := Fetch(v)]);
    assert ReadStatus(c, s, s1, j, v, k);
    t := Prolong(c, trace, s1, j, v, k);
    var s2 := s1.(curr := s.curr[k := (s.curr[k] + CHUNK) % TWO32], pcs := s1.pcs[j := Leave(v)]);
    assert FetchAdd(c, s1, s2, j, v, k);
    t := Prolong(c, t, s2, j, v, k);
    assert s2.pcs == s.pcs[j := Leave(v)];
  }

  /**
   * s' is s but that thread j, at its v-th queue, has the indices from i on in hand, and has processed those
   * from b to i.
   */
  ghost predicate Worked(c: Config, s: State, s': State, j: nat, v: nat, b: nat, i: nat, stop: nat) {
    && j < |s.pcs| && s'.curr == s.curr && s'.working == s.working && s'.pcs == s.pcs[j := Work(v, i, stop)]
    && s.log <= s'.log
    && forall x :: b <= x < i ==> Logged(s'.log, x)
  }

  /** The thread processes the first indices of its chunk. */
  lemma {:induction false} WorkOn(c: Config, trace: seq<State>, j: nat, v: nat, k: nat, b: nat, i: nat, stop: nat)
    returns (t: seq<State>)
    requires Ran(c, trace) && At(c, Last(trace), j, v, k) && Last(trace).pcs[j] == Work(v, b, stop) && b <= i <= stop
    ensures Ran(c, t) && Worked(c, Last(trace), Last(t), j, v, b, i, stop)
    decreases i
  {
    hide Run;
    if i == b {
      t := trace;
    } else {
      t := WorkOn(c, trace, j, v, k, b, i - 1, stop);
      var s := Last(t);
      var s' := s.(pcs := s.pcs[j := Work(v, i, stop)], log := s.log + [Turn(i - 1, j)]);
      assert Process(c, s, s', j, v, k);
      t := Prolong(c, t, s', j, v, k);
      forall x | b <= x < i
        ensures Logged(s'.log, x)
      {
        if x < i - 1 {
          StillLogged(s.log, [Turn(i - 1, j)], x);
        } else {
          assert s'.log[|s.log|].p == x;
        }
      }
    }
  }

  /** s' is s but that queue k's cursor is at `to`, and what it passed on the way was processed. */
  ghost predicate Drained(c: Config, s: State, s': State, k: nat, to: nat)
    requires Shape(c, s) && k < |s.curr|
  {
    && s'.curr == s.curr[k := to] && s'.working == s.working && s'.pcs == s.pcs && s.log <= s'.log
    && forall x :: s.curr[k] <= x < to && x < c.end[k] ==> Logged(s'.log, x)
  }

  /** One whole chunk. */
  lemma OneChunk(c: Config, trace: seq<State>, j: nat, v: nat, k: nat) returns (t: seq<State>)
    requires Ran(c, trace) && Arrived(c, Last(trace), j, v, k)
    requires Last(trace).curr[k] < c.end[k] && Last(trace).curr[k] + CHUNK < TWO32
    ensures Ran(c, t) && Drained(c, Last(trace), Last(t), k, Last(trace).curr[k] + CHUNK)
  {
    hide Run;
    var s := Last(trace);
    var b := s.curr[k];
    var stop := Min(b + CHUNK, c.end[k]);
    t := Take(c, trace, j, v, k);
    var s1 := Last(t);
    t := WorkOn(c, t, j, v, k, b, stop, stop);
    var s2 := Last(t);
    var s3 := s2.(pcs := s2.pcs[j := Check(v)]);
    assert Process(c, s2, s3, j, v, k);
    t := Prolong(c, t, s3, j, v, k);
    assert s3.pcs == s.pcs;
  }

  /** Chunk after chunk, up to a cursor position that does not wrap and whose last chunk was still in the queue. */
  lemma {:induction false} Drain(c: Config, trace: seq<State>, j: nat, v: nat, k: nat, chunks: nat)
    returns (t: seq<State>)
    requires Ran(c, trace) && Arrived(c, Last(trace), j, v, k)
    requires Last(trace).curr[k] + chunks * CHUNK < TWO32
    requires 0 < chunks ==> Last(trace).curr[k] + (chunks - 1) * CHUNK < c.end[k]
    ensures Ran(c, t) && Drained(c, Last(trace), Last(t), k, Last(trace).curr[k] + chunks * CHUNK)
    decreases chunks
  {
    hide Run;
    if chunks == 0 {
      t := trace;
      assert Last(trace).curr[k := Last(trace).curr[k]] == Last(trace).curr;
    } else {
      t := Drain(c, trace, j, v, k, chunks - 1);
      var s := Last(t);
      t := OneChunk(c, t, j, v, k);
      DrainedOn(c, Last(trace), s, Last(t), k, s.curr[k], s.curr[k] + CHUNK);
    }
  }

  lemma DrainedOn(c: Config, s: State, s1: State, s2: State, k: nat, mid: nat, to: nat)
    requires Shape(c, s) && Shape(c, s1) && k < |s.curr| && Drained(c, s, s1, k, mid) && Drained(c, s1, s2, k, to)
    ensures Drained(c, s, s2, k, to)
  {
    hide Logged;
    forall x | s.curr[k] <= x < to && x < c.end[k]
      ensures Logged(s2.log, x)
    {
      if x < mid {
        assert s2.log == s1.log + s2.log[|s1.log|..];
        StillLogged(s1.log, s2.log[|s1.log|..], x);
      }
    }
  }

  // ----- One thread against itself -----

  /** After the wrap the cursor starts again at the remainder of the queue's begin. */
  lemma WrapsTo(begin: nat, n: nat)
    requires TWO32 <= begin + CHUNK * n < TWO32 + CHUNK
    ensures (begin + CHUNK * n) % TWO32 == begin % CHUNK
  {
  }

  /** The log holds an index twice. */
  lemma Twice(log: seq<Turn>, x: nat, j: nat)
    requires Logged(log, x)
    ensures !NoRepeat(log + [Turn(x, j)])
  {
    var e :| 0 <= e < |log| && log[e].p == x;
    var l := log + [Turn(x, j)];
    assert l[e].p == l[|log|].p;
  }

  /** A thread that takes a chunk whose first index was processed before processes it again. */
  lemma Again(c: Config, trace: seq<State>, j: nat, v: nat, k: nat) returns (t: seq<State>)
    requires Ran(c, trace) && Arrived(c, Last(trace), j, v, k) && Last(trace).curr[k] < c.end[k]
    requires Last(trace).curr[k] + CHUNK < TWO32
    requires Logged(Last(trace).log, Last(trace).curr[k])
    ensures Ran(c, t) && !NoRepeat(Last(t).log)
  {
    hide Run, Logged;
    var b := Last(trace).curr[k];
    t := Take(c, trace, j, v, k);
    var s := Last(t);
    var s' := s.(pcs := s.pcs[j := Work(v, b + 1, s.pcs[j].stop)], log := s.log + [Turn(b, j)]);
    assert Process(c, s, s', j, v, k);
    t := Prolong(c, t, s', j, v, k);
    Twice(s.log, b, j);
  }

  /** Nothing has happened yet. */
  lemma Beginning(c: Config) returns (trace: seq<State>)
    requires c.Valid()
    ensures Ran(c, trace) && Init(c, Last(trace))
  {
    var s := State(c.begin, seq(|c.order|, _ => true), seq(|c.order|, _ => Check(0)), []);
    trace := [s];
  }

  /** A thread starts at its own queue. */
  lemma AtHome(c: Config, s: State, j: nat)
    requires c.Valid() && Shape(c, s) && j < |c.order|
    ensures At(c, s, j, 0, j)
  {
    assert c.OrderOk(j);
  }

  /** The number of chunks of queue k. */
  ghost function Chunks(c: Config, k: nat): nat
    requires k < |c.begin| == |c.end|
  {
    if c.end[k] <= c.begin[k] then 0 else CeilDiv(c.end[k] - c.begin[k], CHUNK)
  }

  lemma ChunksTop(c: Config, k: nat)
    requires k < |c.begin| == |c.end|
    ensures c.Top(k) == c.begin[k] + CHUNK * Chunks(c, k) && c.end[k] <= c.Top(k)
    ensures 0 < Chunks(c, k) ==> c.begin[k] + CHUNK * (Chunks(c, k) - 1) < c.end[k]
  {
  }

  /** The owner of the queue that holds x, if it is not k, processes it in its first chunk. */
  lemma OthersFirst(c: Config, active: nat, k: nat, x: nat) returns (t: seq<State>)
    requires c.Valid() && Covers(c, active) && k < |c.order| && x < active && x < CHUNK
    ensures Ran(c, t) && Shape(c, Last(t)) && Last(t).working[k] && Last(t).pcs[k] == Check(0)
    ensures Last(t).curr[k] == c.begin[k]
    ensures c.begin[k] <= x || Logged(Last(t).log, x)
  {
    hide Run;
    t := Beginning(c);
    assert InSomeQueue(c, x);
    if x < c.begin[k] {
      var l :| 0 <= l < |c.end| && c.begin[l] <= x < c.end[l];
      var s := Last(t);
      AtHome(c, s, l);
      t := Take(c, t, l, 0, l);
      t := WorkOn(c, t, l, 0, l, c.begin[l], x + 1, Min(c.begin[l] + CHUNK, c.end[l]));
    }
  }

  /** A queue whose last chunk ends beyond 2^32: its owner alone skips the rest of the chunk and starts over. */
  lemma TopWraps(c: Config, active: nat, k: nat) returns (t: seq<State>)
    requires c.Valid() && Covers(c, active) && k < |c.order| && TWO32 <= c.Top(k)
    ensures Ran(c, t) && !NoRepeat(Last(t).log)
  {
    hide Run, CeilDiv, Logged;
    ChunksTop(c, k);
    var n := Chunks(c, k);
    var w := c.begin[k] % CHUNK;
    WrapsTo(c.begin[k], n);
    t := OthersFirst(c, active, k, w);
    var s := Last(t);
    AtHome(c, s, k);
    t := Drain(c, t, k, 0, k, n - 1);
    var s1 := Last(t);
    LoggedByNow(c, s, s1, k, w, c.begin[k] + CHUNK * (n - 1));
    AtHome(c, s1, k);
    t := Take(c, t, k, 0, k);
    var s2 := Last(t);
    var s3 := s2.(pcs := s2.pcs[k := Check(0)]);
    assert Process(c, s2, s3, k, 0, k);
    t := Prolong(c, t, s3, k, 0, k);
    AtHome(c, s3, k);
    t := Again(c, t, k, 0, k);
  }

  lemma LoggedByNow(c: Config, s: State, s1: State, k: nat, w: nat, to: nat)
    requires Shape(c, s) && k < |s.curr| && Drained(c, s, s1, k, to) && s.curr[k] == c.begin[k]
    requires c.begin[k] <= w || Logged(s.log, w)
    requires w < to && w < c.end[k]
    ensures Logged(s1.log, w)
  {
    if c.begin[k] > w {
      assert s1.log == s.log + s1.log[|s.log|..];
      StillLogged(s.log, s1.log[|s.log|..], w);
    }
  }

  // ----- The owner after the others -----

  /** Owner i is done with its queue, and all of it was processed. */
  ghost predicate OwnerDone(c: Config, s: State, i: nat)
    requires Shape(c, s) && i < |c.order|
  {
    s.pcs[i] == Check(1) && !s.working[i] && QueueLogged(c, s.log, i)
  }

  /** Neither owner i nor its queue has moved. */
  ghost predicate OwnerFresh(c: Config, s: State, i: nat)
    requires Shape(c, s) && i < |c.order|
  {
    s.pcs[i] == Check(0) && s.working[i] && s.curr[i] == c.begin[i]
  }

  ghost predicate OwnerOk(c: Config, s: State, k: nat, n: nat, i: nat)
    requires Shape(c, s) && i < |c.order|
  {
    if i < n && i != k then OwnerDone(c, s, i) else OwnerFresh(c, s, i)
  }

  ghost predicate QueueLogged(c: Config, log: seq<Turn>, i: nat)
    requires i < |c.begin| == |c.end|
  {
    forall x :: c.begin[i] <= x < c.end[i] ==> Logged(log, x)
  }

  lemma QueueStaysLogged(c: Config, log: seq<Turn>, log': seq<Turn>, i: nat)
    requires i < |c.begin| == |c.end| && QueueLogged(c, log, i) && log <= log'
    ensures QueueLogged(c, log', i)
  {
    hide Logged;
    assert log' == log + log'[|log|..];
    forall x | c.begin[i] <= x < c.end[i]
      ensures Logged(log', x)
    {
      StillLogged(log, log'[|log|..], x);
    }
  }

  /** The first n owners, but for k, are done with their queues. */
  ghost predicate Owners(c: Config, s: State, k: nat, n: nat) {
    Shape(c, s) && forall i :: 0 <= i < |c.order| ==> OwnerOk(c, s, k, n, i)
  }

  /** An owner works its queue off, finds it used up and marks it complete. */
  lemma WorkOff(c: Config, trace: seq<State>, i: nat) returns (t: seq<State>)
    requires c.Valid() && Ran(c, trace) && Shape(c, Last(trace)) && i < |c.order| && 1 < |c.order|
    requires OwnerFresh(c, Last(trace), i) && c.Top(i) < TWO32
    ensures Ran(c, t) && Shape(c, Last(t)) && OwnerDone(c, Last(t), i) && Last(trace).log <= Last(t).log
    ensures forall l :: 0 <= l < |c.order| && l != i ==>
      Last(t).pcs[l] == Last(trace).pcs[l] && Last(t).working[l] == Last(trace).working[l]
        && Last(t).curr[l] == Last(trace).curr[l]
  {
    hide Run, CeilDiv, Logged;
    var s := Last(trace);
    ChunksTop(c, i);
    AtHome(c, s, i);
    t := Drain(c, trace, i, 0, i, Chunks(c, i));
    var s1 := Last(t);
    AtHome(c, s1, i);
    t := Miss(c, t, i, 0, i);
    var s2 := Last(t);
    AtHome(c, s2, i);
    var s3 := s2.(working := s2.working[i := false], pcs := s2.pcs[i := Check(1)]);
    assert MoveOn(c, s2, s3, i, 0, i);
    t := Prolong(c, t, s3, i, 0, i);
  }

  lemma {:induction false} OwnersWorkOff(c: Config, k: nat, n: nat) returns (t: seq<State>)
    requires c.Valid() && k < |c.order| && n <= |c.order| && 1 < |c.order|
    requires forall i :: 0 <= i < |c.order| ==> c.Top(i) < TWO32
    ensures Ran(c, t) && Owners(c, Last(t), k, n)
    decreases n
  {
    hide Run;
    if n == 0 {
      t := Beginning(c);
      var s := Last(t);
      forall i | 0 <= i < |c.order|
        ensures OwnerOk(c, s, k, 0, i)
      {
        assert OwnerFresh(c, s, i);
      }
    } else {
      t := OwnersWorkOff(c, k, n - 1);
      if n - 1 != k {
        var s := Last(t);
        assert OwnerOk(c, s, k, n - 1, n - 1);
        t := WorkOff(c, t, n - 1);
        OwnersOn(c, s, Last(t), k, n);
      } else {
        var s, m := Last(t), n - 1;
        forall i | 0 <= i < |c.order|
          ensures OwnerOk(c, s, k, n, i)
        {
          assert OwnerOk(c, s, k, m, i);
        }
      }
    }
  }

  lemma OwnersOn(c: Config, s: State, s': State, k: nat, n: nat)
    requires 0 < n <= |c.order| && Owners(c, s, k, n - 1) && n - 1 != k && Shape(c, s') && OwnerDone(c, s', n - 1)
    requires s.log <= s'.log
    requires forall l :: 0 <= l < |c.order| && l != n - 1 ==>
      s'.pcs[l] == s.pcs[l] && s'.working[l] == s.working[l] && s'.curr[l] == s.curr[l]
    ensures Owners(c, s', k, n)
  {
    hide QueueLogged;
    forall i | 0 <= i < |c.order|
      ensures OwnerOk(c, s', k, n, i)
    {
      if i != n - 1 {
        assert OwnerOk(c, s, k, n - 1, i);
        if i < n && i != k {
          QueueStaysLogged(c, s.log, s'.log, i);
        }
      }
    }
  }

  /** How many of the first n threads are not k. */
  ghost function Others(k: nat, n: nat): nat {
    if k < n then n - 1 else n
  }

  /** Everything was processed, and the first n threads, but for k, have looked at queue k since. */
  ghost predicate Overshot(c: Config, s: State, k: nat, n: nat, log: seq<Turn>) {
    && Shape(c, s) && k < |c.order| && s.working[k] && s.pcs[k] == Check(0) && s.log == log
    && s.curr[k] == (c.Top(k) + CHUNK * Others(k, n)) % TWO32
    && forall i :: 0 <= i < |c.order| && i != k ==> !s.working[i] && (n <= i ==> s.pcs[i] == Check(1))
  }

  /** Where thread j comes to queue k. */
  lemma VisitOf(c: Config, j: nat, k: nat) returns (v: nat)
    requires c.Valid() && j < |c.order| && k < |c.order| && j != k
    ensures 0 < v < |c.order[j]| == |c.order| && c.order[j][v] == k
    ensures forall u :: 0 <= u < v ==> c.order[j][u] != k
  {
    assert c.OrderOk(j);
    Surjective(c.order[j], k);
    v :| 0 <= v < |c.order[j]| && c.order[j][v] == k;
  }

  /** A thread passes by the queues that are marked complete. */
  lemma {:induction false} PassBy(c: Config, trace: seq<State>, j: nat, k: nat, u: nat, v: nat) returns (t: seq<State>)
    requires c.Valid() && Ran(c, trace) && Shape(c, Last(trace)) && j < |c.order|
    requires 0 < u <= v < |c.order[j]| == |c.order|
    requires Last(trace).pcs[j] == Check(1) && forall i :: 0 <= i < |c.order| && i != k ==> !Last(trace).working[i]
    requires forall w :: 0 <= w < v ==> c.order[j][w] != k
    ensures Ran(c, t) && Last(t) == Last(trace).(pcs := Last(trace).pcs[j := Check(u)])
    decreases u
  {
    hide Run;
    if u == 1 {
      t := trace;
      assert Last(trace).pcs[j := Check(1)] == Last(trace).pcs;
    } else {
      t := PassBy(c, trace, j, k, u - 1, v);
      assert c.OrderOk(j);
      var s := Last(t);
      var l := c.order[j][u - 1];
      var s1 := s.(pcs := s.pcs[j := Leave(u - 1)]);
      assert ReadStatus(c, s, s1, j, u - 1, l);
      t := Prolong(c, t, s1, j, u - 1, l);
      var s2 := s1.(pcs := s1.pcs[j := Check(u)]);
      assert MoveOn(c, s1, s2, j, u - 1, l);
      t := Prolong(c, t, s2, j, u - 1, l);
      assert s2.pcs == Last(trace).pcs[j := Check(u)];
    }
  }

  /** One thread more comes by and finds queue k used up. */
  lemma ComeBy(c: Config, trace: seq<State>, k: nat, n: nat, log: seq<Turn>) returns (t: seq<State>)
    requires c.Valid() && Ran(c, trace) && Overshot(c, Last(trace), k, n, log) && n < |c.order| && n != k
    requires c.Top(k) + CHUNK * Others(k, n) < TWO32
    ensures Ran(c, t) && Overshot(c, Last(t), k, n + 1, log)
  {
    hide Run, CeilDiv;
    ChunksTop(c, k);
    var s := Last(trace);
    var v := VisitOf(c, n, k);
    t := PassBy(c, trace, n, k, v, v);
    var s1 := Last(t);
    t := Miss(c, t, n, v, k);
    var s2 := Last(t);
    assert s2.pcs == s.pcs[n := Leave(v)];
    assert Others(k, n + 1) == Others(k, n) + 1;
    assert s2.curr[k] == (c.Top(k) + CHUNK * Others(k, n) + CHUNK) % TWO32;
  }

  lemma {:induction false} AllComeBy(c: Config, trace: seq<State>, k: nat, n: nat, log: seq<Turn>)
    returns (t: seq<State>)
    requires c.Valid() && Ran(c, trace) && Overshot(c, Last(trace), k, 0, log) && n <= |c.order|
    requires 0 < n ==> c.Top(k) + CHUNK * Others(k, n - 1) < TWO32
    ensures Ran(c, t) && Overshot(c, Last(t), k, n, log)
    decreases n
  {
    hide Run, CeilDiv;
    if n == 0 {
      t := trace;
    } else {
      t := AllComeBy(c, trace, k, n - 1, log);
      if n - 1 != k {
        t := ComeBy(c, t, k, n - 1, log);
      }
    }
  }

  /** All queues are worked off, queue k by an owner that has not noticed yet. */
  lemma AllWorkedOff(c: Config, active: nat, k: nat) returns (t: seq<State>)
    requires c.Valid() && Covers(c, active) && k < |c.order| && 1 < |c.order|
    requires forall i :: 0 <= i < |c.order| ==> c.Top(i) < TWO32
    ensures Ran(c, t) && Overshot(c, Last(t), k, 0, Last(t).log)
    ensures forall x :: 0 <= x < active ==> Logged(Last(t).log, x)
  {
    hide Run, CeilDiv, Logged;
    t := OwnersWorkOff(c, k, |c.order|);
    var s := Last(t);
    assert OwnerOk(c, s, k, |c.order|, k);
    ChunksTop(c, k);
    AtHome(c, s, k);
    t := Drain(c, t, k, 0, k, Chunks(c, k));
    var s1 := Last(t);
    forall i | 0 <= i < |c.order|
      ensures QueueLogged(c, s1.log, i) && (i != k ==> !s1.working[i] && s1.pcs[i] == Check(1))
    {
      assert OwnerOk(c, s, k, |c.order|, i);
      if i != k {
        QueueStaysLogged(c, s.log, s1.log, i);
      }
    }
    forall x | 0 <= x < active
      ensures Logged(s1.log, x)
    {
      assert InSomeQueue(c, x);
      var l :| 0 <= l < |c.end| && c.begin[l] <= x < c.end[l];
      assert QueueLogged(c, s1.log, l);
    }
  }

  /** How many threads it takes to push the cursor of queue k past 2^32. */
  lemma Overshooters(top: nat, threads: nat) returns (m: nat)
    requires top < TWO32 <= top + CHUNK * (threads - 1)
    ensures 0 < m <= threads - 1 && TWO32 <= top + CHUNK * m < TWO32 + CHUNK && top + CHUNK * (m - 1) < TWO32
  {
    m := (TWO32 - top + CHUNK - 1) / CHUNK;
  }

  /**
   * No queue ends beyond 2^32, but queue k has no room for all the overshoots: its owner comes last and
   * starts over.
   */
  lemma OvershootWraps(c: Config, active: nat, k: nat) returns (t: seq<State>)
    requires c.Valid() && Covers(c, active) && k < |c.order| && !c.FitsAt(k)
    requires forall i :: 0 <= i < |c.order| ==> c.Top(i) < TWO32
    ensures Ran(c, t) && !NoRepeat(Last(t).log)
  {
    hide Run, CeilDiv, Logged;
    ChunksTop(c, k);
    var m := Overshooters(c.Top(k), |c.order|);
    var n := if m <= k then m else m + 1;
    assert Others(k, n) == m;
    t := AllWorkedOff(c, active, k);
    var log := Last(t).log;
    t := AllComeBy(c, t, k, n, log);
    WrapsTo(c.begin[k], Chunks(c, k) + m);
    assert c.Top(k) + CHUNK * m == c.begin[k] + CHUNK * (Chunks(c, k) + m);
    AtHome(c, Last(t), k);
    t := Again(c, t, k, 0, k);
  }

  // ----- The exact condition -----

  /** Without the condition some run processes an index twice. */
  lemma UnfitRepeats(c: Config, active: nat) returns (t: seq<State>)
    requires c.Valid() && Covers(c, active) && !c.Fits()
    ensures Run(c, t) && 0 < |t| && !NoRepeat(Last(t).log)
  {
    hide CeilDiv;
    var k :| 0 <= k < |c.end| && !c.FitsAt(k);
    if i :| 0 <= i < |c.order| && TWO32 <= c.Top(i) {
      t := TopWraps(c, active, i);
    } else {
      t := OvershootWraps(c, active, k);
    }
  }

  /**
   * 32 bits are enough exactly when every queue fits: then, and only then, no run ever processes an index
   * twice.
   */
  lemma FitsExactly(c: Config, active: nat)
    requires c.Valid() && c.Disjoint() && Covers(c, active)
    ensures c.Fits() <==> forall trace :: Ran(c, trace) ==> NoRepeat(Last(trace).log)
  {
    if c.Fits() {
      forall trace | Ran(c, trace)
        ensures NoRepeat(Last(trace).log)
      {
        RunInv(c, trace, |trace| - 1);
      }
    } else {
      var t := UnfitRepeats(c, active);
      assert Ran(c, t);
    }
  }

  /** One thread with all the walkers. */
  function OneThread(active: nat): Config {
    Config([0], [active], [[0]])
  }

  /** One thread alone can process as many walkers as end at a chunk that ends below 2^32. */
  lemma OneThreadFits(active: nat)
    requires active < TWO32
    ensures OneThread(active).Valid() && OneThread(active).Disjoint() && Covers(OneThread(active), active)
    ensures OneThread(active).Fits() <==> active <= TWO32 - 64
  {
    var c := OneThread(active);
    assert c.OrderOk(0);
    forall x | 0 <= x < active
      ensures InSomeQueue(c, x)
    {
      assert c.begin[0] <= x < c.end[0];
    }
    assert c.Fits() <==> c.FitsAt(0);
  }
}
