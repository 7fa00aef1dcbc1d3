/**
 * Which draws each step of each walker was decided by. A ledger books, for every step, the stretch of
 * some thread's stream that was drawn for it, and the real draws in that stretch.
 */
module Ledgers {
  import opened Perm
  import opened Csr

  /** A walker, numbered over the whole job, and a step of its path; step 0 is its start. */
  datatype Tag = Tag(walker: nat, step: nat)

  /** One proposal of the rejection loop: a neighbour, and the real draw (at stream position `at`) it met. */
  datatype Proposal = Proposal(next: nat, at: nat, prob: real)

  /**
   * The positions [from, to) of thread r's stream were drawn for one step; the log holds the proposals made
   * with them. With a direct sampler every proposal was itself drawn within the stretch.
   */
  datatype Visit = Visit(r: nat, from: nat, to: nat, direct: bool, log: seq<Proposal>)

  type Ledger = map<Tag, Visit>

  /** How much of a thread's stream is used up, and at which positions real numbers were drawn. */
  datatype Meter = Meter(pos: nat, reals: set<nat>)

  ghost function MeterOf(rd: Rand): Meter
    reads rd
  {
    Meter(rd.pos, rd.realAt)
  }

  ghost function Clock(rands: seq<Rand>): (c: seq<Meter>)
    reads rands
    ensures |c| == |rands| && forall r :: 0 <= r < |rands| ==> c[r] == MeterOf(rands[r])
  {
    seq(|rands|, r requires 0 <= r < |rands| reads rands => MeterOf(rands[r]))
  }

  /** Only thread r has drawn. */
  twostate lemma OneDrew(rands: seq<Rand>, new r: nat)
    requires Distinct(rands) && r < |rands|
    requires forall k :: 0 <= k < |rands| && rands[k] != rands[r] ==> unchanged(rands[k])
    ensures Clock(rands) == old(Clock(rands))[r := MeterOf(rands[r])]
  {
    forall k | 0 <= k < |rands| && k != r
      ensures rands[k] != rands[r]
    {
      assert if k < r then rands[k] != rands[r] else rands[r] != rands[k];
    }
  }

  // ----- Logs -----

  ghost function Ats(log: seq<Proposal>): set<nat> {
    set i | 0 <= i < |log| :: log[i].at
  }

  /** The positions of the log lie in [from, to) and rise. */
  ghost predicate Climbs(log: seq<Proposal>, from: nat, to: nat) {
    && from <= to
    && (forall i :: 0 <= i < |log| ==> from <= log[i].at < to)
    && (forall i, j :: 0 <= i < j < |log| ==> log[i].at < log[j].at)
  }

  lemma AtsGrow(log: seq<Proposal>, o: Proposal)
    ensures Ats(log + [o]) == Ats(log) + {o.at}
  {
    assert (log + [o])[|log|] == o;
    assert forall i :: 0 <= i < |log| ==> (log + [o])[i] == log[i];
  }

  // ----- The ledger between two moments -----

  ghost predicate Ticked(c0: seq<Meter>, c1: seq<Meter>) {
    |c0| == |c1| && forall r :: 0 <= r < |c0| ==> c0[r].pos <= c1[r].pos
  }

  ghost predicate Kept(led: Ledger, led': Ledger) {
    forall t :: t in led ==> t in led' && led'[t] == led[t]
  }

  /** All that is new was booked by thread r. */
  ghost predicate NewBy(led: Ledger, led': Ledger, r: nat) {
    forall t :: New(led, led', t) ==> led'[t].r == r
  }

  lemma NewByOn(led: Ledger, led1: Ledger, led': Ledger, r: nat)
    requires NewBy(led, led1, r) && NewBy(led1, led', r) && Kept(led1, led')
    ensures NewBy(led, led', r)
  {
    forall t | New(led, led', t)
      ensures led'[t].r == r
    {
      assert t in led1 ==> New(led, led1, t);
      assert t !in led1 ==> New(led1, led', t);
    }
  }

  ghost predicate New(led: Ledger, led': Ledger, t: Tag) {
    t in led' && t !in led
  }

  /** The visit used draws made between the two moments. */
  ghost predicate During(v: Visit, c0: seq<Meter>, c1: seq<Meter>) {
    && v.r < |c0| == |c1| && c0[v.r].pos <= v.from <= v.to <= c1[v.r].pos && Climbs(v.log, v.from, v.to)
  }

  /** No draw belongs to both visits. */
  ghost predicate Unshared(v: Visit, u: Visit) {
    v.r != u.r || v.to <= u.from || u.to <= v.from
  }

  /** The real draw at this position was made for a newly booked step. */
  ghost predicate NewlyDrawn(led: Ledger, led': Ledger, r: nat, at: nat) {
    exists t :: New(led, led', t) && led'[t].r == r && at in Ats(led'[t].log)
  }

  ghost predicate RealsBooked(led: Ledger, led': Ledger, c0: seq<Meter>, c1: seq<Meter>, r: nat)
    requires r < |c0| == |c1|
  {
    forall at: nat :: at in c1[r].reals <==> at in c0[r].reals || NewlyDrawn(led, led', r, at)
  }

  /**
   * What was booked between two moments: every new visit used draws made in between, no two of them the
   * same draw, and every real draw made in between belongs to one of them.
   */
  ghost predicate Advanced(led: Ledger, led': Ledger, c0: seq<Meter>, c1: seq<Meter>) {
    && Ticked(c0, c1) && Kept(led, led')
    && (forall t :: New(led, led', t) ==> During(led'[t], c0, c1))
    && (forall s, t :: New(led, led', s) && New(led, led', t) && s != t ==> Unshared(led'[s], led'[t]))
    && (forall r :: 0 <= r < |c0| ==> RealsBooked(led, led', c0, c1, r))
  }

  lemma NothingBooked(led: Ledger, c0: seq<Meter>, c1: seq<Meter>)
    requires Ticked(c0, c1) && forall r :: 0 <= r < |c0| ==> c1[r].reals == c0[r].reals
    ensures Advanced(led, led, c0, c1)
  {
  }

  lemma TickedOn(c0: seq<Meter>, c1: seq<Meter>, c2: seq<Meter>)
    requires Ticked(c0, c1) && Ticked(c1, c2)
    ensures Ticked(c0, c2)
  {
  }

  lemma BookingKept(led: Ledger, led': Ledger, c0: seq<Meter>, c1: seq<Meter>)
    requires Advanced(led, led', c0, c1)
    ensures Kept(led, led') && Ticked(c0, c1)
  {
  }

  /** One step's draws are booked. */
  lemma OneBooked(led: Ledger, c: seq<Meter>, t: Tag, v: Visit, m: Meter)
    requires t !in led && v.r < |c| && v.from == c[v.r].pos && v.to == m.pos && Climbs(v.log, v.from, v.to)
    requires m.reals == c[v.r].reals + Ats(v.log)
    ensures Advanced(led, led[t := v], c, c[v.r := m])
  {
    var led', c' := led[t := v], c[v.r := m];
    assert New(led, led', t);
    forall r | 0 <= r < |c|
      ensures RealsBooked(led, led', c, c', r)
    {
      forall at: nat
        ensures at in c'[r].reals <==> at in c[r].reals || NewlyDrawn(led, led', r, at)
      {
        if r == v.r && at in Ats(v.log) {
          assert New(led, led', t) && led'[t].r == r && at in Ats(led'[t].log);
        }
      }
    }
  }

  lemma StillDuring(v: Visit, c0: seq<Meter>, c1: seq<Meter>, c2: seq<Meter>)
    requires Ticked(c0, c1) && Ticked(c1, c2)
    ensures During(v, c0, c1) ==> During(v, c0, c2)
    ensures During(v, c1, c2) ==> During(v, c0, c2)
  {
  }

  lemma AdvancedOn(led: Ledger, led1: Ledger, led2: Ledger, c0: seq<Meter>, c1: seq<Meter>, c2: seq<Meter>)
    requires Advanced(led, led1, c0, c1) && Advanced(led1, led2, c1, c2)
    ensures Advanced(led, led2, c0, c2)
  {
    hide Climbs, Ats;
    assert forall t :: New(led, led2, t) ==> (New(led, led1, t) && led2[t] == led1[t]) || New(led1, led2, t);
    forall t | New(led, led2, t)
      ensures During(led2[t], c0, c2)
    {
      StillDuring(led2[t], c0, c1, c2);
    }
    forall s, t | New(led, led2, s) && New(led, led2, t) && s != t
      ensures Unshared(led2[s], led2[t])
    {
      if New(led, led1, s) && New(led, led1, t) {
        assert Unshared(led1[s], led1[t]);
      } else if New(led1, led2, s) && New(led1, led2, t) {
        assert Unshared(led2[s], led2[t]);
      } else if New(led, led1, s) {
        assert During(led1[s], c0, c1) && During(led2[t], c1, c2);
      } else {
        assert During(led1[t], c0, c1) && During(led2[s], c1, c2);
      }
    }
    forall r | 0 <= r < |c0|
      ensures RealsBooked(led, led2, c0, c2, r)
    {
      RealsOn(led, led1, led2, c0, c1, c2, r);
    }
  }

  lemma RealsOn(led: Ledger, led1: Ledger, led2: Ledger, c0: seq<Meter>, c1: seq<Meter>, c2: seq<Meter>, r: nat)
    requires Kept(led, led1) && Kept(led1, led2) && r < |c0| == |c1| == |c2|
    requires RealsBooked(led, led1, c0, c1, r) && RealsBooked(led1, led2, c1, c2, r)
    ensures RealsBooked(led, led2, c0, c2, r)
  {
    hide Ats;
    forall at: nat
      ensures at in c2[r].reals <==> at in c0[r].reals || NewlyDrawn(led, led2, r, at)
    {
      if NewlyDrawn(led, led1, r, at) {
        var t :| New(led, led1, t) && led1[t].r == r && at in Ats(led1[t].log);
        assert New(led, led2, t);
      } else if NewlyDrawn(led1, led2, r, at) {
        var t :| New(led1, led2, t) && led2[t].r == r && at in Ats(led2[t].log);
        assert New(led, led2, t);
      }
    }
  }

  /** The whole ledger so far: every visit lies in the past, and no draw decided two steps. */
  ghost predicate Sound(led: Ledger, c: seq<Meter>) {
    && (forall t :: t in led ==>
         led[t].r < |c| && led[t].to <= c[led[t].r].pos && Climbs(led[t].log, led[t].from, led[t].to))
    && (forall s, t :: s in led && t in led && s != t ==> Unshared(led[s], led[t]))
  }

  lemma StaysSound(led: Ledger, led': Ledger, c0: seq<Meter>, c1: seq<Meter>)
    requires Sound(led, c0) && Advanced(led, led', c0, c1)
    ensures Sound(led', c1)
  {
    hide Climbs, RealsBooked;
    forall t | t in led'
      ensures led'[t].r < |c1| && led'[t].to <= c1[led'[t].r].pos && Climbs(led'[t].log, led'[t].from, led'[t].to)
    {
      if t !in led {
        assert New(led, led', t);
        assert During(led'[t], c0, c1);
      }
    }
    forall s, t | s in led' && t in led' && s != t
      ensures Unshared(led'[s], led'[t])
    {
      assert New(led, led', s) ==> During(led'[s], c0, c1);
      assert New(led, led', t) ==> During(led'[t], c0, c1);
    }
  }

  /** Time passing does no harm to a ledger. */
  lemma SoundLater(led: Ledger, c0: seq<Meter>, c1: seq<Meter>)
    requires Sound(led, c0) && Ticked(c0, c1)
    ensures Sound(led, c1)
  {
    hide Climbs;
  }

  /** Step `step` of the walkers [lo, hi). */
  datatype Span = Span(step: nat, lo: nat, hi: nat)

  /** Only steps of the span were newly booked. */
  ghost predicate BookedOnly(led: Ledger, led': Ledger, span: Span) {
    forall t :: New(led, led', t) ==> t.step == span.step && span.lo <= t.walker < span.hi
  }

  /** What was booked between two moments, for steps of the span alone. */
  ghost predicate Books(led: Ledger, led': Ledger, c0: seq<Meter>, c1: seq<Meter>, span: Span) {
    Advanced(led, led', c0, c1) && BookedOnly(led, led', span)
  }

  lemma NoBooks(led: Ledger, c: seq<Meter>, span: Span)
    ensures Books(led, led, c, c, span) && Ticked(c, c)
  {
    NothingBooked(led, c, c);
  }

  lemma BooksOn(led: Ledger, led1: Ledger, led2: Ledger, c0: seq<Meter>, c1: seq<Meter>, c2: seq<Meter>, span: Span)
    requires Books(led, led1, c0, c1, span) && Books(led1, led2, c1, c2, span)
    ensures Books(led, led2, c0, c2, span)
  {
    AdvancedOn(led, led1, led2, c0, c1, c2);
    hide Advanced;
    assert forall t :: New(led, led2, t) ==> New(led, led1, t) || New(led1, led2, t);
  }

  lemma BooksWider(led: Ledger, led': Ledger, c0: seq<Meter>, c1: seq<Meter>, span: Span, wide: Span)
    requires Books(led, led', c0, c1, span) && span.step == wide.step && wide.lo <= span.lo && span.hi <= wide.hi
    ensures Books(led, led', c0, c1, wide)
  {
    hide Advanced;
  }
}
