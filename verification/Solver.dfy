/**
 * FMobSolver of src/core/solver.hpp: an epoch walks all its walkers in lock step and writes their paths
 * out; epochs follow one another until no walker is left.
 */
module Solver {
  import opened Arith
  import opened Buckets
  import opened Partition
  import opened Csr
  import opened Neighbors
  import opened Walk
  import opened Message
  import opened Shuffling
  import opened Stepping
  import opened Rounds
  import opened WalkerRanges
  import opened EpochSize
  import opened Ledgers

  // ----- Paths -----

  /** The start was drawn at the booked position, with one draw. */
  ghost predicate StartedBy(w: World, led: Ledger, tag: Tag, v: nat) {
    && 0 < |w.h.adj| && tag in led && led[tag].r < |w.rands|
    && v == w.rands[led[tag].r].Draw(led[tag].from, |w.h.adj|) && led[tag].to == led[tag].from + 1
  }

  /**
   * What the path of walker n must be: it starts at the vertex drawn for it, and every step is one the walk
   * can take, node2vec steps seeing where it came from, each decided by the draws booked for it.
   */
  ghost predicate LegalPath(w: World, led: Ledger, n: nat, path: seq<nat>)
    requires w.mode.Legal()
  {
    && 0 < |path| && path[0] < |w.h.adj| && StartedBy(w, led, Tag(n, 0), path[0])
    && forall l :: 0 < l < |path| ==> LegalStep(w, led, n, path, l)
  }

  /**
   * Step l of a path. A node2vec step from the second on is drawn against the vertex before the last
   * one; the first has no such vertex and is drawn against whatever state the walker's slot held.
   */
  ghost predicate LegalStep(w: World, led: Ledger, n: nat, path: seq<nat>, l: nat)
    requires w.mode.Legal() && 0 < l < |path|
  {
    if w.mode.Node2vec? && 1 < l then Stepped(w, led, Tag(n, l), path[l - 2], path[l - 1], path[l])
    else SteppedSomehow(w, led, Tag(n, l), path[l - 1], path[l])
  }

  /** Every path is a path of the graph. */
  lemma LegalPathIsPath(w: World, led: Ledger, n: nat, path: seq<nat>, l: nat)
    requires w.mode.Legal() && LegalPath(w, led, n, path) && 0 < l < |path|
    ensures w.h.Edge(path[l - 1], path[l])
  {
    assert LegalStep(w, led, n, path, l);
  }

  /**
   * What decided step l of a static walk: with a direct sampler the one draw booked for it, which picks the next
   * vertex among the neighbours of the last.
   */
  lemma StaticStep(w: World, led: Ledger, n: nat, path: seq<nat>, l: nat)
    requires w.mode.Static? && w.h.Valid() && LegalPath(w, led, n, path) && 0 < l < |path|
    ensures path[l - 1] < |w.h.adj| && Tag(n, l) in led && led[Tag(n, l)].r < |w.rands| && led[Tag(n, l)].log == []
    ensures var v := led[Tag(n, l)];
            var here := w.h.Neighbors(path[l - 1]);
            v.direct ==> v.to == v.from + 1 && path[l] == here[w.rands[v.r].Draw(v.from, |here|)]
  {
    assert LegalStep(w, led, n, path, l);
  }

  /**
   * What decided step l of a node2vec walk, from the second on: a rejection loop whose proposals were judged
   * against the vertex two steps before, in which only the last one was accepted.
   */
  lemma NodeStep(w: World, led: Ledger, n: nat, path: seq<nat>, l: nat, i: nat)
    requires w.mode.Node2vec? && w.mode.Legal() && LegalPath(w, led, n, path) && 1 < l < |path|
    ensures path[l] != path[l - 1]
    ensures Tag(n, l) in led && 0 < |led[Tag(n, l)].log| && led[Tag(n, l)].r < |w.rands|
    ensures i < |led[Tag(n, l)].log| ==>
      var o, last, prev := led[Tag(n, l)].log[i], i == |led[Tag(n, l)].log| - 1, path[l - 2];
      && o.prob == w.rands[led[Tag(n, l)].r].DrawReal(o.at, UpperBound(w.mode.p, w.mode.q))
      && w.h.Edge(path[l - 1], o.next) && (last ==> o.next == path[l])
      && (o.next == prev ==> (o.prob <= 1.0 / w.mode.p <==> last))
      && (o.next != prev && w.h.Edge(prev, o.next) ==> (o.prob <= 1.0 <==> last))
      && (o.next != prev && !w.h.Edge(prev, o.next) ==> (o.prob <= 1.0 / w.mode.q <==> last))
  {
    assert LegalStep(w, led, n, path, l);
    assert Stepped(w, led, Tag(n, l), path[l - 2], path[l - 1], path[l]);
    var k: nat :| InPartition(w, k, path[l - 1])
      && StepBooked(w.h, w.mode, !w.buffered[k], w.rands, led, Tag(n, l), path[l - 2], path[l - 1], path[l]);
    if i < |led[Tag(n, l)].log| {
      DrawnAgainst(w.h, w.mode.p, w.mode.q, !w.buffered[k], w.rands, led, Tag(n, l), path[l - 2], path[l - 1],
                   path[l], i);
    }
  }

  lemma LegalPathKept(w: World, led: Ledger, led': Ledger, n: nat, path: seq<nat>)
    requires w.mode.Legal() && LegalPath(w, led, n, path) && Kept(led, led')
    ensures LegalPath(w, led', n, path)
  {
    hide Stepped;
    forall l | 0 < l < |path|
      ensures LegalStep(w, led', n, path, l)
    {
      var tag := Tag(n, l);
      assert LegalStep(w, led, n, path, l);
      if w.mode.Node2vec? && 1 < l {
        SteppedKept(w, led, led', tag, path[l - 2], path[l - 1], path[l]);
      } else {
        var s: nat :| s < |w.h.adj| && Stepped(w, led, tag, s, path[l - 1], path[l]);
        SteppedKept(w, led, led', tag, s, path[l - 1], path[l]);
      }
    }
  }

  /** The draws of two steps, of one walker or of two, are never the same. */
  lemma DrawsApart(w: World, led: Ledger, c: seq<Meter>, n: nat, path: seq<nat>, l: nat, n': nat, path': seq<nat>,
                   l': nat)
    requires w.mode.Legal() && Sound(led, c) && LegalPath(w, led, n, path) && LegalPath(w, led, n', path')
    requires l < |path| && l' < |path'| && (n != n' || l != l')
    ensures Tag(n, l) in led && Tag(n', l') in led && Unshared(led[Tag(n, l)], led[Tag(n', l')])
  {
    assert l != 0 ==> LegalStep(w, led, n, path, l);
    assert l' != 0 ==> LegalStep(w, led, n', path', l');
  }

  /** Walker x's column of the step arrays. */
  ghost function Column(rows: seq<seq<nat>>, x: nat): (path: seq<nat>)
    requires forall l :: 0 <= l < |rows| ==> x < |rows[l]|
    ensures |path| == |rows| && forall l :: 0 <= l < |rows| ==> path[l] == rows[l][x]
  {
    seq<nat>(|rows|, l requires 0 <= l < |rows| => rows[l][x])
  }

  /** The states that step l is taken with: none before there are any, and none in static walks. */
  ghost function Before(w: World, rows: seq<seq<nat>>, l: nat): seq<nat>
    requires l <= |rows|
  {
    if w.mode.Node2vec? && 1 < l then rows[l - 2] else []
  }

  /** The n walkers from number `first` on start at these vertices. */
  ghost predicate AllStarted(w: World, led: Ledger, first: nat, starts: seq<nat>, n: nat) {
    n <= |starts| && forall x :: 0 <= x < n ==> StartedAt(w, led, first, starts, x)
  }

  ghost predicate StartedAt(w: World, led: Ledger, first: nat, starts: seq<nat>, x: nat)
    requires x < |starts|
  {
    starts[x] < |w.h.adj| && StartedBy(w, led, Tag(first + x, 0), starts[x])
  }

  lemma AllStartedKept(w: World, led: Ledger, led': Ledger, first: nat, starts: seq<nat>, starts': seq<nat>, n: nat)
    requires AllStarted(w, led, first, starts, n) && Kept(led, led') && n <= |starts'| && starts'[..n] == starts[..n]
    ensures AllStarted(w, led', first, starts', n)
  {
    forall x | 0 <= x < n
      ensures StartedAt(w, led', first, starts', x)
    {
      assert StartedAt(w, led, first, starts, x) && starts'[x] == starts'[..n][x] == starts[..n][x];
    }
  }

  /** The visited walker's start was drawn by the visiting thread. */
  ghost predicate VisitedBy(led: Ledger, first: nat, visit: Turn) {
    Tag(first + visit.p, 0) in led && led[Tag(first + visit.p, 0)].r == visit.r
  }

  /** The tags of the starts, visit by visit. */
  ghost function StartTags(first: nat, visits: seq<Turn>): (tags: seq<Tag>)
    ensures |tags| == |visits| && forall i :: 0 <= i < |tags| ==> tags[i] == Tag(first + visits[i].p, 0)
  {
    seq(|visits|, i requires 0 <= i < |visits| => Tag(first + visits[i].p, 0))
  }

  lemma StartsUnbooked(led: Ledger, first: nat, visits: seq<Turn>, active: nat, threadNum: nat)
    requires Schedule(visits, active, threadNum) && Unwalked(led, Span(0, first, first + active))
    ensures Unbooked(led, StartTags(first, visits), 0, |visits|)
  {
    var tags := StartTags(first, visits);
    forall i, j | 0 <= i < j < |visits|
      ensures tags[i] != tags[j]
    {
      assert visits[i].p != visits[j].p;
    }
  }

  /** The walkers of the first i visits have their starts, drawn by their visitors. */
  ghost predicate DrawnTo(w: World, led: Ledger, tags: seq<Tag>, starts: seq<nat>, visits: seq<Turn>, i: nat) {
    i <= |visits| == |tags| && forall j :: 0 <= j < i ==> DrawnAt(w, led, tags[j], starts, visits[j])
  }

  ghost predicate DrawnAt(w: World, led: Ledger, tag: Tag, starts: seq<nat>, visit: Turn) {
    && visit.p < |starts| && starts[visit.p] < |w.h.adj|
    && StartedBy(w, led, tag, starts[visit.p]) && led[tag].r == visit.r
  }

  lemma DrawnStays(w: World, led: Ledger, led': Ledger, tag: Tag, starts: seq<nat>, v: nat, visit: Turn, p: nat)
    requires DrawnAt(w, led, tag, starts, visit) && Kept(led, led') && p < |starts| && p != visit.p
    ensures DrawnAt(w, led', tag, starts[p := v], visit)
  {
  }

  lemma DrawnOn(w: World, led: Ledger, led': Ledger, tags: seq<Tag>, starts: seq<nat>, v: nat, visits: seq<Turn>,
                i: nat, active: nat)
    requires i < |visits| && Schedule(visits, active, |w.rands|) && DrawnTo(w, led, tags, starts, visits, i)
    requires Kept(led, led')
    requires visits[i].p < |starts| && DrawnAt(w, led', tags[i], starts[visits[i].p := v], visits[i])
    ensures DrawnTo(w, led', tags, starts[visits[i].p := v], visits, i + 1)
  {
    hide DrawnAt, Kept;
    forall j | 0 <= j < i
      ensures DrawnAt(w, led', tags[j], starts[visits[i].p := v], visits[j])
    {
      DrawnStays(w, led, led', tags[j], starts, v, visits[j], visits[i].p);
    }
  }

  lemma EverybodyDrew(w: World, led: Ledger, first: nat, starts: seq<nat>, visits: seq<Turn>, active: nat)
    requires Schedule(visits, active, |w.rands|) && active <= |starts|
    requires DrawnTo(w, led, StartTags(first, visits), starts, visits, |visits|)
    ensures AllStarted(w, led, first, starts, active)
    ensures forall i :: 0 <= i < |visits| ==> VisitedBy(led, first, visits[i])
  {
    hide StartedBy;
    var tags := StartTags(first, visits);
    forall x | 0 <= x < active
      ensures StartedAt(w, led, first, starts, x)
    {
      AllTaken(visits, active, |w.rands|, x);
      TakenIff(visits, |visits|, x);
      var j :| 0 <= j < |visits| && visits[j].p == x;
      assert DrawnAt(w, led, tags[j], starts, visits[j]);
    }
    forall i | 0 <= i < |visits|
      ensures VisitedBy(led, first, visits[i])
    {
      VisitIsBooked(w, led, tags[i], starts, visits[i]);
    }
  }

  lemma VisitIsBooked(w: World, led: Ledger, tag: Tag, starts: seq<nat>, visit: Turn)
    requires DrawnAt(w, led, tag, starts, visit)
    ensures tag in led && led[tag].r == visit.r
  {
  }

  lemma StartsBelow(w: World, led: Ledger, first: nat, starts: seq<nat>, n: nat)
    requires AllStarted(w, led, first, starts, n)
    ensures AllBelow(starts[..n], |w.h.adj|)
  {
    forall x | 0 <= x < n
      ensures starts[..n][x] < |w.h.adj|
    {
      assert StartedAt(w, led, first, starts, x);
    }
  }

  /** The first n step arrays hold lock-step walks of the active walkers, which are numbered from `first` on. */
  ghost predicate WalkedUpTo(w: World, led: Ledger, first: nat, all: seq<seq<Turn>>, rows: seq<seq<nat>>, n: nat,
                             active: nat)
    requires w.mode.Legal()
  {
    && 0 < n <= |rows| == |all| && (forall l :: 0 <= l < |rows| ==> 0 < |rows[l]| && active <= |rows[l]|)
    && AllStarted(w, led, first, rows[0], active)
    && forall l :: 0 < l < n ==> StepMoved(w, led, first, all, rows, l, active)
  }

  ghost predicate StepMoved(w: World, led: Ledger, first: nat, all: seq<seq<Turn>>, rows: seq<seq<nat>>, l: nat,
                            active: nat)
    requires w.mode.Legal() && 0 < l < |rows| == |all|
  {
    && Moved(w, led, first, l, Before(w, rows, l), rows[l - 1], rows[l], active)
    && TurnsKept(w, led, first, l, rows[l - 1], Taken(all[l], |all[l]|), active)
  }

  /** The path's steps were taken by the threads whose turns, in the step's round, its vertices' partitions were. */
  ghost predicate PathTurned(w: World, led: Ledger, n: nat, path: seq<nat>, all: seq<seq<Turn>>) {
    && |all| == |path|
    && forall l :: 0 < l < |path| ==> TurnKept(w, led, Tag(n, l), path[l - 1], Taken(all[l], |all[l]|))
  }

  lemma PathTurnedKept(w: World, led: Ledger, led': Ledger, n: nat, path: seq<nat>, all: seq<seq<Turn>>)
    requires PathTurned(w, led, n, path, all) && Kept(led, led')
    ensures PathTurned(w, led', n, path, all)
  {
    forall l | 0 < l < |path|
      ensures TurnKept(w, led', Tag(n, l), path[l - 1], Taken(all[l], |all[l]|))
    {
      TurnKeptOn(w, led, led', Tag(n, l), path[l - 1], Taken(all[l], |all[l]|));
    }
  }

  lemma ColumnLegal(w: World, led: Ledger, first: nat, all: seq<seq<Turn>>, rows: seq<seq<nat>>, active: nat, x: nat)
    requires w.mode.Legal() && WalkedUpTo(w, led, first, all, rows, |rows|, active) && x < active
    ensures LegalPath(w, led, first + x, Column(rows, x)) && PathTurned(w, led, first + x, Column(rows, x), all)
  {
    hide Stepped, StartedBy, TurnKept;
    var path, n := Column(rows, x), first + x;
    assert StartedAt(w, led, first, rows[0], x);
    forall l | 0 < l < |path|
      ensures LegalStep(w, led, n, path, l) && TurnKept(w, led, Tag(n, l), path[l - 1], Taken(all[l], |all[l]|))
    {
      assert StepMoved(w, led, first, all, rows, l, active);
      assert WalkerMoved(w, led, first, l, Before(w, rows, l), rows[l - 1], rows[l], x);
    }
  }

  lemma MovedBelow(w: World, led: Ledger, first: nat, step: nat, prev: seq<nat>, cur: seq<nat>, next: seq<nat>,
                   active: nat)
    requires w.mode.Legal() && w.h.Valid() && Moved(w, led, first, step, prev, cur, next, active)
    ensures AllBelow(next[..active], |w.h.adj|)
  {
    forall x | 0 <= x < active
      ensures next[x] < |w.h.adj|
    {
      assert WalkerMoved(w, led, first, step, prev, cur, next, x);
      assert w.h.Edge(cur[x], next[x]);
      assert w.h.NeighborsOk(cur[x]);
    }
  }

  /** All rows of a walk hold vertices. */
  lemma RowBelow(w: World, led: Ledger, first: nat, all: seq<seq<Turn>>, rows: seq<seq<nat>>, n: nat, active: nat,
                 l: nat)
    requires w.mode.Legal() && w.h.Valid() && WalkedUpTo(w, led, first, all, rows, n, active) && l < n
    ensures AllBelow(rows[l][..active], |w.h.adj|)
  {
    if 0 < l {
      assert StepMoved(w, led, first, all, rows, l, active);
      MovedBelow(w, led, first, l, Before(w, rows, l), rows[l - 1], rows[l], active);
    } else {
      StartsBelow(w, led, first, rows[0], active);
    }
  }

  /** One more step array. */
  lemma OneMoreRow(w: World, led: Ledger, led': Ledger, first: nat, all: seq<seq<Turn>>, rows: seq<seq<nat>>,
                   rows': seq<seq<nat>>, n: nat, active: nat)
    requires w.mode.Legal() && WalkedUpTo(w, led, first, all, rows, n, active) && n < |rows| == |rows'| == |all|
    requires Kept(led, led')
    requires rows' == rows[n := rows'[n]] && |rows'[n]| == |rows[n]|
    requires Moved(w, led', first, n, Before(w, rows, n), rows[n - 1], rows'[n], active)
    requires TurnsKept(w, led', first, n, rows[n - 1], Taken(all[n], |all[n]|), active)
    ensures WalkedUpTo(w, led', first, all, rows', n + 1, active)
  {
    hide Moved, Kept, TurnsKept;
    AllStartedKept(w, led, led', first, rows[0], rows'[0], active);
    forall l | 0 < l < n + 1
      ensures StepMoved(w, led', first, all, rows', l, active)
    {
      assert Before(w, rows', l) == Before(w, rows, l);
      if l < n {
        assert StepMoved(w, led, first, all, rows, l, active);
        MovedKept(w, led, led', first, l, Before(w, rows, l), rows[l - 1], rows[l], active);
        TurnsKeptOn(w, led, led', first, l, rows[l - 1], Taken(all[l], |all[l]|), active);
      }
    }
  }

  // ----- What is booked when -----

  /** Booked are steps of walkers below `first`, and of the `active` next ones the steps below l. */
  ghost predicate Upto(led: Ledger, first: nat, active: nat, l: nat) {
    forall t :: t in led ==> t.walker < first || (t.walker < first + active && t.step < l)
  }

  lemma UptoNext(led: Ledger, led': Ledger, c: seq<Meter>, c': seq<Meter>, first: nat, active: nat, l: nat)
    requires Upto(led, first, active, l) && Books(led, led', c, c', Span(l, first, first + active))
    ensures Upto(led', first, active, l + 1)
  {
    hide Advanced;
    forall t | t in led'
      ensures t.walker < first || (t.walker < first + active && t.step < l + 1)
    {
      assert t in led || New(led, led', t);
    }
  }

  lemma UptoDone(led: Ledger, first: nat, active: nat, l: nat)
    requires Upto(led, first, active, l)
    ensures Upto(led, first + active, 0, 0)
  {
  }

  lemma NotYetWalked(led: Ledger, first: nat, active: nat, l: nat)
    requires Upto(led, first, active, l)
    ensures Unwalked(led, Span(l, first, first + active))
  {
  }

  // ----- Writing the paths out -----

  /** Path x of the output is walker x's column. */
  ghost predicate PathWritten(out: seq<nat>, rows: seq<seq<nat>>, x: nat) {
    && (x + 1) * |rows| <= |out|
    && forall l :: 0 <= l < |rows| ==> x < |rows[l]| && 0 <= x * |rows| + l < |out| && out[x * |rows| + l] == rows[l][x]
  }

  /** Two walkers' stretches of the output do not overlap. */
  lemma StretchesApart(x: nat, y: nat, len: nat)
    requires x != y
    ensures (x + 1) * len <= y * len || (y + 1) * len <= x * len
  {
    if x < y {
      MulMono(x + 1, y, len);
    } else {
      MulMono(y + 1, x, len);
    }
  }

  lemma PathKept(out: seq<nat>, out': seq<nat>, rows: seq<seq<nat>>, x: nat, y: nat)
    requires PathWritten(out, rows, y) && |out| == |out'| && x != y
    requires forall i :: 0 <= i < |out| && !(x * |rows| <= i < (x + 1) * |rows|) ==> out'[i] == out[i]
    ensures PathWritten(out', rows, y)
  {
    StretchesApart(x, y, |rows|);
    assert (y + 1) * |rows| == y * |rows| + |rows|;
    forall l | 0 <= l < |rows|
      ensures out'[y * |rows| + l] == rows[l][y]
    {
    }
  }

  ghost predicate Holds(walks: seq<array<nat>>, rows: seq<seq<nat>>)
    reads walks
  {
    |rows| == |walks| && forall l :: 0 <= l < |walks| ==> walks[l][..] == rows[l]
  }

  /** One walker's turn of the final transposition. */
  method WritePath(output: array<nat>, walks: seq<array<nat>>, x: nat, ghost rows: seq<seq<nat>>)
    requires Holds(walks, rows) && (x + 1) * |walks| <= output.Length
    requires forall l :: 0 <= l < |walks| ==> x < walks[l].Length && walks[l] != output
    modifies output
    ensures PathWritten(output[..], rows, x) && Holds(walks, rows)
    ensures forall i :: 0 <= i < output.Length && !(x * |walks| <= i < (x + 1) * |walks|) ==>
      output[i] == old(output[i])
  {
    var base := x * |walks|;
    assert (x + 1) * |walks| == base + |walks|;
    for l := 0 to |walks|
      invariant forall i :: 0 <= i < l ==> output[base + i] == rows[i][x]
      invariant forall i :: 0 <= i < output.Length && !(base <= i < base + l) ==> output[i] == old(output[i])
      invariant Holds(walks, rows)
    {
      assert walks[l][x] == walks[l][..][x];
      output[base + l] := walks[l][x];
    }
  }

  /** The final transposition; the walkers come in any order. */
  method WritePaths(output: array<nat>, walks: seq<array<nat>>, visits: seq<Turn>, ghost rows: seq<seq<nat>>,
                    ghost active: nat, ghost threadNum: nat)
    requires Schedule(visits, active, threadNum) && Holds(walks, rows) && active * |walks| <= output.Length
    requires forall l :: 0 <= l < |walks| ==> active <= walks[l].Length && walks[l] != output
    modifies output
    ensures forall x :: 0 <= x < active ==> PathWritten(output[..], rows, x)
    ensures forall i :: active * |walks| <= i < output.Length ==> output[i] == old(output[i])
  {
    hide PathWritten, Holds;
    NoneTakenYet(visits);
    for i := 0 to |visits|
      invariant Holds(walks, rows)
      invariant forall j :: active * |walks| <= j < output.Length ==> output[j] == old(output[j])
      invariant forall x :: x in Taken(visits, i) ==> PathWritten(output[..], rows, x)
    {
      hide Schedule, Taken;
      ghost var before, done := output[..], Taken(visits, i);
      TakenNext(visits, active, threadNum, i);
      TurnInRange(visits, active, threadNum, i);
      MulMono(visits[i].p + 1, active, |walks|);
      WritePath(output, walks, visits[i].p, rows);
      forall x | x in Taken(visits, i + 1)
        ensures PathWritten(output[..], rows, x)
      {
        if x != visits[i].p {
          PathKept(before, output[..], rows, visits[i].p, x);
        }
      }
    }
    forall x | 0 <= x < active
      ensures PathWritten(output[..], rows, x)
    {
      AllTaken(visits, active, threadNum, x);
    }
  }

  /** Path x of an output array. */
  ghost function PathAt(out: seq<nat>, len: nat, x: nat): (path: seq<nat>)
    requires (x + 1) * len <= |out|
    ensures |path| == len
  {
    assert (x + 1) * len == x * len + len;
    out[x * len..x * len + len]
  }

  /** Step l of path x is at x * len + l. */
  lemma PathReadOff(out: seq<nat>, len: nat, n: nat, x: nat, l: nat)
    requires n * len <= |out| && x < n && l < len
    ensures x * len + l < |out| && PathsOf(out, len, n)[x][l] == out[x * len + l]
  {
    hide PathsOf;
    MulMono(x + 1, n, len);
    assert (x + 1) * len == x * len + len;
  }

  ghost predicate PathFits(out: seq<nat>, len: nat, x: nat) {
    (x + 1) * len <= |out|
  }

  lemma PathsFit(out: seq<nat>, len: nat, n: nat)
    requires n * len <= |out|
    ensures forall x :: 0 <= x < n ==> PathFits(out, len, x)
  {
    forall x | 0 <= x < n
      ensures PathFits(out, len, x)
    {
      MulMono(x + 1, n, len);
    }
  }

  /** The first n paths of an output array. */
  ghost function PathsOf(out: seq<nat>, len: nat, n: nat): (paths: seq<seq<nat>>)
    requires n * len <= |out|
    ensures |paths| == n
    ensures forall x :: 0 <= x < n ==> PathFits(out, len, x) && paths[x] == PathAt(out, len, x)
  {
    PathsFit(out, len, n);
    seq<seq<nat>>(n, x requires 0 <= x < n && PathFits(out, len, x) => PathAt(out, len, x))
  }

  /** Path x of the output is a legal path of walker first + x, from its start. */
  ghost predicate PathDone(w: World, led: Ledger, first: nat, all: seq<seq<Turn>>, out: seq<nat>, len: nat,
                           starts: seq<nat>, x: nat)
    requires w.mode.Legal()
  {
    && x < |starts| && (x + 1) * len <= |out|
    && LegalPath(w, led, first + x, PathAt(out, len, x)) && PathAt(out, len, x)[0] == starts[x]
    && PathTurned(w, led, first + x, PathAt(out, len, x), all)
  }

  lemma PathIsLegal(w: World, led: Ledger, first: nat, all: seq<seq<Turn>>, out: seq<nat>, rows: seq<seq<nat>>,
                    active: nat, x: nat)
    requires w.mode.Legal() && WalkedUpTo(w, led, first, all, rows, |rows|, active) && x < active
    requires PathWritten(out, rows, x)
    ensures PathDone(w, led, first, all, out, |rows|, rows[0], x)
  {
    ColumnLegal(w, led, first, all, rows, active, x);
    var b := x * |rows|;
    assert (x + 1) * |rows| == b + |rows|;
    assert PathAt(out, |rows|, x) == Column(rows, x);
  }

  lemma SameStart(w: World, led: Ledger, first: nat, all: seq<seq<Turn>>, out: seq<nat>, len: nat, row: seq<nat>,
                  starts: seq<nat>, n: nat, x: nat)
    requires w.mode.Legal() && PathDone(w, led, first, all, out, len, row, x) && x < n <= |row| && n <= |starts|
    requires row[..n] == starts[..n]
    ensures PathDone(w, led, first, all, out, len, starts, x)
  {
    assert row[x] == row[..n][x] == starts[..n][x];
  }

  lemma SameStarts(w: World, led: Ledger, first: nat, all: seq<seq<Turn>>, out: seq<nat>, len: nat, row: seq<nat>,
                   starts: seq<nat>, n: nat)
    requires w.mode.Legal() && n <= |row| && n <= |starts| && row[..n] == starts[..n]
    requires forall x :: 0 <= x < n ==> PathDone(w, led, first, all, out, len, row, x)
    ensures forall x :: 0 <= x < n ==> PathDone(w, led, first, all, out, len, starts, x)
  {
    hide PathDone;
    forall x | 0 <= x < n
      ensures PathDone(w, led, first, all, out, len, starts, x)
    {
      SameStart(w, led, first, all, out, len, row, starts, n, x);
    }
  }

  // ----- All epochs -----

  /** The epochs' blocks of paths, one after the other. */
  ghost function Flatten(blocks: seq<seq<seq<nat>>>): seq<seq<nat>> {
    if blocks == [] then [] else Flatten(blocks[..|blocks| - 1]) + blocks[|blocks| - 1]
  }

  lemma FlattenNext(blocks: seq<seq<seq<nat>>>, block: seq<seq<nat>>)
    ensures Flatten(blocks + [block]) == Flatten(blocks) + block
  {
    assert (blocks + [block])[..|blocks|] == blocks;
  }

  /** Path n is a legal path of walker n. */
  ghost predicate AllLegal(w: World, led: Ledger, paths: seq<seq<nat>>, len: nat)
    requires w.mode.Legal()
  {
    forall n :: 0 <= n < |paths| ==> |paths[n]| == len && LegalPath(w, led, n, paths[n])
  }

  lemma MoreLegal(w: World, led: Ledger, led': Ledger, paths: seq<seq<nat>>, all: seq<seq<Turn>>, out: seq<nat>,
                  len: nat, starts: seq<nat>, n: nat)
    requires w.mode.Legal() && AllLegal(w, led, paths, len) && Kept(led, led') && n * len <= |out|
    requires forall x :: 0 <= x < n ==> PathDone(w, led', |paths|, all, out, len, starts, x)
    ensures AllLegal(w, led', paths + PathsOf(out, len, n), len)
  {
    hide LegalPath, Kept, PathAt;
    var block := PathsOf(out, len, n);
    forall m | 0 <= m < |paths| + n
      ensures |(paths + block)[m]| == len && LegalPath(w, led', m, (paths + block)[m])
    {
      if m < |paths| {
        LegalPathKept(w, led, led', m, paths[m]);
      } else {
        assert PathDone(w, led', |paths|, all, out, len, starts, m - |paths|);
      }
    }
  }

  /** The block's paths, of walkers first, first + 1, ..., follow the turns of their epoch. */
  ghost predicate BlockTurned(w: World, led: Ledger, first: nat, block: seq<seq<nat>>, all: seq<seq<Turn>>) {
    forall x :: 0 <= x < |block| ==> PathTurned(w, led, first + x, block[x], all)
  }

  /** So do those of all epochs, the first of which began with walker `base`; epoch e follows the plan's e-th turns. */
  ghost predicate BlocksTurned(w: World, led: Ledger, base: nat, blocks: seq<seq<seq<nat>>>, plan: Plan, most: nat) {
    forall e :: 0 <= e < |blocks| ==> BlockTurned(w, led, base + e * most, blocks[e], plan.turns(e))
  }

  lemma IsBlockTurned(w: World, led: Ledger, first: nat, all: seq<seq<Turn>>, out: seq<nat>, len: nat,
                      starts: seq<nat>, n: nat)
    requires w.mode.Legal() && n * len <= |out|
    requires forall x :: 0 <= x < n ==> PathDone(w, led, first, all, out, len, starts, x)
    ensures BlockTurned(w, led, first, PathsOf(out, len, n), all)
  {
    hide LegalPath, PathAt, PathTurned;
    forall x | 0 <= x < n
      ensures PathTurned(w, led, first + x, PathsOf(out, len, n)[x], all)
    {
      assert PathDone(w, led, first, all, out, len, starts, x);
    }
  }

  lemma BlocksTurnedOn(w: World, led: Ledger, led': Ledger, base: nat, blocks: seq<seq<seq<nat>>>,
                       block: seq<seq<nat>>, plan: Plan, most: nat)
    requires BlocksTurned(w, led, base, blocks, plan, most) && Kept(led, led')
    requires BlockTurned(w, led', base + |blocks| * most, block, plan.turns(|blocks|))
    ensures BlocksTurned(w, led', base, blocks + [block], plan, most)
  {
    hide Kept, PathTurned;
    forall e | 0 <= e < |blocks| + 1
      ensures BlockTurned(w, led', base + e * most, (blocks + [block])[e], plan.turns(e))
    {
      if e < |blocks| {
        assert BlockTurned(w, led, base + e * most, blocks[e], plan.turns(e));
        forall x | 0 <= x < |blocks[e]|
          ensures PathTurned(w, led', base + e * most + x, blocks[e][x], plan.turns(e))
        {
          PathTurnedKept(w, led, led', base + e * most + x, blocks[e][x], plan.turns(e));
        }
      }
    }
  }

  // ----- The solver -----

  /** Cutting the tasks' ranges leaves everything else of a round primed. */
  twostate lemma ClampedPrimed(new w: World, new tasks: seq<MessageTask>, new samplers: seq<AnySampler>,
                               new groupBits: nat, new headers: seq<GroupHeader>, parts: set<object>, new n: nat,
                               new active: nat)
    requires old(allocated(w)) && old(allocated(tasks)) && old(allocated(samplers))
    requires w.mode.Legal() && old(Primed(w, tasks, samplers, groupBits, headers, parts, n))
    requires Team(tasks, |w.pBegin|, active) && unchanged(parts)
    requires forall k :: 0 <= k < |tasks| ==> unchanged(tasks[k].states)
    requires w.filter != null ==> unchanged(w.filter) && unchanged(w.filter.table)
    ensures Primed(w, tasks, samplers, groupBits, headers, parts, active)
  {
    hide Finds, Ready, Team, Staffed, AllBelow;
    forall k | 0 <= k < |tasks|
      ensures AllBelow(tasks[k].states[..], |w.h.adj|)
    {
      assert tasks[k].states[..] == old(tasks[k].states[..]);
    }
  }

  /** How the threads come to share the work of epoch e: its starts, its rounds and its paths. */
  datatype Plan = Plan(starters: nat -> seq<Turn>, turns: nat -> seq<seq<Turn>>, writers: nat -> seq<Turn>)

  lemma LessLeft(most: nat, before: nat, n: nat, covered: nat)
    requires n == Min(most, before) && n <= covered
    ensures Min(most, before - n) <= covered
  {
  }

  class FMobSolver {
    const w: World
    const tasks: seq<MessageTask>
    const samplers: seq<AnySampler>
    const groupBits: nat
    const headers: seq<GroupHeader>
    const socketNum: nat
    const perSocket: nat
    const walkLen: nat
    const maxEpoch: nat
    const starts: array<nat>
    const walks: seq<array<nat>>     // the step arrays
    var rest: nat
    var terminated: nat
    ghost const own: set<object>     // what the tasks work on
    ghost const parts: set<object>   // what the samplers work on
    ghost var covered: nat           // how many walkers the tasks' ranges cover
    ghost var written: seq<seq<nat>> // the paths written so far, walker by walker
    ghost var ledger: Ledger         // which draws decided their steps

    constructor (w: World, tasks: seq<MessageTask>, samplers: seq<AnySampler>, groupBits: nat,
                 headers: seq<GroupHeader>, socketNum: nat, perSocket: nat, maxEpoch: nat, walkerNum: nat,
                 starts: array<nat>, walks: seq<array<nat>>, ghost own: set<object>, ghost parts: set<object>)
      ensures this.w == w && this.tasks == tasks && this.samplers == samplers && this.groupBits == groupBits
      ensures this.headers == headers
      ensures this.socketNum == socketNum && this.perSocket == perSocket && walkLen == |walks|
      ensures this.maxEpoch == maxEpoch
      ensures this.starts == starts && this.walks == walks && this.own == own && this.parts == parts
      ensures rest == walkerNum && terminated == 0 && covered == maxEpoch && written == [] && ledger == map[]
    {
      this.w, this.tasks, this.samplers, this.groupBits, this.headers := w, tasks, samplers, groupBits, headers;
      this.socketNum, this.perSocket, this.walkLen, this.maxEpoch := socketNum, perSocket, |walks|, maxEpoch;
      this.starts, this.walks, this.own, this.parts := starts, walks, own, parts;
      rest, terminated, covered := walkerNum, 0, maxEpoch;
      written, ledger := [], map[];
    }

    /** An array over walkers that nothing else works on. */
    ghost predicate Apart(a: array<nat>) {
      a.Length == maxEpoch && Foreign(a, own, parts) && (w.filter != null ==> w.filter.table != a as object)
    }

    ghost predicate Arrays() {
      && |walks| == walkLen && 0 < walkLen && 0 < maxEpoch
      && Apart(starts) && (forall l :: 0 <= l < walkLen ==> Apart(walks[l]) && walks[l] != starts)
      && (forall l, m :: 0 <= l < m < walkLen ==> walks[l] != walks[m])
      && this !in own && this !in parts
    }

    ghost predicate World() {
      && w.mode.Legal() && w.h.Valid() && 0 < |w.h.adj|
      && |tasks| == socketNum * perSocket && |samplers| == |w.pBegin|
      && Separate(w, tasks, own, parts) && forall r :: 0 <= r < |w.rands| ==> w.rands[r] !in parts
    }

    /** The paths written so far are legal, and their draws, and no others, are booked. */
    ghost predicate History()
      requires w.mode.Legal()
      reads this, w.rands
    {
      && |written| == terminated && AllLegal(w, ledger, written, walkLen)
      && Sound(ledger, Clock(w.rands)) && Upto(ledger, terminated, 0, 0)
    }

    ghost predicate Valid()
      reads this, tasks, parts, w.rands, w.filter, if w.filter == null then {} else {w.filter.table}
      reads MessageStates(tasks)
    {
      && Arrays() && World()
      && Primed(w, tasks, samplers, groupBits, headers, parts, covered)
      && Min(maxEpoch, rest) <= covered <= maxEpoch && History()
    }

    /**
     * get_walker_start_vertices: every walker's start is drawn, with one draw, by the thread that visits it.
     */
    method DrawStarts(active: nat, visits: seq<Turn>, ghost first: nat, ghost led: Ledger) returns (ghost led': Ledger)
      requires Arrays() && World() && active <= maxEpoch && Schedule(visits, active, |w.rands|)
      requires Unwalked(led, Span(0, first, first + active))
      modifies starts, w.rands
      ensures Books(led, led', old(Clock(w.rands)), Clock(w.rands), Span(0, first, first + active))
      ensures AllStarted(w, led', first, starts[..], active)
      ensures forall i :: 0 <= i < |visits| ==> VisitedBy(led', first, visits[i])
    {
      ghost var c, span := Clock(w.rands), Span(0, first, first + active);
      ghost var tags := StartTags(first, visits);
      StartsUnbooked(led, first, visits, active, |w.rands|);
      NoBooks(led, c, span);
      led' := led;
      assert led'.Keys == led.Keys + TagsOf(tags, 0, 0) && DrawnTo(w, led', tags, starts[..], visits, 0);
      hide *;
      for i := 0 to |visits|
        invariant Books(led, led', c, Clock(w.rands), span) && DrawnTo(w, led', tags, starts[..], visits, i)
        invariant led'.Keys == led.Keys + TagsOf(tags, 0, i)
      {
        TurnInRange(visits, active, |w.rands|, i);
        NotYetBooked(led, tags, 0, i, |visits|);
        ghost var led1, now := led', starts[..];
        var v;
        v, led' := DrawStart(visits[i], tags[i], active, first, led, led1, c);
        OneMoreTag(led, led1, led', tags, 0, i, |visits|);
        DrawnOn(w, led1, led', tags, now, v, visits, i, active);
      }
      EverybodyDrew(w, led', first, starts[..], visits, active);
    }

    /** One visit of the loop over the starts. */
    method DrawStart(visit: Turn, ghost tag: Tag, active: nat, ghost first: nat, ghost led: Ledger,
                     ghost led1: Ledger, ghost c: seq<Meter>)
      returns (v: nat, ghost led': Ledger)
      requires Arrays() && World() && visit.p < active <= maxEpoch && visit.r < |w.rands|
      requires Books(led, led1, c, Clock(w.rands), Span(0, first, first + active)) && tag == Tag(first + visit.p, 0)
      requires tag !in led1
      modifies starts, w.rands[visit.r]
      ensures Books(led, led', c, Clock(w.rands), Span(0, first, first + active))
      ensures led'.Keys == led1.Keys + {tag} && Kept(led1, led')
      ensures starts[..] == old(starts[..])[visit.p := v] && DrawnAt(w, led', tag, starts[..], visit)
    {
      hide Graph.Valid, Advanced;
      ghost var c1 := Clock(w.rands);
      var rd := w.rands[visit.r];
      ghost var draw := Visit(visit.r, rd.pos, rd.pos + 1, true, []);
      v := rd.Gen(|w.h.adj|);
      starts[visit.p] := v;
      OneDrew(w.rands, visit.r);
      led' := led1[tag := draw];
      assert c1[visit.r].reals == c1[visit.r].reals + Ats([]);
      OneBooked(led1, c1, tag, draw, MeterOf(rd));
      BooksOn(led, led1, led', c, c1, Clock(w.rands), Span(0, first, first + active));
    }

    /** The walks begin at the starts. */
    method CopyStarts(active: nat)
      requires Arrays() && active <= maxEpoch
      modifies walks[0]
      ensures walks[0][..active] == starts[..active]
    {
      for x := 0 to active
        invariant walks[0][..x] == starts[..x]
      {
        walks[0][x] := starts[x];
      }
    }

    /** The clamping at the head of a shuffle. */
    method ClampTasks(active: nat)
      requires Arrays() && World() && Primed(w, tasks, samplers, groupBits, headers, parts, covered)
      requires active <= covered
      modifies tasks, `covered
      ensures covered == active && Primed(w, tasks, samplers, groupBits, headers, parts, active)
    {
      PrimedParts(w, tasks, samplers, groupBits, headers, parts, covered);
      ghost var before := covered;
      TasksOutside();
      hide Primed, Staffed, Finds, Ready, Team, StatesBelow, Separate;
      ClampAll(tasks, socketNum, perSocket, active, |w.pBegin|, covered);
      covered := active;
      ClampedPrimed(w, tasks, samplers, groupBits, headers, parts, before, active);
    }

    lemma TasksOutside()
      requires World()
      ensures forall o :: o in parts ==> o !in tasks
    {
    }

    /** Round l of the lock-step loop, between the step arrays. */
    method StepRound(l: nat, active: nat, turns: seq<Turn>, fuel: nat, ghost all: seq<seq<Turn>>,
                     ghost rows0: seq<seq<nat>>, ghost first: nat, ghost led: Ledger)
      returns (stop: Stop, ghost rows: seq<seq<nat>>, ghost led': Ledger)
      requires Arrays() && World() && 0 < l < walkLen == |all| && active <= maxEpoch && turns == all[l]
      requires Primed(w, tasks, samplers, groupBits, headers, parts, active) && Schedule(turns, |samplers|, |w.rands|)
      requires Holds(walks, rows0) && WalkedUpTo(w, led, first, all, rows0, l, active) && Upto(led, first, active, l)
      modifies own, parts, w.rands, walks[l]
      ensures Primed(w, tasks, samplers, groupBits, headers, parts, active)
      ensures Ticked(old(Clock(w.rands)), Clock(w.rands))
      ensures stop == NoStop ==> Books(led, led', old(Clock(w.rands)), Clock(w.rands), Span(l, first, first + active))
      ensures stop == NoStop ==>
        Holds(walks, rows) && WalkedUpTo(w, led', first, all, rows, l + 1, active) && rows[0] == rows0[0]
      ensures WhyStopped(w, fuel, stop, old(Clock(w.rands)), Clock(w.rands))
    {
      RowBelow(w, led, first, all, rows0, l, active, l - 1);
      if w.mode.Node2vec? && 1 < l {
        RowBelow(w, led, first, all, rows0, l, active, l - 2);
      }
      rows := rows0;
      var prev := if w.mode.Node2vec? && 1 < l then walks[l - 2] else null;
      RoundReady(l, active, rows0);
      NotYetWalked(led, first, active, l);
      ghost var c := Clock(w.rands);
      hide Primed, Moved, Schedule, Separate, WalkedUpTo, Foreign, Graph.Valid, Unwalked, Advanced, Ticked, Kept;
      hide WhyStopped;
      stop, led' :=
        Round(w, tasks, samplers, groupBits, headers, turns, fuel, walks[l - 1], prev, walks[l], own, parts, active,
          first, l, led);
      if stop == NoStop {
        rows := rows0[l := walks[l][..]];
        BookingKept(led, led', c, Clock(w.rands));
        OneMoreRow(w, led, led', first, all, rows0, rows, l, active);
      }
    }

    lemma RoundReady(l: nat, active: nat, rows: seq<seq<nat>>)
      requires Arrays() && World() && 0 < l < walkLen && active <= maxEpoch && Holds(walks, rows)
      requires AllBelow(rows[l - 1][..active], |w.h.adj|)
      requires 1 < l && w.mode.Node2vec? ==> AllBelow(rows[l - 2][..active], |w.h.adj|)
      ensures Vertices(w, walks[l - 1], active) && (1 < l && w.mode.Node2vec? ==> Vertices(w, walks[l - 2], active))
      ensures forall k :: 0 <= k < walkLen ==> Foreign(walks[k], own, parts) && (k != l ==> walks[k] != walks[l])
    {
    }

    lemma WalksOutside()
      requires Arrays() && World() && Primed(w, tasks, samplers, groupBits, headers, parts, covered)
      ensures walks[0] !in parts && starts !in parts && starts != walks[0]
      ensures forall k :: 0 <= k < |tasks| ==>
        tasks[k].states !in parts && tasks[k].states != walks[0] && tasks[k].states != starts
    {
      forall k | 0 <= k < |tasks|
        ensures tasks[k].states in own
      {
        WithinAt(tasks, own, k);
        assert tasks[k].states in tasks[k].Own();
      }
    }

    /** The start of an epoch: starts drawn, and copied into the first step array. */
    method Begin(active: nat, visits: seq<Turn>, ghost first: nat, ghost led: Ledger) returns (ghost led': Ledger)
      requires Arrays() && World() && active <= maxEpoch && Schedule(visits, active, |w.rands|)
      requires Primed(w, tasks, samplers, groupBits, headers, parts, covered)
      requires Unwalked(led, Span(0, first, first + active))
      modifies starts, walks[0], w.rands
      ensures Primed(w, tasks, samplers, groupBits, headers, parts, covered)
      ensures Books(led, led', old(Clock(w.rands)), Clock(w.rands), Span(0, first, first + active))
      ensures walks[0][..active] == starts[..active] && AllStarted(w, led', first, starts[..], active)
    {
      PrimedParts(w, tasks, samplers, groupBits, headers, parts, covered);
      WalksOutside();
      hide Primed, Staffed, Finds, Ready, Team, StatesBelow, Separate, Schedule, Graph.Valid, AllBelow, AllStarted;
      hide Books, Unwalked;
      led' := DrawStarts(active, visits, first, led);
      CopyStarts(active);
      ClampedPrimed(w, tasks, samplers, groupBits, headers, parts, covered, covered);
    }

    /** A plan for the rounds: how the threads come to share the partitions in each of them. */
    ghost predicate Planned(turns: seq<seq<Turn>>) {
      |turns| == walkLen && forall l :: 0 < l < walkLen ==> Schedule(turns[l], |samplers|, |w.rands|)
    }

    lemma PlannedAt(turns: seq<seq<Turn>>, l: nat)
      requires Planned(turns) && 0 < l < walkLen
      ensures Schedule(turns[l], |samplers|, |w.rands|)
    {
    }

    /** One turn of the loop: clamp, shuffle, walk, write back. */
    method Turnover(l: nat, active: nat, turns: seq<Turn>, fuel: nat, ghost all: seq<seq<Turn>>,
                    ghost rows0: seq<seq<nat>>, ghost first: nat, ghost led: Ledger)
      returns (stop: Stop, ghost rows: seq<seq<nat>>, ghost led': Ledger)
      requires Arrays() && World() && 0 < l < walkLen == |all| && active <= covered <= maxEpoch && turns == all[l]
      requires Primed(w, tasks, samplers, groupBits, headers, parts, covered) && Schedule(turns, |samplers|, |w.rands|)
      requires Holds(walks, rows0) && WalkedUpTo(w, led, first, all, rows0, l, active) && Upto(led, first, active, l)
      modifies tasks, `covered, own, parts, w.rands, walks[l]
      ensures Primed(w, tasks, samplers, groupBits, headers, parts, active) && covered == active
      ensures Ticked(old(Clock(w.rands)), Clock(w.rands))
      ensures stop == NoStop ==>
        Advanced(led, led', old(Clock(w.rands)), Clock(w.rands)) && Upto(led', first, active, l + 1)
      ensures stop == NoStop ==>
        Holds(walks, rows) && WalkedUpTo(w, led', first, all, rows, l + 1, active) && rows[0] == rows0[0]
      ensures WhyStopped(w, fuel, stop, old(Clock(w.rands)), Clock(w.rands))
    {
      ghost var c := Clock(w.rands);
      hide Primed, WalkedUpTo, Schedule, Separate, Graph.Valid, Upto, Ticked, Advanced, WhyStopped;
      ClampTasks(active);
      assert Clock(w.rands) == c;
      stop, rows, led' := StepRound(l, active, turns, fuel, all, rows0, first, led);
      if stop == NoStop {
        UptoNext(led, led', c, Clock(w.rands), first, active, l);
      }
    }

    /** The lock-step loop. */
    method Rounds(active: nat, turns: seq<seq<Turn>>, fuel: nat, ghost rows0: seq<seq<nat>>, ghost first: nat,
                  ghost led: Ledger)
      returns (stop: Stop, ghost rows: seq<seq<nat>>, ghost led': Ledger)
      requires Arrays() && World() && active <= covered <= maxEpoch && Planned(turns)
      requires Primed(w, tasks, samplers, groupBits, headers, parts, covered)
      requires Holds(walks, rows0) && WalkedUpTo(w, led, first, turns, rows0, 1, active) && Upto(led, first, active, 1)
      modifies tasks, `covered, own, parts, w.rands, walks
      ensures Primed(w, tasks, samplers, groupBits, headers, parts, covered) && active <= covered <= maxEpoch
      ensures Ticked(old(Clock(w.rands)), Clock(w.rands))
      ensures stop == NoStop ==>
        Advanced(led, led', old(Clock(w.rands)), Clock(w.rands)) && Upto(led', first, active, walkLen)
      ensures stop == NoStop ==>
        Holds(walks, rows) && WalkedUpTo(w, led', first, turns, rows, walkLen, active) && rows[0] == rows0[0]
      ensures WhyStopped(w, fuel, stop, old(Clock(w.rands)), Clock(w.rands))
    {
      assert w.mode.Legal() && |rows0| == walkLen == |turns|;
      ghost var c := Clock(w.rands);
      NoBooks(led, c, Span(0, 0, 0));
      assert Advanced(led, led, c, c);
      GoesOn(w, fuel, c, c);
      hide Primed, WalkedUpTo, Schedule, World, Planned, Advanced, Ticked, Upto, WhyStopped;
      stop, rows, led' := NoStop, rows0, led;
      for l := 1 to walkLen
        invariant stop == NoStop && active <= covered <= maxEpoch && |rows| == walkLen
        invariant Primed(w, tasks, samplers, groupBits, headers, parts, covered)
        invariant Holds(walks, rows) && WalkedUpTo(w, led', first, turns, rows, l, active)
        invariant Upto(led', first, active, l)
        invariant Advanced(led, led', c, Clock(w.rands)) && Ticked(c, Clock(w.rands))
        invariant WhyStopped(w, fuel, stop, c, Clock(w.rands))
        invariant rows[0] == rows0[0]
      {
        PlannedAt(turns, l);
        ghost var c1, led1 := Clock(w.rands), led';
        stop, rows, led' := Turnover(l, active, turns[l], fuel, turns, rows, first, led1);
        TickedOn(c, c1, Clock(w.rands));
        StoppedLater(w, fuel, stop, c, c1, Clock(w.rands));
        if stop != NoStop {
          return;
        }
        AdvancedOn(led, led1, led', c, c1, Clock(w.rands));
      }
    }

    ghost predicate OutputOk(output: array<nat>) {
      && maxEpoch * walkLen <= output.Length && Foreign(output, own, parts) && output != starts
      && (w.filter != null ==> w.filter.table != output as object)
      && forall l :: 0 <= l < |walks| ==> walks[l] != output
    }

    lemma OutputOutside(output: array<nat>)
      requires Arrays() && World() && OutputOk(output)
      ensures output !in parts && this !in parts
      ensures forall k :: 0 <= k < |tasks| ==> tasks[k].states != output
    {
      forall k | 0 <= k < |tasks|
        ensures tasks[k].states != output
      {
        WithinAt(tasks, own, k);
        assert tasks[k].states in tasks[k].Own();
      }
    }

    lemma OutputRoom(output: array<nat>, n: nat)
      requires OutputOk(output) && n <= maxEpoch
      ensures n * walkLen <= output.Length
    {
      MulMono(n, maxEpoch, walkLen);
    }

    /** The paths are written out. */
    method WriteOut(output: array<nat>, active: nat, visits: seq<Turn>, ghost all: seq<seq<Turn>>,
                    ghost rows: seq<seq<nat>>, ghost first: nat, ghost led: Ledger)
      requires Arrays() && World() && OutputOk(output) && active <= maxEpoch
      requires Primed(w, tasks, samplers, groupBits, headers, parts, covered)
      requires Schedule(visits, active, |w.rands|) && Holds(walks, rows)
      requires WalkedUpTo(w, led, first, all, rows, walkLen, active)
      modifies output
      ensures Primed(w, tasks, samplers, groupBits, headers, parts, covered) && Clock(w.rands) == old(Clock(w.rands))
      ensures forall x :: 0 <= x < active ==> PathDone(w, led, first, all, output[..], walkLen, rows[0], x)
    {
      OutputOutside(output);
      hide Primed, WalkedUpTo, Schedule, Separate, Graph.Valid, PathDone, LegalPath;
      MulMono(active, maxEpoch, walkLen);
      WritePaths(output, walks, visits, rows, active, |w.rands|);
      forall x | 0 <= x < active
        ensures PathDone(w, led, first, all, output[..], walkLen, rows[0], x)
      {
        PathIsLegal(w, led, first, all, output[..], rows, active, x);
      }
      ClampedPrimed(w, tasks, samplers, groupBits, headers, parts, covered, covered);
    }

    /** The end of an epoch: the paths are written out and the walkers counted. */
    method Finish(output: array<nat>, active: nat, visits: seq<Turn>, ghost all: seq<seq<Turn>>,
                  ghost rows: seq<seq<nat>>, ghost led: Ledger)
      requires Arrays() && World() && OutputOk(output) && active <= maxEpoch && active <= rest
      requires Primed(w, tasks, samplers, groupBits, headers, parts, covered)
      requires Schedule(visits, active, |w.rands|) && Holds(walks, rows)
      requires WalkedUpTo(w, led, terminated, all, rows, walkLen, active)
      requires active <= |rows[0]| && active <= starts.Length && rows[0][..active] == starts[..active]
      modifies this`rest, this`terminated, this`written, this`ledger, output
      ensures Primed(w, tasks, samplers, groupBits, headers, parts, covered) && Clock(w.rands) == old(Clock(w.rands))
      ensures rest == old(rest) - active && terminated == old(terminated) + active
      ensures active * walkLen <= output.Length && written == old(written) + PathsOf(output[..], walkLen, active)
      ensures ledger == led
      ensures forall x :: 0 <= x < active ==> PathDone(w, led, old(terminated), all, output[..], walkLen, starts[..], x)
    {
      MulMono(active, maxEpoch, walkLen);
      assert active * walkLen <= output.Length;
      OutputOutside(output);
      hide *;
      WriteOut(output, active, visits, all, rows, terminated, led);
      SameStarts(w, led, terminated, all, output[..], walkLen, rows[0], starts[..], active);
      CountOff(active, PathsOf(output[..], walkLen, active), led);
    }

    /** The walkers are counted off, and their paths and draws recorded. */
    method CountOff(active: nat, ghost paths: seq<seq<nat>>, ghost led: Ledger)
      requires Arrays() && World() && Primed(w, tasks, samplers, groupBits, headers, parts, covered) && active <= rest
      modifies this`rest, this`terminated, this`written, this`ledger
      ensures Primed(w, tasks, samplers, groupBits, headers, parts, covered)
      ensures rest == old(rest) - active && terminated == old(terminated) + active
      ensures written == old(written) + paths && ledger == led
    {
      PrimedParts(w, tasks, samplers, groupBits, headers, parts, covered);
      hide Primed, Staffed, Finds, Ready, Team, StatesBelow, Separate, Graph.Valid;
      rest := rest - active;
      terminated := terminated + active;
      written := written + paths;
      ledger := led;
      ClampedPrimed(w, tasks, samplers, groupBits, headers, parts, covered, covered);
    }

    /** Begin, and what the step arrays hold then. */
    method Open(active: nat, starters: seq<Turn>, ghost turns: seq<seq<Turn>>, ghost first: nat, ghost led: Ledger)
      returns (ghost rows: seq<seq<nat>>, ghost led': Ledger)
      requires Arrays() && World() && active <= covered <= maxEpoch && Upto(led, first, 0, 0) && |turns| == walkLen
      requires Primed(w, tasks, samplers, groupBits, headers, parts, covered) && Schedule(starters, active, |w.rands|)
      modifies starts, walks[0], w.rands
      ensures Primed(w, tasks, samplers, groupBits, headers, parts, covered)
      ensures Advanced(led, led', old(Clock(w.rands)), Clock(w.rands)) && Upto(led', first, active, 1)
      ensures Holds(walks, rows) && WalkedUpTo(w, led', first, turns, rows, 1, active)
      ensures rows[0][..active] == starts[..active]
    {
      ghost var c := Clock(w.rands);
      assert Upto(led, first, active, 0);
      NotYetWalked(led, first, active, 0);
      hide Primed, Schedule, Separate, Graph.Valid, Upto, Unwalked, Advanced, AllStarted;
      led' := Begin(active, starters, first, led);
      UptoNext(led, led', c, Clock(w.rands), first, active, 0);
      rows := seq(walkLen, l requires 0 <= l < walkLen reads walks => walks[l][..]);
      assert rows[0] == walks[0][..];
      assert rows[0][..active] == starts[..active];
      BookingKept(led', led', c, c) by { NoBooks(led', c, Span(0, 0, 0)); }
      AllStartedKept(w, led', led', first, starts[..], rows[0], active);
    }

    lemma StartsOutside()
      requires Arrays()
      ensures 0 < |walks| == walkLen && starts !in own && starts !in parts && starts !in walks
    {
    }

    /** Begin and the lock-step loop. */
    method Advance(active: nat, starters: seq<Turn>, turns: seq<seq<Turn>>, fuel: nat, ghost first: nat,
                   ghost led: Ledger)
      returns (stop: Stop, ghost rows: seq<seq<nat>>, ghost led': Ledger)
      requires Arrays() && World() && active <= covered <= maxEpoch && Planned(turns) && Upto(led, first, 0, 0)
      requires Primed(w, tasks, samplers, groupBits, headers, parts, covered) && Schedule(starters, active, |w.rands|)
      modifies tasks, `covered, own, parts, w.rands, walks, starts
      ensures Primed(w, tasks, samplers, groupBits, headers, parts, covered) && active <= covered <= maxEpoch
      ensures Ticked(old(Clock(w.rands)), Clock(w.rands))
      ensures stop == NoStop ==>
        Advanced(led, led', old(Clock(w.rands)), Clock(w.rands)) && Upto(led', first, active, walkLen)
      ensures stop == NoStop ==> Holds(walks, rows) && WalkedUpTo(w, led', first, turns, rows, walkLen, active)
      ensures stop == NoStop ==> active <= |rows[0]| && active <= starts.Length && rows[0][..active] == starts[..active]
      ensures WhyStopped(w, fuel, stop, old(Clock(w.rands)), Clock(w.rands))
    {
      StartsOutside();
      ghost var c := Clock(w.rands);
      assert w.mode.Legal() && |turns| == walkLen;
      hide Primed, Schedule, World, Arrays, Planned, AllStarted, Advanced, Ticked, Upto, WhyStopped;
      ghost var rows0, led1 := Open(active, starters, turns, first, led);
      ghost var c1 := Clock(w.rands);
      BookingKept(led, led1, c, c1);
      stop, rows, led' := Rounds(active, turns, fuel, rows0, first, led1);
      TickedOn(c, c1, Clock(w.rands));
      StoppedLater(w, fuel, stop, c, c1, Clock(w.rands));
      if stop == NoStop {
        AdvancedOn(led, led1, led', c, c1, Clock(w.rands));
      }
    }

    lemma IsValid()
      requires Arrays() && World() && Primed(w, tasks, samplers, groupBits, headers, parts, covered)
      requires Min(maxEpoch, rest) <= covered <= maxEpoch && |written| == terminated
      requires AllLegal(w, ledger, written, walkLen)
      requires Sound(ledger, Clock(w.rands)) && Upto(ledger, terminated, 0, 0)
      ensures Valid()
    {
    }

    lemma ValidParts()
      requires Valid()
      ensures Arrays() && World() && w.mode.Legal() && Primed(w, tasks, samplers, groupBits, headers, parts, covered)
      ensures Min(maxEpoch, rest) <= covered <= maxEpoch && |written| == terminated
      ensures AllLegal(w, ledger, written, walkLen)
      ensures Sound(ledger, Clock(w.rands)) && Upto(ledger, terminated, 0, 0)
    {
    }

    /** One epoch's paths and draws more. */
    lemma HistoryNext(led: Ledger, led': Ledger, c: seq<Meter>, c': seq<Meter>, before: seq<seq<nat>>,
                      all: seq<seq<Turn>>, out: seq<nat>, from: seq<nat>, n: nat)
      requires w.mode.Legal() && AllLegal(w, led, before, walkLen) && Sound(led, c) && n * walkLen <= |out|
      requires Advanced(led, led', c, c') && Upto(led', |before|, n, walkLen)
      requires forall x :: 0 <= x < n ==> PathDone(w, led', |before|, all, out, walkLen, from, x)
      ensures AllLegal(w, led', before + PathsOf(out, walkLen, n), walkLen)
      ensures |before + PathsOf(out, walkLen, n)| == |before| + n
      ensures Sound(led', c') && Upto(led', |before| + n, 0, 0)
    {
      hide *;
      BookingKept(led, led', c, c');
      MoreLegal(w, led, led', before, all, out, walkLen, from, n);
      StaysSound(led, led', c, c');
      UptoDone(led', |before|, n, walkLen);
    }

    /**
     * walk: one epoch. Its paths are appended to the history, and its draws to the ledger; an epoch that stops
     * early adds nothing.
     */
    method Epoch(output: array<nat>, starters: seq<Turn>, turns: seq<seq<Turn>>, writers: seq<Turn>, fuel: nat)
      returns (epochNum: nat, stop: Stop)
      requires Valid() && OutputOk(output) && Planned(turns)
      requires Schedule(starters, Min(maxEpoch, rest), |w.rands|) && Schedule(writers, Min(maxEpoch, rest), |w.rands|)
      modifies this, tasks, own, parts, w.rands, walks, starts, output
      ensures Valid()
      ensures epochNum == Min(maxEpoch, old(rest)) && epochNum * walkLen <= output.Length
      ensures stop == NoStop ==> rest == old(rest) - epochNum && terminated == old(terminated) + epochNum
      ensures stop == NoStop ==> written == old(written) + PathsOf(output[..], walkLen, epochNum)
      ensures stop == NoStop ==> forall x :: 0 <= x < epochNum ==>
        PathDone(w, ledger, old(terminated), turns, output[..], walkLen, starts[..], x)
      ensures stop == NoStop ==> Advanced(old(ledger), ledger, old(Clock(w.rands)), Clock(w.rands))
      ensures stop != NoStop ==>
        rest == old(rest) && terminated == old(terminated) && written == old(written) && ledger == old(ledger)
      ensures Ticked(old(Clock(w.rands)), Clock(w.rands))
      ensures WhyStopped(w, fuel, stop, old(Clock(w.rands)), Clock(w.rands))
      ensures !w.mode.Node2vec? ==> stop == NoStop
    {
      epochNum := Min(maxEpoch, rest);
      assert epochNum <= maxEpoch && epochNum <= rest;
      ghost var c, led, first, before := Clock(w.rands), ledger, terminated, written;
      hide *;
      ValidParts();
      OutputRoom(output, epochNum);
      ghost var rows, led';
      stop, rows, led' := Advance(epochNum, starters, turns, fuel, first, led);
      if stop == NoStop {
        Finish(output, epochNum, writers, turns, rows, led');
        HistoryNext(led, led', c, Clock(w.rands), before, turns, output[..], starts[..], epochNum);
        LessLeft(maxEpoch, old(rest), epochNum, covered);
      } else {
        SoundLater(led, c, Clock(w.rands));
      }
      StopMeans(w, fuel, stop, c, Clock(w.rands));
      IsValid();
    }

    /** The plan shares out the work of epoch e, which has n walkers. */
    ghost predicate EpochPlanned(plan: Plan, e: nat, n: nat) {
      Schedule(plan.starters(e), n, |w.rands|) && Planned(plan.turns(e)) && Schedule(plan.writers(e), n, |w.rands|)
    }

    ghost predicate PlanOk(plan: Plan, walkerNum: nat)
      requires 0 < maxEpoch
    {
      forall e :: 0 <= e < CeilDiv(walkerNum, maxEpoch) ==> EpochPlanned(plan, e, EpochWalkers(walkerNum, maxEpoch, e))
    }

    /** The blocks are the epochs' paths, of as many walkers as the epochs have. */
    ghost predicate Blocks(blocks: seq<seq<seq<nat>>>, walkerNum: nat) {
      forall e :: 0 <= e < |blocks| ==> |blocks[e]| == EpochWalkers(walkerNum, maxEpoch, e)
    }

    /**
     * What holds after so many epochs, when `left` walkers are left of walkerNum, and the given paths were
     * written since there were the paths `before`.
     */
    ghost predicate Told(epochs: nat, done: nat, blocks: seq<seq<seq<nat>>>, out: seq<nat>, walkerNum: nat, left: nat,
                         before: seq<seq<nat>>, paths: seq<seq<nat>>)
      requires 0 < maxEpoch
    {
      && |blocks| == epochs && Blocks(blocks, walkerNum) && paths == before + Flatten(blocks)
      && done + left == walkerNum
      && epochs + CeilDiv(left, maxEpoch) == CeilDiv(walkerNum, maxEpoch)
      && left == Remaining(walkerNum, maxEpoch, epochs)
      && (0 < epochs ==> LastBlock(blocks[epochs - 1], out))
    }

    lemma ToldNext(epochs: nat, done: nat, blocks: seq<seq<seq<nat>>>, out: seq<nat>, walkerNum: nat, left: nat,
                   before: seq<seq<nat>>, paths: seq<seq<nat>>, out': seq<nat>, n: nat)
      requires 0 < maxEpoch && Told(epochs, done, blocks, out, walkerNum, left, before, paths)
      requires n == Min(maxEpoch, left) && 0 < left && n * walkLen <= |out'|
      ensures Told(epochs + 1, done + n, blocks + [PathsOf(out', walkLen, n)], out', walkerNum, left - n,
                   before, paths + PathsOf(out', walkLen, n))
    {
      hide CeilDiv, PathsOf, Flatten;
      var block := PathsOf(out', walkLen, n);
      EpochStep(left, maxEpoch);
      FlattenNext(blocks, block);
      assert before + (Flatten(blocks) + block) == (before + Flatten(blocks)) + block;
    }

    /** There is a plan for the next epoch. */
    lemma NextPlanned(plan: Plan, epochs: nat, done: nat, blocks: seq<seq<seq<nat>>>, out: seq<nat>, walkerNum: nat,
                      left: nat, before: seq<seq<nat>>, paths: seq<seq<nat>>)
      requires 0 < maxEpoch && PlanOk(plan, walkerNum) && 0 < left
      requires Told(epochs, done, blocks, out, walkerNum, left, before, paths)
      ensures Planned(plan.turns(epochs))
      ensures Schedule(plan.starters(epochs), Min(maxEpoch, left), |w.rands|)
      ensures Schedule(plan.writers(epochs), Min(maxEpoch, left), |w.rands|)
    {
      hide CeilDiv, Schedule, Planned;
      CeilDivBounds(left, maxEpoch);
      assert EpochPlanned(plan, epochs, EpochWalkers(walkerNum, maxEpoch, epochs));
    }

    /** The block is what the output holds. */
    ghost predicate LastBlock(block: seq<seq<nat>>, out: seq<nat>) {
      |block| * walkLen <= |out| && block == PathsOf(out, walkLen, |block|)
    }

    /**
     * The blocks so far follow the plan; the first began with walker `base`, and as long as walkers are left, all
     * epochs were full.
     */
    ghost predicate Reached(epochs: nat, done: nat, blocks: seq<seq<seq<nat>>>, base: nat, plan: Plan, left: nat,
                            led: Ledger)
    {
      && |blocks| == epochs && BlocksTurned(w, led, base, blocks, plan, maxEpoch)
      && (left != 0 ==> done == epochs * maxEpoch)
    }

    lemma ReachedNext(epochs: nat, done: nat, blocks: seq<seq<seq<nat>>>, block: seq<seq<nat>>, base: nat, plan: Plan,
                      left: nat, n: nat, led: Ledger, led': Ledger, c: seq<Meter>, c': seq<Meter>)
      requires Reached(epochs, done, blocks, base, plan, left, led) && Advanced(led, led', c, c')
      requires BlockTurned(w, led', base + done, block, plan.turns(epochs)) && 0 < left && n == Min(maxEpoch, left)
      ensures Reached(epochs + 1, done + n, blocks + [block], base, plan, left - n, led')
    {
      BookingKept(led, led', c, c');
      hide BlocksTurned, BlockTurned, Kept, Advanced;
      BlocksTurnedOn(w, led, led', base, blocks, block, plan, maxEpoch);
      assert (epochs + 1) * maxEpoch == epochs * maxEpoch + maxEpoch;
    }

    /** One turn of the epoch loop. */
    method NextEpoch(output: array<nat>, plan: Plan, fuel: nat, epochs: nat, done: nat,
                     ghost blocks: seq<seq<seq<nat>>>, ghost walkerNum: nat, ghost before: seq<seq<nat>>,
                     ghost base: nat)
      returns (epochNum: nat, stop: Stop)
      requires Valid() && OutputOk(output) && 0 < maxEpoch && PlanOk(plan, walkerNum) && 0 < rest
      requires Told(epochs, done, blocks, output[..], walkerNum, rest, before, written)
      requires Reached(epochs, done, blocks, base, plan, rest, ledger) && terminated == base + done
      modifies this, tasks, own, parts, w.rands, walks, starts, output
      ensures Valid() && epochNum * walkLen <= output.Length
      ensures stop == NoStop ==> rest < old(rest) && terminated == base + (done + epochNum)
      ensures stop == NoStop ==>
        Told(epochs + 1, done + epochNum, blocks + [PathsOf(output[..], walkLen, epochNum)], output[..], walkerNum,
          rest, before, written)
      ensures stop == NoStop ==>
        Reached(epochs + 1, done + epochNum, blocks + [PathsOf(output[..], walkLen, epochNum)], base, plan, rest,
          ledger)
      ensures stop == NoStop ==> Advanced(old(ledger), ledger, old(Clock(w.rands)), Clock(w.rands))
      ensures stop != NoStop ==> rest == old(rest) && written == old(written) && ledger == old(ledger)
      ensures stop != NoStop ==> terminated == old(terminated)
      ensures Ticked(old(Clock(w.rands)), Clock(w.rands))
      ensures WhyStopped(w, fuel, stop, old(Clock(w.rands)), Clock(w.rands))
    {
      assert w.mode.Legal();
      ghost var out, left, paths, led, c := output[..], rest, written, ledger, Clock(w.rands);
      NextPlanned(plan, epochs, done, blocks, out, walkerNum, left, before, paths);
      hide *;
      epochNum, stop := Epoch(output, plan.starters(epochs), plan.turns(epochs), plan.writers(epochs), fuel);
      if stop == NoStop {
        ghost var now := output[..];
        IsBlockTurned(w, ledger, base + done, plan.turns(epochs), now, walkLen, starts[..], epochNum);
        ToldNext(epochs, done, blocks, out, walkerNum, left, before, paths, now, epochNum);
        ReachedNext(epochs, done, blocks, PathsOf(now, walkLen, epochNum), base, plan, left, epochNum, led, ledger, c,
                    Clock(w.rands));
      }
    }

    /** Before the first epoch. */
    lemma Outset(out: seq<nat>, walkerNum: nat, before: seq<seq<nat>>, base: nat, plan: Plan, led: Ledger,
                 c: seq<Meter>, fuel: nat)
      requires 0 < maxEpoch && w.mode.Legal() && |c| == |w.rands|
      ensures Told(0, 0, [], out, walkerNum, walkerNum, before, before)
      ensures Reached(0, 0, [], base, plan, walkerNum, led)
      ensures Advanced(led, led, c, c) && WhyStopped(w, fuel, NoStop, c, c)
    {
      NoBooks(led, c, Span(0, 0, 0));
      GoesOn(w, fuel, c, c);
      assert before + Flatten([]) == before;
    }

    /** The epoch loop. */
    method RunEpochs(output: array<nat>, plan: Plan, fuel: nat)
      returns (epochs: nat, done: nat, stop: Stop, ghost blocks: seq<seq<seq<nat>>>, ghost out: seq<nat>)
      requires Valid() && 0 < maxEpoch && OutputOk(output) && PlanOk(plan, rest)
      modifies this, tasks, own, parts, w.rands, walks, starts, output
      ensures Valid() && (stop == NoStop ==> rest == 0) && terminated == old(terminated) + done
      ensures Told(epochs, done, blocks, out, old(rest), rest, old(written), written)
      ensures stop == NoStop ==> out == output[..]
      ensures Reached(epochs, done, blocks, old(terminated), plan, rest, ledger)
      ensures stop == NoStop ==> Advanced(old(ledger), ledger, old(Clock(w.rands)), Clock(w.rands))
      ensures WhyStopped(w, fuel, stop, old(Clock(w.rands)), Clock(w.rands))
    {
      ghost var c, led, n, before, base := Clock(w.rands), ledger, rest, written, terminated;
      epochs, done, stop, blocks, out := 0, 0, NoStop, [], output[..];
      Outset(out, n, before, base, plan, led, c, fuel);
      hide *;
      while rest != 0
        invariant Valid() && stop == NoStop && terminated == base + done
        invariant Reached(epochs, done, blocks, base, plan, rest, ledger)
        invariant out == output[..] && Told(epochs, done, blocks, out, n, rest, before, written)
        invariant Advanced(led, ledger, c, Clock(w.rands)) && WhyStopped(w, fuel, stop, c, Clock(w.rands))
      {
        ghost var c1, led1 := Clock(w.rands), ledger;
        BookingKept(led, led1, c, c1);
        var epochNum;
        epochNum, stop := NextEpoch(output, plan, fuel, epochs, done, blocks, n, before, base);
        StoppedLater(w, fuel, stop, c, c1, Clock(w.rands));
        if stop != NoStop {
          return;
        }
        out := output[..];
        AdvancedOn(led, led1, ledger, c, c1, Clock(w.rands));
        blocks := blocks + [PathsOf(out, walkLen, epochNum)];
        epochs, done := epochs + 1, done + epochNum;
      }
    }

    /**
     * The free function walk: epochs until no walker is left. It takes exactly ceil(N / W) epochs and
     * terminates exactly N walkers. What was written are the epochs' blocks of paths, one after the other; the
     * last one is still in the output.
     */
    method Run(output: array<nat>, plan: Plan, fuel: nat)
      returns (epochs: nat, done: nat, stop: Stop, ghost blocks: seq<seq<seq<nat>>>)
      requires Valid() && OutputOk(output) && PlanOk(plan, rest)
      modifies this, tasks, own, parts, w.rands, walks, starts, output
      ensures Valid()
      ensures |blocks| == epochs && Blocks(blocks, old(rest)) && written == old(written) + Flatten(blocks)
      ensures BlocksTurned(w, ledger, old(terminated), blocks, plan, maxEpoch)
      ensures stop == NoStop ==>
        && rest == 0 && done == old(rest) && terminated == old(terminated) + old(rest)
        && epochs == CeilDiv(old(rest), maxEpoch)
      ensures stop == NoStop && 0 < epochs ==> LastBlock(blocks[epochs - 1], output[..])
      ensures stop == NoStop ==> Advanced(old(ledger), ledger, old(Clock(w.rands)), Clock(w.rands))
      ensures WhyStopped(w, fuel, stop, old(Clock(w.rands)), Clock(w.rands))
      ensures stop == SelfStep ==> exists v :: w.h.Edge(v, v)
      ensures !w.mode.Node2vec? ==> stop == NoStop
    {
      assert 0 < maxEpoch && w.mode.Legal();
      ghost var n, before := rest, written;
      hide *;
      ghost var out;
      epochs, done, stop, blocks, out := RunEpochs(output, plan, fuel);
      ToldParts(epochs, done, blocks, out, n, rest, before, written);
      ReachedParts(epochs, done, blocks, old(terminated), plan, rest, ledger);
      StopMeans(w, fuel, stop, old(Clock(w.rands)), Clock(w.rands));
    }

    lemma ReachedParts(epochs: nat, done: nat, blocks: seq<seq<seq<nat>>>, base: nat, plan: Plan, left: nat,
                       led: Ledger)
      requires Reached(epochs, done, blocks, base, plan, left, led)
      ensures BlocksTurned(w, led, base, blocks, plan, maxEpoch)
    {
    }

    lemma ToldParts(epochs: nat, done: nat, blocks: seq<seq<seq<nat>>>, out: seq<nat>, walkerNum: nat, left: nat,
                    before: seq<seq<nat>>, paths: seq<seq<nat>>)
      requires 0 < maxEpoch && Told(epochs, done, blocks, out, walkerNum, left, before, paths)
      ensures |blocks| == epochs && Blocks(blocks, walkerNum) && paths == before + Flatten(blocks)
      ensures done + left == walkerNum
      ensures left == 0 ==> done == walkerNum && epochs == CeilDiv(walkerNum, maxEpoch)
      ensures 0 < epochs ==> LastBlock(blocks[epochs - 1], out)
    {
      NoneLeft(maxEpoch);
    }
  }
}
