/**
 * The multiple-choice knapsack of src/core/partition.hpp: one candidate partitioning per group, at most
 * P partitions in all, least total time. Costs are reals; which partition sizes have benchmark results,
 * what each candidate costs and which sampler suits a vertex range are inputs.
 */
module Knapsack {
  import opened Options
  import opened Partition

  datatype Candidate = Candidate(hint: GroupHint, totalTime: real, samplers: seq<SamplerClass>) {
    function Weight(): nat { hint.partitionNum }
  }

  /** One cell of the table: -1.0 marks a cell no choice reaches; previous is a column of the row above. */
  datatype Cell = Cell(val: real, candidateIdx: nat, previous: Option<nat>)

  /**
   * When nothing fits, the traceback's check fails on the second group; with one group it reads a candidate
   * that was never set.
   */
  datatype Outcome = Chosen(picks: seq<nat>) | CheckFailed | ReadsUnset

  type Candidates = seq<seq<Candidate>>

  ghost predicate NonNegative(c: Candidates) {
    forall g, k :: 0 <= g < |c| && 0 <= k < |c[g]| ==> 0.0 <= c[g][k].totalTime
  }

  // ----- What is to be minimised -----

  /** picks names one candidate for each of the groups a, ..., b-1. */
  ghost predicate Choice(c: Candidates, picks: seq<nat>, a: nat, b: nat) {
    && a <= b <= |c| == |picks|
    && forall g :: a <= g < b ==> picks[g] < |c[g]|
  }

  ghost function Weight(c: Candidates, picks: seq<nat>, a: nat, b: nat): nat
    requires Choice(c, picks, a, b)
    decreases b
  {
    if a == b then 0 else Weight(c, picks, a, b - 1) + c[b - 1][picks[b - 1]].Weight()
  }

  ghost function Cost(c: Candidates, picks: seq<nat>, a: nat, b: nat): real
    requires Choice(c, picks, a, b)
    decreases b
  {
    if a == b then 0.0 else Cost(c, picks, a, b - 1) + c[b - 1][picks[b - 1]].totalTime
  }

  /** picks solves the first g groups within p partitions, and nothing within p is cheaper. */
  ghost predicate Optimal(c: Candidates, g: nat, p: nat, picks: seq<nat>) {
    && Choice(c, picks, 0, g)
    && Weight(c, picks, 0, g) <= p
    && forall other :: Choice(c, other, 0, g) && Weight(c, other, 0, g) <= p ==>
         Cost(c, picks, 0, g) <= Cost(c, other, 0, g)
  }

  ghost predicate Feasible(c: Candidates, g: nat, p: nat) {
    exists picks :: Choice(c, picks, 0, g) && Weight(c, picks, 0, g) <= p
  }

  // ----- The recurrence the table follows -----

  ghost function Best(c: Candidates, g: nat, p: nat): real
    requires g <= |c|
    decreases g, 1, 0
  {
    if g == 0 then 0.0 else BestOf(c, g, p, |c[g - 1]|)
  }

  /** The cell of row g and column p after its first k candidates. */
  ghost function BestOf(c: Candidates, g: nat, p: nat, k: nat): real
    requires 0 < g <= |c| && k <= |c[g - 1]|
    decreases g, 0, k
  {
    if k == 0 then -1.0
    else
      var sofar := BestOf(c, g, p, k - 1);
      if c[g - 1][k - 1].Weight() <= p then
        Better(sofar, Best(c, g - 1, p - c[g - 1][k - 1].Weight()), c[g - 1][k - 1].totalTime)
      else sofar
  }

  function Better(sofar: real, before: real, cost: real): real {
    if before < 0.0 then sofar
    else if sofar < 0.0 || sofar > before + cost then before + cost
    else sofar
  }

  lemma {:induction false} BestOfLower(c: Candidates, g: nat, p: nat, k: nat, i: nat)
    requires 0 < g <= |c| && i < k <= |c[g - 1]|
    requires NonNegative(c)
    requires c[g - 1][i].Weight() <= p
    requires 0.0 <= Best(c, g - 1, p - c[g - 1][i].Weight())
    ensures 0.0 <= BestOf(c, g, p, k)
         <= Best(c, g - 1, p - c[g - 1][i].Weight()) + c[g - 1][i].totalTime
    decreases k
  {
    if i < k - 1 {
      BestOfLower(c, g, p, k - 1, i);
      assert 0.0 <= c[g - 1][k - 1].totalTime;
    } else {
      assert 0.0 <= c[g - 1][i].totalTime;
    }
  }

  /** No choice beats the recurrence. */
  lemma {:induction false} BestIsLower(c: Candidates, picks: seq<nat>, g: nat, p: nat)
    requires NonNegative(c)
    requires Choice(c, picks, 0, g)
    requires Weight(c, picks, 0, g) <= p
    ensures 0.0 <= Best(c, g, p) <= Cost(c, picks, 0, g)
    decreases g
  {
    if g != 0 {
      var i := picks[g - 1];
      BestIsLower(c, picks, g - 1, p - c[g - 1][i].Weight());
      BestOfLower(c, g, p, |c[g - 1]|, i);
    }
  }

  lemma {:induction false} BestOfFrom(c: Candidates, g: nat, p: nat, k: nat) returns (i: nat)
    requires 0 < g <= |c| && k <= |c[g - 1]|
    requires 0.0 <= BestOf(c, g, p, k)
    ensures i < k && c[g - 1][i].Weight() <= p
    ensures 0.0 <= Best(c, g - 1, p - c[g - 1][i].Weight())
    ensures BestOf(c, g, p, k) == Best(c, g - 1, p - c[g - 1][i].Weight()) + c[g - 1][i].totalTime
    decreases k
  {
    if BestOf(c, g, p, k) == BestOf(c, g, p, k - 1) {
      i := BestOfFrom(c, g, p, k - 1);
    } else {
      i := k - 1;
    }
  }

  lemma {:induction false} Untouched(c: Candidates, picks: seq<nat>, other: seq<nat>, a: nat, b: nat)
    requires Choice(c, picks, a, b) && Choice(c, other, a, b)
    requires forall g :: a <= g < b ==> picks[g] == other[g]
    ensures Weight(c, picks, a, b) == Weight(c, other, a, b)
    ensures Cost(c, picks, a, b) == Cost(c, other, a, b)
    decreases b
  {
    if a != b {
      Untouched(c, picks, other, a, b - 1);
    }
  }

  /** Some choice attains the recurrence. */
  lemma {:induction false} BestIsAttained(c: Candidates, g: nat, p: nat) returns (picks: seq<nat>)
    requires g <= |c|
    requires 0.0 <= Best(c, g, p)
    ensures Choice(c, picks, 0, g)
    ensures Weight(c, picks, 0, g) <= p
    ensures Cost(c, picks, 0, g) == Best(c, g, p)
    decreases g
  {
    if g == 0 {
      picks := seq(|c|, _ => 0);
    } else {
      var i := BestOfFrom(c, g, p, |c[g - 1]|);
      var before := BestIsAttained(c, g - 1, p - c[g - 1][i].Weight());
      picks := before[g - 1 := i];
      Untouched(c, picks, before, 0, g - 1);
    }
  }

  /** A wider column is reached whenever a narrower one is, at no higher cost. */
  lemma BestMonotone(c: Candidates, g: nat, p: nat, q: nat)
    requires g <= |c| && p <= q
    requires NonNegative(c)
    requires 0.0 <= Best(c, g, p)
    ensures 0.0 <= Best(c, g, q) <= Best(c, g, p)
  {
    var picks := BestIsAttained(c, g, p);
    BestIsLower(c, picks, g, q);
  }

  // ----- The table -----

  /** A reached cell of row g names the candidate and the column above that produced its value. */
  ghost predicate CellOk(c: Candidates, g: nat, p: nat, cell: Cell)
    requires 0 < g <= |c|
  {
    0.0 <= cell.val ==>
      && cell.candidateIdx < |c[g - 1]|
      && c[g - 1][cell.candidateIdx].Weight() <= p
      && cell.previous == Some(p - c[g - 1][cell.candidateIdx].Weight())
      && 0.0 <= Best(c, g - 1, p - c[g - 1][cell.candidateIdx].Weight())
      && cell.val == Best(c, g - 1, p - c[g - 1][cell.candidateIdx].Weight())
                     + c[g - 1][cell.candidateIdx].totalTime
  }

  ghost predicate RowDone(f: array2<Cell>, c: Candidates, g: nat)
    requires g <= |c| && g < f.Length0
    reads f
  {
    && (forall p :: 0 <= p < f.Length1 ==> f[g, p].val == Best(c, g, p))
    && (0 < g ==> forall p :: 0 <= p < f.Length1 ==> CellOk(c, g, p, f[g, p]))
  }

  /** The cell of row g and column p once k candidates have been tried. */
  ghost predicate CellAt(c: Candidates, g: nat, k: nat, p: nat, cell: Cell)
    requires 0 < g <= |c| && k <= |c[g - 1]|
  {
    cell.val == BestOf(c, g, p, k) && CellOk(c, g, p, cell)
  }

  method RelaxCandidate(f: array2<Cell>, c: Candidates, g: nat, k: nat)
    requires 0 < g <= |c| && g < f.Length0 && k < |c[g - 1]|
    requires NonNegative(c)
    requires RowDone(f, c, g - 1)
    requires forall p :: 0 <= p < f.Length1 ==> CellAt(c, g, k, p, f[g, p])
    modifies f
    ensures forall p :: 0 <= p < f.Length1 ==> CellAt(c, g, k + 1, p, f[g, p])
    ensures forall r, p :: 0 <= r < f.Length0 && 0 <= p < f.Length1 && r != g ==> f[r, p] == old(f[r, p])
  {
    hide Best;
    var weight := c[g - 1][k].Weight();
    var p := weight;
    forall q | 0 <= q < f.Length1 && q < weight
      ensures CellAt(c, g, k + 1, q, f[g, q])
    {
      assert CellAt(c, g, k, q, f[g, q]);
    }
    while p < f.Length1
      invariant weight <= p
      invariant forall q :: 0 <= q < f.Length1 && q < p ==> CellAt(c, g, k + 1, q, f[g, q])
      invariant forall q :: p <= q < f.Length1 ==> CellAt(c, g, k, q, f[g, q])
      invariant forall r, q :: 0 <= r < f.Length0 && 0 <= q < f.Length1 && r != g ==> f[r, q] == old(f[r, q])
    {
      assert CellAt(c, g, k, p, f[g, p]);
      var before := f[g - 1, p - weight];
      if !(before.val < 0.0) {
        if f[g, p].val < 0.0 || f[g, p].val > before.val + c[g - 1][k].totalTime {
          f[g, p] := Cell(before.val + c[g - 1][k].totalTime, k, Some(p - weight));
        }
      }
      assert CellAt(c, g, k + 1, p, f[g, p]);
      p := p + 1;
    }
  }

  /**
   * Fills row g. The second loop is the source's carry-over, which compares a cell with itself: since a
   * wider column is always reached when a narrower one is, it never changes a cell.
   */
  method FillRow(f: array2<Cell>, c: Candidates, g: nat)
    requires 0 < g <= |c| && g < f.Length0
    requires NonNegative(c)
    requires RowDone(f, c, g - 1)
    requires forall p :: 0 <= p < f.Length1 ==> f[g, p] == Cell(-1.0, 0, None)
    modifies f
    ensures RowDone(f, c, g)
    ensures forall r, p :: 0 <= r < f.Length0 && 0 <= p < f.Length1 && r != g ==> f[r, p] == old(f[r, p])
  {
    hide BestOf;
    RowStart(f, c, g);
    for k := 0 to |c[g - 1]|
      invariant forall p :: 0 <= p < f.Length1 ==> CellAt(c, g, k, p, f[g, p])
      invariant forall r, p :: 0 <= r < f.Length0 && 0 <= p < f.Length1 && r != g ==> f[r, p] == old(f[r, p])
    {
      RelaxCandidate(f, c, g, k);
    }
    forall p | 0 <= p < f.Length1
      ensures f[g, p].val == Best(c, g, p) && CellOk(c, g, p, f[g, p])
    {
      assert CellAt(c, g, |c[g - 1]|, p, f[g, p]);
    }
    CarryOver(f, c, g);
  }

  lemma RowStart(f: array2<Cell>, c: Candidates, g: nat)
    requires 0 < g <= |c| && g < f.Length0
    requires forall p :: 0 <= p < f.Length1 ==> f[g, p] == Cell(-1.0, 0, None)
    ensures forall p :: 0 <= p < f.Length1 ==> CellAt(c, g, 0, p, f[g, p])
  {
  }

  method CarryOver(f: array2<Cell>, c: Candidates, g: nat)
    requires 0 < g <= |c| && g < f.Length0
    requires NonNegative(c)
    requires RowDone(f, c, g)
    modifies f
    ensures forall r, p :: 0 <= r < f.Length0 && 0 <= p < f.Length1 ==> f[r, p] == old(f[r, p])
  {
    var p := 1;
    while p < f.Length1
      invariant 1 <= p
      invariant forall r, q :: 0 <= r < f.Length0 && 0 <= q < f.Length1 ==> f[r, q] == old(f[r, q])
    {
      if f[g, p - 1].val >= 0.0 && (f[g, p].val < 0.0 || f[g, p].val > f[g, p].val) {
        f[g, p] := f[g, p - 1];
      }
      assert old(f[g, p - 1].val) == Best(c, g, p - 1) && old(f[g, p].val) == Best(c, g, p);
      if old(f[g, p - 1].val) >= 0.0 {
        BestMonotone(c, g, p - 1, p);
      }
      p := p + 1;
    }
  }

  lemma {:induction false} AddFront(c: Candidates, picks: seq<nat>, a: nat, b: nat)
    requires a < b
    requires Choice(c, picks, a, b)
    ensures Weight(c, picks, a, b) == c[a][picks[a]].Weight() + Weight(c, picks, a + 1, b)
    ensures Cost(c, picks, a, b) == c[a][picks[a]].totalTime + Cost(c, picks, a + 1, b)
    decreases b
  {
    if a + 1 < b {
      AddFront(c, picks, a, b - 1);
    }
  }

  /** Follows the previous chain from the last cell of the last row. */
  method Traceback(f: array2<Cell>, c: Candidates, P: nat) returns (picks: seq<nat>)
    requires f.Length0 == |c| + 1 && f.Length1 == P + 1
    requires forall g :: 0 <= g <= |c| ==> RowDone(f, c, g)
    requires 0.0 <= Best(c, |c|, P)
    ensures Choice(c, picks, 0, |c|)
    ensures Weight(c, picks, 0, |c|) <= P
    ensures Cost(c, picks, 0, |c|) == Best(c, |c|, P)
  {
    picks := seq(|c|, _ => 0);
    var g, p := |c|, P;
    while g != 0
      invariant 0 <= g <= |c| && 0 <= p <= P
      invariant Choice(c, picks, g, |c|)
      invariant p + Weight(c, picks, g, |c|) == P
      invariant 0.0 <= Best(c, g, p)
      invariant Best(c, |c|, P) == Best(c, g, p) + Cost(c, picks, g, |c|)
    {
      hide Best, Weight, Cost;
      assert RowDone(f, c, g);
      var cell := f[g, p];
      assert CellOk(c, g, p, cell);
      var next := picks[g - 1 := cell.candidateIdx];
      Untouched(c, picks, next, g, |c|);
      AddFront(c, next, g - 1, |c|);
      picks := next;
      g, p := g - 1, cell.previous.value;
    }
  }

  /**
   * The whole dynamic programme. It finds a cheapest choice within P partitions whenever some choice
   * fits, and stops at its null check when none does.
   */
  method Dp(c: Candidates, P: nat) returns (outcome: Outcome)
    requires NonNegative(c)
    ensures outcome.Chosen? <==> Feasible(c, |c|, P)
    ensures outcome.ReadsUnset? <==> !Feasible(c, |c|, P) && |c| == 1
    ensures outcome.Chosen? ==> Optimal(c, |c|, P, outcome.picks)
  {
    var f := new Cell[|c| + 1, P + 1]((_, _) => Cell(-1.0, 0, None));
    var q := 0;
    while q <= P
      invariant 0 <= q <= P + 1
      invariant forall r, p :: 0 <= r <= |c| && 0 <= p <= P ==>
        f[r, p] == if r == 0 && p < q then Cell(0.0, 0, None) else Cell(-1.0, 0, None)
    {
      f[0, q] := Cell(0.0, 0, None);
      q := q + 1;
    }
    for g := 1 to |c| + 1
      invariant forall r :: 0 <= r < g ==> RowDone(f, c, r)
      invariant forall r, p :: g <= r <= |c| && 0 <= p <= P ==> f[r, p] == Cell(-1.0, 0, None)
    {
      label before:
      FillRow(f, c, g);
      forall r | 0 <= r < g
        ensures RowDone(f, c, r)
      {
        assert old@before(RowDone(f, c, r));
      }
    }
    assert RowDone(f, c, |c|);
    if 0.0 <= f[|c|, P].val {
      var picks := Traceback(f, c, P);
      BestIsOptimal(c, P, picks);
      outcome := Chosen(picks);
    } else {
      NothingFits(c, P);
      outcome := if |c| == 1 then ReadsUnset else CheckFailed;
    }
  }

  lemma BestIsOptimal(c: Candidates, P: nat, picks: seq<nat>)
    requires NonNegative(c)
    requires Choice(c, picks, 0, |c|)
    requires Weight(c, picks, 0, |c|) <= P
    requires Cost(c, picks, 0, |c|) == Best(c, |c|, P)
    ensures Optimal(c, |c|, P, picks)
    ensures Feasible(c, |c|, P)
  {
    forall other | Choice(c, other, 0, |c|) && Weight(c, other, 0, |c|) <= P
      ensures Cost(c, picks, 0, |c|) <= Cost(c, other, 0, |c|)
    {
      BestIsLower(c, other, |c|, P);
    }
  }

  lemma NothingFits(c: Candidates, P: nat)
    requires NonNegative(c)
    requires Best(c, |c|, P) < 0.0
    ensures !Feasible(c, |c|, P)
  {
    if Feasible(c, |c|, P) {
      var picks :| Choice(c, picks, 0, |c|) && Weight(c, picks, 0, |c|) <= P;
      BestIsLower(c, picks, |c|, P);
    }
  }
}
