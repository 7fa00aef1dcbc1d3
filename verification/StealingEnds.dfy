/**
 * Every run of the work stealing comes to an end: each fetch-and-add that hands out a chunk uses up one of its
 * queue, and everything else a thread does brings it on in its round of the queues.
 */
module StealingEnds {
  import opened Arith
  import opened WorkStealing

  // ----- How far a run is from its end -----

  /** The chunks of queue k that have not been handed out. */
  ghost function Chunks(c: Config, s: State, k: nat): nat
    requires Shape(c, s) && k < |s.curr|
  {
    if AllPast(c, s, k) || c.end[k] <= s.curr[k] then 0 else CeilDiv(c.end[k] - s.curr[k], CHUNK)
  }

  ghost function AllChunks(c: Config, s: State): (r: seq<nat>)
    requires Shape(c, s)
    ensures |r| == |s.curr| && forall k :: 0 <= k < |r| ==> r[k] == Chunks(c, s, k)
  {
    seq<nat>(|s.curr|, k requires 0 <= k < |s.curr| => Chunks(c, s, k))
  }

  /** Four steps for each queue still to visit, less what was done at the present one, and the indices in hand. */
  ghost function StepsLeft(threads: nat, pc: Pc): nat {
    if pc == Done then 0
    else
      var visits := 4 * (if pc.v < threads then threads - pc.v else 1);
      match pc
      case Check(_) => visits
      case Fetch(_) => visits - 1
      case Leave(_) => visits - 2
      case Work(_, i, stop) => visits + 1 + (if i < stop then stop - i else 0)
  }

  ghost function AllStepsLeft(pcs: seq<Pc>): (r: seq<nat>)
    ensures |r| == |pcs| && forall j :: 0 <= j < |r| ==> r[j] == StepsLeft(|pcs|, pcs[j])
  {
    seq<nat>(|pcs|, j requires 0 <= j < |pcs| => StepsLeft(|pcs|, pcs[j]))
  }

  /** A chunk takes a fetch-and-add, a step for each of its indices, and one to be through with it. */
  ghost function Ahead(c: Config, s: State): nat
    requires Shape(c, s)
  {
    (CHUNK + 3) * Total(AllChunks(c, s)) + Total(AllStepsLeft(s.pcs))
  }

  lemma StepsLeftSet(pcs: seq<Pc>, j: nat, pc: Pc)
    requires j < |pcs|
    ensures Total(AllStepsLeft(pcs[j := pc])) ==
      Total(AllStepsLeft(pcs)) - StepsLeft(|pcs|, pcs[j]) + StepsLeft(|pcs|, pc)
  {
    hide StepsLeft;
    TotalSet(AllStepsLeft(pcs), j, StepsLeft(|pcs|, pc));
    assert AllStepsLeft(pcs[j := pc]) == AllStepsLeft(pcs)[j := StepsLeft(|pcs|, pc)];
  }

  // ----- Every step brings it nearer -----

  /** A queue whose cursor stays put has no more chunks than before. */
  lemma NoMoreChunks(c: Config, s: State, s': State, j: nat, k: nat)
    requires Onward(c, s, s', j) && k < |s.curr| && s'.curr[k] == s.curr[k]
    ensures Chunks(c, s', k) <= Chunks(c, s, k)
  {
    hide PastCount, Past, Progress, CeilDiv;
    CountsOnward(c, s, s', j, k);
  }

  /** The move of one thread, which does not go back, and at most moves the cursor of the queue it is at. */
  lemma MovesOnward(c: Config, s: State, s': State, j: nat, v: nat, k: nat)
    requires c.Valid() && Inv(c, s) && Move(c, s, s', j, v, k)
    ensures Onward(c, s, s', j) && v < |c.order| && k < |s.curr|
    ensures s'.curr == s.curr || (FetchAdd(c, s, s', j, v, k) && s'.curr == s.curr[k := s'.curr[k]])
  {
    assert c.OrderOk(j) && ThreadOk(c, s, j);
  }

  lemma OneChunkLess(begin: nat, end: nat)
    requires begin < end
    ensures CeilDiv(end - begin, CHUNK) == 1 + if begin + CHUNK < end then CeilDiv(end - begin - CHUNK, CHUNK) else 0
  {
  }

  /** A fetch-and-add that hands out a chunk leaves one less; any other one leaves as few. */
  lemma FetchChunks(c: Config, s: State, s': State, j: nat, v: nat, k: nat)
    requires c.Valid() && c.Fits() && Inv(c, s) && FetchAdd(c, s, s', j, v, k)
    ensures k < |s.curr| && Shape(c, s') && Chunks(c, s', k) <= Chunks(c, s, k)
    ensures s.curr[k] < c.end[k] ==> Chunks(c, s', k) < Chunks(c, s, k)
  {
    CursorRead(c, s, s', j, v, k);
    NoWrap(c, s, s', j, v, k);
    assert QueueOk(c, s, k);
    hide PastCount, Past, CeilDiv;
    if s.curr[k] < c.end[k] {
      OneChunkLess(s.curr[k], c.end[k]);
    } else if c.Roomy(k) {
      assert !AllPast(c, s', k) ==> s'.curr[k] == s.curr[k] + CHUNK;
    } else {
      assert c.FitsAt(k) && s'.curr[k] % CHUNK == c.begin[k] % CHUNK <= s'.curr[k];
    }
  }

  lemma ChunksNext(c: Config, s: State, s': State, j: nat, v: nat, k: nat)
    requires c.Valid() && c.Fits() && Inv(c, s) && Move(c, s, s', j, v, k)
    ensures Shape(c, s') && k < |s.curr| && Total(AllChunks(c, s')) <= Total(AllChunks(c, s))
    ensures FetchAdd(c, s, s', j, v, k) && s.curr[k] < c.end[k] ==> Total(AllChunks(c, s')) < Total(AllChunks(c, s))
  {
    MovesOnward(c, s, s', j, v, k);
    hide Move, Chunks, Inv, Past, PastCount, Total;
    forall l | 0 <= l < |s.curr|
      ensures AllChunks(c, s')[l] <= AllChunks(c, s)[l]
    {
      if s'.curr[l] == s.curr[l] {
        NoMoreChunks(c, s, s', j, l);
      } else {
        FetchChunks(c, s, s', j, v, k);
      }
    }
    TotalMono(AllChunks(c, s'), AllChunks(c, s));
    if FetchAdd(c, s, s', j, v, k) && s.curr[k] < c.end[k] {
      FetchChunks(c, s, s', j, v, k);
      assert AllChunks(c, s')[k] < AllChunks(c, s)[k];
    }
  }

  /** What a move does to its thread's own steps. */
  lemma StepsNext(c: Config, s: State, s': State, j: nat, v: nat, k: nat)
    requires c.Valid() && c.Fits() && Inv(c, s) && Move(c, s, s', j, v, k)
    ensures j < |s.pcs| == |s'.pcs|
    ensures StepsLeft(|s.pcs|, s'.pcs[j]) + 1 <=
      StepsLeft(|s.pcs|, s.pcs[j]) + (if FetchAdd(c, s, s', j, v, k) && s.curr[k] < c.end[k] then CHUNK + 3 else 0)
  {
    assert c.OrderOk(j) && ThreadOk(c, s, j);
  }

  lemma AheadLess(c: Config, s: State, s': State, j: nat, handsOut: bool)
    requires Onward(c, s, s', j) && Total(AllChunks(c, s')) <= Total(AllChunks(c, s))
    requires handsOut ==> Total(AllChunks(c, s')) < Total(AllChunks(c, s))
    requires StepsLeft(|s.pcs|, s'.pcs[j]) + 1 <= StepsLeft(|s.pcs|, s.pcs[j]) + (if handsOut then CHUNK + 3 else 0)
    ensures Ahead(c, s') < Ahead(c, s)
  {
    hide AllChunks, AllStepsLeft, StepsLeft, Total, Progress;
    StepsLeftSet(s.pcs, j, s'.pcs[j]);
  }

  lemma OneStepNearer(c: Config, s: State, s': State)
    requires c.Valid() && c.Fits() && Inv(c, s) && Next(c, s, s')
    ensures Shape(c, s) && Shape(c, s') && Ahead(c, s') < Ahead(c, s)
  {
    var j: nat, v: nat, k: nat :| Move(c, s, s', j, v, k);
    hide *;
    ChunksNext(c, s, s', j, v, k);
    StepsNext(c, s, s', j, v, k);
    MovesOnward(c, s, s', j, v, k);
    AheadLess(c, s, s', j, FetchAdd(c, s, s', j, v, k) && s.curr[k] < c.end[k]);
  }

  // ----- Whole runs -----

  /** The chunks that the queues are cut into. */
  ghost function QueueChunks(c: Config): (r: seq<nat>)
    requires |c.begin| == |c.end|
    ensures |r| == |c.end|
  {
    seq<nat>(|c.end|, k requires 0 <= k < |c.end| =>
      if c.end[k] <= c.begin[k] then 0 else CeilDiv(c.end[k] - c.begin[k], CHUNK))
  }

  /** No run takes more steps than this. */
  ghost function MostSteps(c: Config): nat
    requires |c.begin| == |c.end|
  {
    (CHUNK + 3) * Total(QueueChunks(c)) + 4 * |c.order| * |c.order|
  }

  lemma AheadAtFirst(c: Config, s: State)
    requires c.Valid() && Init(c, s)
    ensures Shape(c, s) && Ahead(c, s) <= MostSteps(c)
  {
    hide CeilDiv;
    TotalMono(AllChunks(c, s), QueueChunks(c));
    TotalSame(AllStepsLeft(s.pcs), 4 * |c.order|);
  }

  lemma {:induction false} StepsCounted(c: Config, trace: seq<State>, n: nat)
    requires c.Valid() && c.Fits() && c.Disjoint() && Run(c, trace) && n < |trace|
    ensures Shape(c, trace[n]) && n + Ahead(c, trace[n]) <= MostSteps(c)
  {
    hide Ahead, Next, MostSteps, Inv, Config.Valid, Config.Fits, Config.Disjoint;
    if n == 0 {
      AheadAtFirst(c, trace[0]);
    } else {
      StepsCounted(c, trace, n - 1);
      assert Next(c, trace[n - 1], trace[n - 1 + 1]);
      RunInv(c, trace, n - 1);
      OneStepNearer(c, trace[n - 1], trace[n]);
    }
  }

  /** However the threads are interleaved, a run takes no more steps than the chunks and the visits call for. */
  lemma RunLength(c: Config, trace: seq<State>)
    requires c.Valid() && c.Fits() && c.Disjoint() && Run(c, trace)
    ensures |trace| <= MostSteps(c) + 1
  {
    StepsCounted(c, trace, |trace| - 1);
  }

  /** Every run can go on to its end. */
  lemma {:induction false} Completed(c: Config, begun: seq<State>) returns (trace: seq<State>)
    requires c.Valid() && c.Fits() && c.Disjoint() && Run(c, begun)
    ensures Run(c, trace) && AllDone(trace[|trace| - 1]) && begun <= trace
    decreases MostSteps(c) + 1 - |begun|
  {
    hide Next, AllDone, Init, Inv, MostSteps, Config.Fits, Config.Disjoint;
    var s := begun[|begun| - 1];
    RunLength(c, begun);
    if AllDone(s) {
      trace := begun;
    } else {
      RunInv(c, begun, |begun| - 1);
      var s' := Unstuck(c, s);
      assert Run(c, begun + [s']);
      RunLength(c, begun + [s']);
      trace := Completed(c, begun + [s']);
    }
  }

  lemma Stealable(c: Config) returns (trace: seq<State>)
    requires c.Valid() && c.Fits() && c.Disjoint()
    ensures Run(c, trace) && AllDone(trace[|trace| - 1])
  {
    trace := Completed(c, [State(c.begin, seq(|c.order|, _ => true), seq(|c.order|, _ => Check(0)), [])]);
  }
}
