/**
 * How the threads came to share an epoch's work: the starts and the paths by work stealing over the walker
 * ranges, each round by claiming partitions. Every run of the two protocols, to its end, is a plan the
 * solver can follow.
 */
module Sharing {
  import opened Arith
  import opened Build
  import opened Stepping
  import opened WalkerRanges
  import opened EpochSize
  import opened Solver
  import Ending = StealingEnds
  import Stealing = WorkStealing
  import Claiming = ClaimProtocol

  /** The runs of the protocols, epoch by epoch, and round by round within an epoch. */
  datatype Runs = Runs(starts: nat -> seq<Stealing.State>, rounds: (nat, nat) -> seq<Claiming.State>,
                       writes: nat -> seq<Stealing.State>)

  /** process_walkers for `active` of the n walkers that the ranges were dealt for. */
  function Queues(n: nat, sockets: nat, perSocket: nat, active: nat): (c: Stealing.Config)
    requires 0 < sockets && 0 < perSocket
    ensures |c.begin| == |c.end|
  {
    Stealing.QueueConfig(sockets, perSocket, ThreadBegins(n, sockets, perSocket), ThreadEnds(n, sockets, perSocket),
      active)
  }

  /** The run came to its end, and its cursors had the room they need. */
  ghost predicate Stolen(c: Stealing.Config, trace: seq<Stealing.State>)
    requires |c.begin| == |c.end|
  {
    c.Fits() && Stealing.Run(c, trace) && Stealing.AllDone(trace[|trace| - 1])
  }

  ghost predicate Claimed(c: Claiming.Config, trace: seq<Claiming.State>) {
    Claiming.Run(c, trace) && Claiming.AllExited(trace[|trace| - 1])
  }

  /** Epoch e, of `active` walkers, was shared out by these runs. */
  ghost predicate EpochShared(runs: Runs, e: nat, active: nat, n: nat, walkLen: nat, sockets: nat, perSocket: nat,
                              lists: seq<seq<nat>>)
    requires 0 < sockets && 0 < perSocket
  {
    && Stolen(Queues(n, sockets, perSocket, active), runs.starts(e))
    && Stolen(Queues(n, sockets, perSocket, active), runs.writes(e))
    && forall l :: 0 < l < walkLen ==> Claimed(Claiming.ThreadConfig(lists, perSocket), runs.rounds(e, l))
  }

  /** Every epoch of a job of so many walkers, n at a time, was. */
  ghost predicate AllShared(runs: Runs, walkerNum: nat, n: nat, walkLen: nat, sockets: nat, perSocket: nat,
                            lists: seq<seq<nat>>)
    requires 0 < sockets && 0 < perSocket && 0 < n
  {
    forall e :: 0 <= e < CeilDiv(walkerNum, n) ==>
      EpochShared(runs, e, EpochWalkers(walkerNum, n, e), n, walkLen, sockets, perSocket, lists)
  }

  /** The visits of a run of process_walkers. */
  function Visits(trace: seq<Stealing.State>): seq<Turn> {
    if trace == [] then [] else trace[|trace| - 1].log
  }

  /** The turns of a run of the claim protocol. */
  function Claims(c: Claiming.Config, trace: seq<Claiming.State>): seq<Turn> {
    if trace == [] then [] else Claiming.Turns(c, trace[|trace| - 1])
  }

  /** The plan that the runs make. */
  function PlanOf(runs: Runs, walkLen: nat, perSocket: nat, lists: seq<seq<nat>>): Plan
    requires 0 < perSocket
  {
    var c := Claiming.ThreadConfig(lists, perSocket);
    Plan((e: nat) => Visits(runs.starts(e)),
         (e: nat) => seq<seq<Turn>>(walkLen, l requires 0 <= l < walkLen => Claims(c, runs.rounds(e, l))),
         (e: nat) => Visits(runs.writes(e)))
  }

  /** A run of process_walkers visits every active walker once. */
  lemma StolenSchedule(n: nat, sockets: nat, perSocket: nat, active: nat, trace: seq<Stealing.State>)
    requires 0 < sockets && 0 < perSocket && active <= n < TWO32
    requires Stolen(Queues(n, sockets, perSocket, active), trace)
    ensures Schedule(Visits(trace), active, sockets * perSocket)
  {
    hide Chain, ThreadBegins, ThreadEnds;
    var c := Queues(n, sockets, perSocket, active);
    RangesChain(n, sockets, perSocket);
    Stealing.QueueConfigOk(sockets, perSocket, ThreadBegins(n, sockets, perSocket), ThreadEnds(n, sockets, perSocket),
                           n, active);
    Stealing.ProcessedOnce(c, trace, active);
  }

  /** A run of the claim protocol gives every partition one turn, of a thread of the socket it belongs to. */
  lemma ClaimedSchedule(sockets: nat, perSocket: nat, partitionNum: nat, lists: seq<seq<nat>>,
                        trace: seq<Claiming.State>)
    requires 0 < sockets && 0 < perSocket && SocketLists(sockets, partitionNum, lists)
    requires Claimed(Claiming.ThreadConfig(lists, perSocket), trace)
    ensures Schedule(Claims(Claiming.ThreadConfig(lists, perSocket), trace), partitionNum, sockets * perSocket)
    ensures forall turn :: turn in Claims(Claiming.ThreadConfig(lists, perSocket), trace) ==>
      SocketOf(sockets, turn.p) == turn.r / perSocket
  {
    hide SocketOf;
    var c := Claiming.ThreadConfig(lists, perSocket);
    Claiming.ThreadConfigValid(lists, perSocket);
    Claiming.FinishedSchedule(c, trace, sockets, partitionNum);
    var s := trace[|trace| - 1];
    forall e | 0 <= e < |s.log|
      ensures SocketOf(sockets, Claims(c, trace)[e].p) == Claims(c, trace)[e].r / perSocket
    {
      assert Claiming.EntryIn(c, s.log[e]);
    }
  }

  /** In epoch e the plan takes the visits and the turns that the runs came to, each from its own run. */
  ghost predicate FollowsRuns(plan: Plan, runs: Runs, e: nat, walkLen: nat, perSocket: nat, lists: seq<seq<nat>>)
    requires 0 < perSocket
  {
    var c := Claiming.ThreadConfig(lists, perSocket);
    && runs.starts(e) != [] && plan.starters(e) == runs.starts(e)[|runs.starts(e)| - 1].log
    && runs.writes(e) != [] && plan.writers(e) == runs.writes(e)[|runs.writes(e)| - 1].log
    && |plan.turns(e)| == walkLen
    && forall l :: 0 < l < walkLen ==>
         runs.rounds(e, l) != [] && plan.turns(e)[l] == Claiming.Turns(c, runs.rounds(e, l)[|runs.rounds(e, l)| - 1])
  }

  /** Runs of the protocols make a plan for the solver. */
  lemma RunsMakePlan(s: FMobSolver, runs: Runs, walkerNum: nat, sockets: nat, perSocket: nat, lists: seq<seq<nat>>)
    requires 0 < sockets && 0 < perSocket && 0 < s.maxEpoch < TWO32 && |s.w.rands| == sockets * perSocket
    requires SocketLists(sockets, |s.samplers|, lists)
    requires AllShared(runs, walkerNum, s.maxEpoch, s.walkLen, sockets, perSocket, lists)
    ensures s.PlanOk(PlanOf(runs, s.walkLen, perSocket, lists), walkerNum)
    ensures forall e :: 0 <= e < CeilDiv(walkerNum, s.maxEpoch) ==>
      FollowsRuns(PlanOf(runs, s.walkLen, perSocket, lists), runs, e, s.walkLen, perSocket, lists)
  {
    hide CeilDiv, Schedule, SocketLists, Chain, Stolen, Claimed, Visits, Claims, ThreadBegins, ThreadEnds, Queues;
    var plan := PlanOf(runs, s.walkLen, perSocket, lists);
    forall e | 0 <= e < CeilDiv(walkerNum, s.maxEpoch)
      ensures s.EpochPlanned(plan, e, EpochWalkers(walkerNum, s.maxEpoch, e))
    {
      var active := EpochWalkers(walkerNum, s.maxEpoch, e);
      assert EpochShared(runs, e, active, s.maxEpoch, s.walkLen, sockets, perSocket, lists);
      StolenSchedule(s.maxEpoch, sockets, perSocket, active, runs.starts(e));
      StolenSchedule(s.maxEpoch, sockets, perSocket, active, runs.writes(e));
      forall l | 0 < l < s.walkLen
        ensures Schedule(plan.turns(e)[l], |s.samplers|, |s.w.rands|)
      {
        ClaimedSchedule(sockets, perSocket, |s.samplers|, lists, runs.rounds(e, l));
      }
    }
    forall e | 0 <= e < CeilDiv(walkerNum, s.maxEpoch)
      ensures FollowsRuns(plan, runs, e, s.walkLen, perSocket, lists)
    {
      EpochFollows(runs, e, EpochWalkers(walkerNum, s.maxEpoch, e), s.maxEpoch, s.walkLen, sockets, perSocket, lists);
    }
  }

  lemma EpochFollows(runs: Runs, e: nat, active: nat, n: nat, walkLen: nat, sockets: nat, perSocket: nat,
                     lists: seq<seq<nat>>)
    requires 0 < sockets && 0 < perSocket && EpochShared(runs, e, active, n, walkLen, sockets, perSocket, lists)
    ensures FollowsRuns(PlanOf(runs, walkLen, perSocket, lists), runs, e, walkLen, perSocket, lists)
  {
    hide Queues;
  }

  // ----- The runs exist -----

  /** In every epoch the queues' cursors have the room they need. */
  ghost predicate AllFit(walkerNum: nat, n: nat, sockets: nat, perSocket: nat)
    requires 0 < sockets && 0 < perSocket && 0 < n
  {
    forall e :: 0 <= e < CeilDiv(walkerNum, n) ==> Queues(n, sockets, perSocket, EpochWalkers(walkerNum, n, e)).Fits()
  }

  /** They have it if one chunk for each thread, and one more, fit between the walkers of an epoch and 2^32. */
  lemma RoomForAll(walkerNum: nat, n: nat, sockets: nat, perSocket: nat)
    requires 0 < sockets && 0 < perSocket && 0 < n && n + Stealing.CHUNK * (sockets * perSocket + 1) <= TWO32
    ensures AllFit(walkerNum, n, sockets, perSocket)
  {
    hide Chain, ThreadBegins, ThreadEnds, Stealing.QueueConfig, Stealing.Config.Fits;
    var b, e := ThreadBegins(n, sockets, perSocket), ThreadEnds(n, sockets, perSocket);
    RangesChain(n, sockets, perSocket);
    forall k | 0 <= k < CeilDiv(walkerNum, n)
      ensures Queues(n, sockets, perSocket, EpochWalkers(walkerNum, n, k)).Fits()
    {
      Stealing.QueueConfigFits(sockets, perSocket, b, e, n, EpochWalkers(walkerNum, n, k));
    }
  }

  /** Some run to the end, where there is one. */
  ghost function SomeStolen(c: Stealing.Config): seq<Stealing.State>
    requires |c.begin| == |c.end|
  {
    if trace: seq<Stealing.State> :| Stolen(c, trace) then trace else []
  }

  ghost function SomeClaimed(c: Claiming.Config): seq<Claiming.State> {
    if trace: seq<Claiming.State> :| Claimed(c, trace) then trace else []
  }

  lemma QueuesEnd(n: nat, sockets: nat, perSocket: nat, active: nat)
    requires 0 < sockets && 0 < perSocket && active <= n < TWO32 && Queues(n, sockets, perSocket, active).Fits()
    ensures Stolen(Queues(n, sockets, perSocket, active), SomeStolen(Queues(n, sockets, perSocket, active)))
  {
    hide Chain, ThreadBegins, ThreadEnds;
    var c := Queues(n, sockets, perSocket, active);
    RangesChain(n, sockets, perSocket);
    Stealing.QueueConfigOk(sockets, perSocket, ThreadBegins(n, sockets, perSocket), ThreadEnds(n, sockets, perSocket),
                           n, active);
    var trace := Ending.Stealable(c);
    assert Stolen(c, trace);
  }

  lemma ListsEnd(lists: seq<seq<nat>>, perSocket: nat)
    requires 0 < perSocket
    ensures Claimed(Claiming.ThreadConfig(lists, perSocket), SomeClaimed(Claiming.ThreadConfig(lists, perSocket)))
  {
    Claiming.ThreadConfigValid(lists, perSocket);
    var trace := Claiming.Claimable(Claiming.ThreadConfig(lists, perSocket));
    assert Claimed(Claiming.ThreadConfig(lists, perSocket), trace);
  }

  /** Runs for a whole job. */
  ghost function SomeRuns(walkerNum: nat, n: nat, sockets: nat, perSocket: nat, lists: seq<seq<nat>>): Runs
    requires 0 < sockets && 0 < perSocket && 0 < n
  {
    var stolen := (e: nat) => SomeStolen(Queues(n, sockets, perSocket, EpochWalkers(walkerNum, n, e)));
    Runs(stolen, (e: nat, l: nat) => SomeClaimed(Claiming.ThreadConfig(lists, perSocket)), stolen)
  }

  /** Wherever the cursors have room, the protocols run to their ends and the job is shared out. */
  lemma Shareable(walkerNum: nat, n: nat, walkLen: nat, sockets: nat, perSocket: nat, lists: seq<seq<nat>>)
    requires 0 < sockets && 0 < perSocket && 0 < n < TWO32 && AllFit(walkerNum, n, sockets, perSocket)
    ensures AllShared(SomeRuns(walkerNum, n, sockets, perSocket, lists), walkerNum, n, walkLen, sockets, perSocket,
      lists)
  {
    hide CeilDiv, Queues, SomeStolen, SomeClaimed, Stolen, Claimed;
    var runs := SomeRuns(walkerNum, n, sockets, perSocket, lists);
    ListsEnd(lists, perSocket);
    forall e | 0 <= e < CeilDiv(walkerNum, n)
      ensures EpochShared(runs, e, EpochWalkers(walkerNum, n, e), n, walkLen, sockets, perSocket, lists)
    {
      assert Queues(n, sockets, perSocket, EpochWalkers(walkerNum, n, e)).Fits();
      QueuesEnd(n, sockets, perSocket, EpochWalkers(walkerNum, n, e));
    }
  }
}
