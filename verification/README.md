# FlashMob in Dafny

FlashMob runs random walks on large graphs in lock step. It reads an edge list, renumbers the vertices by
degree, cuts them into cache-sized partitions chosen by a knapsack DP, and lays the edges out partition by
partition. A walk step sends every walker to its partition's bucket, lets each partition be stepped by a
sampler made for it, and hands the results back to the walkers. This project models those components, each
in the form the source has, and proves what they are for, up to the theorem that FlashMob writes a path for
every walker, that every step of it was decided by draws no other step shares, and that it runs along edges
of the input.

How the files fit together:

| files | what they model |
|---|---|
| `Arith`, `Bits`, `Perm`, `Options` | integer facts, shifts, permutations |
| `Partition`, `Knapsack`, `Hints` | group sizing, the DP, partition layout and lookup |
| `DegreeSort`, `Relabel`, `Snake`, `Build`, `EdgeFill`, `Csr` | loading, sorting, dealing, layout and the parallel edge fill |
| `Samplers`, `BufferSampler`, `Bloom`, `Neighbors`, `Walk` | samplers, neighbourhood queries, the step of one stretch of walkers |
| `Ledgers` | which draws of which thread's stream decided which step of which walker |
| `Buckets`, `Message`, `Shuffling`, `Stepping`, `Rounds` | the counting sort by partition, and one lock-step round over all tasks |
| `ClaimProtocol`, `WorkStealing`, `StealingLimits`, `StealingEnds` | the two fetch-and-add protocols, for every interleaving: what they keep, when 32-bit cursors are enough, and that every run comes to its end |
| `WalkerRanges`, `EpochSize`, `Memory` | walker ranges, epoch sizes, the bump allocator |
| `Solver`, `Prepare`, `Sharing`, `EndToEnd` | epochs and runs, setting up a solver, the protocols' runs as its plan, and the composition of everything |

How the source is read:

- Random draws come from a `Rand`, an arbitrary stream of numbers for each thread; whatever holds for every
  `Rand` holds for every generator and seed. A ghost ledger books, for every step of every walker, the stretch
  of a thread's stream that was drawn for it: one integer for a start; for a static step what its sampler drew;
  for a node2vec step the whole rejection loop, proposal by proposal. Stretches never overlap, lie within what
  the round drew, and hold every real number drawn. With a direct sampler the stretch determines the step. A
  buffered sampler keeps books of what it drew and handed out, vertex by vertex (`Account`), and its answers are,
  in order, what it drew (`HandedOutInOrder`).
- A node2vec step is a rejection loop without a bound. The model follows it for `fuel` proposals; a walk that stops
  there, or at the source's assertion, shows the log of the loop it stopped in (`Explained`, `WhyStopped`).
- The parallel phases in which threads touch disjoint data (shuffling, writing back, stepping claimed
  partitions) are methods that take the threads' work in some order. Stepping takes any `Schedule`, which
  names for each partition the thread that stepped it, and the ledger shows that it was this thread's stream
  that decided the steps made there (`Round`, `Run`). `Sharing` makes the schedules out of finished runs of
  the two protocols, whatever their interleaving, and `WalkGraph` takes those runs. The atomic edge insertions
  are a state machine over their own steps. No run of the three machines goes on for ever (`RunLength`), every
  one can be completed (`Completed`), and so there are runs to walk with (`Suppliable`).
- The output array is overwritten by every epoch, so what a job wrote is kept as a ghost history: each epoch
  appends exactly the paths its output holds.
- 32-bit arithmetic is written out (`% TWO32`) where an overflow is possible: group counts, slot indices,
  buffer offsets, work-stealing cursors. Costs and probabilities are reals.
- Partition ids, walker counts and vertex numbers are naturals; the limits the source relies on appear as
  conditions (`GroupsCoverIff`, `RunIndexExactIff`, `SumsExactIff`, `FitsExactly`), asked for only where the
  code has them: of a partition only what its sampler class needs (`FitsClass`).

Where the code falls short of, or differs from, what it says:

- The comment at src/core/walk.hpp:158-160 says the first node2vec step is static. The loop at
  src/core/solver.hpp:206-207 starts at 1 and tests for 0, so it is a node2vec step whose states are
  whatever the slots held before: zeros, or vertices of earlier rounds. `LegalStep` follows the code.
- The clamp to 2^32 - 2 walkers at src/core/partition.hpp:306 is too wide for the 32-bit cursors of
  src/core/walker.hpp:130-131. `FitsExactly` says when they are enough, for any number of threads:
  `UnfitRepeats` builds a run that processes a walker twice wherever they are not, `OneThreadFits` puts the
  limit for one thread at 2^32 - 64 walkers, and `QueueConfigFits` gives a simple margin that always will do.
- The rounding at src/core/partition.hpp:226 wraps for more than 2^32 - 2^25 vertices: `GroupsCoverIff`,
  `GroupsMayVanish`.
- The assertion at src/core/walk.hpp:115 holds unless the graph has a self-loop, and at a self-loop there are
  streams for which it fails: `SelfStepIsLoop`, `StepsAnywhere`.
- The rejection loop has no bound. There are streams for which it never ends wherever some neighbour has less than
  the highest weight (`RunsDry`), and elsewhere the first proposal is taken (`FirstTry`).
- The estimate at src/core/partition.hpp:280-286 counts one number for each edge of a buffered partition, but the
  buffers of vertices of degree below 8 and of powers of two above 8 are longer: `BuffersCountedIff` says when
  the estimate is right.
- The carry-over loop at src/core/partition.hpp:190-194 compares a cell with itself. `CarryOver` shows that
  it changes nothing and `BestMonotone` that nothing is missing.
- The comment at src/core/sampler.hpp:38-39 rules out power-of-two buffers; a buffer of 8 is one:
  `BufferLengthPow2Iff`.
- An `al_alloc` aligns what follows it, not its own block, after a bare `na_alloc`: `BlockAlignedIff`.
- The minimum degree at src/core/graph.hpp:375 starts from the vertex count, so on multigraphs it can be too
  low; the choice of samplers is still sound (`MakeSampler`, `UniformIff`).

## Model

| member | source | states |
|---|---|---|
| `EndToEnd.BuildAndWalk` | src/core/node2vec.cpp:17-22 | load, partitioning, make, fill, prepare and walk as one: the input is turned away exactly as BuildGraph says, or the quota is too small for an epoch, or the partitioning is a cheapest one with the best samplers, dealt evenly and each partition on its socket, and what WalkGraph promises holds of the graph that the fill made of these edges |
| `EndToEnd.WalkGraph` | src/core/solver.hpp:353-371 | end to end: for any order of the edge insertions, random streams, sampler classes, thread counts and interleaving of the two sharing protocols, exactly ceil(N/W) epochs write N paths, in blocks of the sizes the epochs have, the last of them still in the output; path n starts at the vertex drawn for walker n, every step was taken by the thread to which that round's claim run gave the walker's partition, is booked under draws of this job that no other step shares and is what those draws decide (with a buffered sampler, up to which neighbour was drawn ahead), and read through id2name runs along an edge of the input; what the graph, the counted buffers, the filter, the solver's arrays and the output take is within the quota; static walks never stop early, a node2vec walk only with the log of a rejection loop run in this job at a vertex of some partition, with that partition's sampler: as many rejected proposals as the model follows, or the first acceptance, of the walker's own vertex, which takes a self-loop of the input |
| `EndToEnd.BuildGraph` | src/core/graph.hpp:191-444 | load, partitioning and make together: fails for want of an out-edge exactly when a directed input has a target that is no source, for too many vertices exactly above 2^32 - 2^25, and for want of a partitioning exactly when no way to cut the groups in measured sizes of 2^4 to 2^24 stays within 2048 partitions; otherwise the blueprint has as many vertices as the input has names, lists laid out for the renumbered edges, each still naming the edge that was read, the hints of a cheapest such plan with the benchmark's sampler for every partition, the first min(threads, partitions of the first group) partitions dealt like a snake and evenly, the others in falling degrees, and every partition's lists on its socket |
| `EndToEnd.EdgeIsInput` | src/core/graph.hpp:446-456 | an edge of the built graph is, by name, an edge of the input (or the reverse of one when undirected) |
| `EndToEnd.LegalPathIsInput` | src/core/solver.hpp:226-236 | a legal path of the prepared solver, read through id2name, is a path of input edges, also after the lists were sorted for node2vec |
| `EndToEnd.BuiltIsReady` | src/core/graph.hpp:263-462 | a laid-out and completely filled graph meets what prepare needs of every partition, given the 32-bit limits of the sampler class each one gets |
| `EndToEnd.WrittenIsNamed` | src/core/solver.hpp:226-236 | every path a solver has written is, by name, a path of input edges |
| `EndToEnd.LoopIsInput` | src/core/walk.hpp:115 | a self-loop of the walked graph is, by name, a self-loop of the input, so without one the source's assertion holds in every walk |
| `EndToEnd.JobCounts` | src/core/solver.hpp:147-158 | the estimate counts every vertex that was named and every edge that was read, once, or both ways when undirected |
| `EndToEnd.IsWithinQuota` | src/core/partition.hpp:266-308 | with the estimated epoch size, 12 bytes for each vertex on each socket, 4 for each edge and each buffered edge, the filter, and 4 for each word the solver's own arrays and the output really have stay within the quota |
| `EndToEnd.Suppliable` | src/core/solver.hpp:353-371 | BuildAndWalk asks for nothing impossible: where the 32-bit indices and cursors have room, there are runs of the fill and of both protocols, to their ends, for every blueprint and job |
| `EndToEnd.FewWalkersHaveRoom` | src/core/partition.hpp:306 | the cursors have room in every epoch of every job when the walkers and a chunk for each thread, and one more, come to at most 2^32 |
| `EndToEnd.SmallPartitionsFit` | src/core/sampler.hpp:386-408 | every sampler's 32-bit indices are right for partitions of at most 2^32 edges, and of less than 2^32 buffered numbers where the sampler has buffers |
| `Sharing.RunsMakePlan` | src/core/solver.hpp:188-236 | finished runs of process_walkers for the starts and paths of every epoch, and of the claim protocol for every round, are a plan the solver can follow, and the plan hands every epoch and round exactly what its own run logged |
| `Sharing.StolenSchedule` | src/core/walker.hpp:107-144 | a finished run over the ranges init deals, cut to the epoch's walkers, visits each of those once |
| `Sharing.ClaimedSchedule` | src/core/walk.hpp:171-226 | a finished run over the socket lists make produced gives every partition one turn, by a thread of the partition's own socket |
| `Sharing.Shareable` | src/core/solver.hpp:188-236 | wherever the cursors have room in every epoch, runs of both protocols, all to their ends, exist for the whole job |
| `Solver.FMobSolver.Epoch` | src/core/solver.hpp:183-249 | one epoch takes min(limit, rest) walkers; the paths in the output are appended to the history; walker x's path starts at its drawn start and is legal step by step, node2vec steps from the second on against the vertex before the last; the draws that decided them were all made in this epoch, none for two steps, and every real draw made is one of them; the walkers are counted off; an early stop adds nothing and shows the rejection loop, of this epoch, that it stopped in |
| `Solver.FMobSolver.Run` | src/core/solver.hpp:353-371 | exactly ceil(N/W) epochs and N walkers terminated; the history grows by exactly the epochs' blocks of paths, one after the other, of the sizes the epochs have, and the output holds the last; all paths of the history are legal, and every step was taken by the thread to which the plan gave the walker's partition in that round; the final check of the source holds; an early stop, of node2vec walks only, shows the rejection loop it stopped in |
| `Solver.DrawsApart` | src/core/walk.hpp:103-118 | the draws that decided two steps, of one walker or of two, are never the same |
| `Solver.LegalPathIsPath` | src/core/walk.hpp:69-75 | consecutive vertices of a legal path are joined by an edge |
| `Solver.StaticStep` | src/core/walk.hpp:69-75 | with a direct sampler one draw of the booked thread picked the next vertex of a static walk among the neighbours of the last |
| `Solver.NodeStep` | src/core/walk.hpp:80-118 | step l > 1 of a node2vec path ended a rejection loop judged against the vertex two steps before: every booked proposal is a neighbour with a real draw of the booked thread, accepted exactly when the draw is at most 1/p for going back, 1 for a neighbour of the vertex before, 1/q otherwise; only the last was accepted, and it is the next vertex |
| `Solver.PathReadOff` | src/core/solver.hpp:232-236 | vertex l of the x-th written path is output[x * L + l] |
| `Solver.FMobSolver.StepRound` | src/core/solver.hpp:206-224 | round l takes walks[l-1] (and, for node2vec from the second step on, walks[l-2] as states) to walks[l]; the rows stay lock-step walks; the draws that decided the round were made in it, each by the thread whose turn the partition was, and are booked for step l of the active walkers; an early stop shows the rejection loop it stopped in |
| `Solver.FMobSolver.ClampTasks` | src/core/message.hpp:203-214 | the clamp at the head of a shuffle leaves ranges that cover exactly the active walkers, and the round ready to run |
| `Solver.FMobSolver.DrawStarts` | src/core/solver.hpp:73-87 | every walker's start is a vertex, drawn with one draw by the thread that visits the walker; no draw starts two walkers |
| `Solver.FMobSolver.CopyStarts` | src/core/solver.hpp:196-199 | the first step array holds the starts |
| `Solver.WritePaths` | src/core/solver.hpp:232-236 | the transposition writes walker x's column to output[x*L .. x*L+L), in whatever order the walkers come, and leaves the rest of the output alone |
| `Solver.FMobSolver.Finish` | src/core/solver.hpp:232-248 | the paths are written out and appended to the history, and the rest and terminated counters move by the same number |
| `Solver.ColumnLegal` | src/core/solver.hpp:201-236 | a column of lock-step rows is a legal path of its walker: start drawn for it, every step decided by the draws booked for it |
| `Prepare.PrepareSolver` | src/core/solver.hpp:119-181 | there is a solver exactly when the epoch size can be worked out from this graph's own byte counts and the filter's; it is valid, on the given graph (sorted for node2vec), with that epoch size, new generators, the sampler kind each partition asks for, and a word for each walker in every step array, start, message and state |
| `Prepare.Assemble` | src/core/solver.hpp:173-177 | ranges, tasks, samplers and arrays are new, share nothing, make a valid solver, and have together one word for each walker of an epoch in each step array, start, message and state |
| `Prepare.MakeTasks` | src/core/message.hpp:159-195 | one task per thread range, on arrays of its own, with zeroed states |
| `Prepare.MakeSamplers` | src/core/sampler.hpp:377-409 | every partition gets a sampler that serves it, of the kind its class and degrees ask for, and no two samplers share anything; only the classes with 32-bit indices ask for their limits |
| `Prepare.MakeJob` | src/core/solver.hpp:147-158 | the byte counts come from the graph: its vertices, its edges, the edges of the partitions with buffers, and eight bytes for each word of the filter |
| `Prepare.BuffersCountedIff` | src/core/partition.hpp:280-286 | the estimate takes one buffered number for each edge of a buffered partition; the buffers need at least that many, and no more exactly when every degree is 8 or above 8 and no power of two |
| `Rounds.Round` | src/core/solver.hpp:206-224 | one round moves every active walker along an edge, each step decided by the draws booked for it, made by the sampler of the walker's partition and by the thread whose turn that partition was, node2vec steps against the walker's own state; what is booked was drawn in this round, no draw twice, and every real draw of the round is booked; everything the next round needs is kept; an early stop shows the rejection loop it stopped in |
| `Rounds.LockstepIsMap` | src/core/message.hpp:48-106 | a result of its own about the counting sort: shuffle, any per-slot step that is a function of state and vertex, and write-back equal applying that step to every walker (the round, whose steps draw, is proved through BlockMoved) |
| `Rounds.BlockMoved` | src/core/message.hpp:99-106 | what the three phases leave behind for one task: each of its walkers has stepped from its own vertex and state, with the draws booked for it |
| `Rounds.UpdateAll` | src/core/message.hpp:246-257 | after all tasks have written back, every walker holds its own slot's value |
| `Shuffling.ShuffleAll` | src/core/message.hpp:200-231 | after all tasks have shuffled, each holds its own walkers' vertices and states in their partitions' buckets |
| `Shuffling.ShuffleOne` | src/core/message.hpp:48-94 | prepare and shuffle of one task; without given states the slots keep vertices of earlier rounds, zero at first |
| `Shuffling.RangesOrdered` | src/core/message.hpp:159-195 | the tasks' walker ranges follow one another |
| `Stepping.WalkAll` | src/core/walk.hpp:162-227 | for any schedule that gives each partition one turn, every message is stepped exactly once by its partition's sampler, with draws made in this phase by the thread that had the partition, booked for its walker, and nothing else changes; an early stop shows a rejection loop of this phase, at a vertex of a partition |
| `Stepping.WalkBucket` | src/core/walk.hpp:190-201 | one claimed partition's bucket in one task: exactly the walkers in that partition step, and exactly their steps are booked, with this thread's draws, as its sampler makes them; an early stop shows the rejection loop it stopped in |
| `Stepping.StopMeans` | src/core/walk.hpp:103-118 | static walks do not stop early, and the source's assertion stops a walk only where the graph has a self-loop |
| `Stepping.BucketReady` | src/core/walk.hpp:202-206 | a bucket not yet stepped holds only vertices of its partition (the check the source keeps in a comment) |
| `Stepping.BucketMoved` | src/core/walk.hpp:190-201 | stepping a bucket and booking its steps turns the block into one with that partition done, and no other |
| `Stepping.PartwayKept` | src/core/walk.hpp:190-201 | stepping and booking other walkers leaves a block as it was |
| `Stepping.InOwnBucket` | src/core/message.hpp:64-71 | a message's slot lies in bucket p exactly when p is its partition |
| `Message.MessageTask.Prepare` | src/core/message.hpp:48-72 | the ids of the task's own walkers are recorded and both cursors of every partition stand at its bucket's start; other tasks' ids are untouched |
| `Message.MessageTask.Shuffle` | src/core/message.hpp:78-94 | message i lands in slot Pos(i), with its state if states are given; the end cursors stand at the bucket ends |
| `Message.MessageTask.Update` | src/core/message.hpp:99-106 | replaying the cursors hands slot Pos(i) back to walker i and writes nothing else |
| `Buckets.SlotsArePerm` | src/core/message.hpp:64-94 | the slots are a permutation: no message is lost or overwritten |
| `Buckets.PosInBucket` | src/core/message.hpp:64-71 | a message lands inside its own partition's bucket |
| `Buckets.SlotOwner` | src/core/message.hpp:64-94 | every slot of bucket p holds a message of partition p |
| `Buckets.Stable` | src/core/message.hpp:78-94 | within a bucket messages keep their order |
| `Walk.Sample` | src/core/walk.hpp:121-134 | whichever of the four samplers a partition has, the sampled vertex is a neighbour; a direct one's is the neighbour its one draw picks; a buffered one draws nothing or a whole buffer, whose first neighbour it hands out, and enters both in its books |
| `Walk.AnswersAny` | src/core/sampler.hpp:194-197 | every neighbour is the answer for some stream, the i-th for a stream of draws i; with a buffered sampler when its buffer is used up |
| `Walk.WalkMessages` | src/core/walk.hpp:69-75 | every walker of the stretch moves to a neighbour, in place, with a stretch of draws of its own (with a direct sampler, the one draw that picks the neighbour; with a buffered one none, or a refill whose first draw picks it); a buffered sampler's books grow, vertex by vertex, by exactly the neighbours drawn in the walkers' turns and the ones the walkers got, in order; no other message changes |
| `Walk.HandedOutInOrder` | src/core/sampler.hpp:86-119 | what a buffered sampler has handed out for a vertex is, in order, what it drew for it first |
| `Walk.Propose` | src/core/walk.hpp:108-114 | the rejection loop returns the first proposal whose real draw is at most its weight; all earlier ones were neighbours with draws above their weights; the log holds every real draw of the loop, in order, each proposal on the draws its sampler makes, so with a direct sampler the draws alternate without a gap |
| `Walk.NodeWalkMessages` | src/core/walk.hpp:103-118 | every walker takes one accepted node2vec step from its own state, decided by a stretch of draws of its own, made by its partition's sampler; no draw serves two walkers and every real draw is booked; an early stop shows the rejection loop of this stretch that turned down as many proposals as the model follows, or accepted its own vertex |
| `Walk.SelfStepIsLoop` | src/core/walk.hpp:115 | the source's assertion can only fail at a self-loop |
| `Walk.StepsAnywhere` | src/core/walk.hpp:103-118 | whatever a walker's state, p and q, some stream takes it to any given neighbour in one node2vec step, and at a self-loop some stream makes the source's assertion fail |
| `Walk.DrawnAgainst` | src/core/walk.hpp:80-118 | in the log of a booked node2vec step every real draw was tested against 1/p for going back, 1 for a neighbour of the vertex the walker came from, and 1/q otherwise; the last passed and all others failed |
| `Walk.RunsDry` | src/core/walk.hpp:108-114 | where some neighbour has less than the highest weight, there are streams for which the rejection loop never ends, however long it is followed |
| `Walk.FirstTry` | src/core/walk.hpp:108-114 | where every neighbour has the highest weight, the first proposal is always accepted |
| `Walk.OneJudged` | src/core/walk.hpp:108-114 | one more proposal leaves either a log of rejections or one that ends with the first acceptance |
| `Ledgers.AdvancedOn` | src/core/walk.hpp:103-118 | two stretches of work, one after the other, book together: new visits use draws made in between, no draw twice, every real draw booked |
| `Ledgers.StaysSound` | src/core/walk.hpp:103-118 | booking what was drawn since keeps the ledger sound: no draw of the whole job decides two steps |
| `Walk.MakeSampler` | src/core/sampler.hpp:386-408 | the chosen sampler serves the partition: buffered exactly when hinted, uniform exactly when all degrees are equal and none exceeds the vertex count, similar exactly when the degree range is below 8 and four bytes for each edge and twelve for each vertex reach the L2 size; 32-bit limits are asked for only where the class has them |
| `Walk.DegreesInRange` | src/core/graph.hpp:370-382 | the computed degree range holds every degree, and is tight but for a minimum above the vertex count |
| `Walk.UniformIff` | src/core/graph.hpp:370-382 | the two ends of the range meet exactly when all degrees are equal and at most the vertex count |
| `ClaimProtocol.FinishedSchedule` | src/core/walk.hpp:171-226 | under every interleaving, when all threads have left, the log gives every partition exactly one turn, by a thread of its socket |
| `ClaimProtocol.RunInv` | src/core/walk.hpp:171-226 | every state of every run keeps the counters, the claims and the log consistent |
| `ClaimProtocol.FreshIndex` | src/core/walk.hpp:184-188 | an admitted thread finds an index inside its list that nobody has been given: front and back claims never collide |
| `ClaimProtocol.HeldIsOwn` | src/core/walk.hpp:179-188 | at any time a held index is in range, held by one thread only, and not yet stepped |
| `ClaimProtocol.AllStepped` | src/core/walk.hpp:179-226 | when all threads have left, every index of every socket's list was stepped |
| `ClaimProtocol.Progress` | src/core/walk.hpp:179-188 | a run can always go on until every thread has left |
| `ClaimProtocol.RunLength` | src/core/walk.hpp:171-226 | no run takes more than three steps for each partition and one for each thread, and a run has come to its end exactly when it has taken so many, under every interleaving |
| `ClaimProtocol.Completed` | src/core/walk.hpp:171-226 | every run, however it has begun, can be completed |
| `ClaimProtocol.ThreadConfigValid` | include/type.hpp:43-51 | consecutive threads per socket, with odd offsets at the front: every socket has its threads |
| `WorkStealing.ProcessedOnce` | src/core/walker.hpp:107-144 | under every interleaving, when all threads are done, each index below the active count was processed exactly once, and no other, if every queue fits 32 bits |
| `WorkStealing.RunInv` | src/core/walker.hpp:107-144 | every state of every run accounts for each index that was handed out, and no two threads have one in common |
| `WorkStealing.CursorBound` | src/core/walker.hpp:130-131 | a cursor never exceeds max(begin, end + 63) + 64 * threads, so it does not wrap when that is below 2^32 |
| `WorkStealing.FetchAddInv` | src/core/walker.hpp:130-136 | a fetch-and-add hands out fresh indices only, or one overshoot per thread and queue |
| `WorkStealing.VisitsArePerm` | src/core/walker.hpp:121-125 | every thread visits every queue exactly once, its own one first |
| `WorkStealing.OwnSocketFirst` | src/core/walker.hpp:121-125 | the first visits of every thread, as many as a socket has threads, are to queues of its own socket, and the later ones to others |
| `WorkStealing.QueueConfigFits` | src/core/walker.hpp:114-116 | there is room for every cursor when n + 64 * (threads + 1) <= 2^32 |
| `WorkStealing.QueueConfigOk` | src/core/walker.hpp:114-116 | the thread ranges, cut to the active walkers, are disjoint and cover exactly those |
| `WorkStealing.NoWrap` | src/core/walker.hpp:130-131 | as long as some thread will still look at a queue, its 32-bit cursor does not wrap |
| `StealingLimits.FitsExactly` | src/core/walker.hpp:130-136 | exact condition: no run processes an index twice if and only if, for every queue, its last chunk's end plus 64 for every thread but one stays below 2^32, or its end is at most its begin's remainder by 64 |
| `StealingLimits.UnfitRepeats` | src/core/walker.hpp:130-136 | wherever the condition fails, a run that processes an index twice, for any number of threads |
| `StealingLimits.OneThreadFits` | src/core/partition.hpp:306 | one thread alone can take exactly the epochs of at most 2^32 - 64 walkers; the clamp allows 2^32 - 2 |
| `WorkStealing.Unstuck` | src/core/walker.hpp:107-144 | a run can always go on until every thread is done |
| `StealingEnds.RunLength` | src/core/walker.hpp:107-144 | no run takes more than 67 steps for each chunk and four for each visit of a thread to a queue, under every interleaving, if every queue fits 32 bits |
| `StealingEnds.OneStepNearer` | src/core/walker.hpp:130-136 | every atomic step of every thread brings the run nearer to its end: a fetch-and-add that hands out a chunk leaves one chunk less, and no other step leaves more |
| `StealingEnds.Completed` | src/core/walker.hpp:107-144 | every run, however it has begun, can be completed, if every queue fits 32 bits |
| `WalkerRanges.InitRanges` | src/core/walker.hpp:41-73 | socket and thread ranges tile [0, n); sockets start at s * hint, on 2048-walker boundaries; thread ranges start at 32-walker boundaries or are empty, dealt hint by hint within their socket, which determines every one of them |
| `WalkerRanges.HintBounds` | src/core/walker.hpp:45-73 | the size dealt is a multiple of the unit, and the largest with which no part comes up short: parts * h <= n < parts * (h + unit) |
| `WalkerRanges.RangesChain` | src/core/walker.hpp:45-73 | the thread ranges that the boundaries determine tile the walkers |
| `WalkerRanges.Deal` | src/core/walker.hpp:48-72 | the dealing loop: range k starts k hints in as far as the walkers last, the last one takes the rest, and the remainder never goes negative |
| `WalkerRanges.ClampAll` | src/core/message.hpp:203-214 | despite the early exits every range is cut to the active walkers, so the ranges tile exactly [0, active), again and again for falling counts |
| `WalkerRanges.PageStart` | src/core/walker.hpp:93-94 | a socket's start times the size of an even-sized element is a multiple of the page size |
| `EpochSize.Estimate` | src/core/partition.hpp:266-308 | sized exactly when the bytes of the graph (12 for a vertex on each socket, 4 for an edge and for a buffered edge), of the filter and of one walker stay within the quota and there is a walker; the check fails exactly when the quota does not exceed the graph and the filter; the size is between 1 and 2^32 - 2 |
| `EpochSize.AffordsIff` | src/core/partition.hpp:280-294 | so many walkers are affordable exactly when their paths, twice, and three words for each fit the quota beside the graph |
| `EpochSize.EvenBounds` | src/core/partition.hpp:295-305 | evening out stays between 1 and the limit, takes exactly as many epochs as the limit would, and is the least size that does |
| `EpochSize.EpochFits` | src/core/partition.hpp:280-308 | the epoch fits the quota beside the graph and has no more walkers than there are; below the clamp no size that fits the quota takes fewer epochs, and every smaller one takes more |
| `EpochSize.CountEpochs` | src/core/solver.hpp:159-165 | the listed epochs are ceil(N/W) of at most W walkers, all full but the last, and add up to N; epoch e takes W walkers or what earlier epochs left |
| `Partition.SizeGroups` | src/core/partition.hpp:222-226 | the least shift that leaves at most 128, at most 25 bits, and the group count as 32-bit arithmetic gives it |
| `Partition.GroupsCoverIff` | src/core/partition.hpp:222-226 | at most 129 groups; they cover every vertex exactly when v_num <= 2^32 - 2^25 |
| `Partition.GroupsMayVanish` | src/core/partition.hpp:226 | 2^32 - 1 vertices: the rounding sum wraps and no group is left |
| `Partition.MakeHeaders` | src/core/graph.hpp:272-283 | the group table holds each group's bits and the index of its first partition |
| `Partition.MakePartitions` | src/core/graph.hpp:285-297 | every group's partitions follow one another at the group's offset |
| `Partition.PartitionsTile` | src/core/graph.hpp:285-297 | the partitions tile [0, v_num) |
| `Partition.PartitionSize` | src/core/graph.hpp:285-297 | a group's partitions lie inside the group and have exactly 2^bits vertices, but for the very last one, which may have fewer |
| `Partition.PartitionIdFinds` | src/core/graph.hpp:182-185 | the looked-up index is a partition whose range holds the vertex |
| `Partition.TilesUnique` | src/core/graph.hpp:182-185 | no other partition holds it |
| `Partition.FullGroup` | src/core/graph.hpp:280 | every group but the last is full, which is why offsets can be computed from the bits alone |
| `Knapsack.Dp` | src/core/partition.hpp:157-203 | the picks are optimal among all choices of one candidate per group within the capacity; when no choice fits, the check fails, or with a single group a candidate that was never set is read |
| `Knapsack.BestIsLower` | src/core/partition.hpp:172-195 | the table value is a lower bound on the cost of every choice that fits |
| `Knapsack.BestIsAttained` | src/core/partition.hpp:172-195 | and some choice attains it |
| `Knapsack.BestMonotone` | src/core/partition.hpp:190-194 | a row never rises with the capacity: a cell is set whenever a smaller capacity's is, and costs no more |
| `Knapsack.FillRow` | src/core/partition.hpp:173-189 | a row of the table holds the best values for one more group |
| `Knapsack.CarryOver` | src/core/partition.hpp:190-194 | the carry-over loop, which compares a cell with itself, changes nothing |
| `Knapsack.Traceback` | src/core/partition.hpp:197-203 | the chain of previous cells yields a choice of the table's cost within the capacity |
| `Hints.PlanPartitions` | src/core/partition.hpp:216-237 | group sizing, candidates, DP and layout together: there is a partitioning exactly when some valid hints of measured sizes from 2^min(4, group bits) to 2^min(24, group bits) stay within 2048 partitions, and then its hints cost the benchmark no more than any other such hints, and every partition has the benchmark's sampler for its own vertices, in layout order; measuring the coarsest size is enough |
| `Hints.OptimalIsCheapest` | src/core/partition.hpp:157-237 | an optimal choice of candidates, turned into hints, costs no more than any valid hints of allowed sizes within 2048 partitions, whether made of candidates or not |
| `Hints.FeasibleIff` | src/core/partition.hpp:157-237 | the DP has a choice within the capacity exactly when some allowed hints exist |
| `Hints.NoBetterGroup` | src/core/partition.hpp:157-203 | no group of the chosen plan can be cut more cheaply in another allowed size that leaves the plan within 2048 partitions |
| `Hints.BuildCandidates` | src/core/partition.hpp:54-153 | the candidates are exactly the measured sizes, each a valid hint with a sampler per partition |
| `Hints.CoarsestFits` | src/core/partition.hpp:222-237 | one coarsest candidate per group fits the partition limit, so the DP is feasible when that size was measured |
| `Hints.ClassesLineUp` | src/core/partition.hpp:205-210 | the concatenated sampler lists line up one for one with the partitions make lays out |
| `Hints.SameRange` | src/core/partition.hpp:76-77 | a candidate's partition range is the range make gives that partition |
| `DegreeSort.CountingSort` | src/core/graph.hpp:103-133 | unit i goes to the mirror image of its counting-sort slot |
| `DegreeSort.SortPermutes` | src/core/graph.hpp:127-130 | the result is a rearrangement of the input |
| `DegreeSort.SortOrders` | src/core/graph.hpp:127-130 | degrees never rise, and equal degrees come out in reversed input order |
| `DegreeSort.MirrorIsPerm` | src/core/graph.hpp:127-130 | the write positions are distinct, in range and all used |
| `Relabel.RelabelEdges` | src/core/graph.hpp:207-224 | names and ids are inverse to each other, every edge's ids name the edge that was read, and every id is used |
| `Relabel.CountDegrees` | src/core/graph.hpp:231-243 | every vertex's unit counts its arcs |
| `Relabel.ArcsCount` | src/core/graph.hpp:231-243 | an arc stands in the graph as often as it was read, and when undirected as often as its reverse besides |
| `Relabel.Load` | src/core/graph.hpp:207-246 | units list every id once with its degree, in falling degrees, all positive; the sort's assertion fails exactly when a directed input has a target that is no source; there is an id for every name that occurs |
| `Relabel.EveryDegreePositive` | src/core/graph.hpp:120 | the assertion of the sort holds if and only if the input is undirected or every target has an out-edge |
| `Snake.SnakeDeal` | src/core/graph.hpp:302-332 | dealing ends, permutes the units and touches nothing behind them, and leaves them in snake order: a vertex dealt earlier, pass by pass and back and forth within the passes, never has the lower degree |
| `Snake.DealPermutes` | src/core/graph.hpp:314-331 | what was dealt is a rearrangement of what there was |
| `Snake.DealFalls` | src/core/graph.hpp:314-331 | a vertex dealt before another, in the back-and-forth order of the passes, has no lower degree than it |
| `Snake.DealOrders` | src/core/graph.hpp:314-331 | what was dealt vertex by vertex from falling degrees stands in snake order |
| `Snake.ThereAndBack` | src/core/graph.hpp:314-331 | of two partitions the first gets the higher degree in one pass and the second in the next |
| `Snake.KeepsLevel` | src/core/graph.hpp:314-331 | after k passes the edge totals of two partitions differ by at most the spread of the degrees they got |
| `Build.DealPartitions` | src/core/graph.hpp:302-332 | the first partitions are dealt in snake order, the others keep their falling degrees, and no unit is lost |
| `Build.EvenlyDealt` | src/core/graph.hpp:302-332 | two dealt partitions of equal size differ in edges by at most the spread of their degrees |
| `Build.SnakeOfSockets` | src/core/graph.hpp:339-346 | of every 2 * sockets partitions in a row each socket gets one going up and one coming back |
| `Build.AssignSockets` | src/core/graph.hpp:339-355 | each socket's list names exactly its partitions, in order |
| `Build.NewIds` | src/core/graph.hpp:363-368 | the new number of a vertex is its position after dealing |
| `Build.RenumbersInjective` | src/core/graph.hpp:363-368 | renumbering is one to one |
| `Build.RenumberEdges` | src/core/graph.hpp:384-388 | both ends of every edge move to the new numbers |
| `Build.NameIds` | src/core/graph.hpp:401-408 | id2name gives every new number its vertex's name |
| `Build.PlaceLists` | src/core/graph.hpp:421-444 | every list fits its socket's array, no two lists overlap, a partition's lists are contiguous, and they are in the array of the partition's own socket |
| `Build.LayoutHolds` | src/core/graph.hpp:357-444 | the layout has room for every arc, positive degrees, contiguous partitions and falling degrees within them |
| `Build.Make` | src/core/graph.hpp:263-444 | make up to the fill: layout, snake order and even edge totals of the dealt partitions, falling degrees of the others, socket lists with each partition's lists on its socket, and edges that still name what was read |
| `Build.EdgesConserved` | src/core/graph.hpp:446-456 | after any complete run of the fill the arcs of the graph, by name, are exactly the input edges, with reverses when undirected |
| `Build.EdgeNumIs` | src/core/graph.hpp:198-206 | the lists have room for exactly the edges read, once, or twice when undirected |
| `EdgeFill.RunInv` | src/core/graph.hpp:446-456 | every state of every run keeps cursors, claimed slots and stored edges consistent |
| `EdgeFill.KeepsStored` | src/core/graph.hpp:450-455 | a store never overwrites an edge another insertion stored |
| `EdgeFill.PlacesArePerm` | src/core/graph.hpp:446-456 | when all are done every edge slot was written by exactly one insertion |
| `EdgeFill.FillConserves` | src/core/graph.hpp:446-456 | the finished lists hold exactly the arcs, each the right number of times |
| `EdgeFill.Progress` | src/core/graph.hpp:446-456 | a run can always go on until every arc is in place |
| `EdgeFill.RunLength` | src/core/graph.hpp:446-456 | no run takes more than two steps for each arc, and a run has come to its end exactly when it has taken so many, under every interleaving |
| `EdgeFill.Completed` | src/core/graph.hpp:446-456 | every run, however it has begun, can be completed |
| `Samplers.DirectSampler.Sample` | src/core/sampler.hpp:194-197 | the answer is the neighbour that the one draw, below the degree, picks |
| `Samplers.UniformDegreeDirectSampler.Sample` | src/core/sampler.hpp:227-230 | the computed slot holds the neighbour that the one draw picks |
| `Samplers.RunIndexExactIff` | src/core/sampler.hpp:229 | the 32-bit slot index is right for a whole run exactly when it has at most 2^32 edges |
| `Samplers.RunBegin` | src/core/sampler.hpp:227-230 | in a run of equal degrees a list's place follows from its vertex number |
| `Samplers.SimilarDegreeDirectSampler.Init` | src/core/sampler.hpp:315-332 | the hints are the successive runs of the partition, at most max - min + 1 of them, within the array |
| `Samplers.SimilarDegreeDirectSampler.Sample` | src/core/sampler.hpp:305-313 | the run lookup finds exactly the neighbour that the one draw picks; the fall-through return is never taken |
| `Samplers.HintFinds` | src/core/sampler.hpp:305-313 | a run's arithmetic addresses the same slot as the plain adjacency list |
| `BufferSampler.BufferLengthPow2Iff` | src/core/sampler.hpp:43-52 | the buffer length is a power of two, which the comment rules out, exactly for degrees up to 8 |
| `BufferSampler.BufferLengthIs` | src/core/sampler.hpp:43-52 | 8 up to degree 8, above it the degree, and one more for a power of two |
| `BufferSampler.SumsExactIff` | src/core/sampler.hpp:127-146 | the 32-bit running sums are the true stretch begins exactly when the total is below 2^32 |
| `BufferSampler.ExclusiveBufferSampler.constructor` | src/core/sampler.hpp:121-147 | the stretches tile the unit array and start out empty |
| `BufferSampler.ExclusiveBufferSampler.Fill` | src/core/sampler.hpp:101-119 | a whole buffer of neighbours of one vertex, each the one its own draw picks, other vertices' buffers untouched |
| `BufferSampler.ExclusiveBufferSampler.Sample` | src/core/sampler.hpp:86-99 | what was handed out, followed by what is left to read, is what was drawn, in order; each draw is used once |
| `BufferSampler.ExclusiveBufferSampler.Clear` | src/core/sampler.hpp:79-84 | clearing forgets what is left to read |
| `Bloom.KeyInjective` | include/hash.hpp:43-48 | a key determines the unordered pair |
| `Bloom.Capacity` | include/hash.hpp:56-63 | the least power of two from 4 up above a quarter of the items |
| `Bloom.GetBloom` | include/hash.hpp:26-41 | the signature bits of a value |
| `Bloom.BloomFilter.Insert` | include/hash.hpp:86-89 | the pair joins the filter; the table stays the union of the signatures of what was inserted |
| `Bloom.BloomFilter.Exist` | include/hash.hpp:91-102 | never false for an inserted pair |
| `Bloom.DeniesUnlessShared` | include/hash.hpp:91-102 | a pair whose cell no inserted pair fell into is denied |
| `Bloom.KnownValues` | include/hash.hpp:26-54 | the mixing function at 1, and the signature bits of the key of (1, 2) |
| `Bloom.OrderIrrelevant` | include/hash.hpp:86-89 | filters with the same pairs have the same table, in whatever order they were inserted |
| `Neighbors.PrepareNeighborQuery` | src/core/graph.hpp:479-500 | every list sorted in place, nothing else changed, every edge and nothing but edges in the filter, which has the capacity for the edges, or half of them when undirected |
| `Neighbors.SameEdges` | src/core/graph.hpp:481-487 | sorting changes no edge |
| `Neighbors.HasNeighbor` | src/core/graph.hpp:503-511 | true exactly for the edges of the graph |
| `Neighbors.Accept` | src/core/walk.hpp:80-94 | accepted exactly when the draw is at most 1/p for going back, 1 for a neighbour of the vertex before, 1/q otherwise; the shortcut below min(1, 1/q) never changes the verdict |
| `Neighbors.WeightWithinBound` | src/core/walk.hpp:50-61 | every weight is positive and within the range the draws come from |
| `Memory.CountAll` | include/memory.hpp:28-66 | the counter ends at the sum the requests need |
| `Memory.GetMemory` | include/memory.hpp:96-99 | memory is given exactly for an aligned counter |
| `Memory.Replay` | include/memory.hpp:129-167 | replaying counted requests never fails the size check and ends exactly at the counted size |
| `Memory.BlocksDisjoint` | include/memory.hpp:129-167 | the blocks lie within the memory and never overlap |
| `Memory.BlockAlignedIff` | include/memory.hpp:129-153 | a block is aligned exactly when the unaligned requests before it, since the last alignment, add up to a multiple |
| `Memory.AlAllocMayBeUnaligned` | include/memory.hpp:129-153 | one byte by na_alloc, then al_alloc: offset 1 |
| `Memory.AllAligned` | include/memory.hpp:129-153 | with al_alloc requests only, every block is aligned |

## Left out

- Walk.Propose: the source's rejection loop has no bound and ends with probability one only; the model follows it for `fuel` proposals, and a walk that stops for want of more has the log of such a loop to show.
- Walk.NodeWalkMessages: at a self-loop the source's assertion stops the program; the model returns `SelfStep` there, and a build without assertions, which would go on, is not modelled.
- Walk.WalkMessages: with a buffered sampler the neighbour was drawn when the buffer was filled, perhaps by another thread; the sampler's books say which one it is in the order of what was drawn for its vertex, but the ledger of a whole job does not name that draw.
- Solver.LegalStep: the first node2vec step is only known to be drawn against some state, because the slot it reads was last written in another round.
- EndToEnd.WalkGraph: the protocols' runs are given to their end; every run can be completed and none goes on for ever, but that a scheduler lets every thread run is not modelled.
- Solver.FMobSolver.Run: that a step was taken by the thread with the partition's turn is stated of the whole run; that a start was drawn by the thread that visited the walker is stated of each epoch's `DrawStarts` only.
- Hints.PlanPartitions: the mini-benchmark, the cost formula with its penalties and the choice of the cheapest sampler are an arbitrary non-negative cost and an arbitrary choice per partition; which of several equal costs wins is not modelled either.
- EpochSize.Estimate: 64-bit overflow of the byte counts is not modelled, and a division by zero is reported as such.
- Relabel.Load: an empty edge list is left out of `EndToEnd.BuildGraph`, because the source then reads before the start of its partition list; the mark 2^32 - 1 that the source's name table holds for a name without an id is `None` here, and could be mistaken for an id only with 2^32 vertices.
- Relabel.CountDegrees: the atomic degree increments are taken one after the other.
- Message.MessageTask.Shuffle: the state array exists in static walks too, where the source has none.
- Neighbors.PrepareNeighborQuery: std::sort and std::binary_search are modelled by a sort on sequences and a binary search; the graph's edge arrays are values, so sorting in place returns the new graph, and the insertions into the filter come in vertex order (`Bloom.OrderIrrelevant` covers the others).
- Stepping.WalkAll: threads step different partitions one after the other; that this is enough rests on `Divided` and `Staffed`, by which the partitions' work shares nothing but each thread's own generator.
- Build.PlaceLists: the copies of the adjacency headers on the other sockets are one value here.
- File formats, option parsing, logging, profiling, timers, NUMA placement, mmap, prefetching and cache flushing: no effect on the results.
- The random generators themselves and the distribution of the walks: statistics.
- Rounding in floating-point costs and probabilities.
- src/core/mini_bmk.hpp: wall-clock measurement.
- The second partitioning level, which is commented out, and the random hints compiled for unit tests.
- SamplerManager's clear, which the solver never calls, and the samplers' reset, which only flushes caches.
