# A verified model of seedloop

seedloop runs asyncio programs deterministically from a seed: a virtual clock, a simulated network with
faults, invariants checked after every step, and a teardown that always ends. This project models those
parts in Dafny and proves what they are for. `dafny verify dfyconfig.toml` checks all of it.

Conventions that hold everywhere:

- Time and probabilities are `real`; infinities and NaN are separate values where the code looks for them.
- A random stream is an arbitrary function from draw number to value, with a cursor. One draw of
  `random.choice` is one draw of the stream.
- User code is an adversary. In the loop, the k-th callback that runs performs an arbitrary finite list of
  loop operations and may be interrupted after them; predicates answer arbitrarily and may raise. In the
  network, user code may do anything between any two moves of the loop.
- Code that updates objects in place is a class whose methods are each proved equal to a function of the
  object's old value; the theorems are about those functions and about all runs of them.

| files | what they are about |
|---|---|
| `Raft`, `Election`, `SplitBrain`, `RaftRules` | the election demo: node objects; the cluster as a protocol; its rules event by event; Election Safety (section 5.2 and Figure 3 of "In Search of an Understandable Consensus Algorithm", Ongaro and Ousterhout) and exactly when it holds |
| `Agenda`, `AgendaMembers` | the agenda the loop promises: clock, timers in `(when, seq)` order, ready queue, history |
| `LoopModel`, `EventLoop` | one step and one run of the loop as functions; the loop and world objects, with tombstoned timers, proved to be them |
| `Callbacks`, `Batches`, `CallbackEffects`, `Futures` | where every callback is, what a step runs and in which order, what the operations of a callback come to, where results and tasks come from |
| `LoopProperties`, `Checks`, `VirtualTime`, `StopProtocol`, `Coverage`, `RunUntil`, `RunUntilRuns`, `RunUntilExits`, `FreshWorld` | the after-step checks and deadlock, exact virtual time, the stop steps, invariant coverage, `run_until` and what it leaves behind; the same for a run from the start |
| `Teardown`, `TeardownRounds`, `TeardownChecks`, `Budgets`, `Drive`, `DriveReports`, `DriveRuns`, `WorldDrive` | settling, rounds of cancellation, step budgets, failure priority and what is reported when; time and `run_until` over a whole drive; the methods of `World` |
| `NetModel`, `NetFaults`, `NetRefusals`, `NetMachine`, `LoopMoves` | the network as functions, seed-timed faults and why they are refused, every run of both; a step of the loop as moves of that machine |
| `NetBook`, `NetTimers`, `NetInv`, `NetSends`, `NetCommits`, `NetTakes` | the invariant of those runs and why each move keeps it |
| `NetRuns`, `NetRunFor`, `NetOutcomes`, `ReliableLinks`, `Conservation`, `Wakeups`, `Streams`, `SendRules`, `SlowLinks`, `FaultDraws` | what follows for faults, `run_for`, reliable links, conservation, wake-ups and entropy; the fate of each send and of each fault by its draws |
| `Transport` | `Transport` and `_Endpoint` as objects |
| `PatchStack`, `PatchCalls`, `PatchProcess`, `Sessions` | process-wide patches as a machine of atomic steps; calls through them; the two context managers; a whole session |
| `Baseline`, `BaselineRoundTrip`, `MutationShards` | the mutation baseline's printer, parser and sharded verdict |

Findings worth knowing beside the proofs:

- After the hundredth round `_cancel_everything` raises without looking again. `Teardown.ReturnsExactlyWhen`
  gives the exact condition for a normal return and `Teardown.FailsWithNothingPending` a program on which
  teardown fails although nothing is pending. The method's own description ("rounds repeat until nothing is
  pending") does not say so; the model follows the code.
- docs/network.md, under "Opt-in reliable, ordered delivery", speaks of a single FIFO delivery queue
  instead of independent latencies. The code draws a latency for each message and keeps one non-decreasing
  clock per link (src/seedloop/_net.py:383-391), as the same document says further down; the model follows
  the code.
- No loss on a reliable link does not reach across a partition or a crash. `NetOutcomes.OnlyCutsRemove` says
  that nothing else removes a message, `NetOutcomes.VerdictsExactly` exactly when one is removed, and
  `NetOutcomes.ReliableMessageLost` gives a run in which one is.
- `run_for(seconds=0, faults=...)` sets no timer, so the statement about windows being closed when it
  returns is about positive lengths (`NetRuns.NoLengthNoTimer`, `NetRuns.ClosedWhenItReturns`).
- A cluster of one node never elects a leader, since a node counts votes only when another's arrives
  (`RaftRules.AloneNeverLeads`; src/seedloop/demos/raft.py:78-83, 111-116).
- The baseline round-trips under an exact condition on keys and reasons (`BaselineRoundTrip.RoundTrip`); a
  key that ends in `  #` is the one that looks harmless and is not.
- The sharded verdict needs unique mutant keys (`MutationShards.DuplicateKeysDisagree`); the script stops if
  they are not (scripts/mutation_sweep.py:242-244).
- A patched name can outlive its session in two ways only: its own restore was interrupted, or other code
  put the wrapper back (`PatchCalls.NothingStaysPatched`, and a run for each exception).

## Model

| member | source | states |
|---|---|---|
| `Election.ElectionSafety` | src/seedloop/demos/raft.py:56-121 | With the single-vote rule on, for every cluster size and every sequence of timeouts and deliveries over a network that may lose, repeat and reorder anything, no term ever has two different nodes that are or were leader |
| `Election.HappenKeepsInv` | src/seedloop/demos/raft.py:56-121 | The inductive invariant: one vote a node a term, every granted vote in flight matches the voter's recorded vote, every leader was elected by a majority of real votes; any single event keeps it |
| `Election.RunInv` | src/seedloop/demos/raft.py:56-121 | The invariant holds after every run from the initial cluster |
| `Election.VotesRemembered` | src/seedloop/demos/raft.py:56-64 | Whatever a handler does, a vote once cast in a term is still the recorded vote of that term |
| `Election.MajoritiesMeet` | src/seedloop/demos/raft.py:114 | Two sets of voters that are each more than half of the same cluster share a voter |
| `Election.InvSafe` | src/seedloop/demos/raft.py:111-116 | The invariant alone rules out two leaders in one term |
| `SplitBrain.CheckAlwaysPasses` | src/seedloop/demos/raft.py:133-149 | The per-step check of the demo never fails in a run of the correct protocol |
| `SplitBrain.BuggySplits` | src/seedloop/demos/raft.py:100-108 | With `buggy=True` every cluster of two or more nodes has a run, built in the proof, with two leaders in one term |
| `SplitBrain.SafeExactlyWhen` | src/seedloop/demos/raft.py:56-121 | All runs of a cluster are safe if and only if the rule is on or the cluster has at most one node |
| `RaftRules.EventsObey` | src/seedloop/demos/raft.py:52-121 | Any event of any cluster touches one node only, and takes it from state to state, with messages sent, by the rules of the election, which are written down without the handlers: who may still be voted for, when a vote elects, what a heartbeat of an older, the same or a newer term does, what silence does |
| `RaftRules.EverybodyTold` | src/seedloop/demos/raft.py:52-121 | After any run, correct or buggy: whoever is or was candidate has asked every other node, every vote was told to whom it was given, every leader has sent every other node a heartbeat, and no message says anything else: requests are from candidates, granted votes from voters that were asked, heartbeats from leaders |
| `RaftRules.HeartbeatsAgree` | src/seedloop/demos/raft.py:65-121 | In a correct cluster all heartbeats of one term that were ever sent come from one node |
| `RaftRules.NeverStandsAgain` | src/seedloop/demos/raft.py:56-121 | Over runs: a node that has been delivered a heartbeat of term t, of its own term or a later one, is never again candidate or leader in t |
| `RaftRules.AskedGives` | src/seedloop/demos/raft.py:97-109 | A node that may still vote gives its vote to whoever asks and says so |
| `RaftRules.AloneNeverLeads` | src/seedloop/demos/raft.py:78-116 | In no run of a cluster of one is there a leader or any message: nothing but another node's vote elects |
| `RaftNodes.RaftNode.AdoptNewerTerm` | src/seedloop/demos/raft.py:56-63 | The new term, role, vote and votes, all four, of the node |
| `RaftNodes.RaftNode.BeginElection` | src/seedloop/demos/raft.py:78-83 | The new state of the node and exactly what it broadcasts |
| `RaftNodes.RaftNode.OnRequestVote` | src/seedloop/demos/raft.py:97-109 | The new state, and the one reply to the asker, granting exactly under the rule (or without it when buggy) |
| `RaftNodes.RaftNode.OnVote` | src/seedloop/demos/raft.py:111-116 | The new state, and a heartbeat broadcast exactly when a majority is reached |
| `RaftNodes.RaftNode.OnHeartbeat` | src/seedloop/demos/raft.py:118-121 | The new state: a newer term is adopted, in the same term the node steps down and keeps its vote |
| `RaftNodes.RaftNode.OnTimeout` | src/seedloop/demos/raft.py:65-76 | A timeout: a leader broadcasts a heartbeat and keeps its state, anyone else begins an election |
| `RaftNodes.LeadersByTerm` | src/seedloop/demos/raft.py:124-130 | The dictionary has a term exactly if some node leads it, with exactly the addresses that do |
| `RaftNodes.AtMostOneLeaderPerTerm` | src/seedloop/demos/raft.py:133-135 | True if and only if no two nodes with different addresses lead the same term |
| `Agendas.CallAtInv` | src/seedloop/_loop.py:143-152 | Setting a timer keeps the agenda's invariant: heap order, nothing late, everything fired on time and in order |
| `Agendas.CancelInv` | src/seedloop/_loop.py:159-161 | Cancelling keeps it |
| `Agendas.JumpInv` | src/seedloop/_loop.py:173-178 | The clock moves only when nothing is ready, never back, and never past a timer still to fire |
| `Agendas.FireDueInv` | src/seedloop/_loop.py:222-228 | Firing keeps it and moves neither the clock nor what was taken |
| `Agendas.FireDueSplits` | src/seedloop/_loop.py:222-228 | Firing leaves exactly the timers that are not due and queues exactly those that are |
| `Agendas.RanOnTime` | src/seedloop/_loop.py:143-178 | A timer that ran did so with the clock at max(its deadline, the clock when it was set) |
| `Agendas.FiresInOrder` | src/seedloop/_loop.py:143-178 | No later a deadline and created first means fired first, across the whole run |
| `Agendas.NotLeftBehind` | src/seedloop/_loop.py:222-233 | While a timer has fired, none that should have fired before it still waits |
| `AgendaMembers.EarlierTaken` | src/seedloop/_loop.py:222-233 | When a timer is next to run, every timer it must not overtake has run |
| `EventLoop.DeterministicLoop.CallAtTime` | src/seedloop/_loop.py:143-152 | The heap of tombstones gains the timer where the plain agenda does; a NaN deadline is refused and changes nothing |
| `EventLoop.DeterministicLoop.CallLaterBy` | src/seedloop/_loop.py:154-157 | `call_later` is `call_at` from now, infinities and NaN included |
| `EventLoop.DeterministicLoop.CancelHandle` | src/seedloop/_loop.py:159-161 | Leaving a tombstone in the heap is removing the timer from the agenda at once |
| `EventLoop.DeterministicLoop.PurgeCancelledTimers` | src/seedloop/_loop.py:230-233 | Popping tombstones off the heap head changes nothing of the agenda, and leaves a live head or none |
| `EventLoop.DeterministicLoop.FireDueTimers` | src/seedloop/_loop.py:222-228 | Popping due entries and skipping tombstones is firing the due timers of the agenda |
| `EventLoop.World.AdvanceClock` | src/seedloop/_loop.py:172-184 | Autojump, deadlock test and firing on the heap of tombstones are those of the plain agenda |
| `EventLoop.World.RunReadyBatch` | src/seedloop/_loop.py:185-190 | The batch ready at step start runs in FIFO order, cancelled entries skipped, later ones left for the next step |
| `EventLoop.World.RunAllHooks` | src/seedloop/_loop.py:191-209 | Every hook runs; the first hard failure is raised, everything else is a note on it |
| `EventLoop.World.CountDownStep` | src/seedloop/_loop.py:210-220 | The watch and stop-in countdown after a step |
| `EventLoop.World.RunOnce` | src/seedloop/_loop.py:163-220 | One step on the tombstone heap is one step of the model: same callbacks, same order, same clock, same error |
| `Batches.StepTakes` | src/seedloop/_loop.py:163-190 | A step takes exactly what was ready when it began followed by the timers due at its clock in heap order, all at that clock, and less only if an interrupt escapes; a callback that was run is one turn of the program, and none runs whose handle was cancelled before |
| `Batches.RunsUnlessCancelled` | src/seedloop/_loop.py:187-190 | To the instant: the i-th entry of a batch runs if and only if its handle is not cancelled once the entries before it are through |
| `Batches.CancelledNeverRun` | src/seedloop/_loop.py:187-190 | Over any run: an entry whose handle is cancelled at the beginning never runs, one whose handle is not cancelled at the end ran if it was taken, and the turns of the program are exactly the entries that ran |
| `Callbacks.NothingLostOrRepeated` | src/seedloop/_loop.py:143-190 | Over any run: every handle ever given out is in one place exactly (a waiting timer, a ready entry, or an entry taken once) unless it was cancelled, and then in one at most |
| `Callbacks.TakenAtMostOnce` | src/seedloop/_loop.py:187-190 | So no callback is ever taken twice |
| `CallbackEffects.EveryOperationDone` | src/seedloop/_loop.py:143-190 | When a step is over, however it ended, every operation of every callback it ran has had its effect: the callback handed over is queued, the timer set for its deadline and waiting unless cancelled, the task created, the node started, the future done, the predicate registered, the loop stopping |
| `CallbackEffects.StopEndsTheRun` | src/seedloop/_loop.py:95-128 | A callback that calls `stop` ends the run with its own step, unless an error does |
| `CallbackEffects.InterruptsStop` | src/seedloop/_loop.py:187-190 | An interrupt that escapes a callback ends the batch there and is what the step raises; without one the whole batch runs |
| `Futures.ResultsAreGiven` | src/seedloop/_loop.py:163-220 | Over any run: a result once there stays, and every new one is the outcome that an operation of a callback run meanwhile gave that very future |
| `Futures.TasksAreSpawned` | src/seedloop/_loop.py:133-141 | Over any run the tasks are those that callbacks created, numbered in the order of creation, and the started nodes those that were started, in that order |
| `EventLoop.World.RunLoop` | src/seedloop/_loop.py:95-128 | Stepping until stopped, then clearing the stop flag, for any program |
| `EventLoop.World.RunUntilFutureDone` | src/seedloop/_loop.py:95-120 | `run_until_done` as a whole, watch state cleared on every way out |
| `EventLoop.World.RunOneMore` | src/seedloop/_loop.py:122-128 | `run_one_more_step` as a whole |
| `EventLoop.World.Always` | src/seedloop/_world.py:84-101 | Registering a predicate: ignored while tearing down, one hook however many predicates |
| `EventLoop.World.CheckInvariants` | src/seedloop/_world.py:103-109 | Predicates asked in registration order up to the first that fails or raises |
| `EventLoop.World.CheckUntilCall` | src/seedloop/_world.py:199-221 | One check of a `run_until`: predicate first, then the deadline; a raising predicate is a soft failure |
| `EventLoop.World.BeginUntilCall` | src/seedloop/_world.py:191-230 | Entering `run_until`: refusals, hook, timer, the check on entry |
| `EventLoop.World.CancelUntilCall` | src/seedloop/_world.py:228-242 | A cancelled `run_until` runs its `finally` and nothing else |
| `CallbackEffects.BeginningACall` | src/seedloop/_world.py:191-242 | A `run_until` that is not refused is on record as it was made and looked at once; answered or interrupted by that look it is over, slot free and timer cancelled, otherwise its check is the last on the list and its timer is set |
| `CallbackEffects.CancellingWakes` | src/seedloop/_world.py:228-230 | Cancelling the task in `run_until` abandons the call and queues that task; with no call waiting nothing happens |
| `LoopProperties.DeadlockExactly` | src/seedloop/_loop.py:167-183 | `DeadlockError` in exactly these states: steps left, nothing ready, no live finite timer, not stopping, not a stop step |
| `LoopProperties.HooksRound` | src/seedloop/_loop.py:191-209 | In a round of hooks every hook speaks; the error raised is the first hard one and its notes are all other errors in order |
| `Checks.EndStepJudged` | src/seedloop/_loop.py:191-209 | The end of a step, without naming the checks' code: each listed check in turn asks its predicates (all `always` predicates in order up to the first that does not hold, or the one predicate of an unanswered `run_until`), which say what their answers mean: a failed check is an error with that predicate's name, a raising `always` predicate its error, a raising `run_until` predicate a note only, an interrupt ends the round. The result is what that calls for, with every other error noted in order, and the step's record holds the predicates that answered that they hold |
| `Checks.StepJudged` | src/seedloop/_loop.py:163-209 | Why a step raises: its budget is spent, nothing can happen any more, an interrupt escaped a callback, or its checks call for it; and for nothing else |
| `Checks.ListedOnce` | src/seedloop/_world.py:84-101 | Over any run the invariants check is listed at most once, however many predicates are registered, so a round asks each once |
| `VirtualTime.ExactVirtualTime` | src/seedloop/_loop.py:143-178 | Over any run of any program: the clock never decreases or passes a live timer, every fired timer fired at exactly its moment, and in order |
| `StopProtocol.StopSteps` | src/seedloop/_loop.py:95-128 | When `run_until_done` returns with its future done: settle ran exactly once, two steps followed the finishing step (one if `stop` had been called by its end), the clock stood still, the watch state is clear; for every placement of `stop` calls |
| `StopProtocol.LastSteps` | src/seedloop/_loop.py:210-220 | The countdown from 2 or from 1: how many steps, when settle runs, no clock movement |
| `StopProtocol.NoDeadlockOnceDone` | src/seedloop/_loop.py:173-183 | No stop step can report a deadlock |
| `StopProtocol.DeadlockOnlyBefore` | src/seedloop/_loop.py:95-128 | A deadlock reported by `run_until_done` is from before the finishing step |
| `Coverage.InvariantCoverage` | src/seedloop/_world.py:84-109 | If a run ends normally every predicate registered before the checks were cleared held at the end of every step from its registration through the first stop step (through the finishing step if user code stopped the loop there) |
| `Coverage.StepCovers` | src/seedloop/_loop.py:191-218 | One normal step checks every registered predicate, and the check hook stays installed up to the settle |
| `FreshWorld.NewHolds` | src/seedloop/_world.py:275-276 | A new world with its scenario launched, under any step limit, meets every hypothesis of the theorems about runs |
| `FreshWorld.FreshRunUntil` | src/seedloop/_world.py:176-284 | `run_until` over the run phase of any drive of a new world |
| `FreshWorld.FreshDrive` | src/seedloop/_world.py:275-336 | Exact virtual time and the `run_until` answers over the whole of any drive of a new world, with every callback accounted for and no timer of a finished call left |
| `LoopMoves.StepMoves` | src/seedloop/_loop.py:163-220 | Whatever a step of the loop does to its agenda, for any program and however it ends, is a list of the network machine's moves |
| `LoopMoves.RunMoves` | src/seedloop/_loop.py:163-220 | And so is any run of it |
| `FreshWorld.FreshRun` | src/seedloop/_world.py:275-284 | The stop protocol, invariant coverage and the deadlock statement for the run phase of any drive of a new world |
| `RunUntilRuns.RunUntilExact` | src/seedloop/_world.py:176-242 | Over any run, after any number of steps, with nothing of an earlier call left behind: each call is answered by its first deciding check, on entry or at a step's end, the predicate winning ties, and a deadline d >= 0 of a call at T times out with the clock at exactly T + d; a call still active and unanswered, the checks not cleared since, has its check installed, has been looked at on entry and exactly once at the end of each step completed since, at that step's clock, and the clock is before T + d |
| `RunUntilRuns.RunUntilExactToTheEnd` | src/seedloop/_world.py:176-242 | The same through both passes of `run_until_done`, whatever clears the checks in between |
| `RunUntilRuns.PerformAttended` | src/seedloop/_world.py:191-242 | No operation of user code can take the check of a call in force away |
| `RunUntilRuns.EndStepAttended` | src/seedloop/_loop.py:191-220 | A step that ends normally looks at the call in force once and at no other; clearing the checks leaves no call in force |
| `RunUntil.EveryPassLooks` | src/seedloop/_world.py:199-230 | One pass over the hooks looks once at the last call if it is unanswered and its check is in the list, and touches no other call |
| `RunUntil.RunUntilRecords` | src/seedloop/_world.py:176-242 | The answers alone, also when a run is cut short by an error |
| `RunUntil.CheckUntilRecords` | src/seedloop/_world.py:199-221 | One more check: answered exactly if it decides, other calls untouched |
| `RunUntil.ExitLeavesNothing` | src/seedloop/_world.py:231-242 | Every exit leaves no `run_until` hook installed, the active flag cleared, and the call's own timer cancelled and gone from the agenda |
| `RunUntilExits.OverLeavesNoTimer` | src/seedloop/_world.py:231-242 | After any run of any program, however it ended: no cancelled handle has a timer, and the timer of every call that is over is cancelled, so there is none the clock could jump to |
| `RunUntilRuns.AnswerWakes` | src/seedloop/_world.py:199-230 | A call that is answered at a step's end leaves exactly one new entry on the ready queue, the task that waits for it; with no answer the queue is as the callbacks left it |
| `Teardown.BudgetBounds` | src/seedloop/_loop.py:167-171 | A run with a step budget takes at most that many steps, whatever the program does |
| `Budgets.RunIsBudgeted` | src/seedloop/_loop.py:90-93 | The run phase of any drive takes at most `max_steps` steps and ends if it is given that many; it raises `LivelockError` only with all of them taken, and then nothing else; without a limit it never does |
| `Teardown.TeardownBounds` | src/seedloop/_world.py:338-386 | At most 100 rounds, each of which cancels something and stays within its own 100000 steps and 100 more a task, with no step outside the rounds, against tasks that swallow cancellation, spawn or stop the loop; and a normal return means no pending task |
| `Teardown.ReturnsExactlyWhen` | src/seedloop/_world.py:346-349 | Teardown returns normally if and only if nothing is pending before some round, the hundredth being the last looked at |
| `Teardown.HundredRoundsFail` | src/seedloop/_world.py:360-365 | A hundred rounds that all end well are reported as a failure whether or not anything is pending |
| `Teardown.FailsWithNothingPending` | src/seedloop/_world.py:346-365 | A concrete program: a hundred tasks each starting the next leave nothing pending, and teardown fails all the same |
| `Teardown.PendingIsUndone` | src/seedloop/_world.py:347-350 | The pending tasks are exactly those not done |
| `TeardownRounds.TeardownIs` | src/seedloop/_world.py:338-374 | What teardown is, as a relation on the states between its rounds: each round cancels all unfinished tasks once in creation order, which queues one callback for each that waited and changes nothing else but the round's allowance; then passes of the loop follow until the round's future is done or a pass raises; it ends with nothing unfinished, with the error of the pass or the outcome of the future, or after the hundredth round with `TeardownError` |
| `TeardownRounds.GroupPasses` | src/seedloop/_world.py:367-374 | A round is passes that user code stopped, followed by one that raised or left the future done, and what that raises is the pass's error or the future's own |
| `TeardownChecks.TeardownRegistersNothing` | src/seedloop/_world.py:84-92 | Whatever user code does while it is cancelled, teardown ends with the predicates it began with, and with their check listed only if it was |
| `Drive.KeptMeans` | src/seedloop/_world.py:277-336 | What is kept of the phases' failures is the last interrupt if there was one, otherwise the first failure, and nothing only if no phase failed |
| `Drive.NothingLost` | src/seedloop/_world.py:314-329 | Each phase's failure is the one kept or is noted on another of them |
| `Drive.SettleBounds` | src/seedloop/_world.py:292-299 | Settling the scenario takes at most its 100000 steps and ends with it done or with an error |
| `Drive.DriveEnds` | src/seedloop/_world.py:288-336 | After the run phase a drive takes at most 100000 steps to settle and then only those of at most 100 teardown rounds that begin from the settled state, each within its own allowance; with no failure nothing is left pending |
| `DriveReports.DriveReports` | src/seedloop/_world.py:277-336 | Every drive reports, in this order and nothing else: the failure of its run phase and what settling it adds; or else the scenario's own error, or that of the node started first among those that failed, and none only if neither failed; and then what teardown adds. Teardown begins with the checks cleared if anything failed, otherwise with the run as it was |
| `DriveReports.UnfinishedIsSettled` | src/seedloop/_world.py:284-299 | An unfinished scenario is cancelled, which queues it if it waited, with its own allowance and no checks, and is run until it is done or a pass raises |
| `DriveReports.SettlesPassByPass` | src/seedloop/_world.py:292-299 | Settling is one pass of `run_until_done` after another, however often user code stops the loop, and ends with the scenario done or with the error of the pass that raised |
| `DriveReports.FinishedTakesOneStep` | src/seedloop/_world.py:304-308 | A check that failed after the scenario was done: one more step runs with the clock still, or the attempt raises |
| `DriveReports.UnwindingIsNoted` | src/seedloop/_world.py:300-303 | The error the cancelled scenario ends with is a note on the failure that ended the run, unless it is that failure, an interrupt cut settling short, or the failure takes no notes; in every other drive the notes are those of the failures alone |
| `WorldDrive.CancelEverythingPending` | src/seedloop/_world.py:338-365 | The loop over rounds is `CancelEverything`, the function the bounds are about |
| `WorldDrive.RunUntilDoneOrError` | src/seedloop/_world.py:367-374 | A user `stop` ends one pass, not the round |
| `WorldDrive.SettleScenario` | src/seedloop/_world.py:292-299 | The settling loop is `SettleMain` |
| `WorldDrive.DriveWorld` | src/seedloop/_world.py:262-336 | `_drive`: refused before anything happens, or: the failure raised is the kept one of all phases and every note is there, for every combination of outcomes (that the loop is closed is one assignment at the end) |
| `DriveRuns.DriveExact` | src/seedloop/_world.py:275-336 | Over a whole drive, settling and teardown included and whatever fails: every timer fired at exactly its moment and in order, none live was passed, every `run_until` was answered by its first deciding check, on time; and no callback was lost or repeated and no timer of a finished call is left |
| `WorldDrive.Weigh` | src/seedloop/_world.py:417-429 | An error met with a failure in flight becomes a note on it; an interrupt replaces it and notes what it replaced |
| `NetRuns.RunInv` | src/seedloop/_net.py:242-454 | The invariant tying timers, records, fault registries, timeline and queues holds after every run |
| `NetRuns.ApplyInv` | src/seedloop/_net.py:242-454 | Every single move of the loop or of user code keeps it |
| `ReliableLinks.ReliableInOrder` | src/seedloop/_net.py:383-454 | Messages from a reliable sender reach the receive queue in strictly increasing send order, so never twice, in every run and for every latency stream: link clock, timer heap and queue together |
| `ReliableLinks.RecvInOrder` | src/seedloop/_net.py:438-454 | The same of what `recv` has returned |
| `ReliableLinks.ReceivedWasSent` | src/seedloop/_net.py:393-411 | Whatever is received was sent to that address by that sender with that content |
| `NetBook.ReliableDueOrder` | src/seedloop/_net.py:383-391 | On a reliable link due times never go backwards |
| `Conservation.MessagesConserved` | src/seedloop/_net.py:349-411 | For any choice of messages, in every reachable state: sends + duplicates = drops + deliveries + crash drops + partition drops + copies pending |
| `Conservation.ReliableMessageOnce` | src/seedloop/_net.py:349-411 | Each message sent on a reliable link is counted in exactly one place: pending, on the timeline as delivered, as dropped for a crash, or as dropped for a partition; never lost at the sender or doubled |
| `NetOutcomes.EveryVerdictDecided` | src/seedloop/_net.py:393-411 | Every delivery, crash drop and partition drop on the timeline was recorded by one taking move, with what precedes the event as the timeline just before the move and the event as its end just after: it is a crash drop if and only if an end was crashed just before that move, a delivery if and only if none was and the pair was reachable, a partition drop if and only if none was and it was not |
| `NetOutcomes.VerdictsExactly` | src/seedloop/_net.py:331-411 | The same in words of the scenario and the timeline, at the very move that recorded the verdict: the pair was cut if and only if the last `partition` call made before that move and not undone by `heal` cut it, or a partition window begun and not ended by then did |
| `NetOutcomes.RecordedOnce` | src/seedloop/_net.py:331-411 | No two moves record the same event, so the move that decided a verdict is one definite moment of the run |
| `NetOutcomes.PartitionIsScenarios` | src/seedloop/_net.py:98-109 | The scenario's partition is the last `partition` call that no `heal` undid |
| `NetOutcomes.OnlyCutsRemove` | src/seedloop/_net.py:383-411 | Only a crash or a partition removes a message from a reliable link: it is pending, delivered, or was dropped at an event recorded by a move before which an end had crashed or a partition in force separated the pair |
| `NetOutcomes.ReliableMessageLost` | src/seedloop/_net.py:383-407 | A concrete run, for every seed: a message of a reliable endpoint sent across a partition is dropped at delivery, neither pending nor delivered |
| `Conservation.DatagramAtMostTwice` | src/seedloop/_net.py:362-371 | A datagram has no copy if it was dropped, otherwise one, or two if it was doubled |
| `SendRules.SendFate` | src/seedloop/_net.py:349-371 | For every send of every run, for good: it is recorded as dropped if and only if the sender is not reliable, can lose messages and the next draw of "faults" is below its loss; as doubled if and only if not dropped and the draw after is below its duplicate probability; it has an original copy if and only if not dropped and a second one if and only if doubled; and each falls due by its own draw, between one and twenty milliseconds times the link's factor |
| `SendRules.BindMakes` | src/seedloop/_net.py:74-96 | A `bind` of a bound address or with something that is not a probability changes nothing at all; any other makes an empty endpoint with the settings asked for and touches no other |
| `SendRules.BoundOnce` | src/seedloop/_net.py:74-96 | After any run every endpoint has the settings of the one `bind` call that made it |
| `Conservation.QueuesConserved` | src/seedloop/_net.py:408-454 | For a bound address: enqueued = returned followed by queued, and exactly the deliveries since binding, in order |
| `Conservation.LeavingTakesNothing` | src/seedloop/_net.py:443-449 | A waiting `recv` that is cancelled takes nothing and frees its slot |
| `Wakeups.NoLostWakeup` | src/seedloop/_net.py:438-454 | In every reachable state a receiver that waits has nothing queued: whatever arrived has woken it |
| `Wakeups.DeliveredIsReturned` | src/seedloop/_net.py:393-454 | A message delivered to an address whose `recv` waits is what that `recv` returns when it resumes |
| `Wakeups.QueueMoves` | src/seedloop/_net.py:438-454 | A receiver takes the head of the queue at once, when it calls `recv` with something queued and when it resumes; nothing else takes anything, only an arrival puts anything in, and a second `recv` beside a waiting one changes nothing |
| `Streams.EntropyIndependence` | src/seedloop/_net.py:349-391 | Two runs with any loss, duplication, fault lists and "faults" streams: for the same sends under the same slow links the original copy of message n, never its duplicate, falls due by "net" draw n (and on a reliable link not before what was due earlier there), at the same moment in both |
| `Streams.OneNetDrawPerSend` | src/seedloop/_net.py:349-358 | The "net" cursor is the number of sends |
| `Streams.FactorIsTheTimelines` | src/seedloop/_net.py:373-381 | A send is made under exactly the slow-link windows the timeline shows open at that point, each once |
| `SlowLinks.FactorOfALink` | src/seedloop/_net.py:373-381 | After any run the factor of a link is the product of the factors of exactly the slow-link windows that the timeline shows open on that pair |
| `Streams.FaultDrawsOfASend` | src/seedloop/_net.py:359-371 | Exactly how many "faults" draws a send takes: none from a reliable or zero-probability endpoint |
| `Streams.NothingElseSpendsFaults` | src/seedloop/_net.py:225-411 | Only sends and accepted `run_for` calls move either cursor |
| `Streams.FaultsUntouched` | src/seedloop/_net.py:359-371 | With reliable or zero-probability endpoints and no faults asked for, "faults" is never read in any run |
| `NetSends.LatencyAtLeast` | src/seedloop/_net.py:358-381 | A slow link never speeds a message up: every latency is at least the shortest |
| `NetRuns.FaultStateIsTimeline` | src/seedloop/_net.py:311-329 | Open partitions and slow links are exactly the windows begun and not ended, with what was scheduled; crashed nodes exactly those of past crash events |
| `NetRuns.ReachableExactly` | src/seedloop/_net.py:331-347 | A pair is reachable if and only if neither the scenario's partition nor any open fault partition cuts it |
| `NetRuns.CutMeans` | src/seedloop/_net.py:340-347 | Groups cut a pair if and only if both addresses are listed and the first group of one is not that of the other: an address in no group reaches everyone, and a cut goes both ways |
| `NetRuns.HealLeavesFaultCuts` | src/seedloop/_net.py:107-109 | After `heal` exactly the open fault partitions still cut |
| `NetRuns.DeliveriesCrossNothing` | src/seedloop/_net.py:393-411 | Every `deliver` is of a copy falling due then, touches no crashed node and crosses no fault partition open at that point of the timeline |
| `NetRuns.WindowsOnceOnTime` | src/seedloop/_net.py:255-329 | Each fault begins once at its scheduled moment and each window ends once at its own, after it began: a closed window never reopens |
| `NetRuns.WindowsInsideTheirCall` | src/seedloop/_net.py:255-309 | Every window lies within the `run_for` that scheduled it, and a slow link's factor is above 1 |
| `NetRuns.ClosedWhenItReturns` | src/seedloop/_world.py:122-128 | Once a `run_for` of positive length is woken, none of its windows is open and all its crashes have happened |
| `NetRuns.NoLengthNoTimer` | src/seedloop/_world.py:128 | A `run_for` sleeps on a timer if and only if its length is positive |
| `NetRunFor.RunForAllOrNothing` | src/seedloop/_world.py:122-128 | A bad length or one invalid fault leaves the whole network unchanged; otherwise every fault is committed in list order as asked, in this call's window |
| `NetRefusals.FaultRefusedExactly` | src/seedloop/_net.py:111-223 | None of the ordered checks of `_validate_fault` fails if and only if the fault is valid as stated without any order |
| `NetRefusals.GroupsMean` | src/seedloop/_net.py:198-223 | Groups are valid if and only if each is a set of addresses and no two of them share one |
| `NetRefusals.RaisedExactly` | src/seedloop/_world.py:119-128 | A call is refused if and only if it is not accepted, and for one reason only: a bad length, or the first failing check of the first fault in the list that has one |
| `NetCommits.CommitHonours` | src/seedloop/_net.py:225-309 | What the caller pinned is kept; a drawn slow link has two different ends, a drawn split is two non-empty disjoint sides that cover the bound addresses |
| `NetCommits.DrawsOfACommit` | src/seedloop/_net.py:225-309 | Exactly how many "faults" draws a fault takes: one for each thing left open, two for a window, and for a split left to the seed one an address for each attempt |
| `FaultDraws.RunForDrawn` | src/seedloop/_net.py:225-309 | Everything an accepted `run_for` schedules, as a function of its draws, fault by fault in list order with none in between: which sorted address each open end or node is, who is on which side of a split and that every earlier attempt put all on one side, the factor, the offset of a crash, both moments of every window, each with its timeline entry; and one wake-up after exactly its length |
| `NetCommits.SplitDraws` | src/seedloop/_net.py:245-253 | The split taken is the first attempt that leaves neither side empty |
| `NetCommits.SplitIsGenuine` | src/seedloop/_net.py:245-253 | A drawn split is genuine for every seed that splits at all |
| `NetCommits.EndsHonoured` | src/seedloop/_net.py:270-284 | The two ends differ, pinned or bound, in all four cases |
| `NetTakes.TakeInvKept` | src/seedloop/_net.py:311-411 | Running the next ready entry keeps the invariant: every event it records is true of the timeline before it |
| `NetTakes.NotOpenedYet` | src/seedloop/_net.py:311-313 | When a window's first timer runs it has neither begun nor ended |
| `NetTakes.OpenedAlready` | src/seedloop/_net.py:315-317 | When its last timer runs it is open |
| `Transports.Transport.Bind` | src/seedloop/_net.py:74-96 | A bound, fresh endpoint, or a refusal that changes nothing, exactly by the three checks |
| `Transports.Transport.Partition` | src/seedloop/_net.py:98-105 | The network's `partition` move: the scenario's groups are replaced, and a pair can reach each other exactly if neither the new groups nor an open fault window cuts it |
| `Transports.Transport.Heal` | src/seedloop/_net.py:107-109 | The network's `heal` move: the scenario's groups are gone, and a pair can reach each other exactly if no open fault window cuts it |
| `Transports.Transport.SendFrom` | src/seedloop/_net.py:349-371 | `_send` on the objects is the model's `Send`: one "net" draw before any fault decision |
| `Transports.Transport.SlowFactorOf` | src/seedloop/_net.py:373-381 | The loop computes the product over the open slow links of the pair |
| `Transports.Transport.ScheduleReliable` | src/seedloop/_net.py:383-391 | The link clock and the timer of a reliable message |
| `Transports.Transport.DeliverNow` | src/seedloop/_net.py:393-411 | Crash check, then reachability, then the queue of the destination if it is bound |
| `Transports.Transport.BeginFaultPartition` | src/seedloop/_net.py:311-313 | The window is open and on the timeline |
| `Transports.Transport.EndFaultPartition` | src/seedloop/_net.py:315-317 | The window is closed and on the timeline, other windows untouched |
| `Transports.Transport.BeginSlowLink` | src/seedloop/_net.py:319-321 | The slow link is open and on the timeline |
| `Transports.Transport.EndSlowLink` | src/seedloop/_net.py:323-325 | The slow link is closed and on the timeline, others untouched |
| `Transports.Transport.BeginCrashOf` | src/seedloop/_net.py:327-329 | The node is crashed for good and on the timeline |
| `Transports.Transport.ValidateGroups` | src/seedloop/_net.py:198-223 | The first check that fails, group by group; none exactly for groups of addresses only, none in two groups |
| `Transports.Transport.ValidateFault` | src/seedloop/_net.py:111-196 | The first check that fails in the order of `_validate_fault`, none exactly for a valid fault; nothing is drawn or written |
| `Transports.Transport.ValidateList` | src/seedloop/_world.py:124-125 | The refusal of the first invalid fault in the list, or all are valid |
| `Transports.Transport.RunFor` | src/seedloop/_world.py:119-128 | Two passes: every fault is checked before any is committed, and the error is that of the first check that fails in the first |
| `Transports.Transport.DrawBipartition` | src/seedloop/_net.py:245-253 | The redraw loop ends at the first attempt that leaves neither side empty, having used exactly those draws |
| `Transports.Transport.CommitPartitionFault` | src/seedloop/_net.py:255-268 | Groups, window, id, timeline entry and both timers of a partition |
| `Transports.Transport.CommitSlowLinkFault` | src/seedloop/_net.py:270-299 | Ends, factor, window, id, timeline entry and both timers of a slow link |
| `Transports.Transport.CommitCrashFault` | src/seedloop/_net.py:301-309 | Moment, node, id, timeline entry and timer of a crash |
| `Transports.Port.StartRecv` | src/seedloop/_net.py:438-449 | `recv` to its first suspension; a second concurrent one is refused and changes nothing |
| `Transports.Port.ResumeRecv` | src/seedloop/_net.py:443-449 | A woken receiver takes the head of the queue or waits again |
| `Transports.Port.LeaveRecv` | src/seedloop/_net.py:445-448 | A cancelled receiver only clears its waiter |
| `Transports.Port.Enqueue` | src/seedloop/_net.py:451-454 | The item joins the queue and a pending waiter is woken |
| `PatchStack.FreeMeansRestored` | src/seedloop/_entropy.py:31-96 | Any interleaving of threads, nesting and interrupts: whenever the lock is free each name holds its value from before, or what other code put there since, unless its own restore was interrupted |
| `PatchStack.RunInv` | src/seedloop/_entropy.py:31-96 | The invariant on the undo stack: each original is the value from before, a replacement, or a wrapper below it that is still to be restored |
| `PatchStack.StepInv` | src/seedloop/_entropy.py:31-96 | Every atomic step keeps it, also a replacement between a restore's check and its write |
| `PatchCalls.NothingStaysPatched` | src/seedloop/_entropy.py:78-96 | If no restore is interrupted and nobody puts a wrapper back, no name holds a wrapper whenever the lock is free |
| `PatchCalls.InterruptedRestoreStays` | src/seedloop/_entropy.py:47-53 | A concrete run: a restore interrupted before its effect leaves its own name patched |
| `PatchCalls.PutBackStays` | src/seedloop/_entropy.py:47-53 | A concrete run: other code that puts back the wrapper it saw leaves the name patched |
| `PatchCalls.ReplacementKept` | src/seedloop/_entropy.py:47-53 | A replacement in place stays: no restore, interrupt or exit undoes it |
| `PatchCalls.OtherThreadsPassThrough` | src/seedloop/_audit.py:105-138 | While a session runs, through any nesting, another thread's call comes to what it would without the session |
| `PatchCalls.OtherThreadsReachRealFunctions` | src/seedloop/_audit.py:105-138 | ... and in a process where nothing went wrong that is a real function: the one from before or a replacement |
| `PatchCalls.OwnerIsCaught` | src/seedloop/_audit.py:105-138 | On the session's thread an installed wrapper does exactly what its kind says: seeded bytes, a leak error, a refused thread, or a leak for a clock call without a timestamp |
| `PatchCalls.TimestampPassesThrough` | src/seedloop/_audit.py:116-126 | A call with a timestamp passes through any stack of clock tripwires |
| `Sessions.AuditGuards` | src/seedloop/_audit.py:105-175 | From any state of the process, entering audit mode undisturbed makes each surface do on the session's thread what its kind is for (a clock call that gives a timestamp goes through), and changes what no other call, by any thread through any name, comes to |
| `Sessions.ShimSeeds` | src/seedloop/_entropy.py:68-103 | The same for the seeded shim: its two names give seeded bytes on the session's thread, and no other call changes |
| `Sessions.SessionsUndone` | src/seedloop/_entropy.py:31-96 | From any state, nested or not: an audited and a seeded session that nothing disturbs each leave every name, the lock and every surrounding context exactly as they found them |
| `Sessions.LeavingUndoes` | src/seedloop/_entropy.py:89-96 | Leaving an open context by its own steps is what does it: the restores in reverse order, then the lock |
| `PatchProcess.Process.RestoreIfOurs` | src/seedloop/_entropy.py:47-53 | The original comes back only where ours is still in place; every other name is untouched |
| `PatchProcess.Process.InstallWrapper` | src/seedloop/_entropy.py:43-44 | The name holds the wrapper, every other name what it held |
| `PatchProcess.Process.EnterShim` | src/seedloop/_entropy.py:68-96 | Both originals read, both restores registered, then both installed, under the lock |
| `PatchProcess.Process.EnterAudit` | src/seedloop/_audit.py:155-175 | Each present surface in turn: read, restore registered, installed; names the process lacks are skipped |
| `PatchProcess.Process.Leave` | src/seedloop/_entropy.py:89-96 | Every restore runs, last first, each only where ours is in place: what the names hold then and the steps taken, exactly; if that frees the lock every name is back or replaced |
| `Baseline.ParseBaseline` | scripts/mutation_sweep.py:352-361 | The loop over lines computes `Parse` |
| `Baseline.SortOrdered` | scripts/mutation_sweep.py:374-376 | `sorted` is a permutation in code point order |
| `Baseline.SortedMeans` | scripts/mutation_sweep.py:374-376 | Of two different survivors the one printed first has the smaller code point where they first differ, or ends there |
| `BaselineRoundTrip.FileReads` | scripts/mutation_sweep.py:364-377 | What the printed file is, line by line, for one-line keys and reasons: the header, then each survivor as often as it occurs in sorted order with its reason or the TODO; every line is ended |
| `BaselineRoundTrip.RoundTrip` | scripts/mutation_sweep.py:352-377 | Every survivor comes back with its reason, or the TODO if it had none, if and only if every key is a trimmed non-empty line without leading `#`, without separator and not ending in `  #`, and every reason a trimmed line; and then nothing else comes back |
| `BaselineRoundTrip.RoundTripOfKeys` | scripts/mutation_sweep.py:352-377 | For trimmed one-line reasons the condition is on the keys alone |
| `BaselineRoundTrip.PrintedLine` | scripts/mutation_sweep.py:359-375 | What one printed line parses to: itself, or, for a key that ends in `  #`, something shorter |
| `BaselineRoundTrip.OnlyPlainComesBack` | scripts/mutation_sweep.py:355-360 | Whatever the text, no key or reason comes out of the parser that is untrimmed, multi-line, comment-like or holds a separator |
| `MutationShards.VerdictMeans` | scripts/mutation_sweep.py:380-387 | Each of the three lists is in order, without repetition, and holds exactly the keys its name says |
| `MutationShards.ShardsPartition` | scripts/mutation_sweep.py:390-393 | Together the shards hold every mutant exactly as often as it occurs |
| `MutationShards.InOneShard` | scripts/mutation_sweep.py:390-393 | With unique keys each mutant is in exactly one shard |
| `MutationShards.ShardIsRank` | scripts/mutation_sweep.py:390-393 | With unique keys a mutant's shard is given by how many keys are smaller, round robin from the first shard |
| `MutationShards.ShardsAddUp` | scripts/mutation_sweep.py:380-387 | The union of the shards' new and gone lists is the unsharded list, and every shard reports the same stale keys |
| `MutationShards.SameVerdict` | scripts/mutation_sweep.py:439-457 | The gate passes unsharded if and only if every shard passes |
| `MutationShards.DuplicateKeysDisagree` | scripts/mutation_sweep.py:242-244 | Without unique keys, which the script checks for, it fails: two mutants with one key |

## Left out

- asyncio's own tasks, futures and coroutines: a task is its future and the callbacks that run for it; `gather` and `run_until_complete` in teardown are a future that adversary code completes at any time, also before its tasks are done.
- `run_forever` that never stops: runs are watched for an arbitrary number of steps, and a run still going then says so; every statement is for all such numbers.
- The heap array of `heapq`: the timer heap is the sequence its pops would produce.
- The boundary methods that only raise, `describe_tasks`, error texts and pickling.
- `substream`, `hash_seed_for` and `ensure_hash_seed`: hashing and process control.
- Floating-point rounding: arithmetic on times, latencies and factors is exact.
- Termination of the redraw loop for a split on every seed: seeds on which it never ends are excluded (`EventuallySplits`, which `Streams.SomeSeedSplits` shows some seed satisfies).
- A program in which network callbacks and user callbacks run on one agenda: the two machines meet at the agenda (`LoopMoves.StepMoves`), where every callback of the loop is user code's; the network's own callbacks are moves of the network machine.
- Values of a fault that are not numbers where a number is expected, and a `groups` that is falsy but not a sequence.
- Messages' payloads: a message is an opaque number, kept unchanged from `send` to `recv`.
- `_note` on an exception that cannot take notes: such an exception keeps its place and its note is dropped; `WorldDrive.DriveWorld` takes which ones those are as a parameter.
- `ExitStack` and the re-entrant lock: an `ExitStack` runs every registered restore even if one is interrupted, and only the lock's owner takes steps. An interrupt inside either is not modelled.
- The order of dictionary entries in `_fault_slow_links`: a product does not depend on it.
- The wording of the baseline's header (any comment lines) and the sweep that finds the survivors: mutation, subprocesses, timeouts.
- `check`, `replay`, `Timeline`, the Hypothesis integration, `proctree.py`, the pin scripts, `release_guard.py`, `check_coverage.py`: thin, or I/O.
- Raft liveness and heartbeat timing: a node may time out at any moment, and nothing is claimed about when a leader emerges.
