/** The rounds of cancellation that end a run (`World._cancel_everything`), against tasks that swallow
    cancellation, start more tasks, or stop the loop. */
module Teardown {
  import opened Common
  import opened Agendas
  import opened LoopModel
  import opened LoopProperties

  const TEARDOWN_STEPS := 100_000
  const STEPS_PER_TASK := 100
  const ROUNDS := 100

  /** Does cancelling task t in round r put a callback on the ready queue? A task that waits is woken;
      one that is already scheduled is not scheduled again. */
  type Wakes = (nat, nat) -> bool

  predicate IsInterrupt(e: Error) {
    e.Interrupt? || e.CancelledError?
  }

  /** The tasks not done yet, in creation order. */
  function PendingFrom(s: RunState, n: nat): seq<nat>
    requires n <= s.nextTask
    decreases s.nextTask - n
  {
    if n == s.nextTask then []
    else (if Task(n) in s.results then [] else [n]) + PendingFrom(s, n + 1)
  }

  function Pending(s: RunState): seq<nat> { PendingFrom(s, 0) }

  function CancelAll(s: RunState, wakes: Wakes, round: nat, tasks: seq<nat>): (t: RunState)
    ensures t == s.(agenda := s.agenda.(ready := t.agenda.ready), nextHandle := t.nextHandle)
    decreases |tasks|
  {
    if tasks == [] then s
    else CancelAll(if wakes(round, tasks[0]) then DoCallSoon(s) else s, wakes, round, tasks[1..])
  }

  function Allowance(tasks: nat): nat {
    TEARDOWN_STEPS + STEPS_PER_TASK * tasks
  }

  function Limited(s: RunState, tasks: nat): RunState {
    s.(stepsLeft := Some(Allowance(tasks)), stepError := TeardownFailed)
  }

  /** What `future.result()` raises. */
  function ResultError(outcome: Outcome): Option<Error> {
    match outcome
    case Finished => None
    case Failed(e) => Some(e)
    case Cancelled => Some(CancelledError)
  }

  // ---- a budget bounds a run ---------------------------------------------------------------------------

  lemma EndStepBudget(s: RunState, script: Script)
    ensures var (t, r) := EndStep(s, script);
            t.stepsLeft == s.stepsLeft && t.stepError == s.stepError && t.nextTask == s.nextTask &&
            (if r.Normal? then |t.log| == |s.log| + 1 else t.log == s.log)
  {
    hide RunHooks;
  }

  /** Tasks are only ever added. */
  lemma PerformTasks(s: RunState, script: Script, op: Op)
    ensures s.nextTask <= Perform(s, script, op).nextTask
  {
    hide EnterUntil, EndUntil, CheckUntil, Answered, Internal, Insert, Without;
  }

  lemma {:induction false} PerformAllTasks(s: RunState, script: Script, ops: seq<Op>)
    ensures s.nextTask <= PerformAll(s, script, ops).nextTask
    decreases |ops|
  {
    hide Perform;
    if ops != [] {
      PerformTasks(s, script, ops[0]);
      PerformAllTasks(Perform(s, script, ops[0]), script, ops[1..]);
    }
  }

  lemma {:induction false} RunBatchTasks(s: RunState, script: Script, n: nat)
    ensures s.nextTask <= RunBatch(s, script, n).0.nextTask
    decreases n
  {
    hide PerformAll, Take;
    if n > 0 && s.agenda.ready != [] {
      PerformAllTasks(s.(agenda := Take(s.agenda, true), turn := s.turn + 1), script, script.turns(s.turn).ops);
      RunBatchTasks(RunEntry(s, script).0, script, n - 1);
    }
  }

  /** A step is paid for before anything else happens. */
  lemma StepBudget(s: RunState, script: Script)
    requires s.stepsLeft.Some?
    ensures var (t, r) := Step(s, script);
            && t.stepsLeft.Some? && t.stepsLeft.value <= s.stepsLeft.value && t.stepError == s.stepError && s.nextTask <= t.nextTask
            && (r.Normal? ==> t.stepsLeft.value == s.stepsLeft.value - 1 && |t.log| == |s.log| + 1)
            && (r.Raised? ==> t.log == s.log)
            && (s.stepsLeft.value == 0 ==> r == Raised(s.stepError, []))
  {
    hide Advance, RunBatch, EndStep;
    if s.stepsLeft != Some(0) {
      var a := Advance(Budgeted(s)).0;
      RunBatchKeeps(a, script, |a.agenda.ready|);
      RunBatchTasks(a, script, |a.agenda.ready|);
      EndStepBudget(RunBatch(a, script, |a.agenda.ready|).0, script);
    }
  }

  /** A run with a budget ends within it, whatever the program does; returning takes at least a step. */
  lemma {:induction false} BudgetBounds(s: RunState, script: Script, fuel: nat)
    requires s.stepsLeft.Some?
    ensures var (t, end) := RunForever(s, script, fuel);
            && t.stepsLeft.Some? && t.stepsLeft.value <= s.stepsLeft.value && t.stepError == s.stepError && s.nextTask <= t.nextTask
            && |s.log| <= |t.log| && |t.log| + t.stepsLeft.value <= |s.log| + s.stepsLeft.value
            && (end.Returned? ==> t.stepsLeft.value < s.stepsLeft.value)
            && (fuel > s.stepsLeft.value ==> !end.StillRunning?)
    decreases fuel
  {
    hide Step;
    if fuel > 0 {
      StepBudget(s, script);
      var (t, r) := Step(s, script);
      if r.Normal? && !t.stopping {
        BudgetBounds(t, script, fuel - 1);
      }
    }
  }

  // ---- rounds ---------------------------------------------------------------------------------------------

  /** `_run_until`: passes of the loop until the future is done; a pass that user code stopped early is
      followed by another one. */
  function RunGroup(s: RunState, script: Script, f: Future): (RunState, Option<Error>)
    requires s.stepsLeft.Some?
    decreases s.stepsLeft.value
  {
    if f in s.results then (s, None)
    else
      BudgetBounds(s, script, s.stepsLeft.value + 1);
      var (t, end) := RunForever(s, script, s.stepsLeft.value + 1);
      if end.Threw? then (t, Some(end.e))
      else if f in t.results then (t, ResultError(t.results[f]))
      else RunGroup(t, script, f)
  }

  /** What a round that began with these tasks pending starts from. */
  function RoundStart(s: RunState, wakes: Wakes, round: nat): (t: RunState)
    ensures t.stepsLeft == Some(Allowance(|Pending(s)|)) && t.stepError == TeardownFailed
  {
    Limited(CancelAll(s, wakes, round, Pending(s)), |Pending(s)|)
  }

  /** `_cancel_everything` from round `round` on. */
  function CancelEverything(s: RunState, script: Script, wakes: Wakes, round: nat): (RunState, Option<Error>)
    decreases ROUNDS - round
  {
    if round >= ROUNDS then (s, Some(TeardownFailed))
    else if Pending(s) == [] then (s, None)
    else
      var (t, e) := RunGroup(RoundStart(s, wakes, round), script, Group(round));
      if e.Some? then (t, e) else CancelEverything(t, script, wakes, round + 1)
  }

  /** One round: how many tasks it had to cancel and how many steps it took. */
  datatype Round = Round(tasks: nat, steps: int)

  /** The rounds that are run, in order. */
  ghost function Rounds(s: RunState, script: Script, wakes: Wakes, round: nat): seq<Round>
    decreases ROUNDS - round
  {
    if round >= ROUNDS || Pending(s) == [] then []
    else
      var (t, e) := RunGroup(RoundStart(s, wakes, round), script, Group(round));
      [Round(|Pending(s)|, |t.log| - |s.log|)] + (if e.Some? then [] else Rounds(t, script, wakes, round + 1))
  }

  /** Each round cancelled something and stayed within its own allowance. */
  ghost predicate AllWithin(rounds: seq<Round>) {
    forall i :: 0 <= i < |rounds| ==> rounds[i].tasks > 0 && 0 <= rounds[i].steps <= Allowance(rounds[i].tasks)
  }

  ghost function TotalSteps(rounds: seq<Round>): int {
    if rounds == [] then 0 else rounds[0].steps + TotalSteps(rounds[1..])
  }

  lemma {:induction false} RunGroupBounds(s: RunState, script: Script, f: Future)
    requires s.stepsLeft.Some?
    ensures var (t, e) := RunGroup(s, script, f);
            && |s.log| <= |t.log| <= |s.log| + s.stepsLeft.value && s.nextTask <= t.nextTask
            && (e.None? ==> f in t.results)
    decreases s.stepsLeft.value
  {
    hide RunForever;
    if f !in s.results {
      BudgetBounds(s, script, s.stepsLeft.value + 1);
      var (t, end) := RunForever(s, script, s.stepsLeft.value + 1);
      if !end.Threw? && f !in t.results {
        RunGroupBounds(t, script, f);
      }
    }
  }

  /** Teardown ends against any tasks: at most 100 rounds, each within 100000 steps and 100 more for
      each task it cancels, and no step outside the rounds; and a normal return means no task is left. */
  lemma {:induction false} TeardownBounds(s: RunState, script: Script, wakes: Wakes, round: nat)
    requires round <= ROUNDS
    ensures var (t, e) := CancelEverything(s, script, wakes, round);
            var rounds := Rounds(s, script, wakes, round);
            && |rounds| <= ROUNDS - round && AllWithin(rounds)
            && |t.log| == |s.log| + TotalSteps(rounds)
            && (e.None? ==> Pending(t) == [])
    decreases ROUNDS - round
  {
    hide RunGroup, RoundStart, PendingFrom;
    if round < ROUNDS && Pending(s) != [] {
      var c := RoundStart(s, wakes, round);
      RunGroupBounds(c, script, Group(round));
      RoundStartLog(s, wakes, round);
      var (t, e) := RunGroup(c, script, Group(round));
      var first := Round(|Pending(s)|, |t.log| - |s.log|);
      if e.None? {
        TeardownBounds(t, script, wakes, round + 1);
        var rest := Rounds(t, script, wakes, round + 1);
        assert Rounds(s, script, wakes, round) == [first] + rest;
        assert ([first] + rest)[1..] == rest;
      } else {
        assert Rounds(s, script, wakes, round) == [first];
      }
    }
  }

  lemma RoundStartLog(s: RunState, wakes: Wakes, round: nat)
    ensures RoundStart(s, wakes, round).log == s.log
  {
    hide CancelAll, PendingFrom;
  }

  /** The pending tasks are exactly those not done. */
  lemma {:induction false} PendingIsUndone(s: RunState, n: nat)
    requires n <= s.nextTask
    ensures forall k: nat :: k in PendingFrom(s, n) <==> n <= k < s.nextTask && Task(k) !in s.results
    decreases s.nextTask - n
  {
    if n < s.nextTask {
      PendingIsUndone(s, n + 1);
    }
  }

  // ---- exactly when teardown returns ---------------------------------------------------------------------------

  /** The state after `rounds` rounds that all ended without an error, if they did. */
  ghost function AfterRounds(s: RunState, script: Script, wakes: Wakes, round: nat, rounds: nat): Option<RunState>
    decreases rounds
  {
    if rounds == 0 then Some(s)
    else if Pending(s) == [] then None
    else
      var (t, e) := RunGroup(RoundStart(s, wakes, round), script, Group(round));
      if e.Some? then None else AfterRounds(t, script, wakes, round + 1, rounds - 1)
  }

  ghost predicate EmptyAfter(s: RunState, script: Script, wakes: Wakes, round: nat, rounds: nat) {
    var t := AfterRounds(s, script, wakes, round, rounds);
    t.Some? && Pending(t.value) == []
  }

  /** Teardown returns normally exactly when nothing is pending before some round, the hundredth
      being the last that is looked at. */
  lemma {:induction false} ReturnsExactlyWhen(s: RunState, script: Script, wakes: Wakes, round: nat)
    requires round <= ROUNDS
    ensures CancelEverything(s, script, wakes, round).1.None? <==>
            exists k: nat :: k < ROUNDS - round && EmptyAfter(s, script, wakes, round, k)
    decreases ROUNDS - round
  {
    hide RunGroup, RoundStart, PendingFrom;
    if round < ROUNDS {
      if Pending(s) == [] {
        assert EmptyAfter(s, script, wakes, round, 0);
      } else {
        var (t, e) := RunGroup(RoundStart(s, wakes, round), script, Group(round));
        if e.None? {
          ReturnsExactlyWhen(t, script, wakes, round + 1);
          if k: nat :| k < ROUNDS - round && EmptyAfter(s, script, wakes, round, k) {
            assert k > 0;
            assert EmptyAfter(t, script, wakes, round + 1, k - 1);
          }
          var next := round + 1;
          if k: nat :| k < ROUNDS - next && EmptyAfter(t, script, wakes, next, k) {
            assert EmptyAfter(s, script, wakes, round, k + 1);
          }
        } else {
          assert forall k: nat :: k > 0 ==> !EmptyAfter(s, script, wakes, round, k);
        }
      }
    }
  }

  /** ... so a hundred rounds that all end well are reported as a failure, pending tasks or not. */
  lemma {:induction false} HundredRoundsFail(s: RunState, script: Script, wakes: Wakes, round: nat)
    requires round <= ROUNDS && AfterRounds(s, script, wakes, round, ROUNDS - round).Some?
    ensures CancelEverything(s, script, wakes, round) == (AfterRounds(s, script, wakes, round, ROUNDS - round).value, Some(TeardownFailed))
    decreases ROUNDS - round
  {
    hide RunGroup, RoundStart, PendingFrom;
    if round < ROUNDS {
      var (t, e) := RunGroup(RoundStart(s, wakes, round), script, Group(round));
      HundredRoundsFail(t, script, wakes, round + 1);
    }
  }

  // ---- tasks that keep starting tasks -----------------------------------------------------------------------

  /** Task k, when cancelled, ends; all but the hundredth start another task first. */
  ghost function ChainTurn(k: nat): Turn {
    var end := [OpFinish(Task(k), Cancelled), OpFinish(Group(k), Finished), OpStop];
    Turn(if k < ROUNDS - 1 then [OpSpawn(false)] + end else end, None)
  }

  ghost function ChainScript(): Script {
    Script((k: nat) => ChainTurn(k), (k: nat) => Holds)
  }

  /** Only the first task waits when it is cancelled; the others are already scheduled. */
  ghost function ChainWakes(): Wakes {
    (r: nat, t: nat) => r == 0
  }

  ghost predicate ChainState(s: RunState, k: nat) {
    && s.turn == k && s.nextTask == (if k < ROUNDS then k + 1 else ROUNDS)
    && (forall i: nat :: Task(i) in s.results <==> i < k) && (forall i: nat :: i >= k ==> Group(i) !in s.results)
    && s.agenda.timers == [] && s.hooks == [] && s.watch.None? && s.stopIn.None? && !s.stopping && s.cancelled == {}
    && (k == 0 || k == ROUNDS ==> s.agenda.ready == [])
    && (0 < k < ROUNDS ==> |s.agenda.ready| == 1 && s.agenda.ready[0].Soon?)
  }

  ghost function ChainStart(): RunState {
    NewRun.(nextTask := 1)
  }

  lemma ChainPending(s: RunState, k: nat)
    requires ChainState(s, k) && k <= ROUNDS
    ensures Pending(s) == if k < ROUNDS then [k] else []
  {
    ChainPendingFrom(s, k, 0);
  }

  lemma {:induction false} ChainPendingFrom(s: RunState, k: nat, n: nat)
    requires ChainState(s, k) && k <= ROUNDS && n <= k
    ensures n <= s.nextTask && PendingFrom(s, n) == if k < ROUNDS then [k] else []
    decreases k - n
  {
    if n < k {
      ChainPendingFrom(s, k, n + 1);
    } else if k < ROUNDS {
      assert PendingFrom(s, k + 1) == [];
    }
  }

  /** The one step a chain round takes. */
  lemma ChainStep(s: RunState, k: nat)
    requires k < ROUNDS && s.turn == k && s.nextTask == k + 1
    requires (forall i: nat :: Task(i) in s.results <==> i < k) && (forall i: nat :: i >= k ==> Group(i) !in s.results)
    requires s.agenda.timers == [] && s.hooks == [] && s.watch.None? && s.stopIn.None? && !s.stopping && s.cancelled == {}
    requires |s.agenda.ready| == 1 && s.agenda.ready[0].Soon? && s.stepsLeft.Some? && s.stepsLeft.value > 0
    ensures var (t, r) := Step(s, ChainScript());
            r == Normal && t.stopping && ChainState(t.(stopping := false), k + 1) && Group(k) in t.results && t.results[Group(k)] == Finished
  {
    var b := Budgeted(s);
    assert Advance(b) == (b, Normal);
    assert b.agenda.ready[0].what !in b.cancelled;
    ChainBatch(b, k);
    var (c, r) := RunBatch(b, ChainScript(), 1);
    assert RunHooks(c.(held := []), ChainScript(), c.hooks, None, []) == Pass(c.(held := []), None, [], None);
  }

  lemma PerformCons(s: RunState, script: Script, op: Op, rest: seq<Op>)
    ensures PerformAll(s, script, [op] + rest) == PerformAll(Perform(s, script, op), script, rest)
  {
    hide Perform;
    assert ([op] + rest)[1..] == rest;
  }

  /** The operations that end task k, its round's group future and the pass. */
  lemma ChainEnds(u: RunState, script: Script, k: nat)
    requires Task(k) !in u.results && Group(k) !in u.results && k < u.nextTask
    ensures PerformAll(u, script, [OpFinish(Task(k), Cancelled), OpFinish(Group(k), Finished), OpStop]) ==
            u.(results := u.results[Task(k) := Cancelled][Group(k) := Finished], stopping := true)
  {
    hide BeginUntil, CancelUntil, EndUntil, DoAlways, DoCallAt, DoCallSoon, DoSpawn, DoCancel, Internal;
    var v := u.(results := u.results[Task(k) := Cancelled]);
    var w := u.(results := u.results[Task(k) := Cancelled][Group(k) := Finished]);
    PerformCons(u, script, OpFinish(Task(k), Cancelled), [OpFinish(Group(k), Finished), OpStop]);
    PerformCons(v, script, OpFinish(Group(k), Finished), [OpStop]);
    PerformCons(w, script, OpStop, []);
    assert [OpFinish(Task(k), Cancelled)] + [OpFinish(Group(k), Finished), OpStop] ==
           [OpFinish(Task(k), Cancelled), OpFinish(Group(k), Finished), OpStop];
    assert [OpFinish(Group(k), Finished)] + [OpStop] == [OpFinish(Group(k), Finished), OpStop];
    assert [OpStop] + [] == [OpStop];
  }

  lemma ChainOps(t: RunState, k: nat)
    requires k < ROUNDS && t.nextTask == k + 1 && Task(k) !in t.results && Group(k) !in t.results
    ensures PerformAll(t, ChainScript(), ChainTurn(k).ops) ==
            (if k < ROUNDS - 1 then DoSpawn(t, false) else t).(results := t.results[Task(k) := Cancelled][Group(k) := Finished], stopping := true)
  {
    hide PerformAll, DoCallSoon;
    var end := [OpFinish(Task(k), Cancelled), OpFinish(Group(k), Finished), OpStop];
    if k < ROUNDS - 1 {
      PerformCons(t, ChainScript(), OpSpawn(false), end);
      SpawnFrame(t);
      ChainEnds(DoSpawn(t, false), ChainScript(), k);
    } else {
      ChainEnds(t, ChainScript(), k);
    }
  }

  lemma SpawnFrame(t: RunState)
    ensures var u := DoSpawn(t, false);
            u == t.(agenda := t.agenda.(ready := t.agenda.ready + [Soon(t.nextHandle)]), nextHandle := t.nextHandle + 1, nextTask := t.nextTask + 1)
  {
  }

  lemma ChainBatch(b: RunState, k: nat)
    requires k < ROUNDS && b.turn == k && b.nextTask == k + 1
    requires (forall i: nat :: Task(i) in b.results <==> i < k) && (forall i: nat :: i >= k ==> Group(i) !in b.results)
    requires b.hooks == [] && b.cancelled == {} && |b.agenda.ready| == 1 && b.agenda.ready[0].Soon?
    ensures var (c, r) := RunBatch(b, ChainScript(), 1);
            && r == Normal
            && c.results == b.results[Task(k) := Cancelled][Group(k) := Finished] && c.stopping && c.turn == k + 1
            && c.agenda.timers == b.agenda.timers && c.hooks == [] && c.cancelled == {} && c.watch == b.watch && c.stopIn == b.stopIn
            && (if k < ROUNDS - 1 then c.nextTask == k + 2 && |c.agenda.ready| == 1 && c.agenda.ready[0].Soon?
                else c.nextTask == k + 1 && c.agenda.ready == [])
  {
    hide PerformAll, DoSpawn;
    var t := b.(agenda := Take(b.agenda, true), turn := b.turn + 1);
    ChainOps(t, k);
    SpawnFrame(t);
    assert ChainScript().turns(k) == ChainTurn(k);
    assert RunBatch(b, ChainScript(), 1) == RunBatch(RunEntry(b, ChainScript()).0, ChainScript(), 0);
  }

  lemma ChainRound(s: RunState, k: nat)
    requires ChainState(s, k) && k < ROUNDS
    ensures Pending(s) != []
    ensures var (t, e) := RunGroup(RoundStart(s, ChainWakes(), k), ChainScript(), Group(k)); e.None? && ChainState(t, k + 1)
  {
    ChainPending(s, k);
    var c := RoundStart(s, ChainWakes(), k);
    assert [k][1..] == [];
    assert CancelAll(s, ChainWakes(), k, [k]) == if k == 0 then DoCallSoon(s) else s;
    ChainStep(c, k);
    var (t, r) := Step(c, ChainScript());
    assert RunForever(c, ChainScript(), c.stepsLeft.value + 1) == (t.(stopping := false), Returned);
  }

  lemma {:induction false} ChainRounds(s: RunState, k: nat)
    requires ChainState(s, k) && k <= ROUNDS
    ensures var t := AfterRounds(s, ChainScript(), ChainWakes(), k, ROUNDS - k); t.Some? && ChainState(t.value, ROUNDS)
    decreases ROUNDS - k
  {
    hide RunGroup, RoundStart, PendingFrom, ChainState;
    if k < ROUNDS {
      ChainRound(s, k);
      ChainRounds(RunGroup(RoundStart(s, ChainWakes(), k), ChainScript(), Group(k)).0, k + 1);
    }
  }

  /** As written, the hundredth round is not followed by another look: a hundred tasks, each starting
      the next when cancelled, leave nothing pending and teardown fails all the same. */
  lemma FailsWithNothingPending()
    ensures var (t, e) := CancelEverything(ChainStart(), ChainScript(), ChainWakes(), 0);
            e == Some(TeardownFailed) && Pending(t) == []
  {
    hide CancelEverything, AfterRounds, PendingFrom;
    assert ChainState(ChainStart(), 0);
    ChainRounds(ChainStart(), 0);
    HundredRoundsFail(ChainStart(), ChainScript(), ChainWakes(), 0);
    ChainPending(AfterRounds(ChainStart(), ChainScript(), ChainWakes(), 0, ROUNDS).value, ROUNDS);
  }
}
