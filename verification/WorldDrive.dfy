/** `World._drive` and `World._cancel_everything` as they are written, over the loop object. */
module WorldDrive {
  import opened Common
  import opened LoopModel
  import opened EventLoop
  import opened Teardown
  import opened Drive

  method LimitSteps(w: World, steps: Option<nat>, error: Error)
    requires w.Valid()
    modifies w.loop`stepsLeft, w.loop`stepError
    ensures w.Valid() && w.View() == old(w.View()).(stepsLeft := steps, stepError := error)
  {
    hide Live;
    w.loop.LimitSteps(steps, error);
  }

  /** The tasks not done yet, sorted by creation index. */
  method PendingTasks(w: World) returns (tasks: seq<nat>)
    requires w.Valid()
    ensures tasks == Pending(w.View())
  {
    hide DeterministicLoop.TheAgenda, DeterministicLoop.Valid;
    tasks := [];
    var n := 0;
    ghost var s := w.View();
    while n < w.loop.taskSeq
      invariant 0 <= n <= s.nextTask && tasks + PendingFrom(s, n) == Pending(s)
    {
      if Task(n) !in w.loop.results {
        tasks := tasks + [n];
      }
      n := n + 1;
    }
    assert tasks + [] == tasks;
  }

  method CancelTasks(w: World, wakes: Wakes, round: nat, tasks: seq<nat>)
    requires w.Valid()
    modifies w.loop`ready, w.loop`nextHandle
    ensures w.Valid() && w.View() == CancelAll(old(w.View()), wakes, round, tasks)
  {
    hide DoCallSoon, DeterministicLoop.TheAgenda, DeterministicLoop.Valid;
    var i := 0;
    while i < |tasks|
      invariant 0 <= i <= |tasks| && w.Valid()
      invariant CancelAll(w.View(), wakes, round, tasks[i..]) == CancelAll(old(w.View()), wakes, round, tasks)
    {
      assert tasks[i..][1..] == tasks[i + 1..];
      if wakes(round, tasks[i]) {
        w.UserCallSoon();
      }
      i := i + 1;
    }
  }

  /** Pass after pass, however often user code stops the loop, until the group is done or a pass throws. */
  method RunUntilDoneOrError(w: World, script: Script, f: Future) returns (e: Option<Error>)
    requires w.Valid() && w.loop.stepsLeft.Some?
    modifies w, w.loop
    ensures w.Valid() && (w.View(), e) == RunGroup(old(w.View()), script, f)
  {
    hide RunForever, DeterministicLoop.TheAgenda, DeterministicLoop.Valid;
    while f !in w.loop.results
      invariant w.Valid() && w.loop.stepsLeft.Some?
      invariant RunGroup(w.View(), script, f) == RunGroup(old(w.View()), script, f)
      decreases w.loop.stepsLeft.value
    {
      BudgetBounds(w.View(), script, w.loop.stepsLeft.value + 1);
      var end := w.RunLoop(script, w.loop.stepsLeft.value + 1);
      if end.Threw? {
        return Some(end.e);
      }
      if f in w.loop.results {
        return ResultError(w.loop.results[f]);
      }
    }
    e := None;
  }

  /** Cancel every pending task, then set the round's budget. */
  method StartRound(w: World, wakes: Wakes, round: nat, pending: seq<nat>)
    requires w.Valid() && pending == Pending(w.View())
    modifies w.loop
    ensures w.Valid() && w.View() == RoundStart(old(w.View()), wakes, round) && w.loop.stepsLeft.Some?
  {
    hide CancelAll, PendingFrom, DeterministicLoop.TheAgenda, DeterministicLoop.Valid;
    CancelTasks(w, wakes, round, pending);
    LimitSteps(w, Some(TEARDOWN_STEPS + STEPS_PER_TASK * |pending|), TeardownFailed);
  }

  method CancelEverythingPending(w: World, script: Script, wakes: Wakes) returns (e: Option<Error>)
    requires w.Valid()
    modifies w, w.loop
    ensures w.Valid() && (w.View(), e) == CancelEverything(old(w.View()), script, wakes, 0)
  {
    hide RunGroup, RoundStart, PendingFrom, DeterministicLoop.TheAgenda, DeterministicLoop.Valid;
    var round := 0;
    while round < ROUNDS
      invariant 0 <= round <= ROUNDS && w.Valid()
      invariant CancelEverything(w.View(), script, wakes, round) == CancelEverything(old(w.View()), script, wakes, 0)
    {
      var pending := PendingTasks(w);
      if pending == [] {
        return None;
      }
      StartRound(w, wakes, round, pending);
      e := RunUntilDoneOrError(w, script, Group(round));
      if e.Some? {
        return;
      }
      round := round + 1;
    }
    e := Some(TeardownFailed);
  }

  /** The scenario task, cancelled, is run until it is done. */
  method SettleScenario(w: World, script: Script, main: Future) returns (e: Option<Error>)
    requires w.Valid() && w.loop.stepsLeft.Some?
    modifies w, w.loop
    ensures w.Valid() && (w.View(), e) == SettleMain(old(w.View()), script, main)
  {
    hide RunUntilDone, DeterministicLoop.TheAgenda, DeterministicLoop.Valid;
    while main !in w.loop.results
      invariant w.Valid() && w.loop.stepsLeft.Some?
      invariant SettleMain(w.View(), script, main) == SettleMain(old(w.View()), script, main)
      decreases w.loop.stepsLeft.value
    {
      BudgetUntilDone(w.View(), script, main, false, w.loop.stepsLeft.value + 1);
      var end := w.RunUntilFutureDone(script, main, false, w.loop.stepsLeft.value + 1);
      if end.Threw? {
        return Some(end.e);
      }
    }
    e := None;
  }

  method ClearHooksIf(w: World, failure: Option<Error>)
    requires w.Valid()
    modifies w.loop`hooks
    ensures w.Valid() && w.View() == Cleared(old(w.View()), failure)
  {
    hide Live;
    if failure.Some? {
      w.loop.hooks := [];
    }
  }

  /** The budget for settling, and no hooks once a failure is in hand. */
  method StartSettling(w: World, failure: Option<Error>)
    requires w.Valid()
    modifies w.loop`stepsLeft, w.loop`stepError, w.loop`hooks
    ensures w.Valid() && w.View() == Cleared(Limited(old(w.View()), 0), failure) && w.loop.stepsLeft.Some?
  {
    hide Live;
    LimitSteps(w, Some(TEARDOWN_STEPS), TeardownFailed);
    ClearHooksIf(w, failure);
  }

  /** Cancelling the scenario task schedules a callback if it was waiting. */
  method CancelScenario(w: World, wakes: Wakes, n: nat)
    requires w.Valid() && w.loop.stepsLeft.Some?
    modifies w.loop`ready, w.loop`nextHandle
    ensures w.Valid() && w.loop.stepsLeft.Some?
    ensures w.View() == if wakes(ROUNDS, n) then DoCallSoon(old(w.View())) else old(w.View())
  {
    hide DoCallSoon, DeterministicLoop.TheAgenda, DeterministicLoop.Valid;
    if wakes(ROUNDS, n) {
      w.UserCallSoon();
    }
  }

  method SettleAfterRun(w: World, script: Script, wakes: Wakes, n: nat, failure: Option<Error>) returns (late: Option<Error>)
    requires w.Valid()
    modifies w, w.loop
    ensures w.Valid() && (w.View(), late) == Settling(old(w.View()), script, wakes, n, failure)
  {
    hide SettleMain, RunOneMoreStep, DoCallSoon, DeterministicLoop.TheAgenda, DeterministicLoop.Valid;
    StartSettling(w, failure);
    if Task(n) !in w.loop.results {
      CancelScenario(w, wakes, n);
      late := SettleScenario(w, script, Task(n));
    } else if failure.Some? {
      var end := w.RunOneMore(script, Task(n), TEARDOWN_STEPS + 1);
      late := if end.Threw? then Some(end.e) else None;
    } else {
      late := None;
    }
  }

  /** The scenario's own outcome, then the started nodes in start order. */
  method ScenarioOutcome(w: World, n: nat) returns (e: Option<Error>)
    requires w.Valid()
    ensures e == ResultFailure(w.View(), n)
  {
    hide Live;
    if Task(n) in w.loop.results {
      e := ResultError(w.loop.results[Task(n)]);
      if e.Some? {
        return;
      }
    }
    var i := 0;
    while i < |w.started|
      invariant 0 <= i <= |w.started|
      invariant NodeFailure(w.View(), w.started[i..]) == NodeFailure(w.View(), w.started)
    {
      assert w.started[i..][1..] == w.started[i + 1..];
      var task := Task(w.started[i]);
      if task in w.loop.results && w.loop.results[task].Failed? {
        return Some(w.loop.results[task].e);
      }
      i := i + 1;
    }
    e := None;
  }

  /** The run phase: the scenario's task is created and the loop driven until it is done. */
  method RunScenario(w: World, script: Script, maxSteps: Option<nat>, fuel: nat) returns (end: LoopEnd)
    requires w.Valid()
    modifies w, w.loop
    ensures w.Valid()
    ensures (w.View(), end) == RunUntilDone(Launched(old(w.View()), maxSteps), script, Task(old(w.loop.taskSeq)), true, fuel)
  {
    hide RunUntilDone, DoSpawn, DeterministicLoop.TheAgenda, DeterministicLoop.Valid;
    var main := Task(w.loop.taskSeq);
    LimitSteps(w, maxSteps, Livelock);
    w.CreateTask(false);
    end := w.RunUntilFutureDone(script, main, true, fuel);
  }

  function Noting(notes: set<(Error, Error)>, holder: Error, text: Error, accepts: Error -> bool): set<(Error, Error)> {
    if accepts(holder) then notes + {(holder, text)} else notes
  }

  function Accepted(notes: set<(Error, Error)>, accepts: Error -> bool): set<(Error, Error)> {
    set p | p in notes && accepts(p.0)
  }

  /** A phase that runs with `failure` in flight raises `e`, if anything: `_secondary` absorbs an
      `Exception` as a note on the failure; what escapes it replaces the failure and notes it. */
  method Weigh(failure: Option<Error>, notes: set<(Error, Error)>, e: Option<Error>, accepts: Error -> bool, ghost fs: seq<Error>)
    returns (kept: Option<Error>, noted: set<(Error, Error)>)
    requires failure == Kept(fs) && notes == Accepted(Notes(fs), accepts)
    ensures kept == Kept(fs + AsSeq(e)) && noted == Accepted(Notes(fs + AsSeq(e)), accepts)
  {
    kept, noted := failure, notes;
    if e.Some? {
      KeptSnoc(fs, e.value);
      KeptMeans(fs);
      if failure.Some? && !IsInterrupt(e.value) {
        noted := Noting(notes, failure.value, e.value, accepts);
      } else {
        if failure.Some? && e != failure {
          noted := Noting(notes, e.value, failure.value, accepts);
        }
        kept := e;
      }
    } else {
      assert fs + AsSeq(e) == fs;
    }
  }

  method SetTearingDown(w: World)
    requires w.Valid()
    modifies w`tearingDown
    ensures w.Valid() && w.View() == old(w.View()).(tearingDown := true)
  {
    hide Live;
    w.tearingDown := true;
  }

  /** The error of a scenario that was still running when the run failed, raised while it unwound. */
  method UnwindError(w: World, unfinished: bool, n: nat, failure: Option<Error>, late: Option<Error>) returns (e: Option<Error>)
    requires w.Valid()
    ensures forall before: RunState :: unfinished == (Task(n) !in before.results) ==> e == Unwound(before, w.View(), n, failure, late)
  {
    hide Live;
    e := None;
    if unfinished && failure.Some? && (late.None? || !IsInterrupt(late.value)) {
      if Task(n) in w.loop.results && w.loop.results[Task(n)].Failed? && w.loop.results[Task(n)].e != failure.value {
        e := Some(w.loop.results[Task(n)].e);
      }
    }
  }

  /** `_drive`. `failure` is the failure in flight, as in the source; `running` says the run phase was
      still going after `fuel` steps, which is all we watched. The first clause is the refusals that
      come before anything has happened; otherwise the failure raised and every note are those of the
      phases' failures, and the loop ends up closed. */
  method DriveWorld(w: World, script: Script, wakes: Wakes, accepts: Error -> bool, maxSteps: Option<nat>,
                    insideLoop: bool, coroutine: bool, fuel: nat)
    returns (raised: Option<Error>, notes: set<(Error, Error)>, closed: bool, running: bool)
    requires w.Valid()
    modifies w, w.loop
    ensures insideLoop || !coroutine ==> raised == Some(Usage) && w.View() == old(w.View()) && !running && !closed
    ensures !(insideLoop || !coroutine) ==>
              var d := DriveRun(old(w.View()), script, wakes, maxSteps, fuel);
              && w.Valid() && w.View() == d.s && running == d.running
              && (!running ==> closed && raised == Kept(d.failures) && notes == AllNotes(d, accepts))
  {
    raised, notes, closed, running := None, {}, false, false;
    if insideLoop || !coroutine {
      raised := Some(Usage);
      return;
    }
    hide RunUntilDone, EndRun, Launched, DeterministicLoop.TheAgenda, DeterministicLoop.Valid;
    var n := w.loop.taskSeq;
    var end := RunScenario(w, script, maxSteps, fuel);
    if end.StillRunning? {
      running := true;
    } else {
      var first := if end.Threw? then Some(end.e) else if Task(n) !in w.loop.results then Some(StoppedEarly) else None;
      raised, notes := FinishDrive(w, script, wakes, accepts, n, first);
      closed := true;
    }
  }

  method FinishDrive(w: World, script: Script, wakes: Wakes, accepts: Error -> bool, n: nat, first: Option<Error>)
    returns (raised: Option<Error>, notes: set<(Error, Error)>)
    requires w.Valid()
    modifies w, w.loop
    ensures var d := EndRun(old(w.View()), script, wakes, n, first);
            w.Valid() && w.View() == d.s && raised == Kept(d.failures) && notes == AllNotes(d, accepts)
  {
    hide Settling, CancelEverything, ResultFailure, Kept, Notes, Cleared, Unwound, DeterministicLoop.TheAgenda, DeterministicLoop.Valid;
    ghost var fs;
    var failure, unwound;
    failure, notes, unwound, fs := SettlePhase(w, script, wakes, accepts, n, first);
    ClearHooksIf(w, failure);
    SetTearingDown(w);
    var left := CancelEverythingPending(w, script, wakes);
    raised, notes := Weigh(failure, notes, left, accepts, fs);
    if unwound.Some? {
      assert (fs + AsSeq(left))[0] == first.value;
      notes := Noting(notes, first.value, unwound.value, accepts);
    }
  }

  /** From the end of the run phase to the teardown: `fs` is what failed so far. */
  method SettlePhase(w: World, script: Script, wakes: Wakes, accepts: Error -> bool, n: nat, first: Option<Error>)
    returns (failure: Option<Error>, notes: set<(Error, Error)>, unwound: Option<Error>, ghost fs: seq<Error>)
    requires w.Valid()
    modifies w, w.loop
    ensures var (settled, late) := Settling(old(w.View()), script, wakes, n, first);
            var sofar := AsSeq(first) + AsSeq(late);
            && w.Valid() && w.View() == settled
            && fs == sofar + AsSeq(if sofar == [] then ResultFailure(settled, n) else None)
            && failure == Kept(fs) && notes == Accepted(Notes(fs), accepts)
            && unwound == Unwound(old(w.View()), settled, n, first, late)
            && (unwound.Some? ==> first.Some? && fs != [] && fs[0] == first.value)
  {
    hide Settling, ResultFailure, Kept, Notes, Unwound, DeterministicLoop.TheAgenda, DeterministicLoop.Valid;
    var unfinished := Task(n) !in w.loop.results;
    KeptMeans([]);
    NotesNone();
    failure, notes := Weigh(None, {}, first, accepts, []);
    assert [] + AsSeq(first) == AsSeq(first);
    var late := SettleAfterRun(w, script, wakes, n, first);
    unwound := UnwindError(w, unfinished, n, first, late);
    UnwoundHasFailure(old(w.View()), w.View(), n, first, late);
    failure, notes := Weigh(failure, notes, late, accepts, AsSeq(first));
    fs := AsSeq(first) + AsSeq(late);
    KeptMeans(fs);
    if failure.None? {
      var result := ScenarioOutcome(w, n);
      failure, notes := Weigh(failure, notes, result, accepts, fs);
      fs := fs + AsSeq(result);
    } else {
      assert fs + AsSeq(None) == fs;
    }
  }

  lemma NotesNone()
    ensures Notes([]) == {}
  {
  }

  lemma UnwoundHasFailure(before: RunState, s: RunState, n: nat, failure: Option<Error>, late: Option<Error>)
    ensures Unwound(before, s, n, failure, late).Some? ==> failure.Some?
  {
  }
}
