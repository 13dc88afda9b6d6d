/** How a run is driven to its end and which failure it reports (`World._drive`). */
module Drive {
  import opened Common
  import opened LoopModel
  import opened Teardown

  // ---- which failure survives ----------------------------------------------------------------------------

  /** The failures of the phases, in the order they happened; the one in flight after the last. An
      interrupt replaces whatever was in flight, anything else only fills an empty place. */
  function Kept(failures: seq<Error>): Option<Error> {
    if failures == [] then None
    else
      var last := |failures| - 1;
      if last == 0 || IsInterrupt(failures[last]) then Some(failures[last]) else Kept(failures[..last])
  }

  /** (holder, what it notes): a failure an interrupt replaced is noted on the interrupt, an absorbed
      failure on the one in flight. */
  function Notes(failures: seq<Error>): set<(Error, Error)> {
    if |failures| <= 1 then {}
    else
      var held := Kept(failures[..|failures| - 1]);
      Notes(failures[..|failures| - 1]) + (if held.None? then {} else NoteOf(held.value, failures[|failures| - 1]))
  }

  function NoteOf(held: Error, e: Error): set<(Error, Error)> {
    if !IsInterrupt(e) then {(held, e)} else if e != held then {(e, held)} else {}
  }

  ghost predicate LastInterrupt(failures: seq<Error>, i: int) {
    && 0 <= i < |failures| && (failures[i].Interrupt? || failures[i].CancelledError?)
    && forall j :: i < j < |failures| ==> !failures[j].Interrupt? && !failures[j].CancelledError?
  }

  /** The kept failure is the last interrupt if there was one, otherwise the first failure; there is
      none only if no phase failed. */
  lemma {:induction false} KeptMeans(failures: seq<Error>)
    ensures Kept(failures).None? <==> failures == []
    ensures (forall i :: 0 <= i < |failures| ==> !failures[i].Interrupt? && !failures[i].CancelledError?) && failures != [] ==> Kept(failures) == Some(failures[0])
    ensures forall i :: LastInterrupt(failures, i) ==> Kept(failures) == Some(failures[i])
  {
    if |failures| > 1 {
      var front := failures[..|failures| - 1];
      KeptMeans(front);
      assert forall i :: 0 <= i < |front| ==> front[i] == failures[i];
      forall i | LastInterrupt(failures, i)
        ensures Kept(failures) == Some(failures[i])
      {
        assert i < |front| ==> LastInterrupt(front, i);
      }
    }
  }

  /** No failure is lost: each one is the one kept, or is noted on another of them. */
  lemma {:induction false} NothingLost(failures: seq<Error>)
    ensures forall i :: 0 <= i < |failures| ==>
              Some(failures[i]) == Kept(failures) ||
              exists h :: h in failures && (h, failures[i]) in Notes(failures)
  {
    if |failures| > 1 {
      var last := |failures| - 1;
      var front := failures[..last];
      NothingLost(front);
      KeptMeans(front);
      KeptIsOne(front);
      forall i | 0 <= i < |failures|
        ensures Some(failures[i]) == Kept(failures) || exists h :: h in failures && (h, failures[i]) in Notes(failures)
      {
        if i < last && Some(front[i]) != Kept(front) {
          var h :| h in front && (h, front[i]) in Notes(front);
          assert h in failures && (h, failures[i]) in Notes(failures);
        } else if i < last {
          if IsInterrupt(failures[last]) && failures[last] != front[i] {
            assert (failures[last], failures[i]) in Notes(failures);
          }
        } else if !IsInterrupt(failures[last]) {
          assert Kept(front).value in failures && (Kept(front).value, failures[i]) in Notes(failures);
        }
      }
    }
  }

  lemma {:induction false} KeptIsOne(failures: seq<Error>)
    requires failures != []
    ensures Kept(failures).Some? && Kept(failures).value in failures
  {
    if |failures| > 1 {
      KeptIsOne(failures[..|failures| - 1]);
    }
  }

  lemma KeptSnoc(failures: seq<Error>, e: Error)
    ensures Kept(failures + [e]) == if failures == [] || IsInterrupt(e) then Some(e) else Kept(failures)
    ensures failures == [] ==> Notes(failures + [e]) == {}
    ensures failures != [] && Kept(failures).Some? ==> Notes(failures + [e]) == Notes(failures) + NoteOf(Kept(failures).value, e)
  {
    assert (failures + [e])[..|failures|] == failures;
  }

  // ---- the phases --------------------------------------------------------------------------------------------

  function AsSeq(e: Option<Error>): seq<Error> {
    if e.Some? then [e.value] else []
  }

  /** The run's own allowance, and the scenario as the first task. */
  function Launched(s: RunState, maxSteps: Option<nat>): RunState {
    DoSpawn(s.(stepsLeft := maxSteps, stepError := Livelock), false)
  }

  function RunFailure(s: RunState, end: LoopEnd, main: Future): Option<Error> {
    if end.Threw? then Some(end.e) else if main in s.results then None else Some(StoppedEarly)
  }

  lemma BudgetUntilDone(s: RunState, script: Script, f: Future, settle: bool, fuel: nat)
    requires s.stepsLeft.Some? && fuel > s.stepsLeft.value
    ensures var (t, end) := RunUntilDone(s, script, f, settle, fuel);
            && t.stepsLeft.Some? && t.stepsLeft.value <= s.stepsLeft.value && t.stepError == s.stepError && s.nextTask <= t.nextTask
            && |s.log| <= |t.log| && |t.log| + t.stepsLeft.value <= |s.log| + s.stepsLeft.value
            && (end.Returned? ==> t.stepsLeft.value < s.stepsLeft.value) && !end.StillRunning?
  {
    hide RunForever;
    var s0 := s.(watch := Some(f), stopIn := None, settle := settle);
    BudgetBounds(s0, script, fuel);
    var (t, end) := RunForever(s0, script, fuel);
    if end.Returned? && f in t.results && (t.stopIn == Some(1) || t.stopIn == Some(2)) {
      var u := if t.stopIn == Some(2) && settle then Settle(t) else t;
      BudgetBounds(u.(stopIn := Some(1)), script, fuel);
    }
  }

  /** The cancelled scenario task is settled on its own: passes until it is done. */
  function SettleMain(s: RunState, script: Script, main: Future): (RunState, Option<Error>)
    requires s.stepsLeft.Some?
    decreases s.stepsLeft.value
  {
    if main in s.results then (s, None)
    else
      BudgetUntilDone(s, script, main, false, s.stepsLeft.value + 1);
      var (t, end) := RunUntilDone(s, script, main, false, s.stepsLeft.value + 1);
      if end.Threw? then (t, Some(end.e)) else SettleMain(t, script, main)
  }

  function Cleared(s: RunState, failure: Option<Error>): RunState {
    if failure.Some? then s.(hooks := []) else s
  }

  /** What happens to the scenario task before the others are cancelled. */
  function Settling(s: RunState, script: Script, wakes: Wakes, n: nat, failure: Option<Error>): (RunState, Option<Error>) {
    var c := Cleared(Limited(s, 0), failure);
    if Task(n) !in c.results then SettleMain(if wakes(ROUNDS, n) then DoCallSoon(c) else c, script, Task(n))
    else if failure.Some? then
      var (t, end) := RunOneMoreStep(c, script, Task(n), Allowance(0) + 1);
      (t, if end.Threw? then Some(end.e) else None)
    else (c, None)
  }

  /** The scenario's error that shows up while it is being unwound. */
  function Unwound(before: RunState, s: RunState, n: nat, failure: Option<Error>, settled: Option<Error>): Option<Error> {
    if Task(n) !in before.results && failure.Some? && (settled.None? || !IsInterrupt(settled.value)) &&
       Task(n) in s.results && s.results[Task(n)].Failed? && s.results[Task(n)].e != failure.value
    then Some(s.results[Task(n)].e) else None
  }

  /** The first started node, in start order, that has failed. */
  function NodeFailure(s: RunState, nodes: seq<nat>): Option<Error> {
    if nodes == [] then None
    else if Task(nodes[0]) in s.results && s.results[Task(nodes[0])].Failed? then Some(s.results[Task(nodes[0])].e)
    else NodeFailure(s, nodes[1..])
  }

  function ResultFailure(s: RunState, n: nat): Option<Error> {
    var own := if Task(n) in s.results then ResultError(s.results[Task(n)]) else None;
    if own.Some? then own else NodeFailure(s, s.started)
  }

  /** `failures` is what each phase raised, in order: the run, settling the scenario, its result or a
      node's, and teardown. */
  datatype Driven = Driven(s: RunState, failures: seq<Error>, unwound: Option<Error>, running: bool)

  function DriveRun(s: RunState, script: Script, wakes: Wakes, maxSteps: Option<nat>, fuel: nat): Driven {
    var n := s.nextTask;
    var (ran, end) := RunUntilDone(Launched(s, maxSteps), script, Task(n), true, fuel);
    if end.StillRunning? then Driven(ran, [], None, true)
    else EndRun(ran, script, wakes, n, RunFailure(ran, end, Task(n)))
  }

  /** Everything after the run phase, which failed with `failure` if at all. */
  function EndRun(ran: RunState, script: Script, wakes: Wakes, n: nat, failure: Option<Error>): Driven {
    var (settled, late) := Settling(ran, script, wakes, n, failure);
    var sofar := AsSeq(failure) + AsSeq(late);
    var fs := sofar + AsSeq(if sofar == [] then ResultFailure(settled, n) else None);
    var (torn, left) := CancelEverything(Cleared(settled, Kept(fs)).(tearingDown := true), script, wakes, 0);
    Driven(torn, fs + AsSeq(left), Unwound(ran, settled, n, failure, late), false)
  }

  /** Everything `_drive` notes: on the failures themselves, and the scenario's unwinding error on the
      run's failure. An error that takes no notes keeps its place without them. */
  function AllNotes(d: Driven, accepts: Error -> bool): set<(Error, Error)> {
    set p | p in Notes(d.failures) + (if d.unwound.Some? && d.failures != [] then {(d.failures[0], d.unwound.value)} else {}) && accepts(p.0)
  }

  /** Settling the scenario takes at most 100000 steps, whatever it does with its cancellation. */
  lemma {:induction false} SettleBounds(s: RunState, script: Script, main: Future)
    requires s.stepsLeft.Some?
    ensures var (t, e) := SettleMain(s, script, main);
            |s.log| <= |t.log| <= |s.log| + s.stepsLeft.value && (e.None? ==> main in t.results)
    decreases s.stepsLeft.value
  {
    hide RunUntilDone;
    if main !in s.results {
      BudgetUntilDone(s, script, main, false, s.stepsLeft.value + 1);
      var (t, end) := RunUntilDone(s, script, main, false, s.stepsLeft.value + 1);
      if !end.Threw? {
        SettleBounds(t, script, main);
      }
    }
  }

  lemma SettlingBounds(s: RunState, script: Script, wakes: Wakes, n: nat, failure: Option<Error>)
    ensures var (t, e) := Settling(s, script, wakes, n, failure);
            |s.log| <= |t.log| <= |s.log| + TEARDOWN_STEPS
  {
    hide RunOneMoreStep, SettleMain;
    var c := Cleared(Limited(s, 0), failure);
    if Task(n) !in c.results {
      SettleBounds(if wakes(ROUNDS, n) then DoCallSoon(c) else c, script, Task(n));
    } else if failure.Some? {
      OneMoreBounds(c, script, Task(n), Allowance(0) + 1);
    }
  }

  lemma OneMoreBounds(s: RunState, script: Script, f: Future, fuel: nat)
    requires s.stepsLeft.Some?
    ensures var t := RunOneMoreStep(s, script, f, fuel).0; |s.log| <= |t.log| <= |s.log| + s.stepsLeft.value
  {
    hide RunForever;
    BudgetBounds(s.(watch := Some(f), stopIn := Some(1), settle := false), script, fuel);
  }

  /** However a drive goes, once its run phase is over it takes at most 100000 steps to settle and then
      those of at most 100 teardown rounds from the settled state, each within its own allowance and none
      between them; and if nothing failed, no task is left. */
  lemma DriveEnds(s: RunState, script: Script, wakes: Wakes, maxSteps: Option<nat>, fuel: nat) returns (ready: RunState)
    requires !DriveRun(s, script, wakes, maxSteps, fuel).running
    ensures var d := DriveRun(s, script, wakes, maxSteps, fuel);
            var (ran, end) := RunUntilDone(Launched(s, maxSteps), script, Task(s.nextTask), true, fuel);
            var settled := Settling(ran, script, wakes, s.nextTask, RunFailure(ran, end, Task(s.nextTask))).0;
            var rounds := Rounds(ready, script, wakes, 0);
            && ready == settled.(hooks := ready.hooks, tearingDown := true) && d.s == CancelEverything(ready, script, wakes, 0).0
            && |ran.log| <= |ready.log| <= |ran.log| + TEARDOWN_STEPS
            && |rounds| <= ROUNDS && AllWithin(rounds) && |d.s.log| == |ready.log| + TotalSteps(rounds)
            && (d.failures == [] ==> Pending(d.s) == [])
  {
    hide RunUntilDone, Settling, CancelEverything, ResultFailure, Launched, PendingFrom, Kept, RunFailure, Unwound, TotalSteps, Rounds;
    var n := s.nextTask;
    var (ran, end) := RunUntilDone(Launched(s, maxSteps), script, Task(n), true, fuel);
    var failure := RunFailure(ran, end, Task(n));
    SettlingBounds(ran, script, wakes, n, failure);
    var (settled, late) := Settling(ran, script, wakes, n, failure);
    var sofar := AsSeq(failure) + AsSeq(late);
    var fs := sofar + AsSeq(if sofar == [] then ResultFailure(settled, n) else None);
    ready := Cleared(settled, Kept(fs)).(tearingDown := true);
    TeardownBounds(ready, script, wakes, 0);
    var (torn, left) := CancelEverything(ready, script, wakes, 0);
    assert left.Some? ==> (fs + AsSeq(left))[|fs|] == left.value;
  }
}
