/** What a drive reports, phase by phase: the run's failure if it had one, otherwise what became of the
    scenario's own task and then of the started nodes; then what settling and teardown add to it. */
module DriveReports {
  import opened Common
  import opened Agendas
  import opened LoopModel
  import opened LoopProperties
  import opened Teardown
  import opened Drive

  predicate HasFailed(s: RunState, n: nat) {
    Task(n) in s.results && s.results[Task(n)].Failed?
  }

  /** The i-th started node has failed, and none started before it. */
  ghost predicate FirstFailed(s: RunState, nodes: seq<nat>, i: nat) {
    i < |nodes| && HasFailed(s, nodes[i]) && forall j :: 0 <= j < i ==> !HasFailed(s, nodes[j])
  }

  ghost predicate NoneFailed(s: RunState, nodes: seq<nat>) {
    forall j :: 0 <= j < |nodes| ==> !HasFailed(s, nodes[j])
  }

  lemma {:induction false} NodeFailureIs(s: RunState, nodes: seq<nat>)
    ensures NodeFailure(s, nodes).None? <==> NoneFailed(s, nodes)
    ensures forall i: nat :: FirstFailed(s, nodes, i) ==> NodeFailure(s, nodes) == Some(s.results[Task(nodes[i])].e)
  {
    if nodes != [] {
      NodeFailureIs(s, nodes[1..]);
      assert nodes == [nodes[0]] + nodes[1..];
      if HasFailed(s, nodes[0]) {
        forall i: nat | FirstFailed(s, nodes, i) ensures i == 0 {
        }
      } else {
        forall i: nat | FirstFailed(s, nodes, i)
          ensures NodeFailure(s, nodes) == Some(s.results[Task(nodes[i])].e)
        {
          forall j | 0 <= j < i - 1 ensures !HasFailed(s, nodes[1..][j]) {
            assert nodes[j + 1] == nodes[1..][j];
          }
          assert FirstFailed(s, nodes[1..], i - 1);
        }
        if NoneFailed(s, nodes[1..]) {
          forall j | 0 <= j < |nodes| ensures !HasFailed(s, nodes[j]) {
            assert j > 0 ==> nodes[j] == nodes[1..][j - 1];
          }
        } else {
          var j :| 0 <= j < |nodes[1..]| && HasFailed(s, nodes[1..][j]);
          assert HasFailed(s, nodes[j + 1]);
        }
      }
    }
  }

  /** What the finished scenario and the started nodes have to report: the scenario's own error first, then
      that of the node that was started first among those that failed, and nothing only if neither failed. */
  ghost predicate Reports(s: RunState, n: nat, own: seq<Error>)
    requires Task(n) in s.results
  {
    match s.results[Task(n)]
    case Failed(e) => own == [e]
    case Cancelled => own == [CancelledError]
    case Finished =>
      && (NoneFailed(s, s.started) <==> own == [])
      && forall i: nat :: FirstFailed(s, s.started, i) ==> own == [s.results[Task(s.started[i])].e]
  }

  lemma ResultIs(s: RunState, n: nat)
    requires Task(n) in s.results
    ensures Reports(s, n, AsSeq(ResultFailure(s, n)))
  {
    hide NodeFailure;
    NodeFailureIs(s, s.started);
  }

  /** How the run phase failed, if it did: it raised, or user code stopped the loop too early. */
  ghost predicate RunFailed(ran: RunState, end: LoopEnd, main: Future, e: Error) {
    (end.Threw? && e == end.e) || (end.Returned? && main !in ran.results && e == StoppedEarly)
  }

  /** Teardown begins where settling ended, with no after-step check left. */
  ghost predicate After(ready: RunState, late: Option<Error>, settling: (RunState, Option<Error>)) {
    late == settling.1 && ready == settling.0.(hooks := [], tearingDown := true)
  }

  /** Every drive reports, in this order, the failure of its run phase and what settling adds, or else what
      the scenario and its nodes report, and then what teardown adds; and nothing else. Unless something
      has failed by then, teardown begins with the run and its after-step checks as they were. */
  lemma DriveReports(s: RunState, script: Script, wakes: Wakes, maxSteps: Option<nat>, fuel: nat)
    returns (ready: RunState, own: seq<Error>, late: Option<Error>)
    requires !DriveRun(s, script, wakes, maxSteps, fuel).running
    ensures var d := DriveRun(s, script, wakes, maxSteps, fuel);
            var main := Task(s.nextTask);
            var (ran, end) := RunUntilDone(Launched(s, maxSteps), script, main, true, fuel);
            var (torn, left) := CancelEverything(ready, script, wakes, 0);
            && d.s == torn && d.failures == own + AsSeq(late) + AsSeq(left)
            && (forall e :: RunFailed(ran, end, main, e) ==> own == [e] && After(ready, late, Settling(ran, script, wakes, s.nextTask, Some(e))))
            && (end.Returned? && main in ran.results ==>
                  && late.None? && Reports(ran, s.nextTask, own)
                  && ready == ran.(hooks := if own == [] then ran.hooks else [], tearingDown := true, stepsLeft := ready.stepsLeft, stepError := TeardownFailed))
  {
    hide RunUntilDone, CancelEverything, Launched, Drive.Kept, Unwound, SettleMain, RunOneMoreStep, ResultFailure;
    var n := s.nextTask;
    var (ran, end) := RunUntilDone(Launched(s, maxSteps), script, Task(n), true, fuel);
    var failure := RunFailure(ran, end, Task(n));
    var (settled, error) := Settling(ran, script, wakes, n, failure);
    var sofar := AsSeq(failure) + AsSeq(error);
    var result := if sofar == [] then ResultFailure(settled, n) else None;
    var fs := sofar + AsSeq(result);
    ready := Cleared(settled, Drive.Kept(fs)).(tearingDown := true);
    KeptMeans(fs);
    late := error;
    own := if failure.Some? then AsSeq(failure) else AsSeq(result);
    if failure.None? {
      ResultIs(settled, n);
      assert fs == own;
      assert own + AsSeq(late) == own;
    } else {
      assert fs == own + AsSeq(late);
    }
  }

  // ---- settling after a failure -----------------------------------------------------------------------------

  /** A run that failed before its scenario was done: the scenario is cancelled, which puts it on the
      ready queue if it was waiting, and is then run until it is done or that fails too. */
  lemma UnfinishedIsSettled(ran: RunState, script: Script, wakes: Wakes, n: nat, e: Error) returns (from: RunState)
    requires Task(n) !in ran.results
    ensures var (t, late) := Settling(ran, script, wakes, n, Some(e));
            && (late.None? ==> Task(n) in t.results)
            && from == ran.(hooks := [], stepsLeft := Some(TEARDOWN_STEPS), stepError := TeardownFailed, agenda := from.agenda, nextHandle := from.nextHandle)
            && from.agenda == ran.agenda.(ready := ran.agenda.ready + if wakes(ROUNDS, n) then [Soon(ran.nextHandle)] else [])
            && from.nextHandle == ran.nextHandle + (if wakes(ROUNDS, n) then 1 else 0)
            && (t, late) == SettleMain(from, script, Task(n))
  {
    hide SettleMain, RunOneMoreStep;
    var c := Cleared(Limited(ran, 0), Some(e));
    from := if wakes(ROUNDS, n) then DoCallSoon(c) else c;
    SettleBounds(from, script, Task(n));
  }

  /** Settling goes on pass after pass, however often user code stops the loop: it ends with the scenario
      done, or with the error of the pass that raised. */
  lemma {:induction false} SettlesPassByPass(s: RunState, script: Script, main: Future)
    requires s.stepsLeft.Some? && main !in s.results
    ensures var (t, end) := RunUntilDone(s, script, main, false, s.stepsLeft.value + 1);
            && !end.StillRunning?
            && (end.Threw? ==> SettleMain(s, script, main) == (t, Some(end.e)))
            && (end.Returned? && main in t.results ==> SettleMain(s, script, main) == (t, None))
            && (end.Returned? && main !in t.results ==> t.stepsLeft.Some? && t.stepsLeft.value < s.stepsLeft.value && SettleMain(s, script, main) == SettleMain(t, script, main))
  {
    hide RunUntilDone;
    BudgetUntilDone(s, script, main, false, s.stepsLeft.value + 1);
  }

  /** A check that failed in a stop step, after the scenario was done: one more step runs, the clock
      standing still; or the step that was tried raised. */
  lemma FinishedTakesOneStep(ran: RunState, script: Script, wakes: Wakes, n: nat, e: Error)
    requires Task(n) in ran.results && AgendaInv(ran.agenda)
    ensures var (t, late) := Settling(ran, script, wakes, n, Some(e));
            && t.agenda.now == ran.agenda.now && Task(n) in t.results
            && (late.None? ==> |t.log| == |ran.log| + 1 && !t.stopping)
            && (late.Some? ==> t.log == ran.log)
  {
    hide Step, RunForever;
    var c := Cleared(Limited(ran, 0), Some(e));
    var s := c.(watch := Some(Task(n)), stopIn := Some(1), settle := false);
    StepKeepsShape(s, script);
    OneStepOnly(s, script, Allowance(0) + 1);
    var (t, r) := Step(s, script);
    assert StepShape(s, t, r);
  }

  lemma OneStepOnly(s: RunState, script: Script, fuel: nat)
    requires AgendaInv(s.agenda) && s.watch.Some? && s.stopIn == Some(1) && fuel > 0
    ensures var (t, r) := Step(s, script);
            RunForever(s, script, fuel) == (t.(stopping := false), if r.Raised? then Threw(r.e, r.notes) else Returned)
  {
    hide Step;
    StepKeepsShape(s, script);
    var (t, r) := Step(s, script);
    if r.Normal? {
      assert Wrote(s, t);
      assert t.stopping;
    }
  }

  /** The error the cancelled scenario itself ends with is noted on the failure that ended the run, unless
      it is that failure, or an interrupt cut settling short, or the failure takes no notes; in any other
      drive the notes are those of the failures alone. */
  lemma UnwindingIsNoted(s: RunState, script: Script, wakes: Wakes, maxSteps: Option<nat>, fuel: nat, accepts: Error -> bool)
    requires !DriveRun(s, script, wakes, maxSteps, fuel).running
    ensures var d := DriveRun(s, script, wakes, maxSteps, fuel);
            var main := Task(s.nextTask);
            var (ran, end) := RunUntilDone(Launched(s, maxSteps), script, main, true, fuel);
            && (forall p :: p in Notes(d.failures) && accepts(p.0) ==> p in AllNotes(d, accepts))
            && (forall e, x :: Unwinds(ran, end, script, wakes, s.nextTask, e, x) && accepts(e) ==> (e, x) in AllNotes(d, accepts))
            && (forall p :: p in AllNotes(d, accepts) ==>
                  accepts(p.0) && (p in Notes(d.failures) || Unwinds(ran, end, script, wakes, s.nextTask, p.0, p.1)))
  {
    hide RunUntilDone, CancelEverything, Launched, Notes, Settling, ResultFailure, Drive.Kept;
    var n := s.nextTask;
    var (ran, end) := RunUntilDone(Launched(s, maxSteps), script, Task(n), true, fuel);
    var failure := RunFailure(ran, end, Task(n));
    var d := DriveRun(s, script, wakes, maxSteps, fuel);
    var (settled, late) := Settling(ran, script, wakes, n, failure);
    assert d.unwound == Unwound(ran, settled, n, failure, late);
    assert failure.Some? ==> d.failures != [] && d.failures[0] == failure.value;
    forall e, x ensures Unwinds(ran, end, script, wakes, n, e, x) <==> failure == Some(e) && d.unwound == Some(x) {
      FailureIs(ran, end, Task(n), e);
    }
    var us := if d.unwound.Some? && d.failures != [] then {(d.failures[0], d.unwound.value)} else {};
    forall p ensures p in AllNotes(d, accepts) <==> p in Notes(d.failures) + us && accepts(p.0) {
    }
  }

  lemma FailureIs(ran: RunState, end: LoopEnd, main: Future, e: Error)
    requires !end.StillRunning?
    ensures RunFailed(ran, end, main, e) <==> RunFailure(ran, end, main) == Some(e)
  {
  }

  /** The run failed with e before its scenario was done, and the scenario, cancelled, ended with x. */
  ghost predicate Unwinds(ran: RunState, end: LoopEnd, script: Script, wakes: Wakes, n: nat, e: Error, x: Error) {
    && RunFailed(ran, end, Task(n), e) && Task(n) !in ran.results && x != e
    && var (t, late) := Settling(ran, script, wakes, n, Some(e));
    && HasFailed(t, n) && t.results[Task(n)].e == x && (late.Some? ==> !IsInterrupt(late.value))
  }
}
