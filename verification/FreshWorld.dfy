/** The theorems about runs, for a run of a world that has just been made: none of their hypotheses is
    about how the world came to be as it is. */
module FreshWorld {
  import opened Common
  import opened Agendas
  import opened LoopModel
  import opened VirtualTime
  import opened StopProtocol
  import opened Coverage
  import opened RunUntil
  import opened RunUntilExits
  import opened RunUntilRuns
  import opened Callbacks
  import opened Teardown
  import opened Drive
  import opened DriveRuns

  lemma EmptyAgenda()
    ensures AgendaInv(NewRun.agenda)
  {
    assert Line(NewRun.agenda) == [];
  }

  lemma NewAgenda(maxSteps: Option<nat>)
    ensures AgendaInv(Launched(NewRun, maxSteps).agenda)
  {
    EmptyAgenda();
    hide AgendaInv;
    CallSoonInv(NewRun.agenda, NewRun.nextHandle);
  }

  lemma NewLedger(maxSteps: Option<nat>)
    ensures Accounted(Launched(NewRun, maxSteps))
  {
    NewAccounted();
    hide Accounted;
    CallSoonAccounted(NewRun);
    SameLedger(NewRun, maxSteps);
  }

  lemma SameLedger(s: RunState, maxSteps: Option<nat>)
    requires Accounted(DoCallSoon(s))
    ensures Accounted(Launched(s, maxSteps))
  {
    hide Ledger;
  }

  /** A new world, its scenario launched, meets every hypothesis of the theorems about runs. */
  lemma NewHolds(maxSteps: Option<nat>)
    ensures var s := Launched(NewRun, maxSteps);
            AgendaInv(s.agenda) && Between(s) && Attended(s) && Retired(s) && Accounted(s) && Installed(s) && Dated(s) && s.stepError != Deadlock &&
            Task(NewRun.nextTask) !in s.results
  {
    hide AgendaInv, AnsweredByFirst, TimedExactly, Accounted;
    NewAgenda(maxSteps);
    NewLedger(maxSteps);
  }

  /** A scenario driven from the start, with any step limit: if its run phase ends with the scenario
      done, the stop protocol was kept and every predicate was checked from its registration on; and
      a deadlock it reports is from before the scenario was done. */
  lemma FreshRun(script: Script, maxSteps: Option<nat>, fuel: nat)
    ensures var s := Launched(NewRun, maxSteps); var (t, end) := RunUntilDone(s, script, Task(NewRun.nextTask), true, fuel);
            && |s.log| <= |t.log|
            && (end.Threw? && end.e == Deadlock ==> NoneWatched(New(s, t)))
            && (end.Returned? && Task(NewRun.nextTask) in t.results ==>
                  t.settles == s.settles + 1 && t.watch.None? &&
                  exists n: nat :: StopStepsTaken(New(s, t), n, t.agenda.now) &&
                                   Covers(t, |s.log|, |s.log| + n + (if New(s, t)[n].stopped then 1 else 2)))
  {
    hide RunUntilDone, Between, AgendaInv, Installed, Dated, Launched, StopStepsTaken, NoneWatched, Covers, Retired, Accounted;
    var s := Launched(NewRun, maxSteps);
    NewHolds(maxSteps);
    DeadlockOnlyBefore(s, script, Task(NewRun.nextTask), true, fuel);
    var (t, end) := RunUntilDone(s, script, Task(NewRun.nextTask), true, fuel);
    if end.Returned? && Task(NewRun.nextTask) in t.results {
      StopSteps(s, script, Task(NewRun.nextTask), true, fuel);
      InvariantCoverage(s, script, Task(NewRun.nextTask), fuel);
    }
  }

  /** Its `run_until` calls, over the whole run phase. */
  lemma FreshRunUntil(script: Script, maxSteps: Option<nat>, fuel: nat)
    ensures var (t, end) := RunUntilDone(Launched(NewRun, maxSteps), script, Task(NewRun.nextTask), true, fuel);
            RecordsOk(t, |t.untils|) && Retired(t) && (!end.Threw? ==> Attended(t) && NotOverdue(t))
  {
    hide RunUntilDone, Between, Attended, NotOverdue, RecordsOk, AgendaInv, Installed, Dated, Launched, Retired, Accounted;
    NewHolds(maxSteps);
    RunUntilExactToTheEnd(Launched(NewRun, maxSteps), script, Task(NewRun.nextTask), true, fuel);
  }

  /** Its timers, callbacks and `run_until` calls, over the whole drive, settling and teardown included. */
  lemma FreshDrive(script: Script, wakes: Wakes, maxSteps: Option<nat>, fuel: nat)
    ensures var t := DriveRun(NewRun, script, wakes, maxSteps, fuel).s;
            FiredOnTime(t.agenda) && NonePassed(t.agenda) && FiredInOrder(t.agenda) && RecordsOk(t, |t.untils|) && Retired(t) && Accounted(t)
  {
    hide DriveRun, Between, RecordsOk, AgendaInv, Installed, Dated, Launched, Attended, FiredOnTime, NonePassed, FiredInOrder, Retired, Accounted;
    NewHolds(maxSteps);
    DriveExact(NewRun, script, wakes, maxSteps, fuel);
  }
}
