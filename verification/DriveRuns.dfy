/** Exact virtual time and the `run_until` records over a whole drive: the run, settling, and every round
    of teardown, whatever fails on the way. */
module DriveRuns {
  import opened Common
  import opened Agendas
  import opened LoopModel
  import opened VirtualTime
  import opened RunUntil
  import opened RunUntilExits
  import opened Callbacks
  import opened Teardown
  import opened Drive

  /** Between steps of a drive. */
  ghost predicate Going(s: RunState) { AgendaInv(s.agenda) && Between(s) && Tidy(s) }

  /** No callback is lost or repeated, and no `run_until` that is over left a timer. */
  ghost predicate Tidy(s: RunState) { Accounted(s) && Retired(s) }

  /** Where a step that raised left it. */
  ghost predicate Broken(s: RunState) { AgendaInv(s.agenda) && Mid(s) && Tidy(s) }

  ghost predicate Left(s: RunState, threw: bool) { if threw then Broken(s) else Going(s) }

  /** Nothing the theorems speak of has changed. */
  ghost predicate SameButBooks(s: RunState, t: RunState) {
    && t.untils == s.untils && t.untilActive == s.untilActive && t.hooks == s.hooks && t.agenda == s.agenda
    && t.nextHandle == s.nextHandle && t.cancelled == s.cancelled
  }

  lemma TidySame(s: RunState, t: RunState)
    requires Tidy(s) && t.agenda == s.agenda && t.nextHandle == s.nextHandle && t.cancelled == s.cancelled
    requires t.untils == s.untils && t.untilActive == s.untilActive
    ensures Tidy(t)
  {
    hide Ledger, Retired;
    SameRetired(s, t);
  }

  lemma GoingSame(s: RunState, t: RunState)
    requires Going(s) && SameButBooks(s, t)
    ensures Going(t)
  {
    hide AgendaInv, Between, Tidy;
    SameBetween(s, t);
    TidySame(s, t);
  }

  lemma BrokenSame(s: RunState, t: RunState)
    requires Broken(s) && SameButBooks(s, t)
    ensures Broken(t)
  {
    hide AgendaInv, Mid, Tidy;
    SameMid(s, t);
    TidySame(s, t);
  }

  /** With the checks cleared nothing waits on them. */
  lemma ClearedGoes(s: RunState)
    requires Broken(s)
    ensures Going(s.(hooks := []))
  {
    hide Tidy;
    TidySame(s, s.(hooks := []));
  }

  lemma GoingIsBroken(s: RunState)
    requires Going(s)
    ensures Broken(s)
  {
    hide Tidy;
    BetweenIsMid(s);
  }

  lemma CallSoonGoes(s: RunState)
    requires Going(s)
    ensures Going(DoCallSoon(s))
  {
    CallSoonInv(s.agenda, s.nextHandle);
    CallSoonTidy(s);
    hide AgendaInv, Tidy;
    var t := DoCallSoon(s);
    forall id: nat | Waiting(t, id) ensures t.agenda.now < DueAt(t, id) && TimerSet(t, id) {
      assert Waiting(s, id) && TimerSet(s, id);
      var timer :| timer in s.agenda.timers && s.untils[id].timer == Some(timer.what) && timer.setAt == s.untils[id].calledAt &&
                   timer.when == At(s.untils[id].calledAt + s.untils[id].deadline.value);
      assert timer in t.agenda.timers;
    }
  }

  lemma CallSoonTidy(s: RunState)
    requires Tidy(s)
    ensures Tidy(DoCallSoon(s))
  {
    hide Accounted, Retired;
    CallSoonAccounted(s);
    StaysRetired(s, DoCallSoon(s));
  }

  lemma {:induction false} CancelAllGoes(s: RunState, wakes: Wakes, round: nat, tasks: seq<nat>)
    requires Going(s)
    ensures Going(CancelAll(s, wakes, round, tasks))
    decreases |tasks|
  {
    hide Going, DoCallSoon;
    if tasks != [] {
      CallSoonGoes(s);
      CancelAllGoes(if wakes(round, tasks[0]) then DoCallSoon(s) else s, wakes, round, tasks[1..]);
    }
  }

  // ---- passes of the loop --------------------------------------------------------------------------------------

  lemma ForeverLeft(s: RunState, script: Script, fuel: nat)
    requires Going(s)
    ensures var (t, end) := RunForever(s, script, fuel); Left(t, end.Threw?)
  {
    hide AgendaInv, Between, Mid, RunForever, Accounted, Retired;
    RunForeverAgenda(s, script, fuel);
    RunUntilRecords(s, script, fuel);
    NothingLostOrRepeated(s, script, fuel);
    OverLeavesNoTimer(s, script, fuel);
  }

  lemma LeftSame(s: RunState, t: RunState, threw: bool)
    requires Left(s, threw) && SameButBooks(s, t)
    ensures Left(t, threw)
  {
    hide Going, Broken;
    if threw { BrokenSame(s, t); } else { GoingSame(s, t); }
  }

  lemma UntilDoneLeft(s: RunState, script: Script, f: Future, settle: bool, fuel: nat)
    requires Going(s)
    ensures var (t, end) := RunUntilDone(s, script, f, settle, fuel); Left(t, end.Threw?)
  {
    hide Going, Broken, RunForever, Left;
    var s0 := s.(watch := Some(f), stopIn := None, settle := settle);
    GoingSame(s, s0);
    ForeverLeft(s0, script, fuel);
    var (t, end) := RunForever(s0, script, fuel);
    if end.Returned? && f in t.results && (t.stopIn == Some(1) || t.stopIn == Some(2)) {
      assert Going(t) by { LeftGoing(t); }
      SettleGoes(t);
      var u := if t.stopIn == Some(2) && settle then Settle(t) else t;
      GoingSame(u, u.(stopIn := Some(1)));
      ForeverLeft(u.(stopIn := Some(1)), script, fuel);
      var (v, last) := RunForever(u.(stopIn := Some(1)), script, fuel);
      LeftSame(v, Unwatched(v), last.Threw?);
    } else {
      LeftSame(t, Unwatched(t), end.Threw?);
    }
  }

  lemma LeftGoing(s: RunState)
    requires Left(s, false)
    ensures Going(s)
  {
  }

  lemma SettleGoes(s: RunState)
    requires Going(s)
    ensures Going(Settle(s))
  {
    hide Going, Broken;
    GoingIsBroken(s);
    ClearedGoes(s);
    GoingSame(s.(hooks := []), Settle(s));
  }

  lemma OneMoreLeft(s: RunState, script: Script, f: Future, fuel: nat)
    requires Going(s)
    ensures var (t, end) := RunOneMoreStep(s, script, f, fuel); Left(t, end.Threw?)
  {
    hide Going, Broken, RunForever, Left;
    var s0 := s.(watch := Some(f), stopIn := Some(1), settle := false);
    GoingSame(s, s0);
    ForeverLeft(s0, script, fuel);
    var (t, end) := RunForever(s0, script, fuel);
    LeftSame(t, Unwatched(t), end.Threw?);
  }

  // ---- settling and teardown -----------------------------------------------------------------------------------

  lemma {:induction false} SettleMainLeft(s: RunState, script: Script, main: Future)
    requires Going(s) && s.stepsLeft.Some?
    ensures var (t, e) := SettleMain(s, script, main); Left(t, e.Some?)
    decreases s.stepsLeft.value
  {
    hide Going, Broken, RunUntilDone;
    if main !in s.results {
      BudgetUntilDone(s, script, main, false, s.stepsLeft.value + 1);
      UntilDoneLeft(s, script, main, false, s.stepsLeft.value + 1);
      var (t, end) := RunUntilDone(s, script, main, false, s.stepsLeft.value + 1);
      if !end.Threw? {
        SettleMainLeft(t, script, main);
      }
    }
  }

  lemma ClearingGoes(s: RunState, failure: Option<Error>)
    requires Left(s, failure.Some?)
    ensures Going(Cleared(s, failure))
  {
    hide Going, Broken;
    if failure.Some? {
      ClearedGoes(s);
    }
  }

  lemma SettlingLeft(s: RunState, script: Script, wakes: Wakes, n: nat, failure: Option<Error>)
    requires Left(s, failure.Some?)
    ensures var (t, late) := Settling(s, script, wakes, n, failure); Left(t, late.Some?)
  {
    hide Going, Broken, SettleMain, RunOneMoreStep, DoCallSoon;
    LeftSame(s, Limited(s, 0), failure.Some?);
    ClearingGoes(Limited(s, 0), failure);
    var c := Cleared(Limited(s, 0), failure);
    if Task(n) !in c.results {
      CallSoonGoes(c);
      var w := if wakes(ROUNDS, n) then DoCallSoon(c) else c;
      assert w.stepsLeft.Some? by { KeepsBudget(c); }
      SettleMainLeft(w, script, Task(n));
    } else if failure.Some? {
      OneMoreLeft(c, script, Task(n), Allowance(0) + 1);
    }
  }

  lemma KeepsBudget(s: RunState)
    ensures DoCallSoon(s).stepsLeft == s.stepsLeft
  {
  }

  lemma {:induction false} RunGroupBroken(s: RunState, script: Script, f: Future)
    requires Going(s) && s.stepsLeft.Some?
    ensures var (t, e) := RunGroup(s, script, f); Broken(t) && (e.None? ==> Going(t))
    decreases s.stepsLeft.value
  {
    hide Going, Broken, RunForever;
    GoingIsBroken(s);
    if f !in s.results {
      BudgetBounds(s, script, s.stepsLeft.value + 1);
      ForeverLeft(s, script, s.stepsLeft.value + 1);
      var (t, end) := RunForever(s, script, s.stepsLeft.value + 1);
      if !end.Threw? {
        GoingIsBroken(t);
        if f !in t.results {
          RunGroupBroken(t, script, f);
        }
      }
    }
  }

  lemma {:induction false} CancelEverythingBroken(s: RunState, script: Script, wakes: Wakes, round: nat)
    requires Going(s)
    ensures Broken(CancelEverything(s, script, wakes, round).0)
    decreases ROUNDS - round
  {
    hide Going, Broken, RunGroup, CancelAll, PendingFrom;
    GoingIsBroken(s);
    if round < ROUNDS && Teardown.Pending(s) != [] {
      CancelAllGoes(s, wakes, round, Teardown.Pending(s));
      GoingSame(CancelAll(s, wakes, round, Teardown.Pending(s)), RoundStart(s, wakes, round));
      RunGroupBroken(RoundStart(s, wakes, round), script, Group(round));
      var (t, e) := RunGroup(RoundStart(s, wakes, round), script, Group(round));
      if e.None? {
        CancelEverythingBroken(t, script, wakes, round + 1);
      }
    }
  }

  lemma LeftIsBroken(s: RunState, threw: bool)
    requires Left(s, threw)
    ensures Broken(s)
  {
    if !threw { GoingIsBroken(s); }
  }

  /** From the end of the run phase to the end of the drive. */
  lemma EndRunBroken(ran: RunState, script: Script, wakes: Wakes, n: nat, failure: Option<Error>)
    requires Left(ran, failure.Some?)
    ensures Broken(EndRun(ran, script, wakes, n, failure).s)
  {
    hide Going, Broken, Left, Settling, CancelEverything, ResultFailure, Kept, Unwound;
    SettlingLeft(ran, script, wakes, n, failure);
    var (settled, late) := Settling(ran, script, wakes, n, failure);
    var sofar := AsSeq(failure) + AsSeq(late);
    var fs := sofar + AsSeq(if sofar == [] then ResultFailure(settled, n) else None);
    AfterSettling(settled, late, fs);
    CancelEverythingBroken(Cleared(settled, Kept(fs)).(tearingDown := true), script, wakes, 0);
  }

  lemma AfterSettling(settled: RunState, late: Option<Error>, fs: seq<Error>)
    requires Left(settled, late.Some?) && (late.Some? ==> fs != [])
    ensures Going(Cleared(settled, Kept(fs)).(tearingDown := true))
  {
    hide Going, Broken;
    KeptMeans(fs);
    if Kept(fs).Some? {
      LeftIsBroken(settled, late.Some?);
      ClearedGoes(settled);
    }
    GoingSame(Cleared(settled, Kept(fs)), Cleared(settled, Kept(fs)).(tearingDown := true));
  }

  lemma DriveBroken(s: RunState, script: Script, wakes: Wakes, maxSteps: Option<nat>, fuel: nat)
    requires Going(Launched(s, maxSteps))
    ensures Broken(DriveRun(s, script, wakes, maxSteps, fuel).s)
  {
    hide Going, Broken, Left, RunUntilDone, EndRun, Launched;
    var n := s.nextTask;
    UntilDoneLeft(Launched(s, maxSteps), script, Task(n), true, fuel);
    var (ran, end) := RunUntilDone(Launched(s, maxSteps), script, Task(n), true, fuel);
    LeftIsBroken(ran, end.Threw?);
    if !end.StillRunning? {
      assert Left(ran, RunFailure(ran, end, Task(n)).Some?) by {
        if !end.Threw? && RunFailure(ran, end, Task(n)).Some? {
          StoppedLeft(ran);
        }
      }
      EndRunBroken(ran, script, wakes, n, RunFailure(ran, end, Task(n)));
    }
  }

  lemma StoppedLeft(s: RunState)
    requires Broken(s)
    ensures Left(s, true)
  {
  }

  /** A whole drive, whatever fails and whatever it takes: every timer that fired did so at exactly its
      moment and in order, none that is live has been passed, every `run_until` was answered by its first
      deciding check, on time, and left no timer once it was over, and no callback was lost or repeated. */
  lemma DriveExact(s: RunState, script: Script, wakes: Wakes, maxSteps: Option<nat>, fuel: nat)
    requires Going(Launched(s, maxSteps))
    ensures var t := DriveRun(s, script, wakes, maxSteps, fuel).s;
            FiredOnTime(t.agenda) && NonePassed(t.agenda) && FiredInOrder(t.agenda) && RecordsOk(t, |t.untils|) && Retired(t) && Accounted(t)
  {
    hide AgendaInv, Mid, Going, DriveRun, RecordsOk, FiredOnTime, NonePassed, FiredInOrder, Retired, Accounted;
    DriveBroken(s, script, wakes, maxSteps, fuel);
    var t := DriveRun(s, script, wakes, maxSteps, fuel).s;
    AgendaMeans(t.agenda);
    MidParts(t);
  }
}
