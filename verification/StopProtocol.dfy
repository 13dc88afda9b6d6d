/** How a drive of the loop ends: the two stop steps, the one settle call, and what the after-step
    checks have covered by then, wherever user code calls `loop.stop()`. */
module StopProtocol {
  import opened Common
  import opened Agendas
  import opened LoopModel
  import opened LoopProperties
  import opened VirtualTime

  /** The log entries a run added. */
  ghost function New(s: RunState, t: RunState): seq<StepEnd>
    requires |s.log| <= |t.log|
  {
    t.log[|s.log|..]
  }

  ghost predicate NoneWatched(es: seq<StepEnd>) {
    forall i :: 0 <= i < |es| ==> !es[i].watched
  }

  /** `n` is the finishing step: the first at whose end the watched future is done. */
  ghost predicate Finishing(es: seq<StepEnd>, n: nat) {
    n < |es| && es[n].watched && forall i :: 0 <= i < n ==> !es[i].watched
  }

  /** From the finishing step on the clock does not move. */
  ghost predicate ClockStill(es: seq<StepEnd>, n: nat) {
    forall i :: n <= i < |es| ==> es[i].clock == es[n].clock
  }

  lemma FinishingExtends(es: seq<StepEnd>, more: seq<StepEnd>, n: nat)
    requires Finishing(es, n)
    ensures Finishing(es + more, n) && (es + more)[n] == es[n]
  {
  }

  lemma FinishingShifts(e: StepEnd, es: seq<StepEnd>, n: nat)
    requires Finishing(es, n) && !e.watched
    ensures Finishing([e] + es, n + 1) && ([e] + es)[n + 1] == es[n]
    ensures ClockStill(es, n) ==> ClockStill([e] + es, n + 1)
  {
    assert forall i :: 1 <= i < |[e] + es| ==> ([e] + es)[i] == es[i - 1];
  }

  /** The finishing step is n, and the log stops where its stop steps say it must. */
  ghost predicate EndsAt(s: RunState, t: RunState, es: seq<StepEnd>, n: nat) {
    && Finishing(es, n) && ClockStill(es, n) && es[n].clock == t.agenda.now
    && (if es[n].stopped then |es| == n + 1 && t.stopIn == Some(2) && t.settles == s.settles
        else (|es| == n + 2 && es[n + 1].stopped && t.stopIn == Some(1)) || (|es| == n + 3 && t.stopIn == Some(0)))
    && (!es[n].stopped ==> t.settles == s.settles + (if s.settle then 1 else 0))
  }

  /** The finishing step is n and two steps follow it, or one if `stop` had been called by its end. */
  ghost predicate StopStepsTaken(es: seq<StepEnd>, n: nat, clock: real) {
    && Finishing(es, n) && ClockStill(es, n) && es[n].clock == clock
    && |es| == n + (if es[n].stopped then 2 else 3)
  }

  /** How one pass of `run_forever` over an unfinished future can return: with the future not done
      (user code stopped the loop), or at the end of the finishing step (stopped there), of the first
      stop step (stopped there), or of the second. */
  ghost predicate PassEnd(s: RunState, t: RunState, f: Future) {
    && |s.log| <= |t.log| && t.log[..|s.log|] == s.log
    && t.watch == Some(f) && t.settle == s.settle && !t.stopping
    && var es := New(s, t);
       (if f !in t.results then t.stopIn.None? && NoneWatched(es) && t.settles == s.settles
        else exists n: nat :: EndsAt(s, t, es, n))
  }

  /** Counting down from `k` once the future is done: `k` further steps at most, no settle after the
      first, the clock still. */
  lemma {:induction false} LastSteps(s: RunState, script: Script, k: nat, fuel: nat)
    requires AgendaInv(s.agenda) && s.watch.Some? && s.watch.value in s.results && s.stopIn == Some(k) && 1 <= k <= 2 && !s.stopping
    ensures var (t, end) := RunForever(s, script, fuel);
            && |s.log| <= |t.log| && t.log[..|s.log|] == s.log && t.watch == s.watch && t.settle == s.settle && s.watch.value in t.results
            && t.agenda.now == s.agenda.now
            && (end.Returned? ==>
                  && !t.stopping && t.stopIn.Some?
                  && var es := New(s, t);
                  && (forall i :: 0 <= i < |es| ==> es[i].clock == s.agenda.now)
                  && t.stopIn.value == k - |es| && 1 <= |es| <= k && (|es| < k ==> es[0].stopped)
                  && t.settles == s.settles + (if k == 2 && s.settle then 1 else 0))
    decreases fuel
  {
    hide AgendaInv, Step, Wrote;
    if fuel > 0 {
      StepAgenda(s, script);
      StepKeepsShape(s, script);
      var (t, r) := Step(s, script);
      if r.Normal? {
        WroteMeans(s, t);
        if !t.stopping {
          LastSteps(t, script, k - 1, fuel - 1);
          var u := RunForever(t, script, fuel - 1).0;
          JoinLogs(s, t, u);
        }
      }
    }
  }

  lemma WroteMeans(s: RunState, t: RunState)
    requires Wrote(s, t)
    ensures |t.log| == |s.log| + 1 && t.log[..|s.log|] == s.log && New(s, t) == [t.log[|s.log|]]
    ensures t.log[|s.log|].clock == t.agenda.now && t.log[|s.log|].watched == WatchDone(t)
    ensures t.watch.Some? ==> t.stopIn == if s.stopIn.None? then (if WatchDone(t) then Some(2) else None) else Some(s.stopIn.value - 1)
    ensures t.stopping <==> t.log[|s.log|].stopped || (t.watch.Some? && s.stopIn == Some(1))
    ensures t.settles == s.settles + (if t.watch.Some? && s.stopIn == Some(2) && s.settle then 1 else 0)
  {
  }

  lemma JoinLogs(s: RunState, t: RunState, u: RunState)
    requires |s.log| <= |t.log| <= |u.log| && t.log[..|s.log|] == s.log && u.log[..|t.log|] == t.log
    ensures u.log[..|s.log|] == s.log && New(s, u) == New(s, t) + New(t, u)
  {
    assert u.log[..|s.log|] == u.log[..|t.log|][..|s.log|];
    assert New(s, t) == u.log[..|t.log|][|s.log|..];
  }

  /** One pass of `run_forever` while the watched future is not done yet. */
  lemma {:induction false} WatchedPass(s: RunState, script: Script, f: Future, fuel: nat)
    requires AgendaInv(s.agenda) && s.watch == Some(f) && s.stopIn.None?
    ensures var (t, end) := RunForever(s, script, fuel);
            && AgendaInv(t.agenda)
            && |s.log| <= |t.log| && t.log[..|s.log|] == s.log
            && (end.Returned? ==> PassEnd(s, t, f))
    decreases fuel
  {
    hide AgendaInv, Step, Wrote, PassEnd;
    RunForeverAgenda(s, script, fuel);
    if fuel > 0 {
      StepAgenda(s, script);
      StepKeepsShape(s, script);
      var (t, r) := Step(s, script);
      if r.Normal? {
        WroteMeans(s, t);
        if t.stopping {
          OneStepPass(s, t, f);
        } else {
          var (u, end) := RunForever(t, script, fuel - 1);
          if f in t.results {
            LastSteps(t, script, 2, fuel - 1);
            JoinLogs(s, t, u);
            if end.Returned? {
              FinishedPass(s, t, u, f);
            }
          } else {
            WatchedPass(t, script, f, fuel - 1);
            JoinLogs(s, t, u);
            if end.Returned? {
              LaterPass(s, t, u, f);
            }
          }
        }
      }
    }
  }

  lemma OneStepPass(s: RunState, t: RunState, f: Future)
    requires Wrote(s, t) && t.watch == Some(f) && s.stopIn.None? && t.settle == s.settle && t.stopping
    ensures PassEnd(s, t.(stopping := false), f)
  {
    var u := t.(stopping := false);
    WroteMeans(s, t);
    assert New(s, u) == New(s, t);
    if f in t.results {
      assert New(s, u)[0] == t.log[|s.log|];
      assert EndsAt(s, u, New(s, u), 0);
    }
  }

  lemma FinishedPass(s: RunState, t: RunState, u: RunState, f: Future)
    requires Wrote(s, t) && t.watch == Some(f) && s.stopIn.None? && t.settle == s.settle && !t.stopping && f in t.results
    requires |t.log| <= |u.log| && u.log[..|t.log|] == t.log && u.log[..|s.log|] == s.log && New(s, u) == New(s, t) + New(t, u)
    requires u.watch == t.watch && u.settle == t.settle && f in u.results && u.agenda.now == t.agenda.now && !u.stopping && u.stopIn.Some?
    requires forall i :: 0 <= i < |New(t, u)| ==> New(t, u)[i].clock == t.agenda.now
    requires u.stopIn.value == 2 - |New(t, u)| && 1 <= |New(t, u)| <= 2 && (|New(t, u)| < 2 ==> New(t, u)[0].stopped)
    requires u.settles == t.settles + (if t.settle then 1 else 0)
    ensures PassEnd(s, u, f)
  {
    WroteMeans(s, t);
    var es := New(s, u);
    assert es[0] == t.log[|s.log|];
    assert forall i :: 1 <= i < |es| ==> es[i] == New(t, u)[i - 1];
    assert EndsAt(s, u, es, 0);
  }

  lemma LaterPass(s: RunState, t: RunState, u: RunState, f: Future)
    requires Wrote(s, t) && t.watch == Some(f) && s.stopIn.None? && t.settle == s.settle && f !in t.results
    requires |t.log| <= |u.log| && u.log[..|t.log|] == t.log && u.log[..|s.log|] == s.log && New(s, u) == New(s, t) + New(t, u)
    requires PassEnd(t, u, f)
    ensures PassEnd(s, u, f)
  {
    WroteMeans(s, t);
    var es, rest := New(s, u), New(t, u);
    var e := t.log[|s.log|];
    assert es == [e] + rest;
    if f in u.results {
      var n: nat :| EndsAt(t, u, rest, n);
      FinishingShifts(e, rest, n);
      assert |es| == |rest| + 1 && (n + 1 < |rest| ==> es[n + 2] == rest[n + 1]);
      assert EndsAt(s, u, es, n + 1);
    }
  }

  /** `run_until_done` returning with its future done, wherever user code called `stop`: settle ran
      exactly once; two steps followed the finishing step, or one if `stop` had been called by its
      end; the clock stood still in them; and nothing is left being watched. If it returns with the
      future not done, it never settled. */
  lemma StopSteps(s: RunState, script: Script, f: Future, settle: bool, fuel: nat)
    requires AgendaInv(s.agenda)
    requires RunUntilDone(s, script, f, settle, fuel).1.Returned?
    ensures var t := RunUntilDone(s, script, f, settle, fuel).0;
            && |s.log| <= |t.log| && t.log[..|s.log|] == s.log
            && t.watch.None? && t.stopIn.None? && !t.settle && !t.stopping
            && (if f in t.results then
                  t.settles == s.settles + (if settle then 1 else 0) &&
                  exists n: nat :: StopStepsTaken(New(s, t), n, t.agenda.now)
                else t.settles == s.settles && NoneWatched(New(s, t)))
  {
    hide AgendaInv, RunForever;
    var s0 := s.(watch := Some(f), stopIn := None, settle := settle);
    WatchedPass(s0, script, f, fuel);
    var (t, end) := RunForever(s0, script, fuel);
    assert PassEnd(s0, t, f) by {
      assert end.Returned?;
    }
    if f in t.results && (t.stopIn == Some(1) || t.stopIn == Some(2)) {
      var u := (if t.stopIn == Some(2) && settle then Settle(t) else t).(stopIn := Some(1));
      LastSteps(u, script, 1, fuel);
      var v := RunForever(u, script, fuel).0;
      JoinLogs(s0, u, v);
      ExtraStep(s0, t, u, v, f);
      assert New(s, Unwatched(v)) == New(s0, v);
    } else if f in t.results {
      var n: nat :| EndsAt(s0, t, New(s0, t), n);
      assert New(s, Unwatched(t)) == New(s0, t);
      assert StopStepsTaken(New(s0, t), n, t.agenda.now);
    }
  }

  lemma ExtraStep(s: RunState, t: RunState, u: RunState, v: RunState, f: Future)
    requires PassEnd(s, t, f) && f in t.results && (t.stopIn == Some(1) || t.stopIn == Some(2))
    requires u.log == t.log && u.agenda == t.agenda
    requires |s.log| <= |v.log| && |u.log| <= |v.log| && New(s, v) == New(s, u) + New(u, v) && |New(u, v)| == 1
    requires New(u, v)[0].clock == u.agenda.now && v.agenda.now == u.agenda.now
    ensures exists n: nat :: StopStepsTaken(New(s, v), n, v.agenda.now)
  {
    var es, fs := New(s, t), New(s, v);
    assert fs == es + New(u, v);
    var n: nat :| EndsAt(s, t, es, n);
    FinishingExtends(es, New(u, v), n);
    assert forall i :: n <= i < |es| ==> fs[i] == es[i];
    assert StopStepsTaken(fs, n, v.agenda.now);
  }

  /** No stop step can report a deadlock: a run that does was still before its finishing step. */
  lemma {:induction false} NoDeadlockOnceDone(s: RunState, script: Script, fuel: nat)
    requires AgendaInv(s.agenda) && s.watch.Some? && s.stepError != Deadlock
    requires s.stopIn.Some? ==> s.stopIn.value >= 1 && !s.stopping
    requires s.stopIn.None? ==> !WatchDone(s)
    ensures var (t, end) := RunForever(s, script, fuel);
            |s.log| <= |t.log| && (end.Threw? && end.e == Deadlock ==> s.stopIn.None? && NoneWatched(New(s, t)))
    decreases fuel
  {
    hide AgendaInv, Step, Wrote;
    if fuel > 0 {
      StepAgenda(s, script);
      StepKeepsShape(s, script);
      var (t, r) := Step(s, script);
      if r.Normal? {
        WroteMeans(s, t);
        if !t.stopping {
          NoDeadlockOnceDone(t, script, fuel - 1);
          var u := RunForever(t, script, fuel - 1).0;
          RunForeverLog(t, script, fuel - 1);
          JoinLogs(s, t, u);
        }
      } else if r.e == Deadlock {
        DeadlockNotStopStep(s, script);
      }
    }
  }

  lemma DeadlockNotStopStep(s: RunState, script: Script)
    requires AgendaInv(s.agenda) && s.stepError != Deadlock && Step(s, script).1.Raised? && Step(s, script).1.e == Deadlock
    ensures s.stopIn.None?
  {
    hide Advance, Work, StepShape, Wrote, AgendaInv;
    var b := Budgeted(s);
    AdvanceShape(b);
    WorkShape(Advance(b).0, script);
  }

  lemma {:induction false} RunForeverLog(s: RunState, script: Script, fuel: nat)
    requires AgendaInv(s.agenda)
    ensures var t := RunForever(s, script, fuel).0; |s.log| <= |t.log| && t.log[..|s.log|] == s.log
    decreases fuel
  {
    hide AgendaInv, Step, Wrote;
    if fuel > 0 {
      StepAgenda(s, script);
      StepKeepsShape(s, script);
      var (t, r) := Step(s, script);
      if r.Normal? {
        WroteMeans(s, t);
        if !t.stopping {
          RunForeverLog(t, script, fuel - 1);
          JoinLogs(s, t, RunForever(t, script, fuel - 1).0);
        }
      }
    }
  }

  /** `run_until_done` can only report a deadlock from before the finishing step. */
  lemma DeadlockOnlyBefore(s: RunState, script: Script, f: Future, settle: bool, fuel: nat)
    requires AgendaInv(s.agenda) && s.stepError != Deadlock && f !in s.results
    ensures var (t, end) := RunUntilDone(s, script, f, settle, fuel);
            |s.log| <= |t.log| && (end.Threw? && end.e == Deadlock ==> NoneWatched(New(s, t)))
  {
    hide AgendaInv, RunForever;
    var s0 := s.(watch := Some(f), stopIn := None, settle := settle);
    NoDeadlockOnceDone(s0, script, fuel);
    WatchedPass(s0, script, f, fuel);
    var (t, end) := RunForever(s0, script, fuel);
    assert end.Threw? ==> New(s, Unwatched(t)) == New(s0, t);
    if end.Returned? && f in t.results && (t.stopIn == Some(1) || t.stopIn == Some(2)) {
      var u := (if t.stopIn == Some(2) && settle then Settle(t) else t).(stopIn := Some(1));
      assert PassEnd(s0, t, f);
      RunForeverError(s0, script, fuel);
      NoDeadlockOnceDone(u, script, fuel);
    }
  }

  lemma {:induction false} RunForeverError(s: RunState, script: Script, fuel: nat)
    requires AgendaInv(s.agenda)
    ensures RunForever(s, script, fuel).0.stepError == s.stepError
    decreases fuel
  {
    hide AgendaInv, Step, Wrote;
    if fuel > 0 {
      StepAgenda(s, script);
      StepKeepsShape(s, script);
      RunForeverError(Step(s, script).0, script, fuel - 1);
    }
  }
}
