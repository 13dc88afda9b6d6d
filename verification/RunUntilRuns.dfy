/** `run_until` over whole runs: as long as the checks are not cleared, a call that waits keeps its check
    installed, is looked at exactly once at the end of every step, and is never left past its deadline. */
module RunUntilRuns {
  import opened Common
  import opened Agendas
  import opened LoopModel
  import opened LoopProperties
  import opened VirtualTime
  import opened RunUntil
  import opened RunUntilExits

  /** The active call, unanswered, and the checks have not been cleared since it was made. */
  ghost predicate InForce(s: RunState, id: nat) {
    id < |s.untils| && id == |s.untils| - 1 && s.untilActive && s.untils[id].answer.None? && s.untils[id].era == s.settles
  }

  /** After the look on entry, the i-th look was made at the end of the i-th step completed since. */
  ghost predicate LooksDated(u: UntilCall, log: seq<StepEnd>, settles: nat) {
    && u.since <= |log| && u.era <= settles && 1 <= |u.looks| <= 1 + |log| - u.since
    && forall i :: 1 <= i < |u.looks| ==> u.looks[i].clock == log[u.since + i - 1].clock
  }

  /** Its check is installed, and no step since it was made went by without a look. */
  ghost predicate Attending(s: RunState, id: nat)
    requires id < |s.untils|
  {
    Until(id) in s.hooks && |s.untils[id].looks| == 1 + |s.log| - s.untils[id].since
  }

  ghost predicate Attended(s: RunState) {
    && (forall i :: 0 <= i < |s.untils| ==> LooksDated(s.untils[i], s.log, s.settles))
    && (forall id: nat :: InForce(s, id) ==> Attending(s, id))
    && (forall i: nat :: i < |s.untils| && Until(i) in s.hooks ==> s.untils[i].era == s.settles)
  }

  /** A call in force with a deadline d >= 0, made at T, has the clock before T + d. */
  ghost predicate NotOverdue(s: RunState) {
    forall id: nat :: InForce(s, id) && s.untils[id].deadline.Some? && s.untils[id].deadline.value >= 0.0 ==> s.agenda.now < DueAt(s, id)
  }

  // ---- user operations --------------------------------------------------------------------------------------

  /** Checks only ever join the list, and the calls and the log are as they were. */
  lemma SameAttended(s: RunState, t: RunState)
    requires Attended(s) && t.untils == s.untils && t.untilActive == s.untilActive && t.log == s.log && t.settles == s.settles
    requires t.hooks == s.hooks || t.hooks == s.hooks + [Invariants]
    ensures Attended(t)
  {
    forall id: nat | InForce(t, id) ensures Attending(t, id) {
      assert InForce(s, id);
    }
  }

  lemma EnterAttended(s: RunState, script: Script, d: Option<real>)
    requires Attended(s)
    ensures var id := |s.untils|; var u := CheckUntil(EnterUntil(s, d), script, id).0; Attended(u)
  {
    hide CheckUntil, DoCallAt;
    var id := |s.untils|;
    var t := EnterUntil(s, d);
    assert t.untils[..id] == s.untils && t.hooks == s.hooks + [Until(id)];
    CheckUntilWrites(t, script, id);
    var u := CheckUntil(t, script, id).0;
    forall i | 0 <= i < |u.untils| ensures LooksDated(u.untils[i], u.log, u.settles) {
      if i < id {
        assert u.untils[i] == s.untils[i];
      }
    }
  }

  lemma {:induction false} RemovedFrom(hooks: seq<Hook>, h: Hook, g: Hook)
    requires g in Removed(hooks, h)
    ensures g in hooks
  {
    if hooks[0] != h && g != hooks[0] {
      RemovedFrom(hooks[1..], h, g);
    }
  }

  lemma FreedAttended(s: RunState)
    requires Attended(s)
    ensures Attended(EndUntil(s))
  {
    hide Removed, Without;
    var t := EndUntil(s);
    forall i: nat | i < |t.untils| && Until(i) in t.hooks ensures t.untils[i].era == t.settles {
      if t.hooks != s.hooks {
        RemovedFrom(s.hooks, Until(|s.untils| - 1), Until(i));
      }
    }
  }

  lemma BeginAttended(s: RunState, script: Script, deadline: Option<Num>)
    requires Attended(s)
    ensures Attended(BeginUntil(s, script, deadline))
  {
    hide CheckUntil, EndUntil, Attended, EnterUntil;
    if !(s.untilActive || (deadline.Some? && !deadline.value.Real?)) {
      var d := if deadline.Some? then Some(deadline.value.r) else None;
      EnterAttended(s, script, d);
      FreedAttended(CheckUntil(EnterUntil(s, d), script, |s.untils|).0);
    }
  }

  lemma CancelAttended(s: RunState)
    requires Attended(s)
    ensures Attended(CancelUntil(s))
  {
    var t := CancelUntil(s);
    forall i | 0 <= i < |t.untils| ensures LooksDated(t.untils[i], t.log, t.settles) {
      assert LooksDated(s.untils[i], s.log, s.settles);
    }
  }

  lemma PerformAttended(s: RunState, script: Script, op: Op)
    requires Attended(s)
    ensures Attended(Perform(s, script, op))
  {
    hide BeginUntil, CancelUntil, EndUntil, Attended, Internal, Insert, Without, ToDeadline, After;
    match op
    case OpBeginUntil(deadline) => BeginAttended(s, script, deadline);
    case OpCancelUntil => CancelAttended(s);
    case OpEndUntil => FreedAttended(s);
    case _ => SameAttended(s, Perform(s, script, op));
  }

  lemma {:induction false} PerformAllAttended(s: RunState, script: Script, ops: seq<Op>)
    requires Attended(s)
    ensures Attended(PerformAll(s, script, ops))
    decreases |ops|
  {
    hide Perform, Attended;
    if ops != [] {
      PerformAttended(s, script, ops[0]);
      PerformAllAttended(Perform(s, script, ops[0]), script, ops[1..]);
    }
  }

  lemma {:induction false} RunBatchAttended(s: RunState, script: Script, n: nat)
    requires Attended(s)
    ensures Attended(RunBatch(s, script, n).0)
    decreases n
  {
    hide PerformAll, Attended, Take;
    if n > 0 && s.agenda.ready != [] {
      var t := s.(agenda := Take(s.agenda, true), turn := s.turn + 1);
      SameAttended(s, t);
      SameAttended(s, s.(agenda := Take(s.agenda, false)));
      PerformAllAttended(t, script, script.turns(s.turn).ops);
      RunBatchAttended(RunEntry(s, script).0, script, n - 1);
    }
  }

  // ---- the end of a step ----------------------------------------------------------------------------------------

  /** A call that was in force when the step ended has been looked at; every other is as it was. */
  ghost predicate Passed(s: RunState, t: RunState) {
    && |t.untils| == |s.untils|
    && forall i :: 0 <= i < |s.untils| ==>
         if s.untils[i].answer.None? && i == |s.untils| - 1 && Until(i) in s.hooks then LookedOnce(s.untils[i], t.untils[i], s.agenda.now)
         else t.untils[i] == s.untils[i]
  }

  lemma HooksPassed(s: RunState, script: Script)
    requires Mid(s)
    ensures var p := RunHooks(s, script, s.hooks, None, []); p.broke.None? ==> Passed(s, p.s)
  {
    hide LookedOnce, RunHooks;
    MidParts(s);
    if s.untils != [] {
      EveryPassLooks(s, script, s.hooks, None, [], |s.untils| - 1);
    } else {
      assert forall i :: 0 <= i < |s.hooks| ==> !s.hooks[i].Until?;
      NoUntilHooks(s, script, s.hooks, None, []);
    }
  }

  lemma DatedMore(u: UntilCall, log: seq<StepEnd>, e: StepEnd, settles: nat, more: nat)
    requires LooksDated(u, log, settles) && settles <= more
    ensures LooksDated(u, log + [e], more)
  {
  }

  lemma LookDated(u: UntilCall, v: UntilCall, log: seq<StepEnd>, e: StepEnd, settles: nat, more: nat)
    requires LooksDated(u, log, settles) && settles <= more && LookedOnce(u, v, e.clock) && |u.looks| == 1 + |log| - u.since
    ensures LooksDated(v, log + [e], more) && |v.looks| == 1 + |log + [e]| - v.since
  {
    forall i | 1 <= i < |v.looks| ensures v.looks[i].clock == (log + [e])[v.since + i - 1].clock {
      if i < |u.looks| {
        assert v.looks[i] == v.looks[..|u.looks|][i];
      }
    }
  }

  /** An unanswered call whose check is installed is in force. */
  ghost predicate HooksCurrent(s: RunState) {
    forall i: nat :: i < |s.untils| && Until(i) in s.hooks && s.untils[i].answer.None? ==> InForce(s, i)
  }

  lemma HooksAreCurrent(s: RunState)
    requires OneHook(s) && Attended(s)
    ensures HooksCurrent(s)
  {
    forall i: nat | i < |s.untils| && Until(i) in s.hooks && s.untils[i].answer.None? ensures InForce(s, i) {
      var k :| 0 <= k < |s.hooks| && s.hooks[k] == Until(i);
    }
  }

  lemma EndStepAttended(s: RunState, script: Script)
    requires Mid(s) && Attended(s)
    ensures var (t, r) := EndStep(s, script); r.Normal? ==> Attended(t)
  {
    hide RunHooks, LookedOnce, LooksDated, Mid, CountDown, Attending;
    MidParts(s);
    HooksAreCurrent(s);
    hide HooksCurrent, OneHook;
    var s0 := s.(held := []);
    SameMid(s, s0);
    HooksPassed(s0, script);
    var p := RunHooks(s0, script, s.hooks, None, []);
    var (t, r) := EndStep(s, script);
    if r.Normal? {
      var e := StepEnd(p.s.agenda.now, p.s.stopping, WatchDone(p.s), p.s.held);
      CountDownShape(Logged(p.s));
      assert t.log == s.log + [e] && t.untils == p.s.untils;
      forall i | 0 <= i < |t.untils| ensures LooksDated(t.untils[i], t.log, t.settles) {
        OneCall(s, t, e, i);
      }
      forall id: nat | InForce(t, id) ensures Attending(t, id) {
        OneCall(s, t, e, id);
        ForceBefore(s, t, id);
        assert Attending(t, id) by { AttendingIs(t, id); }
      }
      forall i: nat | i < |t.untils| && Until(i) in t.hooks ensures t.untils[i].era == t.settles {
        SameEra(s, t, i);
      }
    }
  }

  lemma AttendingIs(s: RunState, id: nat)
    requires id < |s.untils| && Until(id) in s.hooks && |s.untils[id].looks| == 1 + |s.log| - s.untils[id].since
    ensures Attending(s, id)
  {
  }

  lemma SameEra(s: RunState, t: RunState, i: nat)
    requires Attended(s) && i < |s.untils| == |t.untils| && Until(i) in t.hooks
    requires (t.hooks == s.hooks && t.settles == s.settles) || t.hooks == []
    requires if s.untils[i].answer.None? && i == |s.untils| - 1 && Until(i) in s.hooks then LookedOnce(s.untils[i], t.untils[i], t.agenda.now)
             else t.untils[i] == s.untils[i]
    ensures t.untils[i].era == t.settles
  {
  }

  /** What one call's record looks like after the step. */
  lemma OneCall(s: RunState, t: RunState, e: StepEnd, i: nat)
    requires Attended(s) && HooksCurrent(s) && i < |s.untils| == |t.untils| && t.log == s.log + [e] && s.settles <= t.settles
    requires if s.untils[i].answer.None? && i == |s.untils| - 1 && Until(i) in s.hooks then LookedOnce(s.untils[i], t.untils[i], e.clock)
             else t.untils[i] == s.untils[i]
    ensures LooksDated(t.untils[i], t.log, t.settles)
    ensures InForce(s, i) ==> |t.untils[i].looks| == 1 + |t.log| - t.untils[i].since
  {
    hide LooksDated, LookedOnce;
    assert LooksDated(s.untils[i], s.log, s.settles);
    if s.untils[i].answer.None? && i == |s.untils| - 1 && Until(i) in s.hooks {
      assert InForce(s, i) && Attending(s, i);
      LookDated(s.untils[i], t.untils[i], s.log, e, s.settles, t.settles);
    } else {
      DatedMore(s.untils[i], s.log, e, s.settles, t.settles);
    }
  }

  /** A call in force after the step was in force before it, and nothing cleared the checks. */
  lemma ForceBefore(s: RunState, t: RunState, id: nat)
    requires Attended(s) && InForce(t, id) && |t.untils| == |s.untils| && t.untilActive == s.untilActive && s.settles <= t.settles
    requires if s.untils[id].answer.None? && id == |s.untils| - 1 && Until(id) in s.hooks then LookedOnce(s.untils[id], t.untils[id], t.agenda.now)
             else t.untils[id] == s.untils[id]
    requires t.settles > s.settles || t.hooks == s.hooks
    ensures InForce(s, id) && Until(id) in t.hooks
  {
    assert LooksDated(s.untils[id], s.log, s.settles);
    assert InForce(s, id) && Attending(s, id);
  }

  /** The call was waiting for an answer, and got it. */
  ghost predicate Answers(s: RunState, t: RunState, i: int) {
    0 <= i < |s.untils| == |t.untils| && s.untils[i].answer.None? && t.untils[i].answer.Some?
  }

  ghost predicate NoneAnswered(s: RunState, t: RunState) {
    forall i :: !Answers(s, t, i)
  }

  /** The waiting task's entry, if a call was answered between s and t. */
  ghost function Wake(s: RunState, t: RunState): seq<Entry<Handle>> {
    if NoneAnswered(s, t) then [] else [Soon(s.nextHandle)]
  }

  lemma HookWakes(s: RunState, script: Script, id: nat)
    requires id < |s.untils|
    ensures var t := RunHook(s, script, Until(id)).0;
            t.agenda.ready == s.agenda.ready + Wake(s, t)
  {
    hide CheckUntil;
    HookAnswers(s, script, id);
    var t := RunHook(s, script, Until(id)).0;
    if Answers(s, t, id) {
      assert !NoneAnswered(s, t);
    } else {
      assert NoneAnswered(s, t);
    }
  }

  lemma {:induction false} NoCallNoWake(s: RunState, script: Script, hooks: seq<Hook>, first: Option<Error>, notes: seq<Error>)
    requires forall i :: 0 <= i < |hooks| ==> !hooks[i].Until?
    ensures RunHooks(s, script, hooks, first, notes).s.agenda.ready == s.agenda.ready
    decreases |hooks|
  {
    hide RunHook;
    if hooks != [] {
      var (t, said) := RunHook(s, script, hooks[0]);
      InvariantsOnly(s, script);
      if !said.Broke? {
        NoCallNoWake(t, script, hooks[1..], if said.Hard? && first.None? then Some(said.e) else first,
                     if said.Soft? || (said.Hard? && first.Some?) then notes + [said.e] else notes);
      }
    }
  }

  /** The task that waits in a call answered during the pass is put on the ready queue, and nobody else. */
  lemma {:induction false} PassWakes(s: RunState, script: Script, hooks: seq<Hook>, first: Option<Error>, notes: seq<Error>)
    requires forall i :: 0 <= i < |hooks| && hooks[i].Until? ==> hooks[i].id == |s.untils| - 1
    requires forall i, j :: 0 <= i < j < |hooks| ==> !(hooks[i].Until? && hooks[j].Until?)
    ensures var t := RunHooks(s, script, hooks, first, notes).s;
            t.agenda.ready == s.agenda.ready + Wake(s, t)
    decreases |hooks|
  {
    hide RunHook, RunHooks, NoneAnswered;
    if hooks == [] {
      NoHooks(s, script, first, notes);
      NoneYet(s, s);
    } else {
      var (t, said) := RunHook(s, script, hooks[0]);
      var f := if said.Hard? && first.None? then Some(said.e) else first;
      var ns := if said.Soft? || (said.Hard? && first.Some?) then notes + [said.e] else notes;
      OneHookOn(s, script, hooks, first, notes);
      if hooks[0].Invariants? {
        InvariantsOnly(s, script);
        NoneYet(s, t);
        if !said.Broke? {
          PassWakes(t, script, hooks[1..], f, ns);
          AnswersOf(s, t, RunHooks(t, script, hooks[1..], f, ns).s);
        }
      } else {
        HookWakes(s, script, hooks[0].id);
        if !said.Broke? {
          assert forall i :: 0 <= i < |hooks[1..]| ==> !hooks[1..][i].Until?;
          NoUntilHooks(t, script, hooks[1..], f, ns);
          NoCallNoWake(t, script, hooks[1..], f, ns);
          SameAnswers(s, t, RunHooks(t, script, hooks[1..], f, ns).s);
        }
      }
    }
  }

  lemma NoHooks(s: RunState, script: Script, first: Option<Error>, notes: seq<Error>)
    ensures RunHooks(s, script, [], first, notes).s == s
  {
  }

  /** A pass is its first hook and then, unless an interrupt escaped, the pass over the others. */
  lemma OneHookOn(s: RunState, script: Script, hooks: seq<Hook>, first: Option<Error>, notes: seq<Error>)
    requires hooks != []
    ensures var (t, said) := RunHook(s, script, hooks[0]);
            RunHooks(s, script, hooks, first, notes).s ==
              if said.Broke? then t
              else RunHooks(t, script, hooks[1..], if said.Hard? && first.None? then Some(said.e) else first,
                            if said.Soft? || (said.Hard? && first.Some?) then notes + [said.e] else notes).s
  {
    hide RunHook;
  }

  lemma NoneYet(s: RunState, t: RunState)
    requires t.untils == s.untils
    ensures NoneAnswered(s, t)
  {
  }

  lemma SameAnswers(s: RunState, t: RunState, u: RunState)
    requires u.untils == t.untils
    ensures NoneAnswered(s, u) <==> NoneAnswered(s, t)
  {
    assert forall i :: Answers(s, u, i) <==> Answers(s, t, i);
  }

  lemma AnswersOf(s: RunState, t: RunState, u: RunState)
    requires s.untils == t.untils
    ensures NoneAnswered(s, u) <==> NoneAnswered(t, u)
  {
    assert forall i :: Answers(s, u, i) <==> Answers(t, u, i);
  }

  lemma HookAnswers(s: RunState, script: Script, id: nat)
    requires id < |s.untils|
    ensures var t := RunHook(s, script, Until(id)).0; t.untils == s.untils[id := t.untils[id]]
  {
    hide RunHook;
    if s.untils[id].answer.None? {
      HookLooks(s, script, id);
    } else {
      AnsweredIsQuiet(s, script, id);
    }
  }

  lemma InvariantsOnly(s: RunState, script: Script)
    ensures var t := RunHook(s, script, Invariants).0; t.untils == s.untils && t.agenda == s.agenda && t.nextHandle == s.nextHandle
  {
    hide CheckInvariants;
  }

  /** A call that is answered at the end of a step leaves a new entry on the ready queue, which is the
      task waiting for it; if none is answered, the queue is as the callbacks of the step left it. */
  lemma AnswerWakes(s: RunState, script: Script)
    requires OneHook(s)
    ensures var t := EndStep(s, script).0;
            t.agenda.ready == s.agenda.ready + Wake(s, t)
  {
    hide RunHooks, NoneAnswered, CountDown;
    var s0 := s.(held := []);
    PassWakes(s0, script, s.hooks, None, []);
    var u := RunHooks(s0, script, s.hooks, None, []).s;
    var t := EndStep(s, script).0;
    CountDownShape(Logged(u));
    assert t.untils == u.untils && t.agenda == u.agenda;
    SameAnswers(s0, u, t);
    AnswersOf(s0, s, t);
  }

  // ---- whole runs ----------------------------------------------------------------------------------------------------

  lemma WorkAttended(s: RunState, script: Script)
    requires Mid(s) && Attended(s)
    ensures var (t, r) := Work(s, script); r.Normal? ==> Attended(t)
  {
    hide RunBatch, EndStep, Mid, Attended;
    RunBatchMid(s, script, |s.agenda.ready|);
    RunBatchAttended(s, script, |s.agenda.ready|);
    EndStepAttended(RunBatch(s, script, |s.agenda.ready|).0, script);
  }

  lemma AdvanceAttended(s: RunState)
    requires AgendaInv(s.agenda) && Between(s) && Attended(s)
    ensures Mid(Advance(s).0) && Attended(Advance(s).0)
  {
    hide AgendaInv, Advance, Mid, Between, Attended;
    AdvanceMid(s);
    SameAttended(s, Advance(s).0);
  }

  lemma StepAttended(s: RunState, script: Script)
    requires AgendaInv(s.agenda) && Between(s) && Attended(s)
    ensures var (t, r) := Step(s, script); r.Normal? ==> Attended(t)
  {
    hide AgendaInv, Advance, Work, Mid, Between, Attended;
    var b := Budgeted(s);
    SameAttended(s, b);
    SameBetween(s, b);
    AdvanceAttended(b);
    WorkAttended(Advance(b).0, script);
  }

  lemma InForceIsAhead(s: RunState)
    requires Between(s) && Attended(s)
    ensures NotOverdue(s)
  {
    forall id: nat | InForce(s, id) && s.untils[id].deadline.Some? && s.untils[id].deadline.value >= 0.0
      ensures s.agenda.now < DueAt(s, id)
    {
      assert Attending(s, id);
      assert Waiting(s, id);
    }
  }

  /** `run_until` over any run of any program, after any number of steps. Every call is answered by its
      first deciding check, the predicate before the deadline, a deadline d >= 0 of a call made at T
      being met with the clock at exactly T + d. A call still in force has its check installed, has been
      looked at on entry and once at the end of each step completed since, at that step's clock, and the
      clock is before its deadline. A call that is over, however it ended, has left no timer behind. */
  lemma {:induction false} RunUntilExact(s: RunState, script: Script, fuel: nat)
    requires AgendaInv(s.agenda) && Between(s) && Attended(s) && Retired(s)
    ensures var (t, end) := RunForever(s, script, fuel);
            RecordsOk(t, |t.untils|) && Retired(t) && (!end.Threw? ==> Between(t) && Attended(t) && NotOverdue(t))
    decreases fuel
  {
    hide AgendaInv, Step, Between, Mid, Attended, RecordsOk, NotOverdue, Retired;
    RunUntilRecords(s, script, fuel);
    OverLeavesNoTimer(s, script, fuel);
    var (t, end) := RunForever(s, script, fuel);
    if end.Threw? {
      MidParts(t);
    } else {
      BetweenIsMid(t);
      MidParts(t);
    }
    if fuel > 0 {
      StepAgenda(s, script);
      StepBetween(s, script);
      StepAttended(s, script);
      var (u, r) := Step(s, script);
      if r.Normal? {
        SameAttended(u, u.(stopping := false));
        SameBetween(u, u.(stopping := false));
        if u.stopping {
          InForceIsAhead(u.(stopping := false));
        } else {
          StepRetires(s, script);
          RunUntilExact(u, script, fuel - 1);
        }
      }
    } else {
      InForceIsAhead(s);
    }
  }

  /** Settling clears the checks, so no earlier call is in force any more. */
  lemma SettleAttended(s: RunState)
    requires Between(s) && Attended(s)
    ensures Between(Settle(s)) && Attended(Settle(s))
  {
    forall i | 0 <= i < |s.untils| ensures LooksDated(s.untils[i], s.log, s.settles + 1) {
      assert LooksDated(s.untils[i], s.log, s.settles);
    }
  }

  /** The same over `run_until_done`, through both of its passes. */
  lemma RunUntilExactToTheEnd(s: RunState, script: Script, f: Future, settle: bool, fuel: nat)
    requires AgendaInv(s.agenda) && Between(s) && Attended(s) && Retired(s)
    ensures var (t, end) := RunUntilDone(s, script, f, settle, fuel);
            RecordsOk(t, |t.untils|) && Retired(t) && (!end.Threw? ==> Between(t) && Attended(t) && NotOverdue(t))
  {
    hide AgendaInv, RunForever, Between, Attended, RecordsOk, NotOverdue, Settle, Retired;
    var s0 := s.(watch := Some(f), stopIn := None, settle := settle);
    SameRetired(s, s0);
    SameBetween(s, s0);
    SameAttended(s, s0);
    RunUntilExact(s0, script, fuel);
    RunForeverAgenda(s0, script, fuel);
    var (t, end) := RunForever(s0, script, fuel);
    if end.Returned? && f in t.results && (t.stopIn == Some(1) || t.stopIn == Some(2)) {
      SettleAttended(t);
      SettleAgenda(t);
      var u := if t.stopIn == Some(2) && settle then Settle(t) else t;
      var v := u.(stopIn := Some(1));
      SameBetween(u, v);
      SameAttended(u, v);
      SettleRetires(t);
      SameRetired(u, v);
      RunUntilExact(v, script, fuel);
      Unwatching(RunForever(v, script, fuel).0);
      SameRetired(RunForever(v, script, fuel).0, Unwatched(RunForever(v, script, fuel).0));
    } else {
      Unwatching(t);
      SameRetired(t, Unwatched(t));
    }
  }

  lemma SettleAgenda(s: RunState)
    ensures Settle(s).agenda == s.agenda
  {
  }

  lemma SettleRetires(s: RunState)
    requires Retired(s)
    ensures Retired(Settle(s))
  {
    SameRetired(s, Settle(s));
  }

  lemma Unwatching(s: RunState)
    ensures RecordsOk(Unwatched(s), |s.untils|) == RecordsOk(s, |s.untils|)
    ensures Between(s) && Attended(s) ==> Between(Unwatched(s)) && Attended(Unwatched(s)) && NotOverdue(Unwatched(s))
  {
    hide RecordsOk, Between, Attended, NotOverdue;
    RecordsSame(s, Unwatched(s));
    if Between(s) && Attended(s) {
      SameBetween(s, Unwatched(s));
      SameAttended(s, Unwatched(s));
      InForceIsAhead(Unwatched(s));
    }
  }
}
