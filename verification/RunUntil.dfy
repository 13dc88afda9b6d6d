/** `run_until` over whole runs: when it is answered, by what, and what it leaves behind. */
module RunUntil {
  import opened Common
  import opened Agendas
  import opened LoopModel
  import opened LoopProperties
  import opened VirtualTime

  /** A check that settles nothing: the predicate is false and the deadline has not come, or the
      evaluation was cut short by an interrupt. */
  ghost predicate Undecided(u: UntilCall, look: Look) {
    look.verdict.Breaks? || (look.verdict.Fails? && !Elapsed(u, look.clock))
  }

  ghost predicate AllUndecided(u: UntilCall, n: int)
    requires 0 <= n <= |u.looks|
  {
    forall i :: 0 <= i < n ==> Undecided(u, u.looks[i])
  }

  /** The first check was made on entry; the call is answered by the first check that decides, the
      predicate being asked before the deadline, and says what that check found, when it found it. */
  ghost predicate AnsweredByFirst(u: UntilCall) {
    && u.looks != [] && u.looks[0].clock == u.calledAt
    && var last := |u.looks| - 1;
    && AllUndecided(u, last)
    && match u.answer
       case None => Undecided(u, u.looks[last])
       case Some(Abandoned) => Undecided(u, u.looks[last])
       case Some(Held(c)) => u.looks[last] == Look(c, Holds)
       case Some(TimedOut(c)) => u.looks[last] == Look(c, Fails) && Elapsed(u, c)
       case Some(PredicateRaised(k, c)) => u.looks[last] == Look(c, Raises(k))
  }

  /** A deadline that was not already past when the call was made is met to the instant. */
  ghost predicate TimedExactly(u: UntilCall) {
    u.answer.Some? && u.answer.value.TimedOut? && u.deadline.Some? && u.deadline.value >= 0.0 ==>
      u.answer.value.clock == u.calledAt + u.deadline.value
  }

  ghost predicate RecordsOk(s: RunState, n: nat) {
    n <= |s.untils| && forall i :: 0 <= i < n ==> AnsweredByFirst(s.untils[i]) && TimedExactly(s.untils[i])
  }

  /** At most one `run_until` hook is installed: the active call's. */
  ghost predicate OneHook(s: RunState) {
    && (forall i :: 0 <= i < |s.hooks| && s.hooks[i].Until? ==> s.untilActive && s.hooks[i].id == |s.untils| - 1)
    && (forall i, j :: 0 <= i < j < |s.hooks| ==> !(s.hooks[i].Until? && s.hooks[j].Until?))
  }

  ghost predicate Waiting(s: RunState, id: nat) {
    id < |s.untils| && Until(id) in s.hooks && s.untils[id].answer.None? &&
    s.untils[id].deadline.Some? && s.untils[id].deadline.value >= 0.0
  }

  /** The waiting call's own timer is still in the agenda, set for its deadline. */
  ghost predicate TimerSet(s: RunState, id: nat)
    requires id < |s.untils| && s.untils[id].deadline.Some?
  {
    exists t :: t in s.agenda.timers && s.untils[id].timer == Some(t.what) && t.setAt == s.untils[id].calledAt &&
                t.when == At(s.untils[id].calledAt + s.untils[id].deadline.value)
  }

  ghost function DueAt(s: RunState, id: nat): real
    requires id < |s.untils| && s.untils[id].deadline.Some?
  {
    s.untils[id].calledAt + s.untils[id].deadline.value
  }

  /** Inside a step the clock may have reached the deadline, but never passed it. */
  ghost predicate NotPassed(s: RunState) {
    forall id: nat :: Waiting(s, id) ==> s.agenda.now <= DueAt(s, id) && (s.agenda.now < DueAt(s, id) ==> TimerSet(s, id))
  }

  /** Between steps a waiting call's deadline is still ahead. */
  ghost predicate Ahead(s: RunState) {
    forall id: nat :: Waiting(s, id) ==> s.agenda.now < DueAt(s, id) && TimerSet(s, id)
  }

  ghost predicate Mid(s: RunState) {
    RecordsOk(s, |s.untils|) && OneHook(s) && NotPassed(s)
  }

  ghost predicate Between(s: RunState) {
    RecordsOk(s, |s.untils|) && OneHook(s) && Ahead(s)
  }

  // ---- user operations ------------------------------------------------------------------------------------

  /** Nothing `run_until` depends on changed, except that timers other than its own may come and go. */
  ghost predicate SameCalls(s: RunState, t: RunState) {
    && t.untils == s.untils && t.untilActive == s.untilActive && t.agenda.now == s.agenda.now
    && (forall id: nat :: Waiting(t, id) ==> Waiting(s, id))
    && (forall id: nat :: Waiting(t, id) && TimerSet(s, id) ==> TimerSet(t, id))
    && (OneHook(s) ==> OneHook(t))
  }

  lemma SameCallsMid(s: RunState, t: RunState)
    requires Mid(s) && SameCalls(s, t)
    ensures Mid(t)
  {
  }

  lemma DoCallAtCalls(s: RunState, when: Num)
    ensures SameCalls(s, DoCallAt(s, when))
  {
    var d := ToDeadline(when);
    if d.Some? {
      var timer := Timer(d.value, s.agenda.nextSeq, s.agenda.now, s.nextHandle);
      var t := DoCallAt(s, when);
      InsertMembers(s.agenda.timers, timer);
      forall id: nat | Waiting(t, id) && TimerSet(s, id)
        ensures TimerSet(t, id)
      {
        var u :| u in s.agenda.timers && s.untils[id].timer == Some(u.what) && u.setAt == s.untils[id].calledAt &&
                 u.when == At(s.untils[id].calledAt + s.untils[id].deadline.value);
        assert u in t.agenda.timers;
      }
    }
  }

  lemma DoCancelCalls(s: RunState, h: Handle)
    requires !Internal(s, h)
    ensures SameCalls(s, DoCancel(s, h))
  {
    var t := DoCancel(s, h);
    WithoutMembers(s.agenda.timers, h);
    forall id: nat | Waiting(t, id) && TimerSet(s, id)
      ensures TimerSet(t, id)
    {
      var u :| u in s.agenda.timers && s.untils[id].timer == Some(u.what) && u.setAt == s.untils[id].calledAt &&
               u.when == At(s.untils[id].calledAt + s.untils[id].deadline.value);
      assert u.what != h;
      assert u in t.agenda.timers;
    }
  }

  lemma {:induction false} RemovedHooks(hooks: seq<Hook>, id: nat)
    requires forall i, j :: 0 <= i < j < |hooks| ==> !(hooks[i].Until? && hooks[j].Until?)
    requires forall i :: 0 <= i < |hooks| && hooks[i].Until? ==> hooks[i] == Until(id)
    ensures forall i :: 0 <= i < |Removed(hooks, Until(id))| ==> !Removed(hooks, Until(id))[i].Until?
  {
    if hooks != [] && hooks[0] != Until(id) {
      RemovedHooks(hooks[1..], id);
    }
  }

  /** The handle is cancelled and no timer stands for it. */
  ghost predicate Gone(s: RunState, h: Handle) {
    h in s.cancelled && forall t :: t in s.agenda.timers ==> t.what != h
  }

  /** Every exit of `run_until` leaves its hook removed, its timer cancelled and the slot free. */
  lemma ExitLeavesNothing(s: RunState)
    requires OneHook(s) && s.untilActive && s.untils != []
    ensures var t := EndUntil(s);
            && !t.untilActive && (forall i :: 0 <= i < |t.hooks| ==> !t.hooks[i].Until?)
            && (s.untils[|s.untils| - 1].timer.Some? ==> Gone(t, s.untils[|s.untils| - 1].timer.value))
  {
    hide DoCancel;
    var id := |s.untils| - 1;
    RemovedHooks(s.hooks, id);
    if s.untils[id].timer.Some? {
      CancelKeepsHooks(s, s.untils[id].timer.value);
      CancelGone(s, s.untils[id].timer.value);
    }
  }

  lemma CancelGone(s: RunState, h: Handle)
    ensures Gone(DoCancel(s, h), h)
  {
    WithoutMembers(s.agenda.timers, h);
  }

  lemma CancelKeepsHooks(s: RunState, h: Handle)
    ensures DoCancel(s, h).hooks == s.hooks
  {
  }

  lemma EndUntilMid(s: RunState)
    requires RecordsOk(s, |s.untils|) && OneHook(s)
    requires !(s.untilActive && s.untils != []) ==> NotPassed(s)
    ensures Mid(EndUntil(s))
  {
    if s.untilActive && s.untils != [] {
      hide EndUntil;
      ExitLeavesNothing(s);
      var t := EndUntil(s);
      assert forall id: nat :: Until(id) !in t.hooks;
    }
  }

  /** One more check of call `id`: it is answered exactly if the check decides. */
  lemma CheckUntilRecords(s: RunState, script: Script, id: nat)
    requires id < |s.untils| && s.untils[id].answer.None?
    requires s.untils[id].looks == [] ==> s.untils[id].calledAt == s.agenda.now
    requires s.untils[id].looks != [] ==> AnsweredByFirst(s.untils[id])
    requires s.untils[id].deadline.Some? && s.untils[id].deadline.value >= 0.0 ==> s.agenda.now <= DueAt(s, id)
    ensures var (t, said) := CheckUntil(s, script, id);
            && AnsweredByFirst(t.untils[id]) && TimedExactly(t.untils[id])
            && t.untils[id].looks == s.untils[id].looks + [Look(s.agenda.now, script.looks(s.look))]
            && t.untils[id].calledAt == s.untils[id].calledAt && t.untils[id].deadline == s.untils[id].deadline && t.untils[id].timer == s.untils[id].timer
            && (forall i :: 0 <= i < |s.untils| && i != id ==> t.untils[i] == s.untils[i])
            && (t.untils[id].answer.None? && !said.Broke? ==> !Elapsed(t.untils[id], s.agenda.now))
  {
    var u := s.untils[id];
    var t := CheckUntil(s, script, id).0;
    var v := t.untils[id];
    var look := Look(s.agenda.now, script.looks(s.look));
    CheckUntilWrites(s, script, id);
    assert v.looks[|v.looks| - 1] == look && v.looks[..|u.looks|] == u.looks;
    forall i | 0 <= i < |u.looks| ensures Undecided(v, v.looks[i]) {
      assert v.looks[i] == u.looks[i];
      assert Undecided(u, u.looks[i]) by {
        UndecidedSoFar(u, i);
      }
    }
  }

  lemma UndecidedSoFar(u: UntilCall, i: nat)
    requires AnsweredByFirst(u) && u.answer.None? && i < |u.looks|
    ensures Undecided(u, u.looks[i])
  {
  }

  /** The record a check writes. */
  lemma CheckUntilWrites(s: RunState, script: Script, id: nat)
    requires id < |s.untils| && s.untils[id].answer.None?
    ensures var (t, said) := CheckUntil(s, script, id);
            var u := s.untils[id];
            var verdict := script.looks(s.look);
            && t.untils == s.untils[id := t.untils[id]]
            && t.untils[id] == u.(looks := u.looks + [Look(s.agenda.now, verdict)], answer := t.untils[id].answer)
            && (said.Broke? <==> verdict.Breaks?)
            && t.untils[id].answer ==
               (match verdict
                case Breaks(k) => None
                case Raises(k) => Some(PredicateRaised(k, s.agenda.now))
                case Holds => Some(Held(s.agenda.now))
                case Fails => if Elapsed(u, s.agenda.now) then Some(TimedOut(s.agenda.now)) else None)
  {
  }

  lemma BeginUntilMid(s: RunState, script: Script, deadline: Option<Num>)
    requires Mid(s)
    ensures Mid(BeginUntil(s, script, deadline))
  {
    hide CheckUntil, EndUntil, AnsweredByFirst, TimedExactly;
    if !(s.untilActive || (deadline.Some? && !deadline.value.Real?)) {
      var d := if deadline.Some? then Some(deadline.value.r) else None;
      var id := |s.untils|;
      var t := EnterUntil(s, d);
      EnterUntilSets(s, d);
      CheckUntilRecords(t, script, id);
      var (u, said) := CheckUntil(t, script, id);
      forall i | 0 <= i < |u.untils| ensures AnsweredByFirst(u.untils[i]) && TimedExactly(u.untils[i]) {
        if i != id {
          assert u.untils[i] == s.untils[i];
        }
      }
      assert RecordsOk(u, |u.untils|);
      assert OneHook(u);
      if !(said.Broke? || u.untils[id].answer.Some?) {
        forall i: nat | Waiting(u, i) ensures u.agenda.now <= DueAt(u, i) && TimerSet(u, i) {
          assert i == id;
          assert TimerSet(t, id);
          var timer :| timer in t.agenda.timers && t.untils[id].timer == Some(timer.what) && timer.setAt == t.untils[id].calledAt &&
                       timer.when == At(t.untils[id].calledAt + t.untils[id].deadline.value);
          assert timer in u.agenda.timers;
        }
      } else {
        EndUntilMid(u);
      }
    }
  }

  lemma EnterUntilSets(s: RunState, d: Option<real>)
    requires OneHook(s) && !s.untilActive
    ensures var t := EnterUntil(s, d);
            && OneHook(t) && t.agenda.now == s.agenda.now && t.untilActive
            && |t.untils| == |s.untils| + 1 && t.untils[..|s.untils|] == s.untils
            && t.untils[|s.untils|].calledAt == s.agenda.now && t.untils[|s.untils|].deadline == d
            && t.untils[|s.untils|].looks == [] && t.untils[|s.untils|].answer.None?
            && (d.Some? ==> TimerSet(t, |s.untils|))
            && forall id: nat :: Until(id) in t.hooks ==> id == |s.untils|
  {
    var t := EnterUntil(s, d);
    if d.Some? {
      var timer := Timer(At(s.agenda.now + d.value), s.agenda.nextSeq, s.agenda.now, s.nextHandle);
      InsertMembers(s.agenda.timers, timer);
      assert timer in t.agenda.timers;
    }
    assert t.hooks == s.hooks + [Until(|s.untils|)] by {
      hide DoCallAt;
    }
    assert forall i :: 0 <= i < |s.hooks| ==> !s.hooks[i].Until?;
  }

  lemma CancelUntilMid(s: RunState)
    requires Mid(s)
    ensures Mid(CancelUntil(s))
  {
    var t := CancelUntil(s);
    if s.untilActive && s.untils != [] && s.untils[|s.untils| - 1].answer.None? {
      var id := |s.untils| - 1;
      assert AllUndecided(t.untils[id], |t.untils[id].looks| - 1) by {
        forall i | 0 <= i < |t.untils[id].looks| - 1 ensures Undecided(t.untils[id], t.untils[id].looks[i]) {
          assert Undecided(s.untils[id], s.untils[id].looks[i]);
        }
      }
      forall i: nat | Until(i) in t.hooks ensures i == id {
        var k :| 0 <= k < |t.hooks| && t.hooks[k] == Until(i);
        assert s.hooks[k].Until?;
      }
    }
  }

  lemma PerformMid(s: RunState, script: Script, op: Op)
    requires Mid(s)
    ensures Mid(Perform(s, script, op))
  {
    hide Mid, BeginUntil, CancelUntil, EndUntil, DoCallAt, DoCancel, Internal, ToDeadline, After;
    match op
    case OpCallAt(when) => DoCallAtCalls(s, when); SameCallsMid(s, DoCallAt(s, when));
    case OpCallLater(delay) =>
      DoCallAtCalls(s, After(s.agenda.now, delay));
      SameCallsMid(s, DoCallAt(s, After(s.agenda.now, delay)));
    case OpCancel(h) =>
      if h < s.nextHandle && !Internal(s, h) {
        DoCancelCalls(s, h);
        SameCallsMid(s, DoCancel(s, h));
      }
    case OpBeginUntil(deadline) => BeginUntilMid(s, script, deadline);
    case OpCancelUntil => CancelUntilMid(s);
    case OpEndUntil => MidParts(s); EndUntilMid(s);
    case _ => OtherOps(s, script, op);
  }

  lemma MidParts(s: RunState)
    requires Mid(s)
    ensures RecordsOk(s, |s.untils|) && OneHook(s) && NotPassed(s)
  {
  }

  lemma OtherOps(s: RunState, script: Script, op: Op)
    requires Mid(s) && (op.OpCallSoon? || op.OpStop? || op.OpSpawn? || op.OpFinish? || op.OpAlways?)
    ensures Mid(Perform(s, script, op))
  {
    hide BeginUntil, CancelUntil, EndUntil, DoCallAt, DoCancel, Internal, Mid, RecordsOk;
    var t := Perform(s, script, op);
    assert t.hooks == s.hooks || t.hooks == s.hooks + [Invariants];
    assert forall id: nat :: Until(id) in t.hooks ==> Until(id) in s.hooks;
    assert t.agenda.timers == s.agenda.timers;
    forall id: nat | Waiting(t, id) && TimerSet(s, id) ensures TimerSet(t, id) {
      var u :| u in s.agenda.timers && s.untils[id].timer == Some(u.what) && u.setAt == s.untils[id].calledAt &&
               u.when == At(s.untils[id].calledAt + s.untils[id].deadline.value);
      assert u in t.agenda.timers;
    }
    SameCallsMid(s, t);
  }

  lemma {:induction false} PerformAllMid(s: RunState, script: Script, ops: seq<Op>)
    requires Mid(s)
    ensures Mid(PerformAll(s, script, ops))
    decreases |ops|
  {
    hide Mid, Perform;
    if ops != [] {
      PerformMid(s, script, ops[0]);
      PerformAllMid(Perform(s, script, ops[0]), script, ops[1..]);
    }
  }

  lemma SameTimersMid(s: RunState, t: RunState)
    requires Mid(s) && t.untils == s.untils && t.untilActive == s.untilActive && t.hooks == s.hooks
    requires t.agenda.now == s.agenda.now && t.agenda.timers == s.agenda.timers
    ensures Mid(t)
  {
    forall id: nat | Waiting(t, id) && TimerSet(s, id) ensures TimerSet(t, id) {
      var u :| u in s.agenda.timers && s.untils[id].timer == Some(u.what) && u.setAt == s.untils[id].calledAt &&
               u.when == At(s.untils[id].calledAt + s.untils[id].deadline.value);
      assert u in t.agenda.timers;
    }
  }

  lemma {:induction false} RunBatchMid(s: RunState, script: Script, n: nat)
    requires Mid(s)
    ensures Mid(RunBatch(s, script, n).0)
    decreases n
  {
    hide PerformAll, Mid, Between;
    if n > 0 && s.agenda.ready != [] {
      var t := s.(agenda := Take(s.agenda, true), turn := s.turn + 1);
      SameTimersMid(s, t);
      SameTimersMid(s, s.(agenda := Take(s.agenda, false)));
      PerformAllMid(t, script, script.turns(s.turn).ops);
      RunBatchMid(RunEntry(s, script).0, script, n - 1);
    }
  }

  // ---- the end of a step -------------------------------------------------------------------------------------

  /** Call `id` has been looked at with the present clock and is answered, or its deadline is ahead. */
  ghost predicate Checked(s: RunState, id: nat) {
    id < |s.untils| && (s.untils[id].answer.Some? || !Elapsed(s.untils[id], s.agenda.now))
  }

  lemma RunHookMid(s: RunState, script: Script, h: Hook)
    requires Mid(s) && h in s.hooks
    ensures var (t, said) := RunHook(s, script, h);
            && Mid(t) && (h.Until? && !said.Broke? ==> Checked(t, h.id))
            && (forall id: nat :: Checked(s, id) ==> !said.Broke? ==> Checked(t, id))
  {
    hide CheckInvariants, AnsweredByFirst, TimedExactly;
    var (t, said) := RunHook(s, script, h);
    match h
    case Invariants => SameTimersMid(s, t);
    case Until(id) =>
      var k :| 0 <= k < |s.hooks| && s.hooks[k] == h;
      assert id == |s.untils| - 1;
      if s.untils[id].answer.None? {
        assert AnsweredByFirst(s.untils[id]);
        assert s.untils[id].looks != [] by {
          LooksExist(s.untils[id]);
        }
        assert s.untils[id].deadline.Some? && s.untils[id].deadline.value >= 0.0 ==> Waiting(s, id);
        CheckUntilRecords(s, script, id);
        var u := CheckUntil(s, script, id).0;
        forall i | 0 <= i < |u.untils| ensures AnsweredByFirst(u.untils[i]) && TimedExactly(u.untils[i]) {
        }
        assert t.untils == u.untils && t.hooks == s.hooks && t.agenda.timers == s.agenda.timers;
        forall i: nat | Waiting(t, i) ensures t.agenda.now <= DueAt(t, i) && (t.agenda.now < DueAt(t, i) ==> TimerSet(t, i)) {
          assert Waiting(s, i);
          if t.agenda.now < DueAt(t, i) {
            assert TimerSet(s, i);
            var timer :| timer in s.agenda.timers && s.untils[i].timer == Some(timer.what) && timer.setAt == s.untils[i].calledAt &&
                         timer.when == At(s.untils[i].calledAt + s.untils[i].deadline.value);
            assert timer in t.agenda.timers;
          }
        }
      }
  }

  lemma LooksExist(u: UntilCall)
    requires AnsweredByFirst(u)
    ensures u.looks != []
  {
  }

  lemma {:induction false} RunHooksMid(s: RunState, script: Script, hooks: seq<Hook>, first: Option<Error>, notes: seq<Error>)
    requires Mid(s) && forall i :: 0 <= i < |hooks| ==> hooks[i] in s.hooks
    ensures var p := RunHooks(s, script, hooks, first, notes);
            && Mid(p.s)
            && (p.broke.None? ==> forall id: nat :: Until(id) in hooks || Checked(s, id) ==> Checked(p.s, id))
    decreases |hooks|
  {
    hide RunHook, Mid, Checked;
    if hooks != [] {
      RunHookMid(s, script, hooks[0]);
      var (t, said) := RunHook(s, script, hooks[0]);
      match said
      case Quiet => RunHooksMid(t, script, hooks[1..], first, notes);
      case Soft(e) => RunHooksMid(t, script, hooks[1..], first, notes + [e]);
      case Hard(e) => RunHooksMid(t, script, hooks[1..], if first.None? then Some(e) else first, if first.None? then notes else notes + [e]);
      case Broke(e) =>
    }
  }

  lemma EndStepBetween(s: RunState, script: Script)
    requires Mid(s)
    ensures var (t, r) := EndStep(s, script);
            if r.Normal? then Between(t) else Mid(t)
  {
    hide RunHooks, AnsweredByFirst, TimedExactly;
    var s0 := s.(held := []);
    SameTimersMid(s, s0);
    RunHooksMid(s0, script, s.hooks, None, []);
    var p := RunHooks(s0, script, s.hooks, None, []);
    if Concluded(p).Normal? {
      var t := CountDown(Logged(p.s));
      CountDownShape(Logged(p.s));
      assert t.hooks == p.s.hooks || t.hooks == [];
      forall id: nat | Waiting(t, id) ensures t.agenda.now < DueAt(t, id) && TimerSet(t, id) {
        assert Waiting(p.s, id) && Checked(p.s, id);
        assert TimerSet(p.s, id);
        var timer :| timer in p.s.agenda.timers && p.s.untils[id].timer == Some(timer.what) && timer.setAt == p.s.untils[id].calledAt &&
                     timer.when == At(p.s.untils[id].calledAt + p.s.untils[id].deadline.value);
        assert timer in t.agenda.timers;
      }
      assert OneHook(t);
    }
  }

  lemma AdvanceMid(s: RunState)
    requires AgendaInv(s.agenda) && Between(s)
    ensures Mid(Advance(s).0)
  {
    hide AnsweredByFirst, TimedExactly, FireDue;
    AdvanceShape(s);
    var (t, r) := Advance(s);
    var a := if Idle(s) && CanJump(s.agenda) then Jump(s.agenda) else s.agenda;
    if Idle(s) && CanJump(s.agenda) {
      JumpInv(s.agenda);
    }
    if r.Normal? {
      assert t.agenda == FireDue(a) && a.timers == s.agenda.timers;
      FireDueSplits(a);
      assert t.agenda.now == a.now by { FireDueInv(a); }
      forall id: nat | Waiting(t, id) ensures t.agenda.now <= DueAt(t, id) && (t.agenda.now < DueAt(t, id) ==> TimerSet(t, id)) {
        assert Waiting(s, id) && TimerSet(s, id);
        var timer :| timer in s.agenda.timers && s.untils[id].timer == Some(timer.what) && timer.setAt == s.untils[id].calledAt &&
                     timer.when == At(s.untils[id].calledAt + s.untils[id].deadline.value);
        assert FireTime(timer) == DueAt(s, id);
        if t.agenda.now < DueAt(t, id) {
          assert timer in t.agenda.timers;
        }
      }
    }
  }

  lemma StepBetween(s: RunState, script: Script)
    requires AgendaInv(s.agenda) && Between(s)
    ensures var (t, r) := Step(s, script); if r.Normal? then Between(t) else Mid(t)
  {
    hide AgendaInv, Advance, RunBatch, EndStep, Mid;
    BetweenIsMid(s);
    var b := Budgeted(s);
    assert Between(b) by {
      SameBetween(s, b);
    }
    AdvanceMid(b);
    var a := Advance(b).0;
    RunBatchMid(a, script, |a.agenda.ready|);
    var c := RunBatch(a, script, |a.agenda.ready|).0;
    EndStepBetween(c, script);
    MidParts(a);
    MidParts(c);
  }

  lemma BetweenIsMid(s: RunState)
    requires Between(s)
    ensures Mid(s)
  {
  }

  lemma SameBetween(s: RunState, t: RunState)
    requires Between(s) && t.untils == s.untils && t.untilActive == s.untilActive && t.hooks == s.hooks && t.agenda == s.agenda
    ensures Between(t)
  {
    forall id: nat | Waiting(t, id) ensures TimerSet(t, id) && t.agenda.now < DueAt(t, id) {
      assert Waiting(s, id);
    }
  }

  /** Over any run of any program every `run_until` is answered by its first deciding check, on time; a
      step that raised may have been cut short. */
  lemma {:induction false} RunUntilRecords(s: RunState, script: Script, fuel: nat)
    requires AgendaInv(s.agenda) && Between(s)
    ensures var (t, end) := RunForever(s, script, fuel); if end.Threw? then Mid(t) else Between(t)
    decreases fuel
  {
    hide AgendaInv, Step, Between, Mid;
    if fuel > 0 {
      StepAgenda(s, script);
      StepBetween(s, script);
      var (t, r) := Step(s, script);
      if r.Normal? {
        SameBetween(t, t.(stopping := false));
        if !t.stopping {
          RunUntilRecords(t, script, fuel - 1);
        }
      } else {
        SameMid(t, t.(stopping := false));
      }
    }
  }

  lemma RecordsSame(s: RunState, t: RunState)
    requires t.untils == s.untils
    ensures RecordsOk(s, |s.untils|) == RecordsOk(t, |t.untils|)
  {
  }

  lemma SameMid(s: RunState, t: RunState)
    requires Mid(s) && t.untils == s.untils && t.untilActive == s.untilActive && t.hooks == s.hooks && t.agenda == s.agenda
    ensures Mid(t)
  {
    SameTimersMid(s, t);
  }

  /** The call was looked at once more, at this clock, and is otherwise as it was but for its answer. */
  ghost predicate LookedOnce(u: UntilCall, v: UntilCall, now: real) {
    && |v.looks| == |u.looks| + 1 && v.looks[..|u.looks|] == u.looks && v.looks[|u.looks|].clock == now
    && v == u.(looks := v.looks, answer := v.answer)
  }

  lemma HookLooks(s: RunState, script: Script, id: nat)
    requires id < |s.untils| && s.untils[id].answer.None?
    ensures var t := RunHook(s, script, Until(id)).0;
            t.untils == s.untils[id := t.untils[id]] && LookedOnce(s.untils[id], t.untils[id], s.agenda.now)
  {
    hide CheckUntil;
    CheckUntilWrites(s, script, id);
  }

  /** One pass of hooks looks at the last call once if it is unanswered and its hook is in the list; it
      touches no other call, and no call that is answered. */
  lemma {:induction false} EveryPassLooks(s: RunState, script: Script, hooks: seq<Hook>, first: Option<Error>, notes: seq<Error>, id: nat)
    requires Mid(s) && (forall i :: 0 <= i < |hooks| ==> hooks[i] in s.hooks)
    requires forall i, j :: 0 <= i < j < |hooks| ==> !(hooks[i].Until? && hooks[j].Until?)
    requires id == |s.untils| - 1
    ensures var p := RunHooks(s, script, hooks, first, notes);
            && (Until(id) !in hooks || s.untils[id].answer.Some? ==> p.s.untils == s.untils)
            && (Until(id) in hooks && s.untils[id].answer.None? && p.broke.None? ==>
                  |p.s.untils| == |s.untils| && p.s.untils == s.untils[id := p.s.untils[id]] && LookedOnce(s.untils[id], p.s.untils[id], s.agenda.now))
    decreases |hooks|
  {
    hide Mid, RunHook, LookedOnce;
    if hooks != [] {
      RunHookMid(s, script, hooks[0]);
      var (t, said) := RunHook(s, script, hooks[0]);
      assert hooks == [hooks[0]] + hooks[1..];
      if hooks[0].Invariants? {
        InvariantsKeepCalls(s, script);
        if !said.Broke? {
          EveryPassLooks(t, script, hooks[1..], if said.Hard? && first.None? then Some(said.e) else first,
                         if said.Soft? || (said.Hard? && first.Some?) then notes + [said.e] else notes, id);
        }
      } else {
        OnlyOwnId(s, hooks[0]);
        if s.untils[id].answer.None? {
          HookLooks(s, script, id);
        } else {
          AnsweredIsQuiet(s, script, id);
        }
        if !said.Broke? {
          assert forall i :: 0 <= i < |hooks[1..]| ==> !hooks[1..][i].Until?;
          NoUntilHooks(t, script, hooks[1..], if said.Hard? && first.None? then Some(said.e) else first,
                       if said.Soft? || (said.Hard? && first.Some?) then notes + [said.e] else notes);
        }
      }
    }
  }

  lemma AnsweredIsQuiet(s: RunState, script: Script, id: nat)
    requires id < |s.untils| && s.untils[id].answer.Some?
    ensures RunHook(s, script, Until(id)) == (s, Quiet)
  {
  }

  lemma InvariantsKeepCalls(s: RunState, script: Script)
    ensures RunHook(s, script, Invariants).0.untils == s.untils && RunHook(s, script, Invariants).0.hooks == s.hooks
  {
    hide CheckInvariants;
  }

  lemma OnlyOwnId(s: RunState, h: Hook)
    requires Mid(s) && h in s.hooks && h.Until?
    ensures h.id == |s.untils| - 1
  {
    var k :| 0 <= k < |s.hooks| && s.hooks[k] == h;
  }

  lemma {:induction false} NoUntilHooks(s: RunState, script: Script, hooks: seq<Hook>, first: Option<Error>, notes: seq<Error>)
    requires forall i :: 0 <= i < |hooks| ==> !hooks[i].Until?
    ensures RunHooks(s, script, hooks, first, notes).s.untils == s.untils
    decreases |hooks|
  {
    hide CheckInvariants;
    if hooks != [] {
      var (t, said) := RunHook(s, script, hooks[0]);
      match said
      case Quiet => NoUntilHooks(t, script, hooks[1..], first, notes);
      case Soft(e) => NoUntilHooks(t, script, hooks[1..], first, notes + [e]);
      case Hard(e) => NoUntilHooks(t, script, hooks[1..], if first.None? then Some(e) else first, if first.None? then notes else notes + [e]);
      case Broke(e) =>
    }
  }
}
