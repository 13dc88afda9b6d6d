/** What a cancelled timer and a `run_until` that is over leave behind: nothing the clock could still jump to. */
module RunUntilExits {
  import opened Common
  import opened Agendas
  import opened LoopModel
  import opened RunUntil
  import opened Batches

  ghost predicate Over(s: RunState, i: int) {
    0 <= i < |s.untils| && (i < |s.untils| - 1 || !s.untilActive)
  }

  /** No cancelled handle has a timer; the timer of every call that is over is cancelled; every call's timer
      is a handle the loop has given out. */
  ghost predicate Retired(s: RunState) {
    && (forall i :: 0 <= i < |s.untils| && s.untils[i].timer.Some? ==> s.untils[i].timer.value < s.nextHandle)
    && (forall i :: Over(s, i) && s.untils[i].timer.Some? ==> Gone(s, s.untils[i].timer.value))
    && (forall h :: h in s.cancelled ==> h < s.nextHandle && Gone(s, h))
  }

  /** Handles are only ever given out and cancelled, cancelling one removes its timer, and a new timer has a
      new handle. */
  ghost predicate Later(s: RunState, t: RunState) {
    && s.nextHandle <= t.nextHandle && s.cancelled <= t.cancelled
    && (forall h :: h in t.cancelled && h !in s.cancelled ==> h < t.nextHandle && Gone(t, h))
    && forall u :: u in t.agenda.timers ==> u in s.agenda.timers || u.what >= s.nextHandle
  }

  ghost predicate SameTimers(s: RunState, t: RunState) {
    |t.untils| == |s.untils| && t.untilActive == s.untilActive && forall i :: 0 <= i < |s.untils| ==> t.untils[i].timer == s.untils[i].timer
  }

  lemma StaysRetired(s: RunState, t: RunState)
    requires Retired(s) && Later(s, t) && SameTimers(s, t)
    ensures Retired(t)
  {
    forall i | Over(t, i) && t.untils[i].timer.Some? ensures Gone(t, t.untils[i].timer.value) {
      assert Over(s, i);
    }
  }

  lemma SameRetired(s: RunState, t: RunState)
    requires Retired(s) && t.untils == s.untils && t.untilActive == s.untilActive && t.agenda.timers == s.agenda.timers
    requires t.nextHandle == s.nextHandle && t.cancelled == s.cancelled
    ensures Retired(t)
  {
    StaysRetired(s, t);
  }

  lemma CallAtRetires(s: RunState, when: Num)
    ensures Later(s, DoCallAt(s, when)) && SameTimers(s, DoCallAt(s, when))
  {
    var d := ToDeadline(when);
    if d.Some? {
      InsertMembers(s.agenda.timers, Timer(d.value, s.agenda.nextSeq, s.agenda.now, s.nextHandle));
    }
  }

  lemma CancelRetires(s: RunState, h: Handle)
    requires h < s.nextHandle
    ensures Later(s, DoCancel(s, h)) && SameTimers(s, DoCancel(s, h))
  {
    WithoutMembers(s.agenda.timers, h);
    CancelGone(s, h);
  }

  lemma EndUntilRetires(s: RunState)
    requires Retired(s)
    ensures Retired(EndUntil(s))
  {
    hide DoCancel, Removed;
    if s.untilActive && s.untils != [] {
      var id := |s.untils| - 1;
      var t := EndUntil(s);
      if s.untils[id].timer.Some? {
        CancelRetires(s, s.untils[id].timer.value);
        CancelGone(s, s.untils[id].timer.value);
      }
      assert Later(s, t);
      forall i | Over(t, i) && t.untils[i].timer.Some? ensures Gone(t, t.untils[i].timer.value) {
        assert i < id ==> Over(s, i);
      }
    }
  }

  lemma EnterRetires(s: RunState, d: Option<real>)
    requires Retired(s) && !s.untilActive
    ensures Retired(EnterUntil(s, d))
  {
    hide DoCallAt;
    var t := EnterUntil(s, d);
    if d.Some? {
      CallAtRetires(s, Real(s.agenda.now + d.value));
      CallAtGives(s, Real(s.agenda.now + d.value));
    }
    assert Later(s, t) && t.untils[..|s.untils|] == s.untils;
    forall i | Over(t, i) && t.untils[i].timer.Some? ensures Gone(t, t.untils[i].timer.value) {
      assert Over(s, i) && t.untils[i] == s.untils[i];
    }
  }

  lemma CallAtGives(s: RunState, when: Num)
    requires when.Real?
    ensures DoCallAt(s, when).nextHandle == s.nextHandle + 1
  {
    hide Insert;
  }

  lemma BeginUntilRetires(s: RunState, script: Script, deadline: Option<Num>)
    requires Retired(s)
    ensures Retired(BeginUntil(s, script, deadline))
  {
    hide CheckUntil, EndUntil, EnterUntil, Retired;
    if !(s.untilActive || (deadline.Some? && !deadline.value.Real?)) {
      var d := if deadline.Some? then Some(deadline.value.r) else None;
      EnterRetires(s, d);
      var t := EnterUntil(s, d);
      var u := CheckUntil(t, script, |s.untils|).0;
      CheckKeepsTimers(t, script, |s.untils|);
      StaysRetired(t, u);
      EndUntilRetires(u);
    }
  }

  lemma CheckKeepsTimers(s: RunState, script: Script, id: nat)
    requires id < |s.untils|
    ensures Later(s, CheckUntil(s, script, id).0) && SameTimers(s, CheckUntil(s, script, id).0)
  {
    hide CheckUntil;
    if s.untils[id].answer.None? {
      CheckUntilWrites(s, script, id);
    } else {
      AnsweredSame(s, script, id);
    }
  }

  lemma AnsweredSame(s: RunState, script: Script, id: nat)
    requires id < |s.untils| && s.untils[id].answer.Some?
    ensures CheckUntil(s, script, id) == (s, Quiet)
  {
  }

  lemma PerformRetires(s: RunState, script: Script, op: Op)
    requires Retired(s)
    ensures Retired(Perform(s, script, op))
  {
    hide BeginUntil, EndUntil, CancelUntil, DoSpawn, DoAlways, DoFinish, DoCallSoon, DoCallAt, DoCancel, Internal, Retired, After, Later, SameTimers;
    match op
    case OpCallAt(when) => CallAtRetires(s, when); StaysRetired(s, DoCallAt(s, when));
    case OpCallLater(delay) => CallAtRetires(s, After(s.agenda.now, delay)); StaysRetired(s, DoCallAt(s, After(s.agenda.now, delay)));
    case OpCancel(h) => if h < s.nextHandle { CancelRetires(s, h); StaysRetired(s, DoCancel(s, h)); }
    case OpBeginUntil(deadline) => BeginUntilRetires(s, script, deadline);
    case OpEndUntil => EndUntilRetires(s);
    case _ => OtherRetires(s, script, op); StaysRetired(s, Perform(s, script, op));
  }

  lemma OtherRetires(s: RunState, script: Script, op: Op)
    requires !op.OpCallAt? && !op.OpCallLater? && !op.OpCancel? && !op.OpBeginUntil? && !op.OpEndUntil?
    ensures Later(s, Perform(s, script, op)) && SameTimers(s, Perform(s, script, op))
  {
    hide BeginUntil, EndUntil, DoCallAt, DoCancel, Internal, Gone;
  }

  lemma {:induction false} PerformAllRetires(s: RunState, script: Script, ops: seq<Op>)
    requires Retired(s)
    ensures Retired(PerformAll(s, script, ops))
    decreases |ops|
  {
    hide Perform, Retired;
    if ops != [] {
      PerformRetires(s, script, ops[0]);
      PerformAllRetires(Perform(s, script, ops[0]), script, ops[1..]);
    }
  }

  lemma {:induction false} RunBatchRetires(s: RunState, script: Script, n: nat)
    requires Retired(s)
    ensures Retired(RunBatch(s, script, n).0)
    decreases n
  {
    hide PerformAll, Retired;
    if n > 0 && s.agenda.ready != [] {
      var t := s.(agenda := Take(s.agenda, true), turn := s.turn + 1);
      StaysRetired(s, t);
      StaysRetired(s, s.(agenda := Take(s.agenda, false)));
      PerformAllRetires(t, script, script.turns(s.turn).ops);
      RunBatchRetires(RunEntry(s, script).0, script, n - 1);
    }
  }

  lemma RunHookRetires(s: RunState, script: Script, h: Hook)
    requires Retired(s)
    ensures Retired(RunHook(s, script, h).0)
  {
    hide CheckInvariants, CheckUntil, Retired;
    if h.Until? && h.id < |s.untils| {
      CheckKeepsTimers(s, script, h.id);
    }
    StaysRetired(s, RunHook(s, script, h).0);
  }

  lemma {:induction false} RunHooksRetires(s: RunState, script: Script, hooks: seq<Hook>, first: Option<Error>, notes: seq<Error>)
    requires Retired(s)
    ensures Retired(RunHooks(s, script, hooks, first, notes).s)
    decreases |hooks|
  {
    hide RunHook, Retired;
    if hooks != [] {
      RunHookRetires(s, script, hooks[0]);
      var (t, said) := RunHook(s, script, hooks[0]);
      match said
      case Quiet => RunHooksRetires(t, script, hooks[1..], first, notes);
      case Soft(e) => RunHooksRetires(t, script, hooks[1..], first, notes + [e]);
      case Hard(e) => RunHooksRetires(t, script, hooks[1..], if first.None? then Some(e) else first, if first.None? then notes else notes + [e]);
      case Broke(e) =>
    }
  }

  lemma WorkRetires(s: RunState, script: Script)
    requires Retired(s)
    ensures Retired(Work(s, script).0)
  {
    hide RunBatch, RunHooks, Retired, CountDown, Logged;
    RunBatchRetires(s, script, |s.agenda.ready|);
    var (t, r) := RunBatch(s, script, |s.agenda.ready|);
    if r.Normal? {
      var u := t.(held := []);
      StaysRetired(t, u);
      RunHooksRetires(u, script, t.hooks, None, []);
      CountedRetires(RunHooks(u, script, t.hooks, None, []).s);
    }
  }

  lemma CountedRetires(s: RunState)
    requires Retired(s)
    ensures Retired(CountDown(Logged(s)))
  {
    hide Retired;
    StaysRetired(s, CountDown(Logged(s)));
  }

  lemma AdvanceRetires(s: RunState)
    requires Retired(s)
    ensures Retired(Advance(s).0)
  {
    hide FireDue, Retired, Advance;
    if Advance(s).1.Normal? {
      var c := AdvanceIs(s);
      var k := FiresTheHead(c);
      StaysRetired(s, Advance(s).0);
    } else {
      assert Advance(s).0 == s by { StuckSame(s); }
    }
  }

  lemma StuckSame(s: RunState)
    requires Advance(s).1.Raised?
    ensures Advance(s).0 == s
  {
  }

  lemma StepRetires(s: RunState, script: Script)
    requires Retired(s)
    ensures Retired(Step(s, script).0)
  {
    hide Advance, Work, Retired;
    var b := Budgeted(s);
    StaysRetired(s, b);
    AdvanceRetires(b);
    WorkRetires(Advance(b).0, script);
  }

  /** After any run of any program, however it ended: the timer of every `run_until` call that is over is
      cancelled, and none is left that the clock could jump to. */
  lemma {:induction false} OverLeavesNoTimer(s: RunState, script: Script, fuel: nat)
    requires Retired(s)
    ensures Retired(RunForever(s, script, fuel).0)
    decreases fuel
  {
    hide Step, Retired;
    if fuel > 0 {
      StepRetires(s, script);
      var t := Step(s, script).0;
      StaysRetired(t, t.(stopping := false));
      OverLeavesNoTimer(t, script, fuel - 1);
    }
  }
}
