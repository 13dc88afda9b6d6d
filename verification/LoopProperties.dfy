/** What every run of the loop satisfies, whatever the program does. */
module LoopProperties {
  import opened Common
  import opened Agendas
  import opened LoopModel

  // ---- what user code cannot touch --------------------------------------------------------------------

  /** Between two looks at the state inside one step: the clock, the budget, the watch and the log
      stand still; results, predicates and the ready queue only grow. */
  ghost predicate Kept(s: RunState, t: RunState) {
    && t.agenda.now == s.agenda.now
    && t.stepsLeft == s.stepsLeft && t.stepError == s.stepError
    && t.watch == s.watch && t.stopIn == s.stopIn && t.settle == s.settle
    && t.log == s.log && t.settles == s.settles && t.tearingDown == s.tearingDown
    && (forall f :: f in s.results ==> f in t.results && t.results[f] == s.results[f])
    && s.preds <= t.preds
    && (s.stopping ==> t.stopping)
  }

  lemma EnterUntilKeeps(s: RunState, d: Option<real>)
    ensures Kept(s, EnterUntil(s, d))
  {
    hide EnterUntil;
  }

  lemma EndUntilKeeps(s: RunState)
    ensures Kept(s, EndUntil(s))
  {
    hide EndUntil;
  }

  lemma BeginUntilKeeps(s: RunState, script: Script, deadline: Option<Num>)
    ensures Kept(s, BeginUntil(s, script, deadline))
  {
    hide EnterUntil, EndUntil, CheckUntil;
    if !(s.untilActive || (deadline.Some? && !deadline.value.Real?)) {
      var t := EnterUntil(s, if deadline.Some? then Some(deadline.value.r) else None);
      EnterUntilKeeps(s, if deadline.Some? then Some(deadline.value.r) else None);
      var u := CheckUntil(t, script, |s.untils|).0;
      assert Kept(t, u);
      EndUntilKeeps(u);
    }
  }

  lemma CallsKeep(s: RunState, when: Num)
    ensures Kept(s, DoCallSoon(s)) && Kept(s, DoCallAt(s, when)) && Kept(s, DoSpawn(s, false)) && Kept(s, DoSpawn(s, true))
  {
    hide Insert, ToDeadline;
  }

  lemma CancelKeeps(s: RunState, h: Handle)
    ensures Kept(s, DoCancel(s, h))
  {
    hide Without;
  }

  lemma SimpleOpKeeps(s: RunState, script: Script, op: Op)
    requires op.OpCallSoon? || op.OpCallAt? || op.OpCallLater? || op.OpCancel? || op.OpStop? || op.OpSpawn?
    ensures Kept(s, Perform(s, script, op))
  {
    hide BeginUntil, EndUntil, CancelUntil, DoAlways, DoFinish, DoCallSoon, DoCallAt, DoSpawn, DoCancel, Internal, After;
    match op
    case OpCallAt(when) => CallsKeep(s, when);
    case OpCallLater(delay) => CallsKeep(s, After(s.agenda.now, delay));
    case OpCancel(h) => CancelKeeps(s, h);
    case _ => CallsKeep(s, NaN);
  }

  lemma PerformKeeps(s: RunState, script: Script, op: Op)
    ensures Kept(s, Perform(s, script, op))
  {
    hide BeginUntil, EndUntil, Answered, Internal, DoCallAt, DoCancel, DoSpawn;
    match op
    case OpBeginUntil(deadline) => BeginUntilKeeps(s, script, op.deadline);
    case OpEndUntil => EndUntilKeeps(s);
    case OpFinish(_, _) =>
    case OpAlways(_) =>
    case OpCancelUntil =>
    case _ => SimpleOpKeeps(s, script, op);
  }

  lemma {:induction false} PerformAllKeeps(s: RunState, script: Script, ops: seq<Op>)
    ensures Kept(s, PerformAll(s, script, ops))
    decreases |ops|
  {
    if ops != [] {
      hide Perform;
      PerformKeeps(s, script, ops[0]);
      PerformAllKeeps(Perform(s, script, ops[0]), script, ops[1..]);
    }
  }

  lemma RunEntryKeeps(s: RunState, script: Script)
    requires s.agenda.ready != []
    ensures Kept(s, RunEntry(s, script).0)
    ensures RunEntry(s, script).1.Raised? ==> RunEntry(s, script).1.e.Interrupt?
  {
    hide PerformAll;
    PerformAllKeeps(s.(agenda := Take(s.agenda, true), turn := s.turn + 1), script, script.turns(s.turn).ops);
  }

  lemma {:induction false} RunBatchKeeps(s: RunState, script: Script, n: nat)
    ensures Kept(s, RunBatch(s, script, n).0)
    ensures RunBatch(s, script, n).1.Raised? ==> RunBatch(s, script, n).1.e.Interrupt?
    decreases n
  {
    hide RunEntry;
    if n > 0 && s.agenda.ready != [] {
      RunEntryKeeps(s, script);
      RunBatchKeeps(RunEntry(s, script).0, script, n - 1);
    }
  }

  /** A quiet invariants check has seen every predicate hold. */
  lemma {:induction false} CheckInvariantsSees(s: RunState, script: Script, i: nat)
    ensures var (t, said) := CheckInvariants(s, script, i);
            && s.held <= t.held
            && (said.Quiet? ==> forall k :: i <= k < |s.preds| ==> s.preds[k] in t.held)
            && (said.Hard? ==> said.e.CheckFailed? || said.e.UserError?)
            && (said.Broke? ==> said.e.Interrupt?) && !said.Soft?
    decreases |s.preds| - i
  {
    if i < |s.preds| && script.looks(s.look).Holds? {
      var t := s.(look := s.look + 1, held := s.held + [s.preds[i]]);
      CheckInvariantsSees(t, script, i + 1);
      var u := CheckInvariants(t, script, i + 1).0;
      assert t.held[|s.held|] == s.preds[i];
      assert u.held[|s.held|] == s.preds[i];
    }
  }

  lemma RunHookSees(s: RunState, script: Script, h: Hook)
    ensures var (t, said) := RunHook(s, script, h);
            && s.held <= t.held
            && (h.Invariants? && said.Quiet? ==> forall k :: 0 <= k < |s.preds| ==> s.preds[k] in t.held)
            && (said.Hard? ==> said.e.CheckFailed? || said.e.UserError?)
            && (said.Broke? ==> said.e.Interrupt?) && (said.Soft? ==> h.Until?)
  {
    hide CheckInvariants;
    if h.Invariants? {
      CheckInvariantsSees(s, script, 0);
    }
  }

  // ---- the round of after-step checks --------------------------------------------------------------------

  /** What each hook says, one after the other, up to an interrupt if there is one. */
  ghost function Says(s: RunState, script: Script, hooks: seq<Hook>): seq<Said>
    decreases |hooks|
  {
    if hooks == [] then []
    else
      var (t, said) := RunHook(s, script, hooks[0]);
      if said.Broke? then [said] else [said] + Says(t, script, hooks[1..])
  }

  ghost function Errors(says: seq<Said>): seq<Error> {
    if says == [] then []
    else if says[0].Quiet? then Errors(says[1..])
    else [says[0].e] + Errors(says[1..])
  }

  /** The first hard failure is at i. */
  ghost predicate FirstHard(says: seq<Said>, i: nat) {
    i < |says| && says[i].Hard? && forall j :: 0 <= j < i ==> !says[j].Hard?
  }

  ghost predicate NoHard(says: seq<Said>) {
    forall j :: 0 <= j < |says| ==> !says[j].Hard?
  }

  /** Every hook runs, whatever the ones before it said; the error raised is the first hard one, and
      every other error of the round, soft ones included, is a note on it, in order. */
  lemma HooksRound(s: RunState, script: Script, hooks: seq<Hook>)
    ensures var p := RunHooks(s, script, hooks, None, []);
            var says := Says(s, script, hooks);
            && (p.broke.Some? ==> says != [] && says[|says| - 1] == Broke(p.broke.value))
            && (p.broke.None? ==> |says| == |hooks| && (p.first.None? <==> NoHard(says)))
            && (p.broke.None? ==> forall i: nat :: FirstHard(says, i) ==>
                  p.first == Some(says[i].e) && p.notes == Errors(says[..i]) + Errors(says[i + 1..]))
  {
    hide RunHook, RunHooks, Says, Errors;
    RoundBroke(s, script, hooks, None, []);
    var says := Says(s, script, hooks);
    var p := RunHooks(s, script, hooks, None, []);
    if p.broke.None? {
      if NoHard(says) {
        RoundQuiet(s, script, hooks, []);
      } else {
        var i := 0;
        while !says[i].Hard?
          invariant i < |says| && (forall j :: 0 <= j < i ==> !says[j].Hard?)
          decreases |says| - i
        {
          i := i + 1;
        }
        assert FirstHard(says, i);
      }
      forall i: nat | FirstHard(says, i)
        ensures p.first == Some(says[i].e) && p.notes == Errors(says[..i]) + Errors(says[i + 1..])
      {
        RoundHard(s, script, hooks, [], i);
        assert [] + Errors(says[..i]) == Errors(says[..i]);
      }
    }
  }

  lemma {:induction false} RoundBroke(s: RunState, script: Script, hooks: seq<Hook>, first: Option<Error>, notes: seq<Error>)
    ensures var p := RunHooks(s, script, hooks, first, notes);
            var says := Says(s, script, hooks);
            && (p.broke.Some? ==> says != [] && says[|says| - 1] == Broke(p.broke.value))
            && (p.broke.None? ==> |says| == |hooks|)
    decreases |hooks|
  {
    hide RunHook;
    if hooks != [] {
      var (t, said) := RunHook(s, script, hooks[0]);
      match said
      case Quiet => RoundBroke(t, script, hooks[1..], first, notes);
      case Soft(e) => RoundBroke(t, script, hooks[1..], first, notes + [e]);
      case Hard(e) => RoundBroke(t, script, hooks[1..], if first.None? then Some(e) else first, if first.None? then notes else notes + [e]);
      case Broke(e) =>
    }
  }

  /** Once there is a first failure, everything later is a note. */
  lemma {:induction false} RoundAfter(s: RunState, script: Script, hooks: seq<Hook>, first: Error, notes: seq<Error>)
    requires RunHooks(s, script, hooks, Some(first), notes).broke.None?
    ensures var p := RunHooks(s, script, hooks, Some(first), notes);
            p.first == Some(first) && p.notes == notes + Errors(Says(s, script, hooks))
    decreases |hooks|
  {
    hide RunHook;
    if hooks != [] {
      var (t, said) := RunHook(s, script, hooks[0]);
      var rest := Says(t, script, hooks[1..]);
      assert ([said] + rest)[1..] == rest;
      if said.Quiet? {
        RoundAfter(t, script, hooks[1..], first, notes);
      } else {
        RoundAfter(t, script, hooks[1..], first, notes + [said.e]);
      }
    }
  }

  lemma {:induction false} RoundQuiet(s: RunState, script: Script, hooks: seq<Hook>, notes: seq<Error>)
    requires NoHard(Says(s, script, hooks)) && RunHooks(s, script, hooks, None, notes).broke.None?
    ensures RunHooks(s, script, hooks, None, notes).first.None?
    decreases |hooks|
  {
    hide RunHook;
    if hooks != [] {
      var (t, said) := RunHook(s, script, hooks[0]);
      var rest := Says(t, script, hooks[1..]);
      assert Says(s, script, hooks)[0] == said;
      if !said.Broke? {
        assert Says(s, script, hooks)[1..] == rest;
        forall j | 0 <= j < |rest| ensures !rest[j].Hard? {
          assert Says(s, script, hooks)[j + 1] == rest[j];
        }
        RoundQuiet(t, script, hooks[1..], if said.Soft? then notes + [said.e] else notes);
      }
    }
  }

  lemma RoundHardNow(s: RunState, script: Script, hooks: seq<Hook>, notes: seq<Error>)
    requires FirstHard(Says(s, script, hooks), 0) && RunHooks(s, script, hooks, None, notes).broke.None?
    ensures var p := RunHooks(s, script, hooks, None, notes);
            var says := Says(s, script, hooks);
            p.first == Some(says[0].e) && p.notes == notes + Errors(says[1..])
  {
    hide RunHook;
    var (t, said) := RunHook(s, script, hooks[0]);
    assert Says(s, script, hooks) == [said] + Says(t, script, hooks[1..]);
    RoundAfter(t, script, hooks[1..], said.e, notes);
  }

  lemma NoErrors()
    ensures Errors([]) == []
  {
  }

  lemma ErrorsAround(said: Said, rest: seq<Said>, i: nat)
    requires 0 < i <= |rest|
    ensures Errors(([said] + rest)[..i]) == (if said.Quiet? then [] else [said.e]) + Errors(rest[..i - 1])
    ensures ([said] + rest)[i + 1..] == rest[i..]
  {
    assert ([said] + rest)[..i][1..] == rest[..i - 1];
  }

  lemma {:induction false} RoundHard(s: RunState, script: Script, hooks: seq<Hook>, notes: seq<Error>, i: nat)
    requires FirstHard(Says(s, script, hooks), i) && RunHooks(s, script, hooks, None, notes).broke.None?
    ensures var p := RunHooks(s, script, hooks, None, notes);
            var says := Says(s, script, hooks);
            p.first == Some(says[i].e) && p.notes == notes + Errors(says[..i]) + Errors(says[i + 1..])
    decreases |hooks|
  {
    hide RunHook, Errors;
    var (t, said) := RunHook(s, script, hooks[0]);
    var says := Says(s, script, hooks);
    if i == 0 {
      RoundHardNow(s, script, hooks, notes);
      assert says[..0] == [] && Errors([]) == [] by { NoErrors(); }
    } else {
      var rest := Says(t, script, hooks[1..]);
      assert says == [said] + rest;
      assert !says[0].Hard?;
      assert says[i] == rest[i - 1];
      forall j | 0 <= j < i - 1 ensures !rest[j].Hard? {
        assert says[j + 1] == rest[j];
      }
      RoundHard(t, script, hooks[1..], if said.Soft? then notes + [said.e] else notes, i - 1);
      ErrorsAround(said, rest, i);
    }
  }

  lemma {:induction false} RunHooksSees(s: RunState, script: Script, hooks: seq<Hook>, first: Option<Error>, notes: seq<Error>)
    requires first.Some? ==> first.value.CheckFailed? || first.value.UserError?
    ensures var p := RunHooks(s, script, hooks, first, notes);
            && s.held <= p.s.held
            && (p.first.Some? ==> p.first.value.CheckFailed? || p.first.value.UserError?)
            && (p.broke.Some? ==> p.broke.value.Interrupt?)
            && (first.Some? ==> p.first == first)
            && (Concluded(p).Normal? && Invariants in hooks ==> forall k :: 0 <= k < |s.preds| ==> s.preds[k] in p.s.held)
    decreases |hooks|
  {
    hide RunHook;
    if hooks != [] {
      RunHookSees(s, script, hooks[0]);
      var (t, said) := RunHook(s, script, hooks[0]);
      match said
      case Quiet => RunHooksSees(t, script, hooks[1..], first, notes);
      case Soft(e) => RunHooksSees(t, script, hooks[1..], first, notes + [e]);
      case Hard(e) =>
        RunHooksSees(t, script, hooks[1..], if first.None? then Some(e) else first, if first.None? then notes else notes + [e]);
      case Broke(e) =>
    }
  }

  // ---- one step ------------------------------------------------------------------------------------------

  /** What a step does to the bookkeeping, and what a step that ended normally wrote down. */
  ghost predicate StepShape(s: RunState, t: RunState, r: StepResult) {
    && t.watch == s.watch && t.settle == s.settle && t.stepError == s.stepError && t.tearingDown == s.tearingDown
    && (forall f :: f in s.results ==> f in t.results && t.results[f] == s.results[f])
    && s.preds <= t.preds
    && s.agenda.now <= t.agenda.now && (s.stopIn.Some? ==> t.agenda.now == s.agenda.now)
    && t.stepsLeft == (if s.stepsLeft.Some? && s.stepsLeft.value > 0 then Some(s.stepsLeft.value - 1) else s.stepsLeft)
    && (r.Raised? ==> t.log == s.log && t.stopIn == s.stopIn && t.settles == s.settles)
    && (r.Normal? ==> s.stepsLeft != Some(0) && Wrote(s, t))
  }

  /** The log entry and the stop countdown of a step that ended normally. */
  ghost predicate Wrote(s: RunState, t: RunState) {
    && |t.log| == |s.log| + 1 && t.log[..|s.log|] == s.log
    && t.log[|s.log|].clock == t.agenda.now
    && t.log[|s.log|].watched == WatchDone(t)
    && (t.watch.None? ==> t.stopIn == s.stopIn)
    && (t.watch.Some? && s.stopIn.None? ==> t.stopIn == if WatchDone(t) then Some(2) else None)
    && (t.watch.Some? && s.stopIn.Some? ==> t.stopIn == Some(s.stopIn.value - 1))
    && (t.stopping <==> t.log[|s.log|].stopped || (t.watch.Some? && s.stopIn == Some(1)))
    && (s.stopping ==> t.log[|s.log|].stopped)
    && t.settles == s.settles + (if t.watch.Some? && s.stopIn == Some(2) && s.settle then 1 else 0)
  }

  lemma AdvanceShape(s: RunState)
    requires AgendaInv(s.agenda)
    ensures var (t, r) := Advance(s);
            && t == s.(agenda := t.agenda) && s.agenda.now <= t.agenda.now && (s.stopIn.Some? ==> t.agenda.now == s.agenda.now)
            && AgendaInv(t.agenda)
            && (r.Raised? <==> Idle(s) && !CanJump(s.agenda) && !s.stopping) && (r.Raised? ==> r == Raised(Deadlock, []) && t == s)
  {
    hide FireDue;
    if Idle(s) && CanJump(s.agenda) {
      JumpInv(s.agenda);
      FireDueInv(Jump(s.agenda));
    } else {
      FireDueInv(s.agenda);
    }
  }

  lemma CountDownShape(s: RunState)
    ensures var t := CountDown(s);
            && t == s.(stopIn := t.stopIn, stopping := t.stopping, hooks := t.hooks, settles := t.settles)
            && (t.watch.None? ==> t.stopIn == s.stopIn)
            && (t.watch.Some? && s.stopIn.None? ==> t.stopIn == if WatchDone(t) then Some(2) else None)
            && (t.watch.Some? && s.stopIn.Some? ==> t.stopIn == Some(s.stopIn.value - 1))
            && (t.stopping <==> s.stopping || (t.watch.Some? && s.stopIn == Some(1)))
            && t.hooks == (if t.watch.Some? && s.stopIn == Some(2) && s.settle then [] else s.hooks)
            && t.settles == s.settles + (if t.watch.Some? && s.stopIn == Some(2) && s.settle then 1 else 0)
  {
  }

  lemma EndStepShape(s: RunState, script: Script)
    ensures var (t, r) := EndStep(s, script);
            && t.watch == s.watch && t.settle == s.settle && t.stepError == s.stepError && t.stepsLeft == s.stepsLeft
            && t.tearingDown == s.tearingDown && t.results == s.results && t.preds == s.preds && t.agenda.now == s.agenda.now
            && (r.Raised? ==> t.log == s.log && t.stopIn == s.stopIn && t.settles == s.settles &&
                              (r.e.CheckFailed? || r.e.UserError? || r.e.Interrupt?))
            && (r.Normal? ==>
                  && t.log == s.log + [StepEnd(t.agenda.now, s.stopping, WatchDone(t), t.held)]
                  && (t.watch.None? ==> t.stopIn == s.stopIn)
                  && (t.watch.Some? && s.stopIn.None? ==> t.stopIn == if WatchDone(t) then Some(2) else None)
                  && (t.watch.Some? && s.stopIn.Some? ==> t.stopIn == Some(s.stopIn.value - 1))
                  && (t.stopping <==> s.stopping || (t.watch.Some? && s.stopIn == Some(1)))
                  && t.hooks == (if t.watch.Some? && s.stopIn == Some(2) && s.settle then [] else s.hooks)
                  && t.settles == s.settles + (if t.watch.Some? && s.stopIn == Some(2) && s.settle then 1 else 0)
                  && (Invariants in s.hooks ==> forall k :: 0 <= k < |s.preds| ==> s.preds[k] in t.held))
  {
    hide RunHooks, CountDown;
    var s0 := s.(held := []);
    RunHooksSees(s0, script, s.hooks, None, []);
    CountDownShape(Logged(RunHooks(s0, script, s.hooks, None, []).s));
  }

  lemma WorkShape(s: RunState, script: Script)
    ensures var (t, r) := Work(s, script);
            && t.watch == s.watch && t.settle == s.settle && t.stepError == s.stepError && t.stepsLeft == s.stepsLeft
            && t.tearingDown == s.tearingDown && t.agenda.now == s.agenda.now && s.preds <= t.preds
            && (forall f :: f in s.results ==> f in t.results && t.results[f] == s.results[f])
            && (r.Raised? ==> t.log == s.log && t.stopIn == s.stopIn && t.settles == s.settles &&
                              (r.e.CheckFailed? || r.e.UserError? || r.e.Interrupt?))
            && (r.Normal? ==> Wrote(s, t))
  {
    hide RunBatch, EndStep;
    RunBatchKeeps(s, script, |s.agenda.ready|);
    EndStepShape(RunBatch(s, script, |s.agenda.ready|).0, script);
  }

  lemma WroteFrom(s: RunState, a: RunState, t: RunState)
    requires a == s.(agenda := a.agenda, stepsLeft := a.stepsLeft)
    ensures Wrote(a, t) ==> Wrote(s, t)
  {
  }

  lemma StepKeepsShape(s: RunState, script: Script)
    requires AgendaInv(s.agenda)
    ensures var (t, r) := Step(s, script); StepShape(s, t, r)
  {
    hide Advance, Work, AgendaInv, Idle, CanJump, Wrote;
    if s.stepsLeft != Some(0) {
      var b := Budgeted(s);
      AdvanceShape(b);
      WorkShape(Advance(b).0, script);
      WroteFrom(s, Advance(b).0, Work(Advance(b).0, script).0);
    }
  }

  /** `DeadlockError` is raised in exactly these states: steps left, nothing ready, no live timer with
      a finite deadline, nobody called `stop`, and not a stop step. */
  lemma DeadlockExactly(s: RunState, script: Script)
    requires AgendaInv(s.agenda) && s.stepError != Deadlock
    ensures Step(s, script).1 == Raised(Deadlock, []) <==>
            && s.stepsLeft != Some(0) && s.agenda.ready == [] && s.stopIn.None? && !s.stopping
            && forall t :: t in s.agenda.timers ==> t.when == Never
  {
    hide Advance, Work, StepShape, Wrote;
    if s.stepsLeft != Some(0) {
      var b := Budgeted(s);
      AdvanceShape(b);
      WorkShape(Advance(b).0, script);
      if s.agenda.timers != [] {
        assert s.agenda.timers[0] in s.agenda.timers;
        if s.agenda.timers[0].when == Never {
          forall t | t in s.agenda.timers ensures t.when == Never {
            var i :| 0 <= i < |s.agenda.timers| && s.agenda.timers[i] == t;
            assert i > 0 ==> Before(s.agenda.timers[0], t);
          }
        }
      }
    }
  }
}
