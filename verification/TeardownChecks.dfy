/** Nothing can be registered while a run is torn down: no `always` predicate comes to be checked there that
    was not before, and after a failure none is checked at all. */
module TeardownChecks {
  import opened Common
  import opened Agendas
  import opened LoopModel
  import opened Teardown

  /** The registered predicates are the same, and their check is listed only if it was. */
  ghost predicate NoMore(s: RunState, t: RunState) {
    t.tearingDown && t.preds == s.preds && (Invariants in t.hooks ==> Invariants in s.hooks)
  }

  lemma {:induction false} RemovedHooks(hooks: seq<Hook>, h: Hook, x: Hook)
    ensures x in Removed(hooks, h) ==> x in hooks
  {
    if hooks != [] {
      RemovedHooks(hooks[1..], h, x);
    }
  }

  lemma EndUntilNoMore(s: RunState)
    requires s.tearingDown
    ensures NoMore(s, EndUntil(s))
  {
    hide Removed, Without;
    if s.untilActive && s.untils != [] {
      RemovedHooks(s.hooks, Until(|s.untils| - 1), Invariants);
    }
  }

  lemma BeginUntilNoMore(s: RunState, script: Script, deadline: Option<Num>)
    requires s.tearingDown
    ensures NoMore(s, BeginUntil(s, script, deadline))
  {
    hide EndUntil, CheckUntil, Insert;
    if !s.untilActive && (deadline.Some? ==> deadline.value.Real?) {
      var entered := EnterUntil(s, if deadline.Some? then Some(deadline.value.r) else None);
      assert NoMore(s, entered);
      EndUntilNoMore(CheckUntil(entered, script, |s.untils|).0);
    }
  }

  lemma PerformNoMore(s: RunState, script: Script, op: Op)
    requires s.tearingDown
    ensures NoMore(s, Perform(s, script, op))
  {
    hide BeginUntil, EndUntil, Insert, Without, Internal;
    match op
    case OpBeginUntil(deadline) => BeginUntilNoMore(s, script, deadline);
    case OpEndUntil => EndUntilNoMore(s);
    case _ =>
  }

  lemma {:induction false} PerformAllNoMore(s: RunState, script: Script, ops: seq<Op>)
    requires s.tearingDown
    ensures NoMore(s, PerformAll(s, script, ops))
    decreases |ops|
  {
    hide Perform;
    if ops != [] {
      PerformNoMore(s, script, ops[0]);
      PerformAllNoMore(Perform(s, script, ops[0]), script, ops[1..]);
    }
  }

  lemma {:induction false} BatchNoMore(s: RunState, script: Script, n: nat)
    requires s.tearingDown
    ensures NoMore(s, RunBatch(s, script, n).0)
    decreases n
  {
    hide PerformAll, Take;
    if n > 0 && s.agenda.ready != [] {
      PerformAllNoMore(s.(agenda := Take(s.agenda, true), turn := s.turn + 1), script, script.turns(s.turn).ops);
      BatchNoMore(RunEntry(s, script).0, script, n - 1);
    }
  }

  lemma EndStepNoMore(s: RunState, script: Script)
    requires s.tearingDown
    ensures NoMore(s, EndStep(s, script).0)
  {
    hide RunHooks;
  }

  lemma StepNoMore(s: RunState, script: Script)
    requires s.tearingDown
    ensures NoMore(s, Step(s, script).0)
  {
    hide RunBatch, EndStep, FireDue, Jump, CanJump, Idle;
    if s.stepsLeft != Some(0) {
      var a := Advance(Budgeted(s)).0;
      BatchNoMore(a, script, |a.agenda.ready|);
      EndStepNoMore(RunBatch(a, script, |a.agenda.ready|).0, script);
    }
  }

  lemma {:induction false} RunNoMore(s: RunState, script: Script, fuel: nat)
    requires s.tearingDown
    ensures NoMore(s, RunForever(s, script, fuel).0)
    decreases fuel
  {
    hide Step;
    if fuel > 0 {
      StepNoMore(s, script);
      var (t, r) := Step(s, script);
      if r.Normal? && !t.stopping {
        RunNoMore(t, script, fuel - 1);
      }
    }
  }

  lemma {:induction false} GroupNoMore(s: RunState, script: Script, f: Future)
    requires s.stepsLeft.Some? && s.tearingDown
    ensures NoMore(s, RunGroup(s, script, f).0)
    decreases s.stepsLeft.value
  {
    hide RunForever;
    if f !in s.results {
      BudgetBounds(s, script, s.stepsLeft.value + 1);
      RunNoMore(s, script, s.stepsLeft.value + 1);
      var (t, end) := RunForever(s, script, s.stepsLeft.value + 1);
      if !end.Threw? && f !in t.results {
        GroupNoMore(t, script, f);
      }
    }
  }

  /** Whatever user code does while it is cancelled, teardown ends with the predicates it began with, and
      with their check listed only if it was. */
  lemma {:induction false} TeardownRegistersNothing(s: RunState, script: Script, wakes: Wakes, round: nat)
    requires s.tearingDown
    ensures NoMore(s, CancelEverything(s, script, wakes, round).0)
    decreases ROUNDS - round
  {
    hide RunGroup, PendingFrom, CancelAll;
    if round < ROUNDS && Teardown.Pending(s) != [] {
      var c := RoundStart(s, wakes, round);
      GroupNoMore(c, script, Group(round));
      var (t, e) := RunGroup(c, script, Group(round));
      if e.None? {
        TeardownRegistersNothing(t, script, wakes, round + 1);
      }
    }
  }
}
