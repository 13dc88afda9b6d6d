/** Exact virtual time and firing order, over whole runs of any program. */
module VirtualTime {
  import opened Common
  import opened Agendas
  import opened LoopModel
  import opened LoopProperties

  lemma EndUntilAgenda(s: RunState)
    requires AgendaInv(s.agenda)
    ensures AgendaInv(EndUntil(s).agenda)
  {
    hide AgendaInv, Cancel, Removed;
    if s.untilActive && s.untils != [] && s.untils[|s.untils| - 1].timer.Some? {
      CancelInv(s.agenda, s.untils[|s.untils| - 1].timer.value);
    }
  }

  lemma DoCallAtAgenda(s: RunState, when: Num)
    requires AgendaInv(s.agenda)
    ensures AgendaInv(DoCallAt(s, when).agenda)
  {
    hide AgendaInv, CallAt;
    var d := ToDeadline(when);
    if d.Some? {
      CallAtInv(s.agenda, d.value, s.nextHandle);
    }
  }

  lemma BeginUntilAgenda(s: RunState, script: Script, deadline: Option<Num>)
    requires AgendaInv(s.agenda)
    ensures AgendaInv(BeginUntil(s, script, deadline).agenda)
  {
    hide AgendaInv, CheckUntil, EndUntil, DoCallAt;
    if !(s.untilActive || (deadline.Some? && !deadline.value.Real?)) {
      var t := EnterUntil(s, if deadline.Some? then Some(deadline.value.r) else None);
      if deadline.Some? {
        DoCallAtAgenda(s, Real(s.agenda.now + deadline.value.r));
      }
      EndUntilAgenda(CheckUntil(t, script, |s.untils|).0);
    }
  }

  lemma PerformAgenda(s: RunState, script: Script, op: Op)
    requires AgendaInv(s.agenda)
    ensures AgendaInv(Perform(s, script, op).agenda)
  {
    hide AgendaInv, BeginUntil, EndUntil, DoCallAt, CallSoon, Cancel, Answered, Internal;
    match op
    case OpCallSoon => CallSoonInv(s.agenda, s.nextHandle);
    case OpCallAt(when) => DoCallAtAgenda(s, when);
    case OpCallLater(delay) => DoCallAtAgenda(s, After(s.agenda.now, delay));
    case OpCancel(h) => CancelInv(s.agenda, h);
    case OpSpawn(_) => CallSoonInv(s.agenda, s.nextHandle);
    case OpBeginUntil(deadline) => BeginUntilAgenda(s, script, deadline);
    case OpCancelUntil => CallSoonInv(s.agenda, s.nextHandle);
    case OpEndUntil => EndUntilAgenda(s);
    case _ =>
  }

  lemma {:induction false} PerformAllAgenda(s: RunState, script: Script, ops: seq<Op>)
    requires AgendaInv(s.agenda)
    ensures AgendaInv(PerformAll(s, script, ops).agenda)
    decreases |ops|
  {
    hide AgendaInv, Perform;
    if ops != [] {
      PerformAgenda(s, script, ops[0]);
      PerformAllAgenda(Perform(s, script, ops[0]), script, ops[1..]);
    }
  }

  lemma RunEntryAgenda(s: RunState, script: Script)
    requires AgendaInv(s.agenda) && s.agenda.ready != []
    ensures AgendaInv(RunEntry(s, script).0.agenda)
  {
    hide AgendaInv, PerformAll, Take;
    TakeInv(s.agenda, false);
    TakeInv(s.agenda, true);
    PerformAllAgenda(s.(agenda := Take(s.agenda, true), turn := s.turn + 1), script, script.turns(s.turn).ops);
  }

  lemma {:induction false} RunBatchAgenda(s: RunState, script: Script, n: nat)
    requires AgendaInv(s.agenda)
    ensures AgendaInv(RunBatch(s, script, n).0.agenda)
    decreases n
  {
    hide AgendaInv, RunEntry;
    if n > 0 && s.agenda.ready != [] {
      RunEntryAgenda(s, script);
      RunBatchAgenda(RunEntry(s, script).0, script, n - 1);
    }
  }

  lemma RunHookAgenda(s: RunState, script: Script, h: Hook)
    requires AgendaInv(s.agenda)
    ensures AgendaInv(RunHook(s, script, h).0.agenda)
  {
    hide AgendaInv, CheckUntil, CheckInvariants, CallSoon;
    CallSoonInv(s.agenda, s.nextHandle);
  }

  lemma {:induction false} RunHooksAgenda(s: RunState, script: Script, hooks: seq<Hook>, first: Option<Error>, notes: seq<Error>)
    requires AgendaInv(s.agenda)
    ensures AgendaInv(RunHooks(s, script, hooks, first, notes).s.agenda)
    decreases |hooks|
  {
    hide AgendaInv, RunHook;
    if hooks != [] {
      RunHookAgenda(s, script, hooks[0]);
      var (t, said) := RunHook(s, script, hooks[0]);
      match said
      case Quiet => RunHooksAgenda(t, script, hooks[1..], first, notes);
      case Soft(e) => RunHooksAgenda(t, script, hooks[1..], first, notes + [e]);
      case Hard(e) => RunHooksAgenda(t, script, hooks[1..], if first.None? then Some(e) else first, if first.None? then notes else notes + [e]);
      case Broke(e) =>
    }
  }

  lemma EndStepAgenda(s: RunState, script: Script)
    requires AgendaInv(s.agenda)
    ensures AgendaInv(EndStep(s, script).0.agenda)
  {
    hide AgendaInv, RunHooks;
    RunHooksAgenda(s.(held := []), script, s.hooks, None, []);
  }

  lemma WorkAgenda(s: RunState, script: Script)
    requires AgendaInv(s.agenda)
    ensures AgendaInv(Work(s, script).0.agenda)
  {
    hide AgendaInv, RunBatch, EndStep;
    RunBatchAgenda(s, script, |s.agenda.ready|);
    EndStepAgenda(RunBatch(s, script, |s.agenda.ready|).0, script);
  }

  /** Every step keeps the agenda's invariant: nothing fires late, early or out of order. */
  lemma StepAgenda(s: RunState, script: Script)
    requires AgendaInv(s.agenda)
    ensures AgendaInv(Step(s, script).0.agenda)
  {
    hide AgendaInv, Advance, Work;
    AdvanceShape(Budgeted(s));
    WorkAgenda(Advance(Budgeted(s)).0, script);
  }

  lemma {:induction false} RunForeverAgenda(s: RunState, script: Script, fuel: nat)
    requires AgendaInv(s.agenda)
    ensures var t := RunForever(s, script, fuel).0; AgendaInv(t.agenda) && s.agenda.now <= t.agenda.now
    decreases fuel
  {
    hide AgendaInv, Step, Wrote;
    if fuel > 0 {
      StepAgenda(s, script);
      StepKeepsShape(s, script);
      RunForeverAgenda(Step(s, script).0, script, fuel - 1);
    }
  }

  ghost predicate FiredOnTime<C>(a: Agenda<C>) {
    forall i :: 0 <= i < |a.taken| && a.taken[i].entry.Fired? ==>
      var t := a.taken[i].entry.timer;
      t.when != Never && a.taken[i].clock == FireTime(t)
  }

  ghost predicate NonePassed<C>(a: Agenda<C>) {
    forall t :: t in a.timers && t.when != Never ==> a.now <= FireTime(t)
  }

  /** Of two timers, the one with the earlier (or equal) deadline that was created first has fired
      first, if the other has fired at all. */
  ghost predicate FiredInOrder<C>(a: Agenda<C>) {
    && (forall i, j :: 0 <= i < |Line(a)| && 0 <= j < |Line(a)| && Line(a)[i].Fired? && Line(a)[j].Fired? &&
          NoLater(Line(a)[i].timer.when, Line(a)[j].timer.when) && Line(a)[i].timer.order < Line(a)[j].timer.order
          ==> i < j)
    && (forall t, j :: t in a.timers && 0 <= j < |Line(a)| && Line(a)[j].Fired? ==>
          !(NoLater(t.when, Line(a)[j].timer.when) && t.order < Line(a)[j].timer.order))
  }

  lemma AgendaMeans<C>(a: Agenda<C>)
    requires AgendaInv(a)
    ensures FiredOnTime(a) && NonePassed(a) && FiredInOrder(a)
  {
    forall i, j | 0 <= i < |Line(a)| && 0 <= j < |Line(a)| && Line(a)[i].Fired? && Line(a)[j].Fired? &&
                  NoLater(Line(a)[i].timer.when, Line(a)[j].timer.when) && Line(a)[i].timer.order < Line(a)[j].timer.order
      ensures i < j
    {
      FiresInOrder(a, i, j);
    }
    forall t, j | t in a.timers && 0 <= j < |Line(a)| && Line(a)[j].Fired?
      ensures !(NoLater(t.when, Line(a)[j].timer.when) && t.order < Line(a)[j].timer.order)
    {
      NotLeftBehind(a, t, j);
    }
  }

  /** Over any run of any program the clock never goes back and never passes a live timer; every timer
      that fired did so at max(its deadline, the moment it was set); and equal deadlines fire in
      creation order. */
  lemma ExactVirtualTime(s: RunState, script: Script, fuel: nat)
    requires AgendaInv(s.agenda)
    ensures var a := RunForever(s, script, fuel).0.agenda;
            s.agenda.now <= a.now && AgendaInv(a) && FiredOnTime(a) && NonePassed(a) && FiredInOrder(a)
  {
    hide RunForever, AgendaInv;
    RunForeverAgenda(s, script, fuel);
    AgendaMeans(RunForever(s, script, fuel).0.agenda);
  }
}
