/** What user code asks of the loop is done: every operation of every callback that ran in a step has had
    its effect by the end of it, and an interrupt stops the step where it escaped. */
module CallbackEffects {
  import opened Common
  import opened Agendas
  import opened LoopModel
  import opened LoopProperties
  import opened EventLoop
  import opened Batches
  import opened RunUntil
  import opened RunUntilExits

  // ---- what only ever grows -----------------------------------------------------------------------------

  ghost predicate Grew(s: RunState, t: RunState) {
    && Kept(s, t)
    && s.nextHandle <= t.nextHandle && s.cancelled <= t.cancelled && s.nextTask <= t.nextTask
    && s.started <= t.started && |s.untils| <= |t.untils| && (t.untilActive && !s.untilActive ==> |s.untils| < |t.untils|)
    && (forall u :: u in s.agenda.timers ==> u in t.agenda.timers || u.what in t.cancelled)
  }

  lemma GrewOn(s: RunState, t: RunState, u: RunState)
    requires Grew(s, t) && Grew(t, u)
    ensures Grew(s, u)
  {
  }

  lemma EndUntilGrew(s: RunState)
    ensures Grew(s, EndUntil(s))
  {
    hide Kept, Removed;
    EndUntilKeeps(s);
    if s.untilActive && s.untils != [] && s.untils[|s.untils| - 1].timer.Some? {
      WithoutMembers(s.agenda.timers, s.untils[|s.untils| - 1].timer.value);
    }
  }

  lemma CallAtGrew(s: RunState, when: Num)
    ensures Grew(s, DoCallAt(s, when))
  {
    hide Kept;
    CallsKeep(s, when);
    var d := ToDeadline(when);
    if d.Some? {
      InsertMembers(s.agenda.timers, Timer(d.value, s.agenda.nextSeq, s.agenda.now, s.nextHandle));
    }
  }

  lemma BeginUntilGrew(s: RunState, script: Script, deadline: Option<Num>)
    ensures Grew(s, BeginUntil(s, script, deadline))
  {
    hide CheckUntil, EndUntil, DoCallAt, Kept;
    BeginUntilKeeps(s, script, deadline);
    if !(s.untilActive || (deadline.Some? && !deadline.value.Real?)) {
      var d := if deadline.Some? then Some(deadline.value.r) else None;
      var t := EnterUntil(s, d);
      EnterUntilKeeps(s, d);
      if d.Some? {
        CallAtGrew(s, Real(s.agenda.now + d.value));
      }
      var u := CheckUntil(t, script, |s.untils|).0;
      assert Grew(s, u) by { assert Kept(s, u) by { CheckedKeeps(s, t, u); } }
      EndUntilGrew(u);
      GrewOn(s, u, EndUntil(u));
    }
  }

  lemma CheckedKeeps(s: RunState, t: RunState, u: RunState)
    requires Kept(s, t) && u == t.(look := u.look, untils := u.untils)
    ensures Kept(s, u)
  {
  }

  lemma PerformGrew(s: RunState, script: Script, op: Op)
    ensures Grew(s, Perform(s, script, op))
  {
    hide Kept, BeginUntil, EndUntil, DoCallAt, Without, Internal, After;
    PerformKeeps(s, script, op);
    match op
    case OpCallAt(when) => CallAtGrew(s, when);
    case OpCallLater(delay) => CallAtGrew(s, After(s.agenda.now, delay));
    case OpCancel(h) => WithoutMembers(s.agenda.timers, h);
    case OpBeginUntil(deadline) => BeginUntilGrew(s, script, deadline);
    case OpEndUntil => EndUntilGrew(s);
    case _ =>
  }

  // ---- what each operation is for --------------------------------------------------------------------------

  /** A callback handed over since s stands in the queue, not before place m. */
  ghost predicate Queued(s: RunState, t: RunState, m: nat) {
    exists i :: m <= i < |t.agenda.ready| && t.agenda.ready[i].Soon? && s.nextHandle <= t.agenda.ready[i].what < t.nextHandle
  }

  /** The deadline that a time argument is; not-a-number is none. */
  predicate Means(d: Deadline, n: Num) {
    match n
    case Real(r) => d == At(r)
    case PosInf => d == Never
    case NegInf => d == Past
    case NaN => false
  }

  /** A timer for this deadline, made since s at the present moment, is waiting unless it was cancelled. */
  ghost predicate TimerMade(s: RunState, t: RunState, when: Num) {
    exists u: Timer<Handle> ::
      && s.nextHandle <= u.what < t.nextHandle && Means(u.when, when) && u.setAt == t.agenda.now
      && (u in t.agenda.timers || u.what in t.cancelled)
  }

  /** The operation has had its effect by t, if it was asked for after s. */
  ghost predicate Done(op: Op, s: RunState, t: RunState, m: nat) {
    match op
    case OpCallSoon => Queued(s, t, m)
    case OpCallAt(when) => when.NaN? || TimerMade(s, t, when)
    case OpCallLater(Real(d)) => TimerMade(s, t, Real(t.agenda.now + d))
    case OpCallLater(delay) => delay.NaN? || TimerMade(s, t, delay)
    case OpCancel(h) => h >= s.nextHandle || Internal(t, h) || h in t.cancelled
    case OpStop => t.stopping
    case OpSpawn(node) => Queued(s, t, m) && s.nextTask < t.nextTask && (node ==> Started(s, t))
    case OpFinish(f, _) => f in t.results || (f.Task? && f.n >= s.nextTask)
    case OpAlways(name) => s.tearingDown || Registered(name, |s.log|) in t.preds
    case OpBeginUntil(deadline) => s.untilActive || (deadline.Some? && !deadline.value.Real?) || |s.untils| < |t.untils|
    case _ => true
  }

  /** A task created since s is among the started nodes. */
  ghost predicate Started(s: RunState, t: RunState) {
    exists n :: n in t.started && s.nextTask <= n < t.nextTask
  }

  lemma SoonDone(s: RunState, t: RunState)
    requires t.agenda.ready == s.agenda.ready + [Soon(s.nextHandle)] && t.nextHandle == s.nextHandle + 1
    ensures Queued(s, t, |s.agenda.ready|)
  {
    assert t.agenda.ready[|s.agenda.ready|] == Soon(s.nextHandle);
  }

  lemma CallAtDone(s: RunState, when: Num)
    requires !when.NaN?
    ensures TimerMade(s, DoCallAt(s, when), when)
  {
    var u := Timer(ToDeadline(when).value, s.agenda.nextSeq, s.agenda.now, s.nextHandle);
    InsertMembers(s.agenda.timers, u);
    assert u in DoCallAt(s, when).agenda.timers;
  }

  lemma BeginDone(s: RunState, script: Script, deadline: Option<Num>)
    requires !s.untilActive && (deadline.Some? ==> deadline.value.Real?)
    ensures |BeginUntil(s, script, deadline).untils| == |s.untils| + 1
  {
    hide CheckUntil, EndUntil, DoCallAt;
  }

  lemma OpDone(s: RunState, script: Script, op: Op)
    ensures Done(op, s, Perform(s, script, op), |s.agenda.ready|)
  {
    hide BeginUntil, EndUntil, DoCallAt, Without, TimerMade, Queued, ToDeadline;
    var t := Perform(s, script, op);
    match op
    case OpCallSoon => SoonDone(s, t);
    case OpCallAt(when) => if !when.NaN? { CallAtDone(s, when); }
    case OpCallLater(delay) => if !delay.NaN? { CallAtDone(s, After(s.agenda.now, delay)); SameClockAt(s, After(s.agenda.now, delay)); }
    case OpSpawn(node) => SoonDone(s, t); assert node ==> s.nextTask in t.started;
    case OpBeginUntil(deadline) => if !s.untilActive && (deadline.Some? ==> deadline.value.Real?) { BeginDone(s, script, deadline); }
    case OpAlways(name) => if !s.tearingDown { assert t.preds[|s.preds|] == Registered(name, |s.log|); }
    case _ =>
  }

  lemma SameClockAt(s: RunState, when: Num)
    ensures DoCallAt(s, when).agenda.now == s.agenda.now
  {
  }

  // ---- and stays done ----------------------------------------------------------------------------------------

  /** What an effect that lasts rests on. */
  ghost predicate Lasts(t: RunState, u: RunState) {
    && u.agenda.now == t.agenda.now && t.nextHandle <= u.nextHandle && t.nextTask <= u.nextTask
    && (t.stopping ==> u.stopping) && t.results.Keys <= u.results.Keys && t.preds <= u.preds && t.started <= u.started
    && t.cancelled <= u.cancelled && (forall x :: x in t.agenda.timers ==> x in u.agenda.timers || x.what in u.cancelled)
  }

  lemma GrewLasts(t: RunState, u: RunState)
    requires Grew(t, u)
    ensures Lasts(t, u)
  {
  }

  lemma TimerStaysMade(s: RunState, t: RunState, u: RunState, when: Num)
    requires TimerMade(s, t, when) && Lasts(t, u)
    ensures TimerMade(s, u, when)
  {
    var x: Timer<Handle> :| s.nextHandle <= x.what < t.nextHandle && Means(x.when, when) && x.setAt == t.agenda.now
                            && (x in t.agenda.timers || x.what in t.cancelled);
    assert x in u.agenda.timers || x.what in u.cancelled;
  }

  /** The queue lost at most its first k entries. */
  ghost predicate QueueLost(t: RunState, u: RunState, k: nat) {
    k <= |t.agenda.ready| && t.agenda.ready[k..] <= u.agenda.ready
  }

  lemma QueuedStays(s: RunState, t: RunState, u: RunState, m: nat, k: nat)
    requires Queued(s, t, m) && t.nextHandle <= u.nextHandle && QueueLost(t, u, k) && k <= m
    ensures Queued(s, u, m - k)
  {
    var i :| m <= i < |t.agenda.ready| && t.agenda.ready[i].Soon? && s.nextHandle <= t.agenda.ready[i].what < t.nextHandle;
    assert u.agenda.ready[i - k] == t.agenda.ready[k..][i - k];
  }

  lemma InternalStays(t: RunState, u: RunState, h: Handle)
    requires Internal(t, h) && |t.untils| <= |u.untils| && forall i :: 0 <= i < |t.untils| ==> u.untils[i].timer == t.untils[i].timer
    ensures Internal(u, h)
  {
    var i :| 0 <= i < |t.untils| && t.untils[i].timer == Some(h);
    assert u.untils[i].timer == Some(h);
  }

  ghost predicate TimersOfCalls(t: RunState, u: RunState) {
    |t.untils| <= |u.untils| && forall i :: 0 <= i < |t.untils| ==> u.untils[i].timer == t.untils[i].timer
  }

  lemma DoneStays(op: Op, s: RunState, t: RunState, u: RunState, m: nat, k: nat)
    requires Done(op, s, t, m) && Lasts(t, u) && TimersOfCalls(t, u) && QueueLost(t, u, k) && k <= m
    ensures Done(op, s, u, m - k)
  {
    hide TimerMade, Queued, Internal;
    match op
    case OpCallSoon => QueuedStays(s, t, u, m, k);
    case OpCallAt(when) => if !when.NaN? { TimerStaysMade(s, t, u, when); }
    case OpCallLater(Real(d)) => TimerStaysMade(s, t, u, Real(t.agenda.now + d));
    case OpCallLater(delay) => if !delay.NaN? { TimerStaysMade(s, t, u, delay); }
    case OpCancel(h) => if Internal(t, h) { InternalStays(t, u, h); }
    case OpSpawn(node) =>
      QueuedStays(s, t, u, m, k);
      if node {
        var n :| n in t.started && s.nextTask <= n < t.nextTask;
        assert n in u.started;
      }
    case OpAlways(name) =>
      if !s.tearingDown {
        var i :| 0 <= i < |t.preds| && t.preds[i] == Registered(name, |s.log|);
        assert u.preds[i] == t.preds[i];
      }
    case _ =>
  }

  /** Done since t, so done since s before it. */
  lemma DoneSince(op: Op, s: RunState, t: RunState, u: RunState, m: nat)
    requires Done(op, t, u, m) && Grew(s, t) && Grew(t, u)
    ensures Done(op, s, u, m)
  {
    hide ToDeadline, Internal, Kept;
    KeptParts(s, t);
  }

  lemma KeptParts(s: RunState, t: RunState)
    requires Kept(s, t)
    ensures t.log == s.log && t.tearingDown == s.tearingDown && t.agenda.now == s.agenda.now
  {
  }

  // ---- a callback, a batch, a step -----------------------------------------------------------------------------

  lemma GrewNone(s: RunState)
    ensures Grew(s, s) && TimersOfCalls(s, s)
  {
  }

  lemma CallsKeepTimers(s: RunState, script: Script, op: Op)
    ensures TimersOfCalls(s, Perform(s, script, op))
  {
    hide Without, Insert, Removed, Internal, ToDeadline, After, BeginUntil;
    if op.OpBeginUntil? {
      BeginKeepsTimers(s, script, op.deadline);
    }
  }

  lemma BeginKeepsTimers(s: RunState, script: Script, deadline: Option<Num>)
    ensures TimersOfCalls(s, BeginUntil(s, script, deadline))
  {
    hide EndUntil, EnterUntil, CheckUntil;
    if !(s.untilActive || (deadline.Some? && !deadline.value.Real?)) {
      var d := if deadline.Some? then Some(deadline.value.r) else None;
      EnteredCall(s, d);
      CheckUntilWrites(EnterUntil(s, d), script, |s.untils|);
    }
  }

  lemma {:induction false} AllDone(s: RunState, script: Script, ops: seq<Op>)
    ensures var t := PerformAll(s, script, ops);
            && Grew(s, t) && TimersOfCalls(s, t) && s.agenda.ready <= t.agenda.ready
            && forall op :: op in ops ==> Done(op, s, t, |s.agenda.ready|)
    decreases |ops|
  {
    hide Perform, Grew, Done;
    GrewNone(s);
    if ops != [] {
      var t := Perform(s, script, ops[0]);
      PerformGrew(s, script, ops[0]);
      PerformReady(s, script, ops[0]);
      CallsKeepTimers(s, script, ops[0]);
      OpDone(s, script, ops[0]);
      AllDone(t, script, ops[1..]);
      var u := PerformAll(t, script, ops[1..]);
      GrewOn(s, t, u);
      forall op | op in ops ensures Done(op, s, u, |s.agenda.ready|) {
        if op == ops[0] {
          GrewLasts(t, u);
          DoneStays(op, s, t, u, |s.agenda.ready|, 0);
        } else {
          assert op in ops[1..];
          DoneSince(op, s, t, u, |t.agenda.ready|);
          DoneSooner(op, s, u, |t.agenda.ready|, |s.agenda.ready|);
        }
      }
    }
  }

  lemma DoneSooner(op: Op, s: RunState, t: RunState, m: nat, n: nat)
    requires Done(op, s, t, m) && n <= m
    ensures Done(op, s, t, n)
  {
    hide TimerMade, Internal;
  }

  /** The operations of the callbacks performed between s and t are done. */
  ghost predicate CallbacksDone(s: RunState, script: Script, t: RunState) {
    forall k: nat, op :: s.turn <= k < t.turn && op in script.turns(k).ops ==> Done(op, s, t, 0)
  }

  lemma EntryDone(s: RunState, script: Script, n: nat)
    requires 0 < n <= |s.agenda.ready|
    ensures var t := RunEntry(s, script).0;
            && Grew(s, t) && TimersOfCalls(s, t) && s.agenda.ready[1..] <= t.agenda.ready
            && s.turn <= t.turn <= s.turn + 1
            && forall op :: t.turn > s.turn && op in script.turns(s.turn).ops ==> Done(op, s, t, n - 1)
  {
    hide PerformAll, Grew, Done;
    var u := s.(agenda := Take(s.agenda, true), turn := s.turn + 1);
    var ops := script.turns(s.turn).ops;
    GrewTake(s, true);
    GrewTake(s, false);
    AllDone(u, script, ops);
    PerformAllTakes(u, script, ops);
    var t := PerformAll(u, script, ops);
    GrewOn(s, u, t);
    forall op | op in ops ensures Done(op, s, t, n - 1) {
      DoneSince(op, s, u, t, |u.agenda.ready|);
      DoneSooner(op, s, t, |u.agenda.ready|, n - 1);
    }
  }

  lemma GrewTake(s: RunState, run: bool)
    requires s.agenda.ready != []
    ensures Grew(s, s.(agenda := Take(s.agenda, run))) && Grew(s, s.(agenda := Take(s.agenda, run), turn := s.turn + 1))
  {
  }

  lemma {:induction false} BatchDone(s: RunState, script: Script, n: nat)
    requires n <= |s.agenda.ready|
    ensures var t := RunBatch(s, script, n).0; Grew(s, t) && TimersOfCalls(s, t) && s.turn <= t.turn && CallbacksDone(s, script, t)
    decreases n
  {
    hide RunEntry, Grew, Done, Fair, Exactly;
    GrewNone(s);
    if n > 0 {
      EntryDone(s, script, n);
      var (t, r) := RunEntry(s, script);
      if r.Normal? {
        BatchDone(t, script, n - 1);
        var u := RunBatch(t, script, n - 1).0;
        GrewOn(s, t, u);
        BatchQueue(t, script, n - 1);
        var k: nat :| k <= n - 1 && QueueLost(t, u, k);
        forall j: nat, op | s.turn <= j < u.turn && op in script.turns(j).ops ensures Done(op, s, u, 0) {
          if j < t.turn {
            GrewLasts(t, u);
            DoneStays(op, s, t, u, n - 1, k);
            DoneSooner(op, s, u, n - 1 - k, 0);
          } else {
            DoneSince(op, s, t, u, 0);
          }
        }
      } else {
        forall j: nat, op | s.turn <= j < t.turn && op in script.turns(j).ops ensures Done(op, s, t, 0) {
          DoneSooner(op, s, t, n - 1, 0);
        }
      }
    }
  }

  lemma BatchQueue(s: RunState, script: Script, n: nat)
    requires n <= |s.agenda.ready|
    ensures exists k: nat :: k <= n && QueueLost(s, RunBatch(s, script, n).0, k)
  {
    hide RunBatch, Fair, Exactly;
    BatchTakes(s, script, n);
    var t := RunBatch(s, script, n).0;
    FairGrows(s, t);
    assert QueueLost(s, t, |Since(s, t)|);
  }

  /** An interrupt is raised exactly if the last callback performed let one escape; none before it did. */
  lemma {:induction false} InterruptsStop(s: RunState, script: Script, n: nat)
    ensures var (t, r) := RunBatch(s, script, n);
            && s.turn <= t.turn && (forall k: nat :: s.turn <= k < t.turn - 1 ==> script.turns(k).interrupt.None?)
            && (r.Normal? ==> forall k: nat :: s.turn <= k < t.turn ==> script.turns(k).interrupt.None?)
            && (r.Raised? ==> t.turn > s.turn && script.turns(t.turn - 1).interrupt.Some? &&
                              r == Raised(Interrupt(script.turns(t.turn - 1).interrupt.value), []))
    decreases n
  {
    hide PerformAll, Take;
    if n > 0 && s.agenda.ready != [] {
      PerformAllTakes(s.(agenda := Take(s.agenda, true), turn := s.turn + 1), script, script.turns(s.turn).ops);
      InterruptsStop(RunEntry(s, script).0, script, n - 1);
    }
  }

  // ---- a whole step ----------------------------------------------------------------------------------------------

  lemma {:induction false} HooksLast(s: RunState, script: Script, hooks: seq<Hook>, first: Option<Error>, notes: seq<Error>)
    ensures var t := RunHooks(s, script, hooks, first, notes).s; TimersOfCalls(s, t) && s.nextHandle <= t.nextHandle
    decreases |hooks|
  {
    hide RunHook;
    if hooks != [] {
      HookLasts(s, script, hooks[0]);
      var (t, said) := RunHook(s, script, hooks[0]);
      if !said.Broke? {
        HooksLast(t, script, hooks[1..], if said.Hard? && first.None? then Some(said.e) else first,
                  if said.Soft? || (said.Hard? && first.Some?) then notes + [said.e] else notes);
      }
    }
  }

  lemma HookLasts(s: RunState, script: Script, h: Hook)
    ensures var t := RunHook(s, script, h).0; TimersOfCalls(s, t) && s.nextHandle <= t.nextHandle
  {
    hide CheckInvariants, CheckUntil;
    if h.Until? && h.id < |s.untils| {
      CheckKeepsTimers(s, script, h.id);
    }
  }

  lemma EndStepLasts(s: RunState, script: Script)
    ensures var t := EndStep(s, script).0;
            Lasts(s, t) && TimersOfCalls(s, t) && QueueLost(s, t, 0) && t.turn == s.turn
  {
    hide RunHooks, CountDown;
    var s0 := s.(held := []);
    HooksLast(s0, script, s.hooks, None, []);
    HooksTake(s0, script, s.hooks, None, []);
    var p := RunHooks(s0, script, s.hooks, None, []).s;
    CountDownShape(Logged(p));
  }

  lemma DoneFrom(op: Op, s: RunState, a: RunState, t: RunState)
    requires Done(op, a, t, 0) && a == s.(agenda := a.agenda, stepsLeft := a.stepsLeft)
    ensures Done(op, s, t, 0)
  {
    hide ToDeadline;
  }

  /** Every operation of every callback that a step performs is done when the step is over, however the
      step ended. */
  lemma EveryOperationDone(s: RunState, script: Script)
    ensures CallbacksDone(s, script, Step(s, script).0)
  {
    hide Advance, Work, CallbacksDone;
    if s.stepsLeft == Some(0) {
      assert CallbacksDone(s, script, s) by { NothingToDo(s, script, s); }
    } else {
      var b := Budgeted(s);
      var (a, r) := Advance(b);
      assert a == s.(agenda := a.agenda, stepsLeft := a.stepsLeft);
      if r.Normal? {
        WorkDone(a, script);
        CallbacksDoneFrom(s, a, script, Work(a, script).0);
      } else {
        NothingToDo(s, script, a);
      }
    }
  }

  lemma NothingToDo(s: RunState, script: Script, t: RunState)
    requires t.turn == s.turn
    ensures CallbacksDone(s, script, t)
  {
  }

  lemma WorkDone(s: RunState, script: Script)
    ensures CallbacksDone(s, script, Work(s, script).0)
  {
    hide RunBatch, EndStep, Done, Grew, Lasts, TimersOfCalls;
    BatchDone(s, script, |s.agenda.ready|);
    var (c, q) := RunBatch(s, script, |s.agenda.ready|);
    if q.Normal? {
      EndStepLasts(c, script);
      var t := EndStep(c, script).0;
      forall k: nat, op | s.turn <= k < t.turn && op in script.turns(k).ops ensures Done(op, s, t, 0) {
        DoneStays(op, s, c, t, 0, 0);
      }
    }
  }

  lemma CallbacksDoneFrom(s: RunState, a: RunState, script: Script, t: RunState)
    requires CallbacksDone(a, script, t) && a == s.(agenda := a.agenda, stepsLeft := a.stepsLeft)
    ensures CallbacksDone(s, script, t)
  {
    hide Done;
    forall k: nat, op | s.turn <= k < t.turn && op in script.turns(k).ops ensures Done(op, s, t, 0) {
      DoneFrom(op, s, a, t);
    }
  }

  /** ... so a callback that calls `stop` ends the run with its own step, unless an error does. */
  lemma StopEndsTheRun(s: RunState, script: Script, fuel: nat, k: nat)
    requires fuel > 0 && s.turn <= k < Step(s, script).0.turn && OpStop in script.turns(k).ops
    ensures var (t, r) := Step(s, script);
            RunForever(s, script, fuel) == (t.(stopping := false), if r.Raised? then Threw(r.e, r.notes) else Returned)
  {
    hide Step;
    EveryOperationDone(s, script);
    assert Done(OpStop, s, Step(s, script).0, 0);
  }

  // ---- `run_until` ------------------------------------------------------------------------------------------------

  /** Cancelling a waiting `run_until` abandons it and puts its task on the queue; there is nothing else to
      cancel. */
  lemma CancellingWakes(s: RunState, script: Script)
    ensures var t := Perform(s, script, OpCancelUntil); var last := |s.untils| - 1;
            if s.untilActive && last >= 0 && s.untils[last].answer.None? then
              && |t.untils| == |s.untils| && t.untils[last] == s.untils[last].(answer := Some(Abandoned))
              && (forall i :: 0 <= i < last ==> t.untils[i] == s.untils[i])
              && t.agenda.ready == s.agenda.ready + [Soon(s.nextHandle)] && t.nextHandle == s.nextHandle + 1
            else t == s
  {
  }

  /** A `run_until` that is not refused is recorded as it was made and looked at once. If that look
      answers it, or an interrupt escapes, it is over: the slot is free and its timer, if it had one, is
      cancelled. Otherwise the slot is taken, its check is the last on the list, and its timer is set. */
  lemma BeginningACall(s: RunState, script: Script, deadline: Option<Num>)
    requires !s.untilActive && (deadline.Some? ==> deadline.value.Real?)
    ensures var t := Perform(s, script, OpBeginUntil(deadline)); var id := |s.untils|;
            && |t.untils| == id + 1 && t.untils[..id] == s.untils
            && var u := t.untils[id];
            && u.calledAt == s.agenda.now && u.since == |s.log| && u.era == s.settles
            && u.deadline == (if deadline.Some? then Some(deadline.value.r) else None)
            && u.timer == (if deadline.Some? then Some(s.nextHandle) else None)
            && u.looks == [Look(s.agenda.now, script.looks(s.look))]
            && (t.untilActive <==> u.answer.None? && !script.looks(s.look).Breaks?)
            && (t.untilActive ==> t.hooks == s.hooks + [Until(id)] && (deadline.Some? ==> TimerMade(s, t, Real(s.agenda.now + deadline.value.r)) && s.nextHandle !in t.cancelled - s.cancelled))
            && (!t.untilActive ==> t.hooks == Removed(s.hooks + [Until(id)], Until(id)) && (deadline.Some? ==> s.nextHandle in t.cancelled))
  {
    hide CheckUntil, DoCallAt, Removed;
    var d := if deadline.Some? then Some(deadline.value.r) else None;
    var id := |s.untils|;
    var t := EnterUntil(s, d);
    if d.Some? {
      CallAtDone(s, Real(s.agenda.now + d.value));
    }
    EnteredCall(s, d);
    CheckUntilWrites(t, script, id);
  }

  lemma EnteredCall(s: RunState, d: Option<real>)
    ensures var t := EnterUntil(s, d);
            && t.untils == s.untils + [UntilCall(s.agenda.now, |s.log|, s.settles, d, if d.Some? then Some(s.nextHandle) else None, [], None)]
            && t.hooks == s.hooks + [Until(|s.untils|)] && t.untilActive && t.cancelled == s.cancelled && t.look == s.look && t.agenda.now == s.agenda.now
            && (d.Some? ==> t.agenda == DoCallAt(s, Real(s.agenda.now + d.value)).agenda && t.nextHandle == DoCallAt(s, Real(s.agenda.now + d.value)).nextHandle)
  {
    hide Insert;
  }
}
