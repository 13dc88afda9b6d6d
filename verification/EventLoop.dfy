/** The loop and the World's checks as they are written: fields updated in place, and a timer heap in
    which a cancelled timer stays behind as a tombstone until it is popped.

    Every method is proved equal to `LoopModel`, where cancelling removes the timer at once: the same
    callbacks, in the same order, at the same clock, raising the same errors in the same states. The
    heap is kept as the sequence its pops would produce, which `(when, seq)` determines. */
module EventLoop {
  import opened Common
  import opened Agendas
  import opened LoopModel

  // ---- tombstones ------------------------------------------------------------------------------------

  /** The timers that have not been cancelled. */
  function Live(ts: seq<Timer<Handle>>, dead: set<Handle>): seq<Timer<Handle>> {
    if ts == [] then []
    else if ts[0].what in dead then Live(ts[1..], dead)
    else [ts[0]] + Live(ts[1..], dead)
  }

  lemma {:induction false} LiveMember(ts: seq<Timer<Handle>>, dead: set<Handle>, t: Timer<Handle>)
    ensures t in Live(ts, dead) <==> t in ts && t.what !in dead
  {
    if ts != [] {
      LiveMember(ts[1..], dead, t);
      assert ts == [ts[0]] + ts[1..];
    }
  }

  lemma BeforeLive(ts: seq<Timer<Handle>>, dead: set<Handle>, t: Timer<Handle>)
    requires Sorted(ts) && ts != [] && Before(t, ts[0]) && Live(ts, dead) != []
    ensures Before(t, Live(ts, dead)[0])
  {
    var u := Live(ts, dead)[0];
    assert u in Live(ts, dead);
    LiveMember(ts, dead, u);
    var i :| 0 <= i < |ts| && ts[i] == u;
    assert i > 0 ==> Before(ts[0], u);
  }

  lemma {:induction false} LiveInsert(ts: seq<Timer<Handle>>, dead: set<Handle>, t: Timer<Handle>)
    requires Sorted(ts) && t.what !in dead
    ensures Live(Insert(ts, t), dead) == Insert(Live(ts, dead), t)
  {
    if ts == [] || Before(t, ts[0]) {
      assert ([t] + ts)[1..] == ts;
      if ts != [] && Live(ts, dead) != [] {
        BeforeLive(ts, dead, t);
      }
    } else {
      var rest := Insert(ts[1..], t);
      assert ([ts[0]] + rest)[1..] == rest;
      LiveInsert(ts[1..], dead, t);
      if ts[0].what !in dead {
        assert Live(ts, dead)[1..] == Live(ts[1..], dead);
      }
    }
  }

  lemma {:induction false} LiveCancel(ts: seq<Timer<Handle>>, dead: set<Handle>, h: Handle)
    ensures Live(ts, dead + {h}) == Without(Live(ts, dead), h)
  {
    if ts != [] {
      LiveCancel(ts[1..], dead, h);
      if ts[0].what !in dead {
        assert Live(ts, dead)[1..] == Live(ts[1..], dead);
      }
    }
  }

  /** With the head not cancelled, the heap and the agenda agree on what is next. */
  lemma LiveHead(ts: seq<Timer<Handle>>, dead: set<Handle>)
    requires ts != []
    ensures ts[0].what !in dead ==> Live(ts, dead) == [ts[0]] + Live(ts[1..], dead)
    ensures ts[0].what in dead ==> Live(ts, dead) == Live(ts[1..], dead)
  {
  }

  lemma LiveNone(dead: set<Handle>)
    ensures Live([], dead) == []
  {
  }

  /** If the head is not due then no live timer is. */
  lemma NothingDue(ts: seq<Timer<Handle>>, dead: set<Handle>, now: real)
    requires Sorted(ts) && (ts == [] || !DueBy(ts[0].when, now))
    ensures Live(ts, dead) == [] || !DueBy(Live(ts, dead)[0].when, now)
  {
    if Live(ts, dead) != [] {
      var u := Live(ts, dead)[0];
      assert u in Live(ts, dead);
      LiveMember(ts, dead, u);
      var i :| 0 <= i < |ts| && ts[i] == u;
      assert i > 0 ==> Before(ts[0], u);
    }
  }

  // ---- the loop object -----------------------------------------------------------------------------------

  class DeterministicLoop {
    var time: real
    var timers: seq<Timer<Handle>>
    var timerSeq: nat
    var taskSeq: nat
    var ready: seq<Entry<Handle>>
    var cancelled: set<Handle>
    var nextHandle: Handle
    var results: map<Future, Outcome>
    var stopping: bool
    var stepsLeft: Option<nat>
    var stepError: Error
    var watch: Option<Future>
    var stopIn: Option<int>
    var settle: bool
    var hooks: seq<Hook>
    // What the run has done so far: entries taken, completed steps, settle calls, callbacks run.
    var taken: seq<Taken<Handle>>
    var log: seq<StepEnd>
    var settles: nat
    var turn: nat

    constructor ()
      ensures Valid() && TheAgenda() == NewRun.agenda
      ensures taskSeq == 0 && nextHandle == 0 && cancelled == {} && results == map[] && !stopping
      ensures stepsLeft == None && stepError == Livelock && watch == None && stopIn == None && !settle
      ensures hooks == [] && log == [] && settles == 0 && turn == 0
    {
      time, timers, timerSeq, taskSeq, ready, cancelled, nextHandle := 0.0, [], 0, 0, [], {}, 0;
      results, stopping, stepsLeft, stepError := map[], false, None, Livelock;
      watch, stopIn, settle, hooks := None, None, false, [];
      taken, log, settles, turn := [], [], 0, 0;
    }

    ghost predicate Valid()
      reads `timers, `timerSeq, `cancelled, `nextHandle
    {
      && Sorted(timers)
      && (forall t :: t in timers ==> t.order < timerSeq)
      && (forall h :: h in cancelled ==> h < nextHandle)
    }

    /** The agenda this heap and these tombstones stand for. */
    ghost function TheAgenda(): (a: Agenda<Handle>)
      reads `time, `timers, `cancelled, `timerSeq, `ready, `taken
      ensures a.now == time && a.ready == ready
    {
      Agenda(time, Live(timers, cancelled), timerSeq, ready, taken)
    }

    method CallSoonHandle() returns (h: Handle)
      requires Valid()
      modifies this`ready, this`nextHandle
      ensures Valid() && h == old(nextHandle) && nextHandle == h + 1
      ensures TheAgenda() == CallSoon(old(TheAgenda()), h)
    {
      h := nextHandle;
      ready := ready + [Soon(h)];
      nextHandle := nextHandle + 1;
    }

    method CallAtTime(when: Num) returns (h: Option<Handle>)
      requires Valid()
      modifies this`timers, this`timerSeq, this`nextHandle
      ensures Valid()
      ensures when.NaN? ==> h == None && TheAgenda() == old(TheAgenda()) && nextHandle == old(nextHandle)
      ensures !when.NaN? ==> h == Some(old(nextHandle)) && nextHandle == old(nextHandle) + 1 &&
                             TheAgenda() == CallAt(old(TheAgenda()), ToDeadline(when).value, old(nextHandle))
    {
      var d := ToDeadline(when);
      if d.None? {
        return None;
      }
      var t := Timer(d.value, timerSeq, time, nextHandle);
      InsertMembers(timers, t);
      InsertSorted(timers, t);
      LiveInsert(timers, cancelled, t);
      h := Some(nextHandle);
      timers := Insert(timers, t);
      timerSeq := timerSeq + 1;
      nextHandle := nextHandle + 1;
    }

    method CallLaterBy(delay: Num) returns (h: Option<Handle>)
      requires Valid()
      modifies this`timers, this`timerSeq, this`nextHandle
      ensures Valid()
      ensures delay.NaN? ==> h == None && TheAgenda() == old(TheAgenda()) && nextHandle == old(nextHandle)
      ensures !delay.NaN? ==> h == Some(old(nextHandle)) && nextHandle == old(nextHandle) + 1 &&
                              TheAgenda() == CallAt(old(TheAgenda()), ToDeadline(After(old(time), delay)).value, old(nextHandle))
    {
      h := CallAtTime(After(time, delay));
    }

    /** Cancelling a handle only marks it; the heap keeps the entry. */
    method CancelHandle(h: Handle)
      requires Valid() && h < nextHandle
      modifies this`cancelled
      ensures Valid() && cancelled == old(cancelled) + {h}
      ensures TheAgenda() == Cancel(old(TheAgenda()), h)
    {
      LiveCancel(timers, cancelled, h);
      cancelled := cancelled + {h};
    }

    /** Dropping tombstones from the head changes nothing the agenda can see. */
    method PurgeCancelledTimers()
      requires Valid()
      modifies this`timers
      ensures Valid() && TheAgenda() == old(TheAgenda())
      ensures timers == [] || timers[0].what !in cancelled
    {
      while timers != [] && timers[0].what in cancelled
        invariant Valid() && Live(timers, cancelled) == old(Live(timers, cancelled))
        decreases |timers|
      {
        LiveHead(timers, cancelled);
        timers := timers[1..];
      }
    }

    method FireDueTimers()
      requires Valid()
      modifies this`timers, this`ready
      ensures Valid() && TheAgenda() == FireDue(old(TheAgenda()))
    {
      while timers != [] && DueBy(timers[0].when, time)
        invariant Valid() && FireDue(TheAgenda()) == FireDue(old(TheAgenda()))
        decreases |timers|
      {
        LiveHead(timers, cancelled);
        var t := timers[0];
        ghost var before := TheAgenda();
        timers := timers[1..];
        if t.what !in cancelled {
          ready := ready + [Fired(t)];
          assert before.timers[1..] == Live(timers, cancelled);
          assert TheAgenda() == FireOne(before);
        } else {
          assert TheAgenda() == before;
        }
      }
      NothingDue(timers, cancelled, time);
    }

    method LimitSteps(steps: Option<nat>, error: Error)
      modifies this`stepsLeft, this`stepError
      ensures stepsLeft == steps && stepError == error
    {
      stepsLeft, stepError := steps, error;
    }
  }

  // ---- the World's checks ----------------------------------------------------------------------------------

  class World {
    const loop: DeterministicLoop
    var invariants: seq<Registered>
    var installed: bool
    var started: seq<nat>
    var tearingDown: bool
    var untils: seq<UntilCall>
    var untilActive: bool
    var look: nat
    var held: seq<Registered>  // predicates seen to hold in the current round of checks

    constructor ()
      ensures fresh(loop) && Valid() && View() == NewRun
    {
      loop := new DeterministicLoop();
      invariants, installed, tearingDown, untils, untilActive, look, held, started := [], false, false, [], false, 0, [], [];
    }

    ghost predicate Valid()
      reads `untils, loop`timers, loop`timerSeq, loop`cancelled, loop`nextHandle
    {
      loop.Valid() && forall i :: 0 <= i < |untils| && untils[i].timer.Some? ==> untils[i].timer.value < loop.nextHandle
    }

    /** The whole run, as the model sees it. */
    ghost function View(): RunState
      reads this, loop
    {
      RunState(loop.TheAgenda(), loop.nextHandle, loop.cancelled, loop.taskSeq, started, loop.results, loop.stopping,
               loop.stepsLeft, loop.stepError, loop.watch, loop.stopIn, loop.settle, loop.hooks,
               invariants, installed, tearingDown, untils, untilActive, loop.turn, look, held, loop.log, loop.settles)
    }

    method Always(name: nat)
      requires Valid()
      modifies this`invariants, this`installed, loop`hooks
      ensures Valid() && View() == DoAlways(old(View()), name)
    {
      if tearingDown {
        return;
      }
      invariants := invariants + [Registered(name, |loop.log|)];
      if !installed {
        loop.hooks := loop.hooks + [Invariants];
        installed := true;
      }
    }

    /** Predicates in registration order; the first that fails or raises ends the check. */
    /** One predicate of `_check_invariants`: quiet if it holds. */
    method AskInvariant(script: Script, i: nat) returns (said: Said)
      requires Valid() && i < |invariants|
      modifies this`look, this`held
      ensures Valid()
      ensures LoopModel.CheckInvariants(old(View()), script, i) ==
              if said.Quiet? then LoopModel.CheckInvariants(View(), script, i + 1) else (View(), said)
    {
      hide DeterministicLoop.TheAgenda, DeterministicLoop.Valid;
      var verdict := script.looks(look);
      look := look + 1;
      match verdict {
        case Holds =>
          held := held + [invariants[i]];
          said := Quiet;
        case Fails => said := Hard(CheckFailed(invariants[i].name));
        case Raises(k) => said := Hard(UserError(k));
        case Breaks(k) => said := Broke(Interrupt(k));
      }
    }

    method CheckInvariants(script: Script) returns (said: Said)
      requires Valid()
      modifies this`look, this`held
      ensures Valid() && (View(), said) == LoopModel.CheckInvariants(old(View()), script, 0)
    {
      hide DeterministicLoop.TheAgenda, DeterministicLoop.Valid;
      var i := 0;
      while i < |invariants|
        invariant 0 <= i <= |invariants| && Valid()
        invariant LoopModel.CheckInvariants(View(), script, i) == LoopModel.CheckInvariants(old(View()), script, 0)
      {
        said := AskInvariant(script, i);
        if !said.Quiet? {
          return;
        }
        i := i + 1;
      }
      said := Quiet;
    }

    /** The check closure of one `run_until` call. */
    method CheckUntilCall(script: Script, id: nat) returns (said: Said)
      requires Valid() && id < |untils|
      modifies this`look, this`untils
      ensures Valid() && |untils| == old(|untils|) && (View(), said) == CheckUntil(old(View()), script, id)
    {
      var u := untils[id];
      if u.answer.Some? {
        return Quiet;
      }
      var verdict := script.looks(look);
      look := look + 1;
      untils := untils[id := u.(looks := u.looks + [Look(loop.time, verdict)])];
      match verdict {
        case Breaks(k) =>
          said := Broke(Interrupt(k));
        case Raises(k) =>
          untils := untils[id := untils[id].(answer := Some(PredicateRaised(k, loop.time)))];
          said := Soft(UserError(k));
        case Holds =>
          untils := untils[id := untils[id].(answer := Some(Held(loop.time)))];
          said := Quiet;
        case Fails =>
          if u.deadline.Some? && loop.time >= u.calledAt + u.deadline.value {
            untils := untils[id := untils[id].(answer := Some(TimedOut(loop.time)))];
          }
          said := Quiet;
      }
    }

    method EndUntilCall()
      requires Valid()
      modifies this`untilActive, loop`hooks, loop`cancelled
      ensures Valid() && View() == EndUntil(old(View()))
    {
      if !untilActive || untils == [] {
        return;
      }
      var id := |untils| - 1;
      RemoveHook(Until(id));
      if untils[id].timer.Some? {
        loop.CancelHandle(untils[id].timer.value);
      }
      untilActive := false;
    }

    /** `list.remove`, guarded by the membership test. */
    method RemoveHook(h: Hook)
      modifies loop`hooks
      ensures loop.hooks == Removed(old(loop.hooks), h)
    {
      var i := 0;
      while i < |loop.hooks| && loop.hooks[i] != h
        invariant 0 <= i <= |loop.hooks|
        invariant Removed(loop.hooks, h) == loop.hooks[..i] + Removed(loop.hooks[i..], h)
      {
        assert loop.hooks[i..][1..] == loop.hooks[i + 1..];
        assert loop.hooks[..i + 1] == loop.hooks[..i] + [loop.hooks[i]];
        i := i + 1;
      }
      if i < |loop.hooks| {
        assert loop.hooks[i..][1..] == loop.hooks[i + 1..];
        loop.hooks := loop.hooks[..i] + loop.hooks[i + 1..];
      } else {
        assert loop.hooks[..i] + [] == loop.hooks;
      }
    }

    method EnterUntilCall(d: Option<real>)
      requires Valid()
      modifies this`untilActive, this`untils, loop`hooks, loop`timers, loop`timerSeq, loop`nextHandle
      ensures Valid() && View() == EnterUntil(old(View()), d)
    {
      hide CallAt, DeterministicLoop.TheAgenda, DeterministicLoop.Valid;
      var timer: Option<Handle> := None;
      if d.Some? {
        timer := Some(loop.nextHandle);
        UserCallAt(Real(loop.time + d.value));
      }
      loop.hooks := loop.hooks + [Until(|untils|)];
      untils := untils + [UntilCall(loop.time, |loop.log|, loop.settles, d, timer, [], None)];
      untilActive := true;
    }

    method BeginUntilCall(script: Script, deadline: Option<Num>)
      requires Valid()
      modifies this, loop
      ensures Valid() && View() == BeginUntil(old(View()), script, deadline)
    {
      hide EnterUntil, CheckUntil, EndUntil, DeterministicLoop.TheAgenda;
      if untilActive {
        return;
      }
      if deadline.Some? && !deadline.value.Real? {
        return;
      }
      var id := |untils|;
      EnterUntilCall(if deadline.Some? then Some(deadline.value.r) else None);
      var said := CheckUntilCall(script, id);
      if said.Broke? || untils[id].answer.Some? {
        EndUntilCall();
      }
    }

    method CancelUntilCall()
      requires Valid()
      modifies this`untils, loop`ready, loop`nextHandle
      ensures Valid() && View() == CancelUntil(old(View()))
    {
      if untilActive && untils != [] && untils[|untils| - 1].answer.None? {
        var id := |untils| - 1;
        untils := untils[id := untils[id].(answer := Some(Abandoned))];
        var _ := loop.CallSoonHandle();
      }
    }

    /** User code cancels a handle it holds: never the timer of a `run_until`. */
    method CancelUserHandle(h: Handle)
      requires Valid()
      modifies loop`cancelled
      ensures Valid() && View() == (if h < old(loop.nextHandle) && !Internal(old(View()), h) then DoCancel(old(View()), h) else old(View()))
    {
      hide Live, Cancel;
      if h < loop.nextHandle && !(exists i :: 0 <= i < |untils| && untils[i].timer == Some(h)) {
        loop.CancelHandle(h);
      }
    }

    method FinishFuture(f: Future, outcome: Outcome)
      requires Valid()
      modifies loop`results
      ensures Valid() && View() == DoFinish(old(View()), f, outcome)
    {
      hide Live;
      if !(f in loop.results || (f.Task? && f.n >= loop.taskSeq)) {
        loop.results := loop.results[f := outcome];
      }
    }

    method UserCallSoon()
      requires Valid()
      modifies loop`ready, loop`nextHandle
      ensures Valid() && View() == DoCallSoon(old(View()))
    {
      hide CallSoon, Live;
      var _ := loop.CallSoonHandle();
    }

    method UserCallAt(when: Num)
      requires Valid()
      modifies loop`timers, loop`timerSeq, loop`nextHandle
      ensures Valid() && View() == DoCallAt(old(View()), when)
    {
      hide CallAt, Live;
      var _ := loop.CallAtTime(when);
    }

    method UserCallLater(delay: Num)
      requires Valid()
      modifies loop`timers, loop`timerSeq, loop`nextHandle
      ensures Valid() && View() == DoCallAt(old(View()), After(old(loop.time), delay))
    {
      hide CallAt, Live;
      var _ := loop.CallLaterBy(delay);
    }

    /** `create_task`, and `World.start` for a node. */
    method CreateTask(node: bool)
      requires Valid()
      modifies this`started, loop`ready, loop`nextHandle, loop`taskSeq
      ensures Valid() && View() == DoSpawn(old(View()), node)
    {
      hide CallSoon, DeterministicLoop.TheAgenda;
      var _ := loop.CallSoonHandle();
      if node {
        started := started + [loop.taskSeq];
      }
      loop.taskSeq := loop.taskSeq + 1;
    }

    /** One operation of user code. */
    method PerformOp(script: Script, op: Op)
      requires Valid()
      modifies this, loop
      ensures Valid() && View() == Perform(old(View()), script, op)
    {
      hide BeginUntil, CancelUntil, EndUntil, DoAlways, DoFinish, DoCancel, DoCallSoon, DoCallAt, DoSpawn, Internal;
      hide DeterministicLoop.TheAgenda, DeterministicLoop.Valid;
      match op
      case OpCallSoon => UserCallSoon();
      case OpCallAt(when) => UserCallAt(when);
      case OpCallLater(delay) => UserCallLater(delay);
      case OpCancel(h) => CancelUserHandle(h);
      case OpStop => loop.stopping := true;
      case OpSpawn(node) => CreateTask(node);
      case OpFinish(f, outcome) => FinishFuture(f, outcome);
      case OpAlways(name) => Always(name);
      case OpBeginUntil(deadline) => BeginUntilCall(script, deadline);
      case OpCancelUntil => CancelUntilCall();
      case OpEndUntil => EndUntilCall();
    }

    method PerformOps(script: Script, ops: seq<Op>)
      requires Valid()
      modifies this, loop
      ensures Valid() && View() == PerformAll(old(View()), script, ops)
    {
      var i := 0;
      while i < |ops|
        invariant 0 <= i <= |ops| && Valid()
        invariant PerformAll(View(), script, ops[i..]) == PerformAll(old(View()), script, ops)
      {
        assert ops[i..][1..] == ops[i + 1..];
        PerformOp(script, ops[i]);
        i := i + 1;
      }
    }

    // ---- one step ----------------------------------------------------------------------------------------

    /** Pop one entry and run it unless its handle was cancelled. */
    method RunNext(script: Script) returns (r: StepResult)
      requires Valid() && loop.ready != []
      modifies this, loop
      ensures Valid() && (View(), r) == RunEntry(old(View()), script)
    {
      hide PerformAll, Live, DeterministicLoop.Valid;
      var e := loop.ready[0];
      var h := if e.Soon? then e.what else e.timer.what;
      loop.ready := loop.ready[1..];
      loop.taken := loop.taken + [Taken(e, loop.time, h !in loop.cancelled)];
      r := Normal;
      if h !in loop.cancelled {
        var turn := script.turns(loop.turn);
        loop.turn := loop.turn + 1;
        PerformOps(script, turn.ops);
        if turn.interrupt.Some? {
          r := Raised(Interrupt(turn.interrupt.value), []);
        }
      }
    }

    method RunOneHook(script: Script, h: Hook) returns (said: Said)
      requires Valid()
      modifies this`look, this`held, this`untils, loop`ready, loop`nextHandle
      ensures Valid() && (View(), said) == RunHook(old(View()), script, h)
    {
      hide CheckUntil, LoopModel.CheckInvariants, DoCallSoon, DeterministicLoop.TheAgenda, DeterministicLoop.Valid;
      match h
      case Invariants => said := CheckInvariants(script);
      case Until(id) =>
        if id >= |untils| {
          return Quiet;
        }
        var waiting := untils[id].answer.None?;
        said := CheckUntilCall(script, id);
        if waiting && untils[id].answer.Some? {
          UserCallSoon();
        }
    }

    /** Every hook in order: the first hard failure is kept, everything else becomes a note. */
    method RunAllHooks(script: Script) returns (r: StepResult)
      requires Valid()
      modifies this`look, this`held, this`untils, loop`ready, loop`nextHandle
      ensures Valid() && View() == RunHooks(old(View()).(held := []), script, old(loop.hooks), None, []).s
      ensures r == Concluded(RunHooks(old(View()).(held := []), script, old(loop.hooks), None, []))
    {
      hide RunHook, DeterministicLoop.TheAgenda, DeterministicLoop.Valid;
      held := [];
      var first: Option<Error> := None;
      var notes: seq<Error> := [];
      ghost var whole := RunHooks(View(), script, loop.hooks, None, []);
      var i := 0;
      while i < |loop.hooks|
        invariant 0 <= i <= |loop.hooks| && Valid()
        invariant RunHooks(View(), script, loop.hooks[i..], first, notes) == whole
      {
        assert loop.hooks[i..][1..] == loop.hooks[i + 1..];
        var said := RunOneHook(script, loop.hooks[i]);
        match said {
          case Quiet =>
          case Soft(e) => notes := notes + [e];
          case Hard(e) =>
            if first.None? {
              first := Some(e);
            } else {
              notes := notes + [e];
            }
          case Broke(e) => return Raised(e, []);
        }
        i := i + 1;
      }
      r := if first.Some? then Raised(first.value, notes) else Normal;
    }

    /** The stop countdown at the end of a step. */
    method CountDownStep()
      requires Valid()
      modifies loop`stopIn, loop`stopping, loop`hooks, loop`settles
      ensures Valid() && View() == CountDown(old(View()))
    {
      hide DeterministicLoop.TheAgenda, DeterministicLoop.Valid;
      if loop.watch.Some? {
        if loop.stopIn.None? {
          if loop.watch.value in loop.results {
            loop.stopIn := Some(2);
          }
        } else {
          loop.stopIn := Some(loop.stopIn.value - 1);
          if loop.stopIn.value == 1 && loop.settle {
            ClearHooks();
          }
          if loop.stopIn.value == 0 {
            loop.stopping := true;
          }
        }
      }
    }

    /** The end of a step: all hooks, then the stop countdown. */
    method FinishStep(script: Script) returns (r: StepResult)
      requires Valid()
      modifies this, loop
      ensures Valid() && (View(), r) == EndStep(old(View()), script)
    {
      hide RunHooks, CountDown, DeterministicLoop.TheAgenda, DeterministicLoop.Valid;
      r := RunAllHooks(script);
      if r.Normal? {
        loop.log := loop.log + [StepEnd(loop.time, loop.stopping, loop.watch.Some? && loop.watch.value in loop.results, held)];
        CountDownStep();
      }
    }

    method ClearHooks()
      requires Valid()
      modifies loop`hooks, loop`settles
      ensures Valid() && View() == Settle(old(View()))
    {
      loop.hooks := [];
      loop.settles := loop.settles + 1;
    }

    /** The autojump: the deadlock test looks at the earliest timer that is not a tombstone. */
    method AdvanceClock() returns (r: StepResult)
      requires Valid()
      modifies loop`time, loop`timers, loop`ready
      ensures Valid() && (View(), r) == Advance(old(View()))
    {
      hide Live, FireDue;
      if loop.ready == [] && loop.stopIn.None? {
        loop.PurgeCancelledTimers();
        if loop.timers != [] {
          LiveHead(loop.timers, loop.cancelled);
          if loop.timers[0].when.At? {
            loop.time := Max(loop.time, loop.timers[0].when.t);
          }
        } else {
          LiveNone(loop.cancelled);
        }
        if (loop.timers == [] || loop.timers[0].when == Never) && !loop.stopping {
          return Raised(Deadlock, []);
        }
      }
      r := Normal;
      loop.FireDueTimers();
    }

    method RunReadyBatch(script: Script, count: nat) returns (r: StepResult)
      requires Valid() && count <= |loop.ready|
      modifies this, loop
      ensures Valid() && (View(), r) == RunBatch(old(View()), script, count)
    {
      hide RunEntry, DeterministicLoop.TheAgenda, DeterministicLoop.Valid;
      var n := count;
      while n > 0
        invariant Valid() && 0 <= n <= |loop.ready|
        invariant RunBatch(View(), script, n) == RunBatch(old(View()), script, count)
        decreases n
      {
        ghost var before := View();
        r := RunNext(script);
        ReadyGrows(before, script);
        if r.Raised? {
          return;
        }
        n := n - 1;
      }
      r := Normal;
    }

    /** `_run_once`. */
    method RunOnce(script: Script) returns (r: StepResult)
      requires Valid()
      modifies this, loop
      ensures Valid() && (View(), r) == Step(old(View()), script)
    {
      hide Advance, Work, DeterministicLoop.TheAgenda, DeterministicLoop.Valid;
      if loop.stepsLeft.Some? {
        if loop.stepsLeft.value == 0 {
          return Raised(loop.stepError, []);
        }
        loop.stepsLeft := Some(loop.stepsLeft.value - 1);
      }
      r := AdvanceClock();
      if r.Normal? {
        r := DoWork(script);
      }
    }

    method DoWork(script: Script) returns (r: StepResult)
      requires Valid()
      modifies this, loop
      ensures Valid() && (View(), r) == Work(old(View()), script)
    {
      hide RunBatch, EndStep, DeterministicLoop.TheAgenda, DeterministicLoop.Valid;
      r := RunReadyBatch(script, |loop.ready|);
      if r.Normal? {
        r := FinishStep(script);
      }
    }

    // ---- running -------------------------------------------------------------------------------------------

    method RunLoop(script: Script, fuel: nat) returns (end: LoopEnd)
      requires Valid()
      modifies this, loop
      ensures Valid() && (View(), end) == RunForever(old(View()), script, fuel)
    {
      hide Step, DeterministicLoop.TheAgenda;
      var n := fuel;
      while n > 0
        invariant Valid() && RunForever(View(), script, n) == RunForever(old(View()), script, fuel)
        decreases n
      {
        var r := RunOnce(script);
        if r.Raised? {
          loop.stopping := false;
          return Threw(r.e, r.notes);
        }
        if loop.stopping {
          loop.stopping := false;
          return Returned;
        }
        n := n - 1;
      }
      end := StillRunning;
    }

    method Watch(f: Option<Future>, stopIn: Option<int>, settle: bool)
      requires Valid()
      modifies loop`watch, loop`stopIn, loop`settle
      ensures Valid() && View() == old(View()).(watch := f, stopIn := stopIn, settle := settle)
    {
      hide Live;
      loop.watch, loop.stopIn, loop.settle := f, stopIn, settle;
    }

    method RunUntilFutureDone(script: Script, f: Future, settle: bool, fuel: nat) returns (end: LoopEnd)
      requires Valid()
      modifies this, loop
      ensures Valid() && (View(), end) == RunUntilDone(old(View()), script, f, settle, fuel)
    {
      hide RunForever, Settle, DeterministicLoop.TheAgenda, DeterministicLoop.Valid;
      Watch(Some(f), None, settle);
      end := RunLoop(script, fuel);
      if end.Returned? && f in loop.results && (loop.stopIn == Some(1) || loop.stopIn == Some(2)) {
        PrepareLastStep(settle);
        end := RunLoop(script, fuel);
      }
      Watch(None, None, false);
    }

    method PrepareLastStep(settle: bool)
      requires Valid()
      modifies loop`stopIn, loop`hooks, loop`settles
      ensures Valid() && View() == (if old(loop.stopIn) == Some(2) && settle then Settle(old(View())) else old(View())).(stopIn := Some(1))
    {
      hide DeterministicLoop.TheAgenda;
      if loop.stopIn == Some(2) && settle {
        ClearHooks();
      }
      loop.stopIn := Some(1);
    }

    method RunOneMore(script: Script, f: Future, fuel: nat) returns (end: LoopEnd)
      requires Valid()
      modifies this, loop
      ensures Valid() && (View(), end) == RunOneMoreStep(old(View()), script, f, fuel)
    {
      hide RunForever, DeterministicLoop.TheAgenda, DeterministicLoop.Valid;
      Watch(Some(f), Some(1), false);
      end := RunLoop(script, fuel);
      Watch(None, None, false);
    }
  }

  // ---- running an entry never shortens the rest of the queue ----------------------------------------------

  lemma BeginUntilReady(s: RunState, script: Script, deadline: Option<Num>)
    ensures s.agenda.ready <= BeginUntil(s, script, deadline).agenda.ready
  {
    hide Removed, CheckUntil;
  }

  lemma PerformReady(s: RunState, script: Script, op: Op)
    ensures s.agenda.ready <= Perform(s, script, op).agenda.ready
  {
    hide BeginUntil, Removed;
    if op.OpBeginUntil? {
      BeginUntilReady(s, script, op.deadline);
    }
  }

  lemma {:induction false} PerformAllReady(s: RunState, script: Script, ops: seq<Op>)
    ensures s.agenda.ready <= PerformAll(s, script, ops).agenda.ready
    decreases |ops|
  {
    if ops != [] {
      PerformReady(s, script, ops[0]);
      PerformAllReady(Perform(s, script, ops[0]), script, ops[1..]);
    }
  }

  lemma ReadyGrows(s: RunState, script: Script)
    requires s.agenda.ready != []
    ensures s.agenda.ready[1..] <= RunEntry(s, script).0.agenda.ready
  {
    var t := s.(agenda := Take(s.agenda, true), turn := s.turn + 1);
    PerformAllReady(t, script, script.turns(s.turn).ops);
  }
}
