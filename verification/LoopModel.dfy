/** One step of the deterministic loop as the documentation promises it (src/seedloop/_loop.py),
    together with the two after-step checks the World installs (src/seedloop/_world.py), stated over
    the agenda in which a cancelled timer is gone at once.

    User code is an adversary: the k-th callback the loop runs performs `script.turns(k)`, any finite
    list of operations, and may then let an interrupt escape; the k-th evaluation of a predicate
    answers `script.looks(k)`. Statements for every script are statements for every program. */
module LoopModel {
  import opened Common
  import opened Agendas

  type Handle = nat

  /** Everything a run can raise. The last two are not `Exception`s: KeyboardInterrupt, SystemExit and
      the like, and asyncio's CancelledError. */
  datatype Error =
    | Deadlock | Livelock | TeardownFailed | StoppedEarly | Usage
    | CheckFailed(name: nat) | UserError(k: nat)
    | Interrupt(k: nat) | CancelledError

  datatype Outcome = Finished | Failed(e: Error) | Cancelled

  /** `Task(n)` is the task with creation index n, `Group(n)` the future of teardown round n. */
  datatype Future = Task(n: nat) | Group(n: nat)

  datatype Hook = Invariants | Until(id: nat)

  datatype Verdict = Holds | Fails | Raises(k: nat) | Breaks(k: nat)

  datatype Op =
    | OpCallSoon | OpCallAt(when: Num) | OpCallLater(delay: Num) | OpCancel(h: Handle)
    | OpStop | OpSpawn(node: bool) | OpFinish(f: Future, outcome: Outcome)
    | OpAlways(name: nat) | OpBeginUntil(deadline: Option<Num>) | OpCancelUntil | OpEndUntil

  datatype Turn = Turn(ops: seq<Op>, interrupt: Option<nat>)

  datatype Script = Script(turns: nat -> Turn, looks: nat -> Verdict)

  /** A registered `always` predicate and the step during which it was registered. */
  datatype Registered = Registered(name: nat, at: nat)

  datatype Look = Look(clock: real, verdict: Verdict)

  datatype Answer = Held(clock: real) | TimedOut(clock: real) | PredicateRaised(k: nat, clock: real) | Abandoned

  /** One `run_until` call: when it was made (the clock, the steps completed, and how often the checks
      had been cleared), its deadline, its checks so far and its answer. */
  datatype UntilCall = UntilCall(calledAt: real, since: nat, era: nat, deadline: Option<real>, timer: Option<Handle>,
                                 looks: seq<Look>, answer: Option<Answer>)

  /** What a completed step leaves in the log: the clock, whether user code had called `stop`,
      whether the watched future was done, and the `always` predicates that were seen to hold. */
  datatype StepEnd = StepEnd(clock: real, stopped: bool, watched: bool, held: seq<Registered>)

  datatype RunState = RunState(
    agenda: Agenda<Handle>,
    nextHandle: Handle,
    cancelled: set<Handle>,
    nextTask: nat,
    started: seq<nat>,
    results: map<Future, Outcome>,
    stopping: bool,
    stepsLeft: Option<nat>,
    stepError: Error,
    watch: Option<Future>,
    stopIn: Option<int>,
    settle: bool,
    hooks: seq<Hook>,
    preds: seq<Registered>,
    installed: bool,
    tearingDown: bool,
    untils: seq<UntilCall>,
    untilActive: bool,
    turn: nat,
    look: nat,
    held: seq<Registered>,
    log: seq<StepEnd>,
    settles: nat)

  // ---- what user code can do -----------------------------------------------------------------------

  function DoCallSoon(s: RunState): RunState {
    s.(agenda := CallSoon(s.agenda, s.nextHandle), nextHandle := s.nextHandle + 1)
  }

  /** `call_at`: not-a-number is refused, nothing else is. */
  function DoCallAt(s: RunState, when: Num): RunState {
    var d := ToDeadline(when);
    if d.None? then s
    else s.(agenda := CallAt(s.agenda, d.value, s.nextHandle), nextHandle := s.nextHandle + 1)
  }

  function DoCancel(s: RunState, h: Handle): RunState {
    s.(agenda := Cancel(s.agenda, h), cancelled := s.cancelled + {h})
  }

  /** The handle of an active `run_until`'s own timer, which no user code holds. */
  predicate Internal(s: RunState, h: Handle) {
    exists i :: 0 <= i < |s.untils| && s.untils[i].timer == Some(h)
  }

  function DoFinish(s: RunState, f: Future, outcome: Outcome): RunState {
    if f in s.results || (f.Task? && f.n >= s.nextTask) then s else s.(results := s.results[f := outcome])
  }

  /** A task created directly, or a node started with `World.start`. */
  function DoSpawn(s: RunState, node: bool): RunState {
    DoCallSoon(s).(nextTask := s.nextTask + 1, started := if node then s.started + [s.nextTask] else s.started)
  }

  function DoAlways(s: RunState, name: nat): RunState {
    if s.tearingDown then s
    else s.(preds := s.preds + [Registered(name, |s.log|)],
            hooks := if s.installed then s.hooks else s.hooks + [Invariants],
            installed := true)
  }

  function Answered(s: RunState, id: nat, answer: Answer): (t: RunState)
    requires id < |s.untils|
    ensures t == s.(untils := t.untils) && |t.untils| == |s.untils|
  {
    s.(untils := s.untils[id := s.untils[id].(answer := Some(answer))])
  }

  predicate Elapsed(u: UntilCall, now: real) {
    u.deadline.Some? && now >= u.calledAt + u.deadline.value
  }

  datatype Said = Quiet | Soft(e: Error) | Hard(e: Error) | Broke(e: Error)

  /** `run_until`'s check: the predicate first, then the deadline. */
  function CheckUntil(s: RunState, script: Script, id: nat): (r: (RunState, Said))
    requires id < |s.untils|
    ensures r.0 == s.(look := r.0.look, untils := r.0.untils) && |r.0.untils| == |s.untils|
  {
    var u := s.untils[id];
    if u.answer.Some? then (s, Quiet)
    else
      var verdict := script.looks(s.look);
      var t := s.(look := s.look + 1, untils := s.untils[id := u.(looks := u.looks + [Look(s.agenda.now, verdict)])]);
      match verdict
      case Breaks(k) => (t, Broke(Interrupt(k)))
      case Raises(k) => (Answered(t, id, PredicateRaised(k, s.agenda.now)), Soft(UserError(k)))
      case Holds => (Answered(t, id, Held(s.agenda.now)), Quiet)
      case Fails =>
        if Elapsed(u, s.agenda.now) then (Answered(t, id, TimedOut(s.agenda.now)), Quiet) else (t, Quiet)
  }

  /** The `finally` of `run_until`: drop the hook if it is still there, cancel the timer, free the slot. */
  function EndUntil(s: RunState): (t: RunState)
    ensures t == s.(agenda := s.agenda.(timers := t.agenda.timers), cancelled := t.cancelled, hooks := t.hooks, untilActive := t.untilActive)
  {
    if !s.untilActive || s.untils == [] then s
    else
      var id := |s.untils| - 1;
      var t := if s.untils[id].timer.Some? then DoCancel(s, s.untils[id].timer.value) else s;
      t.(hooks := Removed(t.hooks, Until(id)), untilActive := false)
  }

  /** `list.remove`: drop the first occurrence, if any. */
  function Removed(hooks: seq<Hook>, h: Hook): seq<Hook> {
    if hooks == [] then [] else if hooks[0] == h then hooks[1..] else [hooks[0]] + Removed(hooks[1..], h)
  }

  /** Entering `run_until`: refused while another is active or when the deadline is not finite. The
      first check happens here, before the call waits at all. An interrupt escaping that check, or
      an answer, ends the call at once (user code may still catch either). */
  function BeginUntil(s: RunState, script: Script, deadline: Option<Num>): RunState {
    if s.untilActive || (deadline.Some? && !deadline.value.Real?) then s
    else
      var id := |s.untils|;
      var entered := EnterUntil(s, if deadline.Some? then Some(deadline.value.r) else None);
      var (checked, said) := CheckUntil(entered, script, id);
      if said.Broke? || checked.untils[id].answer.Some? then EndUntil(checked) else checked
  }

  /** The set-up: the slot is taken, the hook installed, and a deadline gets a timer of its own. */
  function EnterUntil(s: RunState, d: Option<real>): (t: RunState)
    ensures |t.untils| == |s.untils| + 1
    ensures t == s.(agenda := s.agenda.(timers := t.agenda.timers, nextSeq := t.agenda.nextSeq), nextHandle := t.nextHandle,
                    untils := t.untils, hooks := t.hooks, untilActive := t.untilActive)
  {
    var timed := if d.Some? then DoCallAt(s, Real(s.agenda.now + d.value)) else s;
    var timer := if d.Some? then Some(s.nextHandle) else None;
    timed.(untils := s.untils + [UntilCall(s.agenda.now, |s.log|, s.settles, d, timer, [], None)],
           hooks := s.hooks + [Until(|s.untils|)], untilActive := true)
  }

  /** Cancelling the task that waits in `run_until` cancels the future it waits on. */
  function CancelUntil(s: RunState): RunState {
    if s.untilActive && s.untils != [] && s.untils[|s.untils| - 1].answer.None? then
      DoCallSoon(Answered(s, |s.untils| - 1, Abandoned))
    else s
  }

  function Perform(s: RunState, script: Script, op: Op): RunState {
    match op
    case OpCallSoon => DoCallSoon(s)
    case OpCallAt(when) => DoCallAt(s, when)
    case OpCallLater(delay) => DoCallAt(s, After(s.agenda.now, delay))
    case OpCancel(h) => if h < s.nextHandle && !Internal(s, h) then DoCancel(s, h) else s
    case OpStop => s.(stopping := true)
    case OpSpawn(node) => DoSpawn(s, node)
    case OpFinish(f, outcome) => DoFinish(s, f, outcome)
    case OpAlways(name) => DoAlways(s, name)
    case OpBeginUntil(deadline) => BeginUntil(s, script, deadline)
    case OpCancelUntil => CancelUntil(s)
    case OpEndUntil => EndUntil(s)
  }

  function PerformAll(s: RunState, script: Script, ops: seq<Op>): RunState
    decreases |ops|
  {
    if ops == [] then s else PerformAll(Perform(s, script, ops[0]), script, ops[1..])
  }

  // ---- one step ----------------------------------------------------------------------------------------

  datatype StepResult = Normal | Raised(e: Error, notes: seq<Error>)

  /** Take one entry off the ready queue and run it unless its handle was cancelled. */
  function RunEntry(s: RunState, script: Script): (RunState, StepResult)
    requires s.agenda.ready != []
  {
    var e := s.agenda.ready[0];
    var h := if e.Soon? then e.what else e.timer.what;
    if h in s.cancelled then (s.(agenda := Take(s.agenda, false)), Normal)
    else
      var turn := script.turns(s.turn);
      var t := PerformAll(s.(agenda := Take(s.agenda, true), turn := s.turn + 1), script, turn.ops);
      (t, if turn.interrupt.Some? then Raised(Interrupt(turn.interrupt.value), []) else Normal)
  }

  /** The first n entries; callbacks they schedule wait for the next step. */
  function RunBatch(s: RunState, script: Script, n: nat): (RunState, StepResult)
    decreases n
  {
    if n == 0 || s.agenda.ready == [] then (s, Normal)
    else
      var (t, r) := RunEntry(s, script);
      if r.Raised? then (t, r) else RunBatch(t, script, n - 1)
  }

  /** `_check_invariants`: every predicate in registration order until one does not hold. */
  function CheckInvariants(s: RunState, script: Script, i: nat): (r: (RunState, Said))
    ensures r.0 == s.(look := r.0.look, held := r.0.held)
    decreases |s.preds| - i
  {
    if i >= |s.preds| then (s, Quiet)
    else
      var t := s.(look := s.look + 1);
      match script.looks(s.look)
      case Holds => CheckInvariants(t.(held := s.held + [s.preds[i]]), script, i + 1)
      case Fails => (t, Hard(CheckFailed(s.preds[i].name)))
      case Raises(k) => (t, Hard(UserError(k)))
      case Breaks(k) => (t, Broke(Interrupt(k)))
  }

  /** One hook. A `run_until` whose answer arrives at a step's end wakes the task that waits for it. */
  function RunHook(s: RunState, script: Script, h: Hook): (r: (RunState, Said))
    ensures r.0 == s.(agenda := s.agenda.(ready := r.0.agenda.ready), nextHandle := r.0.nextHandle, untils := r.0.untils,
                      look := r.0.look, held := r.0.held)
  {
    match h
    case Invariants => CheckInvariants(s, script, 0)
    case Until(id) =>
      if id >= |s.untils| then (s, Quiet)
      else
        var (t, said) := CheckUntil(s, script, id);
        if s.untils[id].answer.None? && t.untils[id].answer.Some? then (DoCallSoon(t), said)
        else (t, said)
  }

  datatype Pass = Pass(s: RunState, first: Option<Error>, notes: seq<Error>, broke: Option<Error>)

  /** Every hook, in order, whatever the earlier ones said; only an interrupt cuts the pass short. */
  function RunHooks(s: RunState, script: Script, hooks: seq<Hook>, first: Option<Error>, notes: seq<Error>): (p: Pass)
    ensures p.s == s.(agenda := s.agenda.(ready := p.s.agenda.ready), nextHandle := p.s.nextHandle, untils := p.s.untils,
                      look := p.s.look, held := p.s.held)
    decreases |hooks|
  {
    if hooks == [] then Pass(s, first, notes, None)
    else
      var (t, said) := RunHook(s, script, hooks[0]);
      match said
      case Quiet => RunHooks(t, script, hooks[1..], first, notes)
      case Soft(e) => RunHooks(t, script, hooks[1..], first, notes + [e])
      case Hard(e) =>
        if first.None? then RunHooks(t, script, hooks[1..], Some(e), notes)
        else RunHooks(t, script, hooks[1..], first, notes + [e])
      case Broke(e) => Pass(t, first, notes, Some(e))
  }

  function Settle(s: RunState): RunState {
    s.(hooks := [], settles := s.settles + 1)
  }

  predicate WatchDone(s: RunState) {
    s.watch.Some? && s.watch.value in s.results
  }

  /** The stop countdown at the end of a step. */
  function CountDown(s: RunState): RunState {
    if s.watch.None? then s
    else if s.stopIn.None? then (if WatchDone(s) then s.(stopIn := Some(2)) else s)
    else
      var k := s.stopIn.value - 1;
      var settling := k == 1 && s.settle;
      s.(stopIn := Some(k), stopping := s.stopping || k == 0,
         hooks := if settling then [] else s.hooks, settles := if settling then s.settles + 1 else s.settles)
  }

  function Logged(s: RunState): RunState {
    s.(log := s.log + [StepEnd(s.agenda.now, s.stopping, WatchDone(s), s.held)])
  }

  function Concluded(p: Pass): StepResult {
    if p.broke.Some? then Raised(p.broke.value, [])
    else if p.first.Some? then Raised(p.first.value, p.notes)
    else Normal
  }

  function EndStep(s: RunState, script: Script): (RunState, StepResult) {
    var p := RunHooks(s.(held := []), script, s.hooks, None, []);
    var r := Concluded(p);
    (if r.Raised? then p.s else CountDown(Logged(p.s)), r)
  }

  /** Nothing is ready and the loop is not in a stop step: the clock must jump, or the run is stuck. */
  predicate Idle(s: RunState) {
    s.agenda.ready == [] && s.stopIn.None?
  }

  function Budgeted(s: RunState): RunState {
    if s.stepsLeft.Some? && s.stepsLeft.value > 0 then s.(stepsLeft := Some(s.stepsLeft.value - 1)) else s
  }

  /** Jump the clock if nothing is ready, then promote what is due. */
  function Advance(s: RunState): (r: (RunState, StepResult))
    ensures r.0 == s.(agenda := r.0.agenda)
  {
    if Idle(s) && !CanJump(s.agenda) && !s.stopping then (s, Raised(Deadlock, []))
    else
      var t := if Idle(s) && CanJump(s.agenda) then s.(agenda := Jump(s.agenda)) else s;
      (t.(agenda := FireDue(t.agenda)), Normal)
  }

  function Step(s: RunState, script: Script): (RunState, StepResult) {
    if s.stepsLeft == Some(0) then (s, Raised(s.stepError, []))
    else
      var (a, r) := Advance(Budgeted(s));
      if r.Raised? then (a, r) else Work(a, script)
  }

  /** The batch that was ready when the step began, then the checks. */
  function Work(s: RunState, script: Script): (RunState, StepResult) {
    var (t, r) := RunBatch(s, script, |s.agenda.ready|);
    if r.Raised? then (t, r) else EndStep(t, script)
  }

  // ---- running ------------------------------------------------------------------------------------------

  datatype LoopEnd = Returned | Threw(e: Error, notes: seq<Error>) | StillRunning

  /** asyncio's `run_forever`: steps until `stop` was called; however it ends, the flag is cleared.
      `fuel` is how many steps we watch: with every fuel considered, every run is. */
  function RunForever(s: RunState, script: Script, fuel: nat): (RunState, LoopEnd)
    decreases fuel
  {
    if fuel == 0 then (s, StillRunning)
    else
      var (t, r) := Step(s, script);
      if r.Raised? then (t.(stopping := false), Threw(r.e, r.notes))
      else if t.stopping then (t.(stopping := false), Returned)
      else RunForever(t, script, fuel - 1)
  }

  function Unwatched(s: RunState): RunState {
    s.(watch := None, stopIn := None, settle := false)
  }

  /** `run_until_done`, including the extra pass when user code stopped the loop early. */
  function RunUntilDone(s: RunState, script: Script, f: Future, settle: bool, fuel: nat): (RunState, LoopEnd) {
    var (t, end) := RunForever(s.(watch := Some(f), stopIn := None, settle := settle), script, fuel);
    if end.Returned? && f in t.results && (t.stopIn == Some(1) || t.stopIn == Some(2)) then
      var u := if t.stopIn == Some(2) && settle then Settle(t) else t;
      var (v, end') := RunForever(u.(stopIn := Some(1)), script, fuel);
      (Unwatched(v), end')
    else (Unwatched(t), end)
  }

  function RunOneMoreStep(s: RunState, script: Script, f: Future, fuel: nat): (RunState, LoopEnd) {
    var (t, end) := RunForever(s.(watch := Some(f), stopIn := Some(1), settle := false), script, fuel);
    (Unwatched(t), end)
  }

  const NewRun := RunState(Agenda(0.0, [], 0, [], []), 0, {}, 0, [], map[], false, None, Livelock, None, None, false,
                           [], [], false, false, [], false, 0, 0, [], [], 0)
}
