/** The two halves of the model meet at the agenda: whatever a step of the loop does to its agenda, for any
    program, the network's machine does to its own in a list of moves. */
module LoopMoves {
  import opened Common
  import opened Agendas
  import opened LoopModel
  import opened NetModel
  import opened NetFaults
  import opened NetMachine

  // ---- the loop's agenda as the network sees it --------------------------------------------------------------

  function SeenTimer(t: Timer<Handle>): Timer<Callback> {
    Timer(t.when, t.order, t.setAt, User(t.what))
  }

  function SeenEntry(e: Entry<Handle>): Entry<Callback> {
    match e
    case Soon(h) => Soon(User(h))
    case Fired(t) => Fired(SeenTimer(t))
  }

  function SeenTimers(ts: seq<Timer<Handle>>): (r: seq<Timer<Callback>>)
    ensures |r| == |ts| && forall i :: 0 <= i < |r| ==> r[i] == SeenTimer(ts[i])
  {
    if ts == [] then [] else [SeenTimer(ts[0])] + SeenTimers(ts[1..])
  }

  function SeenEntries(es: seq<Entry<Handle>>): (r: seq<Entry<Callback>>)
    ensures |r| == |es| && forall i :: 0 <= i < |r| ==> r[i] == SeenEntry(es[i])
  {
    if es == [] then [] else [SeenEntry(es[0])] + SeenEntries(es[1..])
  }

  /** The network does not look at whether a cancelled callback was skipped. */
  function SeenTaken(xs: seq<Taken<Handle>>): (r: seq<Taken<Callback>>)
    ensures |r| == |xs| && forall i :: 0 <= i < |r| ==> r[i] == Taken(SeenEntry(xs[i].entry), xs[i].clock, true)
  {
    if xs == [] then [] else [Taken(SeenEntry(xs[0].entry), xs[0].clock, true)] + SeenTaken(xs[1..])
  }

  /** Every callback of the loop is some callback of user code. */
  function Seen(a: Agenda<Handle>): Agenda<Callback> {
    Agenda(a.now, SeenTimers(a.timers), a.nextSeq, SeenEntries(a.ready), SeenTaken(a.taken))
  }

  lemma {:induction false} SeenInsert(ts: seq<Timer<Handle>>, t: Timer<Handle>)
    ensures SeenTimers(Insert(ts, t)) == Insert(SeenTimers(ts), SeenTimer(t))
  {
    if ts != [] && !Before(t, ts[0]) {
      SeenInsert(ts[1..], t);
      assert SeenTimers(ts)[1..] == SeenTimers(ts[1..]);
    }
  }

  lemma {:induction false} SeenWithout(ts: seq<Timer<Handle>>, h: Handle)
    ensures SeenTimers(Without(ts, h)) == Without(SeenTimers(ts), User(h))
  {
    if ts != [] {
      SeenWithout(ts[1..], h);
      assert SeenTimers(ts)[1..] == SeenTimers(ts[1..]);
    }
  }

  lemma SeenFireOne(a: Agenda<Handle>)
    requires a.timers != []
    ensures Seen(FireOne(a)) == FireOne(Seen(a))
  {
    assert SeenEntries(a.ready + [Fired(a.timers[0])]) == SeenEntries(a.ready) + [Fired(SeenTimer(a.timers[0]))];
  }

  lemma {:induction false} SeenFireDue(a: Agenda<Handle>)
    ensures Seen(FireDue(a)) == FireDue(Seen(a))
    decreases |a.timers|
  {
    hide Seen;
    SeenHead(a);
    if a.timers != [] && DueBy(a.timers[0].when, a.now) {
      SeenFireOne(a);
      SeenFireDue(FireOne(a));
    }
  }

  lemma SeenHead(a: Agenda<Handle>)
    ensures |Seen(a).timers| == |a.timers| && |Seen(a).ready| == |a.ready| && Seen(a).now == a.now
    ensures a.timers != [] ==> Seen(a).timers[0].when == a.timers[0].when
    ensures a.ready != [] ==> Seen(a).ready[0] == SeenEntry(a.ready[0])
  {
  }

  lemma SeenTake(a: Agenda<Handle>, run: bool)
    requires a.ready != []
    ensures Seen(Take(a, run)) == Take(Seen(a), true)
  {
    var x := Taken(a.ready[0], a.now, run);
    assert SeenTaken(a.taken + [x]) == SeenTaken(a.taken) + [Taken(SeenEntry(a.ready[0]), a.now, true)];
    assert SeenEntries(a.ready)[1..] == SeenEntries(a.ready[1..]);
  }

  lemma SeenSoon(a: Agenda<Handle>, h: Handle)
    ensures Seen(CallSoon(a, h)) == CallSoon(Seen(a), User(h))
  {
    assert SeenEntries(a.ready + [Soon(h)]) == SeenEntries(a.ready) + [Soon(User(h))];
  }

  // ---- moves ------------------------------------------------------------------------------------------------------

  ghost function Moved(s: Sys, ent: Entropy, acts: seq<Act>): Sys
    requires EventuallySplits(ent)
  {
    if acts == [] then s else Apply(Moved(s, ent, acts[..|acts| - 1]), ent, acts[|acts| - 1])
  }

  lemma {:induction false} MovedOn(s: Sys, ent: Entropy, acts: seq<Act>, more: seq<Act>)
    requires EventuallySplits(ent)
    ensures Moved(s, ent, acts + more) == Moved(Moved(s, ent, acts), ent, more)
  {
    hide Apply;
    if more == [] {
      assert acts + more == acts;
    } else {
      MovedOn(s, ent, acts, more[..|more| - 1]);
      assert (acts + more)[..|acts + more| - 1] == acts + more[..|more| - 1];
    }
  }

  /** From any network whose agenda is seen as a, the moves lead to one whose agenda is seen as b, and
      change nothing else of it but the record of timers made. */
  ghost predicate Leads(a: Agenda<Handle>, b: Agenda<Handle>, acts: seq<Act>) {
    forall s: Sys, ent: Entropy :: EventuallySplits(ent) && s.agenda == Seen(a) ==> LeadsFrom(s, ent, b, acts)
  }

  ghost predicate LeadsFrom(s: Sys, ent: Entropy, b: Agenda<Handle>, acts: seq<Act>)
    requires EventuallySplits(ent)
  {
    var t := Moved(s, ent, acts);
    t == s.(agenda := Seen(b), made := t.made)
  }

  lemma LeadsOn(a: Agenda<Handle>, b: Agenda<Handle>, c: Agenda<Handle>, acts: seq<Act>, more: seq<Act>)
    requires Leads(a, b, acts) && Leads(b, c, more)
    ensures Leads(a, c, acts + more)
  {
    hide EventuallySplits, Moved, Seen;
    forall s: Sys, ent: Entropy | EventuallySplits(ent) && s.agenda == Seen(a) ensures LeadsFrom(s, ent, c, acts + more) {
      assert LeadsFrom(s, ent, b, acts);
      var u := Moved(s, ent, acts);
      assert LeadsFrom(u, ent, c, more);
      MovedOn(s, ent, acts, more);
    }
  }

  lemma NoMove(a: Agenda<Handle>)
    ensures Leads(a, a, [])
  {
  }

  /** One move, given what it does to any network. */
  lemma OneMove(a: Agenda<Handle>, b: Agenda<Handle>, act: Act)
    requires forall s: Sys, ent: Entropy :: EventuallySplits(ent) && s.agenda == Seen(a) ==> MoveTo(s, ent, b, act)
    ensures Leads(a, b, [act])
  {
    hide EventuallySplits, Apply, Seen;
    forall s: Sys, ent: Entropy | EventuallySplits(ent) && s.agenda == Seen(a) ensures LeadsFrom(s, ent, b, [act]) {
      assert MoveTo(s, ent, b, act);
      assert [act][..0] == [];
      assert Moved(s, ent, []) == s;
    }
  }

  ghost predicate MoveTo(s: Sys, ent: Entropy, b: Agenda<Handle>, act: Act)
    requires EventuallySplits(ent)
  {
    var t := Apply(s, ent, act);
    t == s.(agenda := Seen(b), made := t.made)
  }

  lemma SoonMove(a: Agenda<Handle>, h: Handle)
    ensures Leads(a, CallSoon(a, h), [UserSoon(h)])
  {
    hide EventuallySplits, Seen;
    SeenSoon(a, h);
    OneMove(a, CallSoon(a, h), UserSoon(h));
  }

  lemma AtMove(a: Agenda<Handle>, when: Deadline, h: Handle)
    ensures Leads(a, CallAt(a, when, h), [UserAt(h, when)])
  {
    hide EventuallySplits;
    SeenInsert(a.timers, Timer(when, a.nextSeq, a.now, h));
    assert Seen(CallAt(a, when, h)) == CallAt(Seen(a), when, User(h));
    OneMove(a, CallAt(a, when, h), UserAt(h, when));
  }

  lemma CancelMove(a: Agenda<Handle>, h: Handle)
    ensures Leads(a, Cancel(a, h), [Forget(User(h))])
  {
    hide EventuallySplits;
    SeenWithout(a.timers, h);
    assert Seen(Cancel(a, h)) == Cancel(Seen(a), User(h));
    OneMove(a, Cancel(a, h), Forget(User(h)));
  }

  lemma TakeMove(a: Agenda<Handle>, run: bool)
    requires a.ready != []
    ensures Leads(a, Take(a, run), [TakeNext])
  {
    hide EventuallySplits, Seen, Take;
    SeenTake(a, run);
    SeenHead(a);
    OneMove(a, Take(a, run), TakeNext);
  }

  lemma FireMove(a: Agenda<Handle>)
    ensures Leads(a, FireDue(a), [FireTimers])
  {
    hide EventuallySplits, Seen, FireDue;
    SeenFireDue(a);
    OneMove(a, FireDue(a), FireTimers);
  }

  lemma JumpMove(a: Agenda<Handle>)
    requires a.ready == [] && CanJump(a)
    ensures Leads(a, Jump(a), [JumpClock])
  {
    hide EventuallySplits;
    SeenHead(a);
    assert Seen(Jump(a)) == Jump(Seen(a));
    OneMove(a, Jump(a), JumpClock);
  }

  // ---- what each part of a step amounts to -----------------------------------------------------------------------

  lemma CallAtMoves(s: RunState, when: Num) returns (acts: seq<Act>)
    ensures Leads(s.agenda, DoCallAt(s, when).agenda, acts)
  {
    hide Leads, CallAt;
    var d := ToDeadline(when);
    if d.Some? {
      acts := [UserAt(s.nextHandle, d.value)];
      AtMove(s.agenda, d.value, s.nextHandle);
    } else {
      acts := [];
      NoMove(s.agenda);
    }
  }

  lemma EndUntilMoves(s: RunState) returns (acts: seq<Act>)
    ensures Leads(s.agenda, EndUntil(s).agenda, acts)
  {
    hide Leads, Cancel, Removed;
    if s.untilActive && s.untils != [] && s.untils[|s.untils| - 1].timer.Some? {
      acts := [Forget(User(s.untils[|s.untils| - 1].timer.value))];
      CancelMove(s.agenda, s.untils[|s.untils| - 1].timer.value);
    } else {
      acts := [];
      NoMove(s.agenda);
    }
  }

  lemma EnterUntilMoves(s: RunState, d: Option<real>) returns (acts: seq<Act>)
    ensures Leads(s.agenda, EnterUntil(s, d).agenda, acts)
  {
    hide Leads, DoCallAt;
    if d.Some? {
      acts := CallAtMoves(s, Real(s.agenda.now + d.value));
    } else {
      acts := [];
      NoMove(s.agenda);
    }
  }

  lemma BeginUntilMoves(s: RunState, script: Script, deadline: Option<Num>) returns (acts: seq<Act>)
    ensures Leads(s.agenda, BeginUntil(s, script, deadline).agenda, acts)
  {
    hide Leads, EnterUntil, CheckUntil, EndUntil;
    if s.untilActive || (deadline.Some? && !deadline.value.Real?) {
      acts := [];
      NoMove(s.agenda);
    } else {
      var d := if deadline.Some? then Some(deadline.value.r) else None;
      acts := EnterUntilMoves(s, d);
      var (u, said) := CheckUntil(EnterUntil(s, d), script, |s.untils|);
      if said.Broke? || u.untils[|s.untils|].answer.Some? {
        var more := EndUntilMoves(u);
        LeadsOn(s.agenda, u.agenda, EndUntil(u).agenda, acts, more);
        acts := acts + more;
      }
    }
  }

  lemma PerformMoves(s: RunState, script: Script, op: Op) returns (acts: seq<Act>)
    ensures Leads(s.agenda, Perform(s, script, op).agenda, acts)
  {
    hide Leads, BeginUntil, EndUntil, DoCallAt, Internal, After, CallSoon, Cancel;
    acts := [];
    NoMove(s.agenda);
    SoonMove(s.agenda, s.nextHandle);
    match op
    case OpCallSoon => acts := [UserSoon(s.nextHandle)];
    case OpSpawn(_) => acts := [UserSoon(s.nextHandle)];
    case OpCallAt(when) => acts := CallAtMoves(s, when);
    case OpCallLater(delay) => acts := CallAtMoves(s, After(s.agenda.now, delay));
    case OpCancel(h) =>
      if h < s.nextHandle && !Internal(s, h) {
        CancelMove(s.agenda, h);
        acts := [Forget(User(h))];
      }
    case OpBeginUntil(deadline) => acts := BeginUntilMoves(s, script, deadline);
    case OpEndUntil => acts := EndUntilMoves(s);
    case OpCancelUntil => if CancelUntil(s).agenda != s.agenda { acts := [UserSoon(s.nextHandle)]; }
    case _ =>
  }

  lemma {:induction false} PerformAllMoves(s: RunState, script: Script, ops: seq<Op>) returns (acts: seq<Act>)
    ensures Leads(s.agenda, PerformAll(s, script, ops).agenda, acts)
    decreases |ops|
  {
    hide Leads, Perform;
    if ops == [] {
      acts := [];
      NoMove(s.agenda);
    } else {
      var t := Perform(s, script, ops[0]);
      var first := PerformMoves(s, script, ops[0]);
      var rest := PerformAllMoves(t, script, ops[1..]);
      acts := first + rest;
      LeadsOn(s.agenda, t.agenda, PerformAll(t, script, ops[1..]).agenda, first, rest);
    }
  }

  lemma {:induction false} RunBatchMoves(s: RunState, script: Script, n: nat) returns (acts: seq<Act>)
    ensures Leads(s.agenda, RunBatch(s, script, n).0.agenda, acts)
    decreases n
  {
    hide Leads, RunEntry, Take;
    if n == 0 || s.agenda.ready == [] {
      acts := [];
      NoMove(s.agenda);
    } else {
      acts := RunEntryMoves(s, script);
      var (t, r) := RunEntry(s, script);
      if r.Normal? {
        var rest := RunBatchMoves(t, script, n - 1);
        LeadsOn(s.agenda, t.agenda, RunBatch(t, script, n - 1).0.agenda, acts, rest);
        acts := acts + rest;
      }
    }
  }

  lemma RunEntryMoves(s: RunState, script: Script) returns (acts: seq<Act>)
    requires s.agenda.ready != []
    ensures Leads(s.agenda, RunEntry(s, script).0.agenda, acts)
  {
    hide Leads, PerformAll, Take;
    acts := [TakeNext];
    TakeMove(s.agenda, false);
    TakeMove(s.agenda, true);
    var e := s.agenda.ready[0];
    if (if e.Soon? then e.what else e.timer.what) !in s.cancelled {
      var t := s.(agenda := Take(s.agenda, true), turn := s.turn + 1);
      var rest := PerformAllMoves(t, script, script.turns(s.turn).ops);
      LeadsOn(s.agenda, t.agenda, PerformAll(t, script, script.turns(s.turn).ops).agenda, acts, rest);
      acts := acts + rest;
    }
  }

  lemma RunHookMoves(s: RunState, script: Script, h: Hook) returns (acts: seq<Act>)
    ensures Leads(s.agenda, RunHook(s, script, h).0.agenda, acts)
  {
    hide Leads, CheckInvariants, CheckUntil, CallSoon;
    acts := [];
    NoMove(s.agenda);
    if RunHook(s, script, h).0.agenda != s.agenda {
      acts := [UserSoon(s.nextHandle)];
      SoonMove(s.agenda, s.nextHandle);
    }
  }

  lemma {:induction false} RunHooksMoves(s: RunState, script: Script, hooks: seq<Hook>, first: Option<Error>, notes: seq<Error>) returns (acts: seq<Act>)
    ensures Leads(s.agenda, RunHooks(s, script, hooks, first, notes).s.agenda, acts)
    decreases |hooks|
  {
    hide Leads, RunHook;
    if hooks == [] {
      acts := [];
      NoMove(s.agenda);
    } else {
      acts := RunHookMoves(s, script, hooks[0]);
      var (t, said) := RunHook(s, script, hooks[0]);
      if !said.Broke? {
        var f := if said.Hard? && first.None? then Some(said.e) else first;
        var ns := if said.Soft? || (said.Hard? && first.Some?) then notes + [said.e] else notes;
        var rest := RunHooksMoves(t, script, hooks[1..], f, ns);
        LeadsOn(s.agenda, t.agenda, RunHooks(t, script, hooks[1..], f, ns).s.agenda, acts, rest);
        acts := acts + rest;
      }
    }
  }

  lemma AdvanceMoves(s: RunState) returns (acts: seq<Act>)
    ensures Leads(s.agenda, Advance(s).0.agenda, acts)
  {
    hide Leads, FireDue, Jump;
    if LoopModel.Idle(s) && !CanJump(s.agenda) && !s.stopping {
      acts := [];
      NoMove(s.agenda);
    } else {
      var a := if LoopModel.Idle(s) && CanJump(s.agenda) then Jump(s.agenda) else s.agenda;
      acts := [FireTimers];
      FireMove(a);
      if LoopModel.Idle(s) && CanJump(s.agenda) {
        JumpMove(s.agenda);
        LeadsOn(s.agenda, a, FireDue(a), [JumpClock], acts);
        acts := [JumpClock] + acts;
      }
    }
  }

  lemma WorkMoves(s: RunState, script: Script) returns (acts: seq<Act>)
    ensures Leads(s.agenda, Work(s, script).0.agenda, acts)
  {
    hide Leads, RunBatch, RunHooks;
    acts := RunBatchMoves(s, script, |s.agenda.ready|);
    var (t, r) := RunBatch(s, script, |s.agenda.ready|);
    if r.Normal? {
      var u := t.(held := []);
      var rest := RunHooksMoves(u, script, t.hooks, None, []);
      LeadsOn(s.agenda, t.agenda, RunHooks(u, script, t.hooks, None, []).s.agenda, acts, rest);
      acts := acts + rest;
    }
  }

  /** Any step of the loop, under any program and however it ends, is a list of the network's moves. */
  lemma StepMoves(s: RunState, script: Script) returns (acts: seq<Act>)
    ensures Leads(s.agenda, Step(s, script).0.agenda, acts)
  {
    hide Leads, Advance, Work;
    if s.stepsLeft == Some(0) {
      acts := [];
      NoMove(s.agenda);
    } else {
      var b := Budgeted(s);
      acts := AdvanceMoves(b);
      var (a, r) := Advance(b);
      if r.Normal? {
        var rest := WorkMoves(a, script);
        LeadsOn(s.agenda, a.agenda, Work(a, script).0.agenda, acts, rest);
        acts := acts + rest;
      }
    }
  }

  /** And so is any run of it. */
  lemma {:induction false} RunMoves(s: RunState, script: Script, fuel: nat) returns (acts: seq<Act>)
    ensures Leads(s.agenda, RunForever(s, script, fuel).0.agenda, acts)
    decreases fuel
  {
    hide Leads, Step;
    if fuel == 0 {
      acts := [];
      NoMove(s.agenda);
    } else {
      acts := StepMoves(s, script);
      var (t, r) := Step(s, script);
      if r.Normal? && !t.stopping {
        var rest := RunMoves(t, script, fuel - 1);
        LeadsOn(s.agenda, t.agenda, RunForever(t, script, fuel - 1).0.agenda, acts, rest);
        acts := acts + rest;
      }
    }
  }
}
