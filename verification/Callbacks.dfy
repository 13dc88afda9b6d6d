/** Every callback handed to the loop is in exactly one place: waiting as a timer, ready, or taken; only
    cancelling can make one disappear, and none is ever taken twice. */
module Callbacks {
  import opened Common
  import opened Agendas
  import opened LoopModel

  function HandleOf(e: Entry<Handle>): Handle {
    if e.Soon? then e.what else e.timer.what
  }

  ghost function One(b: bool): nat { if b then 1 else 0 }

  ghost function AsTimer(ts: seq<Timer<Handle>>, h: Handle): nat {
    if ts == [] then 0 else One(ts[0].what == h) + AsTimer(ts[1..], h)
  }

  ghost function AsReady(es: seq<Entry<Handle>>, h: Handle): nat {
    if es == [] then 0 else AsReady(es[..|es| - 1], h) + One(HandleOf(es[|es| - 1]) == h)
  }

  ghost function AsTaken(xs: seq<Taken<Handle>>, h: Handle): nat {
    if xs == [] then 0 else AsTaken(xs[..|xs| - 1], h) + One(HandleOf(xs[|xs| - 1].entry) == h)
  }

  /** How often the agenda holds the handle, in all three places together. */
  ghost function Places(a: Agenda<Handle>, h: Handle): nat {
    AsTimer(a.timers, h) + AsReady(a.ready, h) + AsTaken(a.taken, h)
  }

  ghost predicate Ledger(a: Agenda<Handle>, next: Handle, cancelled: set<Handle>) {
    && (forall h: Handle :: Places(a, h) == 0 || (Places(a, h) == 1 && h < next))
    && (forall h: Handle :: h < next && h !in cancelled ==> Places(a, h) == 1)
  }

  /** Each handle is in one place at most, and in one place exactly unless it was cancelled. */
  ghost predicate Accounted(s: RunState) {
    Ledger(s.agenda, s.nextHandle, s.cancelled)
  }

  // ---- agenda operations ----------------------------------------------------------------------------------

  lemma {:induction false} InsertPlaces(ts: seq<Timer<Handle>>, t: Timer<Handle>, h: Handle)
    ensures AsTimer(Insert(ts, t), h) == AsTimer(ts, h) + One(t.what == h)
  {
    if ts == [] || Before(t, ts[0]) {
      assert ([t] + ts)[1..] == ts;
    } else {
      InsertPlaces(ts[1..], t, h);
      assert ([ts[0]] + Insert(ts[1..], t))[1..] == Insert(ts[1..], t);
    }
  }

  lemma {:induction false} WithoutPlaces(ts: seq<Timer<Handle>>, x: Handle, h: Handle)
    ensures AsTimer(Without(ts, x), h) == if h == x then 0 else AsTimer(ts, h)
  {
    if ts != [] {
      WithoutPlaces(ts[1..], x, h);
      assert ([ts[0]] + Without(ts[1..], x))[1..] == Without(ts[1..], x);
    }
  }

  lemma ReadyMore(es: seq<Entry<Handle>>, e: Entry<Handle>, h: Handle)
    ensures AsReady(es + [e], h) == AsReady(es, h) + One(HandleOf(e) == h)
  {
    assert (es + [e])[..|es|] == es;
  }

  lemma {:induction false} ReadyLess(es: seq<Entry<Handle>>, h: Handle)
    requires es != []
    ensures AsReady(es, h) == One(HandleOf(es[0]) == h) + AsReady(es[1..], h)
  {
    if |es| > 1 {
      var front := es[..|es| - 1];
      ReadyLess(front, h);
      assert front[1..] == es[1..][..|es| - 2];
    } else {
      assert es[1..] == [] && es[..0] == [];
    }
  }

  lemma {:induction false} FireDuePlaces(a: Agenda<Handle>, h: Handle)
    ensures Places(FireDue(a), h) == Places(a, h)
    decreases |a.timers|
  {
    if a.timers != [] && DueBy(a.timers[0].when, a.now) {
      FireDuePlaces(FireOne(a), h);
      ReadyMore(a.ready, Fired(a.timers[0]), h);
    }
  }

  lemma TakePlaces(a: Agenda<Handle>, run: bool, h: Handle)
    requires a.ready != []
    ensures Places(Take(a, run), h) == Places(a, h)
  {
    ReadyLess(a.ready, h);
    assert Take(a, run).taken[..|a.taken|] == a.taken;
  }

  // ---- what user code and the loop do -----------------------------------------------------------------------

  lemma CallSoonAccounted(s: RunState)
    requires Accounted(s)
    ensures Accounted(DoCallSoon(s))
  {
    hide AsTimer, AsReady, AsTaken;
    var t := DoCallSoon(s);
    forall h: Handle ensures Places(t.agenda, h) == Places(s.agenda, h) + One(h == s.nextHandle) {
      ReadyMore(s.agenda.ready, Soon(s.nextHandle), h);
    }
  }

  lemma CallAtAccounted(s: RunState, when: Num)
    requires Accounted(s)
    ensures Accounted(DoCallAt(s, when))
  {
    hide AsTimer, AsReady, AsTaken, Insert;
    var d := ToDeadline(when);
    if d.Some? {
      var t := DoCallAt(s, when);
      forall h: Handle ensures Places(t.agenda, h) == Places(s.agenda, h) + One(h == s.nextHandle) {
        InsertPlaces(s.agenda.timers, Timer(d.value, s.agenda.nextSeq, s.agenda.now, s.nextHandle), h);
      }
    }
  }

  lemma CancelAccounted(s: RunState, x: Handle)
    requires Accounted(s)
    ensures Accounted(DoCancel(s, x))
  {
    hide AsTimer, AsReady, AsTaken, Without;
    var t := DoCancel(s, x);
    forall h: Handle
      ensures Places(t.agenda, h) <= Places(s.agenda, h)
      ensures h != x ==> Places(t.agenda, h) == Places(s.agenda, h)
    {
      WithoutPlaces(s.agenda.timers, x, h);
    }
  }

  lemma SameAccounted(s: RunState, t: RunState)
    requires Accounted(s) && t.nextHandle == s.nextHandle && t.cancelled == s.cancelled
    requires forall h: Handle :: Places(t.agenda, h) == Places(s.agenda, h)
    ensures Accounted(t)
  {
  }

  lemma EndUntilAccounted(s: RunState)
    requires Accounted(s)
    ensures Accounted(EndUntil(s))
  {
    hide Ledger, DoCancel, Removed;
    if s.untilActive && s.untils != [] && s.untils[|s.untils| - 1].timer.Some? {
      CancelAccounted(s, s.untils[|s.untils| - 1].timer.value);
    }
  }

  lemma BeginUntilAccounted(s: RunState, script: Script, deadline: Option<Num>)
    requires Accounted(s)
    ensures Accounted(BeginUntil(s, script, deadline))
  {
    hide Ledger, CheckUntil, EndUntil, DoCallAt;
    if !(s.untilActive || (deadline.Some? && !deadline.value.Real?)) {
      var t := EnterUntil(s, if deadline.Some? then Some(deadline.value.r) else None);
      if deadline.Some? {
        CallAtAccounted(s, Real(s.agenda.now + deadline.value.r));
      }
      assert Accounted(t);
      EndUntilAccounted(CheckUntil(t, script, |s.untils|).0);
    }
  }

  lemma PerformAccounted(s: RunState, script: Script, op: Op)
    requires Accounted(s)
    ensures Accounted(Perform(s, script, op))
  {
    hide Ledger, BeginUntil, EndUntil, DoCallAt, DoCallSoon, DoCancel, Answered, Internal;
    match op
    case OpCallSoon => CallSoonAccounted(s);
    case OpCallAt(when) => CallAtAccounted(s, when);
    case OpCallLater(delay) => CallAtAccounted(s, After(s.agenda.now, delay));
    case OpCancel(h) => CancelAccounted(s, h);
    case OpSpawn(_) => CallSoonAccounted(s);
    case OpBeginUntil(deadline) => BeginUntilAccounted(s, script, deadline);
    case OpCancelUntil =>
      if CancelUntil(s) != s {
        var u := Answered(s, |s.untils| - 1, Abandoned);
        assert u.agenda == s.agenda && u.nextHandle == s.nextHandle && u.cancelled == s.cancelled;
        CallSoonAccounted(u);
      }
    case OpEndUntil => EndUntilAccounted(s);
    case _ =>
  }

  lemma {:induction false} PerformAllAccounted(s: RunState, script: Script, ops: seq<Op>)
    requires Accounted(s)
    ensures Accounted(PerformAll(s, script, ops))
    decreases |ops|
  {
    hide Accounted, Perform;
    if ops != [] {
      PerformAccounted(s, script, ops[0]);
      PerformAllAccounted(Perform(s, script, ops[0]), script, ops[1..]);
    }
  }

  lemma RunEntryAccounted(s: RunState, script: Script)
    requires Accounted(s) && s.agenda.ready != []
    ensures Accounted(RunEntry(s, script).0)
  {
    hide Accounted, PerformAll, Take;
    forall run: bool, h: Handle ensures Places(Take(s.agenda, run), h) == Places(s.agenda, h) {
      TakePlaces(s.agenda, run, h);
    }
    var t := s.(agenda := Take(s.agenda, true), turn := s.turn + 1);
    SameAccounted(s, s.(agenda := Take(s.agenda, false)));
    SameAccounted(s, t);
    PerformAllAccounted(t, script, script.turns(s.turn).ops);
  }

  lemma {:induction false} RunBatchAccounted(s: RunState, script: Script, n: nat)
    requires Accounted(s)
    ensures Accounted(RunBatch(s, script, n).0)
    decreases n
  {
    hide Accounted, RunEntry;
    if n > 0 && s.agenda.ready != [] {
      RunEntryAccounted(s, script);
      RunBatchAccounted(RunEntry(s, script).0, script, n - 1);
    }
  }

  lemma RunHookAccounted(s: RunState, script: Script, h: Hook)
    requires Accounted(s)
    ensures Accounted(RunHook(s, script, h).0)
  {
    hide Ledger, CheckUntil, CheckInvariants, DoCallSoon;
    if h.Until? && h.id < |s.untils| {
      CallSoonAccounted(CheckUntil(s, script, h.id).0);
    }
  }

  lemma {:induction false} RunHooksAccounted(s: RunState, script: Script, hooks: seq<Hook>, first: Option<Error>, notes: seq<Error>)
    requires Accounted(s)
    ensures Accounted(RunHooks(s, script, hooks, first, notes).s)
    decreases |hooks|
  {
    hide Accounted, RunHook;
    if hooks != [] {
      RunHookAccounted(s, script, hooks[0]);
      var (t, said) := RunHook(s, script, hooks[0]);
      match said
      case Quiet => RunHooksAccounted(t, script, hooks[1..], first, notes);
      case Soft(e) => RunHooksAccounted(t, script, hooks[1..], first, notes + [e]);
      case Hard(e) => RunHooksAccounted(t, script, hooks[1..], if first.None? then Some(e) else first, if first.None? then notes else notes + [e]);
      case Broke(e) =>
    }
  }

  lemma AdvanceAccounted(s: RunState)
    requires Accounted(s)
    ensures Accounted(Advance(s).0)
  {
    hide Ledger, FireDue, AsTimer, AsReady, AsTaken;
    forall a: Agenda<Handle>, h: Handle ensures Places(FireDue(a), h) == Places(a, h) {
      FireDuePlaces(a, h);
    }
    SameAccounted(s, Advance(s).0);
  }

  lemma StepAccounted(s: RunState, script: Script)
    requires Accounted(s)
    ensures Accounted(Step(s, script).0)
  {
    hide Ledger, Advance, RunBatch, RunHooks;
    var b := Budgeted(s);
    AdvanceAccounted(b);
    var a := Advance(b).0;
    RunBatchAccounted(a, script, |a.agenda.ready|);
    var t := RunBatch(a, script, |a.agenda.ready|).0;
    RunHooksAccounted(t.(held := []), script, t.hooks, None, []);
  }

  /** Over any run of any program: each handle the loop gave out is in one place exactly (a waiting timer,
      a ready entry, or an entry taken once and for all) unless it was cancelled, and then in one at most. */
  lemma {:induction false} NothingLostOrRepeated(s: RunState, script: Script, fuel: nat)
    requires Accounted(s)
    ensures Accounted(RunForever(s, script, fuel).0)
    decreases fuel
  {
    hide Ledger, Step;
    if fuel > 0 {
      StepAccounted(s, script);
      NothingLostOrRepeated(Step(s, script).0, script, fuel - 1);
    }
  }

  lemma {:induction false} TakenTwice(xs: seq<Taken<Handle>>, i: nat, j: nat)
    requires i < j < |xs| && HandleOf(xs[i].entry) == HandleOf(xs[j].entry)
    ensures AsTaken(xs, HandleOf(xs[i].entry)) >= 2
  {
    var last := |xs| - 1;
    if j < last {
      TakenTwice(xs[..last], i, j);
    } else {
      TakenOnce(xs[..last], i);
    }
  }

  lemma {:induction false} TakenOnce(xs: seq<Taken<Handle>>, i: nat)
    requires i < |xs|
    ensures AsTaken(xs, HandleOf(xs[i].entry)) >= 1
  {
    if i < |xs| - 1 {
      TakenOnce(xs[..|xs| - 1], i);
    }
  }

  /** ... so no callback is taken twice. */
  lemma TakenAtMostOnce(s: RunState, i: nat, j: nat)
    requires Accounted(s) && i < j < |s.agenda.taken|
    ensures HandleOf(s.agenda.taken[i].entry) != HandleOf(s.agenda.taken[j].entry)
  {
    assert Places(s.agenda, HandleOf(s.agenda.taken[i].entry)) <= 1;
    if HandleOf(s.agenda.taken[i].entry) == HandleOf(s.agenda.taken[j].entry) {
      TakenTwice(s.agenda.taken, i, j);
      assert false;
    }
  }

  /** A new world holds nothing yet, so the above is about every run of it. */
  lemma NewAccounted()
    ensures Accounted(NewRun)
  {
  }
}
