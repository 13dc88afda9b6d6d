/** What a step of the loop runs: the entries that were ready once the clock had been advanced, in that
    order, each of them unless its handle had been cancelled by then. */
module Batches {
  import opened Common
  import opened Agendas
  import opened LoopModel
  import opened LoopProperties
  import opened EventLoop
  import opened Callbacks

  /** How many of the entries taken were run. */
  ghost function Ran(xs: seq<Taken<Handle>>): nat {
    if xs == [] then 0 else Ran(xs[..|xs| - 1]) + One(xs[|xs| - 1].run)
  }

  lemma {:induction false} RanBoth(xs: seq<Taken<Handle>>, ys: seq<Taken<Handle>>)
    ensures Ran(xs + ys) == Ran(xs) + Ran(ys)
  {
    if ys == [] {
      assert xs + ys == xs;
    } else {
      var front := ys[..|ys| - 1];
      RanBoth(xs, front);
      assert (xs + ys)[..|xs + ys| - 1] == xs + front;
    }
  }

  /** The entries taken between s and t. */
  ghost function Since(s: RunState, t: RunState): seq<Taken<Handle>>
    requires |s.agenda.taken| <= |t.agenda.taken|
  {
    t.agenda.taken[|s.agenda.taken|..]
  }

  /** Between s and t an entry ran unless it was cancelled: not if it was cancelled by s, surely if it is
      not cancelled by t; and each entry that ran, no other, was one callback of the program. */
  ghost predicate Fair(s: RunState, t: RunState) {
    && s.agenda.taken <= t.agenda.taken && s.cancelled <= t.cancelled
    && (forall i :: 0 <= i < |Since(s, t)| ==>
          && (HandleOf(Since(s, t)[i].entry) in s.cancelled ==> !Since(s, t)[i].run)
          && (!Since(s, t)[i].run ==> HandleOf(Since(s, t)[i].entry) in t.cancelled))
    && t.turn == s.turn + Ran(Since(s, t))
  }

  /** Nothing is taken, and cancelling is for good. */
  ghost predicate TookNone(s: RunState, t: RunState) {
    t.agenda.taken == s.agenda.taken && t.turn == s.turn && s.cancelled <= t.cancelled
  }

  lemma TookNoneFair(s: RunState, t: RunState)
    requires TookNone(s, t)
    ensures Fair(s, t)
  {
  }

  lemma FairOn(s: RunState, t: RunState, u: RunState)
    requires Fair(s, t) && Fair(t, u)
    ensures Fair(s, u) && Since(s, u) == Since(s, t) + Since(t, u)
  {
    RanBoth(Since(s, t), Since(t, u));
    assert Since(s, u) == Since(s, t) + Since(t, u);
  }

  lemma BeginUntilTakes(s: RunState, script: Script, deadline: Option<Num>)
    ensures TookNone(s, BeginUntil(s, script, deadline))
  {
    hide CheckUntil, Removed, Insert, Without;
  }

  lemma PerformTakes(s: RunState, script: Script, op: Op)
    ensures TookNone(s, Perform(s, script, op))
  {
    hide BeginUntil, Removed, Internal, Insert, Without, ToDeadline, After;
    if op.OpBeginUntil? {
      BeginUntilTakes(s, script, op.deadline);
    }
  }

  lemma {:induction false} PerformAllTakes(s: RunState, script: Script, ops: seq<Op>)
    ensures TookNone(s, PerformAll(s, script, ops))
    decreases |ops|
  {
    hide Perform;
    if ops != [] {
      PerformTakes(s, script, ops[0]);
      PerformAllTakes(Perform(s, script, ops[0]), script, ops[1..]);
    }
  }

  lemma OneTaken(s: RunState, t: RunState, x: Taken<Handle>)
    requires t.agenda.taken == s.agenda.taken + [x] && t.turn == s.turn + One(x.run) && s.cancelled <= t.cancelled
    requires x.run <==> HandleOf(x.entry) !in s.cancelled
    ensures Fair(s, t) && Since(s, t) == [x]
  {
    assert Since(s, t) == [x];
    assert [x][..0] == [];
  }

  /** The entry at the head is taken now, and run unless its handle is cancelled. */
  lemma EntryTaken(s: RunState, script: Script)
    requires s.agenda.ready != []
    ensures var t := RunEntry(s, script).0; var e := s.agenda.ready[0];
            && Fair(s, t) && Since(s, t) == [Taken(e, s.agenda.now, HandleOf(e) !in s.cancelled)]
            && s.agenda.ready[1..] <= t.agenda.ready
  {
    hide PerformAll, Fair;
    ReadyGrows(s, script);
    PerformAllTakes(s.(agenda := Take(s.agenda, true), turn := s.turn + 1), script, script.turns(s.turn).ops);
    OneTaken(s, RunEntry(s, script).0, Taken(s.agenda.ready[0], s.agenda.now, HandleOf(s.agenda.ready[0]) !in s.cancelled));
  }

  /** These entries, in this order, at this moment. */
  ghost predicate Exactly(xs: seq<Taken<Handle>>, es: seq<Entry<Handle>>, now: real) {
    |xs| == |es| && forall i :: 0 <= i < |es| ==> xs[i].entry == es[i] && xs[i].clock == now
  }

  /** A batch takes the first n entries in order, all at one moment, and fewer only if an interrupt cut
      it short; what its callbacks schedule stays behind. */
  lemma {:induction false} BatchTakes(s: RunState, script: Script, n: nat)
    requires n <= |s.agenda.ready|
    ensures var (t, r) := RunBatch(s, script, n);
            && Fair(s, t) && t.agenda.now == s.agenda.now
            && |Since(s, t)| <= n && Exactly(Since(s, t), s.agenda.ready[..|Since(s, t)|], s.agenda.now)
            && s.agenda.ready[|Since(s, t)|..] <= t.agenda.ready
            && (r.Normal? ==> |Since(s, t)| == n)
    decreases n
  {
    hide RunEntry, Fair;
    if n == 0 {
      assert Fair(s, s) by { TookNoneFair(s, s); }
    } else {
      EntryTaken(s, script);
      var (t, r) := RunEntry(s, script);
      assert s.agenda.taken <= t.agenda.taken by { assert Fair(s, t); FairGrows(s, t); }
      EntryClock(s, script);
      if r.Normal? {
        BatchTakes(t, script, n - 1);
        var u := RunBatch(t, script, n - 1).0;
        FairGrows(t, u);
        FairOn(s, t, u);
        var k := |Since(t, u)|;
        assert t.agenda.ready[..k] == s.agenda.ready[1..][..k];
        assert s.agenda.ready[1..][k..] == s.agenda.ready[k + 1..];
        assert s.agenda.ready[1..][k..] <= t.agenda.ready[k..];
      }
    }
  }

  lemma FairGrows(s: RunState, t: RunState)
    requires Fair(s, t)
    ensures s.agenda.taken <= t.agenda.taken
  {
  }

  lemma EntryClock(s: RunState, script: Script)
    requires s.agenda.ready != []
    ensures RunEntry(s, script).0.agenda.now == s.agenda.now
  {
    hide RunEntry;
    RunEntryKeeps(s, script);
  }

  /** To the instant: the i-th entry of a batch runs exactly if its handle is not cancelled after the
      entries before it have been dealt with. */
  lemma {:induction false} RunsUnlessCancelled(s: RunState, script: Script, n: nat, i: nat)
    requires n <= |s.agenda.ready| && i < |Since(s, Moved(s, script, n))|
    ensures Since(s, Moved(s, script, n))[i].run <==> HandleOf(s.agenda.ready[i]) !in RunBatch(s, script, i).0.cancelled
    decreases n
  {
    hide RunEntry, Fair;
    if n > 0 {
      EntryTaken(s, script);
      var (t, r) := RunEntry(s, script);
      FairGrows(s, t);
      if r.Normal? {
        BatchTakes(t, script, n - 1);
        var u := RunBatch(t, script, n - 1).0;
        FairGrows(t, u);
        FairOn(s, t, u);
        if i > 0 {
          RunsUnlessCancelled(t, script, n - 1, i - 1);
          assert t.agenda.ready[i - 1] == s.agenda.ready[i];
        }
      }
    }
  }

  /** The state a batch leads to, with what it took on record. */
  ghost function Moved(s: RunState, script: Script, n: nat): (t: RunState)
    requires n <= |s.agenda.ready|
    ensures |s.agenda.taken| <= |t.agenda.taken| && |Since(s, t)| <= n
  {
    BatchTakes(s, script, n);
    RunBatch(s, script, n).0
  }

  // ---- one step ---------------------------------------------------------------------------------------------

  /** Nothing is taken, and the queue only grows at its end. */
  ghost predicate OnlyAdds(s: RunState, t: RunState) {
    TookNone(s, t) && s.agenda.ready <= t.agenda.ready && t.agenda.now == s.agenda.now
  }

  lemma AddsMore(s: RunState, t: RunState, u: RunState)
    requires OnlyAdds(s, t) && OnlyAdds(t, u)
    ensures OnlyAdds(s, u)
  {
  }

  lemma {:induction false} HooksTake(s: RunState, script: Script, hooks: seq<Hook>, first: Option<Error>, notes: seq<Error>)
    ensures OnlyAdds(s, RunHooks(s, script, hooks, first, notes).s)
    decreases |hooks|
  {
    hide RunHook, OnlyAdds;
    if hooks == [] {
      assert OnlyAdds(s, s) by { AddsNothing(s); }
    } else {
      HookTakes(s, script, hooks[0]);
      var (t, said) := RunHook(s, script, hooks[0]);
      if !said.Broke? {
        var f := if said.Hard? && first.None? then Some(said.e) else first;
        var ns := if said.Soft? || (said.Hard? && first.Some?) then notes + [said.e] else notes;
        HooksTake(t, script, hooks[1..], f, ns);
        AddsMore(s, t, RunHooks(t, script, hooks[1..], f, ns).s);
      }
    }
  }

  lemma AddsNothing(s: RunState)
    ensures OnlyAdds(s, s)
  {
  }

  lemma HookTakes(s: RunState, script: Script, h: Hook)
    ensures OnlyAdds(s, RunHook(s, script, h).0)
  {
    hide CheckInvariants, CheckUntil;
  }

  lemma EndStepTakes(s: RunState, script: Script)
    ensures OnlyAdds(s, EndStep(s, script).0)
  {
    hide RunHooks, OnlyAdds;
    var s0 := s.(held := []);
    HooksTake(s0, script, s.hooks, None, []);
    var p := RunHooks(s0, script, s.hooks, None, []).s;
    SameAdds(s, s0, p, CountDown(Logged(p)));
    SameAdds(s, s0, p, p);
  }

  lemma SameAdds(s: RunState, s0: RunState, t: RunState, u: RunState)
    requires OnlyAdds(s0, t) && s0.agenda == s.agenda && s0.turn == s.turn && s0.cancelled == s.cancelled
    requires u.agenda == t.agenda && u.turn == t.turn && u.cancelled == t.cancelled
    ensures OnlyAdds(s, u)
  {
  }

  /** The clock has come to this deadline or is past it; minus infinity always is. */
  predicate Reached(d: Deadline, now: real) {
    d == Past || (d.At? && d.t <= now)
  }

  /** The head of the heap, up to the first timer whose deadline is still to come. */
  ghost predicate DueHead(ts: seq<Timer<Handle>>, now: real, k: nat) {
    && k <= |ts| && (forall i :: 0 <= i < k ==> Reached(ts[i].when, now)) && (k < |ts| ==> !Reached(ts[k].when, now))
  }

  function AsFired(ts: seq<Timer<Handle>>): (es: seq<Entry<Handle>>)
    ensures |es| == |ts| && forall i :: 0 <= i < |ts| ==> es[i] == Fired(ts[i])
  {
    seq(|ts|, i requires 0 <= i < |ts| => Fired(ts[i]))
  }

  lemma FiredOneMore(ready: seq<Entry<Handle>>, ts: seq<Timer<Handle>>, j: nat)
    requires ts != [] && j <= |ts[1..]|
    ensures (ready + [Fired(ts[0])]) + AsFired(ts[1..][..j]) == ready + AsFired(ts[..j + 1]) && ts[1..][j..] == ts[j + 1..]
  {
  }

  /** Firing appends the due head of the heap, in heap order, to what is ready. */
  lemma {:induction false} FiresTheHead(a: Agenda<Handle>) returns (k: nat)
    ensures DueHead(a.timers, a.now, k)
    ensures FireDue(a) == a.(timers := a.timers[k..], ready := a.ready + AsFired(a.timers[..k]))
    decreases |a.timers|
  {
    if a.timers != [] && DueBy(a.timers[0].when, a.now) {
      var j := FiresTheHead(FireOne(a));
      k := j + 1;
      FiredOneMore(a.ready, a.timers, j);
    } else {
      k := 0;
      assert a.ready + AsFired(a.timers[..0]) == a.ready;
    }
  }

  /** The batch of a step that ends at clock `now`: what was ready when it began, then the timers due. */
  ghost predicate Batch(s: RunState, now: real, es: seq<Entry<Handle>>) {
    exists k: nat :: DueHead(s.agenda.timers, now, k) && es == s.agenda.ready + AsFired(s.agenda.timers[..k])
  }

  /** A step takes what was ready when it began and then the timers due at its clock, in heap order, all of
      it if it ends normally and nothing else; each entry runs unless it was cancelled. */
  lemma StepTakes(s: RunState, script: Script) returns (es: seq<Entry<Handle>>)
    ensures var (t, r) := Step(s, script);
            && Fair(s, t) && |Since(s, t)| <= |es|
            && Exactly(Since(s, t), es[..|Since(s, t)|], t.agenda.now)
            && (Since(s, t) != [] || r.Normal? ==> Batch(s, t.agenda.now, es))
            && (r.Normal? ==> |Since(s, t)| == |es|)
  {
    hide Work, FireDue, Fair, CanJump, Idle, DueHead, Batch;
    es := [];
    TookNoneFair(s, s);
    FairGrows(s, s);
    if s.stepsLeft != Some(0) {
      var b := Budgeted(s);
      var (a, r) := Advance(b);
      if r.Raised? {
        TookNoneFair(s, a);
        FairGrows(s, a);
      } else {
        es := a.agenda.ready;
        AdvanceTakes(s);
        WorkTakes(a, script);
        var t := Work(a, script).0;
        FairGrows(a, t);
        FairOn(s, a, t);
        FairGrows(s, t);
        assert Since(s, t) == Since(a, t);
      }
    }
  }

  lemma JumpsOnly(a: Agenda<Handle>)
    requires CanJump(a)
    ensures Jump(a) == a.(now := Jump(a).now)
  {
  }

  lemma FiresABatch(s: RunState, a: Agenda<Handle>)
    requires a == s.agenda.(now := a.now)
    ensures FireDue(a).taken == a.taken && FireDue(a).now == a.now && Batch(s, a.now, FireDue(a).ready)
  {
    hide FireDue, DueHead, AsFired;
    var k := FiresTheHead(a);
  }

  /** The agenda a step works from, or none if it cannot go on. */
  lemma AdvanceIs(s: RunState) returns (c: Agenda<Handle>)
    requires Advance(s).1.Normal?
    ensures c == s.agenda.(now := c.now) && Advance(s).0 == s.(agenda := FireDue(c))
  {
    hide FireDue, CanJump, Jump;
    if CanJump(s.agenda) {
      JumpsOnly(s.agenda);
    }
    c := if Idle(s) && CanJump(s.agenda) then Jump(s.agenda) else s.agenda;
  }

  lemma AdvanceTakes(s: RunState)
    requires Advance(Budgeted(s)).1.Normal?
    ensures var a := Advance(Budgeted(s)).0; Fair(s, a) && Since(s, a) == [] && Batch(s, a.agenda.now, a.agenda.ready)
  {
    hide FireDue, Fair, Advance, Batch;
    var c := AdvanceIs(Budgeted(s));
    FiresABatch(s, c);
    TookNoneFair(s, Advance(Budgeted(s)).0);
  }

  lemma WorkTakes(a: RunState, script: Script)
    ensures var (t, r) := Work(a, script);
            && Fair(a, t) && t.agenda.now == a.agenda.now && |Since(a, t)| <= |a.agenda.ready|
            && Exactly(Since(a, t), a.agenda.ready[..|Since(a, t)|], a.agenda.now)
            && (r.Normal? ==> |Since(a, t)| == |a.agenda.ready|)
  {
    hide RunBatch, EndStep, Fair;
    BatchTakes(a, script, |a.agenda.ready|);
    var (c, r) := RunBatch(a, script, |a.agenda.ready|);
    FairGrows(a, c);
    if r.Normal? {
      EndStepTakes(c, script);
      var t := EndStep(c, script).0;
      TookNoneFair(c, t);
      FairGrows(c, t);
      FairOn(a, c, t);
      assert Since(c, t) == [];
      assert Since(a, t) == Since(a, c);
    }
  }

  // ---- whole runs ---------------------------------------------------------------------------------------------

  lemma StoppedFair(s: RunState, t: RunState, u: RunState)
    requires Fair(s, t) && u.agenda == t.agenda && u.cancelled == t.cancelled && u.turn == t.turn
    ensures Fair(s, u)
  {
    assert Since(s, u) == Since(s, t);
  }

  /** Over any run of any program: an entry whose handle is cancelled when the run begins never runs, an
      entry whose handle is not cancelled when it ends did, if it was taken at all; and the callbacks of
      the program that were performed are exactly the entries that ran. */
  lemma {:induction false} CancelledNeverRun(s: RunState, script: Script, fuel: nat)
    ensures Fair(s, RunForever(s, script, fuel).0)
    decreases fuel
  {
    hide Step, Fair;
    if fuel == 0 {
      TookNoneFair(s, s);
    } else {
      var _ := StepTakes(s, script);
      var (t, r) := Step(s, script);
      StoppedFair(s, t, t.(stopping := false));
      if r.Normal? && !t.stopping {
        CancelledNeverRun(t, script, fuel - 1);
        FairGrows(s, t);
        FairGrows(t, RunForever(t, script, fuel - 1).0);
        FairOn(s, t, RunForever(t, script, fuel - 1).0);
      }
    }
  }
}
