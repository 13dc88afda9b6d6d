/** What the `always` checks have covered when a run ends normally. */
module Coverage {
  import opened Common
  import opened Agendas
  import opened LoopModel
  import opened LoopProperties
  import opened VirtualTime
  import opened StopProtocol

  /** Registered predicates have their hook in place. */
  ghost predicate Installed(s: RunState) {
    && (s.preds != [] ==> s.installed)
    && (s.installed ==> Invariants in s.hooks)
  }

  /** New registrations carry the index of the step they were made in. */
  ghost predicate Registers(s: RunState, t: RunState) {
    && t.log == s.log && s.preds <= t.preds
    && (forall i :: |s.preds| <= i < |t.preds| ==> t.preds[i].at == |s.log|)
    && (Installed(s) ==> Installed(t))
  }

  lemma {:induction false} RemovedKeepsOther(hooks: seq<Hook>, h: Hook, g: Hook)
    requires g != h && g in hooks
    ensures g in Removed(hooks, h)
  {
    if hooks[0] != h && hooks[0] != g {
      RemovedKeepsOther(hooks[1..], h, g);
    }
  }

  lemma EndUntilRegisters(s: RunState)
    ensures Registers(s, EndUntil(s))
  {
    hide Removed, DoCancel;
    if s.untilActive && s.untils != [] && Invariants in s.hooks {
      RemovedKeepsOther(s.hooks, Until(|s.untils| - 1), Invariants);
      assert s.untils[|s.untils| - 1].timer.Some? ==> DoCancel(s, s.untils[|s.untils| - 1].timer.value).hooks == s.hooks by {
        CancelHooks(s);
      }
    }
  }

  lemma CancelHooks(s: RunState)
    ensures forall h: Handle :: DoCancel(s, h).hooks == s.hooks
  {
    hide Without;
  }

  lemma BeginUntilRegisters(s: RunState, script: Script, deadline: Option<Num>)
    ensures Registers(s, BeginUntil(s, script, deadline))
  {
    hide CheckUntil, EndUntil;
    if !(s.untilActive || (deadline.Some? && !deadline.value.Real?)) {
      var t := EnterUntil(s, if deadline.Some? then Some(deadline.value.r) else None);
      assert Registers(s, t) by {
        hide DoCallAt;
        EnterKeepsHooks(s, if deadline.Some? then Some(deadline.value.r) else None);
      }
      EndUntilRegisters(CheckUntil(t, script, |s.untils|).0);
    }
  }

  lemma EnterKeepsHooks(s: RunState, d: Option<real>)
    ensures EnterUntil(s, d).hooks == s.hooks + [Until(|s.untils|)]
  {
    hide DoCallAt;
  }

  lemma PerformRegisters(s: RunState, script: Script, op: Op)
    ensures Registers(s, Perform(s, script, op))
  {
    hide BeginUntil, EndUntil, Internal, Insert, Without, ToDeadline, After;
    match op
    case OpBeginUntil(deadline) => BeginUntilRegisters(s, script, deadline);
    case OpEndUntil => EndUntilRegisters(s);
    case _ =>
  }

  lemma {:induction false} PerformAllRegisters(s: RunState, script: Script, ops: seq<Op>)
    ensures Registers(s, PerformAll(s, script, ops))
    decreases |ops|
  {
    hide Perform;
    if ops != [] {
      PerformRegisters(s, script, ops[0]);
      PerformAllRegisters(Perform(s, script, ops[0]), script, ops[1..]);
    }
  }

  lemma {:induction false} RunBatchRegisters(s: RunState, script: Script, n: nat)
    ensures Registers(s, RunBatch(s, script, n).0)
    decreases n
  {
    hide PerformAll, Installed, Take;
    if n > 0 && s.agenda.ready != [] {
      var t := s.(agenda := Take(s.agenda, true), turn := s.turn + 1);
      PerformAllRegisters(t, script, script.turns(s.turn).ops);
      SameChecks(s, t);
      SameChecks(s, s.(agenda := Take(s.agenda, false)));
      RunBatchRegisters(RunEntry(s, script).0, script, n - 1);
    }
  }

  lemma SameChecks(s: RunState, t: RunState)
    requires t.preds == s.preds && t.installed == s.installed && t.hooks == s.hooks
    ensures Installed(t) == Installed(s)
  {
  }

  /** Each predicate registered by the end of a step was seen to hold at that step's end. */
  ghost predicate Covers(s: RunState, from: nat, upto: int) {
    forall i, p :: from <= i < upto && i < |s.log| && p in s.preds && p.at <= i ==> p in s.log[i].held
  }

  ghost predicate Dated(s: RunState) {
    forall p :: p in s.preds ==> p.at <= |s.log|
  }

  lemma StepCovers(s: RunState, script: Script, k: nat)
    requires AgendaInv(s.agenda) && k <= |s.log| && Covers(s, k, |s.log|) && Dated(s) && Step(s, script).1.Normal?
    ensures var t := Step(s, script).0;
            && |t.log| == |s.log| + 1 && Dated(t) && Covers(t, k, |s.log|)
            && (Installed(s) ==> Covers(t, k, |t.log|))
            && (Installed(s) && !(t.watch.Some? && s.stopIn == Some(2) && s.settle) ==> Installed(t))
  {
    hide Advance, RunBatch, EndStep, AgendaInv, Covers, Dated;
    var b := Budgeted(s);
    AdvanceShape(b);
    var a := Advance(b).0;
    assert a.preds == s.preds && a.hooks == s.hooks && a.installed == s.installed && a.log == s.log;
    assert Installed(s) ==> Installed(a);
    RunBatchRegisters(a, script, |a.agenda.ready|);
    RunBatchKeeps(a, script, |a.agenda.ready|);
    var c := RunBatch(a, script, |a.agenda.ready|).0;
    EndStepShape(c, script);
    EndStepInstalled(c, script);
    var t := EndStep(c, script).0;
    CoverOne(s, c, t, k);
  }

  lemma EndStepInstalled(s: RunState, script: Script)
    ensures EndStep(s, script).0.installed == s.installed
  {
    hide RunHooks;
  }

  lemma CoverOne(s: RunState, c: RunState, t: RunState, k: nat)
    requires k <= |s.log| && Covers(s, k, |s.log|) && Dated(s) && Registers(s, c) && t.preds == c.preds
    requires |t.log| == |s.log| + 1 && t.log[..|s.log|] == s.log
    ensures Dated(t) && Covers(t, k, |s.log|)
    ensures (forall i :: 0 <= i < |c.preds| ==> c.preds[i] in t.log[|s.log|].held) ==> Covers(t, k, |t.log|)
  {
    forall p | p in t.preds
      ensures p in s.preds || p.at == |s.log|
    {
      var i :| 0 <= i < |t.preds| && t.preds[i] == p;
      if i < |s.preds| {
        assert s.preds[i] == p;
      }
    }
    assert forall i :: 0 <= i < |s.log| ==> t.log[i] == s.log[i];
    if forall i :: 0 <= i < |c.preds| ==> c.preds[i] in t.log[|s.log|].held {
      forall i, p | k <= i < |t.log| && p in t.preds && p.at <= i
        ensures p in t.log[i].held
      {
        var j :| 0 <= j < |t.preds| && t.preds[j] == p;
        assert c.preds[j] == p;
      }
    }
  }

  /** One pass of the loop covers everything up to the first stop step. */
  lemma {:induction false} PassCovers(s: RunState, script: Script, fuel: nat, k: nat)
    requires AgendaInv(s.agenda) && k <= |s.log| && Covers(s, k, |s.log|) && Dated(s)
    requires s.watch.Some? && s.settle
    requires s.stopIn == None || s.stopIn == Some(2) || (s.stopIn == Some(1) && !s.stopping)
    requires s.stopIn != Some(1) ==> Installed(s)
    ensures var (t, end) := RunForever(s, script, fuel);
            end.Returned? ==> k <= |t.log| && Dated(t) && (t.stopIn == Some(0) ==> Covers(t, k, |t.log| - 1)) &&
                              (t.stopIn != Some(0) ==> Covers(t, k, |t.log|))
    decreases fuel
  {
    hide AgendaInv, Step, Wrote, Installed, Covers, Dated;
    if fuel > 0 {
      StepAgenda(s, script);
      StepKeepsShape(s, script);
      var (t, r) := Step(s, script);
      if r.Normal? {
        WroteMeans(s, t);
        StepCovers(s, script, k);
        CoversSame(t, t.(stopping := false), k);
        if !t.stopping {
          PassCovers(t, script, fuel - 1, k);
        }
      }
    }
  }

  lemma CoversSame(s: RunState, t: RunState, k: nat)
    requires t.log == s.log && t.preds == s.preds
    ensures Dated(s) == Dated(t) && forall m :: Covers(s, k, m) == Covers(t, k, m)
  {
  }

  /** If the run ends normally, every predicate registered before the checks were cleared held at the
      end of every step from its registration through the first stop step, or through the finishing
      step if user code had stopped the loop by then. */
  lemma InvariantCoverage(s: RunState, script: Script, f: Future, fuel: nat)
    requires AgendaInv(s.agenda) && Installed(s) && Dated(s)
    requires RunUntilDone(s, script, f, true, fuel).1.Returned? && f in RunUntilDone(s, script, f, true, fuel).0.results
    ensures var t := RunUntilDone(s, script, f, true, fuel).0;
            |s.log| <= |t.log| &&
            exists n: nat :: StopStepsTaken(New(s, t), n, t.agenda.now) &&
                             Covers(t, |s.log|, |s.log| + n + (if New(s, t)[n].stopped then 1 else 2))
  {
    hide AgendaInv, RunForever, Installed, Dated, Covers;
    StopSteps(s, script, f, true, fuel);
    var k := |s.log|;
    var s0 := s.(watch := Some(f), stopIn := None, settle := true);
    assert Installed(s0) && Dated(s0) && Covers(s0, k, k) by {
      StartCovers(s, f);
    }
    WatchedPass(s0, script, f, fuel);
    PassCovers(s0, script, fuel, k);
    var (t, end) := RunForever(s0, script, fuel);
    assert PassEnd(s0, t, f);
    var r := RunUntilDone(s, script, f, true, fuel).0;
    var n: nat :| StopStepsTaken(New(s, r), n, r.agenda.now);
    if f in t.results && (t.stopIn == Some(1) || t.stopIn == Some(2)) {
      var u := (if t.stopIn == Some(2) then Settle(t) else t).(stopIn := Some(1));
      CoversSame(t, u, k);
      LastSteps(u, script, 1, fuel);
      var v := RunForever(u, script, fuel).0;
      LateCovers(u, script, fuel, k);
      JoinLogs(s0, u, v);
      CoversSame(v, r, k);
    } else {
      assert f in t.results;
      CoversSame(t, r, k);
    }
  }

  lemma StartCovers(s: RunState, f: Future)
    requires Installed(s) && Dated(s)
    ensures var s0 := s.(watch := Some(f), stopIn := None, settle := true);
            Installed(s0) && Dated(s0) && Covers(s0, |s.log|, |s.log|)
  {
  }

  /** The extra step after an early stop adds nothing that has to be covered. */
  lemma LateCovers(s: RunState, script: Script, fuel: nat, k: nat)
    requires AgendaInv(s.agenda) && k <= |s.log| && Covers(s, k, |s.log|) && Dated(s)
    requires s.stopIn == Some(1) && !s.stopping && s.watch.Some? && s.watch.value in s.results
    requires RunForever(s, script, fuel).1.Returned?
    ensures Covers(RunForever(s, script, fuel).0, k, |s.log|)
  {
    hide AgendaInv, Step, Wrote, Installed, Covers, Dated;
    StepAgenda(s, script);
    StepKeepsShape(s, script);
    var (t, r) := Step(s, script);
    if r.Normal? {
      WroteMeans(s, t);
      StepCovers(s, script, k);
      CoversSame(t, t.(stopping := false), k);
    }
  }
}
