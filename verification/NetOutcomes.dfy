/** What became of each copy and why: every delivery and every drop at delivery is the verdict of one move
    of one run, and the verdict is exactly what was cut or crashed when that move was made. */
module NetOutcomes {
  import opened Common
  import opened Agendas
  import opened NetModel
  import opened NetFaults
  import opened NetMachine
  import opened NetInv
  import opened NetRuns
  import opened Conservation

  /** The three ways a copy that falls due can end. */
  predicate Verdict(e: Event) {
    e.EvDeliver? || e.EvDropCrashed? || e.EvDropPartitioned?
  }

  /** The verdict on a pair when it is given. */
  ghost predicate Judged(s: Sys, e: Event)
    requires Verdict(e)
  {
    var crashed := e.src in s.crashed || e.dst in s.crashed;
    && (e.EvDropCrashed? <==> crashed)
    && (e.EvDeliver? <==> !crashed && Reachable(s, e.src, e.dst))
    && (e.EvDropPartitioned? <==> !crashed && !Reachable(s, e.src, e.dst))
  }

  /** The k-th move took an entry and recorded the i-th event: the timeline is what precedes the event
      just before the move, and ends with the event just after it. No other move can be this one. */
  ghost predicate RecordedBy(ent: Entropy, acts: seq<Act>, i: nat, k: nat)
    requires EventuallySplits(ent)
  {
    && i < |Run(ent, acts).timeline| && k < |acts| && acts[k].TakeNext?
    && Run(ent, acts[..k]).timeline == Run(ent, acts).timeline[..i]
    && Run(ent, acts[..k + 1]).timeline == Run(ent, acts).timeline[..i + 1]
  }

  /** The k-th move recorded the i-th event, and it is the verdict the state before that move calls for. */
  ghost predicate DecidedBy(ent: Entropy, acts: seq<Act>, i: nat, k: nat)
    requires EventuallySplits(ent) && i < |Run(ent, acts).timeline| && Verdict(Run(ent, acts).timeline[i])
  {
    RecordedBy(ent, acts, i, k) && Judged(Run(ent, acts[..k]), Run(ent, acts).timeline[i])
  }

  // ---- what each move adds to the timeline ---------------------------------------------------------------------

  /** The timeline went on, with no verdict among what is new. */
  ghost predicate NoVerdicts(s: Sys, t: Sys) {
    s.timeline <= t.timeline && forall i :: |s.timeline| <= i < |t.timeline| ==> !Verdict(t.timeline[i])
  }

  lemma SendVerdicts(s: Sys, ent: Entropy, src: Addr, dst: Addr, msg: Message)
    requires src in s.endpoints
    ensures NoVerdicts(s, Send(s, ent, src, dst, msg))
  {
    hide Insert, Latency, LinkClock, CallAt;
  }

  lemma {:induction false} CommitAllVerdicts(s: Sys, ent: Entropy, faults: seq<Fault>, seconds: real)
    requires EventuallySplits(ent) && AllValid(s.endpoints.Keys, faults, seconds)
    ensures NoVerdicts(s, CommitAll(s, ent, faults, seconds))
    decreases |faults|
  {
    hide EventuallySplits, ValidFault, Commit;
    if faults != [] {
      CommitAllVerdicts(s, ent, faults[..|faults| - 1], seconds);
      var u := CommitAll(s, ent, faults[..|faults| - 1], seconds);
      var e := CommitEvent(u, ent, faults[|faults| - 1], seconds);
      NoFateNoVerdict(e);
    }
  }

  lemma NoFateNoVerdict(e: Event)
    requires NoFate(e)
    ensures !Verdict(e)
  {
    var sel: Chosen := if Verdict(e) then iset{e.mid} else iset{};
    assert !Of(e, Deliveries, sel) && !Of(e, CrashDrops, sel) && !Of(e, PartitionDrops, sel);
  }

  lemma OtherMoves(s: Sys, ent: Entropy, act: Act)
    requires EventuallySplits(ent) && !act.TakeNext?
    ensures NoVerdicts(s, Apply(s, ent, act))
  {
    hide EventuallySplits, BindTo, Send, RunFor, Receiver, FireDue, CallAt, Cancel;
    match act
    case DoSend(src, dst, msg) => if src in s.endpoints { SendVerdicts(s, ent, src, dst, msg); }
    case EnterRunFor(seconds, list) => RunForVerdicts(s, ent, seconds, list);
    case _ =>
  }

  lemma RunForVerdicts(s: Sys, ent: Entropy, seconds: Num, list: seq<Fault>)
    requires EventuallySplits(ent)
    ensures NoVerdicts(s, RunFor(s, ent, seconds, list))
  {
    hide EventuallySplits, AllValid, CommitAll, CallAt;
    if Accepted(s, seconds, list) {
      CommitAllVerdicts(s, ent, list, seconds.r);
    }
  }

  /** Taking an entry adds at most one event, and a verdict is the one the state calls for. */
  lemma TakeJudges(s: Sys)
    requires s.agenda.ready != []
    ensures var t := TakeOne(s); s.timeline <= t.timeline && |t.timeline| <= |s.timeline| + 1
    ensures var t := TakeOne(s); |t.timeline| > |s.timeline| && Verdict(t.timeline[|s.timeline|]) ==> Judged(s, t.timeline[|s.timeline|])
  {
    hide WithoutSlow, Delivered, Judged;
    var x := s.agenda.ready[0];
    if x.Fired? && x.timer.what.Deliver? {
      var w := x.timer.what;
      DeliveredJudges(s, WithAgenda(s, Take(s.agenda, true)), w.mid, w.src, w.dst, w.msg, |s.agenda.taken|);
    }
  }

  lemma DeliveredJudges(s: Sys, u: Sys, mid: nat, src: Addr, dst: Addr, msg: Message, at: nat)
    requires s.agenda.ready != [] && u == WithAgenda(s, Take(s.agenda, true))
    ensures var t := Delivered(u, mid, src, dst, msg, at);
            |t.timeline| == |s.timeline| + 1 && s.timeline <= t.timeline && Verdict(t.timeline[|s.timeline|]) && Judged(s, t.timeline[|s.timeline|])
  {
    hide Enqueued, Reachable;
    TakenReach(s, src, dst);
  }

  /** Taking the entry off the queue cuts and heals nothing. */
  lemma TakenReach(s: Sys, src: Addr, dst: Addr)
    requires s.agenda.ready != []
    ensures Reachable(WithAgenda(s, Take(s.agenda, true)), src, dst) == Reachable(s, src, dst)
  {
  }

  lemma TimelineGrows(s: Sys, ent: Entropy, act: Act)
    requires EventuallySplits(ent)
    ensures s.timeline <= Apply(s, ent, act).timeline
  {
    hide Apply, EventuallySplits;
    if act.TakeNext? {
      TakeStep(s, ent);
      if s.agenda.ready != [] {
        TakeJudges(s);
      }
    } else {
      OtherMoves(s, ent, act);
    }
  }

  lemma TakeStep(s: Sys, ent: Entropy)
    requires EventuallySplits(ent)
    ensures Apply(s, ent, TakeNext) == if s.agenda.ready != [] then TakeOne(s) else s
  {
  }

  // ---- every run -------------------------------------------------------------------------------------------------

  /** Every delivery and every drop at delivery comes from one `TakeNext`: it is a crash drop exactly if an
      end was crashed then, a delivery exactly if none was and the pair was reachable, and a partition
      drop exactly if none was and it was not. */
  lemma {:induction false} EveryVerdictDecided(ent: Entropy, acts: seq<Act>, i: nat) returns (k: nat)
    requires EventuallySplits(ent) && i < |Run(ent, acts).timeline| && Verdict(Run(ent, acts).timeline[i])
    ensures DecidedBy(ent, acts, i, k)
    decreases |acts|
  {
    hide EventuallySplits, Apply, Judged, TakeOne;
    var front, act := acts[..|acts| - 1], acts[|acts| - 1];
    var s, t := Run(ent, front), Run(ent, acts);
    TimelineGrows(s, ent, act);
    if i < |s.timeline| {
      k := EveryVerdictDecided(ent, front, i);
      assert front[..k] == acts[..k] && front[..k + 1] == acts[..k + 1];
      assert s.timeline[..i] == t.timeline[..i] && s.timeline[..i + 1] == t.timeline[..i + 1];
    } else {
      k := |acts| - 1;
      if !act.TakeNext? {
        OtherMoves(s, ent, act);
      }
      TakeStep(s, ent);
      TakeJudges(s);
      assert t.timeline[..i] == s.timeline && t.timeline[..i + 1] == t.timeline;
      assert acts[..k + 1] == acts;
    }
  }

  /** The timeline after fewer moves is continued by the timeline after more. */
  lemma {:induction false} TimelineContinues(ent: Entropy, acts: seq<Act>, k: nat, l: nat)
    requires EventuallySplits(ent) && k <= l <= |acts|
    ensures Run(ent, acts[..k]).timeline <= Run(ent, acts[..l]).timeline
    decreases l
  {
    hide EventuallySplits, Apply;
    if k < l {
      TimelineContinues(ent, acts, k, l - 1);
      assert acts[..l][..l - 1] == acts[..l - 1];
      TimelineGrows(Run(ent, acts[..l - 1]), ent, acts[l - 1]);
    }
  }

  /** One event is recorded by one move only. */
  lemma RecordedOnce(ent: Entropy, acts: seq<Act>, i: nat, k: nat, l: nat)
    requires EventuallySplits(ent) && RecordedBy(ent, acts, i, k) && RecordedBy(ent, acts, i, l)
    ensures k == l
  {
    hide EventuallySplits, Run;
    if k < l {
      TimelineContinues(ent, acts, k + 1, l);
    } else if l < k {
      TimelineContinues(ent, acts, l + 1, k);
    }
  }

  /** What the scenario's own `partition` and `heal` calls amount to. */
  function ScenarioPartition(acts: seq<Act>): Option<Groups> {
    if acts == [] then None
    else
      match acts[|acts| - 1]
      case CutNow(groups) => Some(groups)
      case HealNow => None
      case _ => ScenarioPartition(acts[..|acts| - 1])
  }

  lemma PartitionMove(s: Sys, ent: Entropy, act: Act)
    requires EventuallySplits(ent)
    ensures Apply(s, ent, act).partition ==
            match act
            case CutNow(groups) => Some(groups)
            case HealNow => None
            case _ => s.partition
  {
    hide EventuallySplits, BindTo, Send, RunFor, Receiver, FireDue, CallAt, Cancel, Jump, TakeOne, Schedule, WithEndpoint, WithAgenda;
  }

  lemma {:induction false} PartitionIsScenarios(ent: Entropy, acts: seq<Act>)
    requires EventuallySplits(ent)
    ensures Run(ent, acts).partition == ScenarioPartition(acts)
    decreases |acts|
  {
    hide EventuallySplits, Apply;
    if acts != [] {
      PartitionIsScenarios(ent, acts[..|acts| - 1]);
      PartitionMove(Run(ent, acts[..|acts| - 1]), ent, acts[|acts| - 1]);
    }
  }

  /** A pair is cut at this point: by the last `partition` call that no `heal` undid, or by a fault window
      that the timeline so far shows begun and not ended. */
  ghost predicate CutThen(acts: seq<Act>, tl: seq<Event>, faults: seq<FaultRecord>, src: Addr, dst: Addr) {
    || (ScenarioPartition(acts).Some? && Cut(ScenarioPartition(acts).value, src, dst))
    || (exists id :: CutByWindow(tl, faults, src, dst, id))
  }

  /** Window `id` is that of a partition which separates the pair, and the timeline shows it open. */
  ghost predicate CutByWindow(tl: seq<Event>, faults: seq<FaultRecord>, src: Addr, dst: Addr, id: nat) {
    OpenPartition(tl, faults, id) && Cut(faults[id].kind.groups, src, dst)
  }

  lemma CutByNames(ent: Entropy, acts: seq<Act>, src: Addr, dst: Addr)
    requires EventuallySplits(ent)
    ensures var s := Run(ent, acts);
            NoCut(s.timeline, s.faults, src, dst) <==> !exists id :: CutByWindow(s.timeline, s.faults, src, dst, id)
  {
    hide Run, Cut, OpenAt;
    FaultStateIsTimeline(ent, acts);
    var s := Run(ent, acts);
    if id: nat :| CutByWindow(s.timeline, s.faults, src, dst, id) {
      assert OpenAt(s.timeline, id);
    } else {
      forall id: nat | OpenAt(s.timeline, id)
        ensures id < |s.faults| && (s.faults[id].kind.KPartition? ==> !Cut(s.faults[id].kind.groups, src, dst))
      {
        assert !CutByWindow(s.timeline, s.faults, src, dst, id);
      }
    }
  }

  ghost predicate CrashedThen(tl: seq<Event>, src: Addr, dst: Addr) {
    CrashedIn(tl, src) || CrashedIn(tl, dst)
  }

  lemma WhatWasCut(ent: Entropy, acts: seq<Act>, e: Event)
    requires EventuallySplits(ent) && Verdict(e) && Judged(Run(ent, acts), e)
    ensures var s := Run(ent, acts);
            && (e.EvDropCrashed? <==> CrashedThen(s.timeline, e.src, e.dst))
            && (e.EvDropPartitioned? <==> !CrashedThen(s.timeline, e.src, e.dst) && CutThen(acts, s.timeline, s.faults, e.src, e.dst))
  {
    hide Run, Reachable, NoCut, Cut, CrashedIn, CutByWindow;
    FaultStateIsTimeline(ent, acts);
    ReachableExactly(ent, acts, e.src, e.dst);
    CutByNames(ent, acts, e.src, e.dst);
    PartitionIsScenarios(ent, acts);
  }

  /** In words of the scenario and the timeline: the move k that recorded a verdict dropped the copy for a
      crash exactly if an end had crashed before it, dropped it for a partition exactly if neither had and
      something cut the pair at that move, and delivered it exactly if neither had and nothing did. */
  lemma VerdictsExactly(ent: Entropy, acts: seq<Act>, i: nat) returns (k: nat)
    requires EventuallySplits(ent) && i < |Run(ent, acts).timeline| && Verdict(Run(ent, acts).timeline[i])
    ensures RecordedBy(ent, acts, i, k)
    ensures var e := Run(ent, acts).timeline[i]; var before := Run(ent, acts).timeline[..i];
            var faults := Run(ent, acts[..k]).faults;
            && (e.EvDropCrashed? <==> CrashedThen(before, e.src, e.dst))
            && (e.EvDropPartitioned? <==> !CrashedThen(before, e.src, e.dst) && CutThen(acts[..k], before, faults, e.src, e.dst))
            && (e.EvDeliver? <==> !CrashedThen(before, e.src, e.dst) && !CutThen(acts[..k], before, faults, e.src, e.dst))
  {
    hide Run, CrashedThen, CutThen, Judged;
    k := EveryVerdictDecided(ent, acts, i);
    WhatWasCut(ent, acts[..k], Run(ent, acts).timeline[i]);
  }

  // ---- what can take a reliable message away -------------------------------------------------------------------------

  lemma {:induction false} CountedSomewhere(tl: seq<Event>, f: Fate, sel: Chosen) returns (i: nat)
    requires Count(tl, f, sel) > 0
    ensures i < |tl| && Of(tl[i], f, sel)
  {
    if Of(tl[|tl| - 1], f, sel) {
      i := |tl| - 1;
    } else {
      i := CountedSomewhere(tl[..|tl| - 1], f, sel);
    }
  }

  /** A copy of message m was taken away at event i, recorded by move k, by an end that had crashed or by
      what cut the pair at that move. */
  ghost predicate TakenAway(ent: Entropy, acts: seq<Act>, m: nat, i: nat, k: nat)
    requires EventuallySplits(ent)
  {
    && RecordedBy(ent, acts, i, k)
    && var e := Run(ent, acts).timeline[i]; var before := Run(ent, acts).timeline[..i];
       (e.EvDropCrashed? && e.mid == m && CrashedThen(before, e.src, e.dst))
       || (e.EvDropPartitioned? && e.mid == m && CutThen(acts[..k], before, Run(ent, acts[..k]).faults, e.src, e.dst))
  }

  /** Only a crash or a partition removes a message from a reliable link: at any time it is pending, or
      delivered, or was taken away by an end that had crashed or a pair that was cut at that moment. */
  lemma OnlyCutsRemove(ent: Entropy, acts: seq<Act>, m: nat) returns (i: nat, k: nat)
    requires EventuallySplits(ent) && m < |Run(ent, acts).sends| && Run(ent, acts).sends[m].reliable
    ensures var s := Run(ent, acts);
            InFlight(s.agenda, iset{m}) == 1 || Count(s.timeline, Deliveries, iset{m}) == 1 || TakenAway(ent, acts, m, i, k)
  {
    hide Run, Count, InFlight, CrashedThen, CutThen;
    ReliableMessageOnce(ent, acts, m);
    i, k := 0, 0;
    var s := Run(ent, acts);
    if Count(s.timeline, CrashDrops, iset{m}) > 0 {
      i := CountedSomewhere(s.timeline, CrashDrops, iset{m});
      k := VerdictsExactly(ent, acts, i);
    } else if Count(s.timeline, PartitionDrops, iset{m}) > 0 {
      i := CountedSomewhere(s.timeline, PartitionDrops, iset{m});
      k := VerdictsExactly(ent, acts, i);
    }
  }

  // ---- a reliable message lost to a partition ------------------------------------------------------------------------

  /** A reliable sender, cut off before it sends, and the loop's moves up to the delivery. */
  const CutOff: seq<Act> := [Bind(1, true, Real(0.0), Real(0.0)), CutNow([{1}, {2}]), DoSend(1, 2, 7), JumpClock, FireTimers, TakeNext]

  const Alone: Endpoint := Endpoint(true, 0.0, 0.0, [], Idle, [], [], [])

  lemma RunMore(ent: Entropy, acts: seq<Act>, act: Act)
    requires EventuallySplits(ent)
    ensures Run(ent, acts + [act]) == Apply(Run(ent, acts), ent, act)
  {
    assert (acts + [act])[..|acts|] == acts;
  }

  lemma CutOffBound(ent: Entropy)
    requires EventuallySplits(ent)
    ensures Run(ent, CutOff[..2]) == NewSys.(endpoints := map[1 := Alone], partition := Some([{1}, {2}]))
  {
    hide EventuallySplits, Run;
    assert CutOff[..2] == [Bind(1, true, Real(0.0), Real(0.0))] + [CutNow([{1}, {2}])];
    assert [Bind(1, true, Real(0.0), Real(0.0))] == [] + [Bind(1, true, Real(0.0), Real(0.0))];
    RunMore(ent, [], Bind(1, true, Real(0.0), Real(0.0)));
    RunMore(ent, [Bind(1, true, Real(0.0), Real(0.0))], CutNow([{1}, {2}]));
    assert Run(ent, []) == NewSys by { NoActs(ent); }
    assert map[][1 := Alone] == map[1 := Alone];
  }

  lemma NoActs(ent: Entropy)
    requires EventuallySplits(ent)
    ensures Run(ent, []) == NewSys
  {
  }

  lemma FirstLatency(net: nat -> Unit)
    ensures Latency(net, 0, [], 1, 2) >= LAT_MIN
  {
    LatencyAtLeastHere(Uniform(LAT_MIN, LAT_MAX, net(0)), net(0));
  }

  lemma LatencyAtLeastHere(base: real, u: Unit)
    requires base == Uniform(LAT_MIN, LAT_MAX, u)
    ensures base * SlowFactor([], {1, 2}) == base >= LAT_MIN
  {
    assert (LAT_MAX - LAT_MIN) * u >= 0.0;
  }

  /** In flight: one timer, and nothing ready. */
  lemma CutOffSent(ent: Entropy)
    requires EventuallySplits(ent)
    ensures var s := Run(ent, CutOff[..3]); var when := Latency(ent.net, 0, [], 1, 2);
            && s.agenda == Agenda(0.0, [Timer(At(when), 0, 0.0, Deliver(0, 1, 2, 7, false))], 1, [], [])
            && s.partition == Some([{1}, {2}]) && s.crashed == {} && s.timeline == [EvSend(0.0, 0, 1, 2)]
            && |s.sends| == 1 && s.sends[0].reliable
  {
    hide EventuallySplits, Run, Latency;
    FirstLatency(ent.net);
    CutOffBound(ent);
    RunMore(ent, CutOff[..2], DoSend(1, 2, 7));
    assert CutOff[..3] == CutOff[..2] + [DoSend(1, 2, 7)];
  }

  lemma CutOffFired(ent: Entropy)
    requires EventuallySplits(ent)
    ensures var s := Run(ent, CutOff[..5]); var when := Latency(ent.net, 0, [], 1, 2);
            && s.agenda == Agenda(when, [], 1, [Fired(Timer(At(when), 0, 0.0, Deliver(0, 1, 2, 7, false)))], [])
            && s.partition == Some([{1}, {2}]) && s.crashed == {} && s.timeline == [EvSend(0.0, 0, 1, 2)]
            && |s.sends| == 1 && s.sends[0].reliable
  {
    hide EventuallySplits, Run, Latency;
    FirstLatency(ent.net);
    CutOffSent(ent);
    RunMore(ent, CutOff[..3], JumpClock);
    assert CutOff[..4] == CutOff[..3] + [JumpClock];
    RunMore(ent, CutOff[..4], FireTimers);
    assert CutOff[..5] == CutOff[..4] + [FireTimers];
    var s := Run(ent, CutOff[..4]);
    assert FireDue(FireOne(s.agenda)) == FireOne(s.agenda);
  }

  /** "No loss" on a reliable link does not reach across a partition: on every seed this message, sent by
      a reliable endpoint, is dropped at delivery and is neither pending nor ever delivered. */
  lemma ReliableMessageLost(ent: Entropy)
    requires EventuallySplits(ent)
    ensures var s := Run(ent, CutOff);
            && |s.sends| == 1 && s.sends[0].reliable
            && s.timeline == [EvSend(0.0, 0, 1, 2), EvDropPartitioned(Latency(ent.net, 0, [], 1, 2), 0, 1, 2)]
            && s.agenda.timers == [] && s.agenda.ready == []
  {
    hide EventuallySplits, Run, Latency;
    CutOffFired(ent);
    RunMore(ent, CutOff[..5], TakeNext);
    assert CutOff == CutOff[..5] + [TakeNext];
    TwoSides();
  }

  lemma TwoSides()
    ensures Cut([{1}, {2}], 1, 2)
  {
    assert [{1}, {2}][1..] == [{2}];
  }
}
