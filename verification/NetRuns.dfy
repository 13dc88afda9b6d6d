/** Every run of the network: fault state is exactly what the timeline says, windows open and close
    once, on time, inside their call, and a delivery crosses no open fault. */
module NetRuns {
  import opened Common
  import opened Agendas
  import opened AgendaMembers
  import opened NetModel
  import opened NetFaults
  import opened NetMachine
  import opened NetBook
  import opened NetTimers
  import opened NetInv
  import opened NetSends
  import opened NetRunFor
  import opened NetTakes

  lemma NewHeld()
    ensures Held(NewSys.agenda, NewSys.made)
  {
    assert NewSys.agenda == Agenda(0.0, [], 0, [], []) && NewSys.made == [];
    EmptyHeld();
  }

  lemma EmptyHeld()
    ensures Held(Agenda(0.0, [], 0, [], []), [])
  {
    var a: Agenda<Callback> := Agenda(0.0, [], 0, [], []);
    assert Line(a) == [];
    assert Good(a);
    assert forall t :: !InAgenda(a, t);
  }

  lemma NewTold(net: nat -> Unit)
    ensures Told(BookOf(NewSys), net) && Clocks([], 0, map[], net)
  {
  }

  lemma NewInv(ent: Entropy)
    ensures Inv(NewSys, ent)
  {
    hide Held, Told, Clocks, Took;
    NewHeld();
    NewTold(ent.net);
    assert forall id: nat :: !Began([], id) && !Ended([], id);
    assert forall n :: !CrashedIn([], n);
  }

  lemma AgendaActs(s: Sys, ent: Entropy, act: Act)
    requires Inv(s, ent) && EventuallySplits(ent)
    requires act.UserSoon? || act.Forget? || act.JumpClock? || act.FireTimers?
    ensures Inv(Apply(s, ent, act), ent)
  {
    hide Registers, Truth, Queues, Clocks, Follows, Told, Held, EventuallySplits, FireDue;
    match act
    case UserSoon(k) =>
      HeldSoon(s.agenda, s.made, User(k));
      AgendaInvKept(s, ent, CallSoon(s.agenda, User(k)));
    case Forget(what) =>
      if !Lasting(what) {
        HeldCancel(s.agenda, s.made, what);
        AgendaInvKept(s, ent, Cancel(s.agenda, what));
      }
    case JumpClock =>
      if s.agenda.ready == [] && CanJump(s.agenda) {
        HeldJump(s.agenda, s.made);
        AgendaInvKept(s, ent, Jump(s.agenda));
      }
    case FireTimers =>
      HeldFire(s.agenda, s.made);
      FireKeepsTaken(s.agenda, s.made);
      AgendaInvKept(s, ent, FireDue(s.agenda));
  }

  lemma FireKeepsTaken(a: Agenda<Callback>, made: seq<Timer<Callback>>)
    requires Held(a, made)
    ensures FireDue(a).taken == a.taken && FireDue(a).now == a.now
  {
    FireDueInv(a);
  }

  lemma PartitionActs(s: Sys, ent: Entropy, p: Option<Groups>)
    requires Inv(s, ent)
    ensures Inv(s.(partition := p), ent)
  {
    hide Registers, Truth, Queues, Clocks, Follows, Told, Held;
  }

  lemma ApplyInv(s: Sys, ent: Entropy, act: Act)
    requires Inv(s, ent) && EventuallySplits(ent)
    ensures Inv(Apply(s, ent, act), ent)
  {
    hide Inv, EventuallySplits, BindTo, Send, TakeOne, RunFor, Schedule, Receiver, FireDue, Jump;
    match act
    case Bind(a, reliable, loss, duplicate) => BindInv(s, ent, a, reliable, loss, duplicate);
    case CutNow(groups) => PartitionActs(s, ent, Some(groups));
    case HealNow => PartitionActs(s, ent, None);
    case DoSend(src, dst, msg) => if src in s.endpoints { SendInv(s, ent, src, dst, msg); }
    case RecvStart(a) => if a in s.endpoints { ReceiverInv(s, ent, a, act); }
    case RecvResume(a) => if a in s.endpoints { ReceiverInv(s, ent, a, act); }
    case RecvInterrupt(a) => if a in s.endpoints { ReceiverInv(s, ent, a, act); }
    case RecvLeave(a) => if a in s.endpoints { ReceiverInv(s, ent, a, act); }
    case UserSoon(_) => AgendaActs(s, ent, act);
    case UserAt(k, when) => UserTimerInv(s, ent, when, k);
    case Forget(_) => AgendaActs(s, ent, act);
    case EnterRunFor(seconds, list) => RunForInv(s, ent, seconds, list);
    case JumpClock => AgendaActs(s, ent, act);
    case FireTimers => AgendaActs(s, ent, act);
    case TakeNext => if s.agenda.ready != [] { TakeInvKept(s, ent); }
  }

  lemma {:induction false} RunInv(ent: Entropy, acts: seq<Act>)
    requires EventuallySplits(ent)
    ensures Inv(Run(ent, acts), ent)
    decreases |acts|
  {
    hide Inv, EventuallySplits, Apply;
    if acts == [] {
      NewInv(ent);
    } else {
      RunInv(ent, acts[..|acts| - 1]);
      ApplyInv(Run(ent, acts[..|acts| - 1]), ent, acts[|acts| - 1]);
    }
  }

  // ---- fault state is what the timeline says -----------------------------------------------------------------

  /** After any run: the open fault partitions and slow links are the windows begun and not ended, with
      what was scheduled for them, and the crashed nodes are those of past crash events. */
  lemma FaultStateIsTimeline(ent: Entropy, acts: seq<Act>)
    requires EventuallySplits(ent)
    ensures var s := Run(ent, acts);
            PartitionsTrue(s.faultPartitions, s.timeline, s.faults) && SlowTrue(s.slowLinks, s.timeline, s.faults) && CrashesTrue(s.crashed, s.timeline)
  {
    hide Held, Told, Clocks, Follows, Truth, Queues, Run, PartitionsTrue, SlowTrue, CrashesTrue;
    RunInv(ent, acts);
  }

  ghost predicate FirstIn(groups: Groups, a: Addr, i: nat) {
    i < |groups| && a in groups[i] && forall k :: 0 <= k < i ==> a !in groups[k]
  }

  lemma {:induction false} GroupIsFirst(groups: Groups, a: Addr)
    ensures GroupOf(groups, a).Some? ==> FirstIn(groups, a, GroupOf(groups, a).value)
    ensures GroupOf(groups, a).None? ==> forall i :: 0 <= i < |groups| ==> a !in groups[i]
  {
    if groups != [] && a !in groups[0] {
      GroupIsFirst(groups[1..], a);
      assert groups == [groups[0]] + groups[1..];
    }
  }

  /** Groups cut a pair if and only if both are listed, each first in another group: an address in no
      group reaches everyone, and cutting goes both ways. */
  lemma CutMeans(groups: Groups, a: Addr, b: Addr)
    ensures Cut(groups, a, b) <==> exists i: nat, j: nat :: FirstIn(groups, a, i) && FirstIn(groups, b, j) && i != j
    ensures Cut(groups, a, b) <==> Cut(groups, b, a)
  {
    hide GroupOf;
    GroupIsFirst(groups, a);
    GroupIsFirst(groups, b);
    if Cut(groups, a, b) {
      assert FirstIn(groups, a, GroupOf(groups, a).value) && FirstIn(groups, b, GroupOf(groups, b).value);
    }
    forall i: nat, x | FirstIn(groups, x, i) && (x == a || x == b) ensures GroupOf(groups, x) == Some(i) {
    }
  }

  /** A pair is cut exactly if the scenario's partition or some open fault cuts it; so neither the end
      of one fault nor a scenario heal restores a pair that another open fault cuts. */
  lemma ReachableExactly(ent: Entropy, acts: seq<Act>, src: Addr, dst: Addr)
    requires EventuallySplits(ent)
    ensures var s := Run(ent, acts);
            Reachable(s, src, dst) <==>
              !(s.partition.Some? && Cut(s.partition.value, src, dst)) && NoCut(s.timeline, s.faults, src, dst)
  {
    hide Cut, Run, OpenAt;
    var s := Run(ent, acts);
    FaultStateIsTimeline(ent, acts);
    if Reachable(s, src, dst) {
      forall id: nat | OpenAt(s.timeline, id)
        ensures id < |s.faults| && (s.faults[id].kind.KPartition? ==> !Cut(s.faults[id].kind.groups, src, dst))
      {
        assert id in s.faultPartitions <==> OpenPartition(s.timeline, s.faults, id);
      }
    }
    if NoCut(s.timeline, s.faults, src, dst) {
      forall id | id in s.faultPartitions ensures !Cut(s.faultPartitions[id], src, dst) {
        assert OpenPartition(s.timeline, s.faults, id);
      }
    }
  }

  /** Healing leaves exactly the cuts of the fault windows that are open. */
  lemma HealLeavesFaultCuts(ent: Entropy, acts: seq<Act>, src: Addr, dst: Addr)
    requires EventuallySplits(ent)
    ensures var s := Run(ent, acts); Reachable(Apply(s, ent, HealNow), src, dst) <==> NoCut(s.timeline, s.faults, src, dst)
  {
    hide Cut, EventuallySplits, NoCut, Inv;
    var more := acts + [HealNow];
    assert more[..|acts|] == acts && more[|more| - 1] == HealNow;
    ReachableExactly(ent, more, src, dst);
  }

  // ---- what the timeline says ------------------------------------------------------------------------------------

  lemma EventHolds(ent: Entropy, acts: seq<Act>, i: nat)
    requires EventuallySplits(ent) && i < |Run(ent, acts).timeline|
    ensures var s := Run(ent, acts); EventTrue(s.timeline[..i], s.timeline[i], BookOf(s))
  {
    hide Held, Told, Clocks, Follows, Registers, Queues, Run, EventTrue;
    RunInv(ent, acts);
  }

  /** A delivery happens when a copy of a message that was sent on that link falls due, and touches no
      crashed node and crosses no fault partition open at that point of the timeline. */
  lemma DeliveriesCrossNothing(ent: Entropy, acts: seq<Act>, i: nat)
    requires EventuallySplits(ent) && i < |Run(ent, acts).timeline| && Run(ent, acts).timeline[i].EvDeliver?
    ensures var s := Run(ent, acts); var e := s.timeline[i]; var before := s.timeline[..i];
            && IsSend(BookOf(s), e.mid, e.src, e.dst) && CopyDue(BookOf(s), e.mid, e.t)
            && !CrashedIn(before, e.src) && !CrashedIn(before, e.dst) && NoCut(before, s.faults, e.src, e.dst)
  {
    hide CrashedIn, CopyDue, NoCut, Run;
    EventHolds(ent, acts, i);
  }

  /** Each fault begins at most once, at its scheduled moment, and each window ends at most once, at its
      scheduled moment, and after it began: a closed window never reopens. */
  lemma WindowsOnceOnTime(ent: Entropy, acts: seq<Act>, i: nat, id: nat)
    requires EventuallySplits(ent) && i < |Run(ent, acts).timeline|
    ensures var s := Run(ent, acts); var e := s.timeline[i]; var before := s.timeline[..i];
            && (Begins(e, id) ==> id < |s.faults| && e.t == s.faults[id].start && !Began(before, id) && !Ended(before, id))
            && (Ends(e, id) ==> id < |s.faults| && e.t == s.faults[id].end && Began(before, id) && !Ended(before, id))
  {
    hide CrashedIn, CopyDue, NoCut, Run, Ended;
    EventHolds(ent, acts, i);
    var s := Run(ent, acts);
    if Begins(s.timeline[i], id) && s.timeline[i].EvCrash? {
      CrashNeverEnds(ent, acts, i, id);
    }
  }

  lemma PrefixEnded(tl: seq<Event>, i: nat, id: nat)
    requires i <= |tl| && Ended(tl[..i], id)
    ensures Ended(tl, id)
  {
    var j :| 0 <= j < i && Ends(tl[..i][j], id);
    assert Ends(tl[j], id);
  }

  lemma CrashNeverEnds(ent: Entropy, acts: seq<Act>, i: nat, id: nat)
    requires EventuallySplits(ent) && i < |Run(ent, acts).timeline|
    requires id < |Run(ent, acts).faults| && Run(ent, acts).faults[id].kind.KCrash?
    ensures !Ended(Run(ent, acts).timeline[..i], id)
  {
    hide Held, Told, Clocks, Registers, Queues, Run, Truth, Ended, Began, Took;
    RunInv(ent, acts);
    var s := Run(ent, acts);
    assert FollowsOne(s.agenda.taken, s.timeline, s.faults[id], id);
    if Ended(s.timeline[..i], id) {
      PrefixEnded(s.timeline, i, id);
    }
  }

  /** Every window lies inside the `run_for` that scheduled it, and a slow link slows. */
  lemma WindowsInsideTheirCall(ent: Entropy, acts: seq<Act>, c: nat, id: nat)
    requires EventuallySplits(ent) && c < |Run(ent, acts).calls|
    requires Run(ent, acts).calls[c].from <= id < Run(ent, acts).calls[c].upto
    ensures var s := Run(ent, acts);
            && id < |s.faults|
            && s.calls[c].t <= s.faults[id].start <= s.faults[id].end <= s.calls[c].t + s.calls[c].seconds
            && (s.faults[id].kind.KSlow? ==> s.faults[id].kind.factor > 1.0)
  {
    hide Held, Clocks, Registers, Queues, Run, Truth, Follows, TimersTold, SendsTold, TimersInSendOrder;
    RunInv(ent, acts);
    var s := Run(ent, acts);
    assert CallTold(BookOf(s), c, s.calls[c]);
    assert OfCall(s.faults[id], s.calls[c]);
    assert FaultTold(BookOf(s), id, s.faults[id]);
  }

  lemma AfterItsTimer(s: Sys, ent: Entropy, c: nat, id: nat)
    requires Inv(s, ent) && c < |s.calls| && s.calls[c].timer.Some? && Took(s.agenda.taken, s.calls[c].timer.value)
    requires s.calls[c].from <= id < s.calls[c].upto
    ensures id < |s.faults| && Took(s.agenda.taken, LastTimer(s.faults[id]))
  {
    hide Clocks, Registers, Queues, Truth, Follows, TimersTold, SendsTold, TimersInSendOrder, Took, Held;
    assert CallTold(BookOf(s), c, s.calls[c]);
    assert OfCall(s.faults[id], s.calls[c]);
    assert FaultTold(BookOf(s), id, s.faults[id]);
    TookBefore(s.agenda, s.made, s.calls[c].timer.value, LastTimer(s.faults[id]));
  }

  /** Once a `run_for` of positive length has been woken, every fault it scheduled has begun and every
      window it scheduled is over, now and in every later state. */
  lemma ClosedWhenItReturns(ent: Entropy, acts: seq<Act>, c: nat, id: nat)
    requires EventuallySplits(ent) && c < |Run(ent, acts).calls| && Run(ent, acts).calls[c].timer.Some?
    requires Took(Run(ent, acts).agenda.taken, Run(ent, acts).calls[c].timer.value)
    requires Run(ent, acts).calls[c].from <= id < Run(ent, acts).calls[c].upto
    ensures id < |Run(ent, acts).faults|
    ensures var s := Run(ent, acts);
            if s.faults[id].kind.KCrash? then s.faults[id].kind.node in s.crashed
               else Ended(s.timeline, id) && id !in s.faultPartitions && !HasSlow(s.slowLinks, id)
  {
    hide Clocks, Queues, Truth, Told, Took, Run, Began, Ended, Held, CrashedIn;
    RunInv(ent, acts);
    var s := Run(ent, acts);
    AfterItsTimer(s, ent, c, id);
    assert FollowsOne(s.agenda.taken, s.timeline, s.faults[id], id);
    if s.faults[id].kind.KCrash? {
      BegunCrash(ent, acts, id);
    } else {
      assert id in s.faultPartitions <==> OpenPartition(s.timeline, s.faults, id);
      forall i | 0 <= i < |s.slowLinks| ensures s.slowLinks[i].id != id {
        assert SlowEntry(s.slowLinks[i], s.timeline, s.faults);
      }
    }
  }

  lemma BegunCrash(ent: Entropy, acts: seq<Act>, id: nat)
    requires EventuallySplits(ent)
    requires var s := Run(ent, acts); id < |s.faults| && s.faults[id].kind.KCrash? && Began(s.timeline, id)
    ensures Run(ent, acts).faults[id].kind.node in Run(ent, acts).crashed
  {
    hide Run, Ended, NoCut, CopyDue;
    var s := Run(ent, acts);
    FaultStateIsTimeline(ent, acts);
    var i :| 0 <= i < |s.timeline| && Begins(s.timeline[i], id);
    EventHolds(ent, acts, i);
    assert Crashes(s.timeline[i], s.faults[id].kind.node);
  }

  /** ... and a `run_for` of no length sleeps on no timer, so nothing of the kind holds for it. */
  lemma NoLengthNoTimer(ent: Entropy, acts: seq<Act>, c: nat)
    requires EventuallySplits(ent) && c < |Run(ent, acts).calls|
    ensures var s := Run(ent, acts); s.calls[c].timer.Some? <==> s.calls[c].seconds > 0.0
  {
    hide Held, Clocks, Registers, Queues, Run, Truth, Follows, TimersTold, SendsTold, TimersInSendOrder;
    RunInv(ent, acts);
    var s := Run(ent, acts);
    assert CallTold(BookOf(s), c, s.calls[c]);
  }
}
