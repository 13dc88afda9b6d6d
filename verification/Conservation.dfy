/** Message conservation: whatever messages are singled out, in every reachable state each copy of them
    is accounted for exactly once. */
module Conservation {
  import opened Agendas
  import opened NetModel
  import opened NetFaults
  import opened NetMachine
  import opened NetBook
  import opened NetTimers
  import opened NetInv
  import opened NetRuns

  datatype Fate = Sends | Duplicates | Drops | Deliveries | CrashDrops | PartitionDrops

  /** The messages singled out: all of them, one of them, those of a link, ... */
  type Chosen = iset<nat>

  ghost predicate Of(e: Event, f: Fate, sel: Chosen) {
    match f
    case Sends => e.EvSend? && e.mid in sel
    case Duplicates => e.EvDuplicate? && e.mid in sel
    case Drops => e.EvDrop? && e.mid in sel
    case Deliveries => e.EvDeliver? && e.mid in sel
    case CrashDrops => e.EvDropCrashed? && e.mid in sel
    case PartitionDrops => e.EvDropPartitioned? && e.mid in sel
  }

  ghost function One(b: bool): nat { if b then 1 else 0 }

  ghost function Count(tl: seq<Event>, f: Fate, sel: Chosen): nat {
    if tl == [] then 0 else Count(tl[..|tl| - 1], f, sel) + One(Of(tl[|tl| - 1], f, sel))
  }

  ghost predicate CopyOf(what: Callback, sel: Chosen) { what.Deliver? && what.mid in sel }

  ghost function Waiting(ts: seq<Timer<Callback>>, sel: Chosen): nat {
    if ts == [] then 0 else One(CopyOf(ts[0].what, sel)) + Waiting(ts[1..], sel)
  }

  ghost predicate ReadyCopy(e: Entry<Callback>, sel: Chosen) { e.Fired? && CopyOf(e.timer.what, sel) }

  ghost function Ready(es: seq<Entry<Callback>>, sel: Chosen): nat {
    if es == [] then 0 else One(ReadyCopy(es[0], sel)) + Ready(es[1..], sel)
  }

  /** Copies still pending: on the timer heap or fired and not yet run. */
  ghost function InFlight(a: Agenda<Callback>, sel: Chosen): nat {
    Waiting(a.timers, sel) + Ready(a.ready, sel)
  }

  /** Copies made so far, and copies that met their end. */
  ghost function MadeCopies(tl: seq<Event>, sel: Chosen): nat {
    Count(tl, Sends, sel) + Count(tl, Duplicates, sel)
  }

  ghost function EndedCopies(tl: seq<Event>, sel: Chosen): nat {
    Count(tl, Drops, sel) + Count(tl, Deliveries, sel) + Count(tl, CrashDrops, sel) + Count(tl, PartitionDrops, sel)
  }

  ghost predicate Conserved(s: Sys, sel: Chosen) {
    MadeCopies(s.timeline, sel) == EndedCopies(s.timeline, sel) + InFlight(s.agenda, sel)
  }

  // ---- counting ------------------------------------------------------------------------------------------------

  lemma CountMore(tl: seq<Event>, e: Event, sel: Chosen)
    ensures forall f: Fate :: Count(tl + [e], f, sel) == Count(tl, f, sel) + One(Of(e, f, sel))
  {
    assert (tl + [e])[..|tl|] == tl;
  }

  lemma {:induction false} WaitingInsert(ts: seq<Timer<Callback>>, t: Timer<Callback>, sel: Chosen)
    ensures Waiting(Insert(ts, t), sel) == Waiting(ts, sel) + One(CopyOf(t.what, sel))
  {
    if ts == [] || Before(t, ts[0]) {
      assert ([t] + ts)[1..] == ts;
    } else {
      WaitingInsert(ts[1..], t, sel);
      assert ([ts[0]] + Insert(ts[1..], t))[1..] == Insert(ts[1..], t);
    }
  }

  lemma {:induction false} WaitingWithout(ts: seq<Timer<Callback>>, what: Callback, sel: Chosen)
    requires !what.Deliver?
    ensures Waiting(Without(ts, what), sel) == Waiting(ts, sel)
  {
    if ts != [] {
      WaitingWithout(ts[1..], what, sel);
      if ts[0].what != what {
        assert ([ts[0]] + Without(ts[1..], what))[1..] == Without(ts[1..], what);
      }
    }
  }

  lemma {:induction false} ReadyMore(es: seq<Entry<Callback>>, e: Entry<Callback>, sel: Chosen)
    ensures Ready(es + [e], sel) == Ready(es, sel) + One(ReadyCopy(e, sel))
  {
    if es == [] {
      assert es + [e] == [e];
    } else {
      ReadyMore(es[1..], e, sel);
      assert (es + [e])[1..] == es[1..] + [e];
    }
  }

  lemma {:induction false} FireKeepsFlight(a: Agenda<Callback>, sel: Chosen)
    ensures InFlight(FireDue(a), sel) == InFlight(a, sel)
    decreases |a.timers|
  {
    if a.timers != [] && DueBy(a.timers[0].when, a.now) {
      FireKeepsFlight(FireOne(a), sel);
      ReadyMore(a.ready, Fired(a.timers[0]), sel);
    }
  }

  // ---- each step ------------------------------------------------------------------------------------------------

  /** One timer set. */
  lemma ScheduleFlight(s: Sys, when: Deadline, what: Callback, sel: Chosen)
    ensures InFlight(Schedule(s, when, what).agenda, sel) == InFlight(s.agenda, sel) + One(CopyOf(what, sel))
  {
    WaitingInsert(s.agenda.timers, Timer(when, s.agenda.nextSeq, s.agenda.now, what), sel);
  }

  lemma SendConserves(s: Sys, ent: Entropy, src: Addr, dst: Addr, msg: Message, sel: Chosen)
    requires Conserved(s, sel) && src in s.endpoints
    ensures Conserved(Send(s, ent, src, dst, msg), sel)
  {
    hide Insert, Latency, LinkClock, Count, InFlight, CallAt, Duplicated;
    var mid := |s.sends|;
    var e := s.endpoints[src];
    CountMore(s.timeline, EvSend(s.agenda.now, mid, src, dst), sel);
    if e.reliable {
      var when := Max(s.agenda.now + Latency(ent.net, s.netDraw, s.slowLinks, src, dst), LinkClock(s.reliableClock, (src, dst)));
      ScheduleFlight(s, At(when), Deliver(mid, src, dst, msg, false), sel);
    } else if Lost(e, ent, s.faultDraw) {
      CountMore(s.timeline + [EvSend(s.agenda.now, mid, src, dst)], EvDrop(s.agenda.now, mid, src, dst), sel);
    } else {
      var when := s.agenda.now + Latency(ent.net, s.netDraw, s.slowLinks, src, dst);
      ScheduleFlight(s, At(when), Deliver(mid, src, dst, msg, false), sel);
      var once := SendOnce(s, ent, src, dst, msg).(faultDraw := s.faultDraw + LossDraws(e));
      assert Conserved(once, sel);
      DuplicatedConserves(once, e, ent, mid, src, dst, msg, sel);
    }
  }

  lemma DuplicatedConserves(s: Sys, e: Endpoint, ent: Entropy, mid: nat, src: Addr, dst: Addr, msg: Message, sel: Chosen)
    requires Conserved(s, sel)
    ensures Conserved(Duplicated(s, e, ent, mid, src, dst, msg), sel)
  {
    hide Insert, Latency, Count, InFlight, CallAt;
    CountMore(s.timeline, EvDuplicate(s.agenda.now, mid, src, dst), sel);
    var when := s.agenda.now + Latency(ent.faults, s.faultDraw + 1, s.slowLinks, src, dst);
    ScheduleFlight(s, At(when), Deliver(mid, src, dst, msg, true), sel);
  }

  ghost predicate NoFate(e: Event) {
    forall f: Fate, sel: Chosen :: !Of(e, f, sel)
  }

  /** What taking an entry puts on the timeline: one end for one copy, or nothing about messages. */
  lemma TakeEvent(s: Sys) returns (e: Event)
    requires s.agenda.ready != []
    ensures var t := TakeOne(s); var x := s.agenda.ready[0];
            if x.Fired? && x.timer.what.Deliver? then
              t.timeline == s.timeline + [e] && (e.EvDeliver? || e.EvDropCrashed? || e.EvDropPartitioned?) && e.mid == x.timer.what.mid
            else t.timeline == s.timeline || (t.timeline == s.timeline + [e] && NoFate(e))
  {
    hide Reachable, WithoutSlow, Enqueued;
    var t := TakeOne(s);
    e := if |t.timeline| > |s.timeline| then t.timeline[|s.timeline|] else EvPartitionBegin(0.0, 0);
  }

  lemma TakeConserves(s: Sys, sel: Chosen)
    requires Conserved(s, sel) && s.agenda.ready != []
    ensures Conserved(TakeOne(s), sel)
  {
    hide Count, Waiting, TakeOne;
    var e := TakeEvent(s);
    CountMore(s.timeline, e, sel);
  }

  /** Committing a fault makes no copies: its events are no fate and its timers carry no message. */
  lemma CommitConserves(s: Sys, ent: Entropy, fault: Fault, seconds: real, sel: Chosen)
    requires Conserved(s, sel) && EventuallySplits(ent) && ValidFault(s.endpoints.Keys, fault, seconds)
    ensures Conserved(Commit(s, ent, fault, seconds), sel)
  {
    hide Insert, Count, InFlight, CallAt, ChooseGroups, ChooseEnds, ValidFault, EventuallySplits, ChooseFrom;
    var t := Commit(s, ent, fault, seconds);
    CountMore(s.timeline, t.timeline[|s.timeline|], sel);
    forall u: Sys, when, what: Callback | !what.Deliver?
      ensures InFlight(Schedule(u, when, what).agenda, sel) == InFlight(u.agenda, sel)
    {
      ScheduleFlight(u, when, what, sel);
    }
  }

  lemma {:induction false} CommitAllConserves(s: Sys, ent: Entropy, faults: seq<Fault>, seconds: real, sel: Chosen)
    requires Conserved(s, sel) && EventuallySplits(ent) && AllValid(s.endpoints.Keys, faults, seconds)
    ensures Conserved(CommitAll(s, ent, faults, seconds), sel)
    decreases |faults|
  {
    hide Conserved, Commit, EventuallySplits, ValidFault;
    if faults != [] {
      CommitAllConserves(s, ent, faults[..|faults| - 1], seconds, sel);
      CommitConserves(CommitAll(s, ent, faults[..|faults| - 1], seconds), ent, faults[|faults| - 1], seconds, sel);
    }
  }

  lemma RunForConserves(s: Sys, ent: Entropy, seconds: Num, faults: seq<Fault>, sel: Chosen)
    requires Conserved(s, sel) && EventuallySplits(ent)
    ensures Conserved(RunFor(s, ent, seconds, faults), sel)
  {
    hide EventuallySplits, AllValid, CommitAll, InFlight, MadeCopies, EndedCopies, CallAt;
    if Accepted(s, seconds, faults) {
      var t := CommitAll(s, ent, faults, seconds.r);
      CommitAllConserves(s, ent, faults, seconds.r, sel);
      ScheduleFlight(t, At(t.agenda.now + seconds.r), Wake(|t.calls|), sel);
    }
  }

  lemma ApplyConserves(s: Sys, ent: Entropy, act: Act, sel: Chosen)
    requires Conserved(s, sel) && EventuallySplits(ent)
    ensures Conserved(Apply(s, ent, act), sel)
  {
    hide EventuallySplits, BindTo, Send, TakeOne, RunFor, Receiver, FireDue, MadeCopies, EndedCopies, Waiting, Without, CallAt;
    match act
    case DoSend(src, dst, msg) => if src in s.endpoints { SendConserves(s, ent, src, dst, msg, sel); }
    case UserSoon(k) => ReadyMore(s.agenda.ready, Soon(User(k)), sel);
    case UserAt(k, when) => ScheduleFlight(s, when, User(k), sel);
    case Forget(what) => if !Lasting(what) { WaitingWithout(s.agenda.timers, what, sel); }
    case EnterRunFor(seconds, list) => RunForConserves(s, ent, seconds, list, sel);
    case FireTimers => FireKeepsFlight(s.agenda, sel);
    case TakeNext => if s.agenda.ready != [] { TakeConserves(s, sel); }
    case _ =>
  }

  /** Message conservation, in every reachable state and for any choice of messages:
      sends + duplicates = drops + deliveries + crash drops + partition drops + copies still pending. */
  lemma {:induction false} MessagesConserved(ent: Entropy, acts: seq<Act>, sel: Chosen)
    requires EventuallySplits(ent)
    ensures var s := Run(ent, acts);
            Count(s.timeline, Sends, sel) + Count(s.timeline, Duplicates, sel) ==
            Count(s.timeline, Drops, sel) + Count(s.timeline, Deliveries, sel) + Count(s.timeline, CrashDrops, sel)
            + Count(s.timeline, PartitionDrops, sel) + InFlight(s.agenda, sel)
    decreases |acts|
  {
    hide EventuallySplits, Apply, Count, InFlight;
    if acts != [] {
      MessagesConserved(ent, acts[..|acts| - 1], sel);
      assert Conserved(Run(ent, acts[..|acts| - 1]), sel);
      ApplyConserves(Run(ent, acts[..|acts| - 1]), ent, acts[|acts| - 1], sel);
    } else {
      assert Conserved(NewSys, sel) by { NewConserved(sel); }
    }
  }

  lemma NewConserved(sel: Chosen)
    ensures Conserved(NewSys, sel)
  {
  }

  // ---- one message -----------------------------------------------------------------------------------------------

  /** How often message m was sent, doubled and dropped at the sender. */
  ghost predicate Tally(s: Sys, m: nat) {
    && Count(s.timeline, Sends, iset{m}) == One(m < |s.sends|)
    && Count(s.timeline, Drops, iset{m}) == One(m < |s.sends| && s.sends[m].timer.None?)
    && Count(s.timeline, Duplicates, iset{m}) <= One(m < |s.sends| && !s.sends[m].reliable && s.sends[m].timer.Some?)
  }

  lemma SendTallies(s: Sys, ent: Entropy, src: Addr, dst: Addr, msg: Message, m: nat)
    requires Tally(s, m) && src in s.endpoints
    ensures Tally(Send(s, ent, src, dst, msg), m)
  {
    hide Insert, Latency, LinkClock, Count, CallAt, Lost, Duplicated;
    var mid := |s.sends|;
    var e := s.endpoints[src];
    var one := EvSend(s.agenda.now, mid, src, dst);
    CountMore(s.timeline, one, iset{m});
    if e.reliable {
      assert Tally(SendReliable(s, ent, src, dst, msg), m);
    } else if Lost(e, ent, s.faultDraw) {
      CountMore(s.timeline + [one], EvDrop(s.agenda.now, mid, src, dst), iset{m});
    } else {
      var once := SendOnce(s, ent, src, dst, msg).(faultDraw := s.faultDraw + LossDraws(e));
      assert Tally(once, m);
      assert m == mid ==> Count(once.timeline, Duplicates, iset{m}) == 0;
      DuplicatedTallies(once, e, ent, mid, src, dst, msg, m);
    }
  }

  lemma DuplicatedTallies(s: Sys, e: Endpoint, ent: Entropy, mid: nat, src: Addr, dst: Addr, msg: Message, m: nat)
    requires Tally(s, m) && mid < |s.sends| && !s.sends[mid].reliable && s.sends[mid].timer.Some?
    requires m == mid ==> Count(s.timeline, Duplicates, iset{m}) == 0
    ensures Tally(Duplicated(s, e, ent, mid, src, dst, msg), m)
  {
    hide Insert, Latency, Count, CallAt;
    CountMore(s.timeline, EvDuplicate(s.agenda.now, mid, src, dst), iset{m});
  }

  lemma TakeTallies(s: Sys, m: nat)
    requires Tally(s, m) && s.agenda.ready != []
    ensures Tally(TakeOne(s), m)
  {
    hide Count, TakeOne;
    var e := TakeEvent(s);
    CountMore(s.timeline, e, iset{m});
  }

  /** Committing a fault records one event that is no message's fate. */
  lemma CommitEvent(s: Sys, ent: Entropy, fault: Fault, seconds: real) returns (e: Event)
    requires EventuallySplits(ent) && ValidFault(s.endpoints.Keys, fault, seconds)
    ensures Commit(s, ent, fault, seconds).timeline == s.timeline + [e] && NoFate(e)
  {
    hide EventuallySplits, ValidFault, CallAt, ChooseGroups, ChooseEnds, ChooseFrom;
    e := Commit(s, ent, fault, seconds).timeline[|s.timeline|];
  }

  lemma {:induction false} CommitAllTallies(s: Sys, ent: Entropy, faults: seq<Fault>, seconds: real, m: nat)
    requires Tally(s, m) && EventuallySplits(ent) && AllValid(s.endpoints.Keys, faults, seconds)
    ensures Tally(CommitAll(s, ent, faults, seconds), m)
    decreases |faults|
  {
    hide EventuallySplits, ValidFault, Commit, Count;
    if faults != [] {
      CommitAllTallies(s, ent, faults[..|faults| - 1], seconds, m);
      var u := CommitAll(s, ent, faults[..|faults| - 1], seconds);
      var e := CommitEvent(u, ent, faults[|faults| - 1], seconds);
      CountMore(u.timeline, e, iset{m});
    }
  }

  lemma ApplyTallies(s: Sys, ent: Entropy, act: Act, m: nat)
    requires Tally(s, m) && EventuallySplits(ent)
    ensures Tally(Apply(s, ent, act), m)
  {
    hide EventuallySplits, BindTo, Send, TakeOne, Receiver, FireDue, Count, CommitAll, AllValid, CallAt;
    match act
    case DoSend(src, dst, msg) => if src in s.endpoints { SendTallies(s, ent, src, dst, msg, m); }
    case EnterRunFor(seconds, list) => if Accepted(s, seconds, list) { CommitAllTallies(s, ent, list, seconds.r, m); }
    case TakeNext => if s.agenda.ready != [] { TakeTallies(s, m); }
    case _ =>
  }

  lemma {:induction false} RunTallies(ent: Entropy, acts: seq<Act>, m: nat)
    requires EventuallySplits(ent)
    ensures Tally(Run(ent, acts), m)
    decreases |acts|
  {
    hide EventuallySplits, Apply, Count;
    if acts != [] {
      RunTallies(ent, acts[..|acts| - 1], m);
      ApplyTallies(Run(ent, acts[..|acts| - 1]), ent, acts[|acts| - 1], m);
    } else {
      assert Tally(NewSys, m) by { NewTally(m); }
    }
  }

  lemma NewTally(m: nat)
    ensures Tally(NewSys, m)
  {
  }

  /** Every message sent on a reliable link is counted in exactly one place: pending, delivered, dropped
      for a crash, or dropped for a partition. It is never lost at the sender and never doubled. What
      such a drop means is `NetOutcomes.VerdictsExactly`. */
  lemma ReliableMessageOnce(ent: Entropy, acts: seq<Act>, m: nat)
    requires EventuallySplits(ent) && m < |Run(ent, acts).sends| && Run(ent, acts).sends[m].reliable
    ensures var s := Run(ent, acts); var sel := iset{m};
            && Count(s.timeline, Drops, sel) == 0 && Count(s.timeline, Duplicates, sel) == 0
            && Count(s.timeline, Deliveries, sel) + Count(s.timeline, CrashDrops, sel) + Count(s.timeline, PartitionDrops, sel)
               + InFlight(s.agenda, sel) == 1
  {
    hide Run, Count, InFlight;
    MessagesConserved(ent, acts, iset{m});
    RunTallies(ent, acts, m);
    ReliableHasTimer(ent, acts, m);
  }

  lemma ReliableHasTimer(ent: Entropy, acts: seq<Act>, m: nat)
    requires EventuallySplits(ent) && m < |Run(ent, acts).sends| && Run(ent, acts).sends[m].reliable
    ensures Run(ent, acts).sends[m].timer.Some?
  {
    hide Run, Held, Clocks, Follows, Registers, Truth, Queues, TimersTold, TimersInSendOrder, FaultsTold, CallsTold, Due;
    RunInv(ent, acts);
    var s := Run(ent, acts);
    assert SendTold(BookOf(s), m, s.sends[m], Due(s.sends, ent.net, m));
  }

  /** A datagram has at most two copies, one if it was not doubled, and none if it was dropped. */
  lemma DatagramAtMostTwice(ent: Entropy, acts: seq<Act>, m: nat)
    requires EventuallySplits(ent) && m < |Run(ent, acts).sends|
    ensures var s := Run(ent, acts); var sel := iset{m};
            var copies := Count(s.timeline, Deliveries, sel) + Count(s.timeline, CrashDrops, sel) + Count(s.timeline, PartitionDrops, sel)
                          + InFlight(s.agenda, sel);
            if s.sends[m].timer.None? then copies == 0 && Count(s.timeline, Drops, sel) == 1
            else copies == 1 + Count(s.timeline, Duplicates, sel) <= 2
  {
    hide Run, Count, InFlight;
    MessagesConserved(ent, acts, iset{m});
    RunTallies(ent, acts, m);
  }

  // ---- receive queues --------------------------------------------------------------------------------------------

  /** For each bound address: what was enqueued is what `recv` returned followed by what is queued, and
      it is exactly, in order, the deliveries to that address since it was bound. Cancelling a waiting
      `recv` changes none of it. */
  lemma QueuesConserved(ent: Entropy, acts: seq<Act>, a: Addr)
    requires EventuallySplits(ent) && a in Run(ent, acts).endpoints
    ensures var s := Run(ent, acts); var e := s.endpoints[a];
            e.enqueued == e.returned + e.queue && DeliveredTo(s.timeline, a) == e.missed + Mids(e.enqueued)
  {
    hide Run, Held, Clocks, Follows, Registers, Truth, Told, DeliveredTo, ItemTrue;
    RunInv(ent, acts);
    var s := Run(ent, acts);
    assert EndpointTrue(a, s.endpoints[a], s.agenda.taken, s.timeline);
  }

  /** A receiver that is interrupted while it waits and leaves has taken nothing. */
  lemma LeavingTakesNothing(e: Endpoint, a: Addr)
    ensures var f := Receiver(Receiver(e, RecvInterrupt(a)), RecvLeave(a));
            f.queue == e.queue && f.enqueued == e.enqueued && f.returned == e.returned && f.waiter == Idle
  {
  }
}
