/** Receiving, user timers and sending keep the network's invariant. */
module NetSends {
  import opened Common
  import opened Agendas
  import opened AgendaMembers
  import opened NetModel
  import opened NetMachine
  import opened NetBook
  import opened NetTimers
  import opened NetInv

  // ---- what only changes endpoints -----------------------------------------------------------------------

  lemma ReceiverTrue(a: Addr, e: Endpoint, act: Act, taken: seq<Taken<Callback>>, tl: seq<Event>)
    requires EndpointTrue(a, e, taken, tl)
    ensures EndpointTrue(a, Receiver(e, act), taken, tl)
  {
    hide ItemTrue, DeliveredTo;
  }

  lemma ReceiverInv(s: Sys, ent: Entropy, a: Addr, act: Act)
    requires Inv(s, ent) && a in s.endpoints
    ensures Inv(WithEndpoint(s, a, Receiver(s.endpoints[a], act)), ent)
  {
    hide Truth, Registers, Follows, Held, Told, Clocks, EndpointTrue, Receiver;
    ReceiverTrue(a, s.endpoints[a], act, s.agenda.taken, s.timeline);
  }

  lemma BindInv(s: Sys, ent: Entropy, a: Addr, reliable: bool, loss: Num, duplicate: Num)
    requires Inv(s, ent)
    ensures Inv(BindTo(s, a, reliable, loss, duplicate), ent)
  {
    hide Truth, Registers, Follows, Held, Told, Clocks, ItemTrue, DeliveredTo;
    if CanBind(s.endpoints.Keys, a, loss, duplicate) {
      var e := Endpoint(reliable, loss.r, duplicate.r, [], Idle, [], [], DeliveredTo(s.timeline, a));
      assert EndpointTrue(a, e, s.agenda.taken, s.timeline);
    }
  }

  // ---- what only changes the agenda ------------------------------------------------------------------------

  lemma AgendaInvKept(s: Sys, ent: Entropy, a: Agenda<Callback>)
    requires Inv(s, ent) && Held(a, s.made) && a.taken == s.agenda.taken
    ensures Inv(WithAgenda(s, a), ent)
  {
    hide Truth, Registers, Follows, Held, Told, Clocks, Queues;
  }

  lemma UserTimerInv(s: Sys, ent: Entropy, when: Deadline, k: nat)
    requires Inv(s, ent)
    ensures Inv(Schedule(s, when, User(k)), ent)
  {
    hide Registers, Follows, Held, Clocks, Queues, Truth, Told, Insert;
    var t := Schedule(s, when, User(k));
    HeldSchedule(s.agenda, s.made, when, User(k));
    TruthGrows(s.timeline, BookOf(s), BookOf(t));
    ToldGrows(BookOf(s), BookOf(t), ent.net);
  }

  // ---- sending -----------------------------------------------------------------------------------------------

  lemma {:induction false} SlowAtLeastOne(slow: seq<Slow>, pair: set<Addr>)
    requires forall i :: 0 <= i < |slow| ==> slow[i].factor > 1.0
    ensures SlowFactor(slow, pair) >= 1.0
  {
    if slow != [] {
      SlowAtLeastOne(slow[..|slow| - 1], pair);
      AtLeastOne(SlowFactor(slow[..|slow| - 1], pair), slow[|slow| - 1].factor);
    }
  }

  lemma AtLeastOne(x: real, y: real)
    requires x >= 1.0 && y >= 1.0
    ensures x * y >= 1.0
  {
    assert x * y - y == (x - 1.0) * y;
  }

  /** However it is drawn, a latency is at least the shortest one. */
  lemma LatencyAtLeast(s: Sys, stream: nat -> Unit, draw: nat, src: Addr, dst: Addr)
    requires SlowTrue(s.slowLinks, s.timeline, s.faults)
    ensures Latency(stream, draw, s.slowLinks, src, dst) >= LAT_MIN
  {
    forall i | 0 <= i < |s.slowLinks| ensures s.slowLinks[i].factor > 1.0 {
      assert SlowEntry(s.slowLinks[i], s.timeline, s.faults);
    }
    SlowAtLeastOne(s.slowLinks, {src, dst});
    var u := stream(draw);
    assert (LAT_MAX - LAT_MIN) * u >= 0.0;
    var base := Uniform(LAT_MIN, LAT_MAX, u);
    var f := SlowFactor(s.slowLinks, {src, dst});
    assert base * f - base == base * (f - 1.0);
  }

  lemma LastDueMore(sends: seq<SendRecord>, r: SendRecord, net: nat -> Unit, link: (Addr, Addr))
    ensures LastDue(sends + [r], net, link) ==
            if r.reliable && (r.src, r.dst) == link then Max(r.t + Latency(net, |sends|, r.slow, r.src, r.dst), LastDue(sends, net, link))
            else LastDue(sends, net, link)
  {
    assert (sends + [r])[..|sends|] == sends;
  }

  lemma DueOfLast(sends: seq<SendRecord>, r: SendRecord, net: nat -> Unit)
    ensures Due(sends + [r], net, |sends|) ==
            if r.reliable then Max(r.t + Latency(net, |sends|, r.slow, r.src, r.dst), LastDue(sends, net, (r.src, r.dst)))
            else r.t + Latency(net, |sends|, r.slow, r.src, r.dst)
  {
    assert (sends + [r])[..|sends| + 1] == sends + [r];
    LastDueMore(sends, r, net, (r.src, r.dst));
  }

  /** The clock that was set is the due time on record. */
  lemma ReliableClocks(s: Sys, r: SendRecord, net: nat -> Unit, when: real)
    requires Clocks(s.sends, s.netDraw, s.reliableClock, net) && r.reliable
    requires when == Max(r.t + Latency(net, s.netDraw, r.slow, r.src, r.dst), LinkClock(s.reliableClock, (r.src, r.dst)))
    ensures Clocks(s.sends + [r], s.netDraw + 1, s.reliableClock[(r.src, r.dst) := when], net)
    ensures Due(s.sends + [r], net, |s.sends|) == when
  {
    hide Latency, LastDue, Due;
    DueOfLast(s.sends, r, net);
    forall link ensures LinkClock(s.reliableClock[(r.src, r.dst) := when], link) == LastDue(s.sends + [r], net, link) {
      LastDueMore(s.sends, r, net, link);
      assert LinkClock(s.reliableClock, link) == LastDue(s.sends, net, link);
    }
  }

  lemma DatagramClocks(s: Sys, r: SendRecord, net: nat -> Unit)
    requires Clocks(s.sends, s.netDraw, s.reliableClock, net) && !r.reliable
    ensures Clocks(s.sends + [r], s.netDraw + 1, s.reliableClock, net)
    ensures Due(s.sends + [r], net, |s.sends|) == r.t + Latency(net, s.netDraw, r.slow, r.src, r.dst)
  {
    hide Latency, LastDue, Due;
    DueOfLast(s.sends, r, net);
    forall link ensures LinkClock(s.reliableClock, link) == LastDue(s.sends + [r], net, link) {
      LastDueMore(s.sends, r, net, link);
      assert LinkClock(s.reliableClock, link) == LastDue(s.sends, net, link);
    }
  }

  lemma NewSendLast(b: Book, c: Book, net: nat -> Unit)
    requires Told(b, net) && |c.sends| == |b.sends| + 1 && b.sends <= c.sends
    requires c.sends[|b.sends|].timer.Some? ==> c.sends[|b.sends|].timer.value >= |b.made|
    ensures forall m, n :: 0 <= m < n < |c.sends| && |b.sends| <= n ==> EarlierTimer(c.sends[m], c.sends[n])
  {
    hide Due;
    forall m, n | 0 <= m < n < |c.sends| && |b.sends| <= n ensures EarlierTimer(c.sends[m], c.sends[n]) {
      assert SendTold(b, m, b.sends[m], Due(b.sends, net, m));
    }
  }

  /** One message recorded with its original copy's timer: what both kinds of send have in common. */
  lemma SentOnceTold(s: Sys, t: Sys, r: SendRecord, when: real, net: nat -> Unit)
    requires Told(BookOf(s), net) && Held(s.agenda, s.made)
    requires t.sends == s.sends + [r] && t.faults == s.faults && t.calls == s.calls
    requires r.timer == Some(|s.made|)
    requires t.made == s.made + [Timer(At(when), |s.made|, r.t, Deliver(|s.sends|, r.src, r.dst, r.msg, false))]
    requires when >= r.t + LAT_MIN && Due(t.sends, net, |s.sends|) == when
    ensures Told(BookOf(t), net)
  {
    hide Told, Due, Held;
    NewSendLast(BookOf(s), BookOf(t), net);
    ToldGrows(BookOf(s), BookOf(t), net);
  }

  lemma SendReliableInv(s: Sys, ent: Entropy, src: Addr, dst: Addr, msg: Message)
    requires Inv(s, ent)
    ensures Inv(SendReliable(s, ent, src, dst, msg), ent)
  {
    hide Registers, Follows, Clocks, Queues, Truth, Told, Insert, Latency, LinkClock, Due, SlowTrue, Good;
    var t := SendReliable(s, ent, src, dst, msg);
    var r := SendRecord(s.agenda.now, src, dst, msg, true, s.slowLinks, Some(s.agenda.nextSeq));
    var when := Max(s.agenda.now + Latency(ent.net, s.netDraw, s.slowLinks, src, dst), LinkClock(s.reliableClock, (src, dst)));
    assert SlowTrue(s.slowLinks, s.timeline, s.faults) by { SlowLinksTrue(s, ent); }
    LatencyAtLeast(s, ent.net, s.netDraw, src, dst);
    HeldSchedule(s.agenda, s.made, At(when), Deliver(|s.sends|, src, dst, msg, false));
    ReliableClocks(s, r, ent.net, when);
    SentOnceTold(s, t, r, when, ent.net);
    PlainEvent(s, t, EvSend(s.agenda.now, |s.sends|, src, dst), ent);
  }

  lemma SlowLinksTrue(s: Sys, ent: Entropy)
    requires Inv(s, ent)
    ensures SlowTrue(s.slowLinks, s.timeline, s.faults)
  {
  }

  lemma SendOnceInv(s: Sys, ent: Entropy, src: Addr, dst: Addr, msg: Message)
    requires Inv(s, ent)
    ensures Inv(SendOnce(s, ent, src, dst, msg), ent)
  {
    hide Registers, Follows, Clocks, Queues, Truth, Told, Insert, Latency, LinkClock, Due, SlowTrue, Good;
    var t := SendOnce(s, ent, src, dst, msg);
    var r := SendRecord(s.agenda.now, src, dst, msg, false, s.slowLinks, Some(s.agenda.nextSeq));
    var when := s.agenda.now + Latency(ent.net, s.netDraw, s.slowLinks, src, dst);
    assert SlowTrue(s.slowLinks, s.timeline, s.faults) by { SlowLinksTrue(s, ent); }
    LatencyAtLeast(s, ent.net, s.netDraw, src, dst);
    HeldSchedule(s.agenda, s.made, At(when), Deliver(|s.sends|, src, dst, msg, false));
    DatagramClocks(s, r, ent.net);
    SentOnceTold(s, t, r, when, ent.net);
    PlainEvent(s, t, EvSend(s.agenda.now, |s.sends|, src, dst), ent);
  }

  lemma SendLostInv(s: Sys, ent: Entropy, src: Addr, dst: Addr, msg: Message)
    requires Inv(s, ent)
    ensures Inv(Record(Sent(s, src, dst, msg, false, None), EvDrop(s.agenda.now, |s.sends|, src, dst)), ent)
  {
    hide Registers, Follows, Clocks, Queues, Truth, Told, Latency, LinkClock, Due, SlowTrue, Held;
    var r := SendRecord(s.agenda.now, src, dst, msg, false, s.slowLinks, None);
    var t := Sent(s, src, dst, msg, false, None);
    assert SlowTrue(s.slowLinks, s.timeline, s.faults) by { SlowLinksTrue(s, ent); }
    DatagramClocks(s, r, ent.net);
    NewSendLast(BookOf(s), BookOf(t), ent.net);
    ToldGrows(BookOf(s), BookOf(t), ent.net);
    PlainEvent(s, t, EvSend(s.agenda.now, |s.sends|, src, dst), ent);
    assert Inv(t, ent);
    PlainEvent(t, Record(t, EvDrop(s.agenda.now, |s.sends|, src, dst)), EvDrop(s.agenda.now, |s.sends|, src, dst), ent);
  }

  lemma DuplicatedInv(s: Sys, e: Endpoint, ent: Entropy, mid: nat, src: Addr, dst: Addr, msg: Message)
    requires Inv(s, ent) && IsSend(BookOf(s), mid, src, dst) && s.sends[mid].msg == msg
    requires !s.sends[mid].reliable && s.sends[mid].timer.Some?
    ensures Inv(Duplicated(s, e, ent, mid, src, dst, msg), ent)
  {
    hide Registers, Follows, Clocks, Queues, Truth, Told, Insert, Latency, LinkClock, Due, SlowTrue, Good;
    var t := Duplicated(s, e, ent, mid, src, dst, msg);
    if e.duplicate > 0.0 && ent.faults(s.faultDraw) < e.duplicate {
      var when := s.agenda.now + Latency(ent.faults, s.faultDraw + 1, s.slowLinks, src, dst);
      assert SlowTrue(s.slowLinks, s.timeline, s.faults) by { SlowLinksTrue(s, ent); }
      LatencyAtLeast(s, ent.faults, s.faultDraw + 1, src, dst);
      HeldSchedule(s.agenda, s.made, At(when), Deliver(mid, src, dst, msg, true));
      ToldGrows(BookOf(s), BookOf(t), ent.net);
      PlainEvent(s, t, EvDuplicate(s.agenda.now, mid, src, dst), ent);
    } else {
      assert Inv(t, ent) by { hide Held; }
    }
  }

  lemma SendInv(s: Sys, ent: Entropy, src: Addr, dst: Addr, msg: Message)
    requires Inv(s, ent) && src in s.endpoints
    ensures Inv(Send(s, ent, src, dst, msg), ent)
  {
    hide Registers, Follows, Clocks, Queues, Truth, Told, Held, SendReliable, SendOnce, Duplicated;
    var e := s.endpoints[src];
    if e.reliable {
      SendReliableInv(s, ent, src, dst, msg);
    } else if Lost(e, ent, s.faultDraw) {
      SendLostInv(s, ent, src, dst, msg);
    } else {
      SendOnceInv(s, ent, src, dst, msg);
      var once := SendOnce(s, ent, src, dst, msg).(faultDraw := s.faultDraw + LossDraws(e));
      SendOnceRecord(s, ent, src, dst, msg);
      assert Inv(once, ent);
      DuplicatedInv(once, e, ent, |s.sends|, src, dst, msg);
    }
  }

  lemma SendOnceRecord(s: Sys, ent: Entropy, src: Addr, dst: Addr, msg: Message)
    ensures SendOnce(s, ent, src, dst, msg).sends ==
            s.sends + [SendRecord(s.agenda.now, src, dst, msg, false, s.slowLinks, Some(s.agenda.nextSeq))]
  {
  }
}
