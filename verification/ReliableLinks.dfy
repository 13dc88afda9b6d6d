/** Reliable links end to end: the per-link clock, the timer heap and the receive queue together hand
    messages to `recv` in the order they were sent, each at most once. */
module ReliableLinks {
  import opened Common
  import opened Agendas
  import opened AgendaMembers
  import opened NetModel
  import opened NetFaults
  import opened NetMachine
  import opened NetBook
  import opened NetTimers
  import opened NetInv
  import opened NetRuns

  // ---- an endpoint's policy is fixed when it is bound ---------------------------------------------------------

  ghost predicate KeepsPolicy(s: Sys, t: Sys) {
    forall a :: a in s.endpoints ==> a in t.endpoints && t.endpoints[a].reliable == s.endpoints[a].reliable
                                     && t.endpoints[a].loss == s.endpoints[a].loss && t.endpoints[a].duplicate == s.endpoints[a].duplicate
  }

  ghost predicate FromEndpoint(s: Sys, r: SendRecord) {
    r.src in s.endpoints && s.endpoints[r.src].reliable == r.reliable
  }

  ghost predicate SendersBound(s: Sys) {
    forall mid :: 0 <= mid < |s.sends| ==> FromEndpoint(s, s.sends[mid])
  }

  lemma TakeKeepsPolicy(s: Sys)
    requires s.agenda.ready != []
    ensures KeepsPolicy(s, TakeOne(s))
  {
    hide Reachable, DeliveredTo, WithoutSlow;
  }

  lemma ReceiverKeepsPolicy(e: Endpoint, act: Act)
    ensures var r := Receiver(e, act); r.reliable == e.reliable && r.loss == e.loss && r.duplicate == e.duplicate
  {
  }

  lemma ApplyKeepsPolicy(s: Sys, ent: Entropy, act: Act)
    requires EventuallySplits(ent)
    ensures KeepsPolicy(s, Apply(s, ent, act))
  {
    hide EventuallySplits, Send, RunFor, FireDue, CallAt, Cancel, Jump, TakeOne, Receiver;
    if (act.RecvStart? || act.RecvResume? || act.RecvInterrupt? || act.RecvLeave?) && act.a in s.endpoints {
      ReceiverKeepsPolicy(s.endpoints[act.a], act);
    }
    if act.TakeNext? && s.agenda.ready != [] {
      TakeKeepsPolicy(s);
    }
  }

  lemma ApplySends(s: Sys, ent: Entropy, act: Act)
    requires EventuallySplits(ent) && SendersBound(s)
    ensures SendersBound(Apply(s, ent, act))
  {
    hide EventuallySplits, BindTo, Send, TakeOne, RunFor, Receiver, FireDue, Without;
    ApplyKeepsPolicy(s, ent, act);
    var t := Apply(s, ent, act);
    if act.DoSend? && act.src in s.endpoints {
      SendRecorded(s, ent, act.src, act.dst, act.msg);
    }
    forall mid | 0 <= mid < |t.sends| ensures FromEndpoint(t, t.sends[mid]) {
      if mid < |s.sends| {
        assert FromEndpoint(s, s.sends[mid]);
      }
    }
  }

  /** One send, one record, made from the sender's own policy. */
  lemma SendRecorded(s: Sys, ent: Entropy, src: Addr, dst: Addr, msg: Message)
    requires src in s.endpoints
    ensures var t := Send(s, ent, src, dst, msg);
            && |t.sends| == |s.sends| + 1 && s.sends <= t.sends && t.endpoints == s.endpoints && t.netDraw == s.netDraw + 1
            && var r := t.sends[|s.sends|];
               r.t == s.agenda.now && r.src == src && r.dst == dst && r.msg == msg && r.slow == s.slowLinks
               && r.reliable == s.endpoints[src].reliable
  {
    hide Insert, Latency, LinkClock, CallAt;
  }

  lemma {:induction false} RunSenders(ent: Entropy, acts: seq<Act>)
    requires EventuallySplits(ent)
    ensures SendersBound(Run(ent, acts))
    decreases |acts|
  {
    hide EventuallySplits, Apply, SendersBound;
    if acts != [] {
      RunSenders(ent, acts[..|acts| - 1]);
      ApplySends(Run(ent, acts[..|acts| - 1]), ent, acts[|acts| - 1]);
    } else {
      assert SendersBound(NewSys) by { NewSenders(); }
    }
  }

  lemma NewSenders()
    ensures SendersBound(NewSys)
  {
  }

  // ---- a queued message is the one that was sent ------------------------------------------------------------------

  /** The timer a queued message came from. */
  lemma ItemTimer(s: Sys, ent: Entropy, a: Addr, i: nat) returns (k: nat)
    requires Inv(s, ent) && a in s.endpoints && i < |s.endpoints[a].enqueued|
    ensures var item := s.endpoints[a].enqueued[i];
            && k < |s.made| && s.made[k].order == k && item.at < |s.agenda.taken| && s.agenda.taken[item.at].entry == Fired(s.made[k])
            && s.made[k].what.Deliver? && TimerTold(BookOf(s), k, s.made[k].what)
            && s.made[k].what == Deliver(item.mid, item.src, a, item.msg, s.made[k].what.extra)
  {
    hide Clocks, Follows, Registers, Truth, SendsTold, TimersInSendOrder, FaultsTold, CallsTold, DeliveredTo, TimerTold, AheadOf, Good, InAgenda;
    var item := s.endpoints[a].enqueued[i];
    assert EndpointTrue(a, s.endpoints[a], s.agenda.taken, s.timeline);
    assert ItemTrue(item, a, s.agenda.taken);
    var t := s.agenda.taken[item.at].entry.timer;
    assert WasTaken(s.agenda, t);
    TakenInLine(s.agenda, t);
    assert Known(s.agenda, s.made, t);
    k := t.order;
    assert TimerTold(BookOf(s), k, s.made[k].what) && AheadOf(s.made[k]);
  }

  /** What is received was sent: to this address, by the named sender, with this content. */
  lemma ReceivedWasSent(ent: Entropy, acts: seq<Act>, a: Addr, i: nat)
    requires EventuallySplits(ent) && a in Run(ent, acts).endpoints && i < |Run(ent, acts).endpoints[a].enqueued|
    ensures var s := Run(ent, acts); var item := s.endpoints[a].enqueued[i];
            IsSend(BookOf(s), item.mid, item.src, a) && s.sends[item.mid].msg == item.msg
  {
    hide Inv, Run;
    RunInv(ent, acts);
    var k := ItemTimer(Run(ent, acts), ent, a, i);
  }

  /** Its original copy, if the sender is reliable. */
  lemma ReliableItem(s: Sys, ent: Entropy, a: Addr, i: nat) returns (k: nat)
    requires Inv(s, ent) && SendersBound(s) && a in s.endpoints && i < |s.endpoints[a].enqueued|
    requires var src := s.endpoints[a].enqueued[i].src; src in s.endpoints && s.endpoints[src].reliable
    ensures var item := s.endpoints[a].enqueued[i];
            && k < |s.made| && item.at < |s.agenda.taken| && s.agenda.taken[item.at].entry == Fired(s.made[k])
            && IsSend(BookOf(s), item.mid, item.src, a) && s.sends[item.mid].reliable && s.sends[item.mid].timer == Some(k)
            && s.made[k].order == k && s.made[k].when == At(Due(s.sends, ent.net, item.mid))
  {
    hide Clocks, Follows, Registers, Truth, Queues, TimersTold, TimersInSendOrder, FaultsTold, CallsTold, Held, Due;
    k := ItemTimer(s, ent, a, i);
    var item := s.endpoints[a].enqueued[i];
    assert FromEndpoint(s, s.sends[item.mid]);
    assert SendTold(BookOf(s), item.mid, s.sends[item.mid], Due(s.sends, ent.net, item.mid));
  }

  lemma NotReordered(s: Sys, ent: Entropy, a: Addr, i: nat, j: nat)
    requires Inv(s, ent) && SendersBound(s) && a in s.endpoints && i < j < |s.endpoints[a].enqueued|
    requires s.endpoints[a].enqueued[i].src == s.endpoints[a].enqueued[j].src
    requires var src := s.endpoints[a].enqueued[i].src; src in s.endpoints && s.endpoints[src].reliable
    ensures s.endpoints[a].enqueued[i].mid < s.endpoints[a].enqueued[j].mid
  {
    hide Clocks, Follows, Registers, Truth, TimersTold, SendsTold, FaultsTold, CallsTold, Held, Due, SendersBound, DeliveredTo, ItemTrue;
    var e := s.endpoints[a];
    var x, y := e.enqueued[i], e.enqueued[j];
    var k := ReliableItem(s, ent, a, i);
    var l := ReliableItem(s, ent, a, j);
    assert EndpointTrue(a, e, s.agenda.taken, s.timeline);
    assert x.at < y.at;
    if y.mid < x.mid {
      ReliableDueOrder(s.sends, ent.net, y.mid, x.mid);
      assert EarlierTimer(s.sends[y.mid], s.sends[x.mid]);
      TookInOrder(s.agenda, s.made, x.at, y.at);
    } else if y.mid == x.mid {
      TookOnce(s.agenda, s.made, x.at, y.at);
    }
  }

  /** Reliable delivery, in every run: the messages that reach an address from a reliable sender reach
      it in strictly increasing send order, so never twice, and `recv` has returned a prefix of them in
      that same order. */
  lemma ReliableInOrder(ent: Entropy, acts: seq<Act>, a: Addr, i: nat, j: nat)
    requires EventuallySplits(ent) && a in Run(ent, acts).endpoints && i < j < |Run(ent, acts).endpoints[a].enqueued|
    requires var s := Run(ent, acts); var src := s.endpoints[a].enqueued[i].src;
             s.endpoints[a].enqueued[j].src == src && src in s.endpoints && s.endpoints[src].reliable
    ensures var e := Run(ent, acts).endpoints[a]; e.enqueued[i].mid < e.enqueued[j].mid
  {
    hide Inv, Run, SendersBound;
    RunInv(ent, acts);
    RunSenders(ent, acts);
    NotReordered(Run(ent, acts), ent, a, i, j);
  }

  /** The same of what `recv` returned. */
  lemma RecvInOrder(ent: Entropy, acts: seq<Act>, a: Addr, i: nat, j: nat)
    requires EventuallySplits(ent) && a in Run(ent, acts).endpoints && i < j < |Run(ent, acts).endpoints[a].returned|
    requires var s := Run(ent, acts); var src := s.endpoints[a].returned[i].src;
             s.endpoints[a].returned[j].src == src && src in s.endpoints && s.endpoints[src].reliable
    ensures var e := Run(ent, acts).endpoints[a]; e.returned[i].mid < e.returned[j].mid
  {
    hide Run, Held, Clocks, Follows, Registers, Truth, Told, DeliveredTo, ItemTrue;
    var s := Run(ent, acts);
    RunInv(ent, acts);
    assert EndpointTrue(a, s.endpoints[a], s.agenda.taken, s.timeline);
    var e := s.endpoints[a];
    assert e.enqueued[i] == e.returned[i] && e.enqueued[j] == e.returned[j];
    ReliableInOrder(ent, acts, a, i, j);
  }
}
