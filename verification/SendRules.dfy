/** What becomes of one send over a whole run: whether it is dropped or doubled at the sender, which copies
    it has and when they fall due, by the endpoint's own settings and the two streams. */
module SendRules {
  import opened Common
  import opened Agendas
  import opened NetModel
  import opened NetFaults
  import opened NetMachine
  import opened NetBook
  import opened NetTimers
  import opened NetInv
  import opened NetRuns
  import opened NetOutcomes

  // ---- what an endpoint was bound with ----------------------------------------------------------------------

  predicate AsBound(e: Endpoint, reliable: bool, loss: Num, duplicate: Num) {
    e.reliable == reliable && loss == Real(e.loss) && duplicate == Real(e.duplicate) && 0.0 <= e.loss <= 1.0 && 0.0 <= e.duplicate <= 1.0
  }

  /** A `bind` of a bound address, or with something that is not a probability, changes nothing; any other
      makes an endpoint that does what was asked, with nothing received. */
  lemma BindMakes(s: Sys, ent: Entropy, a: Addr, reliable: bool, loss: Num, duplicate: Num)
    requires EventuallySplits(ent)
    ensures var t := Apply(s, ent, Bind(a, reliable, loss, duplicate));
            var refused := a in s.endpoints || loss in {PosInf, NegInf, NaN} || duplicate in {PosInf, NegInf, NaN}
                           || loss.r < 0.0 || loss.r > 1.0 || duplicate.r < 0.0 || duplicate.r > 1.0;
            if refused then t == s
            else
              && t.endpoints.Keys == s.endpoints.Keys + {a} && (forall b :: b in s.endpoints ==> t.endpoints[b] == s.endpoints[b])
              && AsBound(t.endpoints[a], reliable, loss, duplicate)
              && t.endpoints[a].queue == [] && t.endpoints[a].waiter == Idle && t == s.(endpoints := t.endpoints)
  {
    hide DeliveredTo, EventuallySplits;
  }

  ghost predicate SameSettings(e: Endpoint, f: Endpoint) {
    e.reliable == f.reliable && e.loss == f.loss && e.duplicate == f.duplicate
  }

  lemma SettingsKept(s: Sys, ent: Entropy, act: Act, a: Addr)
    requires EventuallySplits(ent) && a in s.endpoints
    ensures var t := Apply(s, ent, act); a in t.endpoints && SameSettings(s.endpoints[a], t.endpoints[a])
  {
    hide EventuallySplits, Send, RunFor, Schedule, FireDue, Reachable, WithoutSlow, DeliveredTo;
  }

  lemma NoNewEndpoint(s: Sys, ent: Entropy, act: Act)
    requires EventuallySplits(ent) && !act.Bind?
    ensures Apply(s, ent, act).endpoints.Keys == s.endpoints.Keys
  {
    hide EventuallySplits, Send, RunFor, Schedule, FireDue, Reachable, WithoutSlow, Receiver;
  }

  /** An endpoint has, for the whole run, the settings of the one `bind` call that made it. */
  lemma {:induction false} BoundOnce(ent: Entropy, acts: seq<Act>, a: Addr) returns (k: nat)
    requires EventuallySplits(ent) && a in Run(ent, acts).endpoints
    ensures k < |acts| && acts[k].Bind? && acts[k].a == a && a !in Run(ent, acts[..k]).endpoints
    ensures AsBound(Run(ent, acts).endpoints[a], acts[k].reliable, acts[k].loss, acts[k].duplicate)
    decreases |acts|
  {
    hide EventuallySplits, Apply;
    var front, act := acts[..|acts| - 1], acts[|acts| - 1];
    var s := Run(ent, front);
    if a in s.endpoints {
      k := BoundOnce(ent, front, a);
      SettingsKept(s, ent, act, a);
      assert front[..k] == acts[..k];
    } else {
      k := |acts| - 1;
      if act.Bind? {
        BindMakes(s, ent, act.a, act.reliable, act.loss, act.duplicate);
      } else {
        NoNewEndpoint(s, ent, act);
      }
    }
  }

  // ---- dropped or doubled ---------------------------------------------------------------------------------------

  /** The message is lost at the sender: its draw is below the loss probability. */
  predicate Dropped(e: Endpoint, ent: Entropy, draw: nat) {
    !e.reliable && e.loss > 0.0 && ent.faults(draw) < e.loss
  }

  /** The draw that decides about a second copy: the next one, if loss took one. */
  function DoubleDraw(e: Endpoint, draw: nat): nat { if e.loss > 0.0 then draw + 1 else draw }

  predicate Doubled(e: Endpoint, ent: Entropy, draw: nat) {
    !e.reliable && !Dropped(e, ent, draw) && e.duplicate > 0.0 && ent.faults(DoubleDraw(e, draw)) < e.duplicate
  }

  /** A latency: between one and twenty milliseconds by the draw, times the open slow links on the pair. */
  function Takes(u: Unit, slow: seq<Slow>, src: Addr, dst: Addr): real {
    (0.001 + (0.020 - 0.001) * u) * SlowFactor(slow, {src, dst})
  }

  ghost predicate SaysDropped(tl: seq<Event>, mid: nat) {
    exists i :: 0 <= i < |tl| && tl[i].EvDrop? && tl[i].mid == mid
  }

  ghost predicate SaysDoubled(tl: seq<Event>, mid: nat) {
    exists i :: 0 <= i < |tl| && tl[i].EvDuplicate? && tl[i].mid == mid
  }

  ghost predicate HasCopy(made: seq<Timer<Callback>>, mid: nat, extra: bool) {
    exists k :: 0 <= k < |made| && CopyAt(made, k, mid, extra)
  }

  ghost predicate CopyAt(made: seq<Timer<Callback>>, k: int, mid: nat, extra: bool) {
    0 <= k < |made| && IsCopy(made[k], mid) && made[k].what.extra == extra
  }

  ghost predicate CopiesAre(made: seq<Timer<Callback>>, mid: nat, extra: bool, when: real, what: Callback) {
    forall k :: CopyAt(made, k, mid, extra) ==> made[k].when == At(when) && made[k].what == what
  }

  /** What the timeline and the timers say about one message sent from s. */
  ghost predicate Fated(s: Sys, t: Sys, e: Endpoint, ent: Entropy, src: Addr, dst: Addr, msg: Message) {
    var mid, d := |s.sends|, s.faultDraw;
    && (SaysDropped(t.timeline, mid) <==> Dropped(e, ent, d))
    && (SaysDoubled(t.timeline, mid) <==> Doubled(e, ent, d))
    && (HasCopy(t.made, mid, false) <==> !Dropped(e, ent, d))
    && (HasCopy(t.made, mid, true) <==> Doubled(e, ent, d))
    && (!e.reliable ==> CopiesAre(t.made, mid, false, s.agenda.now + Takes(ent.net(mid), s.slowLinks, src, dst), Deliver(mid, src, dst, msg, false)))
    && CopiesAre(t.made, mid, true, s.agenda.now + Takes(ent.faults(DoubleDraw(e, d) + 1), s.slowLinks, src, dst), Deliver(mid, src, dst, msg, true))
  }

  // ---- only the send itself speaks of its message ------------------------------------------------------------------

  /** This event or timer is about the message. */
  ghost predicate About(e: Event, mid: nat) {
    (e.EvDrop? || e.EvDuplicate?) && e.mid == mid
  }

  /** From s to t nothing new is said about the message. */
  ghost predicate Silent(s: Sys, t: Sys, mid: nat) {
    && s.timeline <= t.timeline && (forall i :: |s.timeline| <= i < |t.timeline| ==> !About(t.timeline[i], mid))
    && s.made <= t.made && (forall k :: |s.made| <= k < |t.made| ==> !IsCopy(t.made[k], mid))
    && s.sends <= t.sends
  }

  lemma SendSilent(s: Sys, ent: Entropy, src: Addr, dst: Addr, msg: Message, mid: nat)
    requires src in s.endpoints && mid < |s.sends|
    ensures Silent(s, Send(s, ent, src, dst, msg), mid)
  {
    hide Insert, Latency, LinkClock, CallAt, Lost;
  }

  lemma CommitSilent(s: Sys, ent: Entropy, fault: Fault, seconds: real, mid: nat)
    requires EventuallySplits(ent) && ValidFault(s.endpoints.Keys, fault, seconds)
    ensures Silent(s, Commit(s, ent, fault, seconds), mid)
  {
    hide EventuallySplits, ValidFault, CallAt, ChooseGroups, ChooseEnds, ChooseFrom, Uniform;
  }

  lemma SilentChain(s: Sys, t: Sys, u: Sys, mid: nat)
    requires Silent(s, t, mid) && Silent(t, u, mid)
    ensures Silent(s, u, mid)
  {
  }

  lemma {:induction false} CommitAllSilent(s: Sys, ent: Entropy, faults: seq<Fault>, seconds: real, mid: nat)
    requires EventuallySplits(ent) && AllValid(s.endpoints.Keys, faults, seconds)
    ensures Silent(s, CommitAll(s, ent, faults, seconds), mid)
    decreases |faults|
  {
    hide EventuallySplits, ValidFault, Commit, Silent;
    if faults != [] {
      var u := CommitAll(s, ent, faults[..|faults| - 1], seconds);
      CommitAllSilent(s, ent, faults[..|faults| - 1], seconds, mid);
      CommitSilent(u, ent, faults[|faults| - 1], seconds, mid);
      SilentChain(s, u, CommitAll(s, ent, faults, seconds), mid);
    } else {
      SilentHere(s, s, mid);
    }
  }

  lemma SilentHere(s: Sys, t: Sys, mid: nat)
    requires t.timeline == s.timeline && t.made == s.made && t.sends == s.sends
    ensures Silent(s, t, mid)
  {
  }

  lemma RunForSilent(s: Sys, ent: Entropy, seconds: Num, list: seq<Fault>, mid: nat)
    requires EventuallySplits(ent)
    ensures Silent(s, RunFor(s, ent, seconds, list), mid)
  {
    hide EventuallySplits, AllValid, CommitAll, CallAt;
    if Accepted(s, seconds, list) {
      CommitAllSilent(s, ent, list, seconds.r, mid);
    }
  }

  lemma TakeSilent(s: Sys, mid: nat)
    requires s.agenda.ready != []
    ensures Silent(s, TakeOne(s), mid)
  {
    hide WithoutSlow, Reachable, Enqueued;
  }

  lemma ApplySilent(s: Sys, ent: Entropy, act: Act, mid: nat)
    requires EventuallySplits(ent) && mid < |s.sends|
    ensures Silent(s, Apply(s, ent, act), mid)
  {
    hide EventuallySplits, BindTo, Send, RunFor, Receiver, FireDue, CallAt, Cancel, TakeOne, Silent;
    match act
    case DoSend(src, dst, msg) => if src in s.endpoints { SendSilent(s, ent, src, dst, msg, mid); } else { SilentHere(s, s, mid); }
    case EnterRunFor(seconds, list) => RunForSilent(s, ent, seconds, list, mid);
    case TakeNext => if s.agenda.ready != [] { TakeSilent(s, mid); } else { SilentHere(s, s, mid); }
    case UserAt(k, when) => UserSilent(s, when, k, mid);
    case _ => SilentHere(s, Apply(s, ent, act), mid);
  }

  lemma UserSilent(s: Sys, when: Deadline, k: nat, mid: nat)
    ensures Silent(s, Schedule(s, when, User(k)), mid)
  {
  }

  lemma {:induction false} RunSilent(ent: Entropy, acts: seq<Act>, k: nat, mid: nat)
    requires EventuallySplits(ent) && k <= |acts| && mid < |Run(ent, acts[..k]).sends|
    ensures Silent(Run(ent, acts[..k]), Run(ent, acts), mid)
    decreases |acts|
  {
    hide EventuallySplits, Apply, Silent;
    if k == |acts| {
      assert acts[..k] == acts;
      SilentHere(Run(ent, acts), Run(ent, acts), mid);
    } else {
      var front := acts[..|acts| - 1];
      assert front[..k] == acts[..k];
      RunSilent(ent, front, k, mid);
      SendsGrow(Run(ent, acts[..k]), Run(ent, front), mid);
      ApplySilent(Run(ent, front), ent, acts[|acts| - 1], mid);
      SilentChain(Run(ent, acts[..k]), Run(ent, front), Run(ent, acts), mid);
    }
  }

  lemma SendsGrow(s: Sys, t: Sys, mid: nat)
    requires Silent(s, t, mid)
    ensures |s.sends| <= |t.sends|
  {
  }

  /** Before it is sent nothing speaks of a message. */
  ghost predicate Unheard(s: Sys, mid: nat) {
    !SaysDropped(s.timeline, mid) && !SaysDoubled(s.timeline, mid) && forall k :: 0 <= k < |s.made| ==> !IsCopy(s.made[k], mid)
  }

  lemma NotYetSent(s: Sys, ent: Entropy)
    requires Inv(s, ent)
    ensures Unheard(s, |s.sends|)
  {
    hide Held, Clocks, Follows, Registers, Queues, SlowTrue, CopyDue, NoCut, SendsTold, TimersInSendOrder, FaultsTold, CallsTold, AheadOf;
    forall i | 0 <= i < |s.timeline| ensures !About(s.timeline[i], |s.sends|) {
      assert EventTrue(s.timeline[..i], s.timeline[i], BookOf(s));
    }
    forall k | 0 <= k < |s.made| ensures !IsCopy(s.made[k], |s.sends|) {
      assert TimerTold(BookOf(s), k, s.made[k].what);
    }
  }

  // ---- the send itself ------------------------------------------------------------------------------------------

  lemma LatencyTakes(s: Sys, stream: nat -> Unit, draw: nat, src: Addr, dst: Addr)
    ensures Latency(stream, draw, s.slowLinks, src, dst) == Takes(stream(draw), s.slowLinks, src, dst)
  {
    hide SlowFactor;
  }

  lemma OnceAdds(s: Sys, ent: Entropy, src: Addr, dst: Addr, msg: Message)
    requires s.netDraw == |s.sends|
    ensures var t := SendOnce(s, ent, src, dst, msg); var now := s.agenda.now;
            && t.agenda.now == now && t.agenda.nextSeq == s.agenda.nextSeq + 1
            && t.made == s.made + [Timer(At(now + Takes(ent.net(|s.sends|), s.slowLinks, src, dst)), s.agenda.nextSeq, now, Deliver(|s.sends|, src, dst, msg, false))]
            && t.timeline == s.timeline + [EvSend(now, |s.sends|, src, dst)]
  {
    hide Insert, Latency, Takes;
    LatencyTakes(s, ent.net, s.netDraw, src, dst);
  }

  lemma SecondAdds(s: Sys, e: Endpoint, ent: Entropy, mid: nat, src: Addr, dst: Addr, msg: Message)
    ensures var t := Duplicated(s, e, ent, mid, src, dst, msg); var now := s.agenda.now;
            if e.duplicate > 0.0 && ent.faults(s.faultDraw) < e.duplicate then
              && t.made == s.made + [Timer(At(now + Takes(ent.faults(s.faultDraw + 1), s.slowLinks, src, dst)), s.agenda.nextSeq, now, Deliver(mid, src, dst, msg, true))]
              && t.timeline == s.timeline + [EvDuplicate(now, mid, src, dst)]
            else t.made == s.made && t.timeline == s.timeline
  {
    hide Insert, CallAt, Latency, SlowFactor;
    LatencyTakes(s, ent.faults, s.faultDraw + 1, src, dst);
  }

  /** The timers and events one send adds. */
  lemma SendAdds(s: Sys, ent: Entropy, src: Addr, dst: Addr, msg: Message) returns (when: real)
    requires src in s.endpoints && s.netDraw == |s.sends|
    ensures !s.endpoints[src].reliable ==> when == s.agenda.now + Takes(ent.net(|s.sends|), s.slowLinks, src, dst)
    ensures var t := Send(s, ent, src, dst, msg);
            var e, mid, d, now := s.endpoints[src], |s.sends|, s.faultDraw, s.agenda.now;
            var extra := s.agenda.now + Takes(ent.faults(DoubleDraw(e, d) + 1), s.slowLinks, src, dst);
            var original := [Timer(At(when), s.agenda.nextSeq, now, Deliver(mid, src, dst, msg, false))];
            var second := [Timer(At(extra), s.agenda.nextSeq + 1, now, Deliver(mid, src, dst, msg, true))];
            var sent := [EvSend(now, mid, src, dst)];
            if Dropped(e, ent, d) then t.made == s.made && t.timeline == s.timeline + sent + [EvDrop(now, mid, src, dst)]
            else if Doubled(e, ent, d) then t.made == s.made + original + second && t.timeline == s.timeline + sent + [EvDuplicate(now, mid, src, dst)]
            else t.made == s.made + original && t.timeline == s.timeline + sent
  {
    hide Insert, LinkClock, Latency, Takes, Max, SendOnce, Duplicated;
    var e := s.endpoints[src];
    LatencyTakes(s, ent.net, s.netDraw, src, dst);
    if !e.reliable && !Dropped(e, ent, s.faultDraw) {
      OnceAdds(s, ent, src, dst, msg);
      var once := SendOnce(s, ent, src, dst, msg).(faultDraw := s.faultDraw + LossDraws(e));
      SecondAdds(once, e, ent, |s.sends|, src, dst, msg);
      assert once.faultDraw == DoubleDraw(e, s.faultDraw);
    }
    var alone := s.agenda.now + Latency(ent.net, s.netDraw, s.slowLinks, src, dst);
    when := if e.reliable then Max(alone, LinkClock(s.reliableClock, (src, dst))) else alone;
  }

  lemma SendTold(s: Sys, ent: Entropy, src: Addr, dst: Addr, msg: Message)
    requires src in s.endpoints && s.netDraw == |s.sends| && Unheard(s, |s.sends|)
    ensures Fated(s, Send(s, ent, src, dst, msg), s.endpoints[src], ent, src, dst, msg)
  {
    hide Send, Takes, Dropped, Doubled, DoubleDraw;
    var t := Send(s, ent, src, dst, msg);
    var e, mid, d := s.endpoints[src], |s.sends|, s.faultDraw;
    var when := SendAdds(s, ent, src, dst, msg);
    assert !(Dropped(e, ent, d) && Doubled(e, ent, d)) by { NotBoth(e, ent, d); }
    forall i | 0 <= i < |s.timeline| ensures !About(t.timeline[i], mid) {
      assert t.timeline[i] == s.timeline[i];
    }
    if !Dropped(e, ent, d) {
      assert CopyAt(t.made, |s.made|, mid, false);
    } else {
      assert t.timeline[|s.timeline| + 1].EvDrop?;
    }
    if Doubled(e, ent, d) {
      assert CopyAt(t.made, |s.made| + 1, mid, true);
      assert t.timeline[|s.timeline| + 1].EvDuplicate?;
    }
  }

  lemma NotBoth(e: Endpoint, ent: Entropy, draw: nat)
    ensures !(Dropped(e, ent, draw) && Doubled(e, ent, draw))
  {
  }

  /** What is said of a message goes on being all that is said of it. */
  lemma ToldLater(s: Sys, t: Sys, u: Sys, e: Endpoint, ent: Entropy, src: Addr, dst: Addr, msg: Message)
    requires Fated(s, t, e, ent, src, dst, msg) && Silent(t, u, |s.sends|)
    ensures Fated(s, u, e, ent, src, dst, msg)
  {
    hide Takes, Dropped, Doubled, DoubleDraw;
    var mid := |s.sends|;
    forall i ensures 0 <= i < |u.timeline| && About(u.timeline[i], mid) <==> 0 <= i < |t.timeline| && About(t.timeline[i], mid) {
    }
    assert SaysDropped(u.timeline, mid) <==> SaysDropped(t.timeline, mid) by { SameWords(t, u, mid); }
    assert SaysDoubled(u.timeline, mid) <==> SaysDoubled(t.timeline, mid) by { SameWords(t, u, mid); }
    forall k, extra ensures CopyAt(u.made, k, mid, extra) <==> CopyAt(t.made, k, mid, extra) {
    }
    forall extra ensures HasCopy(u.made, mid, extra) <==> HasCopy(t.made, mid, extra) {
      if HasCopy(t.made, mid, extra) {
        var k :| 0 <= k < |t.made| && CopyAt(t.made, k, mid, extra);
        assert CopyAt(u.made, k, mid, extra);
      }
    }
  }

  lemma SameWords(t: Sys, u: Sys, mid: nat)
    requires Silent(t, u, mid)
    ensures SaysDropped(u.timeline, mid) <==> SaysDropped(t.timeline, mid)
    ensures SaysDoubled(u.timeline, mid) <==> SaysDoubled(t.timeline, mid)
  {
    forall i | 0 <= i < |u.timeline| && About(u.timeline[i], mid) ensures i < |t.timeline| && t.timeline[i] == u.timeline[i] {
    }
    if SaysDropped(t.timeline, mid) {
      var i :| 0 <= i < |t.timeline| && t.timeline[i].EvDrop? && t.timeline[i].mid == mid;
      assert u.timeline[i].EvDrop? && u.timeline[i].mid == mid;
    }
    if SaysDoubled(t.timeline, mid) {
      var i :| 0 <= i < |t.timeline| && t.timeline[i].EvDuplicate? && t.timeline[i].mid == mid;
      assert u.timeline[i].EvDuplicate? && u.timeline[i].mid == mid;
    }
  }

  /** For every send of every run, for good: it is recorded as dropped exactly if the sender can lose
      messages and the first draw says so, as doubled exactly if it was not dropped and the next draw says
      so; it has an original copy exactly if not dropped and a second one exactly if doubled; a datagram's
      original falls due by "net" draw `mid`, and the second copy by one more draw of "faults". */
  lemma SendFate(ent: Entropy, acts: seq<Act>, k: nat)
    requires EventuallySplits(ent) && k < |acts| && acts[k].DoSend? && acts[k].src in Run(ent, acts[..k]).endpoints
    ensures var s := Run(ent, acts[..k]);
            Fated(s, Run(ent, acts), s.endpoints[acts[k].src], ent, acts[k].src, acts[k].dst, acts[k].msg)
  {
    hide Run, Inv, Fated, Silent, Send, Unheard;
    var s := Run(ent, acts[..k]);
    var t := Run(ent, acts[..k + 1]);
    RunInv(ent, acts[..k]);
    NotYetSent(s, ent);
    NetCursor(s, ent);
    SendTold(s, ent, acts[k].src, acts[k].dst, acts[k].msg);
    assert acts[..k + 1] == acts[..k] + [acts[k]];
    RunMore(ent, acts[..k], acts[k]);
    OneMoreSend(s, ent, acts[k].src, acts[k].dst, acts[k].msg);
    RunSilent(ent, acts, k + 1, |s.sends|);
    ToldLater(s, t, Run(ent, acts), s.endpoints[acts[k].src], ent, acts[k].src, acts[k].dst, acts[k].msg);
  }

  lemma NetCursor(s: Sys, ent: Entropy)
    requires Inv(s, ent)
    ensures s.netDraw == |s.sends|
  {
    hide Held, Follows, Registers, Queues, Truth, NetBook.Told;
  }

  lemma OneMoreSend(s: Sys, ent: Entropy, src: Addr, dst: Addr, msg: Message)
    requires EventuallySplits(ent) && src in s.endpoints
    ensures Apply(s, ent, DoSend(src, dst, msg)) == Send(s, ent, src, dst, msg) && |Send(s, ent, src, dst, msg).sends| == |s.sends| + 1
  {
    hide EventuallySplits, Insert, Latency, LinkClock, CallAt, Lost;
  }
}
