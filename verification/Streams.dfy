/** Entropy independence: the "net" stream is spent one draw a send whatever faults do, so loss,
    duplication and the "faults" stream never move the original copy of any message. */
module Streams {
  import opened Agendas
  import opened NetModel
  import opened NetFaults
  import opened NetMachine
  import opened NetBook
  import opened NetTimers
  import opened NetInv
  import opened NetRuns

  /** The same message on the same kind of link at the same time, slowed by the same factor. */
  ghost predicate SameSend(r: SendRecord, s: SendRecord) {
    r.t == s.t && r.src == s.src && r.dst == s.dst && r.reliable == s.reliable
    && SlowFactor(r.slow, {r.src, r.dst}) == SlowFactor(s.slow, {r.src, r.dst})
  }

  ghost predicate SameSends(a: seq<SendRecord>, b: seq<SendRecord>, n: nat) {
    n <= |a| && n <= |b| && forall m :: 0 <= m < n ==> SameSend(a[m], b[m])
  }

  ghost predicate SameDraws(f: nat -> Unit, g: nat -> Unit, n: nat) {
    forall d :: 0 <= d < n ==> f(d) == g(d)
  }

  lemma SameLatency(r: SendRecord, s: SendRecord, f: nat -> Unit, g: nat -> Unit, d: nat)
    requires SameSend(r, s) && f(d) == g(d)
    ensures Latency(f, d, r.slow, r.src, r.dst) == Latency(g, d, s.slow, s.src, s.dst)
  {
    hide SlowFactor;
  }

  lemma {:induction false} SameLastDue(a: seq<SendRecord>, b: seq<SendRecord>, f: nat -> Unit, g: nat -> Unit, link: (Addr, Addr), n: nat)
    requires SameSends(a, b, n) && SameDraws(f, g, n)
    ensures LastDue(a[..n], f, link) == LastDue(b[..n], g, link)
  {
    hide Latency, SlowFactor;
    if n > 0 {
      SameLatency(a[n - 1], b[n - 1], f, g, n - 1);
      SameLastDue(a, b, f, g, link, n - 1);
      assert a[..n][..n - 1] == a[..n - 1] && b[..n][..n - 1] == b[..n - 1];
    }
  }

  lemma SameDue(a: seq<SendRecord>, b: seq<SendRecord>, f: nat -> Unit, g: nat -> Unit, mid: nat)
    requires SameSends(a, b, mid + 1) && SameDraws(f, g, mid + 1)
    ensures Due(a, f, mid) == Due(b, g, mid)
  {
    hide Latency, SlowFactor;
    SameLatency(a[mid], b[mid], f, g, mid);
    SameLastDue(a, b, f, g, (a[mid].src, a[mid].dst), mid + 1);
  }

  lemma OriginalDue(ent: Entropy, acts: seq<Act>, mid: nat)
    requires EventuallySplits(ent) && mid < |Run(ent, acts).sends| && Run(ent, acts).sends[mid].timer.Some?
    ensures var s := Run(ent, acts); var k := s.sends[mid].timer.value;
            k < |s.made| && IsCopy(s.made[k], mid) && !s.made[k].what.extra && s.made[k].when == At(Due(s.sends, ent.net, mid))
  {
    hide Run, Held, Clocks, Follows, Registers, Truth, Queues, TimersTold, TimersInSendOrder, FaultsTold, CallsTold, Due;
    RunInv(ent, acts);
    var s := Run(ent, acts);
    assert SendTold(BookOf(s), mid, s.sends[mid], Due(s.sends, ent.net, mid));
  }

  /** Message `mid` falls due by "net" draw `mid` and no later one: its latency from the send on, and on a
      reliable link not before what was due earlier there. */
  ghost predicate DueByDraw(sends: seq<SendRecord>, net: nat -> Unit, mid: nat, when: Deadline)
    requires mid < |sends|
  {
    var r := sends[mid];
    var alone := r.t + Latency(net, mid, r.slow, r.src, r.dst);
    when == At(if r.reliable then Max(alone, LastDue(sends[..mid], net, (r.src, r.dst))) else alone)
  }

  lemma DueIsByDraw(sends: seq<SendRecord>, net: nat -> Unit, mid: nat)
    requires mid < |sends|
    ensures DueByDraw(sends, net, mid, At(Due(sends, net, mid)))
  {
    assert sends[..mid + 1][..mid] == sends[..mid];
  }

  /** Two runs with any "faults" streams, any loss and duplicate settings and any fault lists: as long as
      they made the same sends at the same times under the same slow links, message `mid` consumes
      "net" draw `mid` in both, and its original copy, wherever neither run dropped it, is due at the
      same moment in both. */
  lemma EntropyIndependence(ent: Entropy, acts: seq<Act>, other: Entropy, acts2: seq<Act>, mid: nat)
    requires EventuallySplits(ent) && EventuallySplits(other) && SameDraws(ent.net, other.net, mid + 1)
    requires SameSends(Run(ent, acts).sends, Run(other, acts2).sends, mid + 1)
    requires Run(ent, acts).sends[mid].timer.Some? && Run(other, acts2).sends[mid].timer.Some?
    ensures var s, t := Run(ent, acts), Run(other, acts2); var k, l := s.sends[mid].timer.value, t.sends[mid].timer.value;
            && k < |s.made| && l < |t.made| && IsCopy(s.made[k], mid) && IsCopy(t.made[l], mid)
            && !s.made[k].what.extra && !t.made[l].what.extra && s.made[k].when == t.made[l].when
            && DueByDraw(s.sends, ent.net, mid, s.made[k].when) && DueByDraw(t.sends, other.net, mid, t.made[l].when)
  {
    hide Run, Due, DueByDraw, EventuallySplits;
    DueIsByDraw(Run(ent, acts).sends, ent.net, mid);
    DueIsByDraw(Run(other, acts2).sends, other.net, mid);
    OriginalDue(ent, acts, mid);
    OriginalDue(other, acts2, mid);
    SameDue(Run(ent, acts).sends, Run(other, acts2).sends, ent.net, other.net, mid);
  }

  /** The "net" cursor counts the sends, and nothing else moves it. */
  lemma OneNetDrawPerSend(ent: Entropy, acts: seq<Act>)
    requires EventuallySplits(ent)
    ensures Run(ent, acts).netDraw == |Run(ent, acts).sends|
  {
    hide Run, Held, Told, Follows, Registers, Truth, Queues;
    RunInv(ent, acts);
  }

  /** The factor of a send is the product over the slow-link windows that the timeline shows open at
      that point: so "the same slow links" is something the timelines say. */
  lemma FactorIsTheTimelines(ent: Entropy, acts: seq<Act>, i: nat)
    requires EventuallySplits(ent) && i < |Run(ent, acts).timeline| && Run(ent, acts).timeline[i].EvSend?
    ensures var s := Run(ent, acts); var e := s.timeline[i];
            IsSend(BookOf(s), e.mid, e.src, e.dst) && s.sends[e.mid].t == e.t && SlowTrue(s.sends[e.mid].slow, s.timeline[..i], s.faults)
  {
    hide Run, SlowTrue;
    EventHolds(ent, acts, i);
  }

  // ---- what a send takes from "faults" ----------------------------------------------------------------------------

  /** Nothing from a reliable endpoint; otherwise one draw if loss is possible, and, unless the message
      was lost, one if duplication is possible and one more for the duplicate's latency. */
  lemma FaultDrawsOfASend(s: Sys, ent: Entropy, src: Addr, dst: Addr, msg: Message)
    requires src in s.endpoints
    ensures var e := s.endpoints[src]; var d := s.faultDraw;
            var used := Send(s, ent, src, dst, msg).faultDraw - d;
            var loses, doubles := e.loss > 0.0, e.duplicate > 0.0;
            && (e.reliable ==> used == 0)
            && (!e.reliable && !loses && !doubles ==> used == 0)
            && (!e.reliable && loses && ent.faults(d) < e.loss ==> used == 1)
            && (!e.reliable && loses && ent.faults(d) >= e.loss && !doubles ==> used == 1)
            && (!e.reliable && !loses && doubles ==> used == if ent.faults(d) < e.duplicate then 2 else 1)
            && (!e.reliable && loses && ent.faults(d) >= e.loss && doubles ==> used == if ent.faults(d + 1) < e.duplicate then 3 else 2)
  {
    hide Insert, Latency, LinkClock, CallAt;
  }

  /** Only sends and accepted `run_for` calls spend "faults". */
  lemma NothingElseSpendsFaults(s: Sys, ent: Entropy, act: Act)
    requires EventuallySplits(ent) && !act.DoSend? && !act.EnterRunFor?
    ensures Apply(s, ent, act).faultDraw == s.faultDraw && Apply(s, ent, act).netDraw == s.netDraw
  {
    hide EventuallySplits, FireDue, Without, Receiver, BindTo, Fire;
  }

  /** If no endpoint can lose or double a message and no faults are asked for, "faults" is never read. */
  ghost predicate NoDice(act: Act) {
    && (act.Bind? ==> act.reliable || (act.loss == Real(0.0) && act.duplicate == Real(0.0)))
    && (act.EnterRunFor? ==> act.list == [])
  }

  ghost predicate Spotless(e: Endpoint) { e.reliable || (e.loss == 0.0 && e.duplicate == 0.0) }

  ghost predicate AllSpotless(s: Sys) {
    s.faultDraw == 0 && forall a :: a in s.endpoints ==> Spotless(s.endpoints[a])
  }

  lemma ApplySpotless(s: Sys, ent: Entropy, act: Act)
    requires EventuallySplits(ent) && AllSpotless(s) && NoDice(act)
    ensures AllSpotless(Apply(s, ent, act))
  {
    hide EventuallySplits, Send, FireDue, Reachable, Insert, Without, DeliveredTo, WithoutSlow;
    if act.DoSend? && act.src in s.endpoints {
      FaultDrawsOfASend(s, ent, act.src, act.dst, act.msg);
    }
  }

  lemma {:induction false} FaultsUntouched(ent: Entropy, acts: seq<Act>)
    requires EventuallySplits(ent) && forall i :: 0 <= i < |acts| ==> NoDice(acts[i])
    ensures AllSpotless(Run(ent, acts))
    decreases |acts|
  {
    hide EventuallySplits, Apply, NoDice, AllSpotless;
    if acts != [] {
      FaultsUntouched(ent, acts[..|acts| - 1]);
      ApplySpotless(Run(ent, acts[..|acts| - 1]), ent, acts[|acts| - 1]);
    } else {
      assert AllSpotless(NewSys) by { NewSpotless(); }
    }
  }

  lemma NewSpotless()
    ensures AllSpotless(NewSys)
  {
  }

  /** A seed that splits at every attempt exists, so nothing here is about no seed at all. */
  lemma SomeSeedSplits()
    ensures exists ent :: EventuallySplits(ent)
  {
    var f: nat -> Unit := (d: nat) => if d % 2 == 0 then 0.0 else 0.9;
    var ent := Entropy(f, f);
    forall n: nat, draw: nat | n >= 2 ensures CanSplit(n, ent, draw) {
      assert Low(ent, draw) != Low(ent, draw + 1);
      assert Splits(n, ent, draw);
      assert draw + 0 * n == draw;
      assert SplitsAtTry(n, ent, draw, 0);
    }
    assert EventuallySplits(ent);
  }
}
