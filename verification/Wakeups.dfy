/** No wake-up of a waiting `recv` is ever lost, and a receiver that is woken gets what was delivered. */
module Wakeups {
  import opened Agendas
  import opened NetModel
  import opened NetFaults
  import opened NetMachine

  ghost predicate NoneMissed(endpoints: map<Addr, Endpoint>) {
    forall a :: a in endpoints && endpoints[a].waiter.Waiting? ==> endpoints[a].queue == []
  }

  lemma TakeWakes(s: Sys)
    requires NoneMissed(s.endpoints) && s.agenda.ready != []
    ensures NoneMissed(TakeOne(s).endpoints)
  {
    hide Reachable, WithoutSlow;
  }

  lemma BindWakes(s: Sys, a: Addr, reliable: bool, loss: Num, duplicate: Num)
    requires NoneMissed(s.endpoints)
    ensures NoneMissed(BindTo(s, a, reliable, loss, duplicate).endpoints)
  {
    hide DeliveredTo;
  }

  lemma ApplyWakes(s: Sys, ent: Entropy, act: Act)
    requires NoneMissed(s.endpoints) && EventuallySplits(ent)
    ensures NoneMissed(Apply(s, ent, act).endpoints)
  {
    hide EventuallySplits, BindTo, Send, TakeOne, RunFor, Schedule, FireDue;
    match act
    case Bind(a, reliable, loss, duplicate) => BindWakes(s, a, reliable, loss, duplicate);
    case TakeNext => if s.agenda.ready != [] { TakeWakes(s); }
    case EnterRunFor(seconds, list) => RunForEndpoints(s, ent, seconds, list);
    case _ =>
  }

  lemma RunForEndpoints(s: Sys, ent: Entropy, seconds: Num, list: seq<Fault>)
    requires EventuallySplits(ent)
    ensures RunFor(s, ent, seconds, list).endpoints == s.endpoints
  {
    hide EventuallySplits, AllValid, CommitAll, Schedule;
  }

  /** In every reachable state a receiver that waits has nothing queued: whatever arrived woke it. */
  lemma {:induction false} NoLostWakeup(ent: Entropy, acts: seq<Act>)
    requires EventuallySplits(ent)
    ensures NoneMissed(Run(ent, acts).endpoints)
    decreases |acts|
  {
    hide EventuallySplits, Apply;
    if acts != [] {
      NoLostWakeup(ent, acts[..|acts| - 1]);
      ApplyWakes(Run(ent, acts[..|acts| - 1]), ent, acts[|acts| - 1]);
    }
  }

  /** A delivery recorded between c and d for this address. */
  ghost predicate Arrived(c: Sys, d: Sys, a: Addr, mid: nat) {
    exists e :: d.timeline == c.timeline + [e] && e.EvDeliver? && e.dst == a && e.mid == mid
  }

  /** A message delivered to an address whose receiver waits is what that `recv` returns when it resumes,
      and the receiver waits no longer, neither before nor after. */
  lemma DeliveredIsReturned(ent: Entropy, acts: seq<Act>, a: Addr, mid: nat)
    requires EventuallySplits(ent)
    requires var c := Run(ent, acts); a in c.endpoints && c.endpoints[a].waiter == Waiting && Arrived(c, Apply(c, ent, TakeNext), a, mid)
    ensures var c := Run(ent, acts);
            var d := Apply(c, ent, TakeNext);
            var r := Apply(d, ent, RecvResume(a));
            && a in d.endpoints && d.endpoints[a].waiter == Woken && d.endpoints[a].returned == c.endpoints[a].returned
            && a in r.endpoints && r.endpoints[a].waiter == Idle && r.endpoints[a].queue == []
            && |r.endpoints[a].returned| == |c.endpoints[a].returned| + 1 && r.endpoints[a].returned[..|c.endpoints[a].returned|] == c.endpoints[a].returned
            && r.endpoints[a].returned[|c.endpoints[a].returned|].mid == mid
  {
    hide EventuallySplits, Run, Reachable, WithoutSlow;
    NoLostWakeup(ent, acts);
    var c := Run(ent, acts);
    var d := Apply(c, ent, TakeNext);
    assert c.agenda.ready != [];
    var e :| d.timeline == c.timeline + [e] && e.EvDeliver? && e.dst == a && e.mid == mid;
    assert d.timeline[|c.timeline|] == e;
  }

  /** A receiver that is not waiting takes the head of the queue at once: when it calls `recv` with
      something queued, and when it resumes after being woken; nothing else takes anything, and only an
      arrival puts anything in. */
  lemma QueueMoves(s: Sys, ent: Entropy, act: Act, a: Addr)
    requires EventuallySplits(ent) && a in s.endpoints
    ensures var t := Apply(s, ent, act); var e := s.endpoints[a];
            && a in t.endpoints
            && var f := t.endpoints[a];
            && (((act == RecvStart(a) && e.waiter == Idle) || (act == RecvResume(a) && e.waiter == Woken)) ==>
                  if e.queue != [] then f.returned == e.returned + [e.queue[0]] && f.queue == e.queue[1..] && f.waiter == Idle
                  else f.returned == e.returned && f.queue == [] && f.waiter == Waiting)
            && (!act.RecvStart? && !act.RecvResume? ==> f.returned == e.returned)
            && ((act == RecvStart(a) && e.waiter != Idle) || (act == RecvResume(a) && e.waiter != Woken) ==> f == e)
            && (f.enqueued != e.enqueued ==> act == TakeNext && exists mid :: Arrived(s, t, a, mid))
            && (act == RecvInterrupt(a) ==> f == e.(waiter := if e.waiter == Waiting then Woken else e.waiter))
            && (act == RecvLeave(a) ==> f == e.(waiter := Idle))
  {
    hide EventuallySplits, BindTo, Send, TakeOne, RunFor, Schedule, FireDue;
    match act
    case Bind(b, reliable, loss, duplicate) => BindKeeps(s, b, reliable, loss, duplicate, a);
    case TakeNext => if s.agenda.ready != [] { TakeKeeps(s, a); }
    case EnterRunFor(seconds, list) => RunForEndpoints(s, ent, seconds, list);
    case _ =>
  }

  lemma BindKeeps(s: Sys, b: Addr, reliable: bool, loss: Num, duplicate: Num, a: Addr)
    requires a in s.endpoints
    ensures var t := BindTo(s, b, reliable, loss, duplicate); a in t.endpoints && t.endpoints[a] == s.endpoints[a]
  {
    hide DeliveredTo;
  }

  lemma TakeKeeps(s: Sys, a: Addr)
    requires a in s.endpoints && s.agenda.ready != []
    ensures var t := TakeOne(s);
            && a in t.endpoints && t.endpoints[a].returned == s.endpoints[a].returned
            && (t.endpoints[a].enqueued != s.endpoints[a].enqueued ==> exists mid :: Arrived(s, t, a, mid))
  {
    hide Reachable, WithoutSlow;
    var t := TakeOne(s);
    if t.endpoints[a].enqueued != s.endpoints[a].enqueued {
      var what := s.agenda.ready[0].timer.what;
      assert t.timeline == s.timeline + [EvDeliver(s.agenda.now, what.mid, what.src, a)];
      assert Arrived(s, t, a, what.mid);
    }
  }
}
