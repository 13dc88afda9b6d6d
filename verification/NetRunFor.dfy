/** `run_for` is all or nothing: one invalid fault and nothing has happened; otherwise every fault is
    committed, in list order, as the caller asked. */
module NetRunFor {
  import opened Common
  import opened Agendas
  import opened NetModel
  import opened NetFaults
  import opened NetBook
  import opened NetTimers
  import opened NetInv
  import opened NetCommits

  lemma FrontValid(bound: set<Addr>, faults: seq<Fault>, seconds: real)
    requires AllValid(bound, faults, seconds) && faults != []
    ensures AllValid(bound, faults[..|faults| - 1], seconds) && ValidFault(bound, faults[|faults| - 1], seconds)
  {
  }

  /** The record i places after `base` is what fault i asked for. */
  ghost predicate HonoursAt(bound: set<Addr>, faults: seq<Fault>, list: seq<FaultRecord>, base: nat, i: nat, now: real, seconds: real)
    requires i < |faults|
  {
    base + i < |list| && Honours(bound, faults[i], list[base + i]) && list[base + i].t == now && list[base + i].seconds == seconds
  }

  lemma {:induction false} CommitAllHonours(s: Sys, ent: Entropy, faults: seq<Fault>, seconds: real)
    requires EventuallySplits(ent) && AllValid(s.endpoints.Keys, faults, seconds) && seconds >= 0.0
    ensures var t := CommitAll(s, ent, faults, seconds);
            && |t.faults| == |s.faults| + |faults| && s.faults <= t.faults && t.agenda.now == s.agenda.now
            && forall i :: 0 <= i < |faults| ==> HonoursAt(s.endpoints.Keys, faults, t.faults, |s.faults|, i, s.agenda.now, seconds)
    decreases |faults|
  {
    hide Honours, Commit, EventuallySplits, AllValid, ValidFault;
    if faults != [] {
      var front := faults[..|faults| - 1];
      FrontValid(s.endpoints.Keys, faults, seconds);
      CommitAllHonours(s, ent, front, seconds);
      var u := CommitAll(s, ent, front, seconds);
      CommitHonours(u, ent, faults[|faults| - 1], seconds);
      var t := CommitAll(s, ent, faults, seconds);
      forall i | 0 <= i < |faults| ensures HonoursAt(s.endpoints.Keys, faults, t.faults, |s.faults|, i, s.agenda.now, seconds) {
        if i < |front| {
          assert HonoursAt(s.endpoints.Keys, front, u.faults, |s.faults|, i, s.agenda.now, seconds);
        }
      }
    }
  }

  lemma {:induction false} CommitAllInv(s: Sys, ent: Entropy, faults: seq<Fault>, seconds: real)
    requires Inv(s, ent) && EventuallySplits(ent) && AllValid(s.endpoints.Keys, faults, seconds) && seconds >= 0.0
    ensures Inv(CommitAll(s, ent, faults, seconds), ent)
    decreases |faults|
  {
    hide Inv, Commit, EventuallySplits, AllValid, ValidFault;
    if faults != [] {
      FrontValid(s.endpoints.Keys, faults, seconds);
      CommitAllInv(s, ent, faults[..|faults| - 1], seconds);
      CommitInv(CommitAll(s, ent, faults[..|faults| - 1], seconds), ent, faults[|faults| - 1], seconds);
    }
  }

  lemma LastTimerMade(b: Book, id: nat)
    requires FaultsTold(b) && id < |b.faults|
    ensures LastTimer(b.faults[id]) < |b.made|
  {
    assert FaultTold(b, id, b.faults[id]);
  }

  /** The call goes on record with the timer it sleeps on. */
  lemma EnterInv(t: Sys, ent: Entropy, from: nat, seconds: real)
    requires Inv(t, ent) && from <= |t.faults| && seconds >= 0.0
    requires forall id :: from <= id < |t.faults| ==> t.faults[id].t == t.agenda.now && t.faults[id].seconds == seconds
    ensures var timer := if seconds > 0.0 then Some(t.agenda.nextSeq) else None;
            var u := t.(calls := t.calls + [RunRecord(t.agenda.now, seconds, from, |t.faults|, timer)]);
            Inv(if seconds > 0.0 then Schedule(u, At(t.agenda.now + seconds), Wake(|t.calls|)) else u, ent)
  {
    hide Registers, Follows, Clocks, Queues, Truth, Insert, Due, TimersTold, SendsTold, TimersInSendOrder;
    var timer := if seconds > 0.0 then Some(t.agenda.nextSeq) else None;
    var c := RunRecord(t.agenda.now, seconds, from, |t.faults|, timer);
    var u := t.(calls := t.calls + [c]);
    var v := if seconds > 0.0 then Schedule(u, At(t.agenda.now + seconds), Wake(|t.calls|)) else u;
    forall id | from <= id < |t.faults| ensures OfCall(t.faults[id], c) {
      LastTimerMade(BookOf(t), id);
    }
    if seconds > 0.0 {
      HeldSchedule(t.agenda, t.made, At(t.agenda.now + seconds), Wake(|t.calls|));
    }
    assert CallTold(BookOf(v), |t.calls|, c);
    ToldGrows(BookOf(t), BookOf(v), ent.net);
    TruthGrows(t.timeline, BookOf(t), BookOf(v));
  }

  lemma RunForInv(s: Sys, ent: Entropy, seconds: Num, faults: seq<Fault>)
    requires Inv(s, ent) && EventuallySplits(ent)
    ensures Inv(RunFor(s, ent, seconds, faults), ent)
  {
    hide Inv, EventuallySplits, AllValid, CommitAll, Schedule;
    if Accepted(s, seconds, faults) {
      var t := CommitAll(s, ent, faults, seconds.r);
      CommitAllInv(s, ent, faults, seconds.r);
      CommitAllHonours(s, ent, faults, seconds.r);
      forall id | |s.faults| <= id < |t.faults| ensures t.faults[id].t == t.agenda.now && t.faults[id].seconds == seconds.r {
        assert HonoursAt(s.endpoints.Keys, faults, t.faults, |s.faults|, id - |s.faults|, s.agenda.now, seconds.r);
      }
      EnterInv(t, ent, |s.faults|, seconds.r);
    }
  }

  /** All or nothing. A bad length or one bad fault anywhere in the list leaves the whole network as
      it was: timeline, "faults" cursor, timers and fault ids. Otherwise the faults are committed in
      list order, each as asked, in this call's window, and nothing else is scheduled before the wake. */
  lemma RunForAllOrNothing(s: Sys, ent: Entropy, seconds: Num, faults: seq<Fault>)
    requires EventuallySplits(ent)
    ensures var t := RunFor(s, ent, seconds, faults);
            if Accepted(s, seconds, faults) then
              && |t.faults| == |s.faults| + |faults| && s.faults <= t.faults
              && (forall i :: 0 <= i < |faults| ==> HonoursAt(s.endpoints.Keys, faults, t.faults, |s.faults|, i, s.agenda.now, seconds.r))
              && |t.calls| == |s.calls| + 1 && t.calls[|s.calls|].from == |s.faults| && t.calls[|s.calls|].upto == |t.faults|
              && t.endpoints == s.endpoints && t.sends == s.sends && t.netDraw == s.netDraw
            else t == s
  {
    hide EventuallySplits, AllValid, CommitAll, Honours;
    if Accepted(s, seconds, faults) {
      CommitAllHonours(s, ent, faults, seconds.r);
    }
  }
}
