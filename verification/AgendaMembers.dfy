/** Which timers an agenda has ever held, which of them have been taken, and in what order. */
module AgendaMembers {
  import opened Agendas

  /** The timer is waiting, ready or already taken. */
  ghost predicate InAgenda<C>(a: Agenda<C>, t: Timer<C>) {
    t in a.timers || Fired(t) in Line(a)
  }

  ghost predicate WasTaken<C>(a: Agenda<C>, t: Timer<C>) {
    exists i :: 0 <= i < |a.taken| && a.taken[i].entry == Fired(t)
  }

  /** No timer is in two places. */
  ghost predicate Unique<C>(a: Agenda<C>) {
    && (forall i, j :: 0 <= i < j < |a.timers| ==> a.timers[i].order != a.timers[j].order)
    && (forall i, j :: 0 <= i < j < |Line(a)| && Line(a)[i].Fired? && Line(a)[j].Fired? ==> Line(a)[i].timer.order != Line(a)[j].timer.order)
    && (forall e, t :: e in Line(a) && e.Fired? && t in a.timers ==> e.timer.order != t.order)
  }

  ghost predicate Good<C>(a: Agenda<C>) {
    AgendaInv(a) && Unique(a)
  }

  lemma OnePlace<C>(a: Agenda<C>, i: nat, j: nat)
    requires Unique(a) && i < |Line(a)| && j < |Line(a)| && Line(a)[i].Fired? && Line(a)[j].Fired?
    requires Line(a)[i].timer.order == Line(a)[j].timer.order
    ensures i == j
  {
  }

  lemma NotAfter<C>(a: Agenda<C>, i: nat, j: nat)
    requires AgendaInv(a) && i < |Line(a)| && j < |Line(a)| && Line(a)[i].Fired? && Line(a)[j].Fired?
    requires Overtakes(Line(a)[i].timer, Line(a)[j].timer)
    ensures j <= i
  {
  }

  lemma TakenInLine<C>(a: Agenda<C>, t: Timer<C>)
    requires WasTaken(a, t)
    ensures Fired(t) in Line(a) && InAgenda(a, t)
  {
    var i :| 0 <= i < |a.taken| && a.taken[i].entry == Fired(t);
    assert Line(a)[i] == Fired(t);
  }

  // ---- operations ---------------------------------------------------------------------------------------

  lemma {:induction false} InsertDistinct<C>(ts: seq<Timer<C>>, t: Timer<C>)
    requires forall i, j :: 0 <= i < j < |ts| ==> ts[i].order != ts[j].order
    requires forall u :: u in ts ==> u.order != t.order
    ensures var r := Insert(ts, t); forall i, j :: 0 <= i < j < |r| ==> r[i].order != r[j].order
  {
    if ts == [] || Before(t, ts[0]) {
      assert forall i :: 0 <= i < |ts| ==> ts[i] in ts;
    } else {
      assert forall u :: u in ts[1..] ==> u in ts;
      InsertDistinct(ts[1..], t);
      var rest := Insert(ts[1..], t);
      forall k | 0 <= k < |rest| ensures rest[k].order != ts[0].order {
        var u := rest[k];
        InsertedFrom(ts[1..], t, u);
        if u != t {
          var m :| 0 <= m < |ts| - 1 && ts[1..][m] == u;
          assert ts[m + 1] == u;
        }
      }
    }
  }

  lemma CallAtGood<C>(a: Agenda<C>, when: Deadline, what: C)
    requires Good(a)
    ensures Good(CallAt(a, when, what))
    ensures forall t :: InAgenda(CallAt(a, when, what), t) <==> InAgenda(a, t) || t == Timer(when, a.nextSeq, a.now, what)
    ensures forall t :: WasTaken(CallAt(a, when, what), t) <==> WasTaken(a, t)
  {
    var t := Timer(when, a.nextSeq, a.now, what);
    var b := CallAt(a, when, what);
    CallAtInv(a, when, what);
    InsertMembers(a.timers, t);
    InsertDistinct(a.timers, t);
    assert Line(b) == Line(a);
    LineMembers(a);
  }

  lemma CallSoonGood<C>(a: Agenda<C>, what: C)
    requires Good(a)
    ensures Good(CallSoon(a, what))
    ensures forall t :: InAgenda(CallSoon(a, what), t) <==> InAgenda(a, t)
    ensures forall t :: WasTaken(CallSoon(a, what), t) <==> WasTaken(a, t)
  {
    CallSoonInv(a, what);
    assert Line(CallSoon(a, what)) == Line(a) + [Soon(what)];
  }

  lemma {:induction false} WithoutDistinct<C>(ts: seq<Timer<C>>, what: C)
    requires forall i, j :: 0 <= i < j < |ts| ==> ts[i].order != ts[j].order
    ensures var r := Without(ts, what); forall i, j :: 0 <= i < j < |r| ==> r[i].order != r[j].order
  {
    if ts != [] {
      WithoutDistinct(ts[1..], what);
      var rest := Without(ts[1..], what);
      forall k | 0 <= k < |rest| ensures rest[k].order != ts[0].order {
        var u := rest[k];
        KeptFrom(ts[1..], what, u);
        var m :| 0 <= m < |ts| - 1 && ts[1..][m] == u;
        assert ts[m + 1] == u;
      }
    }
  }

  lemma CancelGood<C>(a: Agenda<C>, what: C)
    requires Good(a)
    ensures Good(Cancel(a, what))
    ensures forall t :: InAgenda(Cancel(a, what), t) ==> InAgenda(a, t)
    ensures forall t :: InAgenda(a, t) && t.what != what ==> InAgenda(Cancel(a, what), t)
    ensures forall t :: WasTaken(Cancel(a, what), t) <==> WasTaken(a, t)
  {
    CancelInv(a, what);
    WithoutMembers(a.timers, what);
    WithoutDistinct(a.timers, what);
    assert Line(Cancel(a, what)) == Line(a);
  }

  lemma JumpGood<C>(a: Agenda<C>)
    requires Good(a) && a.ready == [] && CanJump(a)
    ensures Good(Jump(a)) && a.now <= Jump(a).now
    ensures forall t :: InAgenda(Jump(a), t) <==> InAgenda(a, t)
    ensures forall t :: WasTaken(Jump(a), t) <==> WasTaken(a, t)
  {
    JumpInv(a);
    assert Line(Jump(a)) == Line(a);
  }

  lemma FireOneGood<C>(a: Agenda<C>)
    requires Good(a) && a.timers != [] && DueBy(a.timers[0].when, a.now)
    ensures Good(FireOne(a))
    ensures forall t :: InAgenda(FireOne(a), t) <==> InAgenda(a, t)
    ensures forall t :: WasTaken(FireOne(a), t) <==> WasTaken(a, t)
  {
    FireOneInv(a);
    var b := FireOne(a);
    var t := a.timers[0];
    assert a.timers == [t] + b.timers;
    assert t in a.timers;
    assert forall i :: 0 <= i < |b.timers| ==> b.timers[i] == a.timers[i + 1];
    forall e, u | e in Line(b) && e.Fired? && u in b.timers ensures e.timer.order != u.order {
      var i :| 0 <= i < |b.timers| && b.timers[i] == u;
      assert a.timers[0].order != a.timers[i + 1].order;
    }
    assert forall e :: e in Line(b) <==> e in Line(a) || e == Fired(t);
  }

  lemma {:induction false} FireDueGood<C>(a: Agenda<C>)
    requires Good(a)
    ensures Good(FireDue(a)) && FireDue(a).now == a.now && FireDue(a).taken == a.taken && FireDue(a).nextSeq == a.nextSeq
    ensures forall t :: InAgenda(FireDue(a), t) <==> InAgenda(a, t)
    ensures forall t :: WasTaken(FireDue(a), t) <==> WasTaken(a, t)
    decreases |a.timers|
  {
    hide Good, InAgenda, WasTaken;
    if a.timers != [] && DueBy(a.timers[0].when, a.now) {
      FireOneGood(a);
      FireDueGood(FireOne(a));
    }
  }

  lemma TakeGood<C>(a: Agenda<C>, run: bool)
    requires Good(a) && a.ready != []
    ensures Good(Take(a, run))
    ensures forall t :: InAgenda(Take(a, run), t) <==> InAgenda(a, t)
    ensures forall t :: WasTaken(Take(a, run), t) <==> WasTaken(a, t) || a.ready[0] == Fired(t)
    ensures a.ready[0].Fired? ==> !WasTaken(a, a.ready[0].timer)
  {
    TakeInv(a, run);
    var b := Take(a, run);
    forall t ensures WasTaken(b, t) <==> WasTaken(a, t) || a.ready[0] == Fired(t) {
      if WasTaken(a, t) {
        var i :| 0 <= i < |a.taken| && a.taken[i].entry == Fired(t);
        assert b.taken[i].entry == Fired(t);
      }
      if a.ready[0] == Fired(t) {
        assert b.taken[|a.taken|].entry == Fired(t);
      }
    }
    if a.ready[0].Fired? && WasTaken(a, a.ready[0].timer) {
      var i :| 0 <= i < |a.taken| && a.taken[i].entry == a.ready[0];
      OnePlace(a, i, |a.taken|);
      assert false;
    }
  }

  /** When a timer is next to be taken, every timer it must not overtake has been taken before it. */
  lemma EarlierTaken<C>(a: Agenda<C>, t: Timer<C>, u: Timer<C>)
    requires Good(a) && a.ready != [] && a.ready[0] == Fired(t) && InAgenda(a, u) && Overtakes(t, u)
    ensures WasTaken(a, u)
  {
    assert Line(a)[|a.taken|] == Fired(t);
    assert Fired(t) in Line(a);
    assert u !in a.timers;
    var i :| 0 <= i < |Line(a)| && Line(a)[i] == Fired(u);
    NotAfter(a, |a.taken|, i);
    assert i != |a.taken|;
    assert a.taken[i].entry == Fired(u);
  }

  /** A timer is taken with the clock at its fire time. */
  lemma HeadOnTime<C>(a: Agenda<C>, t: Timer<C>)
    requires AgendaInv(a) && a.ready != [] && a.ready[0] == Fired(t)
    ensures t.when != Never && a.now == FireTime(t)
  {
    assert OnTime(a.ready[0], a.now, a.nextSeq);
  }
}
