/** The agenda against the record of every timer made: nothing on the agenda is unknown, and nothing
    that lasts goes missing. */
module NetTimers {
  import opened Agendas
  import opened AgendaMembers
  import opened NetModel
  import opened NetMachine

  ghost predicate Known(a: Agenda<Callback>, made: seq<Timer<Callback>>, t: Timer<Callback>) {
    t.order < |made| && made[t.order] == t
  }

  ghost predicate Held(a: Agenda<Callback>, made: seq<Timer<Callback>>) {
    && Good(a) && |made| == a.nextSeq
    && (forall k :: 0 <= k < |made| ==> made[k].order == k && made[k].setAt <= a.now)
    && (forall t :: InAgenda(a, t) ==> Known(a, made, t))
    && (forall k :: 0 <= k < |made| && Lasting(made[k].what) ==> InAgenda(a, made[k]))
  }

  /** The timer with this sequence number has fired and been taken. */
  ghost predicate Took(taken: seq<Taken<Callback>>, k: nat) {
    exists i :: 0 <= i < |taken| && TookAs(taken[i], k)
  }

  ghost predicate TookAs(e: Taken<Callback>, k: nat) {
    e.entry.Fired? && e.entry.timer.order == k
  }

  lemma HeldSchedule(a: Agenda<Callback>, made: seq<Timer<Callback>>, when: Deadline, what: Callback)
    requires Held(a, made)
    ensures Held(CallAt(a, when, what), made + [Timer(when, a.nextSeq, a.now, what)])
  {
    hide Good, InAgenda, WasTaken;
    CallAtGood(a, when, what);
  }

  lemma HeldSoon(a: Agenda<Callback>, made: seq<Timer<Callback>>, what: Callback)
    requires Held(a, made)
    ensures Held(CallSoon(a, what), made)
  {
    hide Good, InAgenda, WasTaken;
    CallSoonGood(a, what);
  }

  lemma HeldCancel(a: Agenda<Callback>, made: seq<Timer<Callback>>, what: Callback)
    requires Held(a, made) && !Lasting(what)
    ensures Held(Cancel(a, what), made)
  {
    hide Good, InAgenda, WasTaken;
    CancelGood(a, what);
  }

  lemma HeldJump(a: Agenda<Callback>, made: seq<Timer<Callback>>)
    requires Held(a, made) && a.ready == [] && CanJump(a)
    ensures Held(Jump(a), made)
  {
    hide Good, InAgenda, WasTaken;
    JumpGood(a);
  }

  lemma HeldFire(a: Agenda<Callback>, made: seq<Timer<Callback>>)
    requires Held(a, made)
    ensures Held(FireDue(a), made)
  {
    hide Good, InAgenda, WasTaken, FireDue;
    FireDueGood(a);
  }

  lemma HeldTake(a: Agenda<Callback>, made: seq<Timer<Callback>>)
    requires Held(a, made) && a.ready != []
    ensures Held(Take(a, true), made)
  {
    hide Good, InAgenda, WasTaken;
    TakeGood(a, true);
  }

  lemma TookIsTaken(a: Agenda<Callback>, made: seq<Timer<Callback>>, k: nat)
    requires Held(a, made) && k < |made|
    ensures Took(a.taken, k) <==> WasTaken(a, made[k])
  {
    if Took(a.taken, k) {
      var i :| 0 <= i < |a.taken| && TookAs(a.taken[i], k);
      var t := a.taken[i].entry.timer;
      assert WasTaken(a, t);
      TakenInLine(a, t);
      assert Known(a, made, t);
    }
    if WasTaken(a, made[k]) {
      var i :| 0 <= i < |a.taken| && a.taken[i].entry == Fired(made[k]);
      assert TookAs(a.taken[i], k);
    }
  }

  /** What is known of the timer at the head of the ready queue. */
  lemma HeadKnown(a: Agenda<Callback>, made: seq<Timer<Callback>>)
    requires Held(a, made) && a.ready != [] && a.ready[0].Fired?
    ensures var t := a.ready[0].timer; t.order < |made| && made[t.order] == t && !Took(a.taken, t.order)
    ensures var t := a.ready[0].timer; t.when != Never && a.now == FireTime(t)
  {
    var t := a.ready[0].timer;
    assert Line(a)[|a.taken|] == Fired(t);
    assert InAgenda(a, t) && Known(a, made, t);
    TakeGood(a, true);
    TookIsTaken(a, made, t.order);
    HeadOnTime(a, t);
  }

  lemma TookAfterTake(taken: seq<Taken<Callback>>, e: Taken<Callback>, k: nat)
    ensures Took(taken + [e], k) <==> Took(taken, k) || TookAs(e, k)
  {
    if Took(taken, k) {
      var i :| 0 <= i < |taken| && TookAs(taken[i], k);
      assert TookAs((taken + [e])[i], k);
    }
    if TookAs(e, k) {
      assert TookAs((taken + [e])[|taken|], k);
    }
  }

  /** If a timer has been taken, so has every lasting one it must not overtake. */
  lemma TookBefore(a: Agenda<Callback>, made: seq<Timer<Callback>>, k: nat, j: nat)
    requires Held(a, made) && j < k < |made| && Took(a.taken, k)
    requires NoLater(made[j].when, made[k].when) && Lasting(made[j].what)
    ensures Took(a.taken, j)
  {
    TookIsTaken(a, made, k);
    TookIsTaken(a, made, j);
    var t, u := made[k], made[j];
    var i :| 0 <= i < |a.taken| && a.taken[i].entry == Fired(t);
    assert Line(a)[i] == Fired(t) && Fired(t) in Line(a);
    assert Overtakes(t, u);
    assert u !in a.timers;
    var l :| 0 <= l < |Line(a)| && Line(a)[l] == Fired(u);
    NotAfter(a, i, l);
    assert a.taken[l].entry == Fired(u);
  }

  /** Two taken timers that must not overtake each other were taken in that order. */
  lemma TookInOrder(a: Agenda<Callback>, made: seq<Timer<Callback>>, i: nat, l: nat)
    requires Held(a, made) && i < |a.taken| && l < |a.taken| && a.taken[i].entry.Fired? && a.taken[l].entry.Fired?
    requires Overtakes(a.taken[i].entry.timer, a.taken[l].entry.timer)
    ensures l <= i
  {
    assert Line(a)[i] == a.taken[i].entry && Line(a)[l] == a.taken[l].entry;
    NotAfter(a, i, l);
  }

  lemma TookOnce(a: Agenda<Callback>, made: seq<Timer<Callback>>, i: nat, l: nat)
    requires Held(a, made) && i < |a.taken| && l < |a.taken| && a.taken[i].entry.Fired? && a.taken[l].entry.Fired?
    requires a.taken[i].entry.timer.order == a.taken[l].entry.timer.order
    ensures i == l
  {
    assert Line(a)[i] == a.taken[i].entry && Line(a)[l] == a.taken[l].entry;
    OnePlace(a, i, l);
  }
}
