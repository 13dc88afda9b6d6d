/** The virtual-time agenda the loop promises (src/seedloop/_loop.py): a clock, the timers still to
    fire in `(when, seq)` order, the FIFO ready queue, and what has been taken off that queue.

    Here a cancelled timer is gone at once. The real loop leaves it in its heap as a tombstone; that
    the two agree is what `EventLoop` proves. `C` is whatever a timer stands for. */
module Agendas {
  import opened Common

  /** A Python float as a time argument. */
  datatype Num = Real(r: real) | PosInf | NegInf | NaN

  /** A deadline a timer can have: minus infinity, a moment, or plus infinity. */
  datatype Deadline = Past | At(t: real) | Never

  function ToDeadline(n: Num): Option<Deadline> {
    match n
    case Real(r) => Some(At(r))
    case PosInf => Some(Never)
    case NegInf => Some(Past)
    case NaN => None
  }

  function After(now: real, delay: Num): Num {
    if delay.Real? then Real(now + delay.r) else delay
  }

  predicate DueBy(d: Deadline, now: real) {
    match d
    case Past => true
    case At(t) => t <= now
    case Never => false
  }

  predicate NoLater(d: Deadline, e: Deadline) {
    match d
    case Past => true
    case At(t) => e.Never? || (e.At? && t <= e.t)
    case Never => e.Never?
  }

  function Max(x: real, y: real): real { if x >= y then x else y }

  /** `order` is the loop's timer sequence number; `setAt` is the clock when the timer was created. */
  datatype Timer<C> = Timer(when: Deadline, order: nat, setAt: real, what: C)

  datatype Entry<C> = Soon(what: C) | Fired(timer: Timer<C>)

  /** An entry taken off the ready queue; `run` is false if it had been cancelled by then. */
  datatype Taken<C> = Taken(entry: Entry<C>, clock: real, run: bool)

  datatype Agenda<C> = Agenda(now: real, timers: seq<Timer<C>>, nextSeq: nat, ready: seq<Entry<C>>, taken: seq<Taken<C>>)

  // ---- the heap, as the sequence its pops would produce -----------------------------------------

  predicate Before<C>(t: Timer<C>, u: Timer<C>) {
    NoLater(t.when, u.when) && (t.when == u.when ==> t.order < u.order)
  }

  ghost predicate Sorted<C>(ts: seq<Timer<C>>) {
    forall i, j :: 0 <= i < j < |ts| ==> Before(ts[i], ts[j])
  }

  function Insert<C>(ts: seq<Timer<C>>, t: Timer<C>): seq<Timer<C>> {
    if ts == [] || Before(t, ts[0]) then [t] + ts else [ts[0]] + Insert(ts[1..], t)
  }

  lemma {:induction false} InsertMembers<C>(ts: seq<Timer<C>>, t: Timer<C>)
    ensures forall u :: u in Insert(ts, t) <==> u in ts || u == t
    ensures |Insert(ts, t)| == |ts| + 1
  {
    if ts != [] && !Before(t, ts[0]) {
      InsertMembers(ts[1..], t);
      assert ts == [ts[0]] + ts[1..];
    }
  }

  lemma InsertedFrom<C>(ts: seq<Timer<C>>, t: Timer<C>, u: Timer<C>)
    requires u in Insert(ts, t)
    ensures u in ts || u == t
  {
    InsertMembers(ts, t);
  }

  lemma HeadFirst<C>(ts: seq<Timer<C>>, u: Timer<C>)
    requires ts != [] && Sorted(ts) && u in ts[1..]
    ensures Before(ts[0], u)
  {
    var i :| 0 <= i < |ts| - 1 && ts[1..][i] == u;
    assert ts[i + 1] == u;
  }

  lemma {:induction false} InsertSorted<C>(ts: seq<Timer<C>>, t: Timer<C>)
    requires Sorted(ts) && forall u :: u in ts ==> u.order != t.order
    ensures Sorted(Insert(ts, t))
  {
    if ts != [] && !Before(t, ts[0]) {
      assert forall u :: u in ts[1..] ==> u in ts;
      InsertSorted(ts[1..], t);
      InsertMembers(ts[1..], t);
      var rest := Insert(ts[1..], t);
      forall k | 0 <= k < |rest| ensures Before(ts[0], rest[k]) {
        var u := rest[k];
        InsertedFrom(ts[1..], t, u);
        if u != t {
          HeadFirst(ts, u);
        }
      }
    }
  }

  // ---- operations -----------------------------------------------------------------------------------

  function CallAt<C>(a: Agenda<C>, when: Deadline, what: C): Agenda<C> {
    a.(timers := Insert(a.timers, Timer(when, a.nextSeq, a.now, what)), nextSeq := a.nextSeq + 1)
  }

  function CallSoon<C>(a: Agenda<C>, what: C): Agenda<C> {
    a.(ready := a.ready + [Soon(what)])
  }

  /** Cancelling removes the timer at once. */
  function Without<C(==)>(ts: seq<Timer<C>>, what: C): seq<Timer<C>> {
    if ts == [] then []
    else if ts[0].what == what then Without(ts[1..], what)
    else [ts[0]] + Without(ts[1..], what)
  }

  function Cancel<C(==)>(a: Agenda<C>, what: C): Agenda<C> {
    a.(timers := Without(a.timers, what))
  }

  /** Is there a timer the clock could jump to? */
  predicate CanJump<C>(a: Agenda<C>) {
    a.timers != [] && a.timers[0].when != Never
  }

  function Jump<C>(a: Agenda<C>): Agenda<C>
    requires CanJump(a)
  {
    var d := a.timers[0].when;
    if d.At? then a.(now := Max(a.now, d.t)) else a
  }

  function FireOne<C>(a: Agenda<C>): Agenda<C>
    requires a.timers != []
  {
    a.(timers := a.timers[1..], ready := a.ready + [Fired(a.timers[0])])
  }

  /** Move every due timer to the ready queue, in heap order. */
  function FireDue<C>(a: Agenda<C>): Agenda<C>
    decreases |a.timers|
  {
    if a.timers != [] && DueBy(a.timers[0].when, a.now) then
      FireDue(FireOne(a))
    else a
  }

  function Take<C>(a: Agenda<C>, run: bool): Agenda<C>
    requires a.ready != []
  {
    a.(ready := a.ready[1..], taken := a.taken + [Taken(a.ready[0], a.now, run)])
  }

  // ---- what every operation keeps -----------------------------------------------------------------------

  /** When an uncancelled timer must fire: its deadline, or the moment it was set if that is later. */
  function FireTime<C>(t: Timer<C>): real
    requires t.when != Never
  {
    match t.when
    case Past => t.setAt
    case At(x) => Max(x, t.setAt)
  }

  ghost predicate Pending<C>(t: Timer<C>, a: Agenda<C>) {
    && t.order < a.nextSeq && t.setAt <= a.now
    && (t.when != Never ==> a.now <= FireTime(t))
  }

  ghost predicate OnTime<C>(e: Entry<C>, clock: real, nextSeq: nat) {
    e.Fired? ==> e.timer.order < nextSeq && e.timer.when != Never && clock == FireTime(e.timer)
  }

  /** `u` should have fired before `t` did: an earlier deadline (or the same) and created earlier. */
  ghost predicate Overtakes<C>(t: Timer<C>, u: Timer<C>) {
    NoLater(u.when, t.when) && u.order < t.order
  }

  /** Everything fired so far, in order: what was taken, then what is ready. */
  ghost function Line<C>(a: Agenda<C>): seq<Entry<C>> {
    seq(|a.taken|, i requires 0 <= i < |a.taken| => a.taken[i].entry) + a.ready
  }

  ghost predicate InOrder<C>(line: seq<Entry<C>>) {
    forall i, j :: 0 <= i < j < |line| && line[i].Fired? && line[j].Fired? ==> !Overtakes(line[i].timer, line[j].timer)
  }

  ghost predicate AgendaInv<C>(a: Agenda<C>) {
    && Sorted(a.timers)
    && (forall t :: t in a.timers ==> Pending(t, a))
    && (forall i :: 0 <= i < |a.ready| ==> OnTime(a.ready[i], a.now, a.nextSeq))
    && (forall i :: 0 <= i < |a.taken| ==> OnTime(a.taken[i].entry, a.taken[i].clock, a.nextSeq) && a.taken[i].clock <= a.now)
    && InOrder(Line(a))
    && (forall e, t :: e in Line(a) && e.Fired? && t in a.timers ==> !Overtakes(e.timer, t))
  }

  lemma LineMembers<C>(a: Agenda<C>)
    requires AgendaInv(a)
    ensures forall e :: e in Line(a) && e.Fired? ==> e.timer.order < a.nextSeq
  {
    forall e | e in Line(a) && e.Fired?
      ensures e.timer.order < a.nextSeq
    {
      var i :| 0 <= i < |Line(a)| && Line(a)[i] == e;
      if i < |a.taken| {
        assert a.taken[i].entry == e;
      } else {
        assert a.ready[i - |a.taken|] == e;
      }
    }
  }

  lemma CallAtInv<C>(a: Agenda<C>, when: Deadline, what: C)
    requires AgendaInv(a)
    ensures AgendaInv(CallAt(a, when, what))
  {
    var t := Timer(when, a.nextSeq, a.now, what);
    InsertMembers(a.timers, t);
    InsertSorted(a.timers, t);
    LineMembers(a);
    assert Line(CallAt(a, when, what)) == Line(a);
  }

  lemma CallSoonInv<C>(a: Agenda<C>, what: C)
    requires AgendaInv(a)
    ensures AgendaInv(CallSoon(a, what))
  {
    assert Line(CallSoon(a, what)) == Line(a) + [Soon(what)];
  }

  lemma {:induction false} WithoutMembers<C>(ts: seq<Timer<C>>, what: C)
    ensures forall u :: u in Without(ts, what) <==> u in ts && u.what != what
  {
    if ts != [] {
      WithoutMembers(ts[1..], what);
      assert ts == [ts[0]] + ts[1..];
    }
  }

  lemma KeptFrom<C>(ts: seq<Timer<C>>, what: C, u: Timer<C>)
    requires u in Without(ts, what)
    ensures u in ts && u.what != what
  {
    WithoutMembers(ts, what);
  }

  lemma {:induction false} WithoutSorted<C>(ts: seq<Timer<C>>, what: C)
    requires Sorted(ts)
    ensures Sorted(Without(ts, what))
  {
    if ts != [] {
      WithoutSorted(ts[1..], what);
      WithoutMembers(ts[1..], what);
      var rest := Without(ts[1..], what);
      forall k | 0 <= k < |rest| ensures Before(ts[0], rest[k]) {
        var u := rest[k];
        KeptFrom(ts[1..], what, u);
        HeadFirst(ts, u);
      }
    }
  }

  lemma CancelInv<C>(a: Agenda<C>, what: C)
    requires AgendaInv(a)
    ensures AgendaInv(Cancel(a, what))
  {
    WithoutMembers(a.timers, what);
    WithoutSorted(a.timers, what);
    assert Line(Cancel(a, what)) == Line(a);
  }

  /** The clock only moves when nothing is ready, and never past a timer that is still to fire. */
  lemma JumpInv<C>(a: Agenda<C>)
    requires AgendaInv(a) && a.ready == [] && CanJump(a)
    ensures AgendaInv(Jump(a)) && a.now <= Jump(a).now
    ensures forall t :: t in a.timers && t.when != Never ==> Jump(a).now <= FireTime(t)
  {
    var b := Jump(a);
    assert Line(b) == Line(a);
    forall t | t in a.timers && t.when != Never ensures b.now <= FireTime(t) {
      var i :| 0 <= i < |a.timers| && a.timers[i] == t;
      assert i > 0 ==> Before(a.timers[0], t);
    }
  }

  lemma FireOneInv<C>(a: Agenda<C>)
    requires AgendaInv(a) && a.timers != [] && DueBy(a.timers[0].when, a.now)
    ensures AgendaInv(FireOne(a)) && Line(FireOne(a)) == Line(a) + [Fired(a.timers[0])]
  {
    var t := a.timers[0];
    var b := FireOne(a);
    assert Line(b) == Line(a) + [Fired(t)];
    assert t in a.timers;
    assert forall u :: u in b.timers ==> u in a.timers;
    LineMembers(a);
    forall e, u | e in Line(b) && e.Fired? && u in b.timers
      ensures !Overtakes(e.timer, u)
    {
      if e == Fired(t) {
        HeadFirst(a.timers, u);
      }
    }
    forall i | 0 <= i < |Line(a)| && Line(a)[i].Fired?
      ensures !Overtakes(Line(a)[i].timer, t)
    {
      assert Line(a)[i] in Line(a);
    }
  }

  /** Firing moves the due timers, unchanged and in order, to the end of the ready queue. */
  lemma {:induction false} FireDueInv<C>(a: Agenda<C>)
    requires AgendaInv(a)
    ensures AgendaInv(FireDue(a)) && FireDue(a).now == a.now && FireDue(a).taken == a.taken
    decreases |a.timers|
  {
    if a.timers != [] && DueBy(a.timers[0].when, a.now) {
      FireOneInv(a);
      FireDueInv(FireOne(a));
    }
  }

  /** ... and leaves exactly the timers that are not due. */
  lemma {:induction false} FireDueSplits<C>(a: Agenda<C>)
    requires Sorted(a.timers)
    ensures forall t :: t in FireDue(a).timers <==> t in a.timers && !DueBy(t.when, a.now)
    ensures forall t :: t in a.timers && DueBy(t.when, a.now) ==> Fired(t) in FireDue(a).ready
    ensures a.ready <= FireDue(a).ready
    decreases |a.timers|
  {
    if a.timers != [] {
      assert a.timers == [a.timers[0]] + a.timers[1..];
      if DueBy(a.timers[0].when, a.now) {
        FireDueSplits(FireOne(a));
        assert Fired(a.timers[0]) in FireOne(a).ready;
      } else {
        forall u | u in a.timers[1..] ensures !DueBy(u.when, a.now) {
          HeadFirst(a.timers, u);
        }
      }
    }
  }

  lemma TakeInv<C>(a: Agenda<C>, run: bool)
    requires AgendaInv(a) && a.ready != []
    ensures AgendaInv(Take(a, run)) && Line(Take(a, run)) == Line(a)
  {
    assert Line(Take(a, run)) == Line(a);
  }

  // ---- what that means for a run -----------------------------------------------------------------------

  /** Exact virtual time: a timer that ran did so with the clock at max(its deadline, when it was set). */
  lemma RanOnTime<C>(a: Agenda<C>, i: nat)
    requires AgendaInv(a) && i < |a.taken| && a.taken[i].entry.Fired?
    ensures a.taken[i].entry.timer.when != Never && a.taken[i].clock == FireTime(a.taken[i].entry.timer)
  {
  }

  /** If timer 1 has no later a deadline than timer 2 and was created first, it fires first. */
  lemma FiresInOrder<C>(a: Agenda<C>, i: nat, j: nat)
    requires AgendaInv(a) && i < |Line(a)| && j < |Line(a)| && Line(a)[i].Fired? && Line(a)[j].Fired?
    requires var t, u := Line(a)[i].timer, Line(a)[j].timer; NoLater(t.when, u.when) && t.order < u.order
    ensures i < j
  {
  }

  /** ... and while the later one has fired, the earlier one is not still waiting. */
  lemma NotLeftBehind<C>(a: Agenda<C>, t: Timer<C>, j: nat)
    requires AgendaInv(a) && t in a.timers && j < |Line(a)| && Line(a)[j].Fired?
    ensures !(NoLater(t.when, Line(a)[j].timer.when) && t.order < Line(a)[j].timer.order)
  {
    assert Line(a)[j] in Line(a);
  }
}
