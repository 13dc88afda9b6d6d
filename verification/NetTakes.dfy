/** Taking the next ready entry keeps the network's invariant: deliveries meet exactly the faults that
    are open, and each window opens and closes once, on time, in order. */
module NetTakes {
  import opened Agendas
  import opened NetModel
  import opened NetMachine
  import opened NetBook
  import opened NetTimers
  import opened NetInv

  // ---- what is known of the timer being taken ---------------------------------------------------------------

  /** The head of the ready queue is timer k of the record, not taken before, and this is its moment. */
  ghost predicate Head(s: Sys, k: nat) {
    && s.agenda.ready != [] && k < |s.made| && s.agenda.ready[0] == Fired(s.made[k]) && s.made[k].order == k
    && !Took(s.agenda.taken, k)
    && TimerTold(BookOf(s), k, s.made[k].what) && AheadOf(s.made[k])
    && (!s.made[k].what.User? ==> s.made[k].when == At(s.agenda.now))
  }

  lemma HeadHolds(s: Sys, ent: Entropy) returns (k: nat)
    requires Inv(s, ent) && s.agenda.ready != [] && s.agenda.ready[0].Fired?
    ensures Head(s, k) && s.agenda.ready[0].timer == s.made[k]
  {
    hide Clocks, Follows, Registers, Truth, Queues, Held, Took, SendsTold, TimersInSendOrder, FaultsTold, CallsTold;
    k := s.agenda.ready[0].timer.order;
    HeadKnown(s.agenda, s.made);
    assert TimerTold(BookOf(s), k, s.made[k].what) && AheadOf(s.made[k]);
  }

  /** Timer k is a fault's first timer exactly if that is what it calls. */
  lemma FirstOf(b: Book, id: nat, k: nat)
    requires FaultsTold(b) && id < |b.faults| && k < |b.made|
    ensures b.faults[id].first == k ==> b.made[k].what == BeginWhat(id, b.faults[id].kind)
    ensures !b.faults[id].kind.KCrash? && b.faults[id].first + 1 == k ==> b.made[k].what == EndWhat(id, b.faults[id].kind)
  {
    assert FaultTold(b, id, b.faults[id]);
  }

  // ---- the parts ------------------------------------------------------------------------------------------------

  /** The event says of every fault what taking timer k means for it. */
  ghost predicate Speaks(e: Event, k: nat, faults: seq<FaultRecord>) {
    forall id: nat :: SpeaksOf(e, k, faults, id)
  }

  ghost predicate SpeaksOf(e: Event, k: nat, faults: seq<FaultRecord>, id: nat) {
    && (Begins(e, id) <==> id < |faults| && faults[id].first == k)
    && (Ends(e, id) <==> id < |faults| && !faults[id].kind.KCrash? && faults[id].first + 1 == k)
  }

  lemma FollowsTake(taken: seq<Taken<Callback>>, x: Taken<Callback>, tl: seq<Event>, e: Event, faults: seq<FaultRecord>, k: nat)
    requires Follows(taken, tl, faults) && x.entry.Fired? && x.entry.timer.order == k && Speaks(e, k, faults)
    ensures Follows(taken + [x], tl + [e], faults)
  {
    hide Began, Ended, Took, CrashedIn;
    OneMore(tl, e);
    forall id: nat | Began(tl + [e], id) || Ended(tl + [e], id) ensures id < |faults| {
      assert SpeaksOf(e, k, faults, id);
    }
    forall id | 0 <= id < |faults| ensures FollowsOne(taken + [x], tl + [e], faults[id], id) {
      assert FollowsOne(taken, tl, faults[id], id);
      assert SpeaksOf(e, k, faults, id);
      TookAfterTake(taken, x, faults[id].first);
      TookAfterTake(taken, x, faults[id].first + 1);
    }
  }

  /** A timer that is no fault's: nothing to say. */
  ghost predicate NoFaults(k: nat, faults: seq<FaultRecord>) {
    forall id :: 0 <= id < |faults| ==> faults[id].first != k && (faults[id].kind.KCrash? || faults[id].first + 1 != k)
  }

  lemma FollowsQuiet(taken: seq<Taken<Callback>>, x: Taken<Callback>, tl: seq<Event>, faults: seq<FaultRecord>)
    requires Follows(taken, tl, faults) && (x.entry.Fired? ==> NoFaults(x.entry.timer.order, faults))
    ensures Follows(taken + [x], tl, faults)
  {
    hide Began, Ended, Took, CrashedIn;
    forall id | 0 <= id < |faults| ensures FollowsOne(taken + [x], tl, faults[id], id) {
      assert FollowsOne(taken, tl, faults[id], id);
      TookAfterTake(taken, x, faults[id].first);
      TookAfterTake(taken, x, faults[id].first + 1);
    }
  }

  lemma NotAFault(b: Book, k: nat)
    requires FaultsTold(b) && k < |b.made| && (b.made[k].what.Deliver? || b.made[k].what.User? || b.made[k].what.Wake?)
    ensures NoFaults(k, b.faults)
  {
    hide FaultsTold;
    forall id | 0 <= id < |b.faults| ensures b.faults[id].first != k && (b.faults[id].kind.KCrash? || b.faults[id].first + 1 != k) {
      FirstOf(b, id, k);
    }
  }

  lemma OnlyThisFault(b: Book, k: nat, id: nat, e: Event)
    requires FaultsTold(b) && k < |b.made| && id < |b.faults|
    requires if b.faults[id].first == k then b.made[k].what == BeginWhat(id, b.faults[id].kind) && (forall i: nat :: Begins(e, i) <==> i == id) && (forall i: nat :: !Ends(e, i))
             else !b.faults[id].kind.KCrash? && b.faults[id].first + 1 == k && b.made[k].what == EndWhat(id, b.faults[id].kind)
                  && (forall i: nat :: !Begins(e, i)) && (forall i: nat :: Ends(e, i) <==> i == id)
    ensures Speaks(e, k, b.faults)
  {
    hide FaultsTold, Begins, Ends;
    forall i: nat ensures SpeaksOf(e, k, b.faults, i) {
      if i < |b.faults| {
        FirstOf(b, i, k);
      }
    }
  }

  // ---- windows open before they close, once -------------------------------------------------------------------------

  lemma NotOpenedYet(s: Sys, ent: Entropy, k: nat, id: nat)
    requires Inv(s, ent) && Head(s, k) && id < |s.faults| && s.faults[id].first == k
    ensures !Began(s.timeline, id) && !Ended(s.timeline, id)
  {
    hide Registers, Truth, Queues, Clocks, Began, Ended, Took, AheadOf, TimerTold;
    var f := s.faults[id];
    assert FollowsOne(s.agenda.taken, s.timeline, f, id);
    assert FaultTold(BookOf(s), id, f);
    if Ended(s.timeline, id) {
      TookBefore(s.agenda, s.made, f.first + 1, f.first);
    }
  }

  lemma OpenedAlready(s: Sys, ent: Entropy, k: nat, id: nat)
    requires Inv(s, ent) && Head(s, k) && id < |s.faults| && !s.faults[id].kind.KCrash? && s.faults[id].first + 1 == k
    ensures OpenAt(s.timeline, id)
  {
    hide Registers, Truth, Queues, Clocks, Began, Ended, Took, AheadOf, TimerTold, Held;
    var f := s.faults[id];
    assert FollowsOne(s.agenda.taken, s.timeline, f, id);
    assert FaultTold(BookOf(s), id, f);
    HeldTake(s.agenda, s.made);
    var x := Taken(s.agenda.ready[0], s.agenda.now, true);
    TookAfterTake(s.agenda.taken, x, k);
    TookAfterTake(s.agenda.taken, x, f.first);
    TookBefore(Take(s.agenda, true), s.made, k, f.first);
  }

  // ---- registers ----------------------------------------------------------------------------------------------------

  lemma OpenPartitionRegister(parts: map<nat, Groups>, slow: seq<Slow>, crashed: set<Addr>, tl: seq<Event>, faults: seq<FaultRecord>, e: Event)
    requires Registers(parts, slow, crashed, tl, faults) && e.EvPartitionBegin? && e.id < |faults| && faults[e.id].kind.KPartition?
    requires !Began(tl, e.id) && !Ended(tl, e.id)
    ensures Registers(parts[e.id := faults[e.id].kind.groups], slow, crashed, tl + [e], faults)
  {
    hide Began, Ended, CrashedIn;
    OneMore(tl, e);
    var more := tl + [e];
    var now := parts[e.id := faults[e.id].kind.groups];
    forall id ensures id in now <==> OpenPartition(more, faults, id) {
      assert id in parts <==> OpenPartition(tl, faults, id);
    }
    assert PartitionsTrue(now, more, faults);
    SlowUntouched(slow, tl, faults, e);
    assert CrashesTrue(crashed, more);
  }

  /** Events of partitions and crashes leave the slow links as they are. */
  lemma SlowUntouched(slow: seq<Slow>, tl: seq<Event>, faults: seq<FaultRecord>, e: Event)
    requires SlowTrue(slow, tl, faults) && (e.EvPartitionBegin? || e.EvPartitionHeal? || e.EvCrash?)
    requires e.id < |faults| && !faults[e.id].kind.KSlow?
    ensures SlowTrue(slow, tl + [e], faults)
  {
    hide Began, Ended, CrashedIn;
    OneMore(tl, e);
    forall i | 0 <= i < |slow| ensures SlowEntry(slow[i], tl + [e], faults) {
      assert SlowEntry(slow[i], tl, faults);
    }
    forall id: nat | OpenAt(tl + [e], id) ensures id < |faults| && (faults[id].kind.KSlow? ==> HasSlow(slow, id)) {
      assert id == e.id || OpenAt(tl, id);
    }
  }

  /** Events of slow links and crashes leave the partitions as they are. */
  lemma PartitionsUntouched(parts: map<nat, Groups>, tl: seq<Event>, faults: seq<FaultRecord>, e: Event)
    requires PartitionsTrue(parts, tl, faults) && (e.EvSlowBegin? || e.EvSlowEnd? || e.EvCrash?)
    requires e.id < |faults| && !faults[e.id].kind.KPartition?
    ensures PartitionsTrue(parts, tl + [e], faults)
  {
    hide Began, Ended, CrashedIn;
    OneMore(tl, e);
    forall id ensures id in parts <==> OpenPartition(tl + [e], faults, id) {
      assert id in parts <==> OpenPartition(tl, faults, id);
    }
  }

  lemma ClosePartitionRegister(parts: map<nat, Groups>, slow: seq<Slow>, crashed: set<Addr>, tl: seq<Event>, faults: seq<FaultRecord>, e: Event)
    requires Registers(parts, slow, crashed, tl, faults) && e.EvPartitionHeal? && e.id < |faults| && faults[e.id].kind.KPartition?
    ensures Registers(parts - {e.id}, slow, crashed, tl + [e], faults)
  {
    hide Began, Ended, CrashedIn;
    OneMore(tl, e);
    forall id ensures id in parts - {e.id} <==> OpenPartition(tl + [e], faults, id) {
      assert id in parts <==> OpenPartition(tl, faults, id);
    }
    assert PartitionsTrue(parts - {e.id}, tl + [e], faults);
    SlowUntouched(slow, tl, faults, e);
    assert CrashesTrue(crashed, tl + [e]);
  }

  lemma {:induction false} WithoutAbsent(slow: seq<Slow>, id: nat)
    requires !HasSlow(slow, id)
    ensures WithoutSlow(slow, id) == slow
  {
    if slow != [] {
      assert slow[0].id != id;
      forall i | 0 <= i < |slow| - 1 ensures slow[1..][i].id != id {
        assert slow[i + 1].id != id;
      }
      WithoutAbsent(slow[1..], id);
    }
  }

  ghost predicate DistinctIds(slow: seq<Slow>) {
    forall i, j :: 0 <= i < j < |slow| ==> slow[i].id != slow[j].id
  }

  lemma PrependDistinct(w: Slow, slow: seq<Slow>)
    requires DistinctIds(slow) && forall x :: x in slow ==> x.id != w.id
    ensures DistinctIds([w] + slow)
  {
  }

  /** Removing one id keeps every other entry, in order, once. */
  lemma {:induction false} WithoutKeeps(slow: seq<Slow>, id: nat)
    requires DistinctIds(slow)
    ensures DistinctIds(WithoutSlow(slow, id))
    ensures forall w :: w in WithoutSlow(slow, id) <==> w in slow && w.id != id
  {
    if slow != [] {
      assert slow == [slow[0]] + slow[1..];
      WithoutKeeps(slow[1..], id);
      var r := WithoutSlow(slow[1..], id);
      forall x | x in r ensures x.id != slow[0].id {
        assert x in slow[1..];
        var m :| 0 <= m < |slow| - 1 && slow[1..][m] == x;
        assert slow[m + 1] == x;
      }
      PrependDistinct(slow[0], r);
    }
  }

  /** An open slow link stays on record when another one begins. */
  lemma SlowEntryStays(x: Slow, tl: seq<Event>, faults: seq<FaultRecord>, e: Event)
    requires SlowEntry(x, tl, faults) && e.EvSlowBegin?
    ensures SlowEntry(x, tl + [e], faults) && Began(tl, x.id)
  {
    hide Began, Ended, CrashedIn;
    OneMore(tl, e);
  }

  lemma NewSlowEntry(w: Slow, tl: seq<Event>, faults: seq<FaultRecord>)
    requires w.id < |faults| && faults[w.id].kind == KSlow(w.pair, w.factor) && w.factor > 1.0 && OpenAt(tl, w.id)
    ensures SlowEntry(w, tl, faults)
  {
  }

  lemma NoneHas(slow: seq<Slow>, id: nat)
    requires forall i :: 0 <= i < |slow| ==> slow[i].id != id
    ensures !HasSlow(slow, id)
  {
  }

  lemma HasSlowMore(slow: seq<Slow>, w: Slow, id: nat)
    requires HasSlow(slow, id) || id == w.id
    ensures HasSlow(slow + [w], id)
  {
    if id == w.id {
      assert (slow + [w])[|slow|].id == id;
    } else {
      var i :| 0 <= i < |slow| && slow[i].id == id;
      assert (slow + [w])[i].id == id;
    }
  }

  lemma OpenSlowRegister(slow: seq<Slow>, tl: seq<Event>, faults: seq<FaultRecord>, e: Event, w: Slow)
    requires SlowTrue(slow, tl, faults) && e.EvSlowBegin? && e.id == w.id < |faults|
    requires faults[w.id].kind == KSlow(w.pair, w.factor) && w.factor > 1.0 && !Began(tl, w.id) && !Ended(tl, w.id)
    ensures SlowTrue(WithoutSlow(slow, w.id) + [w], tl + [e], faults)
  {
    hide Began, Ended, CrashedIn, SlowEntry, WithoutSlow, HasSlow;
    OneMore(tl, e);
    forall i | 0 <= i < |slow| ensures slow[i].id != w.id && SlowEntry(slow[i], tl + [e], faults) {
      SlowEntryStays(slow[i], tl, faults, e);
    }
    assert !HasSlow(slow, w.id) by { NoneHas(slow, w.id); }
    WithoutAbsent(slow, w.id);
    var more := slow + [w];
    assert SlowEntry(w, tl + [e], faults) by { NewSlowEntry(w, tl + [e], faults); }
    forall id: nat | OpenAt(tl + [e], id) ensures id < |faults| && (faults[id].kind.KSlow? ==> HasSlow(more, id)) {
      assert id != w.id ==> OpenAt(tl, id);
      if id == w.id || faults[id].kind.KSlow? {
        HasSlowMore(slow, w, id);
      }
    }
  }

  lemma CloseSlowRegister(slow: seq<Slow>, tl: seq<Event>, faults: seq<FaultRecord>, e: Event)
    requires SlowTrue(slow, tl, faults) && e.EvSlowEnd?
    ensures SlowTrue(WithoutSlow(slow, e.id), tl + [e], faults)
  {
    hide Began, Ended, CrashedIn;
    OneMore(tl, e);
    WithoutKeeps(slow, e.id);
    var less := WithoutSlow(slow, e.id);
    forall i | 0 <= i < |less| ensures SlowEntry(less[i], tl + [e], faults) {
      assert less[i] in slow;
      var m :| 0 <= m < |slow| && slow[m] == less[i];
      assert SlowEntry(slow[m], tl, faults);
    }
    forall id: nat | OpenAt(tl + [e], id) ensures id < |faults| && (faults[id].kind.KSlow? ==> HasSlow(less, id)) {
      assert OpenAt(tl, id);
      if faults[id].kind.KSlow? {
        var i :| 0 <= i < |slow| && slow[i].id == id;
        assert slow[i] in less;
        var m :| 0 <= m < |less| && less[m] == slow[i];
        assert less[m].id == id;
      }
    }
  }

  // ---- assembling one step -----------------------------------------------------------------------------------------------

  /** Everything but the registers and the queues, for a step that takes timer k and records one event. */
  lemma TakeParts(s: Sys, t: Sys, ent: Entropy, k: nat, e: Event)
    requires Inv(s, ent) && Head(s, k) && t.agenda == Take(s.agenda, true) && t.timeline == s.timeline + [e]
    requires BookOf(t) == BookOf(s) && t.netDraw == s.netDraw && t.reliableClock == s.reliableClock
    requires EventTrue(s.timeline, e, BookOf(s)) && Speaks(e, k, s.faults)
    ensures Held(t.agenda, t.made) && Told(BookOf(t), ent.net) && Clocks(t.sends, t.netDraw, t.reliableClock, ent.net)
    ensures Follows(t.agenda.taken, t.timeline, t.faults) && Truth(t.timeline, BookOf(t))
  {
    hide Registers, Truth, Queues, Clocks, Follows, Told, Held, Speaks, EventTrue, AheadOf, TimerTold, Took;
    HeldTake(s.agenda, s.made);
    FollowsTake(s.agenda.taken, Taken(s.agenda.ready[0], s.agenda.now, true), s.timeline, e, s.faults, k);
    TruthMore(s.timeline, e, BookOf(s));
  }

  lemma QueuesTakeOther(s: Sys, e: Event)
    requires s.agenda.ready != [] && Queues(s.endpoints, s.agenda.taken, s.timeline) && !e.EvDeliver?
    ensures Queues(s.endpoints, Take(s.agenda, true).taken, s.timeline + [e])
  {
    hide Queues;
    QueuesTake(s.endpoints, s.agenda.taken, Taken(s.agenda.ready[0], s.agenda.now, true), s.timeline);
    QueuesOther(s.endpoints, Take(s.agenda, true).taken, s.timeline, e);
  }

  lemma TakeQuietInv(s: Sys, ent: Entropy)
    requires Inv(s, ent) && s.agenda.ready != []
    requires s.agenda.ready[0].Fired? ==> NoFaults(s.agenda.ready[0].timer.order, s.faults)
    ensures Inv(WithAgenda(s, Take(s.agenda, true)), ent)
  {
    hide Registers, Truth, Queues, Clocks, Follows, Told, Held;
    var x := Taken(s.agenda.ready[0], s.agenda.now, true);
    HeldTake(s.agenda, s.made);
    FollowsQuiet(s.agenda.taken, x, s.timeline, s.faults);
    QueuesTake(s.endpoints, s.agenda.taken, x, s.timeline);
  }

  lemma TakePartitionInv(s: Sys, ent: Entropy, k: nat)
    requires Inv(s, ent) && Head(s, k) && (s.made[k].what.BeginPartition? || s.made[k].what.EndPartition?)
    ensures Inv(TakeOne(s), ent)
  {
    hide Truth, Queues, Clocks, Follows, Held, Took, PartitionsTrue, SlowTrue, CrashesTrue, Began, Ended, Speaks, Due, TimersTold, SendsTold, TimersInSendOrder, CallsTold;
    var t := TakeOne(s);
    var e := t.timeline[|s.timeline|];
    var id := s.made[k].what.id;
    assert FaultTold(BookOf(s), id, s.faults[id]);
    OnlyThisFault(BookOf(s), k, id, e);
    if s.made[k].what.BeginPartition? {
      NotOpenedYet(s, ent, k, id);
      OpenPartitionRegister(s.faultPartitions, s.slowLinks, s.crashed, s.timeline, s.faults, e);
    } else {
      OpenedAlready(s, ent, k, id);
      ClosePartitionRegister(s.faultPartitions, s.slowLinks, s.crashed, s.timeline, s.faults, e);
    }
    TakeParts(s, t, ent, k, e);
    QueuesTakeOther(s, e);
  }

  lemma TakeSlowInv(s: Sys, ent: Entropy, k: nat)
    requires Inv(s, ent) && Head(s, k) && (s.made[k].what.BeginSlow? || s.made[k].what.EndSlow?)
    ensures Inv(TakeOne(s), ent)
  {
    hide Truth, Queues, Clocks, Follows, Held, Took, PartitionsTrue, SlowTrue, Began, Ended, CrashedIn, Speaks, Due, TimersTold, SendsTold, TimersInSendOrder, CallsTold;
    var t := TakeOne(s);
    var e := t.timeline[|s.timeline|];
    var id := s.made[k].what.id;
    assert FaultTold(BookOf(s), id, s.faults[id]);
    OnlyThisFault(BookOf(s), k, id, e);
    PartitionsUntouched(s.faultPartitions, s.timeline, s.faults, e);
    OneMore(s.timeline, e);
    assert CrashesTrue(t.crashed, t.timeline);
    if s.made[k].what.BeginSlow? {
      NotOpenedYet(s, ent, k, id);
      OpenSlowRegister(s.slowLinks, s.timeline, s.faults, e, Slow(id, s.made[k].what.pair, s.made[k].what.factor));
    } else {
      OpenedAlready(s, ent, k, id);
      CloseSlowRegister(s.slowLinks, s.timeline, s.faults, e);
    }
    TakeParts(s, t, ent, k, e);
    QueuesTakeOther(s, e);
  }

  lemma TakeCrashInv(s: Sys, ent: Entropy, k: nat)
    requires Inv(s, ent) && Head(s, k) && s.made[k].what.BeginCrash?
    ensures Inv(TakeOne(s), ent)
  {
    hide Truth, Queues, Clocks, Follows, Held, Took, PartitionsTrue, SlowTrue, Began, Ended, CrashedIn, Speaks, Due, TimersTold, SendsTold, TimersInSendOrder, CallsTold;
    var t := TakeOne(s);
    var e := t.timeline[|s.timeline|];
    var id := s.made[k].what.id;
    assert FaultTold(BookOf(s), id, s.faults[id]);
    OnlyThisFault(BookOf(s), k, id, e);
    PartitionsUntouched(s.faultPartitions, s.timeline, s.faults, e);
    SlowUntouched(s.slowLinks, s.timeline, s.faults, e);
    OneMore(s.timeline, e);
    assert CrashesTrue(t.crashed, t.timeline);
    NotOpenedYet(s, ent, k, id);
    TakeParts(s, t, ent, k, e);
    QueuesTakeOther(s, e);
  }

  // ---- a delivery fires ------------------------------------------------------------------------------------------------------

  lemma DeliveryTrue(s: Sys, k: nat, e: Event, mid: nat, src: Addr, dst: Addr)
    requires Head(s, k) && s.made[k].what.Deliver? && s.made[k].what.mid == mid && IsSend(BookOf(s), mid, src, dst)
    requires Registers(s.faultPartitions, s.slowLinks, s.crashed, s.timeline, s.faults)
    requires Follows(s.agenda.taken, s.timeline, s.faults)
    requires
      || (e == EvDropCrashed(s.agenda.now, mid, src, dst) && (src in s.crashed || dst in s.crashed))
      || (e == EvDropPartitioned(s.agenda.now, mid, src, dst) && src !in s.crashed && dst !in s.crashed)
      || (e == EvDeliver(s.agenda.now, mid, src, dst) && src !in s.crashed && dst !in s.crashed && Reachable(s, src, dst))
    ensures EventTrue(s.timeline, e, BookOf(s))
  {
    hide Began, Ended, CrashedIn, Took, FollowsOne, SlowTrue, Cut, AheadOf;
    assert IsCopy(s.made[k], mid);
    assert CopyDue(BookOf(s), mid, s.agenda.now);
    if e.EvDeliver? {
      forall id: nat | OpenAt(s.timeline, id)
        ensures id < |s.faults| && (s.faults[id].kind.KPartition? ==> !Cut(s.faults[id].kind.groups, src, dst))
      {
        assert id in s.faultPartitions <==> OpenPartition(s.timeline, s.faults, id);
      }
    }
  }

  lemma ItemStays(item: Item, a: Addr, taken: seq<Taken<Callback>>, x: Taken<Callback>)
    requires ItemTrue(item, a, taken)
    ensures ItemTrue(item, a, taken + [x]) && item.at < |taken|
  {
  }

  lemma EnqueuedTrue(a: Addr, e: Endpoint, taken: seq<Taken<Callback>>, x: Taken<Callback>, tl: seq<Event>, ev: Event, item: Item)
    requires EndpointTrue(a, e, taken, tl) && ev.EvDeliver? && ev.dst == a && ev.mid == item.mid
    requires item.at == |taken| && ItemTrue(item, a, taken + [x])
    ensures EndpointTrue(a, Enqueued(e, item), taken + [x], tl + [ev])
  {
    hide ItemTrue, DeliveredTo;
    var f := Enqueued(e, item);
    DeliveredMore(tl, ev, a);
    assert Mids(f.enqueued) == Mids(e.enqueued) + [item.mid];
    forall i | 0 <= i < |f.enqueued| ensures ItemTrue(f.enqueued[i], a, taken + [x]) {
      if i < |e.enqueued| {
        ItemStays(e.enqueued[i], a, taken, x);
      }
    }
    forall i, j | 0 <= i < j < |f.enqueued| ensures f.enqueued[i].at < f.enqueued[j].at {
      ItemStays(e.enqueued[i], a, taken, x);
    }
  }

  lemma QueuesDeliver(s: Sys, k: nat, mid: nat, src: Addr, dst: Addr, msg: Message, extra: bool)
    requires Queues(s.endpoints, s.agenda.taken, s.timeline) && Head(s, k) && s.made[k].what == Deliver(mid, src, dst, msg, extra)
    ensures var ev := EvDeliver(s.agenda.now, mid, src, dst);
            var endpoints := if dst in s.endpoints then s.endpoints[dst := Enqueued(s.endpoints[dst], Item(src, msg, mid, |s.agenda.taken|))] else s.endpoints;
            Queues(endpoints, Take(s.agenda, true).taken, s.timeline + [ev])
  {
    hide EndpointTrue, Enqueued, DeliveredTo, AheadOf, TimerTold, Took;
    var ev := EvDeliver(s.agenda.now, mid, src, dst);
    var x := Taken(s.agenda.ready[0], s.agenda.now, true);
    var item := Item(src, msg, mid, |s.agenda.taken|);
    var endpoints := if dst in s.endpoints then s.endpoints[dst := Enqueued(s.endpoints[dst], item)] else s.endpoints;
    QueuesTake(s.endpoints, s.agenda.taken, x, s.timeline);
    forall a | a in endpoints ensures EndpointTrue(a, endpoints[a], s.agenda.taken + [x], s.timeline + [ev]) {
      if a == dst {
        EnqueuedTrue(a, s.endpoints[a], s.agenda.taken, x, s.timeline, ev, item);
      } else {
        OtherEndpoint(a, endpoints[a], s.agenda.taken + [x], s.timeline, ev);
      }
    }
  }

  lemma OtherEndpoint(a: Addr, e: Endpoint, taken: seq<Taken<Callback>>, tl: seq<Event>, ev: Event)
    requires EndpointTrue(a, e, taken, tl) && ev.EvDeliver? && ev.dst != a
    ensures EndpointTrue(a, e, taken, tl + [ev])
  {
    DeliveredMore(tl, ev, a);
  }

  lemma TakeDeliveryInv(s: Sys, ent: Entropy, k: nat)
    requires Inv(s, ent) && Head(s, k) && s.made[k].what.Deliver?
    ensures Inv(TakeOne(s), ent)
  {
    hide Truth, Queues, Clocks, Follows, Held, Took, Registers, Speaks, Due, TimersTold, SendsTold, TimersInSendOrder, CallsTold, FaultsTold, Reachable, Enqueued, EventTrue, AheadOf;
    var t := TakeOne(s);
    var what := s.made[k].what;
    var e := DeliveryEvent(s, k);
    assert t.timeline[|s.timeline|] == e;
    DeliveryRegisters(s, what, e);
    DeliveryTrue(s, k, e, what.mid, what.src, what.dst);
    NotAFault(BookOf(s), k);
    assert Speaks(e, k, s.faults) by { PlainSpeaks(e, k, s.faults); }
    TakeParts(s, t, ent, k, e);
    if e.EvDeliver? {
      QueuesDeliver(s, k, what.mid, what.src, what.dst, what.msg, what.extra);
    } else {
      QueuesTakeOther(s, e);
    }
  }

  lemma PlainSpeaks(e: Event, k: nat, faults: seq<FaultRecord>)
    requires Plain(e) && NoFaults(k, faults)
    ensures Speaks(e, k, faults)
  {
  }

  /** The event a firing delivery records. */
  predicate DeliveryEvents(s: Sys, w: Callback, e: Event)
    requires w.Deliver?
  {
    || (e == EvDropCrashed(s.agenda.now, w.mid, w.src, w.dst) && (w.src in s.crashed || w.dst in s.crashed))
    || (e == EvDropPartitioned(s.agenda.now, w.mid, w.src, w.dst) && w.src !in s.crashed && w.dst !in s.crashed)
    || (e == EvDeliver(s.agenda.now, w.mid, w.src, w.dst) && w.src !in s.crashed && w.dst !in s.crashed && Reachable(s, w.src, w.dst))
  }

  lemma DeliveryEvent(s: Sys, k: nat) returns (e: Event)
    requires Head(s, k) && s.made[k].what.Deliver?
    ensures TakeOne(s).timeline == s.timeline + [e] && DeliveryEvents(s, s.made[k].what, e)
  {
    hide AheadOf, TimerTold, Took;
    e := TakeOne(s).timeline[|s.timeline|];
  }

  lemma DeliveryRegisters(s: Sys, what: Callback, e: Event)
    requires Registers(s.faultPartitions, s.slowLinks, s.crashed, s.timeline, s.faults) && Plain(e)
    ensures Registers(s.faultPartitions, s.slowLinks, s.crashed, s.timeline + [e], s.faults)
  {
    RegistersPlain(s.faultPartitions, s.slowLinks, s.crashed, s.timeline, s.faults, e);
  }

  lemma TakeInvKept(s: Sys, ent: Entropy)
    requires Inv(s, ent) && s.agenda.ready != []
    ensures Inv(TakeOne(s), ent)
  {
    hide Inv, TimerTold, AheadOf, Took, Delivered, WithoutSlow;
    if s.agenda.ready[0].Fired? {
      var k := HeadHolds(s, ent);
      match s.made[k].what
      case Deliver(_, _, _, _, _) => TakeDeliveryInv(s, ent, k);
      case BeginPartition(_, _) => TakePartitionInv(s, ent, k);
      case EndPartition(_) => TakePartitionInv(s, ent, k);
      case BeginSlow(_, _, _) => TakeSlowInv(s, ent, k);
      case EndSlow(_) => TakeSlowInv(s, ent, k);
      case BeginCrash(_, _) => TakeCrashInv(s, ent, k);
      case Wake(_) => QuietTimer(s, ent, k);
      case User(_) => QuietTimer(s, ent, k);
    } else {
      TakeQuietInv(s, ent);
    }
  }

  lemma QuietTimer(s: Sys, ent: Entropy, k: nat)
    requires Inv(s, ent) && Head(s, k) && (s.made[k].what.User? || s.made[k].what.Wake?)
    ensures Inv(WithAgenda(s, Take(s.agenda, true)), ent)
  {
    hide Registers, Truth, Queues, Clocks, Follows, Held, Due, TimersTold, SendsTold, TimersInSendOrder, CallsTold, FaultsTold;
    NotAFault(BookOf(s), k);
    TakeQuietInv(s, ent);
  }
}
