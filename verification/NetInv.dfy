/** What holds of the network in every run: the timeline tells the truth about messages and fault
    windows, and the fault registries are what the timeline says. */
module NetInv {
  import opened Agendas
  import opened NetModel
  import opened NetBook
  import opened NetTimers

  // ---- fault windows on the timeline -----------------------------------------------------------------------

  predicate Begins(e: Event, id: nat) {
    (e.EvPartitionBegin? || e.EvSlowBegin? || e.EvCrash?) && e.id == id
  }

  predicate Ends(e: Event, id: nat) {
    (e.EvPartitionHeal? || e.EvSlowEnd?) && e.id == id
  }

  predicate Crashes(e: Event, n: Addr) { e.EvCrash? && e.node == n }

  ghost predicate Began(tl: seq<Event>, id: nat) { exists i :: 0 <= i < |tl| && Begins(tl[i], id) }

  ghost predicate Ended(tl: seq<Event>, id: nat) { exists i :: 0 <= i < |tl| && Ends(tl[i], id) }

  ghost predicate CrashedIn(tl: seq<Event>, n: Addr) { exists i :: 0 <= i < |tl| && Crashes(tl[i], n) }

  /** Begun and not ended. */
  ghost predicate OpenAt(tl: seq<Event>, id: nat) { Began(tl, id) && !Ended(tl, id) }

  lemma OneMore(tl: seq<Event>, e: Event)
    ensures forall id :: Began(tl + [e], id) <==> Began(tl, id) || Begins(e, id)
    ensures forall id :: Ended(tl + [e], id) <==> Ended(tl, id) || Ends(e, id)
    ensures forall n :: CrashedIn(tl + [e], n) <==> CrashedIn(tl, n) || Crashes(e, n)
  {
    var more := tl + [e];
    assert more[|tl|] == e;
    forall id ensures Began(more, id) <==> Began(tl, id) || Begins(e, id) {
      if Began(tl, id) { var i :| 0 <= i < |tl| && Begins(tl[i], id); assert Begins(more[i], id); }
      if Begins(e, id) { assert Begins(more[|tl|], id); }
    }
    forall id ensures Ended(more, id) <==> Ended(tl, id) || Ends(e, id) {
      if Ended(tl, id) { var i :| 0 <= i < |tl| && Ends(tl[i], id); assert Ends(more[i], id); }
      if Ends(e, id) { assert Ends(more[|tl|], id); }
    }
    forall n ensures CrashedIn(more, n) <==> CrashedIn(tl, n) || Crashes(e, n) {
      if CrashedIn(tl, n) { var i :| 0 <= i < |tl| && Crashes(tl[i], n); assert Crashes(more[i], n); }
      if Crashes(e, n) { assert Crashes(more[|tl|], n); }
    }
  }

  /** An event that opens and closes nothing. */
  predicate Plain(e: Event) {
    !e.EvPartitionBegin? && !e.EvSlowBegin? && !e.EvCrash? && !e.EvPartitionHeal? && !e.EvSlowEnd?
  }

  // ---- registries -------------------------------------------------------------------------------------------

  /** A fault's timers have been taken exactly if its events are on the timeline. */
  ghost predicate FollowsOne(taken: seq<Taken<Callback>>, tl: seq<Event>, f: FaultRecord, id: nat) {
    && (Took(taken, f.first) <==> Began(tl, id))
    && (if f.kind.KCrash? then !Ended(tl, id) else Took(taken, f.first + 1) <==> Ended(tl, id))
  }

  ghost predicate Follows(taken: seq<Taken<Callback>>, tl: seq<Event>, faults: seq<FaultRecord>) {
    && (forall id :: 0 <= id < |faults| ==> FollowsOne(taken, tl, faults[id], id))
    && (forall id: nat :: Began(tl, id) || Ended(tl, id) ==> id < |faults|)
  }

  ghost predicate OpenPartition(tl: seq<Event>, faults: seq<FaultRecord>, id: nat) {
    id < |faults| && faults[id].kind.KPartition? && OpenAt(tl, id)
  }

  /** The open fault partitions are the partition windows begun and not ended. */
  ghost predicate PartitionsTrue(parts: map<nat, Groups>, tl: seq<Event>, faults: seq<FaultRecord>) {
    && (forall id :: id in parts <==> OpenPartition(tl, faults, id))
    && (forall id :: id in parts && id < |faults| && faults[id].kind.KPartition? ==> parts[id] == faults[id].kind.groups)
  }

  ghost predicate HasSlow(slow: seq<Slow>, id: nat) { exists i :: 0 <= i < |slow| && slow[i].id == id }

  ghost predicate SlowEntry(w: Slow, tl: seq<Event>, faults: seq<FaultRecord>) {
    w.id < |faults| && faults[w.id].kind == KSlow(w.pair, w.factor) && w.factor > 1.0 && OpenAt(tl, w.id)
  }

  /** The open slow links are the slow-link windows begun and not ended, each once. */
  ghost predicate SlowTrue(slow: seq<Slow>, tl: seq<Event>, faults: seq<FaultRecord>) {
    && (forall i, j :: 0 <= i < j < |slow| ==> slow[i].id != slow[j].id)
    && (forall i :: 0 <= i < |slow| ==> SlowEntry(slow[i], tl, faults))
    && (forall id: nat :: OpenAt(tl, id) ==> id < |faults| && (faults[id].kind.KSlow? ==> HasSlow(slow, id)))
  }

  ghost predicate CrashesTrue(crashed: set<Addr>, tl: seq<Event>) {
    forall n :: n in crashed <==> CrashedIn(tl, n)
  }

  ghost predicate Registers(parts: map<nat, Groups>, slow: seq<Slow>, crashed: set<Addr>, tl: seq<Event>, faults: seq<FaultRecord>) {
    PartitionsTrue(parts, tl, faults) && SlowTrue(slow, tl, faults) && CrashesTrue(crashed, tl)
  }

  // ---- the timeline -------------------------------------------------------------------------------------------

  /** No fault partition open at this point cuts the pair. */
  ghost predicate NoCut(tl: seq<Event>, faults: seq<FaultRecord>, src: Addr, dst: Addr) {
    forall id: nat :: OpenAt(tl, id) ==>
      id < |faults| && (faults[id].kind.KPartition? ==> !Cut(faults[id].kind.groups, src, dst))
  }

  /** A copy of the message falls due at this moment. */
  ghost predicate CopyDue(b: Book, mid: nat, t: real) {
    exists k :: 0 <= k < |b.made| && IsCopy(b.made[k], mid) && b.made[k].when == At(t)
  }

  predicate IsCopy(t: Timer<Callback>, mid: nat) { t.what.Deliver? && t.what.mid == mid }

  /** What an event on the timeline says, with the timeline before it. */
  ghost predicate EventTrue(tl: seq<Event>, e: Event, b: Book) {
    match e
    case EvSend(t, mid, src, dst) =>
      IsSend(b, mid, src, dst) && b.sends[mid].t == t && SlowTrue(b.sends[mid].slow, tl, b.faults)
    case EvDrop(t, mid, src, dst) => IsSend(b, mid, src, dst) && !b.sends[mid].reliable && b.sends[mid].timer.None?
    case EvDuplicate(t, mid, src, dst) => IsSend(b, mid, src, dst) && !b.sends[mid].reliable && b.sends[mid].timer.Some?
    case EvDeliver(t, mid, src, dst) =>
      && IsSend(b, mid, src, dst) && CopyDue(b, mid, t)
      && !CrashedIn(tl, src) && !CrashedIn(tl, dst) && NoCut(tl, b.faults, src, dst)
    case EvDropCrashed(t, mid, src, dst) =>
      IsSend(b, mid, src, dst) && CopyDue(b, mid, t) && (CrashedIn(tl, src) || CrashedIn(tl, dst))
    case EvDropPartitioned(t, mid, src, dst) =>
      IsSend(b, mid, src, dst) && CopyDue(b, mid, t) && !CrashedIn(tl, src) && !CrashedIn(tl, dst)
    case EvPartitionBegin(t, id) =>
      IsWindow(b, id) && b.faults[id].kind.KPartition? && t == b.faults[id].start && !Began(tl, id) && !Ended(tl, id)
    case EvPartitionHeal(t, id) =>
      IsWindow(b, id) && b.faults[id].kind.KPartition? && t == b.faults[id].end && OpenAt(tl, id)
    case EvSlowBegin(t, id) =>
      IsWindow(b, id) && b.faults[id].kind.KSlow? && t == b.faults[id].start && !Began(tl, id) && !Ended(tl, id)
    case EvSlowEnd(t, id) =>
      IsWindow(b, id) && b.faults[id].kind.KSlow? && t == b.faults[id].end && OpenAt(tl, id)
    case EvCrash(t, id, node) => IsFault(b, id, KCrash(node)) && t == b.faults[id].start && !Began(tl, id)
    case EvPartitionScheduled(t, id, groups, start, end) =>
      IsFault(b, id, KPartition(groups)) && b.faults[id].t == t && b.faults[id].start == start && b.faults[id].end == end
    case EvSlowScheduled(t, id, x, y, factor, start, end) =>
      IsFault(b, id, KSlow({x, y}, factor)) && b.faults[id].t == t && b.faults[id].start == start && b.faults[id].end == end
    case EvCrashScheduled(t, id, node, at) => IsFault(b, id, KCrash(node)) && b.faults[id].t == t && b.faults[id].start == at
  }

  ghost predicate Truth(tl: seq<Event>, b: Book) {
    forall i :: 0 <= i < |tl| ==> EventTrue(tl[..i], tl[i], b)
  }

  // ---- receive queues -------------------------------------------------------------------------------------------

  function Mids(items: seq<Item>): seq<nat> {
    seq(|items|, i requires 0 <= i < |items| => items[i].mid)
  }

  /** A queued message came from a delivery the loop took at this place. */
  ghost predicate ItemTrue(item: Item, a: Addr, taken: seq<Taken<Callback>>) {
    && item.at < |taken| && taken[item.at].entry.Fired?
    && var what := taken[item.at].entry.timer.what;
       what.Deliver? && what == Deliver(item.mid, item.src, a, item.msg, what.extra)
  }

  ghost predicate EndpointTrue(a: Addr, e: Endpoint, taken: seq<Taken<Callback>>, tl: seq<Event>) {
    && e.enqueued == e.returned + e.queue
    && (forall i :: 0 <= i < |e.enqueued| ==> ItemTrue(e.enqueued[i], a, taken))
    && (forall i, j :: 0 <= i < j < |e.enqueued| ==> e.enqueued[i].at < e.enqueued[j].at)
    && DeliveredTo(tl, a) == e.missed + Mids(e.enqueued)
  }

  ghost predicate Queues(endpoints: map<Addr, Endpoint>, taken: seq<Taken<Callback>>, tl: seq<Event>) {
    forall a :: a in endpoints ==> EndpointTrue(a, endpoints[a], taken, tl)
  }

  // ---- the streams ----------------------------------------------------------------------------------------------

  /** One "net" draw a send, and each link's clock is the latest due time on it. */
  ghost predicate Clocks(sends: seq<SendRecord>, netDraw: nat, clocks: map<(Addr, Addr), real>, net: nat -> Unit) {
    netDraw == |sends| && forall link :: LinkClock(clocks, link) == LastDue(sends, net, link)
  }

  /** Everything above, of the fields it is about. */
  ghost predicate Inv(s: Sys, ent: Entropy) {
    && Held(s.agenda, s.made)
    && Told(BookOf(s), ent.net)
    && Clocks(s.sends, s.netDraw, s.reliableClock, ent.net)
    && Follows(s.agenda.taken, s.timeline, s.faults)
    && Registers(s.faultPartitions, s.slowLinks, s.crashed, s.timeline, s.faults)
    && Truth(s.timeline, BookOf(s))
    && Queues(s.endpoints, s.agenda.taken, s.timeline)
  }

  // ---- how each part survives one more event ------------------------------------------------------------------------

  lemma SlowGrows(slow: seq<Slow>, tl: seq<Event>, b: Book, c: Book)
    requires SlowTrue(slow, tl, b.faults) && Grows(b, c)
    ensures SlowTrue(slow, tl, c.faults)
  {
    forall i | 0 <= i < |slow| ensures SlowEntry(slow[i], tl, c.faults) {
      assert SlowEntry(slow[i], tl, b.faults);
    }
  }

  lemma CopyGrows(b: Book, c: Book, mid: nat, t: real)
    requires CopyDue(b, mid, t) && Grows(b, c)
    ensures CopyDue(c, mid, t)
  {
    var k :| 0 <= k < |b.made| && IsCopy(b.made[k], mid) && b.made[k].when == At(t);
    assert IsCopy(c.made[k], mid);
  }

  lemma EventStaysTrue(tl: seq<Event>, e: Event, b: Book, c: Book)
    requires EventTrue(tl, e, b) && Grows(b, c)
    ensures EventTrue(tl, e, c)
  {
    hide Began, Ended, CrashedIn, SlowTrue, CopyDue;
    match e
    case EvSend(_, mid, _, _) => SlowGrows(b.sends[mid].slow, tl, b, c);
    case EvDeliver(t, mid, _, _) => CopyGrows(b, c, mid, t);
    case EvDropCrashed(t, mid, _, _) => CopyGrows(b, c, mid, t);
    case EvDropPartitioned(t, mid, _, _) => CopyGrows(b, c, mid, t);
    case _ =>
  }

  lemma TruthGrows(tl: seq<Event>, b: Book, c: Book)
    requires Truth(tl, b) && Grows(b, c)
    ensures Truth(tl, c)
  {
    hide EventTrue;
    forall i | 0 <= i < |tl| ensures EventTrue(tl[..i], tl[i], c) {
      EventStaysTrue(tl[..i], tl[i], b, c);
    }
  }

  lemma TruthMore(tl: seq<Event>, e: Event, b: Book)
    requires Truth(tl, b) && EventTrue(tl, e, b)
    ensures Truth(tl + [e], b)
  {
    hide EventTrue;
    var more := tl + [e];
    forall i | 0 <= i < |more| ensures EventTrue(more[..i], more[i], b) {
      if i < |tl| {
        assert more[..i] == tl[..i];
      } else {
        assert more[..i] == tl;
      }
    }
  }

  lemma RegistersPlain(parts: map<nat, Groups>, slow: seq<Slow>, crashed: set<Addr>, tl: seq<Event>, faults: seq<FaultRecord>, e: Event)
    requires Registers(parts, slow, crashed, tl, faults) && Plain(e)
    ensures Registers(parts, slow, crashed, tl + [e], faults)
  {
    hide Began, Ended, CrashedIn;
    OneMore(tl, e);
    forall i | 0 <= i < |slow| ensures SlowEntry(slow[i], tl + [e], faults) {
      assert SlowEntry(slow[i], tl, faults);
    }
    forall id: nat ensures OpenAt(tl, id) <==> OpenAt(tl + [e], id) {
    }
    assert SlowTrue(slow, tl + [e], faults);
    forall id ensures OpenPartition(tl, faults, id) <==> OpenPartition(tl + [e], faults, id) {
    }
    assert PartitionsTrue(parts, tl + [e], faults);
    assert CrashesTrue(crashed, tl + [e]);
  }

  lemma FollowsPlain(taken: seq<Taken<Callback>>, tl: seq<Event>, faults: seq<FaultRecord>, e: Event)
    requires Follows(taken, tl, faults) && Plain(e)
    ensures Follows(taken, tl + [e], faults)
  {
    hide Began, Ended, CrashedIn, Took;
    OneMore(tl, e);
    forall id | 0 <= id < |faults| ensures FollowsOne(taken, tl + [e], faults[id], id) {
      assert FollowsOne(taken, tl, faults[id], id);
    }
  }

  lemma DeliveredMore(tl: seq<Event>, e: Event, a: Addr)
    ensures DeliveredTo(tl + [e], a) == if e.EvDeliver? && e.dst == a then DeliveredTo(tl, a) + [e.mid] else DeliveredTo(tl, a)
  {
    assert (tl + [e])[..|tl|] == tl;
  }

  lemma QueuesOther(endpoints: map<Addr, Endpoint>, taken: seq<Taken<Callback>>, tl: seq<Event>, e: Event)
    requires Queues(endpoints, taken, tl) && !e.EvDeliver?
    ensures Queues(endpoints, taken, tl + [e])
  {
    forall a | a in endpoints ensures EndpointTrue(a, endpoints[a], taken, tl + [e]) {
      assert EndpointTrue(a, endpoints[a], taken, tl);
      DeliveredMore(tl, e, a);
    }
  }

  lemma QueuesTake(endpoints: map<Addr, Endpoint>, taken: seq<Taken<Callback>>, x: Taken<Callback>, tl: seq<Event>)
    requires Queues(endpoints, taken, tl)
    ensures Queues(endpoints, taken + [x], tl)
  {
    forall a | a in endpoints ensures EndpointTrue(a, endpoints[a], taken + [x], tl) {
      assert EndpointTrue(a, endpoints[a], taken, tl);
      forall i | 0 <= i < |endpoints[a].enqueued| ensures ItemTrue(endpoints[a].enqueued[i], a, taken + [x]) {
        assert ItemTrue(endpoints[a].enqueued[i], a, taken);
      }
    }
  }

  /** One plain event that delivers nothing, and records that only grew: the parts that speak of the
      timeline still hold. */
  lemma PlainEvent(s: Sys, t: Sys, e: Event, ent: Entropy)
    requires Inv(s, ent) && Plain(e) && !e.EvDeliver? && t.timeline == s.timeline + [e]
    requires Grows(BookOf(s), BookOf(t)) && EventTrue(s.timeline, e, BookOf(t)) && t.faults == s.faults
    requires t.endpoints == s.endpoints && t.agenda.taken == s.agenda.taken
    requires t.faultPartitions == s.faultPartitions && t.slowLinks == s.slowLinks && t.crashed == s.crashed
    ensures Follows(t.agenda.taken, t.timeline, t.faults)
    ensures Registers(t.faultPartitions, t.slowLinks, t.crashed, t.timeline, t.faults)
    ensures Truth(t.timeline, BookOf(t))
    ensures Queues(t.endpoints, t.agenda.taken, t.timeline)
  {
    hide Truth, Registers, Follows, Queues, Held, Told, Clocks, EventTrue;
    TruthGrows(s.timeline, BookOf(s), BookOf(t));
    TruthMore(s.timeline, e, BookOf(t));
    RegistersPlain(s.faultPartitions, s.slowLinks, s.crashed, s.timeline, s.faults, e);
    FollowsPlain(s.agenda.taken, s.timeline, s.faults, e);
    QueuesOther(s.endpoints, s.agenda.taken, s.timeline, e);
  }
}
