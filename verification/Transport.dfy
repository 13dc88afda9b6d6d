/** The objects behind the network (src/seedloop/_net.py): `Port` is `_Endpoint`, `Transport` the class
    of that name. Each method changes its fields the way the source does, and is proved to be the
    function of `NetModel` or `NetFaults` that the theorems are about. */
module Transports {
  import opened Common
  import opened Agendas
  import opened NetModel
  import opened NetFaults
  import opened NetRefusals
  import opened NetMachine

  /** What the transport sees of the loop: its clock and `call_at`. */
  class LoopHandle {
    var agenda: Agenda<Callback>
    ghost var made: seq<Timer<Callback>>

    constructor ()
      ensures agenda == Agenda(0.0, [], 0, [], []) && made == []
    {
      agenda := Agenda(0.0, [], 0, [], []);
      made := [];
    }

    method CallAt(when: real, what: Callback)
      modifies this
      ensures agenda == Agendas.CallAt(old(agenda), At(when), what)
      ensures made == old(made) + [Timer(At(when), old(agenda).nextSeq, old(agenda).now, what)]
    {
      made := made + [Timer(At(when), agenda.nextSeq, agenda.now, what)];
      agenda := Agendas.CallAt(agenda, At(when), what);
    }

    /** `call_later` with a finite delay. */
    method CallLater(delay: real, what: Callback)
      modifies this
      ensures agenda == Agendas.CallAt(old(agenda), At(old(agenda).now + delay), what)
      ensures made == old(made) + [Timer(At(old(agenda).now + delay), old(agenda).nextSeq, old(agenda).now, what)]
    {
      CallAt(agenda.now + delay, what);
    }
  }

  class Port {
    const address: Addr
    const reliable: bool
    const loss: real
    const duplicate: real
    var queue: seq<Item>
    var waiter: Waiter
    ghost var enqueued: seq<Item>
    ghost var returned: seq<Item>
    ghost const missed: seq<nat>

    ghost function View(): Endpoint
      reads this
    {
      Endpoint(reliable, loss, duplicate, queue, waiter, enqueued, returned, missed)
    }

    constructor (address: Addr, reliable: bool, loss: real, duplicate: real, ghost missed: seq<nat>)
      ensures this.address == address
      ensures View() == Endpoint(reliable, loss, duplicate, [], Idle, [], [], missed)
    {
      this.address, this.reliable, this.loss, this.duplicate := address, reliable, loss, duplicate;
      this.missed := missed;
      queue, waiter, enqueued, returned := [], Idle, [], [];
    }

    /** One pass of `recv`'s loop: the head of the queue, or a fresh waiter. */
    method Poll() returns (item: Option<Item>)
      modifies this
      ensures View() == TryRecv(old(View()))
      ensures item == if old(queue) == [] then None else Some(old(queue)[0])
    {
      if queue == [] {
        waiter := Waiting;
        item := None;
      } else {
        item := Some(queue[0]);
        returned := returned + [queue[0]];
        queue := queue[1..];
        waiter := Idle;
      }
    }

    /** `recv`, up to its first suspension. A second concurrent `recv` is refused and changes nothing. */
    method StartRecv() returns (refused: bool, item: Option<Item>)
      modifies this
      ensures refused == !old(waiter).Idle?
      ensures View() == Receiver(old(View()), RecvStart(address))
      ensures item == if refused || old(queue) == [] then None else Some(old(queue)[0])
    {
      refused, item := !waiter.Idle?, None;
      if !refused {
        item := Poll();
      }
    }

    /** The waiter is done and the receiver runs again: the `finally` clears it, the loop looks again. */
    method ResumeRecv() returns (item: Option<Item>)
      requires waiter.Woken?
      modifies this
      ensures View() == Receiver(old(View()), RecvResume(address))
      ensures item == if old(queue) == [] then None else Some(old(queue)[0])
    {
      waiter := Idle;
      item := Poll();
    }

    /** The receiver is cancelled while it waits: only the `finally` runs. */
    method LeaveRecv()
      modifies this
      ensures View() == Receiver(old(View()), RecvLeave(address)) && queue == old(queue)
    {
      waiter := Idle;
    }

    method Enqueue(item: Item)
      modifies this
      ensures View() == Enqueued(old(View()), item)
    {
      queue := queue + [item];
      enqueued := enqueued + [item];
      if waiter.Waiting? {
        waiter := Woken;
      }
    }
  }

  ghost function PortViews(ports: map<Addr, Port>): map<Addr, Endpoint>
    reads ports.Values
  {
    map a | a in ports :: ports[a].View()
  }

  lemma ViewAt(ports: map<Addr, Port>, a: Addr)
    requires a in ports
    ensures a in PortViews(ports) && PortViews(ports)[a] == ports[a].View()
  {
  }

  lemma KeysOf(ports: map<Addr, Port>)
    ensures PortViews(ports).Keys == ports.Keys
  {
  }

  method LeastOf(bound: set<Addr>) returns (m: Addr)
    requires bound != {}
    ensures m == Least(bound)
  {
    ghost var some := Missing({}, bound);
    m :| m in bound;
    var rest := bound - {m};
    while rest != {}
      invariant m in bound && rest <= bound && forall x :: x in bound && x !in rest ==> m <= x
      decreases |rest|
    {
      some := Missing({}, rest);
      var x :| x in rest;
      rest := rest - {x};
      if x < m {
        m := x;
      }
    }
    assert Least(bound) in bound;
  }

  /** `sorted`. */
  method SortedList(bound: set<Addr>) returns (addrs: seq<Addr>)
    ensures addrs == SortedAddrs(bound)
  {
    var rest := bound;
    addrs := [];
    while rest != {}
      invariant SortedAddrs(bound) == addrs + SortedAddrs(rest)
      decreases |rest|
    {
      var m := LeastOf(rest);
      addrs := addrs + [m];
      rest := rest - {m};
    }
  }

  lemma SplitsBySides(addrs: seq<Addr>, ent: Entropy, d: nat)
    ensures Splits(|addrs|, ent, d) <==> Side(addrs, ent, d, true) != {} && Side(addrs, ent, d, false) != {}
  {
    if Splits(|addrs|, ent, d) {
      var i :| d <= i < d + |addrs| && Low(ent, i);
      var j :| d <= j < d + |addrs| && !Low(ent, j);
      assert Low(ent, d + (i - d)) && !Low(ent, d + (j - d));
      assert addrs[i - d] in Side(addrs, ent, d, true) && addrs[j - d] in Side(addrs, ent, d, false);
    }
    if Side(addrs, ent, d, true) != {} && Side(addrs, ent, d, false) != {} {
      var x := Missing({}, Side(addrs, ent, d, true));
      var y := Missing({}, Side(addrs, ent, d, false));
      var i :| 0 <= i < |addrs| && Low(ent, d + i) && addrs[i] == x;
      var j :| 0 <= j < |addrs| && !Low(ent, d + j) && addrs[j] == y;
    }
  }

  lemma SideMore(addrs: seq<Addr>, i: nat, ent: Entropy, d: nat, low: bool)
    requires i < |addrs|
    ensures Side(addrs[..i + 1], ent, d, low) == Side(addrs[..i], ent, d, low) + if Low(ent, d + i) == low then {addrs[i]} else {}
  {
    var more := Side(addrs[..i + 1], ent, d, low);
    forall x | x in more ensures x in Side(addrs[..i], ent, d, low) || (x == addrs[i] && Low(ent, d + i) == low) {
      var k :| 0 <= k < i + 1 && Low(ent, d + k) == low && addrs[..i + 1][k] == x;
      assert k < i ==> addrs[..i][k] == x;
    }
    forall x | x in Side(addrs[..i], ent, d, low) ensures x in more {
      var k :| 0 <= k < i && Low(ent, d + k) == low && addrs[..i][k] == x;
      assert addrs[..i + 1][k] == x;
    }
    assert addrs[..i + 1][i] == addrs[i];
  }

  lemma NonEmptySorted(bound: set<Addr>)
    requires bound != {}
    ensures SortedAddrs(bound) != []
  {
  }

  lemma SomeTry(n: nat, ent: Entropy, draw: nat) returns (k: nat)
    requires EventuallySplits(ent) && n >= 2
    ensures SplitsAtTry(n, ent, draw, k) && CanSplit(n, ent, draw) && FirstSplit(n, ent, draw) == SplitDraw(n, ent, draw, k)
  {
    assert CanSplit(n, ent, draw);
    k :| SplitsAtTry(n, ent, draw, k);
    FirstSplitIs(n, ent, draw, k);
  }

  /** A window does not depend on where the cursor was before its own draws. */
  lemma WindowDraws(s: Sys, ent: Entropy, draw: nat, seconds: real, kind: FaultKind, a: Addr, b: Addr)
    requires !kind.KCrash?
    ensures Window(s.(faultDraw := draw), ent, draw, seconds, kind, a, b) == Window(s, ent, draw, seconds, kind, a, b)
  {
    hide Insert, Uniform;
  }

  /** Whatever number of tries is known to succeed, the first success is the same. */
  lemma FirstSplitIs(n: nat, ent: Entropy, draw: nat, k: nat)
    requires SplitsAtTry(n, ent, draw, k)
    ensures CanSplit(n, ent, draw) && FirstSplit(n, ent, draw) == SplitDraw(n, ent, draw, k)
  {
    var j: nat :| SplitsAtTry(n, ent, draw, j) && FirstSplit(n, ent, draw) == SplitDraw(n, ent, draw, j);
    SplitDrawUnique(n, ent, draw, j, k);
  }

  class Transport {
    const loop: LoopHandle
    const ent: Entropy
    var endpoints: map<Addr, Port>
    var nextMid: nat
    var partition: Option<Groups>
    var reliableClock: map<(Addr, Addr), real>
    var faultPartitions: map<nat, Groups>
    var slowLinks: seq<Slow>
    var crashed: set<Addr>
    var nextFaultId: nat
    var netDraw: nat
    var faultDraw: nat
    var timeline: seq<Event>
    ghost var sends: seq<SendRecord>
    ghost var faults: seq<FaultRecord>
    ghost var calls: seq<RunRecord>
    var sleepers: nat // names the future each `run_for` sleeps on

    ghost function View(): Sys
      reads this, loop, endpoints.Values
    {
      Sys(loop.agenda, PortViews(endpoints), partition, reliableClock, faultPartitions, slowLinks, crashed, netDraw, faultDraw,
          timeline, loop.made, sends, faults, calls)
    }

    /** Each endpoint object is bound at its own address, and ids count what is on record. */
    ghost predicate Valid()
      reads this, loop, endpoints.Values
    {
      && nextMid == |sends| && nextFaultId == |faults| && sleepers == |calls| && |loop.made| == loop.agenda.nextSeq
      && forall a :: a in endpoints ==> endpoints[a].address == a
    }

    constructor (loop: LoopHandle, ent: Entropy)
      requires loop.agenda == Agenda(0.0, [], 0, [], []) && loop.made == []
      ensures Valid() && this.loop == loop && this.ent == ent && View() == NewSys
    {
      this.loop, this.ent := loop, ent;
      endpoints, nextMid, partition, reliableClock := map[], 0, None, map[];
      faultPartitions, slowLinks, crashed, nextFaultId := map[], [], {}, 0;
      netDraw, faultDraw, timeline := 0, 0, [];
      sends, faults, calls, sleepers := [], [], [], 0;
      new;
      assert PortViews(map[]) == map[];
    }

    // ---- binding and scenario-timed partitions ---------------------------------------------------------------

    method Bind(a: Addr, reliable: bool, loss: Num, duplicate: Num) returns (port: Port?)
      requires Valid()
      modifies this
      ensures Valid() && View() == BindTo(old(View()), a, reliable, loss, duplicate)
      ensures port != null <==> CanBind(old(endpoints).Keys, a, loss, duplicate)
      ensures port != null ==> fresh(port) && a in endpoints && endpoints[a] == port
    {
      port := null;
      if a in endpoints || !Probability(loss) || !Probability(duplicate) {
        assert PortViews(endpoints).Keys == endpoints.Keys;
        return;
      }
      port := new Port(a, reliable, loss.r, duplicate.r, DeliveredTo(timeline, a));
      endpoints := endpoints[a := port];
      assert PortViews(endpoints) == old(PortViews(endpoints))[a := port.View()];
    }

    method Partition(groups: Groups)
      requires Valid()
      modifies this`partition
      ensures Valid() && View() == old(View()).(partition := Some(groups))
      ensures EventuallySplits(ent) ==> View() == Apply(old(View()), ent, CutNow(groups))
      ensures forall a, b :: CanReach(a, b) <==> !Cut(groups, a, b) && FaultsLetThrough(a, b)
    {
      partition := Some(groups);
    }

    method Heal()
      requires Valid()
      modifies this`partition
      ensures Valid() && View() == old(View()).(partition := None)
      ensures EventuallySplits(ent) ==> View() == Apply(old(View()), ent, HealNow)
      ensures forall a, b :: CanReach(a, b) <==> FaultsLetThrough(a, b)
    {
      partition := None;
    }

    predicate CanReach(src: Addr, dst: Addr)
      reads this
    {
      !(partition.Some? && Cut(partition.value, src, dst)) && FaultsLetThrough(src, dst)
    }

    predicate FaultsLetThrough(src: Addr, dst: Addr)
      reads this
    {
      forall id :: id in faultPartitions ==> !Cut(faultPartitions[id], src, dst)
    }

    // ---- sending -------------------------------------------------------------------------------------------------

    method Record(e: Event)
      modifies this`timeline
      ensures timeline == old(timeline) + [e]
    {
      timeline := timeline + [e];
    }

    /** Every open slow link on the pair multiplies the latency. */
    method SlowFactorOf(src: Addr, dst: Addr) returns (factor: real)
      ensures factor == SlowFactor(slowLinks, {src, dst})
    {
      factor := 1.0;
      var i := 0;
      while i < |slowLinks|
        invariant 0 <= i <= |slowLinks| && factor == SlowFactor(slowLinks[..i], {src, dst})
      {
        assert slowLinks[..i + 1][..i] == slowLinks[..i];
        if slowLinks[i].pair == {src, dst} {
          factor := factor * slowLinks[i].factor;
        }
        i := i + 1;
      }
      assert slowLinks[..i] == slowLinks;
    }

    method LatencyOf(u: Unit, src: Addr, dst: Addr) returns (latency: real)
      ensures latency == Slowed(u, slowLinks, src, dst)
    {
      var factor := SlowFactorOf(src, dst);
      latency := Uniform(LAT_MIN, LAT_MAX, u) * factor;
    }

    method ScheduleReliable(mid: nat, src: Addr, dst: Addr, msg: Message, latency: real)
      requires Valid()
      modifies this`reliableClock, loop
      ensures Valid()
      ensures var s := old(View()); var when := Max(s.agenda.now + latency, LinkClock(s.reliableClock, (src, dst)));
              View() == Schedule(s, At(when), Deliver(mid, src, dst, msg, false)).(reliableClock := s.reliableClock[(src, dst) := when])
    {
      var key := (src, dst);
      var when := Max(loop.agenda.now + latency, if key in reliableClock then reliableClock[key] else 0.0);
      reliableClock := reliableClock[key := when];
      loop.CallAt(when, Deliver(mid, src, dst, msg, false));
    }

    /** What every send starts with: its id, its timeline entry, and exactly one "net" draw. */
    method StartSend(port: Port, dst: Addr, msg: Message, ghost timer: Option<nat>) returns (latency: real)
      requires Valid()
      modifies this`nextMid, this`timeline, this`netDraw, this`sends
      ensures Valid() && View() == Sent(old(View()), port.address, dst, msg, port.reliable, timer)
      ensures latency == Latency(ent.net, old(netDraw), slowLinks, port.address, dst)
    {
      hide Slowed, PortViews;
      latency := LatencyOf(ent.net(netDraw), port.address, dst);
      var mid := nextMid;
      nextMid := nextMid + 1;
      timeline := timeline + [EvSend(loop.agenda.now, mid, port.address, dst)];
      netDraw := netDraw + 1;
      sends := sends + [SendRecord(loop.agenda.now, port.address, dst, msg, port.reliable, slowLinks, timer)];
    }

    /** The loss decision, drawn only if loss is possible. */
    method LoseIt(port: Port) returns (lost: bool)
      requires Valid()
      modifies this`faultDraw
      ensures Valid() && lost == Lost(port.View(), ent, old(faultDraw))
      ensures View() == old(View()).(faultDraw := old(faultDraw) + LossDraws(port.View()))
    {
      lost := false;
      if port.loss > 0.0 {
        lost := ent.faults(faultDraw) < port.loss;
        faultDraw := faultDraw + 1;
      }
    }

    /** `_send`. */
    method SendFrom(port: Port, dst: Addr, msg: Message)
      requires Valid() && port.address in endpoints && endpoints[port.address] == port
      modifies this`nextMid, this`timeline, this`netDraw, this`faultDraw, this`reliableClock, this`sends, loop
      ensures Valid() && View() == Send(old(View()), ent, port.address, dst, msg)
    {
      hide Insert, Latency, Duplicated, Lost, Agendas.CallAt, LinkClock, PortViews;
      ViewAt(endpoints, port.address);
      var mid := nextMid;
      ghost var timer := if !port.reliable && Lost(port.View(), ent, faultDraw) then None else Some(loop.agenda.nextSeq);
      var latency := StartSend(port, dst, msg, timer);
      if port.reliable {
        ScheduleReliable(mid, port.address, dst, msg, latency);
      } else {
        SendUnreliable(port, mid, dst, msg, latency);
      }
    }

    /** The rest of `_send` for a datagram endpoint. */
    method SendUnreliable(port: Port, mid: nat, dst: Addr, msg: Message, latency: real)
      requires Valid()
      modifies this`timeline, this`faultDraw, loop
      ensures Valid()
      ensures var s := old(View()); var e := port.View(); var src := port.address;
              View() == if Lost(e, ent, s.faultDraw) then NetModel.Record(s, EvDrop(s.agenda.now, mid, src, dst)).(faultDraw := s.faultDraw + 1)
                        else Duplicated(Schedule(s, At(s.agenda.now + latency), Deliver(mid, src, dst, msg, false)).(faultDraw := s.faultDraw + LossDraws(e)),
                                        e, ent, mid, src, dst, msg)
    {
      hide Insert, Latency, Duplicated, PortViews;
      var lost := LoseIt(port);
      if lost {
        Record(EvDrop(loop.agenda.now, mid, port.address, dst));
        return;
      }
      loop.CallLater(latency, Deliver(mid, port.address, dst, msg, false));
      MaybeDuplicate(port, mid, dst, msg);
    }

    method MaybeDuplicate(port: Port, mid: nat, dst: Addr, msg: Message)
      requires Valid()
      modifies this`timeline, this`faultDraw, loop
      ensures Valid() && View() == Duplicated(old(View()), port.View(), ent, mid, port.address, dst, msg)
    {
      hide Agendas.CallAt, Slowed, PortViews;
      if port.duplicate > 0.0 {
        var doubled := ent.faults(faultDraw) < port.duplicate;
        faultDraw := faultDraw + 1;
        if doubled {
          var latency := LatencyOf(ent.faults(faultDraw), port.address, dst);
          faultDraw := faultDraw + 1;
          timeline := timeline + [EvDuplicate(loop.agenda.now, mid, port.address, dst)];
          Arm(loop.agenda.now + latency, Deliver(mid, port.address, dst, msg, true));
        }
      }
    }

    // ---- what the loop calls back -----------------------------------------------------------------------------------

    method DeliverNow(mid: nat, src: Addr, dst: Addr, msg: Message, at: nat)
      requires Valid()
      modifies this`timeline, endpoints.Values
      ensures Valid() && View() == Delivered(old(View()), mid, src, dst, msg, at)
    {
      var now := loop.agenda.now;
      if src in crashed || dst in crashed {
        Record(EvDropCrashed(now, mid, src, dst));
        return;
      }
      if !CanReach(src, dst) {
        Record(EvDropPartitioned(now, mid, src, dst));
        return;
      }
      Record(EvDeliver(now, mid, src, dst));
      assert PortViews(endpoints).Keys == endpoints.Keys;
      if dst !in endpoints {
        return;
      }
      var port := endpoints[dst];
      var item := Item(src, msg, mid, at);
      port.Enqueue(item);
      forall a | a in endpoints && a != dst ensures endpoints[a].View() == old(endpoints[a].View()) {
        assert endpoints[a].address != port.address;
      }
      assert PortViews(endpoints) == old(PortViews(endpoints))[dst := Enqueued(old(port.View()), item)];
    }

    method BeginFaultPartition(id: nat, groups: Groups)
      requires Valid()
      modifies this`faultPartitions, this`timeline
      ensures Valid() && View() == Fire(old(View()), BeginPartition(id, groups), 0)
    {
      faultPartitions := faultPartitions[id := groups];
      Record(EvPartitionBegin(loop.agenda.now, id));
    }

    method EndFaultPartition(id: nat)
      requires Valid()
      modifies this`faultPartitions, this`timeline
      ensures Valid() && View() == Fire(old(View()), EndPartition(id), 0)
    {
      faultPartitions := faultPartitions - {id};
      Record(EvPartitionHeal(loop.agenda.now, id));
    }

    method BeginSlowLink(id: nat, pair: set<Addr>, factor: real)
      requires Valid()
      modifies this`slowLinks, this`timeline
      ensures Valid() && View() == Fire(old(View()), BeginSlow(id, pair, factor), 0)
    {
      slowLinks := WithoutSlow(slowLinks, id) + [Slow(id, pair, factor)];
      Record(EvSlowBegin(loop.agenda.now, id));
    }

    method EndSlowLink(id: nat)
      requires Valid()
      modifies this`slowLinks, this`timeline
      ensures Valid() && View() == Fire(old(View()), EndSlow(id), 0)
    {
      slowLinks := WithoutSlow(slowLinks, id);
      Record(EvSlowEnd(loop.agenda.now, id));
    }

    method BeginCrashOf(id: nat, node: Addr)
      requires Valid()
      modifies this`crashed, this`timeline
      ensures Valid() && View() == Fire(old(View()), BeginCrash(id, node), 0)
    {
      crashed := crashed + {node};
      Record(EvCrash(loop.agenda.now, id, node));
    }

    // ---- seed-timed faults ------------------------------------------------------------------------------------------

    method BoundAddresses() returns (addrs: seq<Addr>)
      ensures addrs == SortedAddrs(endpoints.Keys)
    {
      addrs := SortedList(endpoints.Keys);
    }

    method ValidateGroups(groups: seq<GroupArg>) returns (why: Option<Refusal>)
      ensures why == GroupsRefused(groups, {}) && (why.None? <==> ValidGroups(groups, {}))
    {
      GroupsRefusedExactly(groups, {});
      hide OnlyAddresses;
      var seen: set<Addr> := {};
      var i := 0;
      while i < |groups|
        invariant 0 <= i <= |groups| && GroupsRefused(groups, {}) == GroupsRefused(groups[i..], seen)
      {
        assert groups[i..][1..] == groups[i + 1..];
        if groups[i].NotIterable? {
          return Some(GroupNotIterable);
        }
        if !OnlyAddresses(groups[i].vals) {
          return Some(GroupNotAddresses);
        }
        var addrs := AddrsOf(groups[i].vals);
        if seen * addrs != {} {
          return Some(GroupsOverlap);
        }
        seen := seen + addrs;
        i := i + 1;
      }
      why := None;
    }

    /** `_validate_fault`: the first check that fails, if any. It reads, never draws, never writes. */
    method ValidateFault(fault: Fault, seconds: real) returns (why: Option<Refusal>)
      ensures why == FaultRefused(endpoints.Keys, fault, seconds) && (why.None? <==> ValidFault(endpoints.Keys, fault, seconds))
    {
      FaultRefusedExactly(endpoints.Keys, fault, seconds);
      hide OtherBound, ValidFault, GroupsRefused, ValidGroups;
      var bound := endpoints.Keys;
      match fault
      case PartitionFault(groups) =>
        if groups.NotListed? {
          return Some(GroupsNotIterable);
        }
        if groups.groups != [] {
          why := ValidateGroups(groups.groups);
        } else {
          why := if |bound| < 2 then Some(TooFewToSplit) else None;
        }
      case SlowLinkFault(a, b, factor) =>
        if a.Some? && a.value.NotAddress? {
          return Some(FirstEndNotAddress);
        }
        if b.Some? && b.value.NotAddress? {
          return Some(SecondEndNotAddress);
        }
        if a.None? && b.None? {
          if |bound| < 2 {
            return Some(TooFewForALink);
          }
        } else if a.None? {
          if !OtherBound(bound, b.value.a) {
            return Some(NobodyForFirstEnd);
          }
        } else if b.None? && !OtherBound(bound, a.value.a) {
          return Some(NobodyForSecondEnd);
        }
        if a.Some? && a == b {
          return Some(SameEnds);
        }
        why := if factor.Some? && (!factor.value.Real? || factor.value.r <= 1.0) then Some(BadFactor) else None;
      case CrashFault(node, at) =>
        if node.Some? && node.value.NotAddress? {
          return Some(NodeNotAddress);
        }
        if at.Some? {
          if !at.value.Real? || at.value.r < 0.0 {
            return Some(BadMoment);
          }
          if at.value.r > seconds {
            return Some(MomentTooLate);
          }
        }
        why := if node.None? && bound == {} then Some(NobodyToCrash) else None;
      case Unrecognized =>
        why := Some(NotAFault);
    }

    /** One pass over the addresses, each on the side its draw says. */
    method OneSplit(addrs: seq<Addr>) returns (a: set<Addr>, b: set<Addr>)
      modifies this`faultDraw
      ensures a == Side(addrs, ent, old(faultDraw), true) && b == Side(addrs, ent, old(faultDraw), false)
      ensures faultDraw == old(faultDraw) + |addrs|
    {
      a, b := {}, {};
      var i := 0;
      while i < |addrs|
        invariant 0 <= i <= |addrs| && faultDraw == old(faultDraw) + i
        invariant a == Side(addrs[..i], ent, old(faultDraw), true) && b == Side(addrs[..i], ent, old(faultDraw), false)
      {
        SideMore(addrs, i, ent, old(faultDraw), true);
        SideMore(addrs, i, ent, old(faultDraw), false);
        if ent.faults(faultDraw) < 0.5 {
          a := a + {addrs[i]};
        } else {
          b := b + {addrs[i]};
        }
        faultDraw := faultDraw + 1;
        i := i + 1;
      }
      assert addrs[..i] == addrs;
    }

    /** `_draw_bipartition`, on a seed that splits at some try. */
    method DrawBipartition() returns (groups: Groups)
      requires EventuallySplits(ent) && |endpoints.Keys| >= 2
      modifies this`faultDraw
      ensures (groups, faultDraw) == DrawSplit(endpoints.Keys, ent, old(faultDraw))
    {
      hide Side, SplitsAtTry, SplitDraw, FirstSplit, EventuallySplits, SortedAddrs;
      var addrs := BoundAddresses();
      ghost var tries := SomeTry(|addrs|, ent, faultDraw);
      groups := RedrawUntilSplit(addrs, tries);
    }

    /** Draw again until neither side is empty. */
    method RedrawUntilSplit(addrs: seq<Addr>, ghost known: nat) returns (groups: Groups)
      requires SplitsAtTry(|addrs|, ent, faultDraw, known)
      modifies this`faultDraw
      ensures var d := SplitDraw(|addrs|, ent, old(faultDraw), known);
              groups == [Side(addrs, ent, d, true), Side(addrs, ent, d, false)] && faultDraw == d + |addrs|
    {
      hide Side, Splits;
      ghost var n := |addrs|;
      ghost var tries: nat := known;
      while true
        invariant SplitsAtTry(n, ent, faultDraw, tries) && SplitDraw(n, ent, faultDraw, tries) == SplitDraw(n, ent, old(faultDraw), known)
        decreases tries
      {
        ghost var start := faultDraw;
        SplitsBySides(addrs, ent, start);
        var a, b := OneSplit(addrs);
        if a != {} && b != {} {
          return [a, b];
        }
        assert tries != 0 by { assert start + 0 * n == start; }
        assert start + tries * n == faultDraw + (tries - 1) * n;
        tries := tries - 1;
      }
    }

    /** `random.choice` over the bound addresses other than those given. */
    method ChooseBound(except: set<Addr>) returns (x: Addr)
      requires endpoints.Keys - except != {}
      modifies this`faultDraw
      ensures x == ChooseFrom(endpoints.Keys - except, ent.faults(old(faultDraw))) && faultDraw == old(faultDraw) + 1
    {
      var rest := endpoints.Keys - except;
      var addrs := SortedList(rest);
      NonEmptySorted(rest);
      x := Choice(addrs, ent.faults(faultDraw));
      faultDraw := faultDraw + 1;
    }

    method Arm(when: real, what: Callback)
      requires Valid()
      modifies loop
      ensures Valid() && View() == Schedule(old(View()), At(when), what)
    {
      hide PortViews, Insert;
      loop.CallAt(when, what);
    }

    /** The next fault id, with what was decided for it. */
    method NewFault(kind: FaultKind, seconds: real, start: real, end: real, e: Event)
      requires Valid()
      modifies this`nextFaultId, this`timeline, this`faults
      ensures Valid()
      ensures var s := old(View());
              View() == s.(faults := s.faults + [FaultRecord(kind, s.agenda.now, seconds, s.agenda.nextSeq, start, end)], timeline := s.timeline + [e])
    {
      hide PortViews;
      nextFaultId := nextFaultId + 1;
      faults := faults + [FaultRecord(kind, loop.agenda.now, seconds, loop.agenda.nextSeq, start, end)];
      timeline := timeline + [e];
    }

    /** The window's two draws, its id, its timeline entry and its two timers. */
    method ScheduleWindow(seconds: real, kind: FaultKind, a: Addr, b: Addr)
      requires Valid() && !kind.KCrash?
      modifies this`faultDraw, this`nextFaultId, this`timeline, this`faults, loop
      ensures Valid() && View() == Window(old(View()), ent, old(faultDraw), seconds, kind, a, b)
    {
      hide PortViews, Schedule, Uniform;
      var now := loop.agenda.now;
      var start := Uniform(0.0, seconds, ent.faults(faultDraw));
      var end := Uniform(start, seconds, ent.faults(faultDraw + 1));
      faultDraw := faultDraw + 2;
      var id := nextFaultId;
      if kind.KPartition? {
        NewFault(kind, seconds, now + start, now + end, EvPartitionScheduled(now, id, kind.groups, now + start, now + end));
        Arm(now + start, BeginPartition(id, kind.groups));
        Arm(now + end, EndPartition(id));
      } else {
        NewFault(kind, seconds, now + start, now + end, EvSlowScheduled(now, id, a, b, kind.factor, now + start, now + end));
        Arm(now + start, BeginSlow(id, kind.pair, kind.factor));
        Arm(now + end, EndSlow(id));
      }
    }

    method CommitPartitionFault(groups: GroupsArg, seconds: real)
      requires Valid() && EventuallySplits(ent) && ValidPartition(endpoints.Keys, groups)
      modifies this`faultDraw, this`nextFaultId, this`timeline, this`faults, loop
      ensures Valid() && PortViews(endpoints).Keys == endpoints.Keys
      ensures View() == CommitPartition(old(View()), ent, groups, seconds)
    {
      hide Window, DrawSplit, EventuallySplits, ValidGroups;
      KeysOf(endpoints);
      hide PortViews;
      var gs: Groups;
      if groups.groups != [] {
        gs := GivenGroups(groups.groups);
      } else {
        gs := DrawBipartition();
      }
      WindowDraws(old(View()), ent, faultDraw, seconds, KPartition(gs), 0, 0);
      ScheduleWindow(seconds, KPartition(gs), 0, 0);
    }

    method ChooseSlowEnds(a: Option<Val>, b: Option<Val>) returns (x: Addr, y: Addr)
      requires ValidSlow(endpoints.Keys, a, b)
      modifies this`faultDraw
      ensures (x, y) == ChooseEnds(endpoints.Keys, ent, old(faultDraw), a, b)
      ensures faultDraw == old(faultDraw) + Open(a) + Open(b)
    {
      hide ChooseFrom, OtherBound;
      var bound := endpoints.Keys;
      if a.None? && b.None? {
        EnoughFor(bound);
        assert bound - {} == bound;
        x := ChooseBound({});
        OthersExist(bound, x);
        y := ChooseBound({x});
      } else if a.None? {
        OthersOf(bound, b.value.a);
        y := b.value.a;
        x := ChooseBound({y});
      } else if b.None? {
        OthersOf(bound, a.value.a);
        x := a.value.a;
        y := ChooseBound({x});
      } else {
        x, y := a.value.a, b.value.a;
      }
    }

    method CommitSlowLinkFault(a: Option<Val>, b: Option<Val>, factor: Option<Num>, seconds: real)
      requires Valid() && ValidSlow(endpoints.Keys, a, b) && ValidFactor(factor)
      modifies this`faultDraw, this`nextFaultId, this`timeline, this`faults, loop
      ensures Valid() && PortViews(endpoints).Keys == endpoints.Keys
      ensures View() == CommitSlow(old(View()), ent, a, b, factor, seconds)
    {
      hide Window, ChooseEnds, OtherBound;
      KeysOf(endpoints);
      hide PortViews;
      var x, y := ChooseSlowEnds(a, b);
      var f;
      if factor.Some? {
        f := factor.value.r;
      } else {
        f := Uniform(2.0, 50.0, ent.faults(faultDraw));
        faultDraw := faultDraw + 1;
      }
      WindowDraws(old(View()), ent, faultDraw, seconds, KSlow({x, y}, f), x, y);
      ScheduleWindow(seconds, KSlow({x, y}, f), x, y);
    }

    method CommitCrashFault(node: Option<Val>, at: Option<Num>, seconds: real)
      requires Valid() && ValidCrash(endpoints.Keys, node, at, seconds)
      modifies this`faultDraw, this`nextFaultId, this`timeline, this`faults, loop
      ensures Valid() && PortViews(endpoints).Keys == endpoints.Keys
      ensures View() == CommitCrash(old(View()), ent, node, at, seconds)
    {
      hide Schedule, ChooseFrom, Uniform;
      KeysOf(endpoints);
      hide PortViews;
      var now := loop.agenda.now;
      var offset;
      if at.Some? {
        offset := at.value.r;
      } else {
        offset := Uniform(0.0, seconds, ent.faults(faultDraw));
        faultDraw := faultDraw + 1;
      }
      var n;
      if node.Some? {
        n := node.value.a;
      } else {
        assert endpoints.Keys - {} == endpoints.Keys;
        n := ChooseBound({});
      }
      var id := nextFaultId;
      NewFault(KCrash(n), seconds, now + offset, now + offset, EvCrashScheduled(now, id, n, now + offset));
      Arm(now + offset, BeginCrash(id, n));
    }

    method CommitFault(fault: Fault, seconds: real)
      requires Valid() && EventuallySplits(ent) && ValidFault(endpoints.Keys, fault, seconds)
      modifies this`faultDraw, this`nextFaultId, this`timeline, this`faults, loop
      ensures Valid() && PortViews(endpoints).Keys == endpoints.Keys
      ensures View() == Commit(old(View()), ent, fault, seconds)
    {
      hide CommitPartition, CommitSlow, CommitCrash, EventuallySplits, ValidPartition, ValidSlow, ValidCrash;
      KeysOf(endpoints);
      hide PortViews;
      match fault
      case PartitionFault(groups) => CommitPartitionFault(groups, seconds);
      case SlowLinkFault(a, b, factor) => CommitSlowLinkFault(a, b, factor, seconds);
      case CrashFault(node, at) => CommitCrashFault(node, at, seconds);
    }

    /** The first pass: it only looks, and ends at the first fault that is refused. */
    method ValidateList(seconds: real, list: seq<Fault>) returns (why: Option<Refusal>)
      ensures if why.Some? then exists i :: FirstRefused(endpoints.Keys, list, seconds, i, why.value)
              else AllValid(endpoints.Keys, list, seconds)
    {
      hide ValidFault, FaultRefused;
      var i := 0;
      while i < |list|
        invariant 0 <= i <= |list| && AllValid(endpoints.Keys, list[..i], seconds)
      {
        why := ValidateFault(list[i], seconds);
        if why.Some? {
          assert FirstRefused(endpoints.Keys, list, seconds, i, why.value);
          return;
        }
        assert list[..i + 1] == list[..i] + [list[i]];
        i := i + 1;
      }
      assert list[..i] == list;
      why := None;
    }

    /** `World.run_for` up to where it sleeps: two passes over the list, one that only looks and one
        that only commits. What it raises is decided by the first. */
    method RunFor(seconds: Num, list: seq<Fault>) returns (why: Option<Refusal>)
      requires Valid() && EventuallySplits(ent)
      modifies this`faultDraw, this`nextFaultId, this`timeline, this`faults, this`calls, this`sleepers, loop
      ensures Valid() && RaisedBy(old(View()).endpoints.Keys, seconds, list, why)
      ensures View() == NetFaults.RunFor(old(View()), ent, seconds, list)
    {
      hide CommitAll, EventuallySplits, AllValid, Insert, FirstRefused;
      KeysOf(endpoints);
      hide PortViews;
      why := Some(BadSeconds);
      if seconds.Real? && seconds.r >= 0.0 {
        why := ValidateList(seconds.r, list);
      }
      assert RaisedBy(old(View()).endpoints.Keys, seconds, list, why);
      RaisedExactly(old(View()), seconds, list, why, why);
      if why.None? {
        ghost var from := |faults|;
        CommitList(seconds.r, list);
        Sleep(seconds.r, from);
      }
    }

    /** `asyncio.sleep`: no timer for no time. */
    method Sleep(seconds: real, ghost from: nat)
      requires Valid()
      modifies this`calls, this`sleepers, loop
      ensures Valid()
      ensures var t := old(View()); var timer := if seconds > 0.0 then Some(t.agenda.nextSeq) else None;
              var u := t.(calls := t.calls + [RunRecord(t.agenda.now, seconds, from, |t.faults|, timer)]);
              View() == if seconds > 0.0 then Schedule(u, At(t.agenda.now + seconds), Wake(|t.calls|)) else u
    {
      hide PortViews, Insert;
      ghost var timer := if seconds > 0.0 then Some(loop.agenda.nextSeq) else None;
      calls := calls + [RunRecord(loop.agenda.now, seconds, from, |faults|, timer)];
      sleepers := sleepers + 1;
      if seconds > 0.0 {
        loop.CallLater(seconds, Wake(sleepers - 1));
      }
    }

    method CommitList(seconds: real, list: seq<Fault>)
      requires Valid() && EventuallySplits(ent) && AllValid(endpoints.Keys, list, seconds) && PortViews(endpoints).Keys == endpoints.Keys
      modifies this`faultDraw, this`nextFaultId, this`timeline, this`faults, loop
      ensures Valid() && View() == CommitAll(old(View()), ent, list, seconds)
    {
      hide Commit, EventuallySplits, ValidFault, PortViews;
      ghost var s := View();
      var i := 0;
      while i < |list|
        invariant 0 <= i <= |list| && Valid() && PortViews(endpoints).Keys == endpoints.Keys
        invariant AllValid(s.endpoints.Keys, list[..i], seconds) && View() == CommitAll(s, ent, list[..i], seconds)
      {
        assert list[..i + 1][..i] == list[..i] && list[..i + 1][i] == list[i];
        CommitFault(list[i], seconds);
        i := i + 1;
      }
      assert list[..i] == list;
    }
  }
}
