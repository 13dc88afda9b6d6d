/** The simulated network and its fault registries (src/seedloop/_net.py) on top of the agenda, as
    functions on one value: the clock and timers, the endpoints, the faults, and the two entropy
    cursors. A message in flight is a timer. */
module NetModel {
  import opened Common
  import opened Agendas

  type Addr = int
  type Message = nat
  type Groups = seq<set<Addr>>

  const LAT_MIN := 0.001
  const LAT_MAX := 0.020

  /** One draw from a `random.Random`, in [0, 1). */
  type Unit = r: real | 0.0 <= r < 1.0 witness 0.0

  /** The "net" and "faults" sub-streams: any two infinite streams. */
  datatype Entropy = Entropy(net: nat -> Unit, faults: nat -> Unit)

  function Uniform(lo: real, hi: real, u: Unit): real { lo + (hi - lo) * u }

  // ---- what is on the agenda ---------------------------------------------------------------------------

  /** The callbacks the network schedules, the wake-up of a `run_for`, and user code's own. `extra`
      marks the second copy of a duplicated message. */
  datatype Callback =
    | Deliver(mid: nat, src: Addr, dst: Addr, msg: Message, extra: bool)
    | BeginPartition(id: nat, groups: Groups) | EndPartition(id: nat)
    | BeginSlow(id: nat, pair: set<Addr>, factor: real) | EndSlow(id: nat)
    | BeginCrash(id: nat, node: Addr)
    | Wake(call: nat)
    | User(k: nat)

  datatype Event =
    | EvSend(t: real, mid: nat, src: Addr, dst: Addr)
    | EvDrop(t: real, mid: nat, src: Addr, dst: Addr)
    | EvDuplicate(t: real, mid: nat, src: Addr, dst: Addr)
    | EvDeliver(t: real, mid: nat, src: Addr, dst: Addr)
    | EvDropCrashed(t: real, mid: nat, src: Addr, dst: Addr)
    | EvDropPartitioned(t: real, mid: nat, src: Addr, dst: Addr)
    | EvPartitionScheduled(t: real, id: nat, groups: Groups, start: real, end: real)
    | EvPartitionBegin(t: real, id: nat) | EvPartitionHeal(t: real, id: nat)
    | EvSlowScheduled(t: real, id: nat, a: Addr, b: Addr, factor: real, start: real, end: real)
    | EvSlowBegin(t: real, id: nat) | EvSlowEnd(t: real, id: nat)
    | EvCrashScheduled(t: real, id: nat, node: Addr, at: real)
    | EvCrash(t: real, id: nat, node: Addr)

  // ---- state ----------------------------------------------------------------------------------------------

  /** A queued message; `mid` and `at` (its delivery's place in what the loop has taken) identify it. */
  datatype Item = Item(src: Addr, msg: Message, mid: nat, at: nat)

  /** A receiver's waiter: none, pending, or done but not resumed yet. */
  datatype Waiter = Idle | Waiting | Woken

  /** `enqueued` and `returned` are all that ever went into and came out of the queue; `missed` the
      messages that arrived before anyone bound the address. */
  datatype Endpoint = Endpoint(reliable: bool, loss: real, duplicate: real, queue: seq<Item>, waiter: Waiter,
                               enqueued: seq<Item>, returned: seq<Item>, missed: seq<nat>)

  datatype Slow = Slow(id: nat, pair: set<Addr>, factor: real)

  /** One send: when, on which link, under which slow-link windows, and the timer of its original copy
      (none if it was dropped). */
  datatype SendRecord = SendRecord(t: real, src: Addr, dst: Addr, msg: Message, reliable: bool, slow: seq<Slow>, timer: Option<nat>)

  datatype FaultKind = KPartition(groups: Groups) | KSlow(pair: set<Addr>, factor: real) | KCrash(node: Addr)

  /** One scheduled fault: when and by a `run_for` of what length, its first timer, and its window. */
  datatype FaultRecord = FaultRecord(kind: FaultKind, t: real, seconds: real, first: nat, start: real, end: real)

  /** One `run_for` that committed: when, for how long, its faults, and the timer it sleeps on. */
  datatype RunRecord = RunRecord(t: real, seconds: real, from: nat, upto: nat, timer: Option<nat>)

  datatype Sys = Sys(
    agenda: Agenda<Callback>,
    endpoints: map<Addr, Endpoint>,
    partition: Option<Groups>,
    reliableClock: map<(Addr, Addr), real>,
    faultPartitions: map<nat, Groups>,
    slowLinks: seq<Slow>,
    crashed: set<Addr>,
    netDraw: nat,
    faultDraw: nat,
    timeline: seq<Event>,
    // Every timer made, message sent, fault scheduled and `run_for` entered so far: a timer's
    // sequence number, a message id and a fault id are places in these.
    made: seq<Timer<Callback>>,
    sends: seq<SendRecord>,
    faults: seq<FaultRecord>,
    calls: seq<RunRecord>)

  const NewSys := Sys(Agenda(0.0, [], 0, [], []), map[], None, map[], map[], [], {}, 0, 0, [], [], [], [], [])

  function Record(s: Sys, e: Event): Sys {
    s.(timeline := s.timeline + [e])
  }

  function Schedule(s: Sys, when: Deadline, what: Callback): (t: Sys)
    ensures t == s.(agenda := t.agenda, made := t.made)
  {
    s.(agenda := CallAt(s.agenda, when, what), made := s.made + [Timer(when, s.agenda.nextSeq, s.agenda.now, what)])
  }

  // ---- reachability ----------------------------------------------------------------------------------------

  /** The first group that holds the address. */
  function GroupOf(groups: Groups, a: Addr): Option<nat> {
    if groups == [] then None
    else if a in groups[0] then Some(0)
    else
      var rest := GroupOf(groups[1..], a);
      if rest.Some? then Some(rest.value + 1) else None
  }

  /** Both addresses are listed, first in different groups. */
  predicate Cut(groups: Groups, src: Addr, dst: Addr) {
    GroupOf(groups, src).Some? && GroupOf(groups, dst).Some? && GroupOf(groups, src) != GroupOf(groups, dst)
  }

  predicate Reachable(s: Sys, src: Addr, dst: Addr) {
    && !(s.partition.Some? && Cut(s.partition.value, src, dst))
    && forall id :: id in s.faultPartitions ==> !Cut(s.faultPartitions[id], src, dst)
  }

  /** Every open slow link on the pair multiplies the latency. */
  function SlowFactor(slow: seq<Slow>, pair: set<Addr>): real {
    if slow == [] then 1.0
    else
      var last := slow[|slow| - 1];
      SlowFactor(slow[..|slow| - 1], pair) * (if last.pair == pair then last.factor else 1.0)
  }

  // ---- sending and delivering ------------------------------------------------------------------------------

  /** A drawn latency, multiplied by the slow links open on the pair. */
  function Slowed(u: Unit, slow: seq<Slow>, src: Addr, dst: Addr): real {
    Uniform(LAT_MIN, LAT_MAX, u) * SlowFactor(slow, {src, dst})
  }

  function Latency(stream: nat -> Unit, draw: nat, slow: seq<Slow>, src: Addr, dst: Addr): real {
    Slowed(stream(draw), slow, src, dst)
  }

  function LinkClock(clocks: map<(Addr, Addr), real>, link: (Addr, Addr)): real {
    if link in clocks then clocks[link] else 0.0
  }

  /** What every send has in common: the timeline entry and exactly one "net" draw. */
  function Sent(s: Sys, src: Addr, dst: Addr, msg: Message, reliable: bool, timer: Option<nat>): Sys {
    Record(s, EvSend(s.agenda.now, |s.sends|, src, dst)).(
      netDraw := s.netDraw + 1,
      sends := s.sends + [SendRecord(s.agenda.now, src, dst, msg, reliable, s.slowLinks, timer)])
  }

  function SendReliable(s: Sys, ent: Entropy, src: Addr, dst: Addr, msg: Message): (t: Sys)
    ensures t == s.(agenda := t.agenda, made := t.made, reliableClock := t.reliableClock, netDraw := t.netDraw,
                    timeline := t.timeline, sends := t.sends)
  {
    var when := Max(s.agenda.now + Latency(ent.net, s.netDraw, s.slowLinks, src, dst), LinkClock(s.reliableClock, (src, dst)));
    Schedule(Sent(s, src, dst, msg, true, Some(s.agenda.nextSeq)), At(when), Deliver(|s.sends|, src, dst, msg, false)).(
      reliableClock := s.reliableClock[(src, dst) := when])
  }

  /** The loss decision: it draws only if loss is possible at all. */
  predicate Lost(e: Endpoint, ent: Entropy, draw: nat) {
    e.loss > 0.0 && ent.faults(draw) < e.loss
  }

  function LossDraws(e: Endpoint): nat { if e.loss > 0.0 then 1 else 0 }

  /** The duplicate, whose latency comes from "faults". */
  function Duplicated(s: Sys, e: Endpoint, ent: Entropy, mid: nat, src: Addr, dst: Addr, msg: Message): (t: Sys)
    ensures t == s.(agenda := t.agenda, made := t.made, faultDraw := t.faultDraw, timeline := t.timeline)
  {
    if e.duplicate <= 0.0 then s
    else if ent.faults(s.faultDraw) >= e.duplicate then s.(faultDraw := s.faultDraw + 1)
    else
      var when := s.agenda.now + Latency(ent.faults, s.faultDraw + 1, s.slowLinks, src, dst);
      Schedule(Record(s, EvDuplicate(s.agenda.now, mid, src, dst)), At(when), Deliver(mid, src, dst, msg, true)).(
        faultDraw := s.faultDraw + 2)
  }

  /** The original copy of a datagram that is not lost. */
  function SendOnce(s: Sys, ent: Entropy, src: Addr, dst: Addr, msg: Message): (t: Sys)
    ensures t == s.(agenda := t.agenda, made := t.made, netDraw := t.netDraw, timeline := t.timeline, sends := t.sends)
  {
    var when := s.agenda.now + Latency(ent.net, s.netDraw, s.slowLinks, src, dst);
    Schedule(Sent(s, src, dst, msg, false, Some(s.agenda.nextSeq)), At(when), Deliver(|s.sends|, src, dst, msg, false))
  }

  function SendDatagram(s: Sys, e: Endpoint, ent: Entropy, src: Addr, dst: Addr, msg: Message): (t: Sys)
    ensures t == s.(agenda := t.agenda, made := t.made, netDraw := t.netDraw, faultDraw := t.faultDraw,
                    timeline := t.timeline, sends := t.sends)
  {
    if Lost(e, ent, s.faultDraw) then
      Record(Sent(s, src, dst, msg, false, None), EvDrop(s.agenda.now, |s.sends|, src, dst)).(faultDraw := s.faultDraw + 1)
    else
      var once := SendOnce(s, ent, src, dst, msg).(faultDraw := s.faultDraw + LossDraws(e));
      Duplicated(once, e, ent, |s.sends|, src, dst, msg)
  }

  /** `_send`: the endpoint object is the sender, so it must be bound. */
  function Send(s: Sys, ent: Entropy, src: Addr, dst: Addr, msg: Message): (t: Sys)
    requires src in s.endpoints
    ensures t == s.(agenda := t.agenda, made := t.made, reliableClock := t.reliableClock, netDraw := t.netDraw,
                    faultDraw := t.faultDraw, timeline := t.timeline, sends := t.sends)
  {
    if s.endpoints[src].reliable then SendReliable(s, ent, src, dst, msg)
    else SendDatagram(s, s.endpoints[src], ent, src, dst, msg)
  }

  function Enqueued(e: Endpoint, item: Item): Endpoint {
    e.(queue := e.queue + [item], enqueued := e.enqueued + [item], waiter := if e.waiter.Waiting? then Woken else e.waiter)
  }

  /** A delivery fires: crashes first, then partitions, then the destination's queue. */
  function Delivered(s: Sys, mid: nat, src: Addr, dst: Addr, msg: Message, at: nat): (t: Sys)
    ensures t == s.(timeline := t.timeline, endpoints := t.endpoints)
  {
    var now := s.agenda.now;
    if src in s.crashed || dst in s.crashed then Record(s, EvDropCrashed(now, mid, src, dst))
    else if !Reachable(s, src, dst) then Record(s, EvDropPartitioned(now, mid, src, dst))
    else
      var t := Record(s, EvDeliver(now, mid, src, dst));
      if dst in t.endpoints then t.(endpoints := t.endpoints[dst := Enqueued(t.endpoints[dst], Item(src, msg, mid, at))])
      else t
  }

  // ---- fault windows -------------------------------------------------------------------------------------------

  function WithoutSlow(slow: seq<Slow>, id: nat): seq<Slow> {
    if slow == [] then []
    else if slow[0].id == id then WithoutSlow(slow[1..], id)
    else [slow[0]] + WithoutSlow(slow[1..], id)
  }

  /** The effect of one of the network's own callbacks. */
  function Fire(s: Sys, what: Callback, at: nat): (t: Sys)
    ensures t == s.(timeline := t.timeline, endpoints := t.endpoints, faultPartitions := t.faultPartitions,
                    slowLinks := t.slowLinks, crashed := t.crashed)
  {
    var now := s.agenda.now;
    match what
    case Deliver(mid, src, dst, msg, _) => Delivered(s, mid, src, dst, msg, at)
    case BeginPartition(id, groups) => Record(s.(faultPartitions := s.faultPartitions[id := groups]), EvPartitionBegin(now, id))
    case EndPartition(id) => Record(s.(faultPartitions := s.faultPartitions - {id}), EvPartitionHeal(now, id))
    case BeginSlow(id, pair, factor) => Record(s.(slowLinks := WithoutSlow(s.slowLinks, id) + [Slow(id, pair, factor)]), EvSlowBegin(now, id))
    case EndSlow(id) => Record(s.(slowLinks := WithoutSlow(s.slowLinks, id)), EvSlowEnd(now, id))
    case BeginCrash(id, node) => Record(s.(crashed := s.crashed + {node}), EvCrash(now, id, node))
    case Wake(_) => s
    case User(_) => s
  }

  // ---- receiving ----------------------------------------------------------------------------------------------

  function Popped(e: Endpoint): Endpoint
    requires e.queue != []
  {
    e.(queue := e.queue[1..], returned := e.returned + [e.queue[0]], waiter := Idle)
  }

  /** The head of `recv`'s loop: take what is queued or wait. */
  function TryRecv(e: Endpoint): Endpoint {
    if e.queue == [] then e.(waiter := Waiting) else Popped(e)
  }

  // ---- binding ------------------------------------------------------------------------------------------------

  predicate Probability(n: Num) { n.Real? && 0.0 <= n.r <= 1.0 }

  /** The ids of the messages delivered to an address, in order. */
  function DeliveredTo(timeline: seq<Event>, a: Addr): seq<nat> {
    if timeline == [] then []
    else
      var last := timeline[|timeline| - 1];
      var rest := DeliveredTo(timeline[..|timeline| - 1], a);
      if last.EvDeliver? && last.dst == a then rest + [last.mid] else rest
  }

  predicate CanBind(bound: set<Addr>, a: Addr, loss: Num, duplicate: Num) {
    a !in bound && Probability(loss) && Probability(duplicate)
  }

  function BindTo(s: Sys, a: Addr, reliable: bool, loss: Num, duplicate: Num): (t: Sys)
    ensures t == s.(endpoints := t.endpoints)
  {
    if CanBind(s.endpoints.Keys, a, loss, duplicate) then
      s.(endpoints := s.endpoints[a := Endpoint(reliable, loss.r, duplicate.r, [], Idle, [], [], DeliveredTo(s.timeline, a))])
    else s
  }
}
