/** What the network has on record, and what each timer it ever made stands for. The records only
    grow, so what is true of them stays true. */
module NetBook {
  import opened Common
  import opened Agendas
  import opened NetModel

  datatype Book = Book(made: seq<Timer<Callback>>, sends: seq<SendRecord>, faults: seq<FaultRecord>, calls: seq<RunRecord>)

  function BookOf(s: Sys): Book { Book(s.made, s.sends, s.faults, s.calls) }

  ghost predicate Grows(b: Book, c: Book) {
    b.made <= c.made && b.sends <= c.sends && b.faults <= c.faults && b.calls <= c.calls
  }

  // ---- when a message is due: a reference that never looks at loss, duplication or "faults" ---------------

  /** The latest due time among the reliable sends on a link: what `_reliable_clock` should hold. */
  function LastDue(sends: seq<SendRecord>, net: nat -> Unit, link: (Addr, Addr)): real {
    if sends == [] then 0.0
    else
      var r := sends[|sends| - 1];
      var before := LastDue(sends[..|sends| - 1], net, link);
      if r.reliable && (r.src, r.dst) == link then Max(r.t + Latency(net, |sends| - 1, r.slow, r.src, r.dst), before)
      else before
  }

  /** When the original copy of a message is due: the mid-th send uses the mid-th "net" draw. */
  function Due(sends: seq<SendRecord>, net: nat -> Unit, mid: nat): real
    requires mid < |sends|
  {
    var r := sends[mid];
    if r.reliable then LastDue(sends[..mid + 1], net, (r.src, r.dst))
    else r.t + Latency(net, mid, r.slow, r.src, r.dst)
  }

  lemma DueGrows(sends: seq<SendRecord>, more: seq<SendRecord>, net: nat -> Unit, mid: nat)
    requires mid < |sends| && sends <= more
    ensures Due(sends, net, mid) == Due(more, net, mid)
  {
    assert sends[..mid + 1] == more[..mid + 1];
  }

  lemma {:induction false} LastDueGrows(sends: seq<SendRecord>, n: nat, net: nat -> Unit, link: (Addr, Addr))
    requires n <= |sends|
    ensures LastDue(sends[..n], net, link) <= LastDue(sends, net, link)
    decreases |sends|
  {
    if n < |sends| {
      var front := sends[..|sends| - 1];
      LastDueGrows(front, n, net, link);
      assert front[..n] == sends[..n];
    } else {
      assert sends[..n] == sends;
    }
  }

  /** On a reliable link due times never go backwards. */
  lemma ReliableDueOrder(sends: seq<SendRecord>, net: nat -> Unit, m: nat, n: nat)
    requires m <= n < |sends| && sends[m].reliable && sends[n].reliable
    requires sends[m].src == sends[n].src && sends[m].dst == sends[n].dst
    ensures Due(sends, net, m) <= Due(sends, net, n)
  {
    LastDueGrows(sends[..n + 1], m + 1, net, (sends[n].src, sends[n].dst));
    assert sends[..n + 1][..m + 1] == sends[..m + 1];
  }

  // ---- what each timer stands for --------------------------------------------------------------------------------

  ghost predicate IsFault(b: Book, id: nat, kind: FaultKind) {
    id < |b.faults| && b.faults[id].kind == kind
  }

  ghost predicate IsWindow(b: Book, id: nat) {
    id < |b.faults| && !b.faults[id].kind.KCrash?
  }

  ghost predicate IsSend(b: Book, mid: nat, src: Addr, dst: Addr) {
    mid < |b.sends| && b.sends[mid].src == src && b.sends[mid].dst == dst
  }

  /** The k-th timer, by what it calls. */
  ghost predicate TimerTold(b: Book, k: nat, what: Callback) {
    match what
    case Deliver(mid, src, dst, msg, extra) =>
      && IsSend(b, mid, src, dst) && b.sends[mid].msg == msg
      && (if extra then !b.sends[mid].reliable else b.sends[mid].timer == Some(k))
    case BeginPartition(id, groups) => IsFault(b, id, KPartition(groups)) && b.faults[id].first == k
    case EndPartition(id) => IsWindow(b, id) && b.faults[id].kind.KPartition? && b.faults[id].first + 1 == k
    case BeginSlow(id, pair, factor) => IsFault(b, id, KSlow(pair, factor)) && b.faults[id].first == k
    case EndSlow(id) => IsWindow(b, id) && b.faults[id].kind.KSlow? && b.faults[id].first + 1 == k
    case BeginCrash(id, node) => IsFault(b, id, KCrash(node)) && b.faults[id].first == k
    case Wake(c) => c < |b.calls| && b.calls[c].timer == Some(k)
    case User(_) => true
  }

  /** A message takes at least the shortest latency; no other timer of the network is set in the past. */
  ghost predicate AheadOf(t: Timer<Callback>) {
    match t.what
    case Deliver(_, _, _, _, _) => t.when.At? && t.setAt + LAT_MIN <= t.when.t
    case User(_) => true
    case _ => t.when.At? && t.setAt <= t.when.t
  }

  ghost predicate TimersTold(b: Book) {
    forall k :: 0 <= k < |b.made| ==> TimerTold(b, k, b.made[k].what) && AheadOf(b.made[k])
  }

  // ---- where the timer of each send, fault and call is -------------------------------------------------------------

  ghost predicate HasTimer(b: Book, k: nat, when: real, setAt: real, what: Callback) {
    k < |b.made| && b.made[k] == Timer(At(when), k, setAt, what)
  }

  ghost predicate SendTold(b: Book, mid: nat, r: SendRecord, due: real) {
    && (r.timer.Some? ==> HasTimer(b, r.timer.value, due, r.t, Deliver(mid, r.src, r.dst, r.msg, false)))
    && (r.reliable ==> r.timer.Some?)
  }

  ghost predicate SendsTold(b: Book, net: nat -> Unit) {
    forall mid :: 0 <= mid < |b.sends| ==> SendTold(b, mid, b.sends[mid], Due(b.sends, net, mid))
  }

  ghost predicate EarlierTimer(r: SendRecord, s: SendRecord) {
    r.timer.Some? && s.timer.Some? ==> r.timer.value < s.timer.value
  }

  /** Messages get their timers in the order they are sent. */
  ghost predicate TimersInSendOrder(b: Book) {
    forall m, n :: 0 <= m < n < |b.sends| ==> EarlierTimer(b.sends[m], b.sends[n])
  }

  function BeginWhat(id: nat, kind: FaultKind): Callback {
    match kind
    case KPartition(groups) => BeginPartition(id, groups)
    case KSlow(pair, factor) => BeginSlow(id, pair, factor)
    case KCrash(node) => BeginCrash(id, node)
  }

  function EndWhat(id: nat, kind: FaultKind): Callback
    requires !kind.KCrash?
  {
    if kind.KPartition? then EndPartition(id) else EndSlow(id)
  }

  /** A window lies inside the `run_for` that scheduled it, and a slow link slows. */
  ghost predicate Within(f: FaultRecord) {
    f.t <= f.start <= f.end <= f.t + f.seconds && (f.kind.KSlow? ==> f.kind.factor > 1.0)
  }

  ghost predicate FaultTold(b: Book, id: nat, f: FaultRecord) {
    && Within(f)
    && HasTimer(b, f.first, f.start, f.t, BeginWhat(id, f.kind))
    && (!f.kind.KCrash? ==> HasTimer(b, f.first + 1, f.end, f.t, EndWhat(id, f.kind)))
  }

  ghost predicate FaultsTold(b: Book) {
    forall id :: 0 <= id < |b.faults| ==> FaultTold(b, id, b.faults[id])
  }

  /** The timer that ends a fault's part in the run: a crash only begins. */
  function LastTimer(f: FaultRecord): nat {
    if f.kind.KCrash? then f.first else f.first + 1
  }

  /** A call's faults were scheduled when it was entered, before the timer it sleeps on. */
  ghost predicate OfCall(f: FaultRecord, c: RunRecord) {
    f.t == c.t && f.seconds == c.seconds && (c.timer.Some? ==> LastTimer(f) < c.timer.value)
  }

  ghost predicate CallTold(b: Book, i: nat, c: RunRecord) {
    && c.from <= c.upto <= |b.faults|
    && (c.timer.Some? <==> c.seconds > 0.0)
    && (c.timer.Some? ==> HasTimer(b, c.timer.value, c.t + c.seconds, c.t, Wake(i)))
    && forall id :: c.from <= id < c.upto ==> OfCall(b.faults[id], c)
  }

  ghost predicate CallsTold(b: Book) {
    forall i :: 0 <= i < |b.calls| ==> CallTold(b, i, b.calls[i])
  }

  ghost predicate Told(b: Book, net: nat -> Unit) {
    TimersTold(b) && SendsTold(b, net) && TimersInSendOrder(b) && FaultsTold(b) && CallsTold(b)
  }

  // ---- what one more timer, send, fault or call keeps ---------------------------------------------------------------

  lemma TimerStaysTold(b: Book, c: Book, k: nat, what: Callback)
    requires TimerTold(b, k, what) && Grows(b, c)
    ensures TimerTold(c, k, what)
  {
  }

  lemma SendStaysTold(b: Book, c: Book, net: nat -> Unit, mid: nat)
    requires mid < |b.sends| && SendTold(b, mid, b.sends[mid], Due(b.sends, net, mid)) && Grows(b, c)
    ensures SendTold(c, mid, c.sends[mid], Due(c.sends, net, mid))
  {
    DueGrows(b.sends, c.sends, net, mid);
  }

  /** Everything on record stays told; only what is new has to be shown. */
  lemma ToldGrows(b: Book, c: Book, net: nat -> Unit)
    requires Told(b, net) && Grows(b, c)
    requires forall k :: |b.made| <= k < |c.made| ==> TimerTold(c, k, c.made[k].what) && AheadOf(c.made[k])
    requires forall mid :: |b.sends| <= mid < |c.sends| ==> SendTold(c, mid, c.sends[mid], Due(c.sends, net, mid))
    requires forall m, n :: 0 <= m < n < |c.sends| && |b.sends| <= n ==> EarlierTimer(c.sends[m], c.sends[n])
    requires forall id :: |b.faults| <= id < |c.faults| ==> FaultTold(c, id, c.faults[id])
    requires forall i :: |b.calls| <= i < |c.calls| ==> CallTold(c, i, c.calls[i])
    ensures Told(c, net)
  {
    forall k | 0 <= k < |c.made| ensures TimerTold(c, k, c.made[k].what) && AheadOf(c.made[k]) {
      if k < |b.made| {
        TimerStaysTold(b, c, k, b.made[k].what);
      }
    }
    forall mid | 0 <= mid < |c.sends| ensures SendTold(c, mid, c.sends[mid], Due(c.sends, net, mid)) {
      if mid < |b.sends| {
        SendStaysTold(b, c, net, mid);
      }
    }
    forall m, n | 0 <= m < n < |c.sends| ensures EarlierTimer(c.sends[m], c.sends[n]) {
      if n < |b.sends| {
        assert EarlierTimer(b.sends[m], b.sends[n]);
      }
    }
    forall id | 0 <= id < |c.faults| ensures FaultTold(c, id, c.faults[id]) {
      if id < |b.faults| {
        assert FaultTold(b, id, b.faults[id]);
      }
    }
    forall i | 0 <= i < |c.calls| ensures CallTold(c, i, c.calls[i]) {
      if i < |b.calls| {
        assert CallTold(b, i, b.calls[i]);
      }
    }
  }
}
