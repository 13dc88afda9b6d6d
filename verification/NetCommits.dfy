/** Committing faults and entering `run_for` keep the network's invariant, and every committed fault is
    what the caller asked for. */
module NetCommits {
  import opened Common
  import opened Agendas
  import opened AgendaMembers
  import opened NetModel
  import opened NetFaults
  import opened NetBook
  import opened NetTimers
  import opened NetInv

  lemma TookKnown(a: Agenda<Callback>, made: seq<Timer<Callback>>, k: nat)
    requires Held(a, made) && Took(a.taken, k)
    ensures k < |made|
  {
    var i :| 0 <= i < |a.taken| && TookAs(a.taken[i], k);
    var t := a.taken[i].entry.timer;
    assert WasTaken(a, t);
    TakenInLine(a, t);
    assert Known(a, made, t);
  }

  lemma NotYetTaken(a: Agenda<Callback>, made: seq<Timer<Callback>>, k: nat)
    requires Held(a, made) && k >= |made|
    ensures !Took(a.taken, k)
  {
    hide Held, Took;
    if Took(a.taken, k) {
      TookKnown(a, made, k);
    }
  }

  lemma FollowsMore(a: Agenda<Callback>, made: seq<Timer<Callback>>, tl: seq<Event>, faults: seq<FaultRecord>, f: FaultRecord)
    requires Follows(a.taken, tl, faults) && Held(a, made) && f.first >= |made|
    ensures Follows(a.taken, tl, faults + [f])
  {
    hide Began, Ended, CrashedIn, Took, Held;
    NotYetTaken(a, made, f.first);
    NotYetTaken(a, made, f.first + 1);
    forall id | 0 <= id < |faults| + 1 ensures FollowsOne(a.taken, tl, (faults + [f])[id], id) {
      if id < |faults| {
        assert FollowsOne(a.taken, tl, faults[id], id);
      }
    }
  }

  lemma RegistersMore(taken: seq<Taken<Callback>>, parts: map<nat, Groups>, slow: seq<Slow>, crashed: set<Addr>, tl: seq<Event>, faults: seq<FaultRecord>, f: FaultRecord)
    requires Registers(parts, slow, crashed, tl, faults) && Follows(taken, tl, faults)
    ensures Registers(parts, slow, crashed, tl, faults + [f])
  {
    hide Began, Ended, CrashedIn, Took, FollowsOne;
    var more := faults + [f];
    forall i | 0 <= i < |slow| ensures SlowEntry(slow[i], tl, more) {
      assert SlowEntry(slow[i], tl, faults);
    }
    forall id: nat | OpenAt(tl, id) ensures id < |faults| {
    }
    assert SlowTrue(slow, tl, more);
    forall id ensures OpenPartition(tl, faults, id) <==> OpenPartition(tl, more, id) {
    }
    assert PartitionsTrue(parts, tl, more);
  }

  /** One fault put on record with a plain event. */
  lemma FaultEvent(s: Sys, t: Sys, e: Event, f: FaultRecord, ent: Entropy)
    requires Inv(s, ent) && Plain(e) && !e.EvDeliver? && t.timeline == s.timeline + [e]
    requires Grows(BookOf(s), BookOf(t)) && EventTrue(s.timeline, e, BookOf(t)) && t.faults == s.faults + [f] && f.first == |s.made|
    requires t.endpoints == s.endpoints && t.agenda.taken == s.agenda.taken
    requires t.faultPartitions == s.faultPartitions && t.slowLinks == s.slowLinks && t.crashed == s.crashed
    ensures Follows(t.agenda.taken, t.timeline, t.faults)
    ensures Registers(t.faultPartitions, t.slowLinks, t.crashed, t.timeline, t.faults)
    ensures Truth(t.timeline, BookOf(t))
    ensures Queues(t.endpoints, t.agenda.taken, t.timeline)
  {
    hide Truth, Registers, Follows, Queues, Held, Told, Clocks, EventTrue;
    TruthGrows(s.timeline, BookOf(s), BookOf(t));
    TruthMore(s.timeline, e, BookOf(t));
    RegistersMore(s.agenda.taken, s.faultPartitions, s.slowLinks, s.crashed, s.timeline, s.faults, f);
    RegistersPlain(s.faultPartitions, s.slowLinks, s.crashed, s.timeline, t.faults, e);
    FollowsMore(s.agenda, s.made, s.timeline, s.faults, f);
    FollowsPlain(s.agenda.taken, s.timeline, t.faults, e);
    QueuesOther(s.endpoints, s.agenda.taken, s.timeline, e);
  }

  lemma TimesUnit(w: real, u: real)
    requires w >= 0.0 && 0.0 <= u <= 1.0
    ensures 0.0 <= w * u <= w
  {
    assert w - w * u == w * (1.0 - u);
  }

  lemma PartOfWay(lo: real, w: real, u: real, r: real)
    requires w >= 0.0 && 0.0 <= u <= 1.0 && r == lo + w * u
    ensures lo <= r <= lo + w
  {
    TimesUnit(w, u);
  }

  lemma UniformBetween(lo: real, hi: real, u: Unit)
    requires lo <= hi
    ensures lo <= Uniform(lo, hi, u) <= hi
  {
    PartOfWay(lo, hi - lo, u, Uniform(lo, hi, u));
  }

  lemma TwoTimersHeld(a: Agenda<Callback>, made: seq<Timer<Callback>>, w: Deadline, x: Callback, v: Deadline, y: Callback)
    requires Held(a, made)
    ensures Held(CallAt(CallAt(a, w, x), v, y), made + [Timer(w, a.nextSeq, a.now, x)] + [Timer(v, a.nextSeq + 1, a.now, y)])
    ensures |made| == a.nextSeq
  {
    HeldSchedule(a, made, w, x);
    HeldSchedule(CallAt(a, w, x), made + [Timer(w, a.nextSeq, a.now, x)], v, y);
  }

  /** What a window adds to the record. */
  lemma WindowRecord(s: Sys, ent: Entropy, draw: nat, seconds: real, kind: FaultKind, a: Addr, b: Addr) returns (f: FaultRecord)
    requires !kind.KCrash? && seconds >= 0.0
    ensures var t := Window(s, ent, draw, seconds, kind, a, b);
            && t.faults == s.faults + [f] && f.kind == kind && f.t == s.agenda.now && f.seconds == seconds && f.first == s.agenda.nextSeq
            && f.t <= f.start <= f.end <= f.t + f.seconds
            && t.made == s.made + [Timer(At(f.start), f.first, f.t, BeginWhat(|s.faults|, kind))] + [Timer(At(f.end), f.first + 1, f.t, EndWhat(|s.faults|, kind))]
            && t.agenda == CallAt(CallAt(s.agenda, At(f.start), BeginWhat(|s.faults|, kind)), At(f.end), EndWhat(|s.faults|, kind))
            && t.agenda.taken == s.agenda.taken
            && t.timeline == s.timeline + [if kind.KPartition? then EvPartitionScheduled(f.t, |s.faults|, kind.groups, f.start, f.end)
                                           else EvSlowScheduled(f.t, |s.faults|, a, b, kind.factor, f.start, f.end)]
  {
    hide Insert;
    var start := Uniform(0.0, seconds, ent.faults(draw));
    UniformBetween(0.0, seconds, ent.faults(draw));
    UniformBetween(start, seconds, ent.faults(draw + 1));
    f := Window(s, ent, draw, seconds, kind, a, b).faults[|s.faults|];
  }

  lemma WindowInv(s: Sys, ent: Entropy, draw: nat, seconds: real, kind: FaultKind, a: Addr, b: Addr)
    requires Inv(s, ent) && seconds >= 0.0
    requires kind.KPartition? || (kind.KSlow? && kind.pair == {a, b} && kind.factor > 1.0)
    ensures Inv(Window(s, ent, draw, seconds, kind, a, b), ent)
  {
    hide Registers, Follows, Clocks, Queues, Truth, Told, Held, Window, CallAt, Due;
    var t := Window(s, ent, draw, seconds, kind, a, b);
    var f := WindowRecord(s, ent, draw, seconds, kind, a, b);
    var id := |s.faults|;
    TwoTimersHeld(s.agenda, s.made, At(f.start), BeginWhat(id, kind), At(f.end), EndWhat(id, kind));
    ToldGrows(BookOf(s), BookOf(t), ent.net);
    FaultEvent(s, t, t.timeline[|s.timeline|], f, ent);
  }

  /** What a crash adds to the record. */
  lemma CrashRecord(s: Sys, ent: Entropy, node: Option<Val>, at: Option<Num>, seconds: real) returns (f: FaultRecord)
    requires ValidCrash(s.endpoints.Keys, node, at, seconds) && seconds >= 0.0
    ensures f.kind.KCrash?
    ensures var t := CommitCrash(s, ent, node, at, seconds);
            && t.faults == s.faults + [f] && f.t == s.agenda.now && f.seconds == seconds && f.first == s.agenda.nextSeq
            && f.t <= f.start == f.end <= f.t + f.seconds
            && t.made == s.made + [Timer(At(f.start), f.first, f.t, BeginCrash(|s.faults|, f.kind.node))]
            && t.agenda == CallAt(s.agenda, At(f.start), BeginCrash(|s.faults|, f.kind.node)) && t.agenda.taken == s.agenda.taken
            && t.timeline == s.timeline + [EvCrashScheduled(f.t, |s.faults|, f.kind.node, f.start)]
  {
    hide Insert, ChooseFrom;
    UniformBetween(0.0, seconds, ent.faults(s.faultDraw));
    f := CommitCrash(s, ent, node, at, seconds).faults[|s.faults|];
  }

  lemma CommitCrashInv(s: Sys, ent: Entropy, node: Option<Val>, at: Option<Num>, seconds: real)
    requires Inv(s, ent) && ValidCrash(s.endpoints.Keys, node, at, seconds) && seconds >= 0.0
    ensures Inv(CommitCrash(s, ent, node, at, seconds), ent)
  {
    hide Registers, Follows, Clocks, Queues, Truth, Told, Held, Due, CommitCrash, ValidCrash, CallAt;
    var t := CommitCrash(s, ent, node, at, seconds);
    var f := CrashRecord(s, ent, node, at, seconds);
    HeldSchedule(s.agenda, s.made, At(f.start), BeginCrash(|s.faults|, f.kind.node));
    HeldCount(s.agenda, s.made);
    ToldGrows(BookOf(s), BookOf(t), ent.net);
    FaultEvent(s, t, EvCrashScheduled(f.t, |s.faults|, f.kind.node, f.start), f, ent);
  }

  lemma HeldCount(a: Agenda<Callback>, made: seq<Timer<Callback>>)
    requires Held(a, made)
    ensures |made| == a.nextSeq
  {
  }

  lemma CommitInv(s: Sys, ent: Entropy, fault: Fault, seconds: real)
    requires Inv(s, ent) && EventuallySplits(ent) && ValidFault(s.endpoints.Keys, fault, seconds) && seconds >= 0.0
    ensures Inv(Commit(s, ent, fault, seconds), ent)
  {
    hide Inv, Window, CommitCrash, EventuallySplits, ChooseGroups, ChooseEnds;
    match fault
    case PartitionFault(groups) =>
      var (gs, draw) := ChooseGroups(s.endpoints.Keys, ent, s.faultDraw, groups);
      WindowInv(s, ent, draw, seconds, KPartition(gs), 0, 0);
    case SlowLinkFault(a, b, factor) =>
      var (x, y) := ChooseEnds(s.endpoints.Keys, ent, s.faultDraw, a, b);
      var draw := s.faultDraw + Open(a) + Open(b);
      UniformBetween(2.0, 50.0, ent.faults(draw));
      var f := if factor.Some? then factor.value.r else Uniform(2.0, 50.0, ent.faults(draw));
      WindowInv(s, ent, if factor.Some? then draw else draw + 1, seconds, KSlow({x, y}, f), x, y);
    case CrashFault(node, at) => CommitCrashInv(s, ent, node, at, seconds);
  }

  // ---- what a committed fault turned into ---------------------------------------------------------------------------

  /** Two non-empty disjoint sides that together are the bound addresses. */
  ghost predicate GenuineSplit(groups: Groups, bound: set<Addr>) {
    && |groups| == 2 && groups[0] != {} && groups[1] != {}
    && groups[0] * groups[1] == {} && groups[0] + groups[1] == bound
  }

  ghost predicate AsGiven(groups: Groups, given: seq<GroupArg>) {
    |groups| == |given| && forall i :: 0 <= i < |given| ==> given[i].Members? && groups[i] == AddrsOf(given[i].vals)
  }

  /** One end of a slow link: the caller's, or a bound address. */
  ghost predicate EndOk(x: Addr, v: Option<Val>, bound: set<Addr>) {
    if v.Some? then v == Some(Address(x)) else x in bound
  }

  ghost predicate SlowAsAsked(bound: set<Addr>, a: Option<Val>, b: Option<Val>, factor: Option<Num>, kind: FaultKind) {
    kind.KSlow? && (exists x, y :: EndsOf(kind, x, y) && x != y && EndOk(x, a, bound) && EndOk(y, b, bound))
    && if factor.Some? then Real(kind.factor) == factor.value else 2.0 <= kind.factor < 50.0
  }

  predicate EndsOf(kind: FaultKind, x: Addr, y: Addr) { kind.KSlow? && kind.pair == {x, y} }

  /** What the caller pinned is kept; what was left open is drawn so that the fault cuts or slows
      something real. */
  ghost predicate Honours(bound: set<Addr>, fault: Fault, f: FaultRecord) {
    match fault
    case PartitionFault(groups) =>
      && f.kind.KPartition? && groups.Listed?
      && if groups.groups != [] then AsGiven(f.kind.groups, groups.groups) else GenuineSplit(f.kind.groups, bound)
    case SlowLinkFault(a, b, factor) => SlowAsAsked(bound, a, b, factor, f.kind)
    case CrashFault(node, at) =>
      && f.kind.KCrash? && EndOk(f.kind.node, node, bound)
      && (at.Some? ==> at == Some(Real(f.start - f.t)))
    case Unrecognized => false
  }

  lemma SidesNonEmpty(addrs: seq<Addr>, ent: Entropy, d: nat)
    requires Splits(|addrs|, ent, d)
    ensures Side(addrs, ent, d, true) != {} && Side(addrs, ent, d, false) != {}
  {
    var i :| d <= i < d + |addrs| && Low(ent, i);
    var j :| d <= j < d + |addrs| && !Low(ent, j);
    assert Low(ent, d + (i - d)) && !Low(ent, d + (j - d));
    assert addrs[i - d] in Side(addrs, ent, d, true) && addrs[j - d] in Side(addrs, ent, d, false);
  }

  lemma SidesDisjoint(addrs: seq<Addr>, ent: Entropy, d: nat)
    requires Ascending(addrs)
    ensures Side(addrs, ent, d, true) * Side(addrs, ent, d, false) == {}
  {
    hide Low;
    forall x | x in Side(addrs, ent, d, true) ensures x !in Side(addrs, ent, d, false) {
      var i :| 0 <= i < |addrs| && Low(ent, d + i) && addrs[i] == x;
      forall j | 0 <= j < |addrs| && addrs[j] == x ensures Low(ent, d + j) {
        assert i == j;
      }
    }
  }

  lemma SidesCover(addrs: seq<Addr>, ent: Entropy, d: nat, bound: set<Addr>)
    requires forall a :: a in addrs <==> a in bound
    ensures Side(addrs, ent, d, true) + Side(addrs, ent, d, false) == bound
  {
    hide Low;
    var low, high := Side(addrs, ent, d, true), Side(addrs, ent, d, false);
    forall x | x in bound ensures x in low + high {
      var i :| 0 <= i < |addrs| && addrs[i] == x;
      assert addrs[i] in (if Low(ent, d + i) then low else high);
    }
    forall x | x in low + high ensures x in bound {
      var i :| 0 <= i < |addrs| && addrs[i] == x;
      assert addrs[i] in addrs;
    }
  }

  lemma SplitIsGenuine(bound: set<Addr>, ent: Entropy, draw: nat)
    requires EventuallySplits(ent) && |bound| >= 2
    ensures GenuineSplit(DrawSplit(bound, ent, draw).0, bound)
  {
    hide Side, Splits, FirstSplit, SortedAddrs;
    var addrs := SortedAddrs(bound);
    assert CanSplit(|addrs|, ent, draw);
    var d := FirstSplit(|addrs|, ent, draw);
    SidesNonEmpty(addrs, ent, d);
    SidesDisjoint(addrs, ent, d);
    SidesCover(addrs, ent, d, bound);
  }

  lemma {:induction false} GivenAreMembers(groups: seq<GroupArg>, seen: set<Addr>)
    requires ValidGroups(groups, seen)
    ensures forall i :: 0 <= i < |groups| ==> groups[i].Members?
  {
    if groups != [] {
      GivenAreMembers(groups[1..], seen + AddrsOf(groups[0].vals));
      forall i | 0 <= i < |groups| ensures groups[i].Members? {
        assert i > 0 ==> groups[i] == groups[1..][i - 1];
      }
    }
  }

  lemma GroupsHonoured(bound: set<Addr>, ent: Entropy, draw: nat, groups: GroupsArg)
    requires EventuallySplits(ent) && ValidPartition(bound, groups)
    ensures var gs := ChooseGroups(bound, ent, draw, groups).0;
            if groups.groups != [] then AsGiven(gs, groups.groups) else GenuineSplit(gs, bound)
  {
    hide DrawSplit, EventuallySplits, GenuineSplit;
    if groups.groups != [] {
      GivenAreMembers(groups.groups, {});
    } else {
      SplitIsGenuine(bound, ent, draw);
    }
  }

  lemma EndsHonoured(bound: set<Addr>, ent: Entropy, draw: nat, a: Option<Val>, b: Option<Val>)
    requires ValidSlow(bound, a, b)
    ensures var (x, y) := ChooseEnds(bound, ent, draw, a, b); x != y && EndOk(x, a, bound) && EndOk(y, b, bound)
  {
    hide ChooseFrom, OtherBound;
    if a.None? && b.None? {
      EnoughFor(bound);
      var x := ChooseFrom(bound, ent.faults(draw));
      OthersExist(bound, x);
    } else if a.None? {
      OthersOf(bound, b.value.a);
    } else if b.None? {
      OthersOf(bound, a.value.a);
    }
  }

  lemma CommitHonours(s: Sys, ent: Entropy, fault: Fault, seconds: real)
    requires EventuallySplits(ent) && ValidFault(s.endpoints.Keys, fault, seconds) && seconds >= 0.0
    ensures var t := Commit(s, ent, fault, seconds);
            && |t.faults| == |s.faults| + 1 && s.faults <= t.faults
            && Honours(s.endpoints.Keys, fault, t.faults[|s.faults|])
            && t.faults[|s.faults|].t == s.agenda.now && t.faults[|s.faults|].seconds == seconds
            && t.agenda.now == s.agenda.now
  {
    hide EventuallySplits, ChooseGroups, ChooseEnds, GenuineSplit, AsGiven, ValidGroups, OtherBound, Insert, ChooseFrom;
    match fault
    case PartitionFault(groups) =>
      GroupsHonoured(s.endpoints.Keys, ent, s.faultDraw, groups);
    case SlowLinkFault(a, b, factor) =>
      EndsHonoured(s.endpoints.Keys, ent, s.faultDraw, a, b);
      var (x, y) := ChooseEnds(s.endpoints.Keys, ent, s.faultDraw, a, b);
      var u := ent.faults(s.faultDraw + Open(a) + Open(b));
      assert 2.0 <= Uniform(2.0, 50.0, u) < 50.0;
      var t := Commit(s, ent, fault, seconds);
      assert EndsOf(t.faults[|s.faults|].kind, x, y);
    case CrashFault(node, at) =>
  }

  // ---- what a fault takes from "faults" ------------------------------------------------------------------------------

  /** A whole number of attempts over n addresses lies between two draws. */
  ghost predicate Attempts(n: nat, from: nat, to: nat, k: nat) { to == from + k * n }

  lemma {:induction false} SplitDrawAt(n: nat, ent: Entropy, draw: nat, tries: nat) returns (k: nat)
    requires SplitsAtTry(n, ent, draw, tries)
    ensures k <= tries && Attempts(n, draw, SplitDraw(n, ent, draw, tries), k)
    ensures forall j :: 0 <= j < k ==> !SplitsAtTry(n, ent, draw, j)
    decreases tries
  {
    if Splits(n, ent, draw) {
      k := 0;
    } else {
      assert draw + tries * n == (draw + n) + (tries - 1) * n;
      var m := SplitDrawAt(n, ent, draw + n, tries - 1);
      k := m + 1;
      assert (draw + n) + m * n == draw + k * n;
      forall j | 0 <= j < k ensures !SplitsAtTry(n, ent, draw, j) {
        if j == 0 {
          assert draw + 0 * n == draw;
        } else {
          assert draw + j * n == (draw + n) + (j - 1) * n;
          assert !SplitsAtTry(n, ent, draw + n, j - 1);
        }
      }
    }
  }

  /** The seed's split is its first attempt that leaves neither side empty; every failed attempt costs one
      draw an address. */
  lemma SplitDraws(bound: set<Addr>, ent: Entropy, draw: nat) returns (k: nat)
    requires EventuallySplits(ent) && |bound| >= 2
    ensures Attempts(|bound|, draw, DrawSplit(bound, ent, draw).1, k + 1)
    ensures SplitsAtTry(|bound|, ent, draw, k) && forall j :: 0 <= j < k ==> !SplitsAtTry(|bound|, ent, draw, j)
  {
    hide SortedAddrs, Splits, Side;
    var n := |bound|;
    assert CanSplit(n, ent, draw);
    var tries: nat :| SplitsAtTry(n, ent, draw, tries) && FirstSplit(n, ent, draw) == SplitDraw(n, ent, draw, tries);
    k := SplitDrawAt(n, ent, draw, tries);
    assert draw + (k + 1) * n == draw + k * n + n;
  }

  /** A window's two draws after one or more attempts. */
  ghost predicate SplitCost(n: nat, used: nat) {
    exists k: nat :: k >= 1 && Attempts(n, 2, used, k)
  }

  function Unset<T>(v: Option<T>): nat { if v.None? then 1 else 0 }

  /** One draw for each thing the caller left open, two for a window; nothing else, except that a split
      left to the seed takes one draw an address for each attempt. */
  lemma DrawsOfACommit(s: Sys, ent: Entropy, fault: Fault, seconds: real)
    requires EventuallySplits(ent) && ValidFault(s.endpoints.Keys, fault, seconds)
    ensures var used := Commit(s, ent, fault, seconds).faultDraw - s.faultDraw;
            match fault
            case PartitionFault(groups) =>
              if groups.groups != [] then used == 2
              else used >= 0 && SplitCost(|s.endpoints|, used)
            case SlowLinkFault(a, b, factor) => used == Unset(a) + Unset(b) + Unset(factor) + 2
            case CrashFault(node, at) => used == Unset(at) + Unset(node)
  {
    hide EventuallySplits, ChooseEnds, DrawSplit, ValidGroups, OtherBound, Insert, ChooseFrom, Uniform;
    if fault.PartitionFault? && fault.groups.groups == [] {
      var k := SplitDraws(s.endpoints.Keys, ent, s.faultDraw);
      assert Attempts(|s.endpoints|, s.faultDraw, DrawSplit(s.endpoints.Keys, ent, s.faultDraw).1, k + 1);
      var used := Commit(s, ent, fault, seconds).faultDraw - s.faultDraw;
      assert Attempts(|s.endpoints|, 2, used, k + 1);
    }
  }
}
