/** Seed-timed faults (src/seedloop/_net.py): what `run_for` accepts, and how the "faults" stream
    resolves and schedules what it accepted. */
module NetFaults {
  import opened Common
  import opened Agendas
  import opened NetModel

  // ---- what a caller can pass ------------------------------------------------------------------------------

  /** An address, or anything else. */
  datatype Val = Address(a: Addr) | NotAddress

  datatype GroupArg = Members(vals: set<Val>) | NotIterable

  datatype GroupsArg = Listed(groups: seq<GroupArg>) | NotListed

  datatype Fault =
    | PartitionFault(groups: GroupsArg)
    | SlowLinkFault(a: Option<Val>, b: Option<Val>, factor: Option<Num>)
    | CrashFault(node: Option<Val>, at: Option<Num>)
    | Unrecognized

  function AddrsOf(vals: set<Val>): set<Addr> {
    set v | v in vals && v.Address? :: v.a
  }

  predicate OnlyAddresses(vals: set<Val>) {
    forall v :: v in vals ==> v.Address?
  }

  /** Groups of addresses only, no address in two of them. */
  predicate ValidGroups(groups: seq<GroupArg>, seen: set<Addr>) {
    groups == [] ||
    (&& groups[0].Members? && OnlyAddresses(groups[0].vals)
     && seen * AddrsOf(groups[0].vals) == {}
     && ValidGroups(groups[1..], seen + AddrsOf(groups[0].vals)))
  }

  predicate ValidAddress(v: Option<Val>) { v.None? || v.value.Address? }

  /** A bound address other than x. */
  predicate OtherBound(bound: set<Addr>, x: Addr) {
    exists y :: y in bound && y != x
  }

  predicate ValidPartition(bound: set<Addr>, groups: GroupsArg) {
    groups.Listed? && if groups.groups != [] then ValidGroups(groups.groups, {}) else |bound| >= 2
  }

  predicate ValidSlow(bound: set<Addr>, a: Option<Val>, b: Option<Val>) {
    && ValidAddress(a) && ValidAddress(b)
    && (a.None? && b.None? ==> |bound| >= 2)
    && (a.None? && b.Some? ==> OtherBound(bound, b.value.a))
    && (a.Some? && b.None? ==> OtherBound(bound, a.value.a))
    && (a.Some? ==> a != b)
  }

  predicate ValidFactor(factor: Option<Num>) {
    factor.Some? ==> factor.value.Real? && factor.value.r > 1.0
  }

  predicate ValidCrash(bound: set<Addr>, node: Option<Val>, at: Option<Num>, seconds: real) {
    && ValidAddress(node)
    && (at.Some? ==> at.value.Real? && 0.0 <= at.value.r <= seconds)
    && (node.None? ==> bound != {})
  }

  /** `_validate_fault`: nothing is drawn and nothing changes. */
  predicate ValidFault(bound: set<Addr>, fault: Fault, seconds: real) {
    match fault
    case PartitionFault(groups) => ValidPartition(bound, groups)
    case SlowLinkFault(a, b, factor) => ValidSlow(bound, a, b) && ValidFactor(factor)
    case CrashFault(node, at) => ValidCrash(bound, node, at, seconds)
    case Unrecognized => false
  }

  predicate AllValid(bound: set<Addr>, faults: seq<Fault>, seconds: real) {
    forall i :: 0 <= i < |faults| ==> ValidFault(bound, faults[i], seconds)
  }

  // ---- choosing among the bound addresses --------------------------------------------------------------------

  lemma {:induction false} LeastExists(s: set<Addr>)
    requires s != {}
    ensures exists m :: m in s && forall x :: x in s ==> m <= x
  {
    var y := Missing({}, s);
    if s == {y} {
      assert y in s && forall x :: x in s ==> y <= x;
    } else {
      var rest := s - {y};
      LeastExists(rest);
      var m :| m in rest && forall x :: x in rest ==> m <= x;
      var least := if y < m then y else m;
      assert forall x :: x in s ==> x == y || x in rest;
      assert least in s && forall x :: x in s ==> least <= x;
    }
  }

  ghost function Least(s: set<Addr>): (m: Addr)
    requires s != {}
    ensures m in s && forall x :: x in s ==> m <= x
  {
    LeastExists(s);
    var m :| m in s && forall x :: x in s ==> m <= x;
    m
  }

  ghost predicate Ascending(xs: seq<Addr>) {
    forall i, j :: 0 <= i < j < |xs| ==> xs[i] < xs[j]
  }

  /** `sorted(self._endpoints)`. */
  ghost function SortedAddrs(bound: set<Addr>): (r: seq<Addr>)
    ensures |r| == |bound| && (forall a :: a in r <==> a in bound) && Ascending(r)
  {
    if bound == {} then []
    else
      var m := Least(bound);
      var rest := SortedAddrs(bound - {m});
      LeastFirst(m, rest);
      [m] + rest
  }

  lemma LeastFirst(m: Addr, rest: seq<Addr>)
    requires Ascending(rest) && forall a :: a in rest ==> m < a
    ensures Ascending([m] + rest)
  {
    var all := [m] + rest;
    forall i, j | 0 <= i < j < |all| ensures all[i] < all[j] {
      assert all[j] == rest[j - 1] && rest[j - 1] in rest;
      assert i > 0 ==> all[i] == rest[i - 1];
    }
  }

  lemma ChoiceInRange(n: nat, u: Unit)
    requires n > 0
    ensures 0 <= (u * (n as real)).Floor < n
  {
    assert 0.0 <= u * (n as real) < n as real;
  }

  /** `random.choice`: one draw picks one element. */
  function Choice(xs: seq<Addr>, u: Unit): (x: Addr)
    requires xs != []
    ensures x in xs
  {
    ChoiceInRange(|xs|, u);
    xs[(u * (|xs| as real)).Floor]
  }

  ghost function ChooseFrom(bound: set<Addr>, u: Unit): (x: Addr)
    requires bound != {}
    ensures x in bound
  {
    assert |bound| > 0;
    Choice(SortedAddrs(bound), u)
  }

  // ---- the seed's own split --------------------------------------------------------------------------------------

  predicate Low(ent: Entropy, draw: nat) { ent.faults(draw) < 0.5 }

  /** An attempt over n addresses that starts at this draw leaves neither side empty. */
  predicate Splits(n: nat, ent: Entropy, draw: nat) {
    && (exists d :: draw <= d < draw + n && Low(ent, d))
    && (exists d :: draw <= d < draw + n && !Low(ent, d))
  }

  predicate SplitsAtTry(n: nat, ent: Entropy, draw: nat, k: nat) {
    Splits(n, ent, draw + k * n)
  }

  ghost predicate CanSplit(n: nat, ent: Entropy, draw: nat) {
    exists k: nat :: SplitsAtTry(n, ent, draw, k)
  }

  /** The seed is not one on which drawing a split goes on for ever. */
  ghost predicate EventuallySplits(ent: Entropy) {
    forall n: nat, draw: nat :: n >= 2 ==> CanSplit(n, ent, draw)
  }

  /** Where the first successful attempt starts, given one that succeeds. */
  ghost function SplitDraw(n: nat, ent: Entropy, draw: nat, tries: nat): (d: nat)
    requires SplitsAtTry(n, ent, draw, tries)
    ensures Splits(n, ent, d) && d >= draw
    decreases tries
  {
    if Splits(n, ent, draw) then draw
    else
      assert draw + tries * n == (draw + n) + (tries - 1) * n;
      SplitDraw(n, ent, draw + n, tries - 1)
  }

  lemma {:induction false} SplitDrawUnique(n: nat, ent: Entropy, draw: nat, j: nat, k: nat)
    requires SplitsAtTry(n, ent, draw, j) && SplitsAtTry(n, ent, draw, k)
    ensures SplitDraw(n, ent, draw, j) == SplitDraw(n, ent, draw, k)
    decreases j
  {
    if !Splits(n, ent, draw) {
      assert draw + j * n == (draw + n) + (j - 1) * n;
      assert draw + k * n == (draw + n) + (k - 1) * n;
      SplitDrawUnique(n, ent, draw + n, j - 1, k - 1);
    }
  }

  ghost function FirstSplit(n: nat, ent: Entropy, draw: nat): (d: nat)
    requires CanSplit(n, ent, draw)
    ensures Splits(n, ent, d) && d >= draw
  {
    var k: nat :| SplitsAtTry(n, ent, draw, k);
    SplitDraw(n, ent, draw, k)
  }

  function Side(addrs: seq<Addr>, ent: Entropy, draw: nat, low: bool): set<Addr> {
    set i | 0 <= i < |addrs| && Low(ent, draw + i) == low :: addrs[i]
  }

  /** What `_draw_bipartition` returns for these addresses, and the draw after it. */
  ghost function DrawSplit(bound: set<Addr>, ent: Entropy, draw: nat): (Groups, nat)
    requires EventuallySplits(ent) && |bound| >= 2
  {
    var addrs := SortedAddrs(bound);
    assert CanSplit(|addrs|, ent, draw);
    var d := FirstSplit(|addrs|, ent, draw);
    ([Side(addrs, ent, d, true), Side(addrs, ent, d, false)], d + |addrs|)
  }

  // ---- committing one fault ---------------------------------------------------------------------------------------

  function GivenGroups(groups: seq<GroupArg>): Groups {
    seq(|groups|, i requires 0 <= i < |groups| => if groups[i].Members? then AddrsOf(groups[i].vals) else {})
  }

  /** The groups a partition uses and the draw after choosing them. */
  ghost function ChooseGroups(bound: set<Addr>, ent: Entropy, draw: nat, groups: GroupsArg): (Groups, nat)
    requires EventuallySplits(ent) && ValidPartition(bound, groups)
  {
    if groups.groups != [] then (GivenGroups(groups.groups), draw) else DrawSplit(bound, ent, draw)
  }

  /** The two ends of a slow link. */
  ghost function ChooseEnds(bound: set<Addr>, ent: Entropy, draw: nat, a: Option<Val>, b: Option<Val>): (Addr, Addr)
    requires ValidSlow(bound, a, b)
  {
    if a.None? && b.None? then
      EnoughFor(bound);
      var x := ChooseFrom(bound, ent.faults(draw));
      OthersExist(bound, x);
      (x, ChooseFrom(bound - {x}, ent.faults(draw + 1)))
    else if a.None? then
      OthersOf(bound, b.value.a);
      (ChooseFrom(bound - {b.value.a}, ent.faults(draw)), b.value.a)
    else if b.None? then
      OthersOf(bound, a.value.a);
      (a.value.a, ChooseFrom(bound - {a.value.a}, ent.faults(draw)))
    else (a.value.a, b.value.a)
  }

  function Open(v: Option<Val>): nat { if v.None? then 1 else 0 }

  lemma EnoughFor(bound: set<Addr>)
    requires |bound| >= 2
    ensures bound != {}
  {
  }

  lemma OthersOf(bound: set<Addr>, x: Addr)
    requires OtherBound(bound, x)
    ensures bound - {x} != {}
  {
    var y :| y in bound && y != x;
    assert y in bound - {x};
  }

  lemma OthersExist(bound: set<Addr>, x: Addr)
    requires |bound| >= 2
    ensures bound - {x} != {}
  {
    if bound - {x} == {} {
      SubsetSize(bound, {x});
    }
  }

  /** Schedule a window: two draws for its start and end, one id, two timers. */
  function Window(s: Sys, ent: Entropy, draw: nat, seconds: real, kind: FaultKind, a: Addr, b: Addr): (t: Sys)
    requires !kind.KCrash?
    ensures t == s.(agenda := t.agenda, made := t.made, faultDraw := t.faultDraw, faults := t.faults, timeline := t.timeline)
  {
    var now := s.agenda.now;
    var start := Uniform(0.0, seconds, ent.faults(draw));
    var end := Uniform(start, seconds, ent.faults(draw + 1));
    var id := |s.faults|;
    var t := s.(faultDraw := draw + 2,
                faults := s.faults + [FaultRecord(kind, now, seconds, s.agenda.nextSeq, now + start, now + end)]);
    match kind
    case KPartition(groups) =>
      Schedule(Schedule(Record(t, EvPartitionScheduled(now, id, groups, now + start, now + end)),
                        At(now + start), BeginPartition(id, groups)), At(now + end), EndPartition(id))
    case KSlow(pair, factor) =>
      Schedule(Schedule(Record(t, EvSlowScheduled(now, id, a, b, factor, now + start, now + end)),
                        At(now + start), BeginSlow(id, pair, factor)), At(now + end), EndSlow(id))
  }

  ghost function CommitPartition(s: Sys, ent: Entropy, groups: GroupsArg, seconds: real): (t: Sys)
    requires EventuallySplits(ent) && ValidPartition(s.endpoints.Keys, groups)
    ensures t == s.(agenda := t.agenda, made := t.made, faultDraw := t.faultDraw, faults := t.faults, timeline := t.timeline)
  {
    var (gs, draw) := ChooseGroups(s.endpoints.Keys, ent, s.faultDraw, groups);
    Window(s, ent, draw, seconds, KPartition(gs), 0, 0)
  }

  ghost function CommitSlow(s: Sys, ent: Entropy, a: Option<Val>, b: Option<Val>, factor: Option<Num>, seconds: real): (t: Sys)
    requires ValidSlow(s.endpoints.Keys, a, b) && ValidFactor(factor)
    ensures t == s.(agenda := t.agenda, made := t.made, faultDraw := t.faultDraw, faults := t.faults, timeline := t.timeline)
  {
    var (x, y) := ChooseEnds(s.endpoints.Keys, ent, s.faultDraw, a, b);
    var draw := s.faultDraw + Open(a) + Open(b);
    var f := if factor.Some? then factor.value.r else Uniform(2.0, 50.0, ent.faults(draw));
    Window(s, ent, if factor.Some? then draw else draw + 1, seconds, KSlow({x, y}, f), x, y)
  }

  ghost function CommitCrash(s: Sys, ent: Entropy, node: Option<Val>, at: Option<Num>, seconds: real): (t: Sys)
    requires ValidCrash(s.endpoints.Keys, node, at, seconds)
    ensures t == s.(agenda := t.agenda, made := t.made, faultDraw := t.faultDraw, faults := t.faults, timeline := t.timeline)
  {
    var now := s.agenda.now;
    var offset := if at.Some? then at.value.r else Uniform(0.0, seconds, ent.faults(s.faultDraw));
    var draw := if at.Some? then s.faultDraw else s.faultDraw + 1;
    var n := if node.Some? then node.value.a else ChooseFrom(s.endpoints.Keys, ent.faults(draw));
    var id := |s.faults|;
    var t := s.(faultDraw := draw + Open(node),
                faults := s.faults + [FaultRecord(KCrash(n), now, seconds, s.agenda.nextSeq, now + offset, now + offset)]);
    Schedule(Record(t, EvCrashScheduled(now, id, n, now + offset)), At(now + offset), BeginCrash(id, n))
  }

  ghost function Commit(s: Sys, ent: Entropy, fault: Fault, seconds: real): (t: Sys)
    requires EventuallySplits(ent) && ValidFault(s.endpoints.Keys, fault, seconds)
    ensures t == s.(agenda := t.agenda, made := t.made, faultDraw := t.faultDraw, faults := t.faults, timeline := t.timeline)
  {
    match fault
    case PartitionFault(groups) => CommitPartition(s, ent, groups, seconds)
    case SlowLinkFault(a, b, factor) => CommitSlow(s, ent, a, b, factor, seconds)
    case CrashFault(node, at) => CommitCrash(s, ent, node, at, seconds)
  }

  ghost function CommitAll(s: Sys, ent: Entropy, faults: seq<Fault>, seconds: real): (t: Sys)
    requires EventuallySplits(ent) && AllValid(s.endpoints.Keys, faults, seconds)
    ensures t == s.(agenda := t.agenda, made := t.made, faultDraw := t.faultDraw, faults := t.faults, timeline := t.timeline)
  {
    if faults == [] then s
    else
      var before := CommitAll(s, ent, faults[..|faults| - 1], seconds);
      Commit(before, ent, faults[|faults| - 1], seconds)
  }

  predicate Accepted(s: Sys, seconds: Num, faults: seq<Fault>) {
    seconds.Real? && seconds.r >= 0.0 && AllValid(s.endpoints.Keys, faults, seconds.r)
  }

  /** `run_for` up to where it sleeps: every fault is checked before any is committed, and a sleep of
      no length sets no timer. */
  ghost function RunFor(s: Sys, ent: Entropy, seconds: Num, faults: seq<Fault>): (t: Sys)
    requires EventuallySplits(ent)
    ensures t == s.(agenda := t.agenda, made := t.made, faultDraw := t.faultDraw, faults := t.faults, timeline := t.timeline, calls := t.calls)
  {
    if !Accepted(s, seconds, faults) then s
    else
      var t := CommitAll(s, ent, faults, seconds.r);
      var timer := if seconds.r > 0.0 then Some(t.agenda.nextSeq) else None;
      var u := t.(calls := t.calls + [RunRecord(t.agenda.now, seconds.r, |s.faults|, |t.faults|, timer)]);
      if seconds.r > 0.0 then Schedule(u, At(t.agenda.now + seconds.r), Wake(|t.calls|)) else u
  }
}
