/** What the "faults" stream decides about a committed fault, draw by draw: which ends, which split, which
    factor, which moments. With the numbers of draws this fixes everything a `run_for` schedules. */
module FaultDraws {
  import opened Common
  import opened Agendas
  import opened NetModel
  import opened NetFaults
  import opened NetCommits
  import opened NetRunFor

  // ---- one draw among the sorted addresses ------------------------------------------------------------------

  function Below(s: set<Addr>, x: Addr): set<Addr> {
    set y | y in s && y < x
  }

  /** The draw picks x: as many addresses are smaller as the draw's share of them all. */
  ghost predicate Picked(s: set<Addr>, u: Unit, x: Addr) {
    x in s && |Below(s, x)| == (u * (|s| as real)).Floor
  }

  lemma PlaceInOrder(s: set<Addr>, i: nat)
    requires i < |SortedAddrs(s)|
    ensures |Below(s, SortedAddrs(s)[i])| == i
  {
    hide SortedAddrs;
    var xs := SortedAddrs(s);
    forall y ensures y in Below(s, xs[i]) <==> y in xs[..i] {
      if y in Below(s, xs[i]) {
        assert y in xs;
        var j :| 0 <= j < |xs| && xs[j] == y;
        assert j < i;
        assert xs[..i][j] == y;
      }
      if y in xs[..i] {
        var j :| 0 <= j < i && xs[j] == y;
        assert xs[j] in xs;
      }
    }
    assert Below(s, xs[i]) == Elements(xs[..i]);
    DistinctSize(xs[..i]);
  }

  lemma ChoiceIsPicked(s: set<Addr>, u: Unit)
    requires s != {}
    ensures Picked(s, u, ChooseFrom(s, u))
  {
    hide SortedAddrs;
    NotNone(s);
    ChoiceInRange(|s|, u);
    PlaceInOrder(s, (u * (|s| as real)).Floor);
  }

  lemma NotNone(s: set<Addr>)
    requires s != {}
    ensures |s| > 0
  {
  }

  // ---- what a fault is, given its draws -----------------------------------------------------------------------

  /** A window's start is drawn over the whole call, its end over what is left. */
  predicate WindowBy(f: FaultRecord, ent: Entropy, d: nat) {
    f.start == f.t + f.seconds * ent.faults(d) && f.end == f.start + (f.t + f.seconds - f.start) * ent.faults(d + 1)
  }

  /** Every address draws for itself, in order: below one half is the first side. */
  ghost predicate SplitBy(bound: set<Addr>, ent: Entropy, d: nat, groups: Groups) {
    && |groups| == 2
    && (forall x :: x in groups[0] <==> x in bound && ent.faults(d + |Below(bound, x)|) < 0.5)
    && (forall x :: x in groups[1] <==> x in bound && ent.faults(d + |Below(bound, x)|) >= 0.5)
  }

  /** These n draws put everyone on one side. */
  ghost predicate OneSided(n: nat, ent: Entropy, d: nat) {
    (forall i :: d <= i < d + n ==> ent.faults(i) < 0.5) || (forall i :: d <= i < d + n ==> ent.faults(i) >= 0.5)
  }

  ghost predicate OneSidedTry(n: nat, ent: Entropy, d: nat, k: nat) { OneSided(n, ent, d + k * n) }

  /** A split left to the seed: k attempts that put everyone on one side, then the split. */
  ghost predicate SplitFrom(bound: set<Addr>, ent: Entropy, from: nat, to: int, groups: Groups, k: nat) {
    && to == from + k * |bound| + |bound|
    && SplitBy(bound, ent, from + k * |bound|, groups)
    && forall j :: 0 <= j < k ==> OneSidedTry(|bound|, ent, from, j)
  }

  ghost predicate SplitOff(bound: set<Addr>, ent: Entropy, from: nat, to: int, groups: Groups) {
    exists k: nat :: SplitFrom(bound, ent, from, to, groups, k)
  }

  /** Each end left open is drawn among the bound addresses other than the end known by then. */
  ghost predicate EndsBy(bound: set<Addr>, a: Option<Val>, b: Option<Val>, ent: Entropy, from: nat, x: Addr, y: Addr) {
    && (a.Some? ==> a == Some(Address(x))) && (b.Some? ==> b == Some(Address(y)))
    && (a.None? && b.None? ==> Picked(bound, ent.faults(from), x) && Picked(bound - {x}, ent.faults(from + 1), y))
    && (a.None? && b.Some? ==> Picked(bound - {y}, ent.faults(from), x))
    && (a.Some? && b.None? ==> Picked(bound - {x}, ent.faults(from), y))
  }

  /** The record and the timeline entry of a fault whose draws are `from` up to `to`. */
  ghost predicate DrawnAs(bound: set<Addr>, fault: Fault, f: FaultRecord, id: nat, ev: Event, ent: Entropy, from: nat, to: int) {
    match fault
    case PartitionFault(groups) =>
      && f.kind.KPartition? && ev == EvPartitionScheduled(f.t, id, f.kind.groups, f.start, f.end)
      && to >= from + 2 && WindowBy(f, ent, to - 2)
      && groups.Listed?
      && (groups.groups != [] ==> to == from + 2 && AsGiven(f.kind.groups, groups.groups))
      && (groups.groups == [] ==> SplitOff(bound, ent, from, to - 2, f.kind.groups))
    case SlowLinkFault(a, b, factor) =>
      && f.kind.KSlow? && ev.EvSlowScheduled? && ev == EvSlowScheduled(f.t, id, ev.a, ev.b, f.kind.factor, f.start, f.end)
      && f.kind.pair == {ev.a, ev.b} && EndsBy(bound, a, b, ent, from, ev.a, ev.b)
      && to == from + Unset(a) + Unset(b) + Unset(factor) + 2 && WindowBy(f, ent, to - 2)
      && if factor.Some? then factor.value == Real(f.kind.factor) else f.kind.factor == 2.0 + (50.0 - 2.0) * ent.faults(to - 3)
    case CrashFault(node, at) =>
      && f.kind.KCrash? && ev == EvCrashScheduled(f.t, id, f.kind.node, f.start) && f.end == f.start
      && to == from + Unset(at) + Unset(node)
      && (if at.Some? then at.value == Real(f.start - f.t) else f.start == f.t + f.seconds * ent.faults(from))
      && (if node.Some? then node == Some(Address(f.kind.node)) else Picked(bound, ent.faults(to - 1), f.kind.node))
    case Unrecognized => false
  }

  // ---- why --------------------------------------------------------------------------------------------------------

  lemma WindowDrawn(s: Sys, ent: Entropy, draw: nat, seconds: real, kind: FaultKind, a: Addr, b: Addr)
    requires !kind.KCrash?
    ensures var t := Window(s, ent, draw, seconds, kind, a, b);
            && t.agenda.now == s.agenda.now
            && |t.faults| == |s.faults| + 1 && t.faults[..|s.faults|] == s.faults && |t.timeline| == |s.timeline| + 1 && s.timeline <= t.timeline
            && var f := t.faults[|s.faults|];
               && f.kind == kind && f.t == s.agenda.now && f.seconds == seconds && WindowBy(f, ent, draw) && t.faultDraw == draw + 2
               && t.timeline[|s.timeline|] ==
                    if kind.KPartition? then EvPartitionScheduled(f.t, |s.faults|, kind.groups, f.start, f.end)
                    else EvSlowScheduled(f.t, |s.faults|, a, b, kind.factor, f.start, f.end)
  {
    hide Insert;
  }

  lemma SidesAre(bound: set<Addr>, ent: Entropy, d: nat)
    ensures var xs := SortedAddrs(bound); SplitBy(bound, ent, d, [Side(xs, ent, d, true), Side(xs, ent, d, false)])
  {
    hide SortedAddrs, Side, Below;
    var xs := SortedAddrs(bound);
    forall x ensures x in Side(xs, ent, d, true) <==> x in bound && ent.faults(d + |Below(bound, x)|) < 0.5 {
      SideHas(bound, ent, d, true, x);
    }
    forall x ensures x in Side(xs, ent, d, false) <==> x in bound && ent.faults(d + |Below(bound, x)|) >= 0.5 {
      SideHas(bound, ent, d, false, x);
    }
  }

  lemma SideHas(bound: set<Addr>, ent: Entropy, d: nat, low: bool, x: Addr)
    ensures x in Side(SortedAddrs(bound), ent, d, low) <==> x in bound && Low(ent, d + |Below(bound, x)|) == low
  {
    hide SortedAddrs, Below, Low;
    var xs := SortedAddrs(bound);
    if x in bound {
      assert x in xs;
      var i :| 0 <= i < |xs| && xs[i] == x;
      PlaceInOrder(bound, i);
      forall j | 0 <= j < |xs| && xs[j] == x ensures j == i {
      }
    }
  }

  lemma FailedTry(n: nat, ent: Entropy, from: nat, j: nat)
    requires !SplitsAtTry(n, ent, from, j)
    ensures OneSidedTry(n, ent, from, j)
  {
    var d := from + j * n;
    if i: nat :| d <= i < d + n && !(ent.faults(i) < 0.5) {
      assert !Low(ent, i);
      forall h | d <= h < d + n ensures ent.faults(h) >= 0.5 {
        assert !Low(ent, h);
      }
    }
  }

  lemma SplitDrawn(bound: set<Addr>, ent: Entropy, from: nat) returns (k: nat)
    requires EventuallySplits(ent) && |bound| >= 2
    ensures var (groups, to) := DrawSplit(bound, ent, from); SplitFrom(bound, ent, from, to, groups, k)
  {
    hide SortedAddrs, Splits, Side, EventuallySplits;
    var n := |bound|;
    assert CanSplit(n, ent, from) by { CanSplitHere(n, ent, from); }
    var tries: nat :| SplitsAtTry(n, ent, from, tries) && FirstSplit(n, ent, from) == SplitDraw(n, ent, from, tries);
    k := SplitDrawAt(n, ent, from, tries);
    assert FirstSplit(n, ent, from) == from + k * n;
    SidesAre(bound, ent, from + k * n);
    forall j | 0 <= j < k ensures OneSidedTry(n, ent, from, j) {
      FailedTry(n, ent, from, j);
    }
  }

  lemma CanSplitHere(n: nat, ent: Entropy, draw: nat)
    requires EventuallySplits(ent) && n >= 2
    ensures CanSplit(n, ent, draw)
  {
  }

  lemma EndsDrawn(bound: set<Addr>, ent: Entropy, draw: nat, a: Option<Val>, b: Option<Val>)
    requires ValidSlow(bound, a, b)
    ensures var (x, y) := ChooseEnds(bound, ent, draw, a, b); EndsBy(bound, a, b, ent, draw, x, y)
  {
    hide ChooseFrom, OtherBound, Picked;
    if a.None? && b.None? {
      EnoughFor(bound);
      ChoiceIsPicked(bound, ent.faults(draw));
      var x := ChooseFrom(bound, ent.faults(draw));
      OthersExist(bound, x);
      ChoiceIsPicked(bound - {x}, ent.faults(draw + 1));
    } else if a.None? {
      OthersOf(bound, b.value.a);
      ChoiceIsPicked(bound - {b.value.a}, ent.faults(draw));
    } else if b.None? {
      OthersOf(bound, a.value.a);
      ChoiceIsPicked(bound - {a.value.a}, ent.faults(draw));
    }
  }

  /** One committed fault adds one record and one timeline entry, and draws for them. */
  ghost predicate Committed(s: Sys, t: Sys, ent: Entropy, fault: Fault, seconds: real) {
    && |t.faults| == |s.faults| + 1 && s.faults <= t.faults && |t.timeline| == |s.timeline| + 1 && s.timeline <= t.timeline
    && t.faults[|s.faults|].t == s.agenda.now == t.agenda.now && t.faults[|s.faults|].seconds == seconds
    && DrawnAs(s.endpoints.Keys, fault, t.faults[|s.faults|], |s.faults|, t.timeline[|s.timeline|], ent, s.faultDraw, t.faultDraw)
  }

  lemma PartitionDrawn(s: Sys, ent: Entropy, groups: GroupsArg, seconds: real)
    requires EventuallySplits(ent) && ValidPartition(s.endpoints.Keys, groups)
    ensures Committed(s, CommitPartition(s, ent, groups, seconds), ent, PartitionFault(groups), seconds)
  {
    hide EventuallySplits, Window, DrawSplit, WindowBy, ValidGroups, SplitFrom;
    var bound := s.endpoints.Keys;
    var (gs, draw) := ChooseGroups(bound, ent, s.faultDraw, groups);
    WindowDrawn(s, ent, draw, seconds, KPartition(gs), 0, 0);
    if groups.groups == [] {
      var k := SplitDrawn(bound, ent, s.faultDraw);
      SplitAhead(bound, ent, s.faultDraw, draw, gs, k);
    } else {
      GroupsHonoured(bound, ent, s.faultDraw, groups);
    }
  }

  lemma SplitAhead(bound: set<Addr>, ent: Entropy, from: nat, to: int, groups: Groups, k: nat)
    requires SplitFrom(bound, ent, from, to, groups, k)
    ensures to >= from
  {
  }

  lemma SlowDrawn(s: Sys, ent: Entropy, a: Option<Val>, b: Option<Val>, factor: Option<Num>, seconds: real)
    requires ValidSlow(s.endpoints.Keys, a, b) && ValidFactor(factor)
    ensures Committed(s, CommitSlow(s, ent, a, b, factor, seconds), ent, SlowLinkFault(a, b, factor), seconds)
  {
    hide Window, ChooseEnds, WindowBy, EndsBy, ValidSlow;
    var bound := s.endpoints.Keys;
    EndsDrawn(bound, ent, s.faultDraw, a, b);
    var (x, y) := ChooseEnds(bound, ent, s.faultDraw, a, b);
    var draw := s.faultDraw + Open(a) + Open(b);
    var f := if factor.Some? then factor.value.r else Uniform(2.0, 50.0, ent.faults(draw));
    WindowDrawn(s, ent, if factor.Some? then draw else draw + 1, seconds, KSlow({x, y}, f), x, y);
  }

  lemma CrashDrawn(s: Sys, ent: Entropy, node: Option<Val>, at: Option<Num>, seconds: real)
    requires ValidCrash(s.endpoints.Keys, node, at, seconds)
    ensures Committed(s, CommitCrash(s, ent, node, at, seconds), ent, CrashFault(node, at), seconds)
  {
    hide Insert, ChooseFrom, Picked;
    if node.None? {
      ChoiceIsPicked(s.endpoints.Keys, ent.faults(if at.Some? then s.faultDraw else s.faultDraw + 1));
    }
  }

  lemma CommitDrawn(s: Sys, ent: Entropy, fault: Fault, seconds: real)
    requires EventuallySplits(ent) && ValidFault(s.endpoints.Keys, fault, seconds)
    ensures Committed(s, Commit(s, ent, fault, seconds), ent, fault, seconds)
  {
    hide EventuallySplits, CommitPartition, CommitSlow, CommitCrash, Committed, ValidPartition, ValidSlow, ValidFactor, ValidCrash;
    match fault
    case PartitionFault(groups) => PartitionDrawn(s, ent, groups, seconds);
    case SlowLinkFault(a, b, factor) => SlowDrawn(s, ent, a, b, factor, seconds);
    case CrashFault(node, at) => CrashDrawn(s, ent, node, at, seconds);
  }

  /** Fault i of the list, by the draws from cursor i to cursor i + 1. */
  ghost predicate FaultDrawn(s: Sys, t: Sys, ent: Entropy, faults: seq<Fault>, cursors: seq<nat>, i: nat) {
    && i < |faults| && i + 1 < |cursors| && |s.faults| + i < |t.faults| && |s.timeline| + i < |t.timeline|
    && DrawnAs(s.endpoints.Keys, faults[i], t.faults[|s.faults| + i], |s.faults| + i, t.timeline[|s.timeline| + i], ent, cursors[i], cursors[i + 1])
  }

  ghost predicate AllDrawn(s: Sys, t: Sys, ent: Entropy, faults: seq<Fault>, cursors: seq<nat>) {
    && |cursors| == |faults| + 1 && cursors[0] == s.faultDraw && cursors[|faults|] == t.faultDraw
    && |t.faults| == |s.faults| + |faults| && |t.timeline| == |s.timeline| + |faults| && s.timeline <= t.timeline
    && forall i :: 0 <= i < |faults| ==> FaultDrawn(s, t, ent, faults, cursors, i)
  }

  lemma {:induction false} CommitAllDrawn(s: Sys, ent: Entropy, faults: seq<Fault>, seconds: real) returns (cursors: seq<nat>)
    requires EventuallySplits(ent) && AllValid(s.endpoints.Keys, faults, seconds)
    ensures AllDrawn(s, CommitAll(s, ent, faults, seconds), ent, faults, cursors)
    decreases |faults|
  {
    hide EventuallySplits, ValidFault, Commit, DrawnAs;
    cursors := [s.faultDraw];
    if faults != [] {
      var front, fault := faults[..|faults| - 1], faults[|faults| - 1];
      var before := CommitAllDrawn(s, ent, front, seconds);
      var u, t := CommitAll(s, ent, front, seconds), CommitAll(s, ent, faults, seconds);
      CommitDrawn(u, ent, fault, seconds);
      cursors := before + [t.faultDraw];
      forall i | 0 <= i < |faults| ensures FaultDrawn(s, t, ent, faults, cursors, i) {
        if i < |front| {
          assert FaultDrawn(s, u, ent, front, before, i);
        }
      }
    }
  }

  /** An accepted `run_for`: its faults in list order, each a function of its own draws, one after the other
      and nothing in between; and a wake-up after exactly its length, if it has any. */
  lemma RunForDrawn(s: Sys, ent: Entropy, seconds: Num, faults: seq<Fault>) returns (cursors: seq<nat>)
    requires EventuallySplits(ent) && Accepted(s, seconds, faults)
    ensures var t := RunFor(s, ent, seconds, faults);
            && AllDrawn(s, t, ent, faults, cursors)
            && |t.calls| == |s.calls| + 1 && t.calls[|s.calls|].t == s.agenda.now && t.calls[|s.calls|].seconds == seconds.r
            && (seconds.r > 0.0 ==> t.made != [] && t.made[|t.made| - 1].when == At(s.agenda.now + seconds.r) && t.made[|t.made| - 1].what == Wake(|s.calls|))
  {
    hide EventuallySplits, AllValid, CommitAll, CallAt, FaultDrawn;
    cursors := CommitAllDrawn(s, ent, faults, seconds.r);
    CommitAllHonours(s, ent, faults, seconds.r);
    var u, t := CommitAll(s, ent, faults, seconds.r), RunFor(s, ent, seconds, faults);
    forall i | 0 <= i < |faults| ensures FaultDrawn(s, t, ent, faults, cursors, i) {
      assert FaultDrawn(s, u, ent, faults, cursors, i);
      SameDrawn(s, u, t, ent, faults, cursors, i);
    }
  }

  lemma SameDrawn(s: Sys, u: Sys, t: Sys, ent: Entropy, faults: seq<Fault>, cursors: seq<nat>, i: nat)
    requires FaultDrawn(s, u, ent, faults, cursors, i) && t.faults == u.faults && t.timeline == u.timeline
    ensures FaultDrawn(s, t, ent, faults, cursors, i)
  {
  }
}
