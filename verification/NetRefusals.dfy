/** Why a `run_for` is refused (src/seedloop/_net.py, src/seedloop/_world.py): the first check that fails,
    of the first fault in the list that has one. */
module NetRefusals {
  import opened Common
  import opened Agendas
  import opened NetModel
  import opened NetFaults

  datatype Refusal =
    | BadSeconds
    | GroupsNotIterable | GroupNotIterable | GroupNotAddresses | GroupsOverlap | TooFewToSplit
    | FirstEndNotAddress | SecondEndNotAddress | TooFewForALink | NobodyForFirstEnd | NobodyForSecondEnd | SameEnds | BadFactor
    | NodeNotAddress | BadMoment | MomentTooLate | NobodyToCrash
    | NotAFault

  function GroupsRefused(groups: seq<GroupArg>, seen: set<Addr>): Option<Refusal> {
    if groups == [] then None
    else if groups[0].NotIterable? then Some(GroupNotIterable)
    else if !OnlyAddresses(groups[0].vals) then Some(GroupNotAddresses)
    else if seen * AddrsOf(groups[0].vals) != {} then Some(GroupsOverlap)
    else GroupsRefused(groups[1..], seen + AddrsOf(groups[0].vals))
  }

  function PartitionRefused(bound: set<Addr>, groups: GroupsArg): Option<Refusal> {
    if groups.NotListed? then Some(GroupsNotIterable)
    else if groups.groups != [] then GroupsRefused(groups.groups, {})
    else if |bound| < 2 then Some(TooFewToSplit)
    else None
  }

  predicate NotAnAddress(v: Option<Val>) { v.Some? && v.value.NotAddress? }

  /** Whether anyone is left to draw for the ends the caller left open. */
  function EndsRefused(bound: set<Addr>, a: Option<Val>, b: Option<Val>): Option<Refusal>
    requires !NotAnAddress(a) && !NotAnAddress(b)
  {
    if a.None? && b.None? then (if |bound| < 2 then Some(TooFewForALink) else None)
    else if a.None? then (if !OtherBound(bound, b.value.a) then Some(NobodyForFirstEnd) else None)
    else if b.None? && !OtherBound(bound, a.value.a) then Some(NobodyForSecondEnd)
    else None
  }

  function SlowRefused(bound: set<Addr>, a: Option<Val>, b: Option<Val>, factor: Option<Num>): Option<Refusal> {
    if NotAnAddress(a) then Some(FirstEndNotAddress)
    else if NotAnAddress(b) then Some(SecondEndNotAddress)
    else if EndsRefused(bound, a, b).Some? then EndsRefused(bound, a, b)
    else if a.Some? && a == b then Some(SameEnds)
    else if factor.Some? && (!factor.value.Real? || factor.value.r <= 1.0) then Some(BadFactor)
    else None
  }

  function CrashRefused(bound: set<Addr>, node: Option<Val>, at: Option<Num>, seconds: real): Option<Refusal> {
    if NotAnAddress(node) then Some(NodeNotAddress)
    else if at.Some? && (!at.value.Real? || at.value.r < 0.0) then Some(BadMoment)
    else if at.Some? && at.value.r > seconds then Some(MomentTooLate)
    else if node.None? && bound == {} then Some(NobodyToCrash)
    else None
  }

  function FaultRefused(bound: set<Addr>, fault: Fault, seconds: real): Option<Refusal> {
    match fault
    case PartitionFault(groups) => PartitionRefused(bound, groups)
    case SlowLinkFault(a, b, factor) => SlowRefused(bound, a, b, factor)
    case CrashFault(node, at) => CrashRefused(bound, node, at, seconds)
    case Unrecognized => Some(NotAFault)
  }

  lemma {:induction false} GroupsRefusedExactly(groups: seq<GroupArg>, seen: set<Addr>)
    ensures GroupsRefused(groups, seen).None? <==> ValidGroups(groups, seen)
  {
    if groups != [] && groups[0].Members? {
      GroupsRefusedExactly(groups[1..], seen + AddrsOf(groups[0].vals));
    }
  }

  ghost predicate OfAddresses(g: GroupArg) {
    g.Members? && forall v :: v in g.vals ==> v.Address?
  }

  /** No address is in both. */
  ghost predicate Apart(g: GroupArg, h: GroupArg) {
    g.Members? && h.Members? ==> forall a: Addr :: Address(a) in g.vals ==> Address(a) !in h.vals
  }

  ghost predicate Unseen(g: GroupArg, seen: set<Addr>) {
    g.Members? ==> forall a: Addr :: Address(a) in g.vals ==> a !in seen
  }

  /** Groups are valid if and only if each is a set of addresses and no two share one. */
  lemma GroupsMean(groups: seq<GroupArg>)
    ensures ValidGroups(groups, {}) <==>
            (forall i :: 0 <= i < |groups| ==> OfAddresses(groups[i])) && (forall i, j :: 0 <= i < j < |groups| ==> Apart(groups[i], groups[j]))
  {
    GroupsMeanFrom(groups, {});
  }

  lemma {:induction false} GroupsMeanFrom(groups: seq<GroupArg>, seen: set<Addr>)
    ensures ValidGroups(groups, seen) <==>
            && (forall i :: 0 <= i < |groups| ==> OfAddresses(groups[i]) && Unseen(groups[i], seen))
            && (forall i, j :: 0 <= i < j < |groups| ==> Apart(groups[i], groups[j]))
  {
    hide Apart, Unseen;
    if groups != [] {
      var g, rest := groups[0], groups[1..];
      var more := if g.Members? then seen + AddrsOf(g.vals) else seen;
      GroupsMeanFrom(rest, more);
      assert forall i :: 0 < i < |groups| ==> groups[i] == rest[i - 1];
      if OfAddresses(g) {
        HeadUnseen(g, seen);
        forall i | 0 < i < |groups| && groups[i].Members? ensures Unseen(groups[i], more) <==> Unseen(groups[i], seen) && Apart(g, groups[i]) {
          SeenMore(g, groups[i], seen);
        }
      }
    }
  }

  lemma HeadUnseen(g: GroupArg, seen: set<Addr>)
    requires g.Members?
    ensures Unseen(g, seen) <==> seen * AddrsOf(g.vals) == {}
  {
    if Unseen(g, seen) {
      forall a | a in AddrsOf(g.vals) ensures a !in seen {
        assert Address(a) in g.vals;
      }
    } else {
      var a: Addr :| Address(a) in g.vals && a in seen;
      assert a in seen * AddrsOf(g.vals);
    }
  }

  lemma SeenMore(g: GroupArg, h: GroupArg, seen: set<Addr>)
    requires g.Members? && h.Members?
    ensures Unseen(h, seen + AddrsOf(g.vals)) <==> Unseen(h, seen) && Apart(g, h)
  {
    forall a: Addr ensures a in AddrsOf(g.vals) <==> Address(a) in g.vals {
      if Address(a) in g.vals {
        var v: Val := Address(a);
        assert v in g.vals && v.Address? && v.a == a;
      }
    }
  }

  /** No check fails exactly if the fault can be committed as it stands. */
  lemma FaultRefusedExactly(bound: set<Addr>, fault: Fault, seconds: real)
    ensures FaultRefused(bound, fault, seconds).None? <==> ValidFault(bound, fault, seconds)
  {
    hide OtherBound, OnlyAddresses, GroupsRefused, ValidGroups;
    if fault.PartitionFault? && fault.groups.Listed? {
      GroupsRefusedExactly(fault.groups.groups, {});
    }
  }

  /** The i-th fault is the first that is refused, and this is why. */
  ghost predicate FirstRefused(bound: set<Addr>, faults: seq<Fault>, seconds: real, i: nat, why: Refusal) {
    && i < |faults| && FaultRefused(bound, faults[i], seconds) == Some(why)
    && AllValid(bound, faults[..i], seconds) && !ValidFault(bound, faults[i], seconds)
  }

  /** What a `run_for` raises, if anything. */
  ghost predicate RaisedBy(bound: set<Addr>, seconds: Num, faults: seq<Fault>, why: Option<Refusal>) {
    if !seconds.Real? || seconds.r < 0.0 then why == Some(BadSeconds)
    else if why.Some? then exists i :: FirstRefused(bound, faults, seconds.r, i, why.value)
    else AllValid(bound, faults, seconds.r)
  }

  lemma OnlyOneFirst(bound: set<Addr>, faults: seq<Fault>, seconds: real, i: nat, j: nat, why: Refusal, other: Refusal)
    requires FirstRefused(bound, faults, seconds, i, why) && FirstRefused(bound, faults, seconds, j, other)
    ensures why == other
  {
    hide ValidFault, FaultRefused;
    assert AllValid(bound, faults[..i], seconds) && AllValid(bound, faults[..j], seconds);
  }

  /** A call is refused exactly if it is not accepted, and for one reason only. */
  lemma RaisedExactly(s: Sys, seconds: Num, faults: seq<Fault>, why: Option<Refusal>, other: Option<Refusal>)
    requires RaisedBy(s.endpoints.Keys, seconds, faults, why) && RaisedBy(s.endpoints.Keys, seconds, faults, other)
    ensures why == other && (why.None? <==> Accepted(s, seconds, faults))
  {
    hide ValidFault, FaultRefused;
    var bound := s.endpoints.Keys;
    if seconds.Real? && seconds.r >= 0.0 {
      if why.Some? && other.Some? {
        var i :| FirstRefused(bound, faults, seconds.r, i, why.value);
        var j :| FirstRefused(bound, faults, seconds.r, j, other.value);
        OnlyOneFirst(bound, faults, seconds.r, i, j, why.value, other.value);
      }
    }
  }
}
