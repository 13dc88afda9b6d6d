/** A session nothing disturbs, from the first `Enter` to the last `Exit`, nested in others or not: what calls
    come to while it is open, and that leaving it undoes it exactly. What other threads, other code and
    interrupts can do to a session is `PatchStack` and `PatchCalls`. */
module Sessions {
  import opened Common
  import opened PatchStack
  import opened PatchCalls
  import opened PatchProcess

  lemma {:induction false} RunThen(s: State, a: seq<Act>, b: seq<Act>)
    ensures Run(s, a + b) == Run(Run(s, a), b)
    decreases |b|
  {
    hide Step;
    if b == [] {
      assert a + b == a;
    } else {
      assert (a + b)[..|a + b| - 1] == a + b[..|b| - 1];
      RunThen(s, a, b[..|b| - 1]);
    }
  }

  lemma RunOne(s: State, act: Act)
    ensures Run(s, [act]) == Step(s, act)
  {
    assert [act][..0] == [];
    assert Run(s, []) == s;
  }

  /** The top frame is f, and everything else as given. */
  function WithSession(s: State, slots: map<Name, Fn>, wrappers: seq<Wrap>, f: Frame): State
    requires s.frames != []
  {
    s.(slots := slots, wrappers := wrappers, frames := s.frames[..|s.frames| - 1] + [f])
  }

  // ---- leaving ---------------------------------------------------------------------------------------------------

  lemma {:induction false} LeaveIs(s: State, th: Thread)
    requires Acts(s, th) && Top(s).leaving && !Top(s).armed
    requires forall i :: 0 <= i < |Top(s).undo| ==> Made(s, Top(s).undo[i])
    ensures Run(s, LeaveActs(th, s.slots, s.wrappers, Top(s).undo)) ==
            s.(slots := Unwound(s.slots, s.wrappers, Top(s).undo), frames := s.frames[..|s.frames| - 1],
               holder := if |s.frames| == 1 then None else s.holder)
    decreases |Top(s).undo|
  {
    hide Run;
    var undo := Top(s).undo;
    if undo == [] {
      RunOne(s, Exit(th));
    } else {
      var w, rest := undo[|undo| - 1], undo[..|undo| - 1];
      var name := s.wrappers[w].name;
      assert Made(s, w);
      var slots := if s.slots[name] == Wrapper(w) then s.slots[name := s.wrappers[w].original] else s.slots;
      var t := WithSession(s, slots, s.wrappers, Popped(Top(s)));
      var first := if s.slots[name] == Wrapper(w) then [Check(th), Put(th)] else [Check(th)];
      RestoreRuns(s, th, t, first);
      assert t.frames[..|t.frames| - 1] == s.frames[..|s.frames| - 1];
      LeaveIs(t, th);
      RunThen(s, first, LeaveActs(th, slots, s.wrappers, rest));
    }
  }

  /** One restore. */
  lemma RestoreRuns(s: State, th: Thread, t: State, first: seq<Act>)
    requires Restoring(s, th) && !Top(s).armed && Made(s, Next(s))
    requires var wrap := s.wrappers[Next(s)]; var ours := s.slots[wrap.name] == Wrapper(Next(s));
             && t == WithSession(s, if ours then s.slots[wrap.name := wrap.original] else s.slots, s.wrappers, Popped(Top(s)))
             && first == if ours then [Check(th), Put(th)] else [Check(th)]
    ensures Run(s, first) == t
  {
    hide Run;
    var u := Step(s, Check(th));
    RunOne(s, Check(th));
    if |first| == 2 {
      assert u.frames[..|u.frames| - 1] == s.frames[..|s.frames| - 1];
      RunThen(s, [Check(th)], [Put(th)]);
      assert [Check(th)] + [Put(th)] == first;
      RunOne(u, Put(th));
    }
  }

  // ---- installing ------------------------------------------------------------------------------------------------

  /** Read, registered, installed. */
  lemma InstallRuns(s: State, th: Thread, name: Name, kind: Kind)
    requires Entering(s, th) && name in s.slots && Top(s).read == {}
    ensures Run(s, InstallActs(th, |s.wrappers|, name, kind)) ==
            WithSession(s, s.slots[name := Wrapper(|s.wrappers|)], s.wrappers + [Wrap(name, th, s.slots[name], kind)],
                        Top(s).(undo := Top(s).undo + [|s.wrappers|]))
  {
    hide Run;
    var w := |s.wrappers|;
    var t := Step(s, Read(th, name, kind));
    RunOne(s, Read(th, name, kind));
    RunThen(s, [Read(th, name, kind)], [Register(th, w)]);
    assert t.frames[..|t.frames| - 1] == s.frames[..|s.frames| - 1];
    RunOne(t, Register(th, w));
    var u := Step(t, Register(th, w));
    assert u.frames[..|u.frames| - 1] == s.frames[..|s.frames| - 1];
    assert {w} - {w} == {};
    RunThen(s, [Read(th, name, kind)] + [Register(th, w)], [Install(th, w)]);
    RunOne(u, Install(th, w));
    assert [Read(th, name, kind)] + [Register(th, w)] + [Install(th, w)] == InstallActs(th, w, name, kind);
  }

  /** One context of th is open on top of s: a wrapper of th's for each of these names, around what the name
      held in s; the other names as in s; and unwinding its restores gives back the slots of s. */
  ghost predicate Opened(s: State, t: State, th: Thread, surfaces: seq<(Name, Kind)>) {
    && t.holder == Some(th) && |t.frames| == |s.frames| + 1 && t.frames[..|s.frames|] == s.frames
    && !Top(t).leaving && !Top(t).armed && Top(t).read == {}
    && s.wrappers <= t.wrappers && t.slots.Keys == s.slots.Keys
    && (forall i :: 0 <= i < |Top(t).undo| ==> Made(t, Top(t).undo[i]))
    && Unwound(t.slots, t.wrappers, Top(t).undo) == s.slots
    && (forall i :: 0 <= i < |surfaces| && surfaces[i].0 in s.slots ==> Guarded(s, t, th, surfaces[i].0, surfaces[i].1))
    && (forall n :: n in s.slots && Untouched(surfaces, n) ==> t.slots[n] == s.slots[n])
    && (s.holder == Some(th) ==> t.base == s.base && t.foreign == s.foreign && t.skipped == s.skipped && t.start == s.start)
  }

  ghost predicate Untouched(surfaces: seq<(Name, Kind)>, n: Name) {
    forall i :: 0 <= i < |surfaces| ==> surfaces[i].0 != n
  }

  ghost predicate Guarded(s: State, t: State, th: Thread, n: Name, kind: Kind)
    requires n in s.slots
  {
    && n in t.slots && t.slots[n].Wrapper?
    && |s.wrappers| <= t.slots[n].id < |t.wrappers| && t.wrappers[t.slots[n].id] == Wrap(n, th, s.slots[n], kind)
  }

  ghost predicate OneEach(surfaces: seq<(Name, Kind)>) {
    forall i, j :: 0 <= i < j < |surfaces| ==> surfaces[i].0 != surfaces[j].0
  }

  predicate Free(s: State, th: Thread) {
    (s.holder == None || s.holder == Some(th)) && (s.holder == None <==> s.frames == [])
  }

  lemma EnterOpens(s: State, th: Thread)
    requires Free(s, th)
    ensures Opened(s, Run(s, [Enter(th)]), th, []) && Run(s, [Enter(th)]).wrappers == s.wrappers
  {
    hide Run;
    RunOne(s, Enter(th));
  }

  /** Wrappers made later change no restore of the ones before. */
  lemma {:induction false} UnwoundMore(slots: map<Name, Fn>, wrappers: seq<Wrap>, more: seq<Wrap>, undo: seq<nat>)
    requires wrappers <= more && forall i :: 0 <= i < |undo| ==> undo[i] < |wrappers|
    ensures Unwound(slots, more, undo) == Unwound(slots, wrappers, undo)
    decreases |undo|
  {
    if undo != [] {
      var w, rest := undo[|undo| - 1], undo[..|undo| - 1];
      UnwoundMore(if Ours(slots, wrappers, w) then slots[wrappers[w].name := wrappers[w].original] else slots, wrappers, more, rest);
    }
  }

  lemma OneMoreName(surfaces: seq<(Name, Kind)>, name: Name, kind: Kind)
    requires OneEach(surfaces + [(name, kind)])
    ensures Untouched(surfaces, name) && forall i :: 0 <= i < |surfaces| ==> surfaces[i].0 != name
    ensures forall n :: Untouched(surfaces + [(name, kind)], n) ==> Untouched(surfaces, n) && n != name
  {
    var all := surfaces + [(name, kind)];
    assert all[|surfaces|] == (name, kind);
    forall i | 0 <= i < |surfaces| ensures all[i] == surfaces[i] && surfaces[i].0 != name {
      assert all[i].0 != all[|surfaces|].0;
    }
  }

  lemma OpenMore(s: State, t: State, th: Thread, surfaces: seq<(Name, Kind)>, name: Name, kind: Kind)
    requires Opened(s, t, th, surfaces) && OneEach(surfaces + [(name, kind)])
    ensures if name in t.slots then
              var u := Run(t, InstallActs(th, |t.wrappers|, name, kind));
              Opened(s, u, th, surfaces + [(name, kind)]) && |u.wrappers| == |t.wrappers| + 1
            else Opened(s, t, th, surfaces + [(name, kind)])
  {
    hide Run, Unwound, InstallActs, Untouched, OneEach;
    var all := surfaces + [(name, kind)];
    OneMoreName(surfaces, name, kind);
    if name in t.slots {
      InstallRuns(t, th, name, kind);
      var u := Run(t, InstallActs(th, |t.wrappers|, name, kind));
      UnwindOne(t.slots, t.wrappers, u.wrappers, Top(t).undo, name);
      OpenedFrames(s, t, u);
      forall i | 0 <= i < |all| && all[i].0 in s.slots ensures Guarded(s, u, th, all[i].0, all[i].1) {
        if i < |surfaces| {
          assert Guarded(s, t, th, surfaces[i].0, surfaces[i].1);
        }
      }
      forall i | 0 <= i < |Top(u).undo| ensures Made(u, Top(u).undo[i]) {
        if i < |Top(t).undo| {
          assert Made(t, Top(t).undo[i]);
        }
      }
    }
  }

  lemma OpenedFrames(s: State, t: State, u: State)
    requires |t.frames| == |s.frames| + 1 && t.frames[..|s.frames|] == s.frames
    requires |u.frames| == |t.frames| && u.frames[..|u.frames| - 1] == t.frames[..|t.frames| - 1]
    ensures u.frames[..|s.frames|] == s.frames
  {
  }

  /** The restore registered last undoes the install made last. */
  lemma UnwindOne(slots: map<Name, Fn>, wrappers: seq<Wrap>, more: seq<Wrap>, undo: seq<nat>, name: Name)
    requires name in slots && |more| == |wrappers| + 1 && wrappers <= more
    requires more[|wrappers|].name == name && more[|wrappers|].original == slots[name]
    requires forall i :: 0 <= i < |undo| ==> undo[i] < |wrappers|
    ensures Unwound(slots[name := Wrapper(|wrappers|)], more, undo + [|wrappers|]) == Unwound(slots, wrappers, undo)
  {
    var w := |wrappers|;
    var held := slots[name := Wrapper(w)];
    assert held[name := more[w].original] == slots;
    assert (undo + [w])[..|undo|] == undo;
    UnwoundMore(slots, wrappers, more, undo);
  }

  // ---- audit mode --------------------------------------------------------------------------------------------------

  lemma {:induction false} AuditOpens(s: State, th: Thread, surfaces: seq<(Name, Kind)>)
    requires Free(s, th) && OneEach(surfaces)
    ensures var t := Run(s, [Enter(th)] + AuditActs(th, |s.wrappers|, surfaces, s.slots.Keys));
            Opened(s, t, th, surfaces) && |t.wrappers| == |s.wrappers| + Count(surfaces, s.slots.Keys)
    decreases |surfaces|
  {
    hide Run, Opened, InstallActs;
    EnterOpens(s, th);
    var w, keys := |s.wrappers|, s.slots.Keys;
    if surfaces == [] {
      assert [Enter(th)] + AuditActs(th, w, surfaces, keys) == [Enter(th)];
    } else {
      var last := |surfaces| - 1;
      var front := surfaces[..last];
      var (name, kind) := surfaces[last];
      assert OneEach(front);
      AuditOpens(s, th, front);
      var before := [Enter(th)] + AuditActs(th, w, front, keys);
      var t := Run(s, before);
      assert front + [(name, kind)] == surfaces;
      OpenMore(s, t, th, front, name, kind);
      SameKeys(s, t, th, front);
      if name in keys {
        var more := InstallActs(th, |t.wrappers|, name, kind);
        RunThen(s, before, more);
        assert before + more == [Enter(th)] + (AuditActs(th, w, front, keys) + more);
      }
    }
  }

  lemma SameKeys(s: State, t: State, th: Thread, surfaces: seq<(Name, Kind)>)
    requires Opened(s, t, th, surfaces)
    ensures t.slots.Keys == s.slots.Keys
  {
  }

  // ---- the shim ------------------------------------------------------------------------------------------------------

  lemma EnterShape(s: State, th: Thread)
    requires Free(s, th)
    ensures var t := Step(s, Enter(th));
            && t.slots == s.slots && t.wrappers == s.wrappers && t.holder == Some(th) && t.frames == s.frames + [Frame({}, [], false, false)]
            && (s.holder == Some(th) ==> t.base == s.base && t.foreign == s.foreign && t.skipped == s.skipped && t.start == s.start)
  {
  }

  /** What the shim makes of the state it has just entered. */
  function Shimmed(t: State, th: Thread, os: Name, random: Name): State
    requires t.frames != [] && os in t.slots && random in t.slots
  {
    var w := |t.wrappers|;
    WithSession(t, t.slots[os := Wrapper(w)][random := Wrapper(w + 1)],
                t.wrappers + [Wrap(os, th, t.slots[os], Seeded)] + [Wrap(random, th, t.slots[random], Seeded)], Frame({}, [w, w + 1], false, false))
  }

  lemma ShimRuns(t: State, th: Thread, os: Name, random: Name)
    requires Entering(t, th) && Top(t) == Frame({}, [], false, false) && os in t.slots && random in t.slots
    ensures var w := |t.wrappers|;
            Run(Run(Run(t, [Read(th, os, Seeded)] + [Read(th, random, Seeded)]), [Register(th, w)] + [Register(th, w + 1)]),
                [Install(th, w)] + [Install(th, w + 1)]) == Shimmed(t, th, os, random)
  {
    hide Run, Step;
    var w := |t.wrappers|;
    var u := ShimReads(t, th, os, random);
    assert u.frames[..|u.frames| - 1] == t.frames[..|t.frames| - 1];
    var v := ShimRegisters(t, u, th, w);
    assert v.frames[..|v.frames| - 1] == t.frames[..|t.frames| - 1];
    var x := ShimInstalls(v, th, w, os, random);
  }

  lemma ShimOpened(s: State, t: State, th: Thread, os: Name, random: Name)
    requires Free(s, th) && os in s.slots && random in s.slots && os != random
    requires t.slots == s.slots && t.wrappers == s.wrappers && t.holder == Some(th) && t.frames == s.frames + [Frame({}, [], false, false)]
    requires s.holder == Some(th) ==> t.base == s.base && t.foreign == s.foreign && t.skipped == s.skipped && t.start == s.start
    ensures Opened(s, Shimmed(t, th, os, random), th, [(os, Seeded), (random, Seeded)])
  {
    hide Unwound;
    var w := |s.wrappers|;
    var u := Shimmed(t, th, os, random);
    assert u.frames == s.frames + [Frame({}, [w, w + 1], false, false)];
    UnwindTwo(s.slots, u.wrappers, w, os, random);
    var all := [(os, Seeded), (random, Seeded)];
    forall n | n in s.slots && Untouched(all, n) ensures u.slots[n] == s.slots[n] {
      assert all[0].0 != n && all[1].0 != n;
    }
  }

  lemma ShimOpens(s: State, th: Thread, os: Name, random: Name)
    requires Free(s, th) && os in s.slots && random in s.slots && os != random
    ensures Opened(s, Run(s, ShimActs(th, |s.wrappers|, os, random)), th, [(os, Seeded), (random, Seeded)])
  {
    hide Run, ShimActs, Step, Opened, Shimmed;
    RunOne(s, Enter(th));
    EnterShape(s, th);
    var t := Step(s, Enter(th));
    ShimSteps(s, th, |s.wrappers|, os, random);
    ShimRuns(t, th, os, random);
    ShimOpened(s, t, th, os, random);
  }

  /** The shim's steps two by two. */
  lemma ShimSteps(s: State, th: Thread, w: nat, os: Name, random: Name)
    ensures Run(s, ShimActs(th, w, os, random)) ==
            Run(Run(Run(Run(s, [Enter(th)]), [Read(th, os, Seeded)] + [Read(th, random, Seeded)]), [Register(th, w)] + [Register(th, w + 1)]),
                [Install(th, w)] + [Install(th, w + 1)])
  {
    hide Run;
    var e, r, g, i := [Enter(th)], [Read(th, os, Seeded)] + [Read(th, random, Seeded)], [Register(th, w)] + [Register(th, w + 1)],
                      [Install(th, w)] + [Install(th, w + 1)];
    assert ShimActs(th, w, os, random) == e + r + g + i;
    RunThen(s, e + r + g, i);
    RunThen(s, e + r, g);
    RunThen(s, e, r);
  }

  lemma ShimInstalls(t: State, th: Thread, w: nat, os: Name, random: Name) returns (u: State)
    requires Entering(t, th) && Top(t).undo == [w, w + 1] && os in t.slots && random in t.slots && |t.wrappers| == w + 2
    requires t.wrappers[w].name == os && t.wrappers[w + 1].name == random
    ensures u == Run(t, [Install(th, w)] + [Install(th, w + 1)])
    ensures u == t.(slots := t.slots[os := Wrapper(w)][random := Wrapper(w + 1)])
  {
    hide Run;
    var v := Step(t, Install(th, w));
    u := Step(v, Install(th, w + 1));
    RunOne(t, Install(th, w));
    RunOne(v, Install(th, w + 1));
    RunThen(t, [Install(th, w)], [Install(th, w + 1)]);
  }

  lemma UnwindTwo(slots: map<Name, Fn>, wrappers: seq<Wrap>, w: nat, os: Name, random: Name)
    requires os in slots && random in slots && os != random && |wrappers| == w + 2
    requires wrappers[w].name == os && wrappers[w].original == slots[os]
    requires wrappers[w + 1].name == random && wrappers[w + 1].original == slots[random]
    ensures Unwound(slots[os := Wrapper(w)][random := Wrapper(w + 1)], wrappers, [w, w + 1]) == slots
  {
    var one: map<Name, Fn> := slots[os := Wrapper(w)];
    var two: map<Name, Fn> := one[random := Wrapper(w + 1)];
    assert two[random := slots[random]] == one;
    assert [w, w + 1][..1] == [w] && [w][..0] == [];
    assert one[os := slots[os]] == slots;
    assert Unwound(slots, wrappers, []) == slots;
    assert Unwound(one, wrappers, [w]) == slots;
  }

  lemma ShimReads(t: State, th: Thread, os: Name, random: Name) returns (u: State)
    requires Entering(t, th) && Top(t) == Frame({}, [], false, false) && os in t.slots && random in t.slots
    ensures u == Run(t, [Read(th, os, Seeded)] + [Read(th, random, Seeded)])
    ensures u == WithSession(t, t.slots, t.wrappers + [Wrap(os, th, t.slots[os], Seeded)] + [Wrap(random, th, t.slots[random], Seeded)],
                             Frame({|t.wrappers|} + {|t.wrappers| + 1}, [], false, false))
  {
    hide Run;
    var v := Step(t, Read(th, os, Seeded));
    assert v.frames[..|v.frames| - 1] == t.frames[..|t.frames| - 1];
    u := Step(v, Read(th, random, Seeded));
    RunOne(t, Read(th, os, Seeded));
    RunOne(v, Read(th, random, Seeded));
    RunThen(t, [Read(th, os, Seeded)], [Read(th, random, Seeded)]);
    assert {} + {|t.wrappers|} + {|t.wrappers| + 1} == {|t.wrappers|} + {|t.wrappers| + 1};
  }

  lemma ShimRegisters(t: State, u: State, th: Thread, w: nat) returns (v: State)
    requires Entering(u, th) && |t.frames| == |u.frames| && Top(u) == Frame({w} + {w + 1}, [], false, false)
    ensures v == Run(u, [Register(th, w)] + [Register(th, w + 1)])
    ensures v == WithSession(u, u.slots, u.wrappers, Frame({}, [w, w + 1], false, false))
  {
    hide Run;
    var x := Step(u, Register(th, w));
    assert x.frames[..|x.frames| - 1] == u.frames[..|u.frames| - 1];
    v := Step(x, Register(th, w + 1));
    RunOne(u, Register(th, w));
    RunOne(x, Register(th, w + 1));
    RunThen(u, [Register(th, w)], [Register(th, w + 1)]);
    assert {w} + {w + 1} - {w} - {w + 1} == {};
    assert [] + [w] + [w + 1] == [w, w + 1];
  }

  // ---- the whole session ------------------------------------------------------------------------------------------------

  /** Leaving an open context gives back exactly what there was before it: every name, the lock, and every
      context around it. */
  lemma LeavingUndoes(s: State, t: State, th: Thread, surfaces: seq<(Name, Kind)>) returns (acts: seq<Act>)
    requires Free(s, th) && Opened(s, t, th, surfaces)
    ensures acts == [BeginLeave(th)] + LeaveActs(th, t.slots, t.wrappers, Top(t).undo)
    ensures var u := Run(t, acts); u.slots == s.slots && u.holder == s.holder && u.frames == s.frames
  {
    hide Run, Unwound;
    acts := [BeginLeave(th)] + LeaveActs(th, t.slots, t.wrappers, Top(t).undo);
    var u := Step(t, BeginLeave(th));
    RunOne(t, BeginLeave(th));
    RunThen(t, [BeginLeave(th)], LeaveActs(th, t.slots, t.wrappers, Top(t).undo));
    assert u.frames[..|u.frames| - 1] == t.frames[..|t.frames| - 1];
    assert forall i :: 0 <= i < |Top(u).undo| ==> Made(t, Top(t).undo[i]);
    LeaveIs(u, th);
  }

  lemma OpenHasFrame(s: State, t: State, th: Thread, surfaces: seq<(Name, Kind)>)
    requires Opened(s, t, th, surfaces)
    ensures t.frames != []
  {
  }

  /** From any state any process can be in: an audited run that nothing disturbs leaves every name, the lock
      and every surrounding context as they were; and so does a seeded one. */
  lemma SessionsUndone(slots: map<Name, Fn>, acts: seq<Act>, th: Thread, surfaces: seq<(Name, Kind)>, os: Name, random: Name)
    returns (leaveAudit: seq<Act>, leaveShim: seq<Act>)
    requires AllOutside(slots) && OneEach(surfaces) && os in Run(Begin(slots), acts).slots && random in Run(Begin(slots), acts).slots && os != random
    requires Run(Begin(slots), acts).holder == None || Run(Begin(slots), acts).holder == Some(th)
    ensures var s := Run(Begin(slots), acts);
            var u := Run(Run(s, [Enter(th)] + AuditActs(th, |s.wrappers|, surfaces, s.slots.Keys)), leaveAudit);
            u.slots == s.slots && u.holder == s.holder && u.frames == s.frames
    ensures var s := Run(Begin(slots), acts);
            var u := Run(Run(s, ShimActs(th, |s.wrappers|, os, random)), leaveShim);
            u.slots == s.slots && u.holder == s.holder && u.frames == s.frames
    ensures forall a :: a in leaveAudit || a in leaveShim ==> a in {BeginLeave(th), Check(th), Put(th), Exit(th)}
  {
    hide Run, Opened, AuditActs, ShimActs, Unwound;
    var s := Run(Begin(slots), acts);
    RunInv(slots, acts);
    InvFree(s, th);
    AuditOpens(s, th, surfaces);
    ShimOpens(s, th, os, random);
    var t := Run(s, [Enter(th)] + AuditActs(th, |s.wrappers|, surfaces, s.slots.Keys));
    var v := Run(s, ShimActs(th, |s.wrappers|, os, random));
    OpenHasFrame(s, t, th, surfaces);
    OpenHasFrame(s, v, th, [(os, Seeded), (random, Seeded)]);
    leaveAudit := LeavingUndoes(s, t, th, surfaces);
    leaveShim := LeavingUndoes(s, v, th, [(os, Seeded), (random, Seeded)]);
    OnlyLeaves(th, t.slots, t.wrappers, Top(t).undo);
    OnlyLeaves(th, v.slots, v.wrappers, Top(v).undo);
  }

  lemma InvFree(s: State, th: Thread)
    requires Inv(s) && (s.holder == None || s.holder == Some(th))
    ensures Free(s, th)
  {
    hide UndoTrue, ReadTrue, SlotsTrue;
  }

  lemma {:induction false} OnlyLeaves(th: Thread, slots: map<Name, Fn>, wrappers: seq<Wrap>, undo: seq<nat>)
    ensures forall a :: a in LeaveActs(th, slots, wrappers, undo) ==> a in {Check(th), Put(th), Exit(th)}
    decreases |undo|
  {
    if undo != [] {
      var w, rest := undo[|undo| - 1], undo[..|undo| - 1];
      OnlyLeaves(th, if Ours(slots, wrappers, w) then slots[wrappers[w].name := wrappers[w].original] else slots, wrappers, rest);
    }
  }

  // ---- calls while it is open ---------------------------------------------------------------------------------------------

  /** A call through a value that existed before the session comes to what it came to then. */
  lemma {:induction false} CallSame(wrappers: seq<Wrap>, more: seq<Wrap>, f: Fn, th: Thread, stamps: seq<bool>)
    requires Sound(wrappers) && Sound(more) && wrappers <= more && Older(f, |wrappers|)
    ensures Call(more, f, th, stamps) == Call(wrappers, f, th, stamps)
    decreases if f.Wrapper? then f.id + 1 else 0
  {
    if f.Wrapper? {
      assert Older(wrappers[f.id].original, f.id);
      CallSame(wrappers, more, wrappers[f.id].original, th, stamps);
    }
  }

  /** What a guarded name does: on the session's thread what its kind is for, on any other thread what it
      did before. A clock call that gives a timestamp goes on to what was there before. */
  ghost predicate Guards(before: Outcome, now: Outcome, owner: bool, kind: Kind, stamps: seq<bool>) {
    if !owner then now == before
    else
      match kind
      case Seeded => now.SeededBytes?
      case EntropyTrip => now == Leak
      case ClockTrip(i) => now == if i < |stamps| && stamps[i] then before else Leak
      case ThreadTrip => now == Refused
  }

  lemma GuardedCall(s: State, t: State, th: Thread, n: Name, kind: Kind, caller: Thread, stamps: seq<bool>)
    requires Sound(s.wrappers) && Sound(t.wrappers) && s.wrappers <= t.wrappers && n in s.slots && Older(s.slots[n], |s.wrappers|)
    requires Guarded(s, t, th, n, kind)
    ensures Guards(Call(s.wrappers, s.slots[n], caller, stamps), Call(t.wrappers, t.slots[n], caller, stamps), caller == th, kind, stamps)
  {
    hide Sound;
    CallSame(s.wrappers, t.wrappers, s.slots[n], caller, stamps);
    assert Older(t.wrappers[t.slots[n].id].original, t.slots[n].id);
  }

  /** What every call through every name comes to in t, against what it came to in s. */
  ghost predicate CallsIn(s: State, t: State, th: Thread, surfaces: seq<(Name, Kind)>, n: Name, caller: Thread, stamps: seq<bool>)
    requires Sound(s.wrappers) && Sound(t.wrappers) && n in s.slots && n in t.slots
    requires Older(s.slots[n], |s.wrappers|) && Older(t.slots[n], |t.wrappers|)
  {
    var before, now := Call(s.wrappers, s.slots[n], caller, stamps), Call(t.wrappers, t.slots[n], caller, stamps);
    && (Untouched(surfaces, n) ==> now == before)
    && forall i :: 0 <= i < |surfaces| && surfaces[i].0 == n ==> Guards(before, now, caller == th, surfaces[i].1, stamps)
  }

  lemma OpenedCalls(s: State, t: State, th: Thread, surfaces: seq<(Name, Kind)>, n: Name, caller: Thread, stamps: seq<bool>)
    requires Opened(s, t, th, surfaces) && Inv(s) && Inv(t) && n in s.slots
    ensures n in t.slots && Older(s.slots[n], |s.wrappers|) && Older(t.slots[n], |t.wrappers|)
    ensures CallsIn(s, t, th, surfaces, n, caller, stamps)
  {
    hide UndoTrue, ReadTrue, Sound, Origin, Call, Unwound;
    if Untouched(surfaces, n) {
      CallSame(s.wrappers, t.wrappers, s.slots[n], caller, stamps);
    }
    forall i | 0 <= i < |surfaces| && surfaces[i].0 == n
      ensures Guards(Call(s.wrappers, s.slots[n], caller, stamps), Call(t.wrappers, t.slots[n], caller, stamps), caller == th, surfaces[i].1, stamps)
    {
      GuardedCall(s, t, th, n, surfaces[i].1, caller, stamps);
    }
  }

  /** From any state any process can be in, once audit mode is entered undisturbed: each surface does on the
      session's thread what its kind is for, and nothing else about any call, by any thread, through any
      name, has changed. */
  lemma AuditGuards(slots: map<Name, Fn>, acts: seq<Act>, th: Thread, surfaces: seq<(Name, Kind)>, n: Name, caller: Thread, stamps: seq<bool>)
    requires AllOutside(slots) && OneEach(surfaces) && n in Run(Begin(slots), acts).slots
    requires Run(Begin(slots), acts).holder == None || Run(Begin(slots), acts).holder == Some(th)
    ensures var s := Run(Begin(slots), acts);
            var t := Run(s, [Enter(th)] + AuditActs(th, |s.wrappers|, surfaces, s.slots.Keys));
            && Sound(s.wrappers) && Sound(t.wrappers) && n in t.slots && Older(s.slots[n], |s.wrappers|) && Older(t.slots[n], |t.wrappers|)
            && CallsIn(s, t, th, surfaces, n, caller, stamps)
  {
    hide Run, Opened, AuditActs, CallsIn, UndoTrue, ReadTrue, SlotsTrue;
    var s := Run(Begin(slots), acts);
    var more := [Enter(th)] + AuditActs(th, |s.wrappers|, surfaces, s.slots.Keys);
    RunInv(slots, acts);
    RunInv(slots, acts + more);
    RunThen(Begin(slots), acts, more);
    InvFree(s, th);
    AuditOpens(s, th, surfaces);
    OpenedCalls(s, Run(s, more), th, surfaces, n, caller, stamps);
  }

  /** The same for the seeded shim, whose two names give seeded bytes on the session's thread. */
  lemma ShimSeeds(slots: map<Name, Fn>, acts: seq<Act>, th: Thread, os: Name, random: Name, n: Name, caller: Thread, stamps: seq<bool>)
    requires AllOutside(slots) && n in Run(Begin(slots), acts).slots
    requires os in Run(Begin(slots), acts).slots && random in Run(Begin(slots), acts).slots && os != random
    requires Run(Begin(slots), acts).holder == None || Run(Begin(slots), acts).holder == Some(th)
    ensures var s := Run(Begin(slots), acts);
            var t := Run(s, ShimActs(th, |s.wrappers|, os, random));
            && Sound(s.wrappers) && Sound(t.wrappers) && n in t.slots && Older(s.slots[n], |s.wrappers|) && Older(t.slots[n], |t.wrappers|)
            && CallsIn(s, t, th, [(os, Seeded), (random, Seeded)], n, caller, stamps)
  {
    hide Run, Opened, ShimActs, CallsIn, UndoTrue, ReadTrue, SlotsTrue;
    var s := Run(Begin(slots), acts);
    var more := ShimActs(th, |s.wrappers|, os, random);
    RunInv(slots, acts);
    RunInv(slots, acts + more);
    RunThen(Begin(slots), acts, more);
    InvFree(s, th);
    ShimOpens(s, th, os, random);
    OpenedCalls(s, Run(s, more), th, [(os, Seeded), (random, Seeded)], n, caller, stamps);
  }
}
