/** What calls through patched names come to, on the session's thread and on every other, and what is
    left of a session when its lock is free. */
module PatchCalls {
  import opened Common
  import opened PatchStack

  // ---- the wrappers of one session -----------------------------------------------------------------------------

  /** The name's value from before the session, a replacement, or an earlier wrapper of the session. */
  ghost predicate FromSession(s: State, n: Name, f: Fn, bound: nat) {
    n in s.base && (f == s.base[n] || (n, f) in s.foreign
                    || (f.Wrapper? && s.start <= f.id < bound <= |s.wrappers| && s.wrappers[f.id].name == n))
  }

  ghost predicate OwnWrap(s: State, w: nat) {
    && w < |s.wrappers| && FromSession(s, s.wrappers[w].name, s.wrappers[w].original, w)
    && (s.holder.Some? ==> s.wrappers[w].owner == s.holder.value)
  }

  ghost predicate OwnFrame(s: State, f: Frame) {
    (forall w :: w in f.read ==> s.start <= w < |s.wrappers|) && (forall w :: w in f.undo ==> s.start <= w < |s.wrappers|)
  }

  ghost predicate SessionTrue(s: State) {
    && s.start <= |s.wrappers|
    && (forall w :: s.start <= w < |s.wrappers| ==> OwnWrap(s, w))
    && (forall i :: 0 <= i < |s.frames| ==> OwnFrame(s, s.frames[i]))
    && (forall n :: n in s.slots ==> FromSession(s, n, s.slots[n], |s.wrappers|))
    && (forall n, f :: (n, f) in s.foreign ==> Exists(s, f))
    && (forall n :: n in s.base ==> Exists(s, s.base[n]))
  }

  lemma WrapsGrow(s: State, t: State)
    requires SessionTrue(s) && t.base == s.base && s.foreign <= t.foreign && t.start == s.start && s.wrappers <= t.wrappers
    requires t.holder == s.holder || t.holder == None
    ensures forall w :: s.start <= w < |s.wrappers| ==> OwnWrap(t, w)
  {
    forall w | s.start <= w < |s.wrappers| ensures OwnWrap(t, w) {
      assert OwnWrap(s, w);
    }
  }

  lemma EnterSession(s: State, th: Thread)
    requires Inv(s) && SessionTrue(s)
    ensures SessionTrue(Step(s, Enter(th)))
  {
    hide UndoTrue, ReadTrue, Flat, Sound;
    var t := Step(s, Enter(th));
    if s.holder != None {
      WrapsGrow(s, t);
      forall i | 0 <= i < |t.frames| ensures OwnFrame(t, t.frames[i]) {
        if i < |s.frames| {
          assert OwnFrame(s, s.frames[i]);
        }
      }
    }
  }

  lemma ReadSession(s: State, th: Thread, name: Name, kind: Kind)
    requires Inv(s) && SessionTrue(s) && Entering(s, th) && name in s.slots
    ensures SessionTrue(Step(s, Read(th, name, kind)))
  {
    hide UndoTrue, ReadTrue, Flat, Sound, Inv;
    var t := Step(s, Read(th, name, kind));
    WrapsGrow(s, t);
    assert FromSession(s, name, s.slots[name], |s.wrappers|);
    assert OwnWrap(t, |s.wrappers|);
    forall i | 0 <= i < |t.frames| ensures OwnFrame(t, t.frames[i]) {
      assert OwnFrame(s, s.frames[i]);
    }
    forall n | n in t.slots ensures FromSession(t, n, t.slots[n], |t.wrappers|) {
      assert FromSession(s, n, s.slots[n], |s.wrappers|);
    }
  }

  lemma OtherFrames(s: State, act: Act)
    requires SessionTrue(s) && !act.Enter? && !act.Read?
    ensures var t := Step(s, act); forall i :: 0 <= i < |t.frames| ==> OwnFrame(t, t.frames[i])
  {
    hide FromSession, OwnWrap;
    var t := Step(s, act);
    forall i | 0 <= i < |t.frames| ensures OwnFrame(t, t.frames[i]) {
      assert OwnFrame(s, s.frames[i]);
      var f, g := s.frames[i], t.frames[i];
      forall w | w in g.undo ensures w in f.undo || w in f.read {
        FromOldFrame(s, act, i, w);
      }
    }
  }

  lemma FromOldFrame(s: State, act: Act, i: nat, w: nat)
    requires !act.Enter? && !act.Read? && i < |Step(s, act).frames| && w in Step(s, act).frames[i].undo
    ensures i < |s.frames| && (w in s.frames[i].undo || w in s.frames[i].read)
  {
  }

  /** A step that makes no wrapper and starts no session. */
  lemma OtherSession(s: State, act: Act)
    requires Inv(s) && SessionTrue(s) && !act.Enter? && !act.Read?
    ensures SessionTrue(Step(s, act))
  {
    hide UndoTrue, ReadTrue, Flat, Sound, Inv, FromSession, OwnFrame, OwnWrap;
    var t := Step(s, act);
    if t != s {
      WrapsGrow(s, t);
      OtherFrames(s, act);
      forall n | n in t.slots ensures FromSession(t, n, t.slots[n], |t.wrappers|) {
        OtherSlot(s, act, n);
      }
    }
  }

  lemma OtherSlot(s: State, act: Act, n: Name)
    requires Inv(s) && SessionTrue(s) && !act.Enter? && !act.Read? && n in Step(s, act).slots
    ensures var t := Step(s, act); FromSession(t, n, t.slots[n], |t.wrappers|)
  {
    hide UndoTrue, ReadTrue, Flat, Sound, Inv;
    var t := Step(s, act);
    if n in s.slots && t.slots[n] == s.slots[n] {
      assert FromSession(s, n, s.slots[n], |s.wrappers|);
    } else if act.Install? {
      assert OwnFrame(s, Top(s)) && OwnWrap(s, act.w);
    } else if act.Put? {
      assert OwnFrame(s, Top(s)) && Next(s) in Top(s).undo;
      assert OwnWrap(s, Next(s));
    } else {
      assert FromSession(s, n, s.slots[n], |s.wrappers|);
    }
  }

  lemma {:induction false} RunSession(slots: map<Name, Fn>, acts: seq<Act>)
    requires AllOutside(slots)
    ensures SessionTrue(Run(Begin(slots), acts))
    decreases |acts|
  {
    hide Step, SessionTrue, Inv;
    if acts != [] {
      var s := Run(Begin(slots), acts[..|acts| - 1]);
      var act := acts[|acts| - 1];
      RunSession(slots, acts[..|acts| - 1]);
      RunInv(slots, acts[..|acts| - 1]);
      if act.Enter? {
        EnterSession(s, act.th);
      } else if act.Read? {
        ReadStep(s, act);
      } else {
        OtherSession(s, act);
      }
    } else {
      assert SessionTrue(Begin(slots)) by { BeginSession(slots); }
    }
  }

  lemma BeginSession(slots: map<Name, Fn>)
    requires AllOutside(slots)
    ensures SessionTrue(Begin(slots))
  {
  }

  lemma ReadStep(s: State, act: Act)
    requires Inv(s) && SessionTrue(s) && act.Read?
    ensures SessionTrue(Step(s, act))
  {
    hide Inv, SessionTrue;
    if Entering(s, act.th) && act.name in s.slots {
      ReadSession(s, act.th, act.name, act.kind);
    }
  }

  // ---- calls ---------------------------------------------------------------------------------------------------

  /** What the call would come to without this session: through the value from before, or through a
      replacement. */
  ghost predicate Real(s: State, n: Name, th: Thread, stamps: seq<bool>, o: Outcome)
    requires Sound(s.wrappers) && SessionTrue(s)
  {
    && n in s.base
    && (|| o == Call(s.wrappers, s.base[n], th, stamps)
        || exists f :: (n, f) in s.foreign && o == Call(s.wrappers, f, th, stamps))
  }

  lemma {:induction false} ThroughTheSession(s: State, n: Name, f: Fn, bound: nat, th: Thread, stamps: seq<bool>)
    requires Sound(s.wrappers) && SessionTrue(s) && s.holder.Some? && th != s.holder.value
    requires FromSession(s, n, f, bound) && bound <= |s.wrappers|
    ensures Older(f, |s.wrappers|) && Real(s, n, th, stamps, Call(s.wrappers, f, th, stamps))
    decreases bound
  {
    if f == s.base[n] {
    } else if (n, f) in s.foreign {
    } else {
      var w := f.id;
      assert OwnWrap(s, w);
      ThroughTheSession(s, n, s.wrappers[w].original, w, th, stamps);
    }
  }

  /** While a session runs, on any nesting, a call from any other thread comes to what it would have come
      to without the session: the wrappers pass it through. */
  lemma OtherThreadsPassThrough(slots: map<Name, Fn>, acts: seq<Act>, n: Name, th: Thread, stamps: seq<bool>)
    requires AllOutside(slots) && n in Run(Begin(slots), acts).slots
    requires Run(Begin(slots), acts).holder.Some? && Run(Begin(slots), acts).holder.value != th
    ensures var s := Run(Begin(slots), acts);
            && Sound(s.wrappers) && SessionTrue(s) && Older(s.slots[n], |s.wrappers|)
            && Real(s, n, th, stamps, Call(s.wrappers, s.slots[n], th, stamps))
  {
    hide Run, Call, Real, UndoTrue, ReadTrue, SlotsTrue;
    RunInv(slots, acts);
    RunSession(slots, acts);
    var s := Run(Begin(slots), acts);
    assert FromSession(s, n, s.slots[n], |s.wrappers|);
    ThroughTheSession(s, n, s.slots[n], |s.wrappers|, th, stamps);
  }

  // ---- a process where nothing goes wrong --------------------------------------------------------------------------

  /** No restore is interrupted, and nobody puts a wrapper they saw back. */
  predicate Careful(act: Act) {
    !act.Interrupted? && (act.Replace? ==> act.value.Outside?)
  }

  ghost predicate Clean(s: State) {
    s.skipped == {} && AllOutside(s.base) && forall n, f :: (n, f) in s.foreign ==> f.Outside?
  }

  lemma FreeIsOutside(s: State)
    requires Inv(s) && Clean(s) && s.holder == None
    ensures AllOutside(s.slots)
  {
    forall n | n in s.slots ensures s.slots[n].Outside? {
      assert Origin(s, n, s.slots[n], []);
    }
  }

  lemma StepClean(s: State, act: Act)
    requires Inv(s) && Clean(s) && Careful(act)
    ensures Clean(Step(s, act))
  {
    hide Inv;
    if act.Enter? && s.holder == None {
      FreeIsOutside(s);
    }
  }

  lemma {:induction false} RunClean(slots: map<Name, Fn>, acts: seq<Act>)
    requires AllOutside(slots) && forall i :: 0 <= i < |acts| ==> Careful(acts[i])
    ensures Clean(Run(Begin(slots), acts))
    decreases |acts|
  {
    hide Step, Clean, Inv;
    if acts != [] {
      RunClean(slots, acts[..|acts| - 1]);
      RunInv(slots, acts[..|acts| - 1]);
      StepClean(Run(Begin(slots), acts[..|acts| - 1]), acts[|acts| - 1]);
    } else {
      assert Clean(Begin(slots)) by { BeginClean(slots); }
    }
  }

  lemma BeginClean(slots: map<Name, Fn>)
    requires AllOutside(slots)
    ensures Clean(Begin(slots))
  {
  }

  /** Overlapping sessions from any number of threads leave every name real: whenever the lock is free,
      no name holds a wrapper, however many sessions, failures and replacements there have been. */
  lemma NothingStaysPatched(slots: map<Name, Fn>, acts: seq<Act>)
    requires AllOutside(slots) && forall i :: 0 <= i < |acts| ==> Careful(acts[i])
    requires Run(Begin(slots), acts).holder == None
    ensures AllOutside(Run(Begin(slots), acts).slots)
  {
    hide Run, Inv, Clean;
    RunInv(slots, acts);
    RunClean(slots, acts);
    FreeIsOutside(Run(Begin(slots), acts));
  }

  /** ... and while one session runs, every other thread reaches a real function through it: the one
      from before, or a replacement. */
  lemma OtherThreadsReachRealFunctions(slots: map<Name, Fn>, acts: seq<Act>, n: Name, th: Thread, stamps: seq<bool>)
    requires AllOutside(slots) && (forall i :: 0 <= i < |acts| ==> Careful(acts[i])) && n in Run(Begin(slots), acts).slots
    requires Run(Begin(slots), acts).holder.Some? && Run(Begin(slots), acts).holder.value != th
    ensures var s := Run(Begin(slots), acts);
            && Sound(s.wrappers) && Older(s.slots[n], |s.wrappers|)
            && var o := Call(s.wrappers, s.slots[n], th, stamps);
               o.Ran? && n in s.base && (Outside(o.k) == s.base[n] || (n, Outside(o.k)) in s.foreign)
  {
    hide Run, Inv;
    RunClean(slots, acts);
    OtherThreadsPassThrough(slots, acts, n, th, stamps);
  }

  // ---- a replacement is kept -----------------------------------------------------------------------------------------

  /** Nothing of the kind that could touch the name: no later replacement, no later install on it. */
  predicate LeavesAlone(s: State, act: Act, n: Name) {
    && (act.Replace? ==> act.name != n)
    && (act.Install? && act.w < |s.wrappers| ==> s.wrappers[act.w].name != n)
  }

  ghost predicate AllLeaveAlone(s: State, acts: seq<Act>, n: Name) {
    forall i :: 0 <= i < |acts| ==> LeavesAlone(Run(s, acts[..i]), acts[i], n)
  }

  /** No restore of the name is between its check and its write. */
  ghost predicate NotArmed(s: State, n: Name) {
    forall i :: 0 <= i < |s.frames| && s.frames[i].armed && s.frames[i].undo != [] ==>
      var w := s.frames[i].undo[|s.frames[i].undo| - 1]; w < |s.wrappers| && s.wrappers[w].name != n
  }

  lemma StepKeepsSlot(s: State, act: Act, n: Name, v: Fn)
    requires n in s.slots && s.slots[n] == v && NotArmed(s, n) && LeavesAlone(s, act, n)
    ensures var t := Step(s, act); n in t.slots && t.slots[n] == v
  {
    hide WithTop;
  }

  /** A frame that is armed after a step was armed before it, unless a check has just passed. */
  lemma ArmedBefore(s: State, act: Act, i: nat)
    requires i < |Step(s, act).frames| && Step(s, act).frames[i].armed && !act.Check?
    ensures i < |s.frames| && s.frames[i].armed && s.wrappers <= Step(s, act).wrappers
    ensures Step(s, act).frames[i].leaving == s.frames[i].leaving || Step(s, act).frames[i].leaving
    ensures s.frames[i].leaving ==> Step(s, act).frames[i] == s.frames[i]
  {
  }

  lemma StepArmsNothing(s: State, act: Act, n: Name)
    requires n in s.slots && s.slots[n].Outside? && NotArmed(s, n)
    requires forall i :: 0 <= i < |s.frames| && !s.frames[i].leaving ==> !s.frames[i].armed
    ensures NotArmed(Step(s, act), n)
    ensures var t := Step(s, act); forall i :: 0 <= i < |t.frames| && !t.frames[i].leaving ==> !t.frames[i].armed
  {
    if !act.Check? {
      hide Step;
      var t := Step(s, act);
      forall i | 0 <= i < |t.frames| && t.frames[i].armed
        ensures i < |s.frames| && s.frames[i] == t.frames[i] && t.frames[i].leaving && s.wrappers <= t.wrappers
      {
        ArmedBefore(s, act, i);
      }
    }
  }

  lemma StepKeepsReplacement(s: State, act: Act, n: Name, v: Fn)
    requires n in s.slots && s.slots[n] == v && v.Outside? && NotArmed(s, n) && LeavesAlone(s, act, n)
    requires forall i :: 0 <= i < |s.frames| && !s.frames[i].leaving ==> !s.frames[i].armed
    ensures var t := Step(s, act); n in t.slots && t.slots[n] == v && NotArmed(t, n)
    ensures var t := Step(s, act); forall i :: 0 <= i < |t.frames| && !t.frames[i].leaving ==> !t.frames[i].armed
  {
    hide Step, NotArmed, LeavesAlone;
    StepKeepsSlot(s, act, n, v);
    StepArmsNothing(s, act, n);
  }

  /** Code that replaced a name while a session was active keeps its replacement: from the moment it is
      in place (and not between a restore's check and write), no restore, interrupt or exit undoes it. */
  lemma {:induction false} ReplacementKept(s: State, acts: seq<Act>, n: Name, v: Fn)
    requires n in s.slots && s.slots[n] == v && v.Outside? && NotArmed(s, n) && AllLeaveAlone(s, acts, n)
    requires forall i :: 0 <= i < |s.frames| && !s.frames[i].leaving ==> !s.frames[i].armed
    ensures var t := Run(s, acts); n in t.slots && t.slots[n] == v && NotArmed(t, n)
    ensures var t := Run(s, acts); forall i :: 0 <= i < |t.frames| && !t.frames[i].leaving ==> !t.frames[i].armed
    decreases |acts|
  {
    hide Step, NotArmed, LeavesAlone;
    if acts != [] {
      var front := acts[..|acts| - 1];
      forall i | 0 <= i < |front| ensures LeavesAlone(Run(s, front[..i]), front[i], n) {
        assert front[..i] == acts[..i];
      }
      ReplacementKept(s, front, n, v);
      StepKeepsReplacement(Run(s, front), acts[|acts| - 1], n, v);
    }
  }

  // ---- on the session's own thread -------------------------------------------------------------------------------------

  /** A call that gives a timestamp passes through every clock tripwire, however many are stacked. */
  ghost predicate OnlyClocks(wrappers: seq<Wrap>, f: Fn, stamps: seq<bool>)
    requires Sound(wrappers) && Older(f, |wrappers|)
    decreases if f.Wrapper? then f.id + 1 else 0
  {
    f.Wrapper? ==>
      var wrap := wrappers[f.id];
      assert Older(wrap.original, f.id);
      wrap.kind.ClockTrip? && HasTimestamp(stamps, wrap.kind.tsIndex) && OnlyClocks(wrappers, wrap.original, stamps)
  }

  lemma {:induction false} TimestampPassesThrough(wrappers: seq<Wrap>, f: Fn, th: Thread, stamps: seq<bool>)
    requires Sound(wrappers) && Older(f, |wrappers|) && OnlyClocks(wrappers, f, stamps)
    ensures Call(wrappers, f, th, stamps).Ran?
    decreases if f.Wrapper? then f.id + 1 else 0
  {
    if f.Wrapper? {
      assert Older(wrappers[f.id].original, f.id);
      TimestampPassesThrough(wrappers, wrappers[f.id].original, th, stamps);
    }
  }

  /** Once a wrapper is installed and until the name changes hands, its owner's calls do exactly what
      its kind says. */
  lemma OwnerIsCaught(slots: map<Name, Fn>, acts: seq<Act>, th: Thread, w: nat, stamps: seq<bool>)
    requires AllOutside(slots)
    requires var s := Run(Begin(slots), acts); Entering(s, th) && w in Top(s).undo
    ensures var s := Run(Begin(slots), acts); var t := Run(Begin(slots), acts + [Install(th, w)]);
            && w < |s.wrappers| && Sound(t.wrappers) && s.wrappers[w].name in t.slots && Older(t.slots[s.wrappers[w].name], |t.wrappers|)
            && var wrap := s.wrappers[w]; var o := Call(t.wrappers, t.slots[wrap.name], th, stamps);
               && (wrap.kind.Seeded? ==> o == SeededBytes(w))
               && (wrap.kind.EntropyTrip? ==> o == Leak)
               && (wrap.kind.ThreadTrip? ==> o == Refused)
               && (wrap.kind.ClockTrip? && (wrap.kind.tsIndex >= |stamps| || !stamps[wrap.kind.tsIndex]) ==> o == Leak)
  {
    hide Run, ReadTrue, Origin, FromSession;
    RunInv(slots, acts);
    RunSession(slots, acts);
    var s := Run(Begin(slots), acts);
    FlatTop(s);
    var live := Flat(s.frames);
    assert w in live;
    var p :| 0 <= p < |live| && live[p] == w;
    assert WrapFrom(s, live[p], live[..p]);
    assert OwnFrame(s, Top(s)) && OwnWrap(s, w);
    RunLast(Begin(slots), acts, Install(th, w));
  }

  lemma RunLast(s: State, acts: seq<Act>, act: Act)
    ensures Run(s, acts + [act]) == Step(Run(s, acts), act)
  {
    assert (acts + [act])[..|acts|] == acts;
  }

  // ---- both conditions are needed -----------------------------------------------------------------------------------------

  const OneName: map<Name, Fn> := map[0 := Outside(7)]
  const OneWrap: seq<Wrap> := [Wrap(0, 1, Outside(7), Seeded)]

  /** A session of thread 1 on name 0: where the name stands and what the session still has to do. */
  function At(slot: Fn, holder: Option<Thread>, frames: seq<Frame>, foreign: set<(Name, Fn)>, skipped: set<Name>): State {
    State(map[0 := slot], OneWrap, holder, frames, OneName, foreign, skipped, 0)
  }

  lemma OneFrame(s: State, f: Frame)
    requires |s.frames| == 1
    ensures WithTop(s, f).frames == [f]
  {
  }

  lemma EnterStep()
    ensures Step(Begin(OneName), Enter(1)) == Begin(OneName).(holder := Some(1), frames := [Frame({}, [], false, false)])
  {
  }

  lemma ReadOne()
    ensures Step(Step(Begin(OneName), Enter(1)), Read(1, 0, Seeded)) == At(Outside(7), Some(1), [Frame({0}, [], false, false)], {}, {})
  {
    hide WithTop;
    EnterStep();
    var s := Step(Begin(OneName), Enter(1));
    OneFrame(s, Frame({0}, [], false, false));
    assert Top(s).read + {0} == {0};
    assert WithTop(s, Frame({0}, [], false, false)) == s.(frames := [Frame({0}, [], false, false)]) by { WithTopIs(s, Frame({0}, [], false, false)); }
  }

  lemma WithTopIs(s: State, f: Frame)
    requires |s.frames| == 1
    ensures WithTop(s, f) == s.(frames := [f])
  {
    OneFrame(s, f);
  }

  lemma RegisterOne()
    ensures Step(At(Outside(7), Some(1), [Frame({0}, [], false, false)], {}, {}), Register(1, 0))
            == At(Outside(7), Some(1), [Frame({}, [0], false, false)], {}, {})
  {
    hide WithTop;
    var s := At(Outside(7), Some(1), [Frame({0}, [], false, false)], {}, {});
    WithTopIs(s, Frame({}, [0], false, false));
    assert Top(s).read - {0} == {} && Top(s).undo + [0] == [0];
  }

  lemma InstallOne()
    ensures Step(At(Outside(7), Some(1), [Frame({}, [0], false, false)], {}, {}), Install(1, 0))
            == At(Wrapper(0), Some(1), [Frame({}, [0], false, false)], {}, {})
  {
    assert map[0 := Outside(7)][0 := Wrapper(0)] == map[0 := Wrapper(0)];
  }

  lemma LeaveOne(slot: Fn, foreign: set<(Name, Fn)>)
    ensures Step(At(slot, Some(1), [Frame({}, [0], false, false)], foreign, {}), BeginLeave(1))
            == At(slot, Some(1), [Frame({}, [0], true, false)], foreign, {})
  {
    hide WithTop;
    WithTopIs(At(slot, Some(1), [Frame({}, [0], false, false)], foreign, {}), Frame({}, [0], true, false));
  }

  lemma InterruptOne()
    ensures Step(At(Wrapper(0), Some(1), [Frame({}, [0], true, false)], {}, {}), Interrupted(1))
            == At(Wrapper(0), Some(1), [Frame({}, [], true, false)], {}, {0})
  {
    hide WithTop;
    var s := At(Wrapper(0), Some(1), [Frame({}, [0], true, false)], {}, {});
    WithTopIs(s, Frame({}, [], true, false));
    assert Popped(Top(s)) == Frame({}, [], true, false);
    assert s.skipped + {0} == {0};
  }

  lemma CheckOne(slot: Fn, foreign: set<(Name, Fn)>)
    requires slot != Wrapper(0)
    ensures Step(At(slot, Some(1), [Frame({}, [0], true, false)], foreign, {}), Check(1))
            == At(slot, Some(1), [Frame({}, [], true, false)], foreign, {})
  {
    hide WithTop;
    var s := At(slot, Some(1), [Frame({}, [0], true, false)], foreign, {});
    WithTopIs(s, Frame({}, [], true, false));
    assert Popped(Top(s)) == Frame({}, [], true, false);
  }

  lemma ExitOne(slot: Fn, foreign: set<(Name, Fn)>, skipped: set<Name>)
    ensures Step(At(slot, Some(1), [Frame({}, [], true, false)], foreign, skipped), Exit(1)) == At(slot, None, [], foreign, skipped)
  {
  }

  lemma ReplaceOne(slot: Fn, value: Fn, holder: Option<Thread>, frames: seq<Frame>, foreign: set<(Name, Fn)>)
    requires value.Wrapper? ==> value.id == 0
    ensures Step(At(slot, holder, frames, foreign, {}), Replace(0, value)) == At(value, holder, frames, foreign + {(0, value)}, {})
  {
    assert map[0 := slot][0 := value] == map[0 := value];
  }

  function Acted(s: State, acts: seq<Act>): State
    decreases |acts|
  {
    if acts == [] then s else Acted(Step(s, acts[0]), acts[1..])
  }

  /** Running from the front is running. */
  lemma {:induction false} ActedIsRun(s: State, acts: seq<Act>)
    ensures Acted(s, acts) == Run(s, acts)
    decreases |acts|
  {
    hide Step;
    if |acts| == 1 {
      assert acts[..0] == [] && acts[1..] == [];
      assert Run(s, acts[..0]) == s && Acted(Step(s, acts[0]), acts[1..]) == Step(s, acts[0]);
    } else if |acts| > 1 {
      var front, last := acts[..|acts| - 1], acts[|acts| - 1];
      ActedIsRun(s, front);
      ActedIsRun(Step(s, acts[0]), acts[1..]);
      ActedIsRun(Step(s, acts[0]), front[1..]);
      assert acts[1..][..|acts| - 2] == front[1..];
    }
  }

  lemma ActedStep(s: State, act: Act, rest: seq<Act>)
    ensures Acted(s, [act] + rest) == Acted(Step(s, act), rest)
  {
    assert ([act] + rest)[1..] == rest;
  }

  /** One session on name 0 up to where its wrapper is installed, then the given acts. */
  lemma Patched(rest: seq<Act>)
    ensures Run(Begin(OneName), [Enter(1)] + ([Read(1, 0, Seeded)] + ([Register(1, 0)] + ([Install(1, 0)] + rest))))
            == Acted(At(Wrapper(0), Some(1), [Frame({}, [0], false, false)], {}, {}), rest)
  {
    hide Step, Acted, Run, At;
    var s := Begin(OneName);
    var r3 := [Install(1, 0)] + rest;
    var r2 := [Register(1, 0)] + r3;
    var r1 := [Read(1, 0, Seeded)] + r2;
    ActedIsRun(s, [Enter(1)] + r1);
    ActedStep(s, Enter(1), r1);
    ActedStep(Step(s, Enter(1)), Read(1, 0, Seeded), r2);
    ReadOne();
    ActedStep(At(Outside(7), Some(1), [Frame({0}, [], false, false)], {}, {}), Register(1, 0), r3);
    RegisterOne();
    ActedStep(At(Outside(7), Some(1), [Frame({}, [0], false, false)], {}, {}), Install(1, 0), rest);
    InstallOne();
  }

  /** A restore interrupted before it took effect leaves its own name patched with the lock free. */
  lemma InterruptedRestoreStays() returns (acts: seq<Act>)
    ensures var s := Run(Begin(OneName), acts); s.holder == None && s.slots == map[0 := Wrapper(0)]
    ensures forall i :: 0 <= i < |acts| ==> acts[i] == Interrupted(1) || Careful(acts[i])
  {
    hide Step, Run, Acted;
    var rest := [BeginLeave(1)] + ([Interrupted(1)] + ([Exit(1)] + []));
    acts := [Enter(1)] + ([Read(1, 0, Seeded)] + ([Register(1, 0)] + ([Install(1, 0)] + rest)));
    Patched(rest);
    ActedStep(At(Wrapper(0), Some(1), [Frame({}, [0], false, false)], {}, {}), BeginLeave(1), [Interrupted(1)] + ([Exit(1)] + []));
    LeaveOne(Wrapper(0), {});
    ActedStep(At(Wrapper(0), Some(1), [Frame({}, [0], true, false)], {}, {}), Interrupted(1), [Exit(1)] + []);
    InterruptOne();
    ActedStep(At(Wrapper(0), Some(1), [Frame({}, [], true, false)], {}, {0}), Exit(1), []);
    ExitOne(Wrapper(0), {}, {0});
    NoActs(At(Wrapper(0), None, [], {}, {0}));
  }

  lemma NoActs(s: State)
    ensures Acted(s, []) == s
  {
  }

  /** Code that replaces a name and, after the session, puts back the wrapper it had seen leaves the name
      patched. */
  lemma PutBackStays() returns (acts: seq<Act>)
    ensures var s := Run(Begin(OneName), acts); s.holder == None && s.slots == map[0 := Wrapper(0)]
    ensures forall i :: 0 <= i < |acts| ==> !acts[i].Interrupted?
  {
    hide Step, Run, Acted;
    var seen := {(0, Outside(9))};
    var r4 := [Replace(0, Wrapper(0))] + [];
    var r3 := [Exit(1)] + r4;
    var r2 := [Check(1)] + r3;
    var r1 := [BeginLeave(1)] + r2;
    var rest := [Replace(0, Outside(9))] + r1;
    acts := [Enter(1)] + ([Read(1, 0, Seeded)] + ([Register(1, 0)] + ([Install(1, 0)] + rest)));
    Patched(rest);
    var frames := [Frame({}, [0], false, false)];
    ActedStep(At(Wrapper(0), Some(1), frames, {}, {}), Replace(0, Outside(9)), r1);
    ReplaceOne(Wrapper(0), Outside(9), Some(1), frames, {});
    assert {} + {(0, Outside(9))} == seen;
    ActedStep(At(Outside(9), Some(1), frames, seen, {}), BeginLeave(1), r2);
    LeaveOne(Outside(9), seen);
    ActedStep(At(Outside(9), Some(1), [Frame({}, [0], true, false)], seen, {}), Check(1), r3);
    CheckOne(Outside(9), seen);
    ActedStep(At(Outside(9), Some(1), [Frame({}, [], true, false)], seen, {}), Exit(1), r4);
    ExitOne(Outside(9), seen, {});
    ActedStep(At(Outside(9), None, [], seen, {}), Replace(0, Wrapper(0)), []);
    ReplaceOne(Outside(9), Wrapper(0), None, [], seen);
    NoActs(At(Wrapper(0), None, [], seen + {(0, Wrapper(0))}, {}));
  }
}
