/** The process whose names are patched, as an object: `exclusive_patching`, `_install`,
    `restore_if_ours`, and the two context managers `csprng_shim` and `audit_mode`. Every method is a
    run of the steps of `PatchStack`, so its theorems hold after each. */
module PatchProcess {
  import opened Common
  import opened PatchStack
  import opened PatchCalls

  /** Reading, registering and installing one name: audit mode's order. */
  function InstallActs(th: Thread, w: nat, name: Name, kind: Kind): seq<Act> {
    [Read(th, name, kind), Register(th, w), Install(th, w)]
  }

  /** Audit mode takes its surfaces one by one; a name the process does not have is skipped. */
  function AuditActs(th: Thread, w: nat, surfaces: seq<(Name, Kind)>, present: set<Name>): seq<Act> {
    if surfaces == [] then []
    else
      var (name, kind) := surfaces[|surfaces| - 1];
      var before := AuditActs(th, w, surfaces[..|surfaces| - 1], present);
      if name in present then before + InstallActs(th, w + Count(surfaces[..|surfaces| - 1], present), name, kind) else before
  }

  function Count(surfaces: seq<(Name, Kind)>, present: set<Name>): nat {
    if surfaces == [] then 0
    else Count(surfaces[..|surfaces| - 1], present) + if surfaces[|surfaces| - 1].0 in present then 1 else 0
  }

  lemma AuditNone(th: Thread, w: nat, surfaces: seq<(Name, Kind)>, present: set<Name>)
    ensures AuditActs(th, w, surfaces[..0], present) == [] && Count(surfaces[..0], present) == 0
  {
  }

  lemma AuditMore(th: Thread, w: nat, surfaces: seq<(Name, Kind)>, i: nat, present: set<Name>)
    requires i < |surfaces|
    ensures var (name, kind) := surfaces[i]; var more := AuditActs(th, w, surfaces[..i + 1], present);
            && more == AuditActs(th, w, surfaces[..i], present)
                       + (if name in present then InstallActs(th, w + Count(surfaces[..i], present), name, kind) else [])
            && Count(surfaces[..i + 1], present) == Count(surfaces[..i], present) + if name in present then 1 else 0
  {
    assert surfaces[..i + 1][..i] == surfaces[..i];
  }

  /** The shim reads both originals, registers both restores, then installs both. */
  function ShimActs(th: Thread, w: nat, os: Name, random: Name): seq<Act> {
    [Enter(th), Read(th, os, Seeded), Read(th, random, Seeded), Register(th, w), Register(th, w + 1), Install(th, w), Install(th, w + 1)]
  }

  /** The name still holds this wrapper. */
  predicate Ours(slots: map<Name, Fn>, wrappers: seq<Wrap>, w: nat) {
    w < |wrappers| && wrappers[w].name in slots && slots[wrappers[w].name] == Wrapper(w)
  }

  /** What running these restores, last first, leaves in the names. */
  function Unwound(slots: map<Name, Fn>, wrappers: seq<Wrap>, undo: seq<nat>): map<Name, Fn>
    decreases |undo|
  {
    if undo == [] then slots
    else
      var w, rest := undo[|undo| - 1], undo[..|undo| - 1];
      Unwound(if Ours(slots, wrappers, w) then slots[wrappers[w].name := wrappers[w].original] else slots, wrappers, rest)
  }

  /** The steps that takes, and letting the lock go. */
  function LeaveActs(th: Thread, slots: map<Name, Fn>, wrappers: seq<Wrap>, undo: seq<nat>): seq<Act>
    decreases |undo|
  {
    if undo == [] then [Exit(th)]
    else
      var w, rest := undo[|undo| - 1], undo[..|undo| - 1];
      if Ours(slots, wrappers, w) then
        [Check(th), Put(th)] + LeaveActs(th, slots[wrappers[w].name := wrappers[w].original], wrappers, rest)
      else [Check(th)] + LeaveActs(th, slots, wrappers, rest)
  }

  lemma RestoreFirst(th: Thread, slots: map<Name, Fn>, wrappers: seq<Wrap>, undo: seq<nat>)
    requires undo != []
    ensures var w, rest := undo[|undo| - 1], undo[..|undo| - 1];
            if Ours(slots, wrappers, w) then
              var back: map<Name, Fn> := slots[wrappers[w].name := wrappers[w].original];
              && Unwound(slots, wrappers, undo) == Unwound(back, wrappers, rest)
              && LeaveActs(th, slots, wrappers, undo) == [Check(th), Put(th)] + LeaveActs(th, back, wrappers, rest)
            else
              && Unwound(slots, wrappers, undo) == Unwound(slots, wrappers, rest)
              && LeaveActs(th, slots, wrappers, undo) == [Check(th)] + LeaveActs(th, slots, wrappers, rest)
  {
  }

  lemma NoneToLeave(th: Thread, slots: map<Name, Fn>, wrappers: seq<Wrap>)
    ensures Unwound(slots, wrappers, []) == slots && LeaveActs(th, slots, wrappers, []) == [Exit(th)]
  {
  }

  class Process {
    ghost const initial: map<Name, Fn>
    ghost var history: seq<Act>
    var slots: map<Name, Fn>
    var wrappers: seq<Wrap>
    var holder: Option<Thread>
    var frames: seq<Frame>
    ghost var base: map<Name, Fn>
    ghost var foreign: set<(Name, Fn)>
    ghost var skipped: set<Name>
    ghost var start: nat

    ghost function View(): State
      reads this
    {
      State(slots, wrappers, holder, frames, base, foreign, skipped, start)
    }

    /** The process is where its history of steps has brought it. */
    ghost predicate Valid()
      reads this
    {
      AllOutside(initial) && View() == Run(Begin(initial), history)
    }

    constructor (names: map<Name, Fn>)
      requires AllOutside(names)
      ensures Valid() && slots == names && holder == None && history == []
    {
      initial, history := names, [];
      slots, wrappers, holder, frames := names, [], None, [];
      base, foreign, skipped, start := names, {}, {}, 0;
    }

    /** The step just taken goes on record. */
    lemma Stepped(s: State, was: seq<Act>, act: Act)
      requires s == Run(Begin(initial), was)
      ensures Step(s, act) == Run(Begin(initial), was + [act])
    {
      RunLast(Begin(initial), was, act);
    }

    // ---- the steps -----------------------------------------------------------------------------------------------

    /** The lock: another thread waits, so this is only reached when it is free or already ours. */
    method EnterLock(th: Thread)
      requires Valid() && (holder == None || holder == Some(th))
      modifies this
      ensures Valid() && history == old(history) + [Enter(th)] && View() == Step(old(View()), Enter(th))
      ensures Entering(View(), th) && |frames| == |old(frames)| + 1 && slots == old(slots) && wrappers == old(wrappers)
    {
      hide Run, Inv;
      FreeHasNoFrames();
      Stepped(View(), history, Enter(th));
      history := history + [Enter(th)];
      if holder == None {
        base, foreign, skipped, start := slots, {}, {}, |wrappers|;
      }
      holder := Some(th);
      frames := frames + [Frame({}, [], false, false)];
    }

    /** A free lock has no open context. */
    lemma FreeHasNoFrames()
      requires Valid()
      ensures holder == None <==> frames == []
    {
      hide Run, UndoTrue, ReadTrue, SlotsTrue;
      RunInv(initial, history);
    }

    method ReadOriginal(th: Thread, name: Name, kind: Kind) returns (w: nat)
      requires Valid() && Entering(View(), th) && name in slots
      modifies this
      ensures Valid() && history == old(history) + [Read(th, name, kind)] && View() == Step(old(View()), Read(th, name, kind))
      ensures w == |old(wrappers)| && wrappers == old(wrappers) + [Wrap(name, th, old(slots)[name], kind)] && slots == old(slots)
      ensures Entering(View(), th) && Top(View()) == Top(old(View())).(read := Top(old(View())).read + {w})
    {
      hide Run;
      Stepped(View(), history, Read(th, name, kind));
      history := history + [Read(th, name, kind)];
      w := |wrappers|;
      wrappers := wrappers + [Wrap(name, th, slots[name], kind)];
      var top := frames[|frames| - 1];
      frames := frames[..|frames| - 1] + [top.(read := top.read + {w})];
    }

    /** `undo.callback(restore_if_ours, ...)`. */
    method RegisterRestore(th: Thread, w: nat)
      requires Valid() && Entering(View(), th) && w in Top(View()).read
      modifies this
      ensures Valid() && history == old(history) + [Register(th, w)] && View() == Step(old(View()), Register(th, w))
      ensures Entering(View(), th) && slots == old(slots) && wrappers == old(wrappers)
      ensures Top(View()) == Top(old(View())).(read := Top(old(View())).read - {w}, undo := Top(old(View())).undo + [w])
    {
      hide Run;
      Stepped(View(), history, Register(th, w));
      history := history + [Register(th, w)];
      var top := frames[|frames| - 1];
      frames := frames[..|frames| - 1] + [top.(read := top.read - {w}, undo := top.undo + [w])];
    }

    /** `_install`. */
    method InstallWrapper(th: Thread, w: nat)
      requires Valid() && Entering(View(), th) && w in Top(View()).undo && Made(View(), w)
      modifies this
      ensures Valid() && history == old(history) + [Install(th, w)] && View() == Step(old(View()), Install(th, w))
      ensures Entering(View(), th) && wrappers == old(wrappers) && frames == old(frames)
      ensures slots == old(slots)[wrappers[w].name := Wrapper(w)]
    {
      hide Run;
      Stepped(View(), history, Install(th, w));
      history := history + [Install(th, w)];
      slots := slots[wrappers[w].name := Wrapper(w)];
    }

    /** `restore_if_ours`, undisturbed: the original comes back only where ours is still in place. */
    method RestoreIfOurs(th: Thread)
      requires Valid() && Restoring(View(), th) && !Top(View()).armed && Made(View(), Next(View()))
      modifies this
      ensures Valid() && holder == old(holder) && |frames| == |old(frames)|
      ensures var w := Next(old(View())); var wrap := old(wrappers)[w];
              && slots == (if old(slots)[wrap.name] == Wrapper(w) then old(slots)[wrap.name := wrap.original] else old(slots))
              && history == old(history) + if old(slots)[wrap.name] == Wrapper(w) then [Check(th), Put(th)] else [Check(th)]
      ensures Top(View()) == Popped(Top(old(View()))) && Acts(View(), th)
      ensures skipped == old(skipped) && foreign == old(foreign) && base == old(base) && wrappers == old(wrappers)
    {
      hide Run;
      var top := frames[|frames| - 1];
      var w := top.undo[|top.undo| - 1];
      var wrap := wrappers[w];
      ghost var s := View();
      Stepped(s, history, Check(th));
      ghost var checked := Step(s, Check(th));
      if slots[wrap.name] == Wrapper(w) {
        Stepped(checked, history + [Check(th)], Put(th));
        assert history + [Check(th)] + [Put(th)] == history + [Check(th), Put(th)];
        history := history + [Check(th), Put(th)];
        slots := slots[wrap.name := wrap.original];
      } else {
        history := history + [Check(th)];
      }
      frames := frames[..|frames| - 1] + [top.(undo := top.undo[..|top.undo| - 1], armed := false)];
      assert checked.frames[..|checked.frames| - 1] == s.frames[..|s.frames| - 1];
    }

    /** Other code replaces a name. */
    method ReplaceBy(name: Name, value: Fn)
      requires Valid() && name in slots && Exists(View(), value)
      modifies this
      ensures Valid() && history == old(history) + [Replace(name, value)] && slots == old(slots)[name := value] && holder == old(holder)
    {
      hide Run;
      Stepped(View(), history, Replace(name, value));
      history := history + [Replace(name, value)];
      slots := slots[name := value];
      foreign := foreign + {(name, value)};
    }

    // ---- the context managers ---------------------------------------------------------------------------------------

    /** `audit_mode` up to its `yield`: each surface read, its restore registered, then installed. */
    method EnterAudit(th: Thread, surfaces: seq<(Name, Kind)>)
      requires Valid() && (holder == None || holder == Some(th))
      modifies this
      ensures Valid() && Entering(View(), th)
      ensures history == old(history) + [Enter(th)] + AuditActs(th, |old(wrappers)|, surfaces, old(slots).Keys)
    {
      hide Step, Run, Valid, AuditActs, Count, InstallActs;
      EnterLock(th);
      var i := 0;
      AuditNone(th, |old(wrappers)|, surfaces, slots.Keys);
      while i < |surfaces|
        invariant 0 <= i <= |surfaces| && Valid() && Entering(View(), th) && slots.Keys == old(slots).Keys
        invariant |wrappers| == |old(wrappers)| + Count(surfaces[..i], slots.Keys)
        invariant history == old(history) + [Enter(th)] + AuditActs(th, |old(wrappers)|, surfaces[..i], slots.Keys)
      {
        AuditMore(th, |old(wrappers)|, surfaces, i, slots.Keys);
        var (name, kind) := surfaces[i];
        ghost var done := AuditActs(th, |old(wrappers)|, surfaces[..i], slots.Keys);
        if name in slots {
          ghost var more := InstallActs(th, |wrappers|, name, kind);
          InstallOne(th, name, kind);
          assert old(history) + [Enter(th)] + done + more == old(history) + [Enter(th)] + (done + more);
        }
        i := i + 1;
      }
      assert surfaces[..i] == surfaces;
    }

    method InstallOne(th: Thread, name: Name, kind: Kind)
      requires Valid() && Entering(View(), th) && name in slots
      modifies this
      ensures Valid() && Entering(View(), th) && slots == old(slots)[name := Wrapper(|old(wrappers)|)]
      ensures wrappers == old(wrappers) + [Wrap(name, th, old(slots)[name], kind)]
      ensures history == old(history) + InstallActs(th, |old(wrappers)|, name, kind)
    {
      hide Step, Run, Valid;
      var w := ReadOriginal(th, name, kind);
      RegisterRestore(th, w);
      InstallWrapper(th, w);
    }

    /** `csprng_shim` up to its `yield`. */
    method EnterShim(th: Thread, os: Name, random: Name)
      requires Valid() && (holder == None || holder == Some(th)) && os in slots && random in slots
      modifies this
      ensures Valid() && Entering(View(), th) && history == old(history) + ShimActs(th, |old(wrappers)|, os, random)
      ensures slots == old(slots)[os := Wrapper(|old(wrappers)|)][random := Wrapper(|old(wrappers)| + 1)]
    {
      hide Step, Run, Valid;
      EnterLock(th);
      var scopedOs := ReadOriginal(th, os, Seeded);
      var scopedRandom := ReadOriginal(th, random, Seeded);
      RegisterRestore(th, scopedOs);
      RegisterRestore(th, scopedRandom);
      InstallWrapper(th, scopedOs);
      InstallWrapper(th, scopedRandom);
    }

    method StartLeaving(th: Thread)
      requires Valid() && Entering(View(), th)
      modifies this
      ensures Valid() && history == old(history) + [BeginLeave(th)] && View() == Step(old(View()), BeginLeave(th))
      ensures Acts(View(), th) && Top(View()) == Top(old(View())).(read := {}, leaving := true) && |frames| == |old(frames)|
      ensures slots == old(slots) && wrappers == old(wrappers) && skipped == old(skipped) && foreign == old(foreign) && base == old(base)
    {
      hide Run;
      Stepped(View(), history, BeginLeave(th));
      history := history + [BeginLeave(th)];
      var top := frames[|frames| - 1];
      frames := frames[..|frames| - 1] + [top.(read := {}, leaving := true)];
    }

    method ExitContext(th: Thread)
      requires Valid() && Acts(View(), th) && Top(View()).leaving && Top(View()).undo == []
      modifies this
      ensures Valid() && history == old(history) + [Exit(th)] && View() == Step(old(View()), Exit(th))
      ensures slots == old(slots) && wrappers == old(wrappers) && frames == old(frames)[..|old(frames)| - 1]
      ensures holder == (if |old(frames)| == 1 then None else old(holder)) && skipped == old(skipped) && foreign == old(foreign) && base == old(base)
    {
      hide Run;
      Stepped(View(), history, Exit(th));
      history := history + [Exit(th)];
      holder := if |frames| == 1 then None else holder;
      frames := frames[..|frames| - 1];
    }

    /** With the lock free every name is back, or replaced, or had its own restore interrupted. */
    ghost predicate AllBack()
      reads this
    {
      forall n :: n in slots ==> n in base && (slots[n] == base[n] || (n, slots[n]) in foreign || n in skipped)
    }

    lemma FreeIsBack()
      requires Valid() && holder == None
      ensures AllBack()
    {
      hide Run;
      forall n | n in slots ensures n in base && (slots[n] == base[n] || (n, slots[n]) in foreign || n in skipped) {
        FreeMeansRestored(initial, history, n);
      }
    }

    /** Leaving either of them: every restore runs, last registered first, then the lock is let go. */
    method Leave(th: Thread)
      requires Valid() && Entering(View(), th) && !Top(View()).armed
      modifies this
      ensures Valid() && |frames| == |old(frames)| - 1
      ensures skipped == old(skipped) && foreign == old(foreign) && base == old(base) && wrappers == old(wrappers)
      ensures slots == Unwound(old(slots), old(wrappers), Top(old(View())).undo)
      ensures history == old(history) + [BeginLeave(th)] + LeaveActs(th, old(slots), old(wrappers), Top(old(View())).undo)
      ensures holder == None ==> AllBack()
    {
      hide Run, AllBack, Valid, Step, Unwound, LeaveActs;
      ghost var restores := Top(View()).undo;
      StartLeaving(th);
      while frames[|frames| - 1].undo != []
        invariant Valid() && Acts(View(), th) && Top(View()).leaving && !Top(View()).armed && |frames| == |old(frames)|
        invariant skipped == old(skipped) && foreign == old(foreign) && base == old(base) && wrappers == old(wrappers)
        invariant Unwound(slots, wrappers, Top(View()).undo) == Unwound(old(slots), wrappers, restores)
        invariant history + LeaveActs(th, slots, wrappers, Top(View()).undo) ==
                  old(history) + [BeginLeave(th)] + LeaveActs(th, old(slots), wrappers, restores)
        decreases |frames[|frames| - 1].undo|
      {
        NextIsMade(th);
        ghost var was, undo := slots, Top(View()).undo;
        RestoreFirst(th, slots, wrappers, undo);
        RestoreIfOurs(th);
      }
      NoneToLeave(th, slots, wrappers);
      ExitContext(th);
      if holder == None {
        FreeIsBack();
      }
    }

    lemma NextIsMade(th: Thread)
      requires Valid() && Restoring(View(), th)
      ensures Made(View(), Next(View()))
    {
      hide Run, ReadTrue, SlotsTrue, Origin;
      RunInv(initial, history);
      var s := View();
      FlatTop(s);
      var live := Flat(s.frames);
      assert live[|live| - 1] == Next(s);
      assert WrapFrom(s, live[|live| - 1], live[..|live| - 1]);
    }
  }
}
