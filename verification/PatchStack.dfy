/** Process-wide patches under a re-entrant lock (src/seedloop/_entropy.py, src/seedloop/_audit.py), as
    a machine of atomic steps. Any number of threads; sessions nested on the lock's owner; an interrupt
    between any two steps; other code replacing a patched name at any moment, also between a restore's
    check and its write. The two clients, the CSPRNG shim and audit mode, are two schedules of it. */
module PatchStack {
  import opened Common

  type Name = nat
  type Thread = nat

  /** What a patched name can hold: a function from outside, or a wrapper some session made. */
  datatype Fn = Outside(k: nat) | Wrapper(id: nat)

  /** What a wrapper does on its owner's thread. `ClockTrip` trips only on a call without a timestamp at
      its index. */
  datatype Kind = Seeded | EntropyTrip | ClockTrip(tsIndex: nat) | ThreadTrip

  datatype Wrap = Wrap(name: Name, owner: Thread, original: Fn, kind: Kind)

  /** One open context: originals read, restores registered (last first to run), and, once it leaves,
      whether the current restore has passed its check. */
  datatype Frame = Frame(read: set<nat>, undo: seq<nat>, leaving: bool, armed: bool)

  /** `base` is what every name held when the lock was last taken, `foreign` what other code put where
      since, `skipped` the names whose own restore was interrupted since, `start` the first wrapper of
      this session. */
  datatype State = State(slots: map<Name, Fn>, wrappers: seq<Wrap>, holder: Option<Thread>, frames: seq<Frame>,
                         base: map<Name, Fn>, foreign: set<(Name, Fn)>, skipped: set<Name>, start: nat)

  function Begin(slots: map<Name, Fn>): State {
    State(slots, [], None, [], slots, {}, {}, 0)
  }

  datatype Act =
    | Enter(th: Thread)
    | Read(th: Thread, name: Name, kind: Kind) | Register(th: Thread, w: nat) | Install(th: Thread, w: nat)
    | BeginLeave(th: Thread)
    | Check(th: Thread) | Put(th: Thread) | Interrupted(th: Thread)
    | Exit(th: Thread)
    | Replace(name: Name, value: Fn)

  function Top(s: State): Frame
    requires s.frames != []
  {
    s.frames[|s.frames| - 1]
  }

  function WithTop(s: State, f: Frame): (t: State)
    requires s.frames != []
    ensures t == s.(frames := t.frames)
  {
    s.(frames := s.frames[..|s.frames| - 1] + [f])
  }

  /** Only the thread that holds the lock takes a session's steps. */
  predicate Acts(s: State, th: Thread) { s.holder == Some(th) && s.frames != [] }

  predicate Entering(s: State, th: Thread) { Acts(s, th) && !Top(s).leaving }

  predicate Restoring(s: State, th: Thread) { Acts(s, th) && Top(s).leaving && Top(s).undo != [] }

  /** The wrapper whose restore is next: the last one registered. */
  function Next(s: State): nat
    requires s.frames != [] && Top(s).undo != []
  {
    Top(s).undo[|Top(s).undo| - 1]
  }

  function Popped(f: Frame): Frame
    requires f.undo != []
  {
    f.(undo := f.undo[..|f.undo| - 1], armed := false)
  }

  predicate Made(s: State, w: nat) { w < |s.wrappers| && s.wrappers[w].name in s.slots }

  /** A value that exists. */
  predicate Exists(s: State, f: Fn) { f.Wrapper? ==> f.id < |s.wrappers| }

  /** One atomic step; a step that is not possible now changes nothing. */
  function Step(s: State, act: Act): State {
    match act
    case Enter(th) =>
      if s.holder == None then
        s.(holder := Some(th), frames := [Frame({}, [], false, false)], base := s.slots, foreign := {}, skipped := {}, start := |s.wrappers|)
      else if s.holder == Some(th) then s.(frames := s.frames + [Frame({}, [], false, false)])
      else s
    case Read(th, name, kind) =>
      if Entering(s, th) && name in s.slots then
        WithTop(s, Top(s).(read := Top(s).read + {|s.wrappers|})).(wrappers := s.wrappers + [Wrap(name, th, s.slots[name], kind)])
      else s
    case Register(th, w) =>
      if Entering(s, th) && w in Top(s).read then WithTop(s, Top(s).(read := Top(s).read - {w}, undo := Top(s).undo + [w])) else s
    case Install(th, w) =>
      if Entering(s, th) && w in Top(s).undo && Made(s, w) then s.(slots := s.slots[s.wrappers[w].name := Wrapper(w)]) else s
    case BeginLeave(th) => if Entering(s, th) then WithTop(s, Top(s).(read := {}, leaving := true)) else s
    case Check(th) =>
      if Restoring(s, th) && !Top(s).armed && Made(s, Next(s)) then
        if s.slots[s.wrappers[Next(s)].name] == Wrapper(Next(s)) then WithTop(s, Top(s).(armed := true))
        else WithTop(s, Popped(Top(s)))
      else s
    case Put(th) =>
      if Restoring(s, th) && Top(s).armed && Made(s, Next(s)) then
        var wrap := s.wrappers[Next(s)];
        WithTop(s, Popped(Top(s))).(slots := s.slots[wrap.name := wrap.original])
      else s
    case Interrupted(th) =>
      if Restoring(s, th) && Made(s, Next(s)) then
        WithTop(s, Popped(Top(s))).(skipped := s.skipped + {s.wrappers[Next(s)].name})
      else s
    case Exit(th) =>
      if Acts(s, th) && Top(s).leaving && Top(s).undo == [] then
        s.(frames := s.frames[..|s.frames| - 1], holder := if |s.frames| == 1 then None else s.holder)
      else s
    case Replace(name, value) =>
      if name in s.slots && Exists(s, value) then s.(slots := s.slots[name := value], foreign := s.foreign + {(name, value)}) else s
  }

  function Run(s: State, acts: seq<Act>): State {
    if acts == [] then s else Step(Run(s, acts[..|acts| - 1]), acts[|acts| - 1])
  }

  // ---- what a call does --------------------------------------------------------------------------------------

  /** A wrapper was made around something that existed before it. */
  ghost predicate Sound(wrappers: seq<Wrap>) {
    forall w :: 0 <= w < |wrappers| ==> Older(wrappers[w].original, w)
  }

  predicate Older(f: Fn, w: nat) { f.Wrapper? ==> f.id < w }

  datatype Outcome = Ran(k: nat) | SeededBytes(w: nat) | Leak | Refused

  /** `stamps` says which positional arguments were given and are not `None`. */
  predicate HasTimestamp(stamps: seq<bool>, at: nat) { at < |stamps| && stamps[at] }

  /** What a call through a name's value comes to. */
  ghost function Call(wrappers: seq<Wrap>, f: Fn, th: Thread, stamps: seq<bool>): Outcome
    requires Sound(wrappers) && Older(f, |wrappers|)
    decreases if f.Wrapper? then f.id + 1 else 0
  {
    match f
    case Outside(k) => Ran(k)
    case Wrapper(w) =>
      var wrap := wrappers[w];
      assert Older(wrap.original, w);
      if th != wrap.owner then Call(wrappers, wrap.original, th, stamps)
      else
        match wrap.kind
        case Seeded => SeededBytes(w)
        case EntropyTrip => Leak
        case ClockTrip(i) => if HasTimestamp(stamps, i) then Call(wrappers, wrap.original, th, stamps) else Leak
        case ThreadTrip => Refused
  }

  // ---- where a value can come from --------------------------------------------------------------------------

  /** All restores registered, in the order of registration; they run from the end. */
  function Flat(frames: seq<Frame>): seq<nat> {
    if frames == [] then [] else Flat(frames[..|frames| - 1]) + frames[|frames| - 1].undo
  }

  ghost predicate IsLive(s: State, n: Name, f: Fn, live: seq<nat>) {
    f.Wrapper? && f.id < |s.wrappers| && s.wrappers[f.id].name == n && f.id in live
  }

  /** The name's value from before, a replacement by other code, a wrapper of this session that is still
      to be restored, or, if a restore of the name was interrupted, anything. */
  ghost predicate Origin(s: State, n: Name, f: Fn, live: seq<nat>) {
    n in s.base && (f == s.base[n] || (n, f) in s.foreign || n in s.skipped || IsLive(s, n, f, live))
  }

  ghost predicate WrapFrom(s: State, w: nat, live: seq<nat>) {
    Made(s, w) && Origin(s, s.wrappers[w].name, s.wrappers[w].original, live)
  }

  ghost predicate UndoTrue(s: State) {
    var live := Flat(s.frames);
    forall p :: 0 <= p < |live| ==> WrapFrom(s, live[p], live[..p])
  }

  ghost predicate ReadTrue(s: State) {
    forall i, w :: 0 <= i < |s.frames| && w in s.frames[i].read ==> WrapFrom(s, w, Flat(s.frames[..i + 1]))
  }

  ghost predicate SlotsTrue(s: State) {
    s.slots.Keys == s.base.Keys && forall n :: n in s.slots ==> Origin(s, n, s.slots[n], Flat(s.frames)) && Exists(s, s.slots[n])
  }

  ghost predicate Inv(s: State) {
    && (s.holder == None <==> s.frames == [])
    && Sound(s.wrappers) && UndoTrue(s) && ReadTrue(s) && SlotsTrue(s)
  }

  // ---- every step keeps it -------------------------------------------------------------------------------------

  lemma FlatTop(s: State)
    requires s.frames != []
    ensures Flat(s.frames) == Flat(s.frames[..|s.frames| - 1]) + Top(s).undo
  {
  }

  lemma FlatWithTop(s: State, f: Frame)
    requires s.frames != []
    ensures Flat(WithTop(s, f).frames) == Flat(s.frames[..|s.frames| - 1]) + f.undo
  {
    assert WithTop(s, f).frames[..|s.frames| - 1] == s.frames[..|s.frames| - 1];
  }

  lemma OriginMore(s: State, t: State, n: Name, f: Fn, live: seq<nat>, more: seq<nat>)
    requires Origin(s, n, f, live) && t.base == s.base && s.foreign <= t.foreign && s.skipped <= t.skipped
    requires s.wrappers <= t.wrappers && (forall w :: w in live ==> w in more)
    ensures Origin(t, n, f, more)
  {
  }

  /** The restores, the reads and the slots all stay true when nothing but the slots, the replacements,
      the interrupted names and the record of wrappers change. */
  lemma KeepStack(s: State, t: State)
    requires UndoTrue(s) && t.frames == s.frames && t.base == s.base && s.foreign <= t.foreign && s.skipped <= t.skipped
    requires s.wrappers <= t.wrappers && s.slots.Keys == t.slots.Keys
    ensures UndoTrue(t)
  {
    var live := Flat(s.frames);
    forall p | 0 <= p < |live| ensures WrapFrom(t, live[p], live[..p]) {
      assert WrapFrom(s, live[p], live[..p]);
      OriginMore(s, t, s.wrappers[live[p]].name, s.wrappers[live[p]].original, live[..p], live[..p]);
    }
  }

  lemma KeepReads(s: State, t: State)
    requires ReadTrue(s) && |t.frames| <= |s.frames| && t.base == s.base && s.foreign <= t.foreign && s.skipped <= t.skipped
    requires s.wrappers <= t.wrappers && s.slots.Keys == t.slots.Keys
    requires forall i :: 0 <= i < |t.frames| ==> t.frames[i] == s.frames[i]
    ensures ReadTrue(t)
  {
    forall i, w | 0 <= i < |t.frames| && w in t.frames[i].read ensures WrapFrom(t, w, Flat(t.frames[..i + 1])) {
      assert t.frames[..i + 1] == s.frames[..i + 1];
      assert WrapFrom(s, w, Flat(s.frames[..i + 1]));
      OriginMore(s, t, s.wrappers[w].name, s.wrappers[w].original, Flat(s.frames[..i + 1]), Flat(s.frames[..i + 1]));
    }
  }

  /** The same with the top frame replaced: its restores start like before or lost the last, and
      everything it still has read is accounted for. */
  lemma ReadsBelowTop(s: State, t: State, f: Frame)
    requires ReadTrue(s) && s.frames != [] && t.frames == WithTop(s, f).frames && t.base == s.base
    requires s.foreign <= t.foreign && s.skipped <= t.skipped && s.wrappers <= t.wrappers && s.slots.Keys == t.slots.Keys
    requires forall w :: w in f.read ==> WrapFrom(t, w, Flat(t.frames))
    ensures ReadTrue(t)
  {
    forall i, w | 0 <= i < |t.frames| && w in t.frames[i].read ensures WrapFrom(t, w, Flat(t.frames[..i + 1])) {
      if i < |t.frames| - 1 {
        assert t.frames[..i + 1] == s.frames[..i + 1];
        assert WrapFrom(s, w, Flat(s.frames[..i + 1]));
        OriginMore(s, t, s.wrappers[w].name, s.wrappers[w].original, Flat(s.frames[..i + 1]), Flat(s.frames[..i + 1]));
      } else {
        assert t.frames[..i + 1] == t.frames;
      }
    }
  }

  /** A nested context starts with nothing of its own. */
  lemma NestInv(s: State, th: Thread)
    requires Inv(s) && s.holder == Some(th)
    ensures Inv(Step(s, Enter(th)))
  {
    hide Flat, Sound;
    var t := Step(s, Enter(th));
    var f := Frame({}, [], false, false);
    assert t.frames == s.frames + [f];
    FlatNested(s.frames, f);
    forall i, w | 0 <= i < |t.frames| && w in t.frames[i].read ensures WrapFrom(t, w, Flat(t.frames[..i + 1])) {
      assert t.frames[..i + 1] == s.frames[..i + 1];
      assert WrapFrom(s, w, Flat(s.frames[..i + 1]));
    }
    forall p | 0 <= p < |Flat(t.frames)| ensures WrapFrom(t, Flat(t.frames)[p], Flat(t.frames)[..p]) {
      assert WrapFrom(s, Flat(s.frames)[p], Flat(s.frames)[..p]);
    }
  }

  lemma FlatNested(frames: seq<Frame>, f: Frame)
    requires f.undo == []
    ensures Flat(frames + [f]) == Flat(frames)
  {
    assert (frames + [f])[..|frames|] == frames;
  }

  lemma EnterInv(s: State, th: Thread)
    requires Inv(s)
    ensures Inv(Step(s, Enter(th)))
  {
    if s.holder == Some(th) {
      NestInv(s, th);
    } else if s.holder == None {
      hide Sound;
      FlatNested([], Frame({}, [], false, false));
      assert [] + [Frame({}, [], false, false)] == [Frame({}, [], false, false)];
    }
  }

  lemma ReadInv(s: State, th: Thread, name: Name, kind: Kind)
    requires Inv(s) && Entering(s, th) && name in s.slots
    ensures Inv(Step(s, Read(th, name, kind)))
  {
    hide Flat;
    var t := Step(s, Read(th, name, kind));
    var f := Top(s).(read := Top(s).read + {|s.wrappers|});
    FlatTop(s);
    FlatWithTop(s, f);
    var live := Flat(s.frames);
    forall p | 0 <= p < |live| ensures WrapFrom(t, live[p], live[..p]) {
      assert WrapFrom(s, live[p], live[..p]);
      OriginMore(s, t, s.wrappers[live[p]].name, s.wrappers[live[p]].original, live[..p], live[..p]);
    }
    forall w | w in f.read ensures WrapFrom(t, w, live) {
      if w == |s.wrappers| {
        OriginMore(s, t, name, s.slots[name], live, live);
      } else {
        assert s.frames[..|s.frames| - 1 + 1] == s.frames;
        assert WrapFrom(s, w, live);
        OriginMore(s, t, s.wrappers[w].name, s.wrappers[w].original, live, live);
      }
    }
    ReadsBelowTop(s, t, f);
    forall n | n in t.slots ensures Origin(t, n, t.slots[n], live) {
      OriginMore(s, t, n, s.slots[n], live, live);
    }
  }

  lemma RegisterInv(s: State, th: Thread, w: nat)
    requires Inv(s) && Entering(s, th) && w in Top(s).read
    ensures Inv(Step(s, Register(th, w)))
  {
    hide Flat;
    var t := Step(s, Register(th, w));
    var f := Top(s).(read := Top(s).read - {w}, undo := Top(s).undo + [w]);
    FlatTop(s);
    FlatWithTop(s, f);
    var live := Flat(s.frames);
    var more := Flat(t.frames);
    assert more == live + [w];
    assert s.frames[..|s.frames| - 1 + 1] == s.frames;
    forall p | 0 <= p < |more| ensures WrapFrom(t, more[p], more[..p]) {
      if p < |live| {
        assert more[..p] == live[..p];
        assert WrapFrom(s, live[p], live[..p]);
      } else {
        assert more[..p] == live;
        assert WrapFrom(s, w, live);
      }
    }
    forall x | x in f.read ensures WrapFrom(t, x, more) {
      assert WrapFrom(s, x, live);
      OriginMore(s, t, s.wrappers[x].name, s.wrappers[x].original, live, more);
    }
    ReadsBelowTop(s, t, f);
    forall n | n in t.slots ensures Origin(t, n, t.slots[n], more) {
      OriginMore(s, t, n, s.slots[n], live, more);
    }
  }

  lemma InstallInv(s: State, th: Thread, w: nat)
    requires Inv(s) && Entering(s, th) && w in Top(s).undo && Made(s, w)
    ensures Inv(Step(s, Install(th, w)))
  {
    hide Flat;
    var t := Step(s, Install(th, w));
    FlatTop(s);
    KeepStack(s, t);
    KeepReads(s, t);
    forall n | n in t.slots ensures Origin(t, n, t.slots[n], Flat(t.frames)) {
      if n == s.wrappers[w].name {
        assert w in Flat(s.frames);
      } else {
        OriginMore(s, t, n, s.slots[n], Flat(s.frames), Flat(s.frames));
      }
    }
  }

  lemma ReplaceInv(s: State, name: Name, value: Fn)
    requires Inv(s) && name in s.slots && Exists(s, value)
    ensures Inv(Step(s, Replace(name, value)))
  {
    hide Flat;
    var t := Step(s, Replace(name, value));
    KeepStack(s, t);
    KeepReads(s, t);
    forall n | n in t.slots ensures Origin(t, n, t.slots[n], Flat(t.frames)) {
      if n != name {
        OriginMore(s, t, n, s.slots[n], Flat(s.frames), Flat(s.frames));
      }
    }
  }

  /** The top frame changes but not its restores. */
  lemma SameUndoInv(s: State, f: Frame)
    requires Inv(s) && s.frames != [] && f.undo == Top(s).undo && f.read <= Top(s).read
    ensures Inv(WithTop(s, f))
  {
    hide Flat;
    var t := WithTop(s, f);
    FlatTop(s);
    FlatWithTop(s, f);
    var live := Flat(s.frames);
    forall p | 0 <= p < |live| ensures WrapFrom(t, live[p], live[..p]) {
      assert WrapFrom(s, live[p], live[..p]);
    }
    assert s.frames[..|s.frames| - 1 + 1] == s.frames;
    forall x | x in f.read ensures WrapFrom(t, x, live) {
      assert WrapFrom(s, x, live);
    }
    ReadsBelowTop(s, t, f);
  }

  /** The last restore is done with: its name no longer holds its wrapper, or its restore put the
      original back, or was interrupted. */
  lemma PopInv(s: State, t: State)
    requires Inv(s) && s.frames != [] && Top(s).leaving && Top(s).undo != [] && Top(s).read == {} && Made(s, Next(s))
    requires t.frames == WithTop(s, Popped(Top(s))).frames && t.wrappers == s.wrappers && t.holder == s.holder
    requires t.base == s.base && t.foreign == s.foreign && s.skipped <= t.skipped && t.slots.Keys == s.slots.Keys
    requires var w := Next(s); var n := s.wrappers[w].name;
             && (forall m :: m in s.slots && m != n ==> t.slots[m] == s.slots[m])
             && (t.slots[n] == s.wrappers[w].original || (t.slots[n] == s.slots[n] && (s.slots[n] != Wrapper(w) || n in t.skipped)))
    ensures Inv(t)
  {
    hide Flat;
    var f := Popped(Top(s));
    FlatTop(s);
    FlatWithTop(s, f);
    var live, less := Flat(s.frames), Flat(t.frames);
    var w := Next(s);
    var n := s.wrappers[w].name;
    assert live == less + [w];
    forall p | 0 <= p < |less| ensures WrapFrom(t, less[p], less[..p]) {
      assert less[..p] == live[..p];
      assert WrapFrom(s, live[p], live[..p]);
      OriginMore(s, t, s.wrappers[less[p]].name, s.wrappers[less[p]].original, live[..p], less[..p]);
    }
    ReadsBelowTop(s, t, f);
    assert WrapFrom(s, live[|less|], live[..|less|]);
    assert live[..|less|] == less;
    assert Older(s.wrappers[w].original, w);
    forall m | m in t.slots ensures Origin(t, m, t.slots[m], less) && Exists(t, t.slots[m]) {
      if m == n && t.slots[n] == s.wrappers[w].original {
        OriginMore(s, t, n, s.wrappers[w].original, less, less);
      } else {
        assert Origin(s, m, s.slots[m], live);
        if IsLive(s, m, s.slots[m], live) {
          assert s.slots[m].id in less || s.slots[m].id == w;
        }
      }
    }
  }

  lemma ExitInv(s: State, th: Thread)
    requires Inv(s) && Acts(s, th) && Top(s).leaving && Top(s).undo == []
    ensures Inv(Step(s, Exit(th)))
  {
    hide Flat;
    var t := Step(s, Exit(th));
    FlatTop(s);
    assert Flat(t.frames) == Flat(s.frames);
    forall p | 0 <= p < |Flat(t.frames)| ensures WrapFrom(t, Flat(t.frames)[p], Flat(t.frames)[..p]) {
      assert WrapFrom(s, Flat(s.frames)[p], Flat(s.frames)[..p]);
    }
    KeepReads(s, t);
  }

  ghost predicate LeavingHasRead(s: State) {
    forall i :: 0 <= i < |s.frames| && s.frames[i].leaving ==> s.frames[i].read == {}
  }

  lemma StepInv(s: State, act: Act)
    requires Inv(s) && LeavingHasRead(s)
    ensures Inv(Step(s, act)) && LeavingHasRead(Step(s, act))
  {
    hide Inv;
    var t := Step(s, act);
    assert LeavingHasRead(t);
    if t != s {
      match act
      case Enter(th) => EnterInv(s, th);
      case Read(th, name, kind) => ReadInv(s, th, name, kind);
      case Register(th, w) => RegisterInv(s, th, w);
      case Install(th, w) => InstallInv(s, th, w);
      case BeginLeave(th) => SameUndoInv(s, Top(s).(read := {}, leaving := true));
      case Check(th) =>
        if s.slots[s.wrappers[Next(s)].name] == Wrapper(Next(s)) {
          SameUndoInv(s, Top(s).(armed := true));
        } else {
          PopInv(s, t);
        }
      case Put(th) => PopInv(s, t);
      case Interrupted(th) => PopInv(s, t);
      case Exit(th) => ExitInv(s, th);
      case Replace(name, value) => ReplaceInv(s, name, value);
    }
  }

  predicate AllOutside(slots: map<Name, Fn>) { forall n :: n in slots ==> slots[n].Outside? }

  lemma {:induction false} RunInv(slots: map<Name, Fn>, acts: seq<Act>)
    requires AllOutside(slots)
    ensures Inv(Run(Begin(slots), acts)) && LeavingHasRead(Run(Begin(slots), acts))
    decreases |acts|
  {
    hide Step;
    if acts != [] {
      RunInv(slots, acts[..|acts| - 1]);
      StepInv(Run(Begin(slots), acts[..|acts| - 1]), acts[|acts| - 1]);
    }
  }

  /** Patch stack safety: whenever the lock is free, every name holds its value from before the last
      session, or what other code put there since, unless the name's own restore was interrupted. */
  lemma FreeMeansRestored(slots: map<Name, Fn>, acts: seq<Act>, n: Name)
    requires AllOutside(slots) && Run(Begin(slots), acts).holder == None && n in Run(Begin(slots), acts).slots
    ensures var s := Run(Begin(slots), acts);
            n in s.base && (s.slots[n] == s.base[n] || (n, s.slots[n]) in s.foreign || n in s.skipped)
  {
    hide Run;
    RunInv(slots, acts);
  }
}
