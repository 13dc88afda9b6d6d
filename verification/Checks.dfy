/** What the checks at the end of a step say, and what the step makes of it: which predicate was asked, what
    it answered, which error ends the run and which errors are notes on it. */
module Checks {
  import opened Common
  import opened Agendas
  import opened LoopModel
  import opened LoopProperties

  // ---- one check ---------------------------------------------------------------------------------------------

  /** The next n answers are that it holds. */
  ghost predicate AllHold(script: Script, look: nat, n: nat) {
    forall j :: look <= j < look + n ==> script.looks(j) == Holds
  }

  /** What a predicate that does not hold makes the invariants check say. */
  predicate Fault(answer: Verdict, name: nat, said: Said) {
    match answer
    case Holds => false
    case Fails => said == Hard(CheckFailed(name))
    case Raises(k) => said == Hard(UserError(k))
    case Breaks(k) => said == Broke(Interrupt(k))
  }

  /** The first i predicates held and the next one did not. */
  ghost predicate FaultAt(s: RunState, script: Script, said: Said, t: RunState, i: nat) {
    && i < |s.preds| && AllHold(script, s.look, i) && Fault(script.looks(s.look + i), s.preds[i].name, said)
    && t.look == s.look + i + 1 && t.held == s.held + s.preds[..i]
  }

  /** The `always` predicates, asked one by one in the order of registration. */
  ghost predicate InvariantsSpeak(s: RunState, script: Script, said: Said, t: RunState) {
    || (said == Quiet && AllHold(script, s.look, |s.preds|) && t.look == s.look + |s.preds| && t.held == s.held + s.preds)
    || exists i: nat :: FaultAt(s, script, said, t, i)
  }

  /** One unanswered `run_until`: its predicate is asked once, and a predicate that raises is no failure of
      the run. */
  ghost predicate UntilSpeaks(s: RunState, script: Script, said: Said, t: RunState) {
    && t.look == s.look + 1 && t.held == s.held
    && match script.looks(s.look)
       case Raises(k) => said == Soft(UserError(k))
       case Breaks(k) => said == Broke(Interrupt(k))
       case _ => said == Quiet
  }

  ghost predicate Speaks(s: RunState, script: Script, h: Hook, said: Said, t: RunState) {
    && t.preds == s.preds && |t.untils| == |s.untils|
    && match h
       case Invariants => InvariantsSpeak(s, script, said, t) && t.untils == s.untils
       case Until(id) =>
         if id < |s.untils| && s.untils[id].answer.None? then UntilSpeaks(s, script, said, t)
         else said == Quiet && t == s
  }

  /** Asking predicate i: on to the next if it holds, otherwise the check is over. */
  lemma AskOne(s: RunState, script: Script, i: nat)
    requires i < |s.preds|
    ensures var (t, said) := CheckInvariants(s, script, i);
            if script.looks(s.look) == Holds then
              (t, said) == CheckInvariants(s.(look := s.look + 1, held := s.held + [s.preds[i]]), script, i + 1)
            else Fault(script.looks(s.look), s.preds[i].name, said) && t.look == s.look + 1 && t.held == s.held
  {
  }

  lemma AskNone(s: RunState, script: Script)
    ensures CheckInvariants(s, script, |s.preds|) == (s, Quiet)
  {
  }

  lemma {:induction false} InvariantsFrom(s: RunState, script: Script, i: nat) returns (j: nat)
    requires i <= |s.preds|
    ensures var (t, said) := CheckInvariants(s, script, i);
            && i <= j <= |s.preds| && AllHold(script, s.look, j - i) && t.held == s.held + s.preds[i..j]
            && (if j == |s.preds| then said == Quiet && t.look == s.look + (j - i)
                else Fault(script.looks(s.look + (j - i)), s.preds[j].name, said) && t.look == s.look + (j - i) + 1)
    decreases |s.preds| - i
  {
    hide CheckInvariants, Fault;
    j := i;
    if i == |s.preds| {
      AskNone(s, script);
    } else {
      AskOne(s, script, i);
      if script.looks(s.look) == Holds {
        j := InvariantsFrom(s.(look := s.look + 1, held := s.held + [s.preds[i]]), script, i + 1);
        OneMoreHeld(s.held, s.preds, i, j);
      }
    }
  }

  lemma OneMoreHeld(held: seq<Registered>, preds: seq<Registered>, i: nat, j: nat)
    requires i < j <= |preds|
    ensures held + [preds[i]] + preds[i + 1..j] == held + preds[i..j]
  {
  }

  lemma InvariantsSpeakSo(s: RunState, script: Script)
    ensures var (t, said) := CheckInvariants(s, script, 0); InvariantsSpeak(s, script, said, t)
  {
    hide CheckInvariants, AllHold;
    var j := InvariantsFrom(s, script, 0);
    var (t, said) := CheckInvariants(s, script, 0);
    assert s.preds[0..j] == s.preds[..j];
    if j < |s.preds| {
      assert FaultAt(s, script, said, t, j);
    }
  }

  lemma UntilSpeaksSo(s: RunState, script: Script, id: nat)
    requires id < |s.untils|
    ensures var (t, said) := CheckUntil(s, script, id);
            if s.untils[id].answer.None? then UntilSpeaks(s, script, said, t) else said == Quiet && t == s
  {
  }

  lemma HookSpeaks(s: RunState, script: Script, h: Hook)
    ensures var (t, said) := RunHook(s, script, h); Speaks(s, script, h, said, t)
  {
    hide CheckInvariants, CheckUntil, InvariantsSpeak;
    match h
    case Invariants => InvariantsSpeakSo(s, script);
    case Until(id) =>
      if id < |s.untils| {
        UntilSpeaksSo(s, script, id);
        if s.untils[id].answer.Some? {
          assert RunHook(s, script, h) == (s, Quiet);
        }
      }
  }

  // ---- a round of them ------------------------------------------------------------------------------------------

  /** Each check of the list in turn, from one state to the next, up to an interrupt if there is one. */
  ghost predicate Round(script: Script, hooks: seq<Hook>, states: seq<RunState>, says: seq<Said>) {
    && |states| == |says| + 1 && |says| <= |hooks|
    && (forall i :: 0 <= i < |says| ==> Speaks(states[i], script, hooks[i], says[i], states[i + 1]))
    && (forall i :: 0 <= i < |says| - 1 ==> !says[i].Broke?)
    && (|says| < |hooks| ==> says != [] && says[|says| - 1].Broke?)
  }

  lemma {:induction false} RoundOf(s: RunState, script: Script, hooks: seq<Hook>, first: Option<Error>, notes: seq<Error>) returns (states: seq<RunState>)
    ensures Round(script, hooks, states, Says(s, script, hooks))
    ensures states[0] == s && states[|states| - 1] == RunHooks(s, script, hooks, first, notes).s
    decreases |hooks|
  {
    hide RunHook, Speaks;
    states := [s];
    if hooks != [] {
      HookSpeaks(s, script, hooks[0]);
      var (t, said) := RunHook(s, script, hooks[0]);
      if said.Broke? {
        states := [s, t];
      } else {
        var rest := RoundOf(t, script, hooks[1..],
                            if said.Hard? && first.None? then Some(said.e) else first,
                            if said.Soft? || (said.Hard? && first.Some?) then notes + [said.e] else notes);
        states := [s] + rest;
        RoundCons(s, script, hooks, said, rest, Says(t, script, hooks[1..]));
      }
    }
  }

  lemma RoundCons(s: RunState, script: Script, hooks: seq<Hook>, said: Said, rest: seq<RunState>, says: seq<Said>)
    requires hooks != [] && Round(script, hooks[1..], rest, says) && Speaks(s, script, hooks[0], said, rest[0]) && !said.Broke?
    ensures Round(script, hooks, [s] + rest, [said] + says)
  {
    hide Speaks;
    var all, states := [said] + says, [s] + rest;
    forall i | 0 <= i < |all| ensures Speaks(states[i], script, hooks[i], all[i], states[i + 1]) {
      if i > 0 {
        assert Speaks(rest[i - 1], script, hooks[1..][i - 1], says[i - 1], rest[i]);
      }
    }
  }

  /** What a step makes of what its checks said: an interrupt is raised alone; otherwise the first failure is
      raised, and every other error of the round is a note on it, in order; otherwise the step is fine. */
  ghost predicate Judged(says: seq<Said>, r: StepResult) {
    if says != [] && says[|says| - 1].Broke? then r == Raised(says[|says| - 1].e, [])
    else
      && (NoHard(says) ==> r == Normal)
      && forall i: nat :: FirstHard(says, i) ==> r == Raised(says[i].e, Errors(says[..i]) + Errors(says[i + 1..]))
  }

  /** The end of a step: a round of all its checks, and the result they call for; the step is logged with
      the predicates that answered that they hold in this round. */
  lemma EndStepJudged(s: RunState, script: Script) returns (states: seq<RunState>, says: seq<Said>)
    ensures Round(script, s.hooks, states, says) && states[0] == s.(held := [])
    ensures var (t, r) := EndStep(s, script);
            Judged(says, r) && (r.Normal? ==> t.log != [] && t.log[|t.log| - 1].held == states[|states| - 1].held)
  {
    hide RunHooks, Says, Round, Judged, EndStep;
    var s0 := s.(held := []);
    says := Says(s0, script, s.hooks);
    states := RoundOf(s0, script, s.hooks, None, []);
    PassJudged(s0, script, s.hooks);
    LoggedHeld(s, script);
  }

  lemma PassJudged(s: RunState, script: Script, hooks: seq<Hook>)
    ensures Judged(Says(s, script, hooks), Concluded(RunHooks(s, script, hooks, None, [])))
  {
    hide RunHooks, Says, Errors, NoHard;
    HooksRound(s, script, hooks);
    BrokeLast(s, script, hooks);
    var says := Says(s, script, hooks);
    var p := RunHooks(s, script, hooks, None, []);
    if p.broke.None? {
      forall i: nat | FirstHard(says, i)
        ensures Concluded(p) == Raised(says[i].e, Errors(says[..i]) + Errors(says[i + 1..]))
      {
        assert p.first == Some(says[i].e) && p.notes == Errors(says[..i]) + Errors(says[i + 1..]);
      }
    }
  }

  lemma LoggedHeld(s: RunState, script: Script)
    ensures var (t, r) := EndStep(s, script);
            && r == Concluded(RunHooks(s.(held := []), script, s.hooks, None, []))
            && (r.Normal? ==> t.log != [] && t.log[|t.log| - 1].held == RunHooks(s.(held := []), script, s.hooks, None, []).s.held)
  {
    hide RunHooks;
  }

  /** A round whose last word is an interrupt was broken by it. */
  lemma BrokeLast(s: RunState, script: Script, hooks: seq<Hook>)
    ensures var says := Says(s, script, hooks);
            (says != [] && says[|says| - 1].Broke?) <==> RunHooks(s, script, hooks, None, []).broke.Some?
  {
    BrokeLastFrom(s, script, hooks, None, []);
  }

  lemma {:induction false} BrokeLastFrom(s: RunState, script: Script, hooks: seq<Hook>, first: Option<Error>, notes: seq<Error>)
    ensures var says := Says(s, script, hooks);
            (says != [] && says[|says| - 1].Broke?) <==> RunHooks(s, script, hooks, first, notes).broke.Some?
    decreases |hooks|
  {
    hide RunHook;
    if hooks != [] {
      var (t, said) := RunHook(s, script, hooks[0]);
      if !said.Broke? {
        BrokeLastFrom(t, script, hooks[1..],
                      if said.Hard? && first.None? then Some(said.e) else first,
                      if said.Soft? || (said.Hard? && first.Some?) then notes + [said.e] else notes);
      }
    }
  }

  /** Why a step raises: its budget is spent, it can go nowhere, an interrupt escaped a callback, or its
      checks call for it. */
  lemma StepJudged(s: RunState, script: Script) returns (c: RunState, states: seq<RunState>, says: seq<Said>)
    ensures var (t, r) := Step(s, script);
            if s.stepsLeft == Some(0) then r == Raised(s.stepError, [])
            else if Idle(s) && !CanJump(s.agenda) && !s.stopping then r == Raised(Deadlock, [])
            else
              var (b, q) := RunBatch(Advance(Budgeted(s)).0, script, |Advance(Budgeted(s)).0.agenda.ready|);
              && c == b
              && (q.Raised? ==> r == q)
              && (q.Normal? ==> Round(script, c.hooks, states, says) && states[0] == c.(held := []) && Judged(says, r)
                                && (r.Normal? ==> t.log != [] && t.log[|t.log| - 1].held == states[|states| - 1].held))
  {
    hide RunBatch, EndStep, Round, Judged, FireDue, Jump;
    var a := Advance(Budgeted(s)).0;
    c := RunBatch(a, script, |a.agenda.ready|).0;
    states, says := EndStepJudged(c, script);
  }

  // ---- one invariants check however many predicates ----------------------------------------------------------------

  ghost function Count(hooks: seq<Hook>, h: Hook): nat {
    if hooks == [] then 0 else Count(hooks[..|hooks| - 1], h) + if hooks[|hooks| - 1] == h then 1 else 0
  }

  /** The invariants check is listed at most once, and not before a predicate is registered. */
  ghost predicate OneCheck(s: RunState) {
    Count(s.hooks, Invariants) <= if s.installed then 1 else 0
  }

  /** From s to t the check is listed no more often, unless it was just installed. */
  ghost predicate NoSecond(s: RunState, t: RunState) {
    OneCheck(s) ==> OneCheck(t)
  }

  lemma CountSame(s: RunState, t: RunState)
    requires t.hooks == s.hooks && t.installed == s.installed
    ensures NoSecond(s, t)
  {
  }

  lemma {:induction false} CountRemoved(hooks: seq<Hook>, h: Hook, x: Hook)
    requires h != x
    ensures Count(Removed(hooks, h), x) == Count(hooks, x)
  {
    if hooks != [] {
      CountHead(hooks, x);
      if hooks[0] != h {
        CountRemoved(hooks[1..], h, x);
        CountHead(Removed(hooks, h), x);
        assert Removed(hooks, h)[1..] == Removed(hooks[1..], h);
      }
    }
  }

  lemma {:induction false} CountHead(hooks: seq<Hook>, x: Hook)
    requires hooks != []
    ensures Count(hooks, x) == Count(hooks[1..], x) + if hooks[0] == x then 1 else 0
  {
    if |hooks| > 1 {
      var front := hooks[..|hooks| - 1];
      CountHead(front, x);
      assert front[1..] == hooks[1..][..|hooks| - 2];
    }
  }

  lemma CountMore(hooks: seq<Hook>, h: Hook, x: Hook)
    ensures Count(hooks + [h], x) == Count(hooks, x) + if h == x then 1 else 0
  {
    assert (hooks + [h])[..|hooks|] == hooks;
  }

  lemma EndUntilOnce(s: RunState)
    ensures NoSecond(s, EndUntil(s))
  {
    hide Removed, DoCancel, Count;
    if s.untilActive && s.untils != [] {
      CountRemoved(s.hooks, Until(|s.untils| - 1), Invariants);
      EndUntilHooks(s);
    }
  }

  lemma EndUntilHooks(s: RunState)
    requires s.untilActive && s.untils != []
    ensures EndUntil(s).hooks == Removed(s.hooks, Until(|s.untils| - 1)) && EndUntil(s).installed == s.installed
  {
    hide Removed, Without;
  }

  lemma BeginUntilOnce(s: RunState, script: Script, deadline: Option<Num>)
    ensures NoSecond(s, BeginUntil(s, script, deadline))
  {
    hide CheckUntil, EndUntil, Count, DoCallAt;
    if !(s.untilActive || (deadline.Some? && !deadline.value.Real?)) {
      CountMore(s.hooks, Until(|s.untils|), Invariants);
      var t := EnterUntil(s, if deadline.Some? then Some(deadline.value.r) else None);
      EndUntilOnce(CheckUntil(t, script, |s.untils|).0);
    }
  }

  lemma PerformOnce(s: RunState, script: Script, op: Op)
    ensures NoSecond(s, Perform(s, script, op))
  {
    hide BeginUntil, EndUntil, Internal, Insert, Without, ToDeadline, After, Count;
    match op
    case OpBeginUntil(deadline) => BeginUntilOnce(s, script, deadline);
    case OpEndUntil => EndUntilOnce(s);
    case OpAlways(_) => CountMore(s.hooks, Invariants, Invariants);
    case _ => CountSame(s, Perform(s, script, op));
  }

  lemma {:induction false} PerformAllOnce(s: RunState, script: Script, ops: seq<Op>)
    ensures NoSecond(s, PerformAll(s, script, ops))
    decreases |ops|
  {
    hide Perform, OneCheck;
    if ops != [] {
      PerformOnce(s, script, ops[0]);
      PerformAllOnce(Perform(s, script, ops[0]), script, ops[1..]);
    }
  }

  lemma {:induction false} BatchOnce(s: RunState, script: Script, n: nat)
    ensures NoSecond(s, RunBatch(s, script, n).0)
    decreases n
  {
    hide PerformAll, Take, OneCheck;
    if n > 0 && s.agenda.ready != [] {
      var t := s.(agenda := Take(s.agenda, true), turn := s.turn + 1);
      CountSame(s, t);
      CountSame(s, s.(agenda := Take(s.agenda, false)));
      PerformAllOnce(t, script, script.turns(s.turn).ops);
      BatchOnce(RunEntry(s, script).0, script, n - 1);
    }
  }

  lemma EndStepOnce(s: RunState, script: Script)
    ensures NoSecond(s, EndStep(s, script).0)
  {
    hide RunHooks;
  }

  lemma StepOnce(s: RunState, script: Script)
    ensures NoSecond(s, Step(s, script).0)
  {
    hide RunBatch, EndStep, FireDue, Jump, CanJump, Idle, OneCheck;
    if s.stepsLeft != Some(0) {
      var a := Advance(Budgeted(s)).0;
      CountSame(s, a);
      BatchOnce(a, script, |a.agenda.ready|);
      EndStepOnce(RunBatch(a, script, |a.agenda.ready|).0, script);
    }
  }

  /** Over any run of any program: however many predicates are registered, a round asks each of them once. */
  lemma {:induction false} ListedOnce(s: RunState, script: Script, fuel: nat)
    requires OneCheck(s)
    ensures OneCheck(RunForever(s, script, fuel).0)
    decreases fuel
  {
    hide Step, OneCheck;
    if fuel > 0 {
      StepOnce(s, script);
      var t := Step(s, script).0;
      CountSame(t, t.(stopping := false));
      ListedOnce(t, script, fuel - 1);
    }
  }

  lemma NewOnce()
    ensures OneCheck(NewRun)
  {
  }
}
