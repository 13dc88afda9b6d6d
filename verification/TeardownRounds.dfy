/** What teardown does, round by round (`World._cancel_everything`), as a relation on the states between
    the rounds: whom a round cancels and in which order, what that puts on the ready queue, the passes of
    the loop that follow, and the error that ends it. */
module TeardownRounds {
  import opened Common
  import opened Agendas
  import opened LoopModel
  import opened Teardown

  // ---- whom a round cancels ---------------------------------------------------------------------------------

  /** These are the tasks not done yet, each once, in creation order. */
  ghost predicate Unfinished(s: RunState, tasks: seq<nat>) {
    && (forall k: nat :: k in tasks <==> k < s.nextTask && Task(k) !in s.results)
    && forall i, j :: 0 <= i < j < |tasks| ==> tasks[i] < tasks[j]
  }

  lemma {:induction false} PendingInOrder(s: RunState, n: nat)
    requires n <= s.nextTask
    ensures forall i, j :: 0 <= i < j < |PendingFrom(s, n)| ==> PendingFrom(s, n)[i] < PendingFrom(s, n)[j]
    decreases s.nextTask - n
  {
    if n < s.nextTask {
      PendingInOrder(s, n + 1);
      PendingIsUndone(s, n + 1);
      var rest := PendingFrom(s, n + 1);
      assert forall j :: 0 <= j < |rest| ==> rest[j] in rest;
    }
  }

  lemma PendingIsUnfinished(s: RunState)
    ensures Unfinished(s, Teardown.Pending(s))
  {
    hide PendingFrom;
    PendingIsUndone(s, 0);
    PendingInOrder(s, 0);
  }

  // ---- what cancelling them does -----------------------------------------------------------------------------

  /** How many of them were waiting, and so are woken. */
  function Woken(wakes: Wakes, round: nat, tasks: seq<nat>): nat {
    if tasks == [] then 0 else Woken(wakes, round, tasks[1..]) + if wakes(round, tasks[0]) then 1 else 0
  }

  /** The callbacks that wake n tasks. */
  function Calls(from: Handle, n: nat): (r: seq<Entry<Handle>>) {
    seq(n, i requires 0 <= i < n => Soon(from + i))
  }

  /** The round starts from c: a callback for every woken task stands behind what was ready before, the
      round has its own allowance of steps, and nothing else has changed. */
  ghost predicate Begins(s: RunState, c: RunState, wakes: Wakes, round: nat, tasks: seq<nat>) {
    var n := Woken(wakes, round, tasks);
    c == s.(agenda := s.agenda.(ready := s.agenda.ready + Calls(s.nextHandle, n)), nextHandle := s.nextHandle + n,
            stepsLeft := Some(100_000 + 100 * |tasks|), stepError := TeardownFailed)
  }

  lemma {:induction false} CancelAllWakes(s: RunState, wakes: Wakes, round: nat, tasks: seq<nat>)
    ensures var t := CancelAll(s, wakes, round, tasks);
            var n := Woken(wakes, round, tasks);
            t.agenda.ready == s.agenda.ready + Calls(s.nextHandle, n) && t.nextHandle == s.nextHandle + n
    decreases |tasks|
  {
    if tasks != [] {
      var u := if wakes(round, tasks[0]) then DoCallSoon(s) else s;
      CancelAllWakes(u, wakes, round, tasks[1..]);
      if wakes(round, tasks[0]) {
        var n := Woken(wakes, round, tasks[1..]);
        assert [Soon(s.nextHandle)] + Calls(s.nextHandle + 1, n) == Calls(s.nextHandle, n + 1);
      }
    }
  }

  // ---- the passes of a round ----------------------------------------------------------------------------------

  /** One pass ends normally without the future done: user code stopped it, and another follows. */
  ghost predicate StoppedPass(script: Script, f: Future, s: RunState, t: RunState) {
    s.stepsLeft.Some? && f !in t.results && RunForever(s, script, s.stepsLeft.value + 1) == (t, Returned)
  }

  /** How the last pass ends the round: nothing to do, an error that escaped it, or the future's outcome. */
  ghost predicate LastPass(script: Script, f: Future, s: RunState, t: RunState, e: Option<Error>) {
    if f in s.results then t == s && e.None?
    else
      && s.stepsLeft.Some?
      && var (u, end) := RunForever(s, script, s.stepsLeft.value + 1);
      && t == u
      && match end
         case Threw(error, _) => e == Some(error)
         case StillRunning => false
         case Returned =>
           && f in t.results
           && match t.results[f]
              case Finished => e == None
              case Failed(error) => e == Some(error)
              case Cancelled => e == Some(CancelledError)
  }

  /** Passes from the first of these states on, each stopped early by user code but the last. */
  ghost predicate Passes(script: Script, f: Future, states: seq<RunState>, t: RunState, e: Option<Error>) {
    && states != []
    && (forall i :: 0 <= i < |states| - 1 ==> f !in states[i].results && StoppedPass(script, f, states[i], states[i + 1]))
    && LastPass(script, f, states[|states| - 1], t, e)
  }

  /** A round is passes of the loop until its future is done or one raises. */
  lemma {:induction false} GroupPasses(s: RunState, script: Script, f: Future) returns (states: seq<RunState>)
    requires s.stepsLeft.Some?
    ensures var (t, e) := RunGroup(s, script, f); states != [] && states[0] == s && Passes(script, f, states, t, e)
    decreases s.stepsLeft.value
  {
    hide RunForever;
    states := [s];
    if f !in s.results {
      BudgetBounds(s, script, s.stepsLeft.value + 1);
      var (t, end) := RunForever(s, script, s.stepsLeft.value + 1);
      if !end.Threw? && f !in t.results {
        var rest := GroupPasses(t, script, f);
        assert StoppedPass(script, f, s, t);
        states := [s] + rest;
      }
    }
  }

  // ---- the rounds ----------------------------------------------------------------------------------------------

  /** One round: whom it cancels, the state it starts from, and its passes. */
  datatype Cancelling = Cancelling(tasks: seq<nat>, passes: seq<RunState>)

  /** Round `round` takes s to t, raising e if anything. */
  ghost predicate Goes(s: RunState, script: Script, wakes: Wakes, round: nat, how: Cancelling, t: RunState, e: Option<Error>) {
    && how.tasks != [] && Unfinished(s, how.tasks)
    && Passes(script, Group(round), how.passes, t, e)
    && Begins(s, how.passes[0], wakes, round, how.tasks)
  }

  lemma RoundGoes(s: RunState, script: Script, wakes: Wakes, round: nat) returns (how: Cancelling)
    requires Teardown.Pending(s) != []
    ensures var (t, e) := RunGroup(RoundStart(s, wakes, round), script, Group(round)); Goes(s, script, wakes, round, how, t, e)
  {
    hide RunForever, PendingFrom, CancelAll;
    PendingIsUnfinished(s);
    CancelAllWakes(s, wakes, round, Teardown.Pending(s));
    var passes := GroupPasses(RoundStart(s, wakes, round), script, Group(round));
    how := Cancelling(Teardown.Pending(s), passes);
  }

  /** Teardown from round `round` on: rounds that end well, and then either nothing is left, or a round
      raises, or the hundredth has ended and teardown gives up without another look. */
  ghost predicate TearsDown(script: Script, wakes: Wakes, round: nat, states: seq<RunState>, hows: seq<Cancelling>, t: RunState, e: Option<Error>) {
    && states != [] && |hows| <= |states| <= |hows| + 1
    && (forall i :: 0 <= i < |states| - 1 ==> Goes(states[i], script, wakes, round + i, hows[i], states[i + 1], None))
    && var last := |states| - 1;
    && if |hows| == |states| then e.Some? && round + last < 100 && Goes(states[last], script, wakes, round + last, hows[last], t, e)
       else
         && t == states[last] && round + last <= 100
         && (round + last == 100 ==> e == Some(TeardownFailed))
         && (round + last < 100 ==> e == None && Unfinished(t, []))
  }

  lemma {:induction false} TeardownIs(s: RunState, script: Script, wakes: Wakes, round: nat) returns (states: seq<RunState>, hows: seq<Cancelling>)
    requires round <= ROUNDS
    ensures var (t, e) := CancelEverything(s, script, wakes, round);
            states != [] && states[0] == s && TearsDown(script, wakes, round, states, hows, t, e)
    decreases ROUNDS - round
  {
    hide RunGroup, RoundStart, PendingFrom, Goes;
    states, hows := [s], [];
    if round < ROUNDS {
      if Teardown.Pending(s) == [] {
        PendingIsUnfinished(s);
      } else {
        var how := RoundGoes(s, script, wakes, round);
        var (t, e) := RunGroup(RoundStart(s, wakes, round), script, Group(round));
        hows := [how];
        if e.None? {
          var later, rest := TeardownIs(t, script, wakes, round + 1);
          TearsDownCons(s, script, wakes, round, how, later, rest, CancelEverything(t, script, wakes, round + 1));
          states, hows := [s] + later, [how] + rest;
        }
      }
    }
  }

  lemma TearsDownCons(s: RunState, script: Script, wakes: Wakes, round: nat, how: Cancelling, later: seq<RunState>, rest: seq<Cancelling>,
                      end: (RunState, Option<Error>))
    requires TearsDown(script, wakes, round + 1, later, rest, end.0, end.1)
    requires Goes(s, script, wakes, round, how, later[0], None)
    ensures TearsDown(script, wakes, round, [s] + later, [how] + rest, end.0, end.1)
  {
    hide Goes;
    var states, hows := [s] + later, [how] + rest;
    forall i | 0 <= i < |states| - 1
      ensures Goes(states[i], script, wakes, round + i, hows[i], states[i + 1], None)
    {
      if i > 0 {
        assert Goes(later[i - 1], script, wakes, round + 1 + (i - 1), rest[i - 1], later[i], None);
      }
    }
  }
}
