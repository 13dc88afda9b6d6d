/** Where results and tasks come from: a future has the outcome that some callback gave it, the first one to,
    and the tasks are those that callbacks created, in that order. */
module Futures {
  import opened Common
  import opened Agendas
  import opened LoopModel

  /** One of these operations gives the future this outcome. */
  ghost predicate Gives(ops: seq<Op>, f: Future, outcome: Outcome) {
    OpFinish(f, outcome) in ops
  }

  /** From s to t results only come, each by an operation of a callback run in between. */
  ghost predicate Given(s: RunState, t: RunState, script: Script) {
    && s.turn <= t.turn
    && (forall f :: f in s.results ==> f in t.results && t.results[f] == s.results[f])
    && forall f :: f in t.results && f !in s.results ==> GivenBy(s.turn, t.turn, script, f, t.results[f])
  }

  ghost predicate GivenBy(from: nat, to: nat, script: Script, f: Future, outcome: Outcome) {
    exists k :: from <= k < to && Gives(script.turns(k).ops, f, outcome)
  }

  lemma GivenChain(s: RunState, t: RunState, u: RunState, script: Script)
    requires Given(s, t, script) && Given(t, u, script)
    ensures Given(s, u, script)
  {
    hide Gives;
    forall f | f in u.results && f !in s.results ensures GivenBy(s.turn, u.turn, script, f, u.results[f]) {
      var k :| s.turn <= k < u.turn && Gives(script.turns(k).ops, f, u.results[f]) by {
        if f in t.results {
          assert GivenBy(s.turn, t.turn, script, f, t.results[f]);
        } else {
          assert GivenBy(t.turn, u.turn, script, f, u.results[f]);
        }
      }
    }
  }

  lemma SameGiven(s: RunState, t: RunState, script: Script)
    requires t.results == s.results && t.turn == s.turn
    ensures Given(s, t, script)
  {
  }

  lemma BeginUntilGives(s: RunState, script: Script, deadline: Option<Num>)
    ensures var t := BeginUntil(s, script, deadline); t.results == s.results && t.turn == s.turn
  {
    hide CheckUntil, Removed, Insert, Without;
  }

  /** One operation: a result the future did not have is the one the operation names. */
  lemma PerformGives(s: RunState, script: Script, op: Op)
    ensures var t := Perform(s, script, op);
            && t.turn == s.turn && (forall f :: f in s.results ==> f in t.results && t.results[f] == s.results[f])
            && forall f :: f in t.results && f !in s.results ==> op == OpFinish(f, t.results[f])
  {
    hide BeginUntil, EndUntil, CancelUntil, DoAlways, DoSpawn, DoCallAt, DoCallSoon, DoCancel, Internal;
    if op.OpBeginUntil? {
      BeginUntilGives(s, script, op.deadline);
    } else if !op.OpFinish? {
      OtherGives(s, script, op);
    }
  }

  lemma CallsGive(s: RunState, when: Num, node: bool, name: nat)
    ensures DoCallAt(s, when).results == s.results && DoCallAt(s, when).turn == s.turn
    ensures DoSpawn(s, node).results == s.results && DoSpawn(s, node).turn == s.turn
    ensures DoAlways(s, name).results == s.results && DoAlways(s, name).turn == s.turn
  {
    hide Insert;
  }

  lemma CancelUntilGives(s: RunState)
    ensures CancelUntil(s).results == s.results && CancelUntil(s).turn == s.turn
  {
  }

  lemma OtherGives(s: RunState, script: Script, op: Op)
    requires !op.OpFinish? && !op.OpBeginUntil?
    ensures Perform(s, script, op).results == s.results && Perform(s, script, op).turn == s.turn
  {
    hide BeginUntil, EndUntil, CancelUntil, DoAlways, DoSpawn, DoCallAt, Without, Internal;
    match op
    case OpCallAt(when) => CallsGive(s, when, false, 0);
    case OpCallLater(delay) => CallsGive(s, After(s.agenda.now, delay), false, 0);
    case OpSpawn(node) => CallsGive(s, NaN, node, 0);
    case OpAlways(name) => CallsGive(s, NaN, false, name);
    case OpCancelUntil => CancelUntilGives(s);
    case _ =>
  }

  lemma {:induction false} PerformAllGives(s: RunState, script: Script, ops: seq<Op>)
    ensures var t := PerformAll(s, script, ops);
            && t.turn == s.turn && (forall f :: f in s.results ==> f in t.results && t.results[f] == s.results[f])
            && forall f :: f in t.results && f !in s.results ==> Gives(ops, f, t.results[f])
    decreases |ops|
  {
    hide Perform;
    if ops != [] {
      var u, t := Perform(s, script, ops[0]), PerformAll(s, script, ops);
      PerformGives(s, script, ops[0]);
      PerformAllGives(u, script, ops[1..]);
      forall f | f in t.results && f !in s.results ensures Gives(ops, f, t.results[f]) {
        assert f !in u.results ==> OpFinish(f, t.results[f]) in ops[1..];
      }
    }
  }

  lemma EntryGives(s: RunState, script: Script)
    requires s.agenda.ready != []
    ensures Given(s, RunEntry(s, script).0, script)
  {
    hide PerformAll, Take, Gives;
    var t := RunEntry(s, script).0;
    PerformAllGives(s.(agenda := Take(s.agenda, true), turn := s.turn + 1), script, script.turns(s.turn).ops);
    forall f | f in t.results && f !in s.results ensures GivenBy(s.turn, t.turn, script, f, t.results[f]) {
      assert Gives(script.turns(s.turn).ops, f, t.results[f]);
    }
  }

  lemma {:induction false} BatchGives(s: RunState, script: Script, n: nat)
    ensures Given(s, RunBatch(s, script, n).0, script)
    decreases n
  {
    hide RunEntry, Given;
    if n > 0 && s.agenda.ready != [] {
      EntryGives(s, script);
      var (t, r) := RunEntry(s, script);
      if r.Normal? {
        BatchGives(t, script, n - 1);
        GivenChain(s, t, RunBatch(t, script, n - 1).0, script);
      }
    } else {
      SameGiven(s, s, script);
    }
  }

  lemma EndStepGives(s: RunState, script: Script)
    ensures Given(s, EndStep(s, script).0, script)
  {
    hide RunHooks, Given;
    SameGiven(s, EndStep(s, script).0, script);
  }

  lemma StepGives(s: RunState, script: Script)
    ensures Given(s, Step(s, script).0, script)
  {
    hide RunBatch, EndStep, FireDue, Jump, CanJump, Idle, Given;
    if s.stepsLeft == Some(0) {
      SameGiven(s, s, script);
    } else {
      var a := Advance(Budgeted(s)).0;
      SameGiven(s, a, script);
      BatchGives(a, script, |a.agenda.ready|);
      var b := RunBatch(a, script, |a.agenda.ready|).0;
      EndStepGives(b, script);
      GivenChain(a, b, EndStep(b, script).0, script);
      GivenChain(s, a, b, script);
      GivenChain(s, a, EndStep(b, script).0, script);
    }
  }

  /** Over any run of the loop, however it ends: a result once there stays, and every new one is the outcome
      that an operation of a callback run meanwhile gave that very future. */
  lemma {:induction false} ResultsAreGiven(s: RunState, script: Script, fuel: nat)
    ensures Given(s, RunForever(s, script, fuel).0, script)
    decreases fuel
  {
    hide Step, Given;
    if fuel == 0 {
      SameGiven(s, s, script);
    } else {
      var (t, r) := Step(s, script);
      StepGives(s, script);
      SameGiven(t, t.(stopping := false), script);
      GivenChain(s, t, t.(stopping := false), script);
      if r.Normal? && !t.stopping {
        ResultsAreGiven(t, script, fuel - 1);
        GivenChain(s, t, RunForever(t, script, fuel - 1).0, script);
      }
    }
  }

  // ---- tasks ---------------------------------------------------------------------------------------------------

  /** How many tasks there are, and which of them are started nodes, after these operations: a task's number
      is how many were created before it. */
  function Tasks(ops: seq<Op>, n: nat, started: seq<nat>): (nat, seq<nat>) {
    if ops == [] then (n, started)
    else if ops[0].OpSpawn? then Tasks(ops[1..], n + 1, if ops[0].node then started + [n] else started)
    else Tasks(ops[1..], n, started)
  }

  /** ... after the callbacks from one turn of the program to another. */
  function TasksOver(script: Script, from: nat, to: nat, n: nat, started: seq<nat>): (nat, seq<nat>)
    decreases to - from
  {
    if from >= to then (n, started)
    else
      var (m, more) := Tasks(script.turns(from).ops, n, started);
      TasksOver(script, from + 1, to, m, more)
  }

  ghost predicate Spawned(s: RunState, t: RunState, script: Script) {
    s.turn <= t.turn && (t.nextTask, t.started) == TasksOver(script, s.turn, t.turn, s.nextTask, s.started)
  }

  lemma {:induction false} OverBoth(script: Script, a: nat, b: nat, c: nat, n: nat, started: seq<nat>)
    requires a <= b <= c
    ensures var (m, more) := TasksOver(script, a, b, n, started); TasksOver(script, a, c, n, started) == TasksOver(script, b, c, m, more)
    decreases b - a
  {
    if a < b {
      var (m, more) := Tasks(script.turns(a).ops, n, started);
      OverBoth(script, a + 1, b, c, m, more);
    }
  }

  lemma SpawnedChain(s: RunState, t: RunState, u: RunState, script: Script)
    requires Spawned(s, t, script) && Spawned(t, u, script)
    ensures Spawned(s, u, script)
  {
    OverBoth(script, s.turn, t.turn, u.turn, s.nextTask, s.started);
  }

  lemma SameSpawned(s: RunState, t: RunState, script: Script)
    requires t.turn == s.turn && t.nextTask == s.nextTask && t.started == s.started
    ensures Spawned(s, t, script)
  {
  }

  lemma PerformSpawns(s: RunState, script: Script, op: Op)
    ensures var t := Perform(s, script, op);
            if op.OpSpawn? then t.nextTask == s.nextTask + 1 && t.started == s.started + if op.node then [s.nextTask] else []
            else t.nextTask == s.nextTask && t.started == s.started
  {
    hide BeginUntil, EndUntil, CancelUntil, DoAlways, DoFinish, DoCallAt, DoCancel, Internal;
    if op.OpBeginUntil? {
      BeginUntilSpawns(s, script, op.deadline);
    } else if !op.OpSpawn? {
      OtherSpawns(s, script, op);
    }
  }

  lemma BeginUntilSpawns(s: RunState, script: Script, deadline: Option<Num>)
    ensures var t := BeginUntil(s, script, deadline); t.nextTask == s.nextTask && t.started == s.started
  {
    hide CheckUntil, Removed, Insert, Without;
  }

  lemma CallsSpawnNone(s: RunState, when: Num, name: nat)
    ensures DoCallAt(s, when).nextTask == s.nextTask && DoCallAt(s, when).started == s.started
    ensures DoAlways(s, name).nextTask == s.nextTask && DoAlways(s, name).started == s.started
    ensures CancelUntil(s).nextTask == s.nextTask && CancelUntil(s).started == s.started
  {
    hide Insert;
  }

  lemma OtherSpawns(s: RunState, script: Script, op: Op)
    requires !op.OpSpawn? && !op.OpBeginUntil?
    ensures Perform(s, script, op).nextTask == s.nextTask && Perform(s, script, op).started == s.started
  {
    hide BeginUntil, EndUntil, CancelUntil, DoAlways, DoCallAt, Without, Internal;
    match op
    case OpCallAt(when) => CallsSpawnNone(s, when, 0);
    case OpCallLater(delay) => CallsSpawnNone(s, After(s.agenda.now, delay), 0);
    case OpAlways(name) => CallsSpawnNone(s, NaN, name);
    case OpCancelUntil => CallsSpawnNone(s, NaN, 0);
    case _ =>
  }

  lemma TasksOne(ops: seq<Op>, n: nat, started: seq<nat>)
    requires ops != []
    ensures Tasks(ops, n, started) ==
            if ops[0].OpSpawn? then Tasks(ops[1..], n + 1, if ops[0].node then started + [n] else started) else Tasks(ops[1..], n, started)
  {
  }

  lemma {:induction false} PerformAllSpawns(s: RunState, script: Script, ops: seq<Op>)
    ensures var t := PerformAll(s, script, ops); (t.nextTask, t.started) == Tasks(ops, s.nextTask, s.started)
    decreases |ops|
  {
    hide Perform;
    if ops != [] {
      var t := Perform(s, script, ops[0]);
      PerformSpawns(s, script, ops[0]);
      PerformAllSpawns(t, script, ops[1..]);
      assert s.started + [] == s.started;
      TasksOne(ops, s.nextTask, s.started);
      assert Tasks(ops, s.nextTask, s.started) == Tasks(ops[1..], t.nextTask, t.started);
    }
  }

  lemma EntrySpawns(s: RunState, script: Script)
    requires s.agenda.ready != []
    ensures Spawned(s, RunEntry(s, script).0, script)
  {
    hide PerformAll, Take, Tasks;
    PerformAllGives(s.(agenda := Take(s.agenda, true), turn := s.turn + 1), script, script.turns(s.turn).ops);
    PerformAllSpawns(s.(agenda := Take(s.agenda, true), turn := s.turn + 1), script, script.turns(s.turn).ops);
    OneTurn(script, s.turn, s.nextTask, s.started);
  }

  lemma OneTurn(script: Script, k: nat, n: nat, started: seq<nat>)
    ensures TasksOver(script, k, k + 1, n, started) == Tasks(script.turns(k).ops, n, started)
  {
  }

  lemma {:induction false} BatchSpawns(s: RunState, script: Script, n: nat)
    ensures Spawned(s, RunBatch(s, script, n).0, script)
    decreases n
  {
    hide RunEntry, Spawned;
    if n > 0 && s.agenda.ready != [] {
      EntrySpawns(s, script);
      var (t, r) := RunEntry(s, script);
      if r.Normal? {
        BatchSpawns(t, script, n - 1);
        SpawnedChain(s, t, RunBatch(t, script, n - 1).0, script);
      }
    } else {
      SameSpawned(s, s, script);
    }
  }

  lemma EndStepSpawns(s: RunState, script: Script)
    ensures Spawned(s, EndStep(s, script).0, script)
  {
    hide RunHooks, Spawned;
    SameSpawned(s, EndStep(s, script).0, script);
  }

  lemma StepSpawns(s: RunState, script: Script)
    ensures Spawned(s, Step(s, script).0, script)
  {
    hide RunBatch, EndStep, FireDue, Jump, CanJump, Idle, Spawned;
    if s.stepsLeft == Some(0) {
      SameSpawned(s, s, script);
    } else {
      var a := Advance(Budgeted(s)).0;
      SameSpawned(s, a, script);
      BatchSpawns(a, script, |a.agenda.ready|);
      var b := RunBatch(a, script, |a.agenda.ready|).0;
      EndStepSpawns(b, script);
      SpawnedChain(a, b, EndStep(b, script).0, script);
      SpawnedChain(s, a, b, script);
      SpawnedChain(s, a, EndStep(b, script).0, script);
    }
  }

  /** Over any run of the loop, however it ends: the tasks are those that callbacks created, numbered in the
      order of creation, and the started nodes are those that were started, in that order. */
  lemma {:induction false} TasksAreSpawned(s: RunState, script: Script, fuel: nat)
    ensures Spawned(s, RunForever(s, script, fuel).0, script)
    decreases fuel
  {
    hide Step, Spawned;
    if fuel == 0 {
      SameSpawned(s, s, script);
    } else {
      var (t, r) := Step(s, script);
      StepSpawns(s, script);
      SameSpawned(t, t.(stopping := false), script);
      SpawnedChain(s, t, t.(stopping := false), script);
      if r.Normal? && !t.stopping {
        TasksAreSpawned(t, script, fuel - 1);
        SpawnedChain(s, t, RunForever(t, script, fuel - 1).0, script);
      }
    }
  }
}
