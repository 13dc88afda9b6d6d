/** The step budget of a run (`max_steps`): the most steps it can take, and when spending it is reported. */
module Budgets {
  import opened Common
  import opened Agendas
  import opened LoopModel
  import opened LoopProperties
  import opened Drive

  /** The steps a budget still allows. */
  predicate Allows(budget: Option<nat>, steps: int) {
    budget.Some? ==> steps <= budget.value
  }

  /** What a step spends; only one that the budget does not allow raises the budget's error. */
  lemma StepSpends(s: RunState, script: Script)
    requires s.stepError == Livelock
    ensures var (t, r) := Step(s, script);
            && t.stepError == Livelock
            && (r.Normal? ==> s.stepsLeft != Some(0) && |t.log| == |s.log| + 1)
            && (r.Raised? ==> t.log == s.log && (r.e == Livelock <==> s.stepsLeft == Some(0)))
            && (s.stepsLeft.None? ==> t.stepsLeft.None?)
            && (s.stepsLeft.Some? && r.Normal? ==> t.stepsLeft == Some(s.stepsLeft.value - 1))
  {
    hide Work, FireDue, Idle, CanJump, Jump;
    if s.stepsLeft != Some(0) {
      WorkShape(Advance(Budgeted(s)).0, script);
    }
  }

  /** One run of the loop: never more steps than the budget, and the budget's error exactly if it is spent
      and another step is due. */
  lemma {:induction false} RunSpends(s: RunState, script: Script, fuel: nat)
    requires s.stepError == Livelock
    ensures var (t, end) := RunForever(s, script, fuel); var steps := |t.log| - |s.log|;
            && t.stepError == Livelock && steps >= 0 && Allows(s.stepsLeft, steps)
            && (!end.Threw? ==> t.stepsLeft == if s.stepsLeft.Some? then Some(s.stepsLeft.value - steps) else None)
            && (end.Threw? && end.e == Livelock ==> s.stepsLeft == Some(steps))
            && (end.Threw? && s.stepsLeft == Some(steps) && steps < fuel ==> end.e == Livelock)
            && (end.StillRunning? ==> steps == fuel)
    decreases fuel
  {
    hide Step;
    if fuel > 0 {
      StepSpends(s, script);
      var (t, r) := Step(s, script);
      if r.Normal? && !t.stopping {
        RunSpends(t, script, fuel - 1);
      }
    }
  }

  /** The run phase of any drive with a budget of m steps takes at most m of them and ends; it ends in the
      budget's error only with all m taken, and in no other error then. Without a budget it never ends so. */
  lemma RunIsBudgeted(s: RunState, script: Script, budget: Option<nat>, fuel: nat)
    ensures var (ran, end) := RunUntilDone(Launched(s, budget), script, Task(s.nextTask), true, fuel); var steps := |ran.log| - |s.log|;
            && Allows(budget, steps)
            && (end.Threw? && end.e == Livelock ==> budget == Some(steps))
            && (budget.Some? && fuel > budget.value ==> !end.StillRunning?)
            && (budget.Some? && fuel > budget.value && end.Threw? && steps == budget.value ==> end.e == Livelock)
  {
    hide RunForever, DoSpawn;
    LaunchedWith(s, budget);
    var f := Task(s.nextTask);
    var s0 := Launched(s, budget).(watch := Some(f), stopIn := None, settle := true);
    RunSpends(s0, script, fuel);
    var (t, end) := RunForever(s0, script, fuel);
    if end.Returned? && f in t.results && (t.stopIn == Some(1) || t.stopIn == Some(2)) {
      RunSpends((if t.stopIn == Some(2) then Settle(t) else t).(stopIn := Some(1)), script, fuel);
    }
  }

  lemma LaunchedWith(s: RunState, budget: Option<nat>)
    ensures var t := Launched(s, budget); t.stepsLeft == budget && t.stepError == Livelock && t.log == s.log
  {
  }
}
