/** What every run of the lifecycle protocol promises. */
module LifecycleTheorems {
  import opened Common
  import opened Lifecycle
  import opened LifecycleInvariants
  import opened LifecycleSafety

  /** Once a task is cancelled, or failed by failTask, a denial or a setup
      cancellation, no side effect of that task is ever recorded again. */
  lemma NoEffectAfterVerdict(steps: seq<Step>, i: nat, j: nat, t: TaskId)
    requires i < j < |Run(Init(), steps).log|
    requires Run(Init(), steps).log[i] == TaskCancelled(t) || Run(Init(), steps).log[i] == TaskFailed(t)
    ensures var e := Run(Init(), steps).log[j]; !(e.Effect? && e.owner == Some(t))
  {
    InvInit();
    InvRun(Init(), steps);
    var log := Run(Init(), steps).log;
    assert !Clash(log[i], log[j]);
  }

  /** After the verdict every registered action of the task is aborted, and no step
      can register another one. */
  lemma NoClaimAfterVerdict(steps: seq<Step>, a: Step, t: TaskId, c: Claim)
    requires HasVerdict(Run(Init(), steps).log, t)
    ensures var s := Run(Init(), steps);
      c in Next(s, a).registry && Next(s, a).registry[c].task == Some(t) ==>
        c in s.registry && s.registry[c] == Entry(Some(t), true)
  {
    InvInit();
    InvRun(Init(), steps);
    var s := Run(Init(), steps);
    if c in Next(s, a).registry && Next(s, a).registry[c].task == Some(t) {
      if IsVerdictStep(a) { VerdictClaims(s, a, t, c); } else { OtherClaims(s, a, t, c); }
    }
  }

  lemma VerdictClaims(s: State, a: Step, t: TaskId, c: Claim)
    requires Inv(s) && HasVerdict(s.log, t) && IsVerdictStep(a)
    requires c in Next(s, a).registry && Next(s, a).registry[c].task == Some(t)
    ensures c in s.registry && s.registry[c] == Entry(Some(t), true)
  {
    assert AbortOk(s, c);
    VerdictRegistry(s, a);
  }

  /** A verdict-giving step adds no entry and keeps every owner. */
  lemma VerdictRegistry(s: State, a: Step)
    requires IsVerdictStep(a)
    ensures Next(s, a).registry.Keys == s.registry.Keys
    ensures forall c :: c in s.registry ==> Next(s, a).registry[c].task == s.registry[c].task
  {
    VerdictShape(s, a);
    if Victim(s, a).Some? { assert Next(s, a).(todo := s.todo).registry == Next(s, a).registry; }
  }

  /** Only Guard and AutoClaim register anything, and both look at the task first. */
  lemma OtherClaims(s: State, a: Step, t: TaskId, c: Claim)
    requires Inv(s) && HasVerdict(s.log, t) && !IsVerdictStep(a)
    requires c in Next(s, a).registry && Next(s, a).registry[c].task == Some(t)
    ensures c in s.registry && s.registry[c] == Entry(Some(t), true)
  {
    assert VerdictOk(s, t) && AbortOk(s, c);
    NewClaimsAreLive(s, a, c);
  }

  /** An entry is either an old one, unchanged, or belongs to no task or to a live one. */
  lemma NewClaimsAreLive(s: State, a: Step, c: Claim)
    requires Inv(s) && !IsVerdictStep(a) && c in Next(s, a).registry
    ensures (c in s.registry && Next(s, a).registry[c] == s.registry[c])
      || (Next(s, a).registry[c].task.Some? ==>
            Next(s, a).registry[c].task.value >= |s.tasks| || LiveTask(s, Next(s, a).registry[c].task.value))
  {}

  lemma TerminalStep(s: State, a: Step, t: TaskId)
    requires t < |s.tasks| && Terminal(s.tasks[t].status)
    ensures StatusIs(Next(s, a), t, s.tasks[t].status)
  {
    if IsVerdictStep(a) {
      VerdictTasks(s, a);
    } else {
      TasksOther(s, a, t);
    }
  }

  /** The only task a verdict-giving step changes is its victim, and that was live. */
  lemma VerdictTasks(s: State, a: Step)
    requires IsVerdictStep(a)
    ensures match Victim(s, a)
      case None => Next(s, a).tasks == s.tasks
      case Some(t) => LiveTask(s, t) && Next(s, a).tasks == s.tasks[t := s.tasks[t].(status := VerdictStatus(a))]
  {
    VerdictSplit(s, a);
    BeforeQuiet(s, a);
    if Victim(s, a).Some? {
      assert Next(s, a).(todo := s.todo).tasks == Next(s, a).tasks;
    }
  }

  /** A terminal status never changes, whatever runs afterwards (from any state at all). */
  lemma {:induction false} TerminalIsFinal(s: State, steps: seq<Step>, t: TaskId)
    requires t < |s.tasks| && Terminal(s.tasks[t].status)
    ensures StatusIs(Run(s, steps), t, s.tasks[t].status)
    decreases |steps|
  {
    if steps != [] {
      TerminalStep(s, steps[0], t);
      TerminalIsFinal(Next(s, steps[0]), steps[1..], t);
    }
  }

  /** A task gets at most one verdict row in total; a cancelled row is there exactly
      when the task is cancelled, and a failed row only when it is failed. */
  lemma OneVerdict(steps: seq<Step>, t: TaskId)
    ensures var s := Run(Init(), steps);
      && Count(s.log, TaskCancelled(t)) + Count(s.log, TaskFailed(t)) <= 1
      && (Count(s.log, TaskCancelled(t)) == 1 <==> StatusIs(s, t, Cancelled))
      && (Count(s.log, TaskFailed(t)) == 1 ==> StatusIs(s, t, Failed))
  {
    InvInit();
    InvRun(Init(), steps);
    assert VerdictOk(Run(Init(), steps), t);
  }

  /** Each authorization leaves `pending` at most once, with one winner among approve,
      deny and teardown; its status is what its audit rows say; and the only further
      move is the terminal guard taking back an approval, at most once. */
  lemma OneAuthorizationWinner(steps: seq<Step>, g: nat)
    ensures var s := Run(Init(), steps);
      && AuthDecisions(s.log, g) <= 1
      && Count(s.log, AuthTaskTerminal(g)) <= Count(s.log, AuthApproved(g))
      && (g < |s.auths| ==> s.auths[g].status == AuthStatusOf(s.log, g))
  {
    InvInit();
    InvRun(Init(), steps);
    assert AuthOk(Run(Init(), steps), g);
  }

  lemma OneSetupWinner(steps: seq<Step>, q: nat)
    ensures var s := Run(Init(), steps);
      && SetupDecisions(s.log, q) <= 1
      && (q < |s.setups| ==> s.setups[q].status == SetupStatusOf(s.log, q))
  {
    InvInit();
    InvRun(Init(), steps);
    assert SetupOk(Run(Init(), steps), q);
  }

  /** Across any number of crashes, each claim's side effect starts at most once, and
      the effect of a gate only under an approval that was never taken back. */
  lemma EffectAtMostOnce(steps: seq<Step>, i: nat, j: nat)
    requires i < |Run(Init(), steps).log| && j < |Run(Init(), steps).log|
    requires var log := Run(Init(), steps).log; log[i].Effect? && log[j].Effect? && log[i].claim == log[j].claim
    ensures i == j
    ensures var log := Run(Init(), steps).log;
      log[i].claim.Gate? ==>
        Count(log, AuthApproved(log[i].claim.gate)) == 1 && Count(log, AuthTaskTerminal(log[i].claim.gate)) == 0
  {
    InvInit();
    InvRun(Init(), steps);
    var s := Run(Init(), steps);
    assert !Twice(s.log[i], s.log[j]) || i >= j;
    assert !Twice(s.log[j], s.log[i]) || j >= i;
    if s.log[i].claim.Gate? {
      assert Started(s.log, s.log[i].claim);
      assert ExecOk(s, s.log[i].claim) && AuthOk(s, s.log[i].claim.gate);
    }
  }

  /** A claimed action still takes effect exactly when its task has no verdict row. */
  lemma ClaimedEffectIff(steps: seq<Step>, c: Claim)
    requires var s := Run(Init(), steps); c in s.exec && s.exec[c] == Claimed
    ensures var s := Run(Init(), steps);
      c in s.registry &&
      (Started(Next(s, Perform(c)).log, c) <==>
         !(s.registry[c].task.Some? && HasVerdict(s.log, s.registry[c].task.value)))
  {
    InvInit();
    InvRun(Init(), steps);
    var s := Run(Init(), steps);
    assert ExecOk(s, c) && AbortOk(s, c);
    var s' := Next(s, Perform(c));
    RowExact(s, Perform(c));
    StartedAppend(s.log, RowOf(s, Perform(c)), c);
    if !s.registry[c].aborted {
      assert RowOf(s, Perform(c))[0].Effect?;
    }
  }

  predicate HasPendingGate(s: State, t: TaskId) {
    || (exists g :: 0 <= g < |s.auths| && s.auths[g].task == Some(t) && s.auths[g].status.AuthPending?)
    || (exists q :: 0 <= q < |s.setups| && s.setups[q].task == Some(t) && s.setups[q].status.SetupPending?)
  }

  /** A cancellation, denial or setup cancellation leaves its victim no pending gate;
      failTask alone leaves every gate as it is. */
  lemma VerdictAndGates(s: State, a: Step)
    requires Victim(s, a).Some?
    ensures !a.Fail? ==> !HasPendingGate(Next(s, a), Victim(s, a).value)
    ensures a.Fail? ==> Next(s, a).auths == s.auths && Next(s, a).setups == s.setups
  {
    var t := Victim(s, a).value;
    VerdictSplit(s, a);
    var s' := Next(s, a).(todo := s.todo);
    assert s'.auths == Next(s, a).auths && s'.setups == Next(s, a).setups;
    if a.Cancel? || a.CancelChild? {
      assert s'.auths == TornAuths(s.auths, t) && s'.setups == TornSetups(s.setups, t);
    } else {
      assert s'.auths == Before(s, a).auths && s'.setups == Before(s, a).setups;
    }
  }

  lemma RunSnoc(s: State, steps: seq<Step>, a: Step)
    ensures Run(s, steps + [a]) == Next(Run(s, steps), a)
  {
    RunAppend(s, steps, [a]);
  }

  lemma {:induction false} RunAppend(s: State, a: seq<Step>, b: seq<Step>)
    ensures Run(s, a + b) == Run(Run(s, a), b)
    decreases |a|
  {
    if a == [] {
      assert a + b == b;
    } else {
      assert (a + b)[1..] == a[1..] + b;
      RunAppend(Next(s, a[0]), a[1..], b);
    }
  }
}
