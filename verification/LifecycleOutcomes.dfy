/** What becomes of a task and its gate: the status an approved action leaves behind in every
    run, and whole courses of an imperative task from any state. */
module LifecycleOutcomes {
  import opened Common
  import opened Lifecycle
  import opened LifecycleInvariants
  import opened LifecycleSafety
  import opened LifecycleTheorems
  import opened LifecycleTerminal

  /** A claimed action that nobody has aborted. */
  predicate Unaborted(s: State, c: Claim, phase: Phase) {
    c in s.exec && s.exec[c] == phase && c in s.registry && !s.registry[c].aborted
  }

  predicate LiveImperative(s: State, owner: Option<TaskId>) {
    owner.Some? && LiveTask(s, owner.value) && !s.tasks[owner.value].chat
  }

  predicate IsFileGate(s: State, c: Claim) {
    c.Gate? && c.gate < |s.auths| && s.auths[c.gate].kind.FileAction?
  }

  /** `tasks` with only the status of the owner changed. */
  function Ended1(tasks: seq<Task>, owner: Option<TaskId>, status: Status): seq<Task> {
    if owner.Some? && owner.value < |tasks| then tasks[owner.value := tasks[owner.value].(status := status)] else tasks
  }

  /** A registered action of an imperative task is that of its gate, without a tool-call id. */
  lemma EntryMode(s: State, c: Claim)
    requires Inv(s) && ModesOk(s) && c in s.registry && s.registry[c].task.Some?
    ensures s.registry[c].task.value < |s.tasks|
    ensures ChatOf(s, c) <==> s.tasks[s.registry[c].task.value].chat
  {
    assert ExecOk(s, c) && AutoOk(s, c);
    if c.Gate? { assert GateModeOk(s, c.gate); }
  }

  /** In every run, performing a claimed action that is not aborted records its effect and
      settles a file action; the tasks stay as they are, except that a file action of a live
      imperative task completes that task. */
  lemma PerformOutcome(steps: seq<Step>, c: Claim)
    requires Unaborted(Run(Init(), steps), c, Claimed)
    ensures var s := Run(Init(), steps); var s' := Next(s, Perform(c)); var owner := s.registry[c].task;
      && s'.log == s.log + [Effect(c, owner)]
      && s'.exec == s.exec[c := if IsFileGate(s, c) then Settled else Spawned]
      && s'.tasks == if IsFileGate(s, c) && LiveImperative(s, owner) then Ended1(s.tasks, owner, Completed) else s.tasks
  {
    InvInit();
    InvRun(Init(), steps);
    ModesRun(Init(), steps);
    var s := Run(Init(), steps);
    if s.registry[c].task.Some? { EntryMode(s, c); }
  }

  /** A claimed action that has been aborted settles with its row and touches nothing else. */
  lemma PerformAborted(s: State, c: Claim)
    requires c in s.exec && s.exec[c] == Claimed && c in s.registry && s.registry[c].aborted
    ensures Next(s, Perform(c)) == s.(exec := s.exec[c := Settled], log := s.log + [EffectAborted(c)])
  {}

  /** What an abort of the task's actions names: those registered for it and not aborted yet. */
  predicate Names(s: State, t: TaskId, claims: set<Claim>) {
    && (forall c :: c in claims ==> c in s.registry && s.registry[c] == Entry(Some(t), false))
    && (forall c :: c in s.registry && s.registry[c] == Entry(Some(t), false) ==> c in claims)
  }

  /** `log` is `head`, then one row naming the task's aborted actions, if there are any. */
  ghost predicate EndsWithAborts(s: State, t: TaskId, r: Reason, head: seq<Event>, log: seq<Event>) {
    exists claims: set<Claim> :: Names(s, t, claims) && log == head + if claims == {} then [] else [InFlightAborted(t, claims, r)]
  }

  /** Cancelling a live task: its status and row, the rows of its gates, and one last row
      naming the actions it aborts, if there are any; its children are still to come. */
  lemma CancelOutcome(s: State, t: TaskId)
    requires LiveTask(s, t)
    ensures var s' := Next(s, Cancel(t));
      && s'.tasks == s.tasks[t := s.tasks[t].(status := Cancelled)] && s'.owed == s.owed + {t}
      && (forall c :: c in s'.registry <==> c in s.registry)
      && (forall c :: c in s.registry ==> s'.registry[c] == if s.registry[c].task == Some(t) then Entry(Some(t), true) else s.registry[c])
    ensures EndsWithAborts(s, t, ByCancel, s.log + [TaskCancelled(t)] + TeardownRows(s, t, ByCancel), Next(s, Cancel(t)).log)
  {
    assert Names(s, t, ToAbort(s.registry, t));
    var row := if ToAbort(s.registry, t) == {} then [] else [InFlightAborted(t, ToAbort(s.registry, t), ByCancel)];
    assert Next(s, Cancel(t)).log == s.log + [TaskCancelled(t)] + TeardownRows(s, t, ByCancel) + row;
  }

  /** Failing a live task: its status and row, and the row naming what it aborts. Failing a
      failed one only asks for its children again; any other task is left alone. */
  lemma FailOutcome(s: State, t: TaskId)
    ensures var s' := Next(s, Fail(t));
      if LiveTask(s, t)
      then
        && s'.tasks == s.tasks[t := s.tasks[t].(status := Failed)] && s'.owed == s.owed + {t}
        && s'.auths == s.auths && s'.setups == s.setups
        && EndsWithAborts(s, t, ByFailure, s.log + [TaskFailed(t)], s'.log)
      else s' == s.(owed := if t < |s.tasks| && s.tasks[t].status.Failed? then s.owed + {t} else s.owed)
  {
    if LiveTask(s, t) {
      assert Names(s, t, ToAbort(s.registry, t));
      var row := if ToAbort(s.registry, t) == {} then [] else [InFlightAborted(t, ToAbort(s.registry, t), ByFailure)];
      assert Next(s, Fail(t)).log == s.log + [TaskFailed(t)] + row;
    }
  }

  /** In every run, a started action that ends without seeing an abort leaves a live
      imperative task failed if it ended in an error and completed otherwise, and every other
      task as it is; one that sees its abort is recorded as aborted and changes no task. */
  lemma FinishOutcome(steps: seq<Step>, c: Claim, sawAbort: bool, error: bool)
    requires var s := Run(Init(), steps); c in s.exec && s.exec[c] == Spawned && c in s.registry
    ensures var s := Run(Init(), steps); var s' := Next(s, Finish(c, sawAbort, error)); var owner := s.registry[c].task;
      && s'.exec == s.exec[c := Settled]
      && (if s.registry[c].aborted && sawAbort
          then s'.tasks == s.tasks && s'.log == s.log + [EffectAborted(c)]
          else
            && s'.log == s.log
            && s'.tasks == if LiveImperative(s, owner) then Ended1(s.tasks, owner, if error then Failed else Completed)
                           else s.tasks)
  {
    InvInit();
    InvRun(Init(), steps);
    ModesRun(Init(), steps);
    var s := Run(Init(), steps);
    if s.registry[c].task.Some? { EntryMode(s, c); }
  }

  /** So the approved write of an imperative task without a verdict leaves it completed. */
  lemma WriteCompletes(steps: seq<Step>, g: nat, t: TaskId)
    requires var s := Run(Init(), steps); g < |s.auths| && s.auths[g].task == Some(t) && s.auths[g].kind.FileAction?
    requires var s := Run(Init(), steps); Gate(g) in s.exec && s.exec[Gate(g)] == Claimed
    requires var s := Run(Init(), steps); t < |s.tasks| && !s.tasks[t].chat && !HasVerdict(s.log, t)
    ensures StatusIs(Next(Run(Init(), steps), Perform(Gate(g))), t, Completed)
  {
    var s, c := Run(Init(), steps), Gate(g);
    InvInit();
    InvRun(Init(), steps);
    assert ExecOk(s, c) && AbortOk(s, c);
    ImperativeNeverLate(steps, t);
    TimelyNow(Init(), steps, t);
    LandsIffActing(s, c, t);
    assert !LandsLate(s, c, t);
    PerformOutcome(steps, c);
  }

  lemma {:induction false} TimelyNow(s: State, steps: seq<Step>, t: TaskId)
    requires NeverLate(s, steps, t)
    ensures Timely(Run(s, steps), t)
    decreases |steps|
  {
    if steps != [] { TimelyNow(Next(s, steps[0]), steps[1..], t); }
  }

  /** The guard of an approved action, in every run: for a task that has ended the approval
      is taken back with its row and nothing is claimed; otherwise the action is claimed under
      its owner and nothing else changes. */
  lemma GuardOutcome(steps: seq<Step>, g: nat)
    requires var s := Run(Init(), steps); Gate(g) in s.exec && s.exec[Gate(g)] == Scheduled
    ensures var s := Run(Init(), steps); var s' := Next(s, Guard(g));
      && g < |s.auths| && s'.tasks == s.tasks && s'.setups == s.setups
      && (if s.auths[g].task.Some? && Ended(s, s.auths[g].task.value)
          then
            && Gate(g) !in s'.exec && s'.registry == s.registry
            && s'.auths == s.auths[g := s.auths[g].(status := Denied)] && s'.log == s.log + [AuthTaskTerminal(g)]
          else
            && s'.exec == s.exec[Gate(g) := Claimed]
            && s'.registry == s.registry[Gate(g) := Entry(s.auths[g].task, false)]
            && s'.auths == s.auths && s'.log == s.log)
  {
    InvInit();
    InvRun(Init(), steps);
    assert ExecOk(Run(Init(), steps), Gate(g));
  }

  // -------------------------------------------- whole courses of a new task

  /** No gate, setup request or registry entry names the next task, and no executor the next
      gate. */
  predicate Newcomer(s: State) {
    && (forall g :: 0 <= g < |s.auths| ==> s.auths[g].task != Some(|s.tasks|))
    && (forall q :: 0 <= q < |s.setups| ==> s.setups[q].task != Some(|s.tasks|))
    && (forall c :: c in s.registry ==> s.registry[c].task != Some(|s.tasks|))
    && Gate(|s.auths|) !in s.exec && Gate(|s.auths|) !in s.registry
  }

  lemma NewcomerInRun(steps: seq<Step>)
    ensures Newcomer(Run(Init(), steps))
  {
    InvInit();
    InvRun(Init(), steps);
    ModesRun(Init(), steps);
    NewcomerIsUnknown(Run(Init(), steps));
  }

  lemma NewcomerIsUnknown(s: State)
    requires Inv(s) && ModesOk(s)
    ensures Newcomer(s)
  {
    forall g: nat | g < |s.auths| ensures s.auths[g].task != Some(|s.tasks|) { assert GateModeOk(s, g); }
    forall q: nat | q < |s.setups| ensures s.setups[q].task != Some(|s.tasks|) { assert SetupOwnerOk(s, q); }
    forall c | c in s.registry ensures s.registry[c].task != Some(|s.tasks|) {
      assert AutoOk(s, c) && ExecOk(s, c);
      if c.Gate? { assert GateModeOk(s, c.gate); }
    }
    assert ExecOk(s, Gate(|s.auths|));
  }

  /** `s` with one more imperative task and its one gate. */
  function Asked(s: State, kind: Kind, task: Status, gate: AuthStatus): State {
    s.(tasks := s.tasks + [Task(task, None, false)], auths := s.auths + [Auth(Some(|s.tasks|), kind, false, gate)])
  }

  /** A new imperative task asks for its approval. */
  function Asks(s: State, kind: Kind): seq<Step> {
    [Submit(None, false), MintAuth(Some(|s.tasks|), kind, false)]
  }

  lemma SubmitIt(s: State)
    ensures Next(s, Submit(None, false)) ==
      s.(tasks := s.tasks + [Task(Queued, None, false)], log := s.log + [TaskSubmitted(|s.tasks|)])
  {}

  lemma MintIt(s: State, kind: Kind, log: seq<Event>)
    requires Newcomer(s)
    ensures Next(s.(tasks := s.tasks + [Task(Queued, None, false)], log := log), MintAuth(Some(|s.tasks|), kind, false)) ==
      Asked(s, kind, WaitingApproval, AuthPending).(log := log)
  {
    var s1 := s.(tasks := s.tasks + [Task(Queued, None, false)], log := log);
    assert !HasGate(s1, |s.tasks|);
    assert s1.tasks[|s.tasks| := Task(WaitingApproval, None, false)] == s.tasks + [Task(WaitingApproval, None, false)];
  }

  lemma AskSteps(s: State, kind: Kind)
    requires Newcomer(s)
    ensures Run(s, Asks(s, kind)) ==
      Asked(s, kind, WaitingApproval, AuthPending).(log := s.log + [TaskSubmitted(|s.tasks|)])
  {
    SubmitIt(s);
    MintIt(s, kind, s.log + [TaskSubmitted(|s.tasks|)]);
    RunTwo(s, Submit(None, false), MintAuth(Some(|s.tasks|), kind, false));
  }

  lemma ApproveIt(s: State, kind: Kind, log: seq<Event>)
    ensures var n, g := |s.tasks|, |s.auths|;
      Next(Asked(s, kind, WaitingApproval, AuthPending).(log := log), Approve(g)) ==
        Asked(s, kind, WaitingApproval, Approved).(log := log + [AuthApproved(g)], exec := s.exec[Gate(g) := Scheduled])
  {
    assert (s.auths + [Auth(Some(|s.tasks|), kind, false, AuthPending)])[|s.auths| := Auth(Some(|s.tasks|), kind, false, Approved)]
        == s.auths + [Auth(Some(|s.tasks|), kind, false, Approved)];
  }

  lemma GuardIt(s: State, kind: Kind, log: seq<Event>)
    ensures var n, g := |s.tasks|, |s.auths|;
      Next(Asked(s, kind, WaitingApproval, Approved).(log := log, exec := s.exec[Gate(g) := Scheduled]), Guard(g)) ==
        Asked(s, kind, WaitingApproval, Approved)
        .(log := log, exec := s.exec[Gate(g) := Claimed], registry := s.registry[Gate(g) := Entry(Some(n), false)])
  {
    assert s.exec[Gate(|s.auths|) := Scheduled][Gate(|s.auths|) := Claimed] == s.exec[Gate(|s.auths|) := Claimed];
  }

  lemma Forgotten<T>(m: map<Claim, T>, c: Claim, x: T)
    requires c !in m
    ensures m[c := x] - {c} == m
  {}

  /** A state in which the new task's gate is claimed at some phase. */
  function Busy(s: State, kind: Kind, task: Status, log: seq<Event>, phase: Phase): State {
    Asked(s, kind, task, Approved)
    .(log := log, exec := s.exec[Gate(|s.auths|) := phase], registry := s.registry[Gate(|s.auths|) := Entry(Some(|s.tasks|), false)])
  }

  lemma WriteIt(s: State, log: seq<Event>)
    ensures var c := Gate(|s.auths|);
      Next(Busy(s, FileAction, WaitingApproval, log, Claimed), Perform(c)) ==
        Busy(s, FileAction, Completed, log + [Effect(c, Some(|s.tasks|))], Settled)
  {
    var c := Gate(|s.auths|);
    assert s.exec[c := Claimed][c := Settled] == s.exec[c := Settled];
    assert (s.tasks + [Task(WaitingApproval, None, false)])[|s.tasks| := Task(Completed, None, false)]
        == s.tasks + [Task(Completed, None, false)];
  }

  lemma SpawnIt(s: State, log: seq<Event>)
    ensures var c := Gate(|s.auths|);
      Next(Busy(s, SpawnedAction, WaitingApproval, log, Claimed), Perform(c)) ==
        Busy(s, SpawnedAction, WaitingApproval, log + [Effect(c, Some(|s.tasks|))], Spawned)
  {
    var c := Gate(|s.auths|);
    assert s.exec[c := Claimed][c := Spawned] == s.exec[c := Spawned];
  }

  lemma EndIt(s: State, log: seq<Event>, error: bool)
    ensures Next(Busy(s, SpawnedAction, WaitingApproval, log, Spawned), Finish(Gate(|s.auths|), false, error)) ==
      Busy(s, SpawnedAction, if error then Failed else Completed, log, Settled)
  {
    var c := Gate(|s.auths|);
    var end := if error then Failed else Completed;
    assert s.exec[c := Spawned][c := Settled] == s.exec[c := Settled];
    assert (s.tasks + [Task(WaitingApproval, None, false)])[|s.tasks| := Task(end, None, false)]
        == s.tasks + [Task(end, None, false)];
  }

  lemma ReleaseIt(s: State, kind: Kind, task: Status, log: seq<Event>, phase: Phase)
    requires Newcomer(s)
    ensures Next(Busy(s, kind, task, log, phase), Release(Gate(|s.auths|))) == Asked(s, kind, task, Approved).(log := log)
  {
    Forgotten(s.exec, Gate(|s.auths|), phase);
    Forgotten(s.registry, Gate(|s.auths|), Entry(Some(|s.tasks|), false));
  }

  lemma Then(s: State, start: seq<Step>, a: Step, b: Step, one: State, two: State)
    requires Next(Run(s, start), a) == one && Next(one, b) == two
    ensures Run(s, start + [a, b]) == two
  {
    RunAppend(s, start, [a, b]);
    RunTwo(Run(s, start), a, b);
  }

  lemma Claims(s: State, kind: Kind)
    requires Newcomer(s)
    ensures var n, g := |s.tasks|, |s.auths|;
      Run(s, Asks(s, kind) + [Approve(g), Guard(g)]) ==
        Busy(s, kind, WaitingApproval, s.log + [TaskSubmitted(n)] + [AuthApproved(g)], Claimed)
  {
    var n, g := |s.tasks|, |s.auths|;
    var log := s.log + [TaskSubmitted(n)];
    AskSteps(s, kind);
    ApproveIt(s, kind, log);
    GuardIt(s, kind, log + [AuthApproved(g)]);
    Then(s, Asks(s, kind), Approve(g), Guard(g),
         Asked(s, kind, WaitingApproval, Approved).(log := log + [AuthApproved(g)], exec := s.exec[Gate(g) := Scheduled]),
         Busy(s, kind, WaitingApproval, log + [AuthApproved(g)], Claimed));
  }

  /** The steps up to the claim of a new task's approved action. */
  function Claiming(s: State, kind: Kind): seq<Step> {
    Asks(s, kind) + [Approve(|s.auths|), Guard(|s.auths|)]
  }

  /** ... and its rows up to the effect. */
  function Rows(s: State): seq<Event> {
    s.log + [TaskSubmitted(|s.tasks|)] + [AuthApproved(|s.auths|)] + [Effect(Gate(|s.auths|), Some(|s.tasks|))]
  }

  /** An approved file action, from every state of every run: the task ends completed, the
      gate approved, with one effect, and registry and executors are as before. */
  lemma WriteCourse(s: State)
    requires Newcomer(s)
    ensures var c := Gate(|s.auths|);
      Run(s, Claiming(s, FileAction) + [Perform(c), Release(c)]) == Asked(s, FileAction, Completed, Approved).(log := Rows(s))
  {
    var c := Gate(|s.auths|);
    Claims(s, FileAction);
    WriteIt(s, s.log + [TaskSubmitted(|s.tasks|)] + [AuthApproved(|s.auths|)]);
    ReleaseIt(s, FileAction, Completed, Rows(s), Settled);
    Then(s, Claiming(s, FileAction), Perform(c), Release(c),
         Busy(s, FileAction, Completed, Rows(s), Settled), Asked(s, FileAction, Completed, Approved).(log := Rows(s)));
  }

  lemma Spawns(s: State)
    requires Newcomer(s)
    ensures Run(s, Claiming(s, SpawnedAction) + [Perform(Gate(|s.auths|))]) ==
      Busy(s, SpawnedAction, WaitingApproval, Rows(s), Spawned)
  {
    Claims(s, SpawnedAction);
    SpawnIt(s, s.log + [TaskSubmitted(|s.tasks|)] + [AuthApproved(|s.auths|)]);
    RunSnoc(s, Claiming(s, SpawnedAction), Perform(Gate(|s.auths|)));
  }

  /** An approved command that is started and ends: completed or failed as it exits. */
  lemma CommandCourse(s: State, error: bool)
    requires Newcomer(s)
    ensures var c := Gate(|s.auths|);
      Run(s, Claiming(s, SpawnedAction) + [Perform(c)] + [Finish(c, false, error), Release(c)]) ==
        Asked(s, SpawnedAction, if error then Failed else Completed, Approved).(log := Rows(s))
  {
    var c := Gate(|s.auths|);
    var end := if error then Failed else Completed;
    Spawns(s);
    EndIt(s, Rows(s), error);
    ReleaseIt(s, SpawnedAction, end, Rows(s), Settled);
    Then(s, Claiming(s, SpawnedAction) + [Perform(c)], Finish(c, false, error), Release(c),
         Busy(s, SpawnedAction, end, Rows(s), Settled), Asked(s, SpawnedAction, end, Approved).(log := Rows(s)));
  }

  /** A denial fails the task, and its children are still to be cancelled. */
  lemma DenialCourse(s: State)
    requires Newcomer(s)
    ensures var n, g := |s.tasks|, |s.auths|;
      Run(s, Asks(s, FileAction) + [Deny(g)]) ==
        Asked(s, FileAction, Failed, Denied)
        .(log := s.log + [TaskSubmitted(n)] + [AuthDenied(g)] + [TaskFailed(n)], owed := s.owed + {n})
  {
    AskSteps(s, FileAction);
    DenyIt(s, s.log + [TaskSubmitted(|s.tasks|)]);
    RunSnoc(s, Asks(s, FileAction), Deny(|s.auths|));
  }

  lemma DenyIt(s: State, log: seq<Event>)
    requires Newcomer(s)
    ensures var n, g := |s.tasks|, |s.auths|;
      Next(Asked(s, FileAction, WaitingApproval, AuthPending).(log := log), Deny(g)) ==
        Asked(s, FileAction, Failed, Denied).(log := log + [AuthDenied(g)] + [TaskFailed(n)], owed := s.owed + {n})
  {
    var n, g := |s.tasks|, |s.auths|;
    var denied := Asked(s, FileAction, WaitingApproval, Denied).(log := log + [AuthDenied(g)]);
    assert (s.auths + [Auth(Some(n), FileAction, false, AuthPending)])[g := Auth(Some(n), FileAction, false, Denied)]
        == s.auths + [Auth(Some(n), FileAction, false, Denied)];
    assert DenyStep(Asked(s, FileAction, WaitingApproval, AuthPending).(log := log), g) == FailOwner(denied, Some(n));
    NothingTorn(denied, n);
    assert FailOwner(denied, Some(n)) == FailNow(denied, n, BySibling);
    assert (s.tasks + [Task(WaitingApproval, None, false)])[n := Task(Failed, None, false)] == s.tasks + [Task(Failed, None, false)];
  }

  /** Tearing a task down that has no pending gate and no entry changes nothing. */
  lemma NothingTorn(s: State, t: TaskId)
    requires forall g :: 0 <= g < |s.auths| ==> !Torn(s.auths[g].task, s.auths[g].status.AuthPending?, t)
    requires forall q :: 0 <= q < |s.setups| ==> !Torn(s.setups[q].task, s.setups[q].status.SetupPending?, t)
    requires forall c :: c in s.registry ==> s.registry[c].task != Some(t)
    ensures Teardown(s, t, BySibling) == s && AbortedRegistry(s.registry, t) == s.registry && ToAbort(s.registry, t) == {}
  {
    NoTornAuths(s.auths, t, BySibling);
    NoTornSetups(s.setups, t, BySibling);
    assert TornAuths(s.auths, t) == s.auths && TornSetups(s.setups, t) == s.setups;
    assert s.log + ([] + []) == s.log;
  }

  lemma {:induction false} NoTornAuths(auths: seq<Auth>, t: TaskId, r: Reason)
    requires forall g :: 0 <= g < |auths| ==> !Torn(auths[g].task, auths[g].status.AuthPending?, t)
    ensures TornAuthRows(auths, t, r) == []
  {
    if auths != [] { NoTornAuths(auths[..|auths| - 1], t, r); }
  }

  lemma {:induction false} NoTornSetups(setups: seq<Setup>, t: TaskId, r: Reason)
    requires forall q :: 0 <= q < |setups| ==> !Torn(setups[q].task, setups[q].status.SetupPending?, t)
    ensures TornSetupRows(setups, t, r) == []
  {
    if setups != [] { NoTornSetups(setups[..|setups| - 1], t, r); }
  }
}
