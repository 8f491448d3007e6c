/** The descendant cascade of the lifecycle protocol: no orphan children, termination,
    and exactly when a retry or a crash breaks it. */
module LifecycleCascade {
  import opened Common
  import opened Lifecycle
  import opened LifecycleInvariants
  import opened LifecycleSafety
  import opened LifecycleTheorems

  /** A live task under a parent that was given a verdict. */
  ghost predicate Orphan(s: State, c: TaskId) {
    LiveTask(s, c) && s.tasks[c].parent.Some? && HasVerdict(s.log, s.tasks[c].parent.value)
  }

  /** Somebody still has to reach the task: its parent's snapshot is owed, or it is in one. */
  predicate Pursued(s: State, c: TaskId) {
    c in s.todo || (c < |s.tasks| && s.tasks[c].parent.Some? && s.tasks[c].parent.value in s.owed)
  }

  ghost predicate CascadeOk(s: State) {
    (forall c: TaskId :: Orphan(s, c) ==> Pursued(s, c)) && (forall c :: c in s.todo ==> c < |s.tasks|)
  }

  predicate Cascades(a: Step) {
    a.Snapshot? || a.CancelChild?
  }

  /** Steps for which the in-lock parent check or the snapshot closes the window. */
  predicate Guarded(a: Step) {
    !a.Retry? && !a.Crash?
  }

  lemma VerdictRowsOfVictim(s: State, a: Step, p: TaskId)
    requires IsVerdictStep(a)
    ensures HasVerdict(Next(s, a).log, p) <==> HasVerdict(s.log, p) || Victim(s, a) == Some(p)
  {
    VerdictShape(s, a);
    var b := Before(s, a);
    assert Count(b.log, TaskCancelled(p)) == Count(s.log, TaskCancelled(p));
    assert Count(b.log, TaskFailed(p)) == Count(s.log, TaskFailed(p));
    if Victim(s, a).Some? {
      var f := Next(s, a).(todo := s.todo);
      assert f.log == Next(s, a).log;
      assert Count(f.log, TaskCancelled(p)) >= Count(b.log, TaskCancelled(p));
    }
  }

  lemma VerdictOwesSnapshot(s: State, a: Step)
    requires IsVerdictStep(a)
    ensures s.owed <= Next(s, a).owed
    ensures Victim(s, a).Some? ==> Victim(s, a).value in Next(s, a).owed
    ensures Next(s, a).todo == if a.CancelChild? then s.todo - {a.task} else s.todo
  {
    match a
    case Deny(g) => DenyOwes(s, g);
    case CancelSetup(q) => CancelSetupOwes(s, q);
    case _ =>
  }

  lemma DenyOwes(s: State, g: nat)
    ensures s.owed <= DenyStep(s, g).owed && DenyStep(s, g).todo == s.todo
    ensures Victim(s, Deny(g)).Some? ==> Victim(s, Deny(g)).value in DenyStep(s, g).owed
  {}

  lemma CancelSetupOwes(s: State, q: nat)
    ensures s.owed <= CancelSetupStep(s, q).owed && CancelSetupStep(s, q).todo == s.todo
    ensures Victim(s, CancelSetup(q)).Some? ==> Victim(s, CancelSetup(q)).value in CancelSetupStep(s, q).owed
  {}

  lemma CascadeVerdict(s: State, a: Step)
    requires CascadeOk(s) && IsVerdictStep(a)
    ensures CascadeOk(Next(s, a))
  {
    VerdictTasks(s, a);
    VerdictOwesSnapshot(s, a);
    var s' := Next(s, a);
    forall c: TaskId | Orphan(s', c) ensures Pursued(s', c) {
      VerdictRowsOfVictim(s, a, s'.tasks[c].parent.value);
      assert s.tasks[c].parent == s'.tasks[c].parent;
      assert Victim(s, a) != s'.tasks[c].parent ==> Orphan(s, c);
    }
  }

  /** The in-lock parent check: a task submitted under a parent with a verdict is refused. */
  lemma SubmitNotOrphan(s: State, parent: Option<TaskId>, chat: bool)
    requires Inv(s)
    ensures parent.Some? && HasVerdict(s.log, parent.value) ==> Next(s, Submit(parent, chat)) == s
  {
    if parent.Some? {
      assert VerdictOk(s, parent.value);
    }
  }

  /** Any other step leaves parents alone, revives nobody, and only Submit and Retry add tasks. */
  lemma OtherTasks(s: State, a: Step, c: TaskId)
    requires !IsVerdictStep(a)
    ensures c < |s.tasks| ==> c < |Next(s, a).tasks| && Next(s, a).tasks[c].parent == s.tasks[c].parent
    ensures c < |s.tasks| && LiveTask(Next(s, a), c) ==> LiveTask(s, c)
    ensures |s.tasks| <= c < |Next(s, a).tasks| ==>
      c == |s.tasks| && (a.Submit? || a.Retry?) && (a.Submit? ==> Next(s, a).tasks[c].parent == a.parent)
  {}

  lemma OtherPursuit(s: State, a: Step, c: TaskId)
    requires !IsVerdictStep(a) && !a.Crash? && c < |s.tasks| && LiveTask(s, c) && Pursued(s, c)
    ensures Pursued(Next(s, a), c)
  {
    OtherTasks(s, a, c);
  }

  lemma CascadeOther(s: State, a: Step)
    requires Inv(s) && CascadeOk(s) && !IsVerdictStep(a) && Guarded(a)
    ensures CascadeOk(Next(s, a))
  {
    var s' := Next(s, a);
    forall c: TaskId | Orphan(s', c) ensures Pursued(s', c) {
      var p := s'.tasks[c].parent.value;
      assert VerdictOk(s, p);
      VerdictOther(s, a, p);
      OtherTasks(s, a, c);
      if c < |s.tasks| {
        assert Orphan(s, c);
        OtherPursuit(s, a, c);
      } else {
        SubmitNotOrphan(s, a.parent, a.chat);
      }
    }
    forall c | c in s'.todo ensures c < |s'.tasks| {
      OtherTasks(s, a, c);
    }
  }

  lemma {:induction false} CascadeRun(s: State, steps: seq<Step>)
    requires Inv(s) && CascadeOk(s) && forall i :: 0 <= i < |steps| ==> Guarded(steps[i])
    ensures Inv(Run(s, steps)) && CascadeOk(Run(s, steps))
    decreases |steps|
  {
    if steps != [] {
      var a := steps[0];
      InvStep(s, a);
      if IsVerdictStep(a) { CascadeVerdict(s, a); } else { CascadeOther(s, a); }
      CascadeRun(Next(s, a), steps[1..]);
    }
  }

  /** In every run without a retry or a crash: once no snapshot is owed and no
      snapshotted child is left, no live task has a parent with a verdict. */
  lemma NoOrphans(steps: seq<Step>, c: TaskId)
    requires forall i :: 0 <= i < |steps| ==> Guarded(steps[i])
    requires Run(Init(), steps).owed == {} && Run(Init(), steps).todo == {}
    ensures !Orphan(Run(Init(), steps), c)
  {
    InvInit();
    CascadeRun(Init(), steps);
  }

  /** retryTask upserts without the parent check: it keeps the cascade promise exactly
      when the parent of the retried task has no verdict, or still owes its snapshot. */
  lemma RetryKeepsIff(s: State, t: TaskId)
    requires Inv(s) && CascadeOk(s) && t < |s.tasks|
    ensures CascadeOk(Next(s, Retry(t))) <==>
      !(s.tasks[t].parent.Some? && HasVerdict(s.log, s.tasks[t].parent.value) && s.tasks[t].parent.value !in s.owed)
  {
    var s' := Next(s, Retry(t));
    var n := |s.tasks|;
    forall p: TaskId ensures HasVerdict(s'.log, p) <==> HasVerdict(s.log, p) {
      assert VerdictOk(s, p);
      VerdictOther(s, Retry(t), p);
    }
    assert s'.tasks[n] == Task(Queued, s.tasks[t].parent, false) && n !in s.todo;
    forall c: TaskId | c != n ensures (Orphan(s', c) <==> Orphan(s, c)) && (Pursued(s, c) ==> Pursued(s', c)) {}
    assert Orphan(s', n) <==> s.tasks[t].parent.Some? && HasVerdict(s.log, s.tasks[t].parent.value);
    assert Pursued(s', n) <==> s.tasks[t].parent.Some? && s.tasks[t].parent.value in s.owed;
  }

  /** Something a cascade in progress still has to do: a live child of a task whose snapshot
      is owed, or a snapshotted child that is live under a verdict. */
  ghost predicate Unfinished(s: State, c: TaskId) {
    LiveTask(s, c) && s.tasks[c].parent.Some? && HasVerdict(s.log, s.tasks[c].parent.value)
    && (s.tasks[c].parent.value in s.owed || c in s.todo)
  }

  /** A crash forgets the cascades in progress: it keeps the promise exactly when none of
      them had a live child left to cancel. */
  lemma CrashKeepsIff(s: State)
    requires CascadeOk(s)
    ensures CascadeOk(Next(s, Crash)) <==> forall c: TaskId :: !Unfinished(s, c)
  {
    var s' := Next(s, Crash);
    forall c: TaskId ensures (Orphan(s', c) <==> Orphan(s, c)) && !Pursued(s', c) && (Orphan(s, c) <==> Unfinished(s, c)) {
      CrashForgets(s, c);
      assert Orphan(s, c) ==> Pursued(s, c);
    }
  }

  // ------------------------------------------------------------ termination

  function LiveCount(tasks: seq<Task>): nat {
    if tasks == [] then 0
    else LiveCount(tasks[..|tasks| - 1]) + if Terminal(tasks[|tasks| - 1].status) then 0 else 1
  }

  /** Giving a live task a terminal status takes exactly one off the number of live tasks. */
  lemma {:induction false} LiveCountDrops(tasks: seq<Task>, t: TaskId, status: Status)
    requires t < |tasks| && !Terminal(tasks[t].status) && Terminal(status)
    ensures LiveCount(tasks[t := tasks[t].(status := status)]) == LiveCount(tasks) - 1
  {
    var tasks' := tasks[t := tasks[t].(status := status)];
    var n := |tasks| - 1;
    if t < n {
      assert tasks'[..n] == tasks[..n][t := tasks[t].(status := status)];
      LiveCountDrops(tasks[..n], t, status);
    } else {
      assert tasks'[..n] == tasks[..n];
    }
  }

  /** The lexicographic measure of the cascade: live tasks, owed snapshots, children left. */
  predicate Below(s': State, s: State) {
    || LiveCount(s'.tasks) < LiveCount(s.tasks)
    || (LiveCount(s'.tasks) == LiveCount(s.tasks)
        && (|s'.owed| < |s.owed| || (|s'.owed| == |s.owed| && |s'.todo| < |s.todo|)))
  }

  /** Every cascade step that has something to do makes the measure smaller. */
  lemma CascadeStepDecreases(s: State, a: Step)
    requires (a.Snapshot? && a.task in s.owed) || (a.CancelChild? && a.task in s.todo)
    ensures Below(Next(s, a), s)
  {
    if a.CancelChild? {
      VerdictTasks(s, a);
      if LiveTask(s, a.task) {
        LiveCountDrops(s.tasks, a.task, Cancelled);
      } else {
        assert Next(s, a).todo == s.todo - {a.task};
      }
    } else {
      assert Next(s, a).owed == s.owed - {a.task};
    }
  }

  /** The cascade, run in any order its loop picks, ends; then nothing is pursued. */
  lemma Drain(s: State) returns (steps: seq<Step>)
    ensures forall i :: 0 <= i < |steps| ==> Cascades(steps[i])
    ensures Run(s, steps).owed == {} && Run(s, steps).todo == {}
    decreases LiveCount(s.tasks), |s.owed|, |s.todo|
  {
    if s.owed == {} && s.todo == {} {
      return [];
    }
    var a: Step;
    if s.todo != {} {
      var c :| c in s.todo;
      a := CancelChild(c);
    } else {
      var p :| p in s.owed;
      a := Snapshot(p);
    }
    CascadeStepDecreases(s, a);
    var rest := Drain(Next(s, a));
    steps := [a] + rest;
    assert steps[1..] == rest;
  }

  /** `more` consists of cascade steps only, after which nothing is pursued or orphaned. */
  ghost predicate Finished(steps: seq<Step>, more: seq<Step>) {
    && (forall i :: 0 <= i < |more| ==> Cascades(more[i]))
    && Run(Init(), steps + more).owed == {} && Run(Init(), steps + more).todo == {}
    && (forall c: TaskId :: !Orphan(Run(Init(), steps + more), c))
  }

  /** From any state of a guarded run, letting the cascades finish removes every orphan. */
  lemma DrainedRunHasNoOrphans(steps: seq<Step>)
    requires forall i :: 0 <= i < |steps| ==> Guarded(steps[i])
    ensures exists more :: Finished(steps, more)
  {
    var more := Drain(Run(Init(), steps));
    RunAppend(Init(), steps, more);
    forall c: TaskId ensures !Orphan(Run(Init(), steps + more), c) {
      NoOrphans(steps + more, c);
    }
    assert Finished(steps, more);
  }

  // ------------------------------------------------- a retry that leaves an orphan

  lemma ParentStays(s: State, a: Step, c: TaskId)
    requires c < |s.tasks|
    ensures c < |Next(s, a).tasks| && Next(s, a).tasks[c].parent == s.tasks[c].parent
  {
    if IsVerdictStep(a) { VerdictTasks(s, a); } else { OtherTasks(s, a, c); }
  }

  lemma RowStays(s: State, a: Step, p: TaskId)
    requires Inv(s) && HasVerdict(s.log, p)
    ensures HasVerdict(Next(s, a).log, p)
  {
    if IsVerdictStep(a) {
      VerdictRowsOfVictim(s, a, p);
    } else {
      assert VerdictOk(s, p);
      VerdictOther(s, a, p);
    }
  }

  lemma VerdictStays(s: State, a: Step, p: TaskId, c: TaskId)
    requires Inv(s) && HasVerdict(s.log, p) && c < |s.tasks| && s.tasks[c].parent == Some(p)
    ensures HasVerdict(Next(s, a).log, p) && c < |Next(s, a).tasks| && Next(s, a).tasks[c].parent == Some(p)
  {
    ParentStays(s, a, c);
    RowStays(s, a, p);
  }

  lemma {:induction false} VerdictStaysInRun(s: State, steps: seq<Step>, p: TaskId, c: TaskId)
    requires Inv(s) && HasVerdict(s.log, p) && c < |s.tasks| && s.tasks[c].parent == Some(p)
    ensures var s' := Run(s, steps); HasVerdict(s'.log, p) && c < |s'.tasks| && s'.tasks[c].parent == Some(p)
    decreases |steps|
  {
    if steps != [] {
      VerdictStays(s, steps[0], p, c);
      InvStep(s, steps[0]);
      VerdictStaysInRun(Next(s, steps[0]), steps[1..], p, c);
    }
  }

  lemma ChildOfCancelled()
    ensures var s := Run(Init(), [Submit(None, true), Submit(Some(0), true), Cancel(0)]);
      HasVerdict(s.log, 0) && |s.tasks| == 2 && s.tasks[1].parent == Some(0) && LiveTask(s, 1)
  {
    var s2 := SubmitStep(SubmitStep(Init(), None, true), Some(0), true);
    RunSnoc(Init(), [], Submit(None, true));
    RunSnoc(Init(), [Submit(None, true)], Submit(Some(0), true));
    RunSnoc(Init(), [Submit(None, true), Submit(Some(0), true)], Cancel(0));
    assert [] + [Submit(None, true)] == [Submit(None, true)];
    assert [Submit(None, true)] + [Submit(Some(0), true)] == [Submit(None, true), Submit(Some(0), true)];
    assert [Submit(None, true), Submit(Some(0), true)] + [Cancel(0)] == [Submit(None, true), Submit(Some(0), true), Cancel(0)];
    assert LiveTask(s2, 0);
    VerdictTasks(s2, Cancel(0));
    VerdictRowsOfVictim(s2, Cancel(0), 0);
  }

  lemma CrashForgets(s: State, c: TaskId)
    ensures var s' := Next(s, Crash);
      s'.owed == {} && s'.todo == {} && (Orphan(s', c) <==> Orphan(s, c))
  {}

  /** A crash between the verdict of a parent and its child snapshot: the run that submits
      a task and a subagent, cancels the task and crashes ends quiet with a live orphan. */
  lemma CrashLeavesOrphan()
    ensures var s := Run(Init(), [Submit(None, true), Submit(Some(0), true), Cancel(0)] + [Crash]);
      s.owed == {} && s.todo == {} && Orphan(s, 1)
  {
    ChildOfCancelled();
    RunSnoc(Init(), [Submit(None, true), Submit(Some(0), true), Cancel(0)], Crash);
    CrashForgets(Run(Init(), [Submit(None, true), Submit(Some(0), true), Cancel(0)]), 1);
  }

  /** A run that cancels a parent, lets the cascade finish, and then retries the
      cancelled child ends with nothing pursued and a live orphan. */
  lemma RetryLeavesOrphan()
    ensures exists steps, c: TaskId :: Run(Init(), steps).owed == {} && Run(Init(), steps).todo == {} && Orphan(Run(Init(), steps), c)
  {
    var start := [Submit(None, true), Submit(Some(0), true), Cancel(0)];
    var s := Run(Init(), start);
    ChildOfCancelled();
    InvInit();
    InvRun(Init(), start);
    var more := Drain(s);
    VerdictStaysInRun(s, more, 0, 1);
    InvRun(s, more);
    RetriedOrphan(Run(s, more), 0, 1);
    RunAppend(Init(), start, more);
    RunSnoc(Init(), start + more, Retry(1));
    assert Orphan(Run(Init(), start + more + [Retry(1)]), |Run(s, more).tasks|);
  }

  /** Retrying a child of a parent with a verdict adds a live orphan and owes nothing. */
  lemma RetriedOrphan(s: State, p: TaskId, c: TaskId)
    requires Inv(s) && HasVerdict(s.log, p) && c < |s.tasks| && s.tasks[c].parent == Some(p)
    ensures Orphan(Next(s, Retry(c)), |s.tasks|)
    ensures Next(s, Retry(c)).owed == s.owed && Next(s, Retry(c)).todo == s.todo
  {
    VerdictStays(s, Retry(c), p, c);
    assert Next(s, Retry(c)) == RetryStep(s, c);
  }
}
