/** The lifecycle functions of packages/runtime/src/agent.ts as they are written: state
    updated in place, loops over the collections. Each callback is proved to be one
    step of `Lifecycle.Next`, so every theorem about runs is a theorem about them. */
module LifecycleRuntime {
  import opened Common
  import opened Lifecycle
  import opened LifecycleInvariants
  import opened LifecycleSafety
  import opened LifecycleTheorems
  import opened LifecycleCascade

  class Runtime {
    var tasks: seq<Task>
    var auths: seq<Auth>
    var setups: seq<Setup>
    var registry: map<Claim, Entry>
    var exec: map<Claim, Phase>
    var nextAuto: nat
    var owed: set<TaskId>
    var todo: set<TaskId>
    var log: seq<Event>

    ghost function Abs(): State
      reads this
    {
      State(tasks, auths, setups, registry, exec, nextAuto, owed, todo, log)
    }

    constructor ()
      ensures Abs() == Init()
    {
      tasks, auths, setups, registry, exec := [], [], [], map[], map[];
      nextAuto, owed, todo, log := 0, {}, {}, [];
    }

    /** Deny every pending authorization and cancel every pending setup request of a task. */
    method CancelPendingTaskApprovals(t: TaskId, reason: Reason)
      modifies this`auths, this`setups, this`log
      ensures Abs() == Teardown(old(Abs()), t, reason)
    {
      CancelPendingTaskAuths(t, reason);
      CancelPendingTaskSetups(t, reason);
      assert old(log) + TornAuthRows(old(auths), t, reason) + TornSetupRows(old(setups), t, reason)
          == old(log) + (TornAuthRows(old(auths), t, reason) + TornSetupRows(old(setups), t, reason));
    }

    method CancelPendingTaskAuths(t: TaskId, reason: Reason)
      modifies this`auths, this`log
      ensures auths == TornAuths(old(auths), t)
      ensures log == old(log) + TornAuthRows(old(auths), t, reason)
    {
      assert auths[..|auths|] == auths;
      for i := |auths| downto 0
        invariant |auths| == |old(auths)|
        invariant forall g :: 0 <= g < i ==> auths[g] == old(auths)[g]
        invariant forall g :: i <= g < |auths| ==> auths[g] == TornAuths(old(auths), t)[g]
        invariant log + TornAuthRows(old(auths)[..i], t, reason) == old(log) + TornAuthRows(old(auths), t, reason)
      {
        assert old(auths)[..i + 1][..i] == old(auths)[..i];
        if auths[i].task == Some(t) && auths[i].status.AuthPending? {
          auths := auths[i := auths[i].(status := Denied)];
          log := log + [AuthTorn(i, reason)];
        }
      }
    }

    method CancelPendingTaskSetups(t: TaskId, reason: Reason)
      modifies this`setups, this`log
      ensures setups == TornSetups(old(setups), t)
      ensures log == old(log) + TornSetupRows(old(setups), t, reason)
    {
      assert setups[..|setups|] == setups;
      for i := |setups| downto 0
        invariant |setups| == |old(setups)|
        invariant forall q :: 0 <= q < i ==> setups[q] == old(setups)[q]
        invariant forall q :: i <= q < |setups| ==> setups[q] == TornSetups(old(setups), t)[q]
        invariant log + TornSetupRows(old(setups)[..i], t, reason) == old(log) + TornSetupRows(old(setups), t, reason)
      {
        assert old(setups)[..i + 1][..i] == old(setups)[..i];
        if setups[i].task == Some(t) && setups[i].status.SetupPending? {
          setups := setups[i := setups[i].(status := SetupCancelled)];
          log := log + [SetupTorn(i, reason)];
        }
      }
    }

    /** Abort every registered action of the task that is not aborted yet. */
    method AbortApprovalsForTask(t: TaskId) returns (aborted: set<Claim>)
      modifies this`registry
      ensures registry == AbortedRegistry(old(registry), t)
      ensures aborted == ToAbort(old(registry), t)
    {
      aborted := {};
      var rest := registry.Keys;
      while rest != {}
        invariant rest <= registry.Keys == old(registry).Keys
        invariant forall c :: c in rest ==> registry[c] == old(registry)[c]
        invariant forall c :: c in registry && c !in rest ==> registry[c] == AbortedRegistry(old(registry), t)[c]
        invariant aborted == ToAbort(old(registry), t) - rest
        decreases |rest|
      {
        var c :| c in rest;
        if registry[c].task == Some(t) && !registry[c].aborted {
          registry := registry[c := registry[c].(aborted := true)];
          aborted := aborted + {c};
        }
        rest := rest - {c};
      }
    }

    method RecordInFlightAborted(t: TaskId, reason: Reason)
      modifies this`registry, this`log
      ensures Abs() == AbortFanOut(old(Abs()), t, reason)
    {
      var aborted := AbortApprovalsForTask(t);
      if aborted != {} {
        log := log + [InFlightAborted(t, aborted, reason)];
      }
    }

    method SubmitTask(parent: Option<TaskId>, chat: bool) returns (r: Result<TaskId>)
      modifies this
      ensures Abs() == Next(old(Abs()), Submit(parent, chat))
      ensures r.Err? <==> (parent.Some? && parent.value < |old(tasks)|
                           && (old(tasks)[parent.value].status.Cancelled? || old(tasks)[parent.value].status.Failed?))
      ensures r.Ok? ==> r.value == |old(tasks)|
    {
      if parent.Some? && parent.value < |tasks| {
        var status := tasks[parent.value].status;
        if status.Cancelled? || status.Failed? {
          return Err;
        }
      }
      r := Ok(|tasks|);
      log := log + [TaskSubmitted(|tasks|)];
      tasks := tasks + [Task(Queued, parent, chat)];
    }

    /** The in-lock part of cancelTask; `caller` is the self-cancel guard. */
    method CancelTask(t: TaskId, caller: Option<TaskId>) returns (didCancel: bool)
      modifies this
      ensures didCancel == (caller != Some(t) && LiveTask(old(Abs()), t))
      ensures Abs() == if caller == Some(t) then old(Abs()) else Next(old(Abs()), Cancel(t))
    {
      didCancel := false;
      if caller == Some(t) || t >= |tasks| || Terminal(tasks[t].status) {
        return;
      }
      didCancel := true;
      tasks := tasks[t := tasks[t].(status := Cancelled)];
      log := log + [TaskCancelled(t)];
      CancelPendingTaskApprovals(t, ByCancel);
      RecordInFlightAborted(t, ByCancel);
      owed := owed + {t};
    }

    method FailTask(t: TaskId)
      modifies this
      ensures Abs() == Next(old(Abs()), Fail(t))
    {
      if t >= |tasks| {
        return;
      }
      if !Terminal(tasks[t].status) {
        tasks := tasks[t := tasks[t].(status := Failed)];
        log := log + [TaskFailed(t)];
        RecordInFlightAborted(t, ByFailure);
      }
      if tasks[t].status.Failed? {
        owed := owed + {t};
      }
    }

    /** The shared tail of a denial and of a setup cancellation that is not resumable. */
    method FailGateOwner(owner: Option<TaskId>)
      modifies this
      ensures Abs() == FailOwner(old(Abs()), owner)
    {
      if owner.None? {
        return;
      }
      var t := owner.value;
      CancelPendingTaskApprovals(t, BySibling);
      if t < |tasks| && !Terminal(tasks[t].status) {
        tasks := tasks[t := tasks[t].(status := Failed)];
        log := log + [TaskFailed(t)];
        RecordInFlightAborted(t, BySibling);
        owed := owed + {t};
      }
    }

    method DecideApproval(g: nat, approve: bool) returns (ok: bool)
      modifies this
      ensures ok == (g < |old(auths)| && old(auths)[g].status.AuthPending?)
      ensures Abs() == Next(old(Abs()), if approve then Approve(g) else Deny(g))
    {
      ok := g < |auths| && auths[g].status.AuthPending?;
      if !ok {
        return;
      }
      if approve {
        auths := auths[g := auths[g].(status := Approved)];
        log := log + [AuthApproved(g)];
        exec := exec[Gate(g) := Scheduled];
      } else {
        var owner := auths[g].task;
        auths := auths[g := auths[g].(status := Denied)];
        log := log + [AuthDenied(g)];
        FailGateOwner(owner);
      }
    }

    method ResolveSetupRequest(q: nat, complete: bool) returns (ok: bool)
      modifies this
      ensures ok == (q < |old(setups)| && old(setups)[q].status.SetupPending?)
      ensures Abs() == Next(old(Abs()), if complete then CompleteSetup(q) else CancelSetup(q))
    {
      ok := q < |setups| && setups[q].status.SetupPending?;
      if !ok {
        return;
      }
      var item := setups[q];
      setups := setups[q := item.(status := if complete then SetupCompleted else SetupCancelled)];
      log := log + [if complete then SetupDone(q) else SetupDropped(q)];
      if complete || item.task.None? {
        return;
      }
      var t := item.task.value;
      if item.resumable && t < |tasks| && !Terminal(tasks[t].status) {
        return;
      }
      FailGateOwner(item.task);
    }

    /** The guard of executeApprovedAction: refuse a terminal task or claim, in one callback. */
    method GuardApprovedAction(g: nat) returns (claimed: bool)
      requires Inv(Abs())
      requires Gate(g) in exec && exec[Gate(g)] == Scheduled
      modifies this
      ensures Abs() == Next(old(Abs()), Guard(g))
      ensures claimed <==> Gate(g) in registry
      ensures claimed ==> Gate(g) !in old(registry)
    {
      assert ExecOk(Abs(), Gate(g));
      var owner := auths[g].task;
      if owner.Some? && owner.value < |tasks| && Terminal(tasks[owner.value].status) {
        if auths[g].status.Approved? {
          auths := auths[g := auths[g].(status := Denied)];
          log := log + [AuthTaskTerminal(g)];
        }
        exec := exec - {Gate(g)};
        return false;
      }
      registry := registry[Gate(g) := Entry(owner, false)];
      exec := exec[Gate(g) := Claimed];
      claimed := true;
    }

    /** The callback of file.write and file.patch: abort check, effect and completion. */
    method PerformFileAction(g: nat) returns (aborted: bool)
      requires g < |auths| && auths[g].kind.FileAction?
      requires Gate(g) in exec && exec[Gate(g)] == Claimed && Gate(g) in registry
      modifies this
      ensures Abs() == Next(old(Abs()), Perform(Gate(g)))
      ensures aborted == old(registry)[Gate(g)].aborted
      ensures tasks == if !aborted && LiveImperativeOwner(old(Abs()), g)
                       then old(tasks)[old(registry)[Gate(g)].task.value := old(tasks)[old(registry)[Gate(g)].task.value].(status := Completed)]
                       else old(tasks)
    {
      aborted := registry[Gate(g)].aborted;
      exec := exec[Gate(g) := Settled];
      if aborted {
        log := log + [EffectAborted(Gate(g))];
        return;
      }
      var owner := registry[Gate(g)].task;
      log := log + [Effect(Gate(g), owner)];
      if owner.Some? && !auths[g].chat && owner.value < |tasks| && !Terminal(tasks[owner.value].status) {
        tasks := tasks[owner.value := tasks[owner.value].(status := Completed)];
      }
    }

    /** cancelTask run to its end without interleaving: flip, snapshot, and every child in
        turn. The recursion ends because each flip takes one live task away. */
    method CancelTaskTree(t: TaskId, asChild: bool)
      requires Good(Abs()) && (asChild ==> t in todo)
      modifies this
      ensures Good(Abs()) && Settles(old(tasks), tasks)
      ensures owed <= old(owed) && todo <= old(todo) && (asChild ==> t !in todo)
      ensures t < |tasks| ==> Terminal(tasks[t].status)
      decreases LiveCount(tasks), 0
    {
      var didCancel := CancelOne(t, asChild);
      if didCancel { CancelDescendantTasks(t); }
    }

    method CancelOne(t: TaskId, asChild: bool) returns (didCancel: bool)
      requires Good(Abs()) && (asChild ==> t in todo)
      modifies this
      ensures Good(Abs()) && Settles(old(tasks), tasks) && (t < |tasks| ==> Terminal(tasks[t].status))
      ensures todo == if asChild then old(todo) - {t} else old(todo)
      ensures owed == if didCancel then old(owed) + {t} else old(owed)
      ensures didCancel ==> LiveCount(tasks) < LiveCount(old(tasks))
    {
      CancelStepGood(Abs(), t, asChild);
      didCancel := CancelTask(t, None);
      if asChild { todo := todo - {t}; }
      assert Abs() == CancelAs(old(Abs()), t, asChild);
    }

    method CancelDescendantTasks(t: TaskId)
      requires Good(Abs()) && t in owed
      modifies this
      ensures Good(Abs()) && Settles(old(tasks), tasks)
      ensures owed <= old(owed) - {t} && todo <= old(todo)
      decreases LiveCount(tasks), 1
    {
      SnapshotGood(Abs(), t);
      var children := set c: TaskId | c < |tasks| && tasks[c].parent == Some(t) && !Terminal(tasks[c].status);
      owed := owed - {t};
      todo := todo + children;
      while children != {}
        invariant Good(Abs()) && Settles(old(tasks), tasks)
        invariant owed <= old(owed) - {t} && todo <= old(todo) + children
        decreases |children|
      {
        var c :| c in children;
        CancelTaskTree(c, c in todo);
        children := children - {c};
      }
    }

    /** Stop pressed with no cascade in progress: afterwards the task is terminal and no
        live task is left under a verdict. */
    method StopTask(t: TaskId)
      requires Good(Abs()) && owed == {} && todo == {}
      modifies this
      ensures Good(Abs()) && owed == {} && todo == {}
      ensures t < |tasks| ==> Terminal(tasks[t].status)
      ensures forall c: TaskId :: !Orphan(Abs(), c)
    {
      CancelTaskTree(t, false);
      assert forall c: TaskId :: !Pursued(Abs(), c);
    }
  }

  /** The registered owner of the gate's action is live, and the gate has no tool-call id. */
  predicate LiveImperativeOwner(s: State, g: nat) {
    g < |s.auths| && !s.auths[g].chat && Gate(g) in s.registry && s.registry[Gate(g)].task.Some?
    && LiveTask(s, s.registry[Gate(g)].task.value)
  }

  ghost predicate Good(s: State) {
    Inv(s) && CascadeOk(s)
  }

  /** No task is added or revived, terminal tasks are frozen. */
  predicate Settles(before: seq<Task>, after: seq<Task>) {
    && |after| == |before|
    && LiveCount(after) <= LiveCount(before)
    && (forall u :: 0 <= u < |before| && Terminal(before[u].status) ==> after[u] == before[u])
  }

  lemma SnapshotGood(s: State, t: TaskId)
    requires Good(s) && t in s.owed
    ensures Good(s.(owed := s.owed - {t}, todo := s.todo + LiveChildren(s, t)))
  {
    InvStep(s, Snapshot(t));
    CascadeOther(s, Snapshot(t));
  }

  function CancelAs(s: State, t: TaskId, asChild: bool): State {
    CancelNow(s, t).(todo := if asChild then s.todo - {t} else s.todo)
  }

  lemma CancelAsIsStep(s: State, t: TaskId, asChild: bool)
    requires Good(s) && (asChild ==> t in s.todo)
    ensures Good(CancelAs(s, t, asChild)) && CancelNow(s, t).todo == s.todo
  {
    var a := if asChild then CancelChild(t) else Cancel(t);
    InvStep(s, a);
    CascadeVerdict(s, a);
    assert Next(s, a) == CancelAs(s, t, asChild);
  }

  lemma CancelStepGood(s: State, t: TaskId, asChild: bool)
    requires Good(s) && (asChild ==> t in s.todo)
    ensures Good(CancelAs(s, t, asChild)) && CancelNow(s, t).todo == s.todo
    ensures Settles(s.tasks, CancelNow(s, t).tasks)
    ensures t < |s.tasks| ==> Terminal(CancelNow(s, t).tasks[t].status)
    ensures if LiveTask(s, t)
            then LiveCount(CancelNow(s, t).tasks) < LiveCount(s.tasks) && CancelNow(s, t).owed == s.owed + {t}
            else CancelNow(s, t).owed == s.owed
  {
    CancelAsIsStep(s, t, asChild);
    if LiveTask(s, t) {
      assert CancelNow(s, t).tasks == s.tasks[t := s.tasks[t].(status := Cancelled)];
      LiveCountDrops(s.tasks, t, Cancelled);
    }
  }
}
