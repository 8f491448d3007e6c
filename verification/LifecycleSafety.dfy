/** Verdicts, executors and cascades of the lifecycle protocol: the invariants, and
    the theorems about every run that follow from them. */
module LifecycleSafety {
  import opened Common
  import opened Lifecycle
  import opened LifecycleInvariants

  // ------------------------------------------------- two shapes of composite steps

  predicate IsApproved(s: State, g: nat) {
    g < |s.auths| && s.auths[g].status.Approved?
  }

  /** `s'` extends the history of `s` and keeps every gate's owner and approval. */
  ghost predicate Grows(s: State, s': State) {
    && s.log <= s'.log
    && |s'.auths| == |s.auths|
    && (forall g :: 0 <= g < |s.auths| ==> s'.auths[g].task == s.auths[g].task)
    && (forall g: nat :: IsApproved(s', g) <==> IsApproved(s, g))
    && (forall j :: |s.log| <= j < |s'.log| ==> !s'.log[j].Effect?)
    && s'.exec == s.exec && s'.nextAuto == s.nextAuto && s'.todo == s.todo
  }

  /** Only gate rows are added; tasks and the registry are untouched. */
  ghost predicate Quiet(s: State, s': State) {
    && Grows(s, s')
    && s'.tasks == s.tasks && s'.registry == s.registry && s'.owed == s.owed
    && (forall u :: Count(s'.log, TaskCancelled(u)) == Count(s.log, TaskCancelled(u)))
    && (forall u :: Count(s'.log, TaskFailed(u)) == Count(s.log, TaskFailed(u)))
  }

  /** A live task receives its verdict: status, row, abort and owed cascade together. */
  ghost predicate Flips(s: State, s': State, t: TaskId, status: Status) {
    && LiveTask(s, t) && (status.Cancelled? || status.Failed?)
    && Grows(s, s')
    && s'.tasks == s.tasks[t := s.tasks[t].(status := status)]
    && s'.registry == AbortedRegistry(s.registry, t)
    && s'.owed == s.owed + {t}
    && (forall u :: Count(s'.log, TaskCancelled(u)) ==
          Count(s.log, TaskCancelled(u)) + (if u == t && status.Cancelled? then 1 else 0))
    && (forall u :: Count(s'.log, TaskFailed(u)) ==
          Count(s.log, TaskFailed(u)) + (if u == t && status.Failed? then 1 else 0))
  }

  lemma TeardownQuiet(s: State, t: TaskId, r: Reason)
    ensures Quiet(s, Teardown(s, t, r))
  {
    var s' := Teardown(s, t, r);
    TeardownRowsKind(s, t, r);
    assert s'.log == s.log + TeardownRows(s, t, r);
    forall j | |s.log| <= j < |s'.log| ensures !s'.log[j].Effect? {
      assert s'.log[j] in TeardownRows(s, t, r);
    }
    forall u ensures Count(s'.log, TaskCancelled(u)) == Count(s.log, TaskCancelled(u)) {
      TeardownRowsExact(s, t, r, TaskCancelled(u));
    }
    forall u ensures Count(s'.log, TaskFailed(u)) == Count(s.log, TaskFailed(u)) {
      TeardownRowsExact(s, t, r, TaskFailed(u));
    }
  }

  /** Fanning an abort out writes no task row and no effect. */
  lemma AbortRowsQuiet(registry: map<Claim, Entry>, t: TaskId, r: Reason)
    ensures forall u :: Count(AbortRows(registry, t, r), TaskCancelled(u)) == 0
    ensures forall u :: Count(AbortRows(registry, t, r), TaskFailed(u)) == 0
    ensures forall j :: 0 <= j < |AbortRows(registry, t, r)| ==> !AbortRows(registry, t, r)[j].Effect?
  {}

  lemma FailNowFlips(s: State, t: TaskId, r: Reason)
    requires LiveTask(s, t)
    ensures Flips(s, FailNow(s, t, r), t, Failed)
  {
    var rows := AbortRows(s.registry, t, r);
    AbortRowsQuiet(s.registry, t, r);
    assert FailNow(s, t, r).log == s.log + [TaskFailed(t)] + rows;
  }

  lemma CancelNowFlips(s: State, t: TaskId)
    requires LiveTask(s, t)
    ensures Flips(s, CancelNow(s, t), t, Cancelled)
  {
    var v := Verdict(s, t, Cancelled, TaskCancelled(t));
    var torn := Teardown(v, t, ByCancel);
    var rows := AbortRows(s.registry, t, ByCancel);
    TeardownQuiet(v, t, ByCancel);
    AbortRowsQuiet(s.registry, t, ByCancel);
    FlipFromParts(s, v, torn, CancelNow(s, t), rows, t);
  }

  /** A verdict row, then a quiet step, then an abort, make one flip. */
  lemma FlipFromParts(s: State, v: State, torn: State, s': State, rows: seq<Event>, t: TaskId)
    requires LiveTask(s, t) && v == Verdict(s, t, Cancelled, TaskCancelled(t)) && Quiet(v, torn)
    requires s' == torn.(registry := AbortedRegistry(s.registry, t), log := torn.log + rows)
    requires forall u :: Count(rows, TaskCancelled(u)) == 0
    requires forall u :: Count(rows, TaskFailed(u)) == 0
    requires forall j :: 0 <= j < |rows| ==> !rows[j].Effect?
    ensures Flips(s, s', t, Cancelled)
  {
    assert v.log <= torn.log <= s'.log;
    forall g: nat ensures IsApproved(s', g) <==> IsApproved(s, g) {
      assert IsApproved(torn, g) <==> IsApproved(v, g);
    }
    forall u ensures Count(s'.log, TaskCancelled(u)) == Count(s.log, TaskCancelled(u)) + (if u == t then 1 else 0) {
      assert Count(torn.log, TaskCancelled(u)) == Count(v.log, TaskCancelled(u));
      assert Count(rows, TaskCancelled(u)) == 0;
    }
    forall u ensures Count(s'.log, TaskFailed(u)) == Count(s.log, TaskFailed(u)) {
      assert Count(torn.log, TaskFailed(u)) == Count(v.log, TaskFailed(u));
      assert Count(rows, TaskFailed(u)) == 0;
    }
  }

  /** The middle state of a denial or setup cancellation: gate rows only. */
  function Before(s: State, a: Step): State {
    match a
    case Deny(g) =>
      if g < |s.auths| && s.auths[g].status.AuthPending? then
        var d := s.(auths := s.auths[g := s.auths[g].(status := Denied)], log := s.log + [AuthDenied(g)]);
        if s.auths[g].task.Some? then Teardown(d, s.auths[g].task.value, BySibling) else d
      else s
    case CancelSetup(q) =>
      if q < |s.setups| && s.setups[q].status.SetupPending? then
        var d := s.(setups := s.setups[q := s.setups[q].(status := SetupCancelled)], log := s.log + [SetupDropped(q)]);
        if s.setups[q].task.Some? && !(s.setups[q].resumable && LiveTask(s, s.setups[q].task.value))
        then Teardown(d, s.setups[q].task.value, BySibling) else d
      else s
    case _ => s
  }

  /** The task a step gives a verdict to, if any. */
  function Victim(s: State, a: Step): Option<TaskId> {
    match a
    case Cancel(t) => if LiveTask(s, t) then Some(t) else None
    case CancelChild(t) => if t in s.todo && LiveTask(s, t) then Some(t) else None
    case Fail(t) => if LiveTask(s, t) then Some(t) else None
    case Deny(g) =>
      if g < |s.auths| && s.auths[g].status.AuthPending? && s.auths[g].task.Some? && LiveTask(s, s.auths[g].task.value)
      then s.auths[g].task else None
    case CancelSetup(q) =>
      if q < |s.setups| && s.setups[q].status.SetupPending? && s.setups[q].task.Some?
         && !s.setups[q].resumable && LiveTask(s, s.setups[q].task.value)
      then s.setups[q].task else None
    case _ => None
  }

  lemma DenyRowQuiet(s: State, g: nat)
    requires g < |s.auths| && s.auths[g].status.AuthPending?
    ensures Quiet(s, s.(auths := s.auths[g := s.auths[g].(status := Denied)], log := s.log + [AuthDenied(g)]))
  {}

  lemma DropRowQuiet(s: State, q: nat)
    requires q < |s.setups| && s.setups[q].status.SetupPending?
    ensures Quiet(s, s.(setups := s.setups[q := s.setups[q].(status := SetupCancelled)], log := s.log + [SetupDropped(q)]))
  {}

  lemma ThenTeardownQuiet(s: State, d: State, owner: Option<TaskId>)
    requires Quiet(s, d)
    ensures owner.Some? ==> Quiet(s, Teardown(d, owner.value, BySibling))
  {
    if owner.Some? {
      TeardownQuiet(d, owner.value, BySibling);
      QuietTransitive(s, d, Teardown(d, owner.value, BySibling));
    }
  }

  lemma BeforeQuiet(s: State, a: Step)
    ensures Quiet(s, Before(s, a))
  {
    match a
    case Deny(g) =>
      if g < |s.auths| && s.auths[g].status.AuthPending? {
        DenyRowQuiet(s, g);
        ThenTeardownQuiet(s, s.(auths := s.auths[g := s.auths[g].(status := Denied)], log := s.log + [AuthDenied(g)]),
                          s.auths[g].task);
      }
    case CancelSetup(q) =>
      if q < |s.setups| && s.setups[q].status.SetupPending? {
        DropRowQuiet(s, q);
        ThenTeardownQuiet(s, s.(setups := s.setups[q := s.setups[q].(status := SetupCancelled)], log := s.log + [SetupDropped(q)]),
                          s.setups[q].task);
      }
    case _ =>
  }

  lemma QuietTransitive(a: State, b: State, c: State)
    requires Quiet(a, b) && Quiet(b, c)
    ensures Quiet(a, c)
  {
    assert a.log <= c.log;
    forall g: nat ensures IsApproved(c, g) <==> IsApproved(a, g) {
      assert IsApproved(c, g) <==> IsApproved(b, g);
    }
    forall u ensures Count(c.log, TaskCancelled(u)) == Count(a.log, TaskCancelled(u)) {
      assert Count(b.log, TaskCancelled(u)) == Count(a.log, TaskCancelled(u));
    }
    forall u ensures Count(c.log, TaskFailed(u)) == Count(a.log, TaskFailed(u)) {
      assert Count(b.log, TaskFailed(u)) == Count(a.log, TaskFailed(u));
    }
    forall j | |a.log| <= j < |c.log| ensures !c.log[j].Effect? {
      if j < |b.log| { assert c.log[j] == b.log[j]; }
    }
  }

  function VerdictStatus(a: Step): Status {
    if a.Cancel? || a.CancelChild? then Cancelled else Failed
  }

  predicate IsVerdictStep(a: Step) {
    a.Cancel? || a.CancelChild? || a.Fail? || a.Deny? || a.CancelSetup?
  }

  /** The step as its two halves: gate rows first, then the verdict of the victim. */
  lemma VerdictSplit(s: State, a: Step)
    requires IsVerdictStep(a)
    ensures Victim(s, a).Some? ==>
      Next(s, a).(todo := s.todo) ==
        if a.Cancel? || a.CancelChild? then CancelNow(Before(s, a), Victim(s, a).value)
        else FailNow(Before(s, a), Victim(s, a).value, if a.Fail? then ByFailure else BySibling)
    ensures Victim(s, a).Some? ==> LiveTask(Before(s, a), Victim(s, a).value)
    ensures Victim(s, a).None? ==> Next(s, a).(owed := s.owed, todo := s.todo) == Before(s, a)
  {}

  /** A verdict-giving step is a quiet prefix, then (for a victim) one flip, up to the
      cascade bookkeeping. */
  lemma VerdictShape(s: State, a: Step)
    requires IsVerdictStep(a)
    ensures Quiet(s, Before(s, a))
    ensures Victim(s, a).Some? ==>
      Flips(Before(s, a), Next(s, a).(todo := s.todo), Victim(s, a).value, VerdictStatus(a))
    ensures Victim(s, a).None? ==> Next(s, a).(owed := s.owed, todo := s.todo) == Before(s, a)
  {
    BeforeQuiet(s, a);
    VerdictSplit(s, a);
    if Victim(s, a).Some? {
      var t := Victim(s, a).value;
      if a.Cancel? || a.CancelChild? {
        CancelNowFlips(Before(s, a), t);
      } else {
        FailNowFlips(Before(s, a), t, if a.Fail? then ByFailure else BySibling);
      }
    }
  }

  // ------------------------------------------------------------- invariants

  /** The task's status and its verdict rows agree; there is at most one such row. */
  ghost predicate VerdictOk(s: State, t: TaskId) {
    && Count(s.log, TaskCancelled(t)) == (if t < |s.tasks| && s.tasks[t].status.Cancelled? then 1 else 0)
    && Count(s.log, TaskFailed(t)) <= (if t < |s.tasks| && s.tasks[t].status.Failed? then 1 else 0)
  }

  /** A registered action is aborted exactly when its task has a verdict row. */
  ghost predicate AbortOk(s: State, c: Claim) {
    c in s.registry ==>
      (s.registry[c].aborted <==> s.registry[c].task.Some? && HasVerdict(s.log, s.registry[c].task.value))
  }

  ghost predicate Started(log: seq<Event>, c: Claim) {
    exists i :: 0 <= i < |log| && log[i].Effect? && log[i].claim == c
  }

  ghost predicate ExecOk(s: State, c: Claim) {
    && (c in s.registry <==> c in s.exec && !s.exec[c].Scheduled?)
    && (c in s.exec && s.exec[c].Scheduled? ==> c.Gate? && IsApproved(s, c.gate))
    && (c in s.exec && (s.exec[c].Scheduled? || s.exec[c].Claimed?) ==> !Started(s.log, c))
    && (c in s.registry && c.Gate? ==> IsApproved(s, c.gate) && s.registry[c].task == s.auths[c.gate].task)
    && (c.Auto? && (c in s.exec || Started(s.log, c)) ==> c.n < s.nextAuto)
    && (c.Gate? && Started(s.log, c) ==> IsApproved(s, c.gate))
  }

  /** `later` is a side effect of the task that `earlier` gave its verdict to. */
  predicate Clash(earlier: Event, later: Event) {
    later.Effect? && later.owner.Some?
    && (earlier == TaskCancelled(later.owner.value) || earlier == TaskFailed(later.owner.value))
  }

  predicate Twice(earlier: Event, later: Event) {
    earlier.Effect? && later.Effect? && earlier.claim == later.claim
  }

  ghost predicate HistoryOk(log: seq<Event>) {
    && (forall i, j :: 0 <= i < j < |log| ==> !Clash(log[i], log[j]))
    && (forall i, j :: 0 <= i < j < |log| ==> !Twice(log[i], log[j]))
  }

  ghost predicate Inv(s: State) {
    && GatesOk(s)
    && (forall t: TaskId :: VerdictOk(s, t))
    && (forall c :: AbortOk(s, c))
    && (forall c :: ExecOk(s, c))
    && HistoryOk(s.log)
  }

  lemma StartedGrows(s: State, s': State)
    requires Grows(s, s')
    ensures forall c :: Started(s'.log, c) <==> Started(s.log, c)
  {
    forall c ensures Started(s'.log, c) <==> Started(s.log, c) {
      if Started(s.log, c) {
        var i :| 0 <= i < |s.log| && s.log[i].Effect? && s.log[i].claim == c;
        assert s'.log[i] == s.log[i];
      }
      if Started(s'.log, c) {
        var i :| 0 <= i < |s'.log| && s'.log[i].Effect? && s'.log[i].claim == c;
        assert i < |s.log| && s.log[i] == s'.log[i];
      }
    }
  }

  lemma HistoryGrows(s: State, s': State)
    requires Grows(s, s') && HistoryOk(s.log)
    ensures HistoryOk(s'.log)
  {
    forall i, j | 0 <= i < j < |s'.log| ensures !Clash(s'.log[i], s'.log[j]) && !Twice(s'.log[i], s'.log[j]) {
      if j < |s.log| {
        assert s'.log[i] == s.log[i] && s'.log[j] == s.log[j];
      }
    }
  }

  lemma QuietKeeps(s: State, s': State)
    requires Inv(s) && Quiet(s, s') && GatesOk(s')
    ensures Inv(s')
  {
    StartedGrows(s, s');
    HistoryGrows(s, s');
    forall t: TaskId ensures VerdictOk(s', t) { assert VerdictOk(s, t); }
    forall c ensures AbortOk(s', c) {
      assert AbortOk(s, c);
    }
    forall c ensures ExecOk(s', c) { assert ExecOk(s, c); }
  }

  lemma FlipsKeeps(s: State, s': State, t: TaskId, status: Status)
    requires Inv(s) && Flips(s, s', t, status) && GatesOk(s')
    ensures Inv(s')
  {
    StartedGrows(s, s');
    HistoryGrows(s, s');
    forall u: TaskId ensures VerdictOk(s', u) { assert VerdictOk(s, u); }
    forall c ensures AbortOk(s', c) {
      assert AbortOk(s, c);
    }
    forall c ensures ExecOk(s', c) { assert ExecOk(s, c); }
  }

  lemma GatesIgnoreCascade(s: State, owed: set<TaskId>, todo: set<TaskId>)
    requires GatesOk(s)
    ensures GatesOk(s.(owed := owed, todo := todo))
  {
    GatesFrame(s, s.(owed := owed, todo := todo), []);
  }

  lemma InvIgnoresCascade(s: State, owed: set<TaskId>, todo: set<TaskId>)
    requires Inv(s)
    ensures Inv(s.(owed := owed, todo := todo))
  {
    GatesIgnoreCascade(s, owed, todo);
    var s' := s.(owed := owed, todo := todo);
    forall t: TaskId ensures VerdictOk(s', t) { assert VerdictOk(s, t); }
    forall c ensures AbortOk(s', c) { assert AbortOk(s, c); }
    forall c ensures ExecOk(s', c) { assert ExecOk(s, c); }
  }

  lemma GatesBefore(s: State, a: Step)
    requires GatesOk(s)
    ensures GatesOk(Before(s, a))
  {
    match a
    case Deny(g) =>
      if g < |s.auths| && s.auths[g].status.AuthPending? {
        var d := s.(auths := s.auths[g := s.auths[g].(status := Denied)], log := s.log + [AuthDenied(g)]);
        AuthMove(s, d, g, Denied, AuthDenied(g));
        if s.auths[g].task.Some? { GatesTeardown(d, s.auths[g].task.value, BySibling); }
      }
    case CancelSetup(q) =>
      if q < |s.setups| && s.setups[q].status.SetupPending? {
        var d := s.(setups := s.setups[q := s.setups[q].(status := SetupCancelled)], log := s.log + [SetupDropped(q)]);
        SetupMove(s, d, q, SetupCancelled, SetupDropped(q));
        if s.setups[q].task.Some? { GatesTeardown(d, s.setups[q].task.value, BySibling); }
      }
    case _ =>
  }

  lemma InvVerdict(s: State, a: Step)
    requires Inv(s) && IsVerdictStep(a)
    ensures Inv(Next(s, a))
  {
    VerdictShape(s, a);
    GatesBefore(s, a);
    GatesStep(s, a);
    var b := Before(s, a);
    var s' := Next(s, a);
    QuietKeeps(s, b);
    if Victim(s, a).Some? {
      var f := s'.(todo := s.todo);
      GatesIgnoreCascade(s', f.owed, f.todo);
      FlipsKeeps(b, f, Victim(s, a).value, VerdictStatus(a));
      InvIgnoresCascade(f, s'.owed, s'.todo);
      assert s' == f.(owed := s'.owed, todo := s'.todo);
    } else {
      InvIgnoresCascade(b, s'.owed, s'.todo);
      assert s' == b.(owed := s'.owed, todo := s'.todo);
    }
  }

  /** The row, if any, that a step without a verdict writes. */
  function RowOf(s: State, a: Step): seq<Event> {
    match a
    case Submit(_, _) => if Next(s, a) == s then [] else [TaskSubmitted(|s.tasks|)]
    case Retry(t) => if t < |s.tasks| then [TaskRetried(|s.tasks|)] else []
    case Approve(g) => if Next(s, a) == s then [] else [AuthApproved(g)]
    case CompleteSetup(q) => if Next(s, a) == s then [] else [SetupDone(q)]
    case Guard(g) => if Next(s, a).auths == s.auths then [] else [AuthTaskTerminal(g)]
    case Perform(c) =>
      if Next(s, a) == s then []
      else if s.registry[c].aborted then [EffectAborted(c)]
      else [Effect(c, s.registry[c].task)]
    case Finish(c, sawAbort, _) =>
      if c in s.exec && s.exec[c] == Spawned && c in s.registry && s.registry[c].aborted && sawAbort
      then [EffectAborted(c)] else []
    case _ => []
  }

  lemma RowExact(s: State, a: Step)
    requires !IsVerdictStep(a)
    ensures Next(s, a).log == s.log + RowOf(s, a)
  {}

  lemma StartedAppend(log: seq<Event>, rows: seq<Event>, c: Claim)
    ensures Started(log + rows, c) <==> Started(log, c) || Started(rows, c)
  {
    if Started(log, c) {
      var i :| 0 <= i < |log| && log[i].Effect? && log[i].claim == c;
      assert (log + rows)[i] == log[i];
    }
    if Started(rows, c) {
      var i :| 0 <= i < |rows| && rows[i].Effect? && rows[i].claim == c;
      assert (log + rows)[|log| + i] == rows[i];
    }
  }

  /** Why no effect follows a verdict: only an entry that is not aborted starts one. */
  lemma HistoryAppend(s: State, a: Step)
    requires Inv(s) && !IsVerdictStep(a)
    ensures HistoryOk(s.log + RowOf(s, a))
  {
    var log := s.log + RowOf(s, a);
    forall i, j | 0 <= i < j < |log| ensures !Clash(log[i], log[j]) && !Twice(log[i], log[j]) {
      if j == |s.log| && log[j].Effect? {
        var c := log[j].claim;
        assert AbortOk(s, c) && ExecOk(s, c);
        assert log[i] == s.log[i];
        assert s.log[i] in multiset(s.log);
      } else {
        assert j < |s.log| ==> log[i] == s.log[i] && log[j] == s.log[j];
      }
    }
  }

  predicate StatusIs(s: State, t: TaskId, status: Status) {
    t < |s.tasks| && s.tasks[t].status == status
  }

  /** Without a verdict, no task becomes cancelled, and terminal tasks stay as they are. */
  lemma TasksOther(s: State, a: Step, t: TaskId)
    requires !IsVerdictStep(a)
    ensures StatusIs(Next(s, a), t, Cancelled) <==> StatusIs(s, t, Cancelled)
    ensures t < |s.tasks| && Terminal(s.tasks[t].status) ==> StatusIs(Next(s, a), t, s.tasks[t].status)
  {}

  lemma RowNeutral(s: State, a: Step, t: TaskId)
    requires !IsVerdictStep(a)
    ensures Count(RowOf(s, a), TaskCancelled(t)) == 0 && Count(RowOf(s, a), TaskFailed(t)) == 0
  {}

  lemma VerdictOther(s: State, a: Step, t: TaskId)
    requires VerdictOk(s, t) && !IsVerdictStep(a)
    ensures VerdictOk(Next(s, a), t)
    ensures HasVerdict(Next(s, a).log, t) <==> HasVerdict(s.log, t)
  {
    RowExact(s, a);
    RowNeutral(s, a, t);
    TasksOther(s, a, t);
    assert Count(s.log + RowOf(s, a), TaskCancelled(t)) == Count(s.log, TaskCancelled(t));
    assert Count(s.log + RowOf(s, a), TaskFailed(t)) == Count(s.log, TaskFailed(t));
  }

  lemma AbortOther(s: State, a: Step, c: Claim)
    requires Inv(s) && !IsVerdictStep(a)
    ensures AbortOk(Next(s, a), c)
  {
    assert AbortOk(s, c);
    var s' := Next(s, a);
    if c in s'.registry && s'.registry[c].task.Some? {
      VerdictOther(s, a, s'.registry[c].task.value);
      assert VerdictOk(s, s'.registry[c].task.value);
    }
  }

  lemma ExecOther(s: State, a: Step, c: Claim)
    requires ExecOk(s, c) && !IsVerdictStep(a) && !a.Approve? && !a.Guard?
    ensures ExecOk(Next(s, a), c)
  {
    RowExact(s, a);
    StartedAppend(s.log, RowOf(s, a), c);
  }

  /** A pending or approved gate whose executor has not started has no effect row. */
  lemma ExecGate(s: State, a: Step, c: Claim)
    requires Inv(s) && (a.Approve? || a.Guard?)
    ensures ExecOk(Next(s, a), c)
  {
    assert ExecOk(s, c) && ExecOk(s, Gate(a.gate)) && AuthOk(s, a.gate);
    RowExact(s, a);
    StartedAppend(s.log, RowOf(s, a), c);
  }

  lemma InvOther(s: State, a: Step)
    requires Inv(s) && !IsVerdictStep(a)
    ensures Inv(Next(s, a))
  {
    var s' := Next(s, a);
    GatesStep(s, a);
    RowExact(s, a);
    HistoryAppend(s, a);
    forall t: TaskId ensures VerdictOk(s', t) { assert VerdictOk(s, t); VerdictOther(s, a, t); }
    forall c ensures AbortOk(s', c) { AbortOther(s, a, c); }
    forall c ensures ExecOk(s', c) {
      assert ExecOk(s, c);
      if a.Approve? || a.Guard? { ExecGate(s, a, c); } else { ExecOther(s, a, c); }
    }
  }

  /** Every step, from any state that satisfies the invariant, keeps it. */
  lemma InvStep(s: State, a: Step)
    requires Inv(s)
    ensures Inv(Next(s, a))
  {
    if IsVerdictStep(a) { InvVerdict(s, a); } else { InvOther(s, a); }
  }

  lemma {:induction false} InvRun(s: State, steps: seq<Step>)
    requires Inv(s)
    ensures Inv(Run(s, steps))
    decreases |steps|
  {
    if steps != [] {
      InvStep(s, steps[0]);
      InvRun(Next(s, steps[0]), steps[1..]);
    }
  }

  lemma InvInit()
    ensures Inv(Init())
  {}
}
