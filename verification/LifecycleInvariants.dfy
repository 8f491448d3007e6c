/** What every step of the lifecycle protocol keeps, one family of facts at a time. */
module LifecycleInvariants {
  import opened Common
  import opened Lifecycle

  // ------------------------------------------------------------ row lemmas

  function AuthTornCount(auths: seq<Auth>, t: TaskId, r: Reason, e: Event): nat {
    if e.AuthTorn? && e.reason == r && e.gate < |auths|
       && Torn(auths[e.gate].task, auths[e.gate].status.AuthPending?, t) then 1 else 0
  }

  function SetupTornCount(setups: seq<Setup>, t: TaskId, r: Reason, e: Event): nat {
    if e.SetupTorn? && e.reason == r && e.setup < |setups|
       && Torn(setups[e.setup].task, setups[e.setup].status.SetupPending?, t) then 1 else 0
  }

  /** Teardown writes exactly one row for each pending authorization of the task. */
  lemma {:induction false} TornAuthRowsExact(auths: seq<Auth>, t: TaskId, r: Reason, e: Event)
    ensures Count(TornAuthRows(auths, t, r), e) == AuthTornCount(auths, t, r, e)
  {
    if auths != [] {
      var last := |auths| - 1;
      var head: seq<Event> :=
        if Torn(auths[last].task, auths[last].status.AuthPending?, t) then [AuthTorn(last, r)] else [];
      TornAuthRowsExact(auths[..last], t, r, e);
      assert Count(TornAuthRows(auths, t, r), e) == Count(head, e) + Count(TornAuthRows(auths[..last], t, r), e);
    }
  }

  /** ... and exactly one for each of its pending setup requests. */
  lemma {:induction false} TornSetupRowsExact(setups: seq<Setup>, t: TaskId, r: Reason, e: Event)
    ensures Count(TornSetupRows(setups, t, r), e) == SetupTornCount(setups, t, r, e)
  {
    if setups != [] {
      var last := |setups| - 1;
      var head: seq<Event> :=
        if Torn(setups[last].task, setups[last].status.SetupPending?, t) then [SetupTorn(last, r)] else [];
      TornSetupRowsExact(setups[..last], t, r, e);
      assert Count(TornSetupRows(setups, t, r), e) == Count(head, e) + Count(TornSetupRows(setups[..last], t, r), e);
    }
  }

  function TeardownRows(s: State, t: TaskId, r: Reason): seq<Event> {
    TornAuthRows(s.auths, t, r) + TornSetupRows(s.setups, t, r)
  }

  lemma TeardownRowsExact(s: State, t: TaskId, r: Reason, e: Event)
    ensures Count(TeardownRows(s, t, r), e) == AuthTornCount(s.auths, t, r, e) + SetupTornCount(s.setups, t, r, e)
  {
    TornAuthRowsExact(s.auths, t, r, e);
    TornSetupRowsExact(s.setups, t, r, e);
  }

  lemma TeardownRowsKind(s: State, t: TaskId, r: Reason)
    ensures forall e :: e in TeardownRows(s, t, r) ==> e.AuthTorn? || e.SetupTorn?
  {
    forall e | e in TeardownRows(s, t, r) ensures e.AuthTorn? || e.SetupTorn? {
      TeardownRowsExact(s, t, r, e);
      assert e in multiset(TeardownRows(s, t, r));
    }
  }

  // --------------------------------------------------- 1. gate decisions

  /** How many decision rows (approve, deny, teardown) name the authorization. */
  function AuthDecisions(log: seq<Event>, g: nat): nat {
    Count(log, AuthApproved(g)) + Count(log, AuthDenied(g))
    + Count(log, AuthTorn(g, ByCancel)) + Count(log, AuthTorn(g, ByFailure)) + Count(log, AuthTorn(g, BySibling))
  }

  function SetupDecisions(log: seq<Event>, q: nat): nat {
    Count(log, SetupDone(q)) + Count(log, SetupDropped(q))
    + Count(log, SetupTorn(q, ByCancel)) + Count(log, SetupTorn(q, ByFailure)) + Count(log, SetupTorn(q, BySibling))
  }

  /** The status the audit history alone assigns to an authorization. */
  function AuthStatusOf(log: seq<Event>, g: nat): AuthStatus {
    if AuthDecisions(log, g) == 0 then AuthPending
    else if Count(log, AuthApproved(g)) > Count(log, AuthTaskTerminal(g)) then Approved
    else Denied
  }

  function SetupStatusOf(log: seq<Event>, q: nat): SetupStatus {
    if SetupDecisions(log, q) == 0 then SetupPending
    else if Count(log, SetupDone(q)) > 0 then SetupCompleted
    else SetupCancelled
  }

  function AuthStatusAt(s: State, g: nat): AuthStatus {
    if g < |s.auths| then s.auths[g].status else AuthPending
  }

  function SetupStatusAt(s: State, q: nat): SetupStatus {
    if q < |s.setups| then s.setups[q].status else SetupPending
  }

  ghost predicate AuthOk(s: State, g: nat) {
    && AuthDecisions(s.log, g) <= 1
    && Count(s.log, AuthTaskTerminal(g)) <= Count(s.log, AuthApproved(g))
    && AuthStatusAt(s, g) == AuthStatusOf(s.log, g)
  }

  ghost predicate SetupOk(s: State, q: nat) {
    SetupDecisions(s.log, q) <= 1 && SetupStatusAt(s, q) == SetupStatusOf(s.log, q)
  }

  ghost predicate GatesOk(s: State) {
    && (forall g: nat :: AuthOk(s, g))
    && (forall q: nat :: SetupOk(s, q))
  }

  predicate GateRow(e: Event) {
    e.AuthApproved? || e.AuthDenied? || e.AuthTorn? || e.AuthTaskTerminal?
    || e.SetupDone? || e.SetupDropped? || e.SetupTorn?
  }

  ghost predicate NoGateRows(rows: seq<Event>) {
    forall e :: GateRow(e) ==> Count(rows, e) == 0
  }

  lemma GateCountsKept(log: seq<Event>, rows: seq<Event>)
    requires NoGateRows(rows)
    ensures forall e :: GateRow(e) ==> Count(log + rows, e) == Count(log, e)
  {
    forall e | GateRow(e) ensures Count(log + rows, e) == Count(log, e) {
      assert Count(rows, e) == 0;
    }
  }

  lemma GatesFrame(s: State, s': State, rows: seq<Event>)
    requires GatesOk(s) && s'.log == s.log + rows && NoGateRows(rows)
    requires forall g: nat :: AuthStatusAt(s', g) == AuthStatusAt(s, g)
    requires forall q: nat :: SetupStatusAt(s', q) == SetupStatusAt(s, q)
    ensures GatesOk(s')
  {
    GateCountsKept(s.log, rows);
    forall g: nat ensures AuthOk(s', g) {
      assert AuthOk(s, g);
    }
    forall q: nat ensures SetupOk(s', q) {
      assert SetupOk(s, q);
    }
  }

  /** One authorization leaves its status together with its row. */
  lemma AuthMove(s: State, s': State, g: nat, status: AuthStatus, row: Event)
    requires GatesOk(s) && g < |s.auths|
    requires s'.auths == s.auths[g := s.auths[g].(status := status)] && s'.setups == s.setups
    requires s'.log == s.log + [row]
    requires if s.auths[g].status.AuthPending?
             then (row == AuthApproved(g) && status.Approved?) || (row == AuthDenied(g) && status.Denied?)
             else s.auths[g].status.Approved? && row == AuthTaskTerminal(g) && status.Denied?
    ensures GatesOk(s')
  {
    forall h: nat ensures AuthOk(s', h) {
      assert AuthOk(s, h);
    }
    forall q: nat ensures SetupOk(s', q) {
      assert SetupOk(s, q);
    }
  }

  lemma SetupMove(s: State, s': State, q: nat, status: SetupStatus, row: Event)
    requires GatesOk(s) && q < |s.setups| && s.setups[q].status.SetupPending?
    requires s'.setups == s.setups[q := s.setups[q].(status := status)] && s'.auths == s.auths
    requires s'.log == s.log + [row]
    requires (row == SetupDone(q) && status.SetupCompleted?) || (row == SetupDropped(q) && status.SetupCancelled?)
    ensures GatesOk(s')
  {
    forall g: nat ensures AuthOk(s', g) {
      assert AuthOk(s, g);
    }
    forall p: nat ensures SetupOk(s', p) {
      assert SetupOk(s, p);
    }
  }

  lemma AuthTeardown(s: State, t: TaskId, r: Reason, g: nat)
    requires AuthOk(s, g)
    ensures AuthOk(Teardown(s, t, r), g)
  {
    TeardownRowsExact(s, t, r, AuthApproved(g));
    TeardownRowsExact(s, t, r, AuthDenied(g));
    TeardownRowsExact(s, t, r, AuthTaskTerminal(g));
    TeardownRowsExact(s, t, r, AuthTorn(g, ByCancel));
    TeardownRowsExact(s, t, r, AuthTorn(g, ByFailure));
    TeardownRowsExact(s, t, r, AuthTorn(g, BySibling));
  }

  lemma SetupTeardown(s: State, t: TaskId, r: Reason, q: nat)
    requires SetupOk(s, q)
    ensures SetupOk(Teardown(s, t, r), q)
  {
    TeardownRowsExact(s, t, r, SetupDone(q));
    TeardownRowsExact(s, t, r, SetupDropped(q));
    TeardownRowsExact(s, t, r, SetupTorn(q, ByCancel));
    TeardownRowsExact(s, t, r, SetupTorn(q, ByFailure));
    TeardownRowsExact(s, t, r, SetupTorn(q, BySibling));
  }

  lemma GatesTeardown(s: State, t: TaskId, r: Reason)
    requires GatesOk(s)
    ensures GatesOk(Teardown(s, t, r))
  {
    forall g: nat ensures AuthOk(Teardown(s, t, r), g) {
      AuthTeardown(s, t, r, g);
    }
    forall q: nat ensures SetupOk(Teardown(s, t, r), q) {
      SetupTeardown(s, t, r, q);
    }
  }

  lemma GatesFailNow(s: State, t: TaskId, r: Reason)
    requires GatesOk(s) && t < |s.tasks|
    ensures GatesOk(FailNow(s, t, r))
  {
    var v := Verdict(s, t, Failed, TaskFailed(t));
    GatesFrame(s, v, [TaskFailed(t)]);
    GatesFrame(v, FailNow(s, t, r), AbortRows(v.registry, t, r));
  }

  lemma GatesFailOwner(s: State, owner: Option<TaskId>)
    requires GatesOk(s)
    ensures GatesOk(FailOwner(s, owner))
  {
    if owner.Some? {
      GatesTeardown(s, owner.value, BySibling);
      if LiveTask(s, owner.value) {
        GatesFailNow(Teardown(s, owner.value, BySibling), owner.value, BySibling);
      }
    }
  }

  lemma GatesCancelNow(s: State, t: TaskId)
    requires GatesOk(s)
    ensures GatesOk(CancelNow(s, t))
  {
    if LiveTask(s, t) {
      var v := Verdict(s, t, Cancelled, TaskCancelled(t));
      GatesFrame(s, v, [TaskCancelled(t)]);
      GatesTeardown(v, t, ByCancel);
      var torn := Teardown(v, t, ByCancel);
      GatesFrame(torn, AbortFanOut(torn, t, ByCancel), AbortRows(torn.registry, t, ByCancel));
    }
  }

  lemma GatesDecide(s: State, a: Step)
    requires GatesOk(s)
    requires a.Approve? || a.Deny? || a.CompleteSetup? || a.CancelSetup? || a.Guard?
    ensures GatesOk(Next(s, a))
  {
    var s' := Next(s, a);
    match a
    case Approve(g) =>
      if s' != s { AuthMove(s, s', g, Approved, AuthApproved(g)); }
    case Deny(g) =>
      if s' != s {
        var d := s.(auths := s.auths[g := s.auths[g].(status := Denied)], log := s.log + [AuthDenied(g)]);
        AuthMove(s, d, g, Denied, AuthDenied(g));
        GatesFailOwner(d, s.auths[g].task);
      }
    case CompleteSetup(q) =>
      if s' != s { SetupMove(s, s', q, SetupCompleted, SetupDone(q)); }
    case CancelSetup(q) =>
      if s' != s {
        var d := s.(setups := s.setups[q := s.setups[q].(status := SetupCancelled)], log := s.log + [SetupDropped(q)]);
        SetupMove(s, d, q, SetupCancelled, SetupDropped(q));
        GatesFailOwner(d, s.setups[q].task);
      }
    case Guard(g) =>
      if |s'.log| > |s.log| {
        AuthMove(s, s', g, Denied, AuthTaskTerminal(g));
      } else {
        GatesFrame(s, s', []);
      }
  }

  lemma GatesVerdict(s: State, a: Step)
    requires GatesOk(s)
    requires a.Cancel? || a.CancelChild? || a.Fail?
    ensures GatesOk(Next(s, a))
  {
    var s' := Next(s, a);
    match a
    case Cancel(t) => GatesCancelNow(s, t);
    case CancelChild(t) =>
      if t in s.todo {
        GatesCancelNow(s, t);
        GatesFrame(CancelNow(s, t), s', []);
      }
    case Fail(t) =>
      if LiveTask(s, t) { GatesFailNow(s, t, ByFailure); } else { GatesFrame(s, s', []); }
  }

  lemma GatesOther(s: State, a: Step, row: Event)
    requires GatesOk(s) && !GateRow(row)
    requires Next(s, a).log == s.log || Next(s, a).log == s.log + [row]
    requires forall g: nat :: AuthStatusAt(Next(s, a), g) == AuthStatusAt(s, g)
    requires forall q: nat :: SetupStatusAt(Next(s, a), q) == SetupStatusAt(s, q)
    ensures GatesOk(Next(s, a))
  {
    if Next(s, a).log == s.log {
      GatesFrame(s, Next(s, a), []);
    } else {
      GatesFrame(s, Next(s, a), [row]);
    }
  }

  /** Every step keeps each gate's status equal to what its audit rows say. */
  lemma GatesStep(s: State, a: Step)
    requires GatesOk(s)
    ensures GatesOk(Next(s, a))
  {
    if a.Approve? || a.Deny? || a.CompleteSetup? || a.CancelSetup? || a.Guard? {
      GatesDecide(s, a);
    } else if a.Cancel? || a.CancelChild? || a.Fail? {
      GatesVerdict(s, a);
    } else if a.Perform? && a.claim in s.registry && s.registry[a.claim].aborted {
      GatesOther(s, a, EffectAborted(a.claim));
    } else if a.Perform? && a.claim in s.registry {
      GatesOther(s, a, Effect(a.claim, s.registry[a.claim].task));
    } else if a.Finish? {
      GatesOther(s, a, EffectAborted(a.claim));
    } else if a.Submit? {
      GatesOther(s, a, TaskSubmitted(|s.tasks|));
    } else if a.Retry? {
      GatesOther(s, a, TaskRetried(|s.tasks|));
    } else {
      GatesFrame(s, Next(s, a), []);
    }
  }
}
