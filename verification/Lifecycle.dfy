/** The task, gate and executor protocol of packages/runtime/src/agent.ts.

    One step of `Next` is one `mutateState` callback (or one registry operation)
    under the per-instance lock; every `await` between two callbacks is a point
    where any other step may run. A run is therefore any sequence of steps.

    Tasks, authorizations and setup requests are named by their creation index.
    `log` is the history of audit rows, oldest first, before the ring-buffer cap. */
module Lifecycle {
  import opened Common

  type TaskId = nat

  datatype Status = Queued | Running | WaitingApproval | NeedsInput | Completed | Failed | Cancelled

  predicate Terminal(s: Status) {
    s.Completed? || s.Failed? || s.Cancelled?
  }

  /** Why a task's pending gates or running actions were torn down. */
  datatype Reason = ByCancel | ByFailure | BySibling

  /** `chat` is the mode: a chat task runs the tool loop, an imperative one calls a single
      tool and returns. */
  datatype Task = Task(status: Status, parent: Option<TaskId>, chat: bool)

  datatype AuthStatus = AuthPending | Approved | Denied

  /** `FileAction` checks the abort flag and writes under the lock (file.write,
      file.patch); `SpawnedAction` checks it and starts something that outlives
      the check (terminal.exec, browser.*, messaging.send, self.config). */
  datatype Kind = FileAction | SpawnedAction

  /** `chat` is true when the payload carries a tool-call id. */
  datatype Auth = Auth(task: Option<TaskId>, kind: Kind, chat: bool, status: AuthStatus)

  datatype SetupStatus = SetupPending | SetupCompleted | SetupCancelled

  /** `resumable`: cancelling feeds a negative result back instead of failing the
      task (connector.request, chat.choice, confirmation.request with a tool call). */
  datatype Setup = Setup(task: Option<TaskId>, resumable: bool, status: SetupStatus)

  /** A key of the in-flight registry: an authorization, or the synthetic id that
      an allowlisted terminal command claims for itself. */
  datatype Claim = Gate(gate: nat) | Auto(n: nat)

  datatype Entry = Entry(task: Option<TaskId>, aborted: bool)

  /** Where the executor of a claim stands in this process. */
  datatype Phase = Scheduled | Claimed | Spawned | Settled

  datatype Event =
    | TaskSubmitted(task: TaskId)
    | TaskRetried(task: TaskId)
    | TaskCancelled(task: TaskId)
    | TaskFailed(task: TaskId)
    | InFlightAborted(task: TaskId, claims: set<Claim>, reason: Reason)
    | AuthApproved(gate: nat)
    | AuthDenied(gate: nat)
    | AuthTorn(gate: nat, reason: Reason)
    | AuthTaskTerminal(gate: nat)
    | SetupDone(setup: nat)
    | SetupDropped(setup: nat)
    | SetupTorn(setup: nat, reason: Reason)
    | Effect(claim: Claim, owner: Option<TaskId>)
    | EffectAborted(claim: Claim)

  /** `owed` holds the tasks whose verdict has landed and whose child snapshot is
      still to come; `todo` the snapshotted children still to be cancelled. */
  datatype State = State(
    tasks: seq<Task>,
    auths: seq<Auth>,
    setups: seq<Setup>,
    registry: map<Claim, Entry>,
    exec: map<Claim, Phase>,
    nextAuto: nat,
    owed: set<TaskId>,
    todo: set<TaskId>,
    log: seq<Event>)

  function Init(): State {
    State([], [], [], map[], map[], 0, {}, {}, [])
  }

  datatype Step =
    | Submit(parent: Option<TaskId>, chat: bool)
    | Retry(task: TaskId)
    | Settle(task: TaskId, status: Status)
    | MintAuth(owner: Option<TaskId>, kind: Kind, chat: bool)
    | MintSetup(owner: Option<TaskId>, resumable: bool)
    | Cancel(task: TaskId)
    | Fail(task: TaskId)
    | Approve(gate: nat)
    | Deny(gate: nat)
    | CompleteSetup(setup: nat)
    | CancelSetup(setup: nat)
    | Guard(gate: nat)
    | AutoClaim(task: TaskId)
    | Perform(claim: Claim)
    | Finish(claim: Claim, sawAbort: bool, error: bool)
    | Release(claim: Claim)
    | Snapshot(task: TaskId)
    | CancelChild(task: TaskId)
    | Crash

  // ---------------------------------------------------------------- queries

  predicate LiveTask(s: State, t: TaskId) {
    t < |s.tasks| && !Terminal(s.tasks[t].status)
  }

  /** A cancelled or failed verdict of cancelTask, failTask, a denial or a setup
      cancellation has been recorded for the task. */
  predicate HasVerdict(log: seq<Event>, t: TaskId) {
    Count(log, TaskCancelled(t)) + Count(log, TaskFailed(t)) > 0
  }

  function Count(log: seq<Event>, e: Event): nat {
    multiset(log)[e]
  }

  predicate Torn(a: Option<TaskId>, pending: bool, t: TaskId) {
    a == Some(t) && pending
  }

  /** The rows cancelPendingTaskApprovals writes for authorizations, newest gate first. */
  function TornAuthRows(auths: seq<Auth>, t: TaskId, r: Reason): seq<Event> {
    if auths == [] then []
    else
      var g := |auths| - 1;
      (if Torn(auths[g].task, auths[g].status.AuthPending?, t) then [AuthTorn(g, r)] else [])
      + TornAuthRows(auths[..g], t, r)
  }

  function TornSetupRows(setups: seq<Setup>, t: TaskId, r: Reason): seq<Event> {
    if setups == [] then []
    else
      var q := |setups| - 1;
      (if Torn(setups[q].task, setups[q].status.SetupPending?, t) then [SetupTorn(q, r)] else [])
      + TornSetupRows(setups[..q], t, r)
  }

  function TornAuths(auths: seq<Auth>, t: TaskId): seq<Auth> {
    seq(|auths|, g requires 0 <= g < |auths| =>
      if Torn(auths[g].task, auths[g].status.AuthPending?, t) then auths[g].(status := Denied) else auths[g])
  }

  function TornSetups(setups: seq<Setup>, t: TaskId): seq<Setup> {
    seq(|setups|, q requires 0 <= q < |setups| =>
      if Torn(setups[q].task, setups[q].status.SetupPending?, t) then setups[q].(status := SetupCancelled) else setups[q])
  }

  function ToAbort(registry: map<Claim, Entry>, t: TaskId): set<Claim> {
    set c | c in registry && registry[c] == Entry(Some(t), false)
  }

  function AbortedRegistry(registry: map<Claim, Entry>, t: TaskId): map<Claim, Entry> {
    map c | c in registry :: if registry[c].task == Some(t) then registry[c].(aborted := true) else registry[c]
  }

  function LiveChildren(s: State, p: TaskId): set<TaskId> {
    set c: TaskId | c < |s.tasks| && s.tasks[c].parent == Some(p) && !Terminal(s.tasks[c].status)
  }

  // ------------------------------------------------- building blocks of steps

  function SetStatus(s: State, t: TaskId, status: Status): State
    requires t < |s.tasks|
  {
    s.(tasks := s.tasks[t := s.tasks[t].(status := status)])
  }

  function Write(s: State, rows: seq<Event>): State {
    s.(log := s.log + rows)
  }

  function Teardown(s: State, t: TaskId, r: Reason): State {
    s.(auths := TornAuths(s.auths, t),
       setups := TornSetups(s.setups, t),
       log := s.log + (TornAuthRows(s.auths, t, r) + TornSetupRows(s.setups, t, r)))
  }

  function AbortRows(registry: map<Claim, Entry>, t: TaskId, r: Reason): seq<Event> {
    if ToAbort(registry, t) == {} then [] else [InFlightAborted(t, ToAbort(registry, t), r)]
  }

  function AbortFanOut(s: State, t: TaskId, r: Reason): State {
    s.(registry := AbortedRegistry(s.registry, t), log := s.log + AbortRows(s.registry, t, r))
  }

  function Verdict(s: State, t: TaskId, status: Status, row: Event): State
    requires t < |s.tasks|
  {
    Write(SetStatus(s, t, status), [row]).(owed := s.owed + {t})
  }

  function FailNow(s: State, t: TaskId, r: Reason): State
    requires t < |s.tasks|
  {
    AbortFanOut(Verdict(s, t, Failed, TaskFailed(t)), t, r)
  }

  /** What a denial or a setup cancellation does to the task that owns the gate. */
  function FailOwner(s: State, owner: Option<TaskId>): State {
    match owner
    case None => s
    case Some(t) =>
      var torn := Teardown(s, t, BySibling);
      if LiveTask(s, t) then FailNow(torn, t, BySibling) else torn
  }

  function CancelNow(s: State, t: TaskId): State {
    if LiveTask(s, t)
    then AbortFanOut(Teardown(Verdict(s, t, Cancelled, TaskCancelled(t)), t, ByCancel), t, ByCancel)
    else s
  }

  /** completeApprovedTask: the verdict of an already terminal task is kept. */
  function CompleteApproved(s: State, owner: Option<TaskId>, chat: bool, error: bool): State {
    if owner.Some? && !chat && LiveTask(s, owner.value)
    then SetStatus(s, owner.value, if error then Failed else Completed)
    else s
  }

  function KindOf(s: State, c: Claim): Kind {
    match c
    case Gate(g) => if g < |s.auths| then s.auths[g].kind else SpawnedAction
    case Auto(_) => SpawnedAction
  }

  predicate ChatOf(s: State, c: Claim) {
    match c
    case Gate(g) => g < |s.auths| && s.auths[g].chat
    case Auto(_) => true
  }

  // ------------------------------------------------------------------ steps

  function SubmitStep(s: State, parent: Option<TaskId>, chat: bool): State {
    if parent.Some? && parent.value < |s.tasks|
       && (s.tasks[parent.value].status.Cancelled? || s.tasks[parent.value].status.Failed?)
    then s
    else s.(tasks := s.tasks + [Task(Queued, parent, chat)], log := s.log + [TaskSubmitted(|s.tasks|)])
  }

  /** retryTask keeps the parent but not the mode: the new task is imperative. */
  function RetryStep(s: State, t: TaskId): State {
    if t < |s.tasks|
    then s.(tasks := s.tasks + [Task(Queued, s.tasks[t].parent, false)], log := s.log + [TaskRetried(|s.tasks|)])
    else s
  }

  predicate HasGate(s: State, t: TaskId) {
    exists g :: 0 <= g < |s.auths| && s.auths[g].task == Some(t)
  }

  /** The loop of a task moves its status. runTask has returned by the time an imperative
      task waits on its gate: only the gate completes it then. */
  function SettleStep(s: State, t: TaskId, status: Status): State {
    if LiveTask(s, t) && !status.Cancelled? && (s.tasks[t].chat || !Terminal(status) || !HasGate(s, t))
    then SetStatus(s, t, status)
    else s
  }

  /** Tool dispatch mints the gates of a chat task, each with a tool-call id. The request
      helpers mint one gate, without an id, for a live imperative task, and park it. */
  function MintAuthStep(s: State, owner: Option<TaskId>, kind: Kind, chat: bool): State {
    var minted := s.(auths := s.auths + [Auth(owner, kind, chat, AuthPending)]);
    if owner.None? then minted
    else if owner.value >= |s.tasks| || s.tasks[owner.value].chat != chat then s
    else if chat then minted
    else if LiveTask(s, owner.value) && !HasGate(s, owner.value) then SetStatus(minted, owner.value, WaitingApproval)
    else s
  }

  function MintSetupStep(s: State, owner: Option<TaskId>, resumable: bool): State {
    if owner.Some? && owner.value >= |s.tasks| then s
    else s.(setups := s.setups + [Setup(owner, resumable, SetupPending)])
  }

  function FailStep(s: State, t: TaskId): State {
    if LiveTask(s, t) then FailNow(s, t, ByFailure)
    else if t < |s.tasks| && s.tasks[t].status.Failed? then s.(owed := s.owed + {t})
    else s
  }

  function ApproveStep(s: State, g: nat): State {
    if g < |s.auths| && s.auths[g].status.AuthPending?
    then s.(auths := s.auths[g := s.auths[g].(status := Approved)],
            exec := s.exec[Gate(g) := Scheduled],
            log := s.log + [AuthApproved(g)])
    else s
  }

  function DenyStep(s: State, g: nat): State {
    if g < |s.auths| && s.auths[g].status.AuthPending?
    then FailOwner(s.(auths := s.auths[g := s.auths[g].(status := Denied)], log := s.log + [AuthDenied(g)]),
                   s.auths[g].task)
    else s
  }

  function CompleteSetupStep(s: State, q: nat): State {
    if q < |s.setups| && s.setups[q].status.SetupPending?
    then s.(setups := s.setups[q := s.setups[q].(status := SetupCompleted)], log := s.log + [SetupDone(q)])
    else s
  }

  function CancelSetupStep(s: State, q: nat): State {
    if q < |s.setups| && s.setups[q].status.SetupPending? then
      var dropped := s.(setups := s.setups[q := s.setups[q].(status := SetupCancelled)], log := s.log + [SetupDropped(q)]);
      if s.setups[q].resumable && s.setups[q].task.Some? && LiveTask(s, s.setups[q].task.value)
      then dropped
      else FailOwner(dropped, s.setups[q].task)
    else s
  }

  /** executeApprovedAction's in-lock check: skip and deny, or claim. */
  function GuardStep(s: State, g: nat): State {
    if Gate(g) !in s.exec || s.exec[Gate(g)] != Scheduled || g >= |s.auths| then s
    else
      var owner := s.auths[g].task;
      if owner.Some? && owner.value < |s.tasks| && Terminal(s.tasks[owner.value].status) then
        if s.auths[g].status.Approved?
        then s.(exec := s.exec - {Gate(g)},
                auths := s.auths[g := s.auths[g].(status := Denied)],
                log := s.log + [AuthTaskTerminal(g)])
        else s.(exec := s.exec - {Gate(g)})
      else
        s.(exec := s.exec[Gate(g) := Claimed], registry := s.registry[Gate(g) := Entry(owner, false)])
  }

  /** An allowlisted terminal command of the chat loop claims without a gate. */
  function AutoClaimStep(s: State, t: TaskId): State {
    if LiveTask(s, t) && s.tasks[t].chat
    then s.(exec := s.exec[Auto(s.nextAuto) := Claimed],
            registry := s.registry[Auto(s.nextAuto) := Entry(Some(t), false)],
            nextAuto := s.nextAuto + 1)
    else s
  }

  /** The abort check together with the side effect it protects. */
  function PerformStep(s: State, c: Claim): State {
    if c !in s.exec || s.exec[c] != Claimed || c !in s.registry then s
    else if s.registry[c].aborted then
      s.(exec := s.exec[c := Settled], log := s.log + [EffectAborted(c)])
    else
      var done := s.(exec := s.exec[c := if KindOf(s, c).FileAction? then Settled else Spawned],
                     log := s.log + [Effect(c, s.registry[c].task)]);
      if KindOf(s, c).FileAction? then CompleteApproved(done, s.registry[c].task, ChatOf(s, c), false) else done
  }

  /** A started action ends. `sawAbort`: the abort won the race against its own end;
      an action that ended first is recorded as having run. */
  function FinishStep(s: State, c: Claim, sawAbort: bool, error: bool): State {
    if c !in s.exec || s.exec[c] != Spawned || c !in s.registry then s
    else if s.registry[c].aborted && sawAbort then
      s.(exec := s.exec[c := Settled], log := s.log + [EffectAborted(c)])
    else
      CompleteApproved(s.(exec := s.exec[c := Settled]), s.registry[c].task, ChatOf(s, c), error)
  }

  /** releaseApproval, on the normal path or from the `finally` of a throw. */
  function ReleaseStep(s: State, c: Claim): State {
    if c in s.registry then s.(registry := s.registry - {c}, exec := s.exec - {c}) else s
  }

  function SnapshotStep(s: State, t: TaskId): State {
    if t in s.owed then s.(owed := s.owed - {t}, todo := s.todo + LiveChildren(s, t)) else s
  }

  function CancelChildStep(s: State, t: TaskId): State {
    if t in s.todo then CancelNow(s, t).(todo := s.todo - {t}) else s
  }

  function Next(s: State, a: Step): State {
    match a
    case Submit(parent, chat) => SubmitStep(s, parent, chat)
    case Retry(t) => RetryStep(s, t)
    case Settle(t, status) => SettleStep(s, t, status)
    case MintAuth(owner, kind, chat) => MintAuthStep(s, owner, kind, chat)
    case MintSetup(owner, resumable) => MintSetupStep(s, owner, resumable)
    case Cancel(t) => CancelNow(s, t)
    case Fail(t) => FailStep(s, t)
    case Approve(g) => ApproveStep(s, g)
    case Deny(g) => DenyStep(s, g)
    case CompleteSetup(q) => CompleteSetupStep(s, q)
    case CancelSetup(q) => CancelSetupStep(s, q)
    case Guard(g) => GuardStep(s, g)
    case AutoClaim(t) => AutoClaimStep(s, t)
    case Perform(c) => PerformStep(s, c)
    case Finish(c, sawAbort, error) => FinishStep(s, c, sawAbort, error)
    case Release(c) => ReleaseStep(s, c)
    case Snapshot(t) => SnapshotStep(s, t)
    case CancelChild(t) => CancelChildStep(s, t)
    case Crash => s.(registry := map[], exec := map[], owed := {}, todo := {})
  }

  function Run(s: State, steps: seq<Step>): State
    decreases |steps|
  {
    if steps == [] then s else Run(Next(s, steps[0]), steps[1..])
  }
}
