/** Side effects after any terminal status, completion included: one gate per imperative
    task, and exactly when an action of a task can still take effect after its end. */
module LifecycleTerminal {
  import opened Common
  import opened Lifecycle
  import opened LifecycleInvariants
  import opened LifecycleSafety
  import opened LifecycleTheorems

  // ------------------------------------------------------- modes and gates

  /** A gate belongs to a task of its own mode, and an imperative task has only one. */
  predicate GateModeOk(s: State, g: nat) {
    g < |s.auths| && s.auths[g].task.Some? ==>
      s.auths[g].task.value < |s.tasks| && s.tasks[s.auths[g].task.value].chat == s.auths[g].chat
  }

  predicate OnlyGate(s: State, g: nat, h: nat) {
    g < |s.auths| && h < |s.auths| && s.auths[g].task.Some? && !s.auths[g].chat && s.auths[h].task == s.auths[g].task ==>
      g == h
  }

  /** Only a chat task claims without a gate. */
  predicate AutoOk(s: State, c: Claim) {
    c in s.registry && c.Auto? ==>
      s.registry[c].task.Some? && s.registry[c].task.value < |s.tasks| && s.tasks[s.registry[c].task.value].chat
  }

  predicate SetupOwnerOk(s: State, q: nat) {
    q < |s.setups| && s.setups[q].task.Some? ==> s.setups[q].task.value < |s.tasks|
  }

  ghost predicate ModesOk(s: State) {
    && (forall q: nat :: SetupOwnerOk(s, q))
    && (forall g: nat :: GateModeOk(s, g))
    && (forall g: nat, h: nat :: OnlyGate(s, g, h))
    && (forall c :: AutoOk(s, c))
  }

  /** Tasks keep their mode, gates their owner and mode, entries their owner. */
  predicate TasksKept(s: State, s': State) {
    && |s.tasks| <= |s'.tasks|
    && (forall t :: 0 <= t < |s.tasks| ==> s'.tasks[t].chat == s.tasks[t].chat)
  }

  predicate GatesKept(s: State, s': State) {
    && |s'.auths| == |s.auths|
    && (forall g :: 0 <= g < |s.auths| ==> s'.auths[g].task == s.auths[g].task && s'.auths[g].chat == s.auths[g].chat)
  }

  predicate SetupsKept(s: State, s': State) {
    |s'.setups| == |s.setups| && forall q :: 0 <= q < |s.setups| ==> s'.setups[q].task == s.setups[q].task
  }

  predicate AutosKept(s: State, s': State) {
    forall c :: c in s'.registry && c.Auto? ==> c in s.registry && s'.registry[c].task == s.registry[c].task
  }

  ghost predicate ModesKept(s: State, s': State) {
    TasksKept(s, s') && GatesKept(s, s') && SetupsKept(s, s') && AutosKept(s, s')
  }

  lemma ModesFrame(s: State, s': State)
    requires ModesOk(s) && ModesKept(s, s')
    ensures ModesOk(s')
  {
    forall q: nat ensures SetupOwnerOk(s', q) { assert SetupOwnerOk(s, q); }
    forall g: nat ensures GateModeOk(s', g) { assert GateModeOk(s, g); }
    forall g: nat, h: nat ensures OnlyGate(s', g, h) { assert OnlyGate(s, g, h); }
    forall c ensures AutoOk(s', c) { assert AutoOk(s, c); }
  }

  lemma TeardownKeeps(s: State, t: TaskId, r: Reason)
    ensures ModesKept(s, Teardown(s, t, r))
  {}

  lemma FailNowKeeps(s: State, t: TaskId, r: Reason)
    requires t < |s.tasks|
    ensures ModesKept(s, FailNow(s, t, r))
  {}

  lemma FailOwnerKeeps(s: State, owner: Option<TaskId>)
    ensures ModesKept(s, FailOwner(s, owner))
  {
    if owner.Some? {
      TeardownKeeps(s, owner.value, BySibling);
      if LiveTask(s, owner.value) { FailNowKeeps(Teardown(s, owner.value, BySibling), owner.value, BySibling); }
    }
  }

  lemma CancelNowKeeps(s: State, t: TaskId)
    ensures ModesKept(s, CancelNow(s, t))
  {}

  lemma VerdictKeeps(s: State, a: Step)
    requires IsVerdictStep(a)
    ensures ModesKept(s, Next(s, a))
  {
    match a
    case Cancel(t) => CancelNowKeeps(s, t);
    case CancelChild(t) => CancelNowKeeps(s, t);
    case Fail(t) => if LiveTask(s, t) { FailNowKeeps(s, t, ByFailure); }
    case Deny(g) =>
      if g < |s.auths| && s.auths[g].status.AuthPending? {
        FailOwnerKeeps(s.(auths := s.auths[g := s.auths[g].(status := Denied)], log := s.log + [AuthDenied(g)]),
                       s.auths[g].task);
      }
    case CancelSetup(q) =>
      if q < |s.setups| && s.setups[q].status.SetupPending? {
        FailOwnerKeeps(s.(setups := s.setups[q := s.setups[q].(status := SetupCancelled)], log := s.log + [SetupDropped(q)]),
                       s.setups[q].task);
      }
    case _ =>
  }

  /** Only a mint adds a gate and only the chat loop's own command claims without one. */
  lemma OtherKeeps(s: State, a: Step)
    requires !IsVerdictStep(a) && !a.MintAuth? && !a.MintSetup? && !a.AutoClaim?
    ensures ModesKept(s, Next(s, a))
  {}

  lemma MintModes(s: State, a: Step)
    requires ModesOk(s) && (a.MintAuth? || a.MintSetup?)
    ensures ModesOk(Next(s, a))
  {
    var s' := Next(s, a);
    forall q: nat ensures SetupOwnerOk(s', q) { assert SetupOwnerOk(s, q); }
    forall g: nat ensures GateModeOk(s', g) { assert GateModeOk(s, g); }
    forall g: nat, h: nat ensures OnlyGate(s', g, h) { assert OnlyGate(s, g, h) && GateModeOk(s, g) && GateModeOk(s, h); }
    forall c ensures AutoOk(s', c) { assert AutoOk(s, c); }
  }

  lemma AutoModes(s: State, t: TaskId)
    requires ModesOk(s)
    ensures ModesOk(Next(s, AutoClaim(t)))
  {
    var s' := Next(s, AutoClaim(t));
    forall q: nat ensures SetupOwnerOk(s', q) { assert SetupOwnerOk(s, q); }
    forall g: nat ensures GateModeOk(s', g) { assert GateModeOk(s, g); }
    forall g: nat, h: nat ensures OnlyGate(s', g, h) { assert OnlyGate(s, g, h); }
    forall c ensures AutoOk(s', c) { assert AutoOk(s, c); }
  }

  lemma ModesStep(s: State, a: Step)
    requires ModesOk(s)
    ensures ModesOk(Next(s, a))
  {
    if IsVerdictStep(a) { VerdictKeeps(s, a); ModesFrame(s, Next(s, a)); }
    else if a.MintAuth? || a.MintSetup? { MintModes(s, a); }
    else if a.AutoClaim? { AutoModes(s, a.task); }
    else { OtherKeeps(s, a); ModesFrame(s, Next(s, a)); }
  }

  lemma {:induction false} ModesRun(s: State, steps: seq<Step>)
    requires ModesOk(s)
    ensures ModesOk(Run(s, steps))
    decreases |steps|
  {
    if steps != [] {
      ModesStep(s, steps[0]);
      ModesRun(Next(s, steps[0]), steps[1..]);
    }
  }

  /** In every run an imperative task has at most one authorization in total. */
  lemma OneImperativeGate(steps: seq<Step>, g: nat, h: nat)
    requires var s := Run(Init(), steps); g < |s.auths| && h < |s.auths|
    requires var s := Run(Init(), steps); s.auths[g].task.Some? && s.auths[h].task == s.auths[g].task && g != h
    ensures var s := Run(Init(), steps);
      s.auths[g].task.value < |s.tasks| && s.tasks[s.auths[g].task.value].chat && s.auths[g].chat && s.auths[h].chat
  {
    ModesRun(Init(), steps);
    var s := Run(Init(), steps);
    assert GateModeOk(s, g) && GateModeOk(s, h) && OnlyGate(s, g, h);
  }

  // ------------------------------------------------ effects after the end

  /** An executor of the task has passed its guard, has not acted yet and is not aborted. */
  predicate Acting(s: State, c: Claim, t: TaskId) {
    c in s.exec && s.exec[c] == Claimed && c in s.registry && s.registry[c] == Entry(Some(t), false)
  }

  predicate Ended(s: State, t: TaskId) {
    t < |s.tasks| && Terminal(s.tasks[t].status)
  }

  /** If the executor of `c` runs now, a side effect of the ended task `t` is recorded. */
  predicate LandsLate(s: State, c: Claim, t: TaskId) {
    Ended(s, t) && Next(s, Perform(c)).log == s.log + [Effect(c, Some(t))]
  }

  ghost predicate Timely(s: State, t: TaskId) {
    forall c :: !LandsLate(s, c, t)
  }

  lemma LandsIffActing(s: State, c: Claim, t: TaskId)
    ensures LandsLate(s, c, t) <==> Ended(s, t) && Acting(s, c, t)
  {
    var rows := RowOf(s, Perform(c));
    RowExact(s, Perform(c));
    if Next(s, Perform(c)).log == s.log + [Effect(c, Some(t))] {
      assert (s.log + rows)[|s.log|..] == rows && (s.log + [Effect(c, Some(t))])[|s.log|..] == [Effect(c, Some(t))];
    }
  }

  /** The loop of a live chat task ends it while one of its actions is past its guard. */
  ghost predicate Interrupts(s: State, a: Step, t: TaskId) {
    && a.Settle? && a.task == t && (a.status.Completed? || a.status.Failed?)
    && LiveTask(s, t) && s.tasks[t].chat
    && exists c :: Acting(s, c, t)
  }

  lemma TimelyMeans(s: State, t: TaskId)
    ensures Timely(s, t) <==> forall c :: Acting(s, c, t) ==> !Ended(s, t)
  {
    forall c ensures LandsLate(s, c, t) <==> Ended(s, t) && Acting(s, c, t) { LandsIffActing(s, c, t); }
  }

  /** A verdict ends its victim and aborts its actions in the same step. */
  lemma TimelyVerdict(s: State, a: Step, t: TaskId, c: Claim)
    requires IsVerdictStep(a) && (Acting(s, c, t) ==> !Ended(s, t)) && Acting(Next(s, a), c, t)
    ensures !Ended(Next(s, a), t)
  {
    VerdictTasks(s, a);
    VerdictShape(s, a);
    var b, s' := Before(s, a), Next(s, a);
    if Victim(s, a).Some? {
      assert s'.(todo := s.todo).registry == s'.registry && s'.(todo := s.todo).exec == s'.exec;
      assert s'.registry == AbortedRegistry(s.registry, Victim(s, a).value);
      assert s'.registry[c] == s.registry[c];
    }
  }

  /** The completion at the end of an imperative action finds no other action of the task. */
  lemma TimelyComplete(s: State, a: Step, t: TaskId, c: Claim)
    requires Inv(s) && ModesOk(s) && (a.Perform? || a.Finish?)
    requires (Acting(s, c, t) ==> !Ended(s, t)) && Acting(Next(s, a), c, t)
    ensures !Ended(Next(s, a), t)
  {
    assert ExecOk(s, a.claim) && ExecOk(s, c);
    assert AutoOk(s, a.claim) && AutoOk(s, c);
    if a.claim.Gate? && c.Gate? {
      assert OnlyGate(s, a.claim.gate, c.gate);
      assert GateModeOk(s, a.claim.gate);
    }
    if a.claim.Gate? { assert GateModeOk(s, a.claim.gate); }
    if c.Gate? { assert GateModeOk(s, c.gate); }
  }

  /** A fresh claim has just looked at its task; any other step ends no task but by Settle. */
  lemma TimelyOther(s: State, a: Step, t: TaskId, c: Claim)
    requires Inv(s) && ModesOk(s) && !IsVerdictStep(a) && !a.Perform? && !a.Finish?
    requires (Acting(s, c, t) ==> !Ended(s, t)) && Acting(Next(s, a), c, t)
    ensures Ended(Next(s, a), t) ==> a.Settle? && a.task == t && Acting(s, c, t) && Next(s, a) != s
  {
    if c.Gate? { assert GateModeOk(s, c.gate) && ExecOk(s, c); }
  }

  lemma SettleTimely(s: State, t: TaskId, status: Status, c: Claim)
    requires Inv(s) && ModesOk(s) && Acting(s, c, t) && !Ended(s, t)
    ensures Ended(Next(s, Settle(t, status)), t) ==> Interrupts(s, Settle(t, status), t)
  {
    if c.Gate? { assert ExecOk(s, c) && GateModeOk(s, c.gate); } else { assert AutoOk(s, c); }
  }

  /** One step, from any state of a run: an ended task without an action past its guard
      stays so exactly when the step does not end it over such an action. */
  lemma TimelyStep(s: State, a: Step, t: TaskId)
    requires Inv(s) && ModesOk(s) && Timely(s, t)
    ensures Timely(Next(s, a), t) <==> !Interrupts(s, a, t)
  {
    var s' := Next(s, a);
    TimelyMeans(s, t);
    TimelyMeans(s', t);
    if Interrupts(s, a, t) {
      var c :| Acting(s, c, t);
      assert Acting(s', c, t) && Ended(s', t);
    } else {
      forall c | Acting(s', c, t) ensures !Ended(s', t) {
        if IsVerdictStep(a) { TimelyVerdict(s, a, t, c); }
        else if a.Perform? || a.Finish? { TimelyComplete(s, a, t, c); }
        else {
          TimelyOther(s, a, t, c);
          if a.Settle? && a.task == t && Acting(s, c, t) { SettleTimely(s, t, a.status, c); }
        }
      }
    }
  }

  /** At no point of the run can an effect of the task land after its end. */
  ghost predicate NeverLate(s: State, steps: seq<Step>, t: TaskId)
    decreases |steps|
  {
    Timely(s, t) && (steps == [] || NeverLate(Next(s, steps[0]), steps[1..], t))
  }

  /** At no point of the run does the loop end the task over one of its own actions. */
  ghost predicate Uninterrupted(s: State, steps: seq<Step>, t: TaskId)
    decreases |steps|
  {
    steps == [] || (!Interrupts(s, steps[0], t) && Uninterrupted(Next(s, steps[0]), steps[1..], t))
  }

  lemma {:induction false} NeverLateFrom(s: State, steps: seq<Step>, t: TaskId)
    requires Inv(s) && ModesOk(s) && Timely(s, t)
    ensures NeverLate(s, steps, t) <==> Uninterrupted(s, steps, t)
    decreases |steps|
  {
    if steps != [] {
      var a := steps[0];
      TimelyStep(s, a, t);
      InvStep(s, a);
      ModesStep(s, a);
      if !Interrupts(s, a, t) { NeverLateFrom(Next(s, a), steps[1..], t); }
    }
  }

  /** No side effect of a task lands after any terminal status, completed included, at any
      point of a run exactly when its chat loop never ends it while one of its actions has
      passed the guard and is neither aborted nor done. */
  lemma LateEffectIff(steps: seq<Step>, t: TaskId)
    ensures NeverLate(Init(), steps, t) <==> Uninterrupted(Init(), steps, t)
  {
    InvInit();
    NeverLateFrom(Init(), steps, t);
  }

  lemma ModeStays(s: State, a: Step)
    ensures TasksKept(s, Next(s, a))
  {
    if IsVerdictStep(a) { VerdictKeeps(s, a); }
    else if !a.MintAuth? && !a.MintSetup? && !a.AutoClaim? { OtherKeeps(s, a); }
  }

  lemma {:induction false} ImperativeUninterrupted(s: State, steps: seq<Step>, t: TaskId)
    requires t < |Run(s, steps).tasks| && !Run(s, steps).tasks[t].chat
    ensures t < |s.tasks| ==> !s.tasks[t].chat
    ensures Uninterrupted(s, steps, t)
    decreases |steps|
  {
    if steps != [] {
      ModeStays(s, steps[0]);
      ImperativeUninterrupted(Next(s, steps[0]), steps[1..], t);
    }
  }

  /** An imperative task never acts after its end, in any run. */
  lemma ImperativeNeverLate(steps: seq<Step>, t: TaskId)
    requires t < |Run(Init(), steps).tasks| && !Run(Init(), steps).tasks[t].chat
    ensures NeverLate(Init(), steps, t)
  {
    ImperativeUninterrupted(Init(), steps, t);
    LateEffectIff(steps, t);
  }

  // --------------------------------------- the settled-park heal overtakes

  lemma RunTwo(s: State, a: Step, b: Step)
    ensures Run(s, [a, b]) == Next(Next(s, a), b)
  {
    assert [a, b] == [] + [a] + [b];
    RunSnoc(s, [], a);
    RunSnoc(s, [] + [a], b);
  }

  lemma RunThree(s: State, a: Step, b: Step, c: Step)
    ensures Run(s, [a, b, c]) == Next(Next(Next(s, a), b), c)
  {
    assert [a, b, c] == [a, b] + [c];
    RunTwo(s, a, b);
    RunSnoc(s, [a, b], c);
  }

  predicate LiveChat(s: State, t: TaskId) {
    LiveTask(s, t) && s.tasks[t].chat
  }

  /** One turn asks for a connector and for a file write, and parks. */
  function Parks(t: TaskId): seq<Step> {
    [MintSetup(Some(t), true), MintAuth(Some(t), FileAction, true), Settle(t, WaitingApproval)]
  }

  /** The connector card is completed, the write is approved and claimed. */
  function Answers(q: nat, g: nat): seq<Step> {
    [CompleteSetup(q), Approve(g), Guard(g)]
  }

  /** A replayed completion of the card resumes the turn, which answers without a tool. */
  function Heals(t: TaskId): seq<Step> {
    [Settle(t, Running), Settle(t, Completed)]
  }

  /** The two gates of the park are the only pending ones of the task. */
  predicate ParkedOn(s: State, t: TaskId, q: nat, g: nat) {
    && LiveChat(s, t)
    && g < |s.auths| && s.auths[g] == Auth(Some(t), FileAction, true, AuthPending)
    && q < |s.setups| && s.setups[q] == Setup(Some(t), true, SetupPending)
    && (forall h :: 0 <= h < |s.auths| && h != g ==> !Torn(s.auths[h].task, s.auths[h].status.AuthPending?, t))
    && (forall p :: 0 <= p < |s.setups| && p != q ==> !Torn(s.setups[p].task, s.setups[p].status.SetupPending?, t))
  }

  /** What the heal looks for: a park of a chat task, none of its gates pending. */
  predicate LooksWedged(s: State, t: TaskId) {
    LiveChat(s, t) && s.tasks[t].status.WaitingApproval? && !HasPendingGate(s, t)
  }

  lemma ParksThem(s: State, t: TaskId)
    requires LiveChat(s, t) && !HasPendingGate(s, t)
    ensures ParkedOn(Run(s, Parks(t)), t, |s.setups|, |s.auths|)
    ensures Run(s, Parks(t)).tasks[t].status.WaitingApproval?
  {
    RunThree(s, Parks(t)[0], Parks(t)[1], Parks(t)[2]);
  }

  lemma AnswersClaim(s: State, t: TaskId, q: nat, g: nat)
    requires ParkedOn(s, t, q, g) && s.tasks[t].status.WaitingApproval?
    ensures LooksWedged(Run(s, Answers(q, g)), t) && Acting(Run(s, Answers(q, g)), Gate(g), t)
  {
    RunThree(s, CompleteSetup(q), Approve(g), Guard(g));
    var s1 := CompleteSetupStep(s, q);
    var s2 := ApproveStep(s1, g);
    var s3 := GuardStep(s2, g);
    assert s1.auths == s.auths && s1.tasks == s.tasks;
    assert Gate(g) in s2.exec && s2.exec[Gate(g)] == Scheduled && s2.tasks == s.tasks && s2.setups == s1.setups;
    assert Acting(s3, Gate(g), t) && s3.tasks == s.tasks && s3.auths == s2.auths && s3.setups == s1.setups;
  }

  lemma HealsEnd(s: State, t: TaskId, c: Claim)
    requires LiveChat(s, t) && Acting(s, c, t)
    ensures LandsLate(Run(s, Heals(t)), c, t)
  {
    RunTwo(s, Settle(t, Running), Settle(t, Completed));
    LandsIffActing(Run(s, Heals(t)), c, t);
  }

  /** From every state, a live chat task with no pending gate can get there: it parks on a
      connector card and a write, both are answered, the park looks wedged while the write
      is claimed, the heal resumes the turn, and the write lands after its completion. */
  lemma HealOvertakes(s: State, t: TaskId)
    requires LiveChat(s, t) && !HasPendingGate(s, t)
    ensures var parked := Parks(t) + Answers(|s.setups|, |s.auths|);
      LooksWedged(Run(s, parked), t) && LandsLate(Run(s, parked + Heals(t)), Gate(|s.auths|), t)
  {
    var q, g := |s.setups|, |s.auths|;
    ParksThem(s, t);
    RunAppend(s, Parks(t), Answers(q, g));
    AnswersClaim(Run(s, Parks(t)), t, q, g);
    RunAppend(s, Parks(t) + Answers(q, g), Heals(t));
    HealsEnd(Run(s, Parks(t) + Answers(q, g)), t, Gate(g));
  }
}
