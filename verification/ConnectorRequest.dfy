/** packages/runtime/src/http.ts, the connector.request branch of `/complete`, and the cancel
    endpoint it races: claim the row first, then create, probe, audit, grant, enable and
    resume, with a compensating catch. */
module ConnectorRequest {
  import opened Common

  datatype Status = Pending | Completed | Cancelled

  /** What the card fixes: is there a task and tool call to resume? */
  datatype Card = Card(hasTask: bool, hasToolCall: bool)

  /** How each call of one attempt turns out: a flag is true when that call throws, except
      `healthy`, `declares` (the named skill is known and declares this credential) and
      `satisfiable` (every credential it needs is now configured and granted). A throw of
      `delete` is caught by the handler, one of `persist` by persistConnectOutcome itself. */
  datatype Calls = Calls(
    create: bool, check: bool, healthy: bool, audit: bool,
    declares: bool, grant: bool, getSkill: bool, satisfiable: bool, enable: bool,
    delete: bool, persist: bool)

  datatype Reply =
    | Connected      // ok: true
    | Rejected       // ok: false after an unhealthy probe
    | Failed         // ok: false after a throw
    | LostRace       // the row was no longer pending
    | CancelWon      // the cancel endpoint claimed the row

  /** Everything an attempt can change. `resumes` counts resumptions of the task. */
  datatype World = World(
    status: Status, connectors: set<nat>, nextId: nat,
    grants: nat, enables: nat, audits: nat, outcomes: nat, resumes: nat, taskFailures: nat)

  // ------------------------------------------------------- what should happen

  predicate ProbesHealthy(f: Calls) {
    !f.create && !f.check && f.healthy
  }

  predicate Grants(f: Calls) {
    ProbesHealthy(f) && !f.audit && f.declares && !f.grant
  }

  predicate Enables(f: Calls) {
    Grants(f) && !f.getSkill && f.satisfiable && !f.enable
  }

  predicate Succeeds(f: Calls) {
    && ProbesHealthy(f) && !f.audit
    && (f.declares ==> !f.grant && !f.getSkill && (f.satisfiable ==> !f.enable))
  }

  /** The probe said no. */
  predicate Rejects(f: Calls) {
    !f.create && !f.check && !f.healthy
  }

  function ReplyOf(f: Calls): Reply {
    if Succeeds(f) then Connected else if Rejects(f) then Rejected else Failed
  }

  /** The record this attempt made is still there at the end. */
  predicate Survives(f: Calls) {
    !f.create && (Succeeds(f) || f.delete)
  }

  predicate Resumable(card: Card) {
    card.hasTask && card.hasToolCall
  }

  /** The world after a winning attempt, from the world it claimed. */
  function AfterWin(w: World, card: Card, f: Calls): World {
    w.(status := Completed,
       connectors := w.connectors + if Survives(f) then {w.nextId} else {},
       nextId := if f.create then w.nextId else w.nextId + 1,
       grants := w.grants + if Grants(f) then 1 else 0,
       enables := w.enables + if Enables(f) then 1 else 0,
       audits := w.audits + if ProbesHealthy(f) && !f.audit then 1 else 0,
       outcomes := w.outcomes + if !Succeeds(f) && !f.persist then 1 else 0,
       resumes := w.resumes + if Resumable(card) then 1 else 0)
  }

  /** The world after a winning cancel: the turn goes on without the connector if it can,
      otherwise the task fails. */
  function AfterCancel(w: World, card: Card, live: bool): World {
    if Resumable(card) && live then w.(status := Cancelled, resumes := w.resumes + 1)
    else w.(status := Cancelled, taskFailures := w.taskFailures + if card.hasTask && live then 1 else 0)
  }

  // ------------------------------------------------------------ the handler

  class Gateway {
    const card: Card
    var status: Status
    var connectors: set<nat>
    var nextId: nat
    var grants: nat
    var enables: nat
    var audits: nat
    var outcomes: nat
    var resumes: nat
    var taskFailures: nat

    ghost function Abs(): World
      reads this
    {
      World(status, connectors, nextId, grants, enables, audits, outcomes, resumes, taskFailures)
    }

    /** No id at or above the next one is in use. */
    ghost predicate Valid()
      reads this
    {
      forall c :: c in connectors ==> c < nextId
    }

    constructor (card: Card, existing: set<nat>, next: nat)
      requires forall c :: c in existing ==> c < next
      ensures Valid() && this.card == card
      ensures Abs() == World(Pending, existing, next, 0, 0, 0, 0, 0, 0)
    {
      this.card, status, connectors, nextId := card, Pending, existing, next;
      grants, enables, audits, outcomes, resumes, taskFailures := 0, 0, 0, 0, 0, 0;
    }

    method CreateConnector(throws: bool) returns (r: Result<nat>)
      requires Valid()
      modifies `connectors, `nextId
      ensures Valid()
      ensures throws ==> r == Err && Abs() == old(Abs())
      ensures !throws ==> r == Ok(old(nextId))
      ensures !throws ==> Abs() == old(Abs()).(connectors := old(connectors) + {old(nextId)}, nextId := old(nextId) + 1)
    {
      if throws { return Err; }
      r := Ok(nextId);
      connectors := connectors + {nextId};
      nextId := nextId + 1;
    }

    method DeleteConnector(id: nat, throws: bool)
      requires Valid()
      modifies `connectors
      ensures Valid()
      ensures connectors == if throws then old(connectors) else old(connectors) - {id}
    {
      if !throws { connectors := connectors - {id}; }
    }

    /** persistConnectOutcome: best effort, a throw is swallowed. */
    method PersistOutcome(throws: bool)
      modifies `outcomes
      ensures outcomes == old(outcomes) + if throws then 0 else 1
    {
      if !throws { outcomes := outcomes + 1; }
    }

    method Resume()
      modifies `resumes
      ensures resumes == old(resumes) + if Resumable(card) then 1 else 0
    {
      if card.hasTask && card.hasToolCall { resumes := resumes + 1; }
    }

    /** The body of the try block; `created` is the id the catch can see. */
    method TryConnect(f: Calls) returns (r: Result<Reply>, created: Option<nat>)
      requires Valid()
      modifies `connectors, `nextId, `grants, `enables, `audits, `outcomes, `resumes
      ensures Valid()
      ensures created == if f.create then None else Some(old(nextId))
      ensures nextId == if f.create then old(nextId) else old(nextId) + 1
      ensures connectors == old(connectors) +
        if f.create || (!f.check && !f.healthy && !f.delete) then {} else {old(nextId)}
      ensures grants == old(grants) + if Grants(f) then 1 else 0
      ensures enables == old(enables) + if Enables(f) then 1 else 0
      ensures audits == old(audits) + if ProbesHealthy(f) && !f.audit then 1 else 0
      ensures outcomes == old(outcomes) + if Rejects(f) && !f.persist then 1 else 0
      ensures resumes == old(resumes) + if Resumable(card) && (Succeeds(f) || Rejects(f)) then 1 else 0
      ensures r == if Succeeds(f) then Ok(Connected) else if Rejects(f) then Ok(Rejected) else Err
    {
      created := None;
      var made := CreateConnector(f.create);
      if made.Err? { return Err, None; }
      created := Some(made.value);
      if f.check { return Err, created; }
      if !f.healthy {
        DeleteConnector(made.value, f.delete);
        PersistOutcome(f.persist);
        Resume();
        return Ok(Rejected), created;
      }
      if f.audit { return Err, created; }
      audits := audits + 1;
      if f.declares {
        if f.grant { return Err, created; }
        grants := grants + 1;
        if f.getSkill { return Err, created; }
        if f.satisfiable {
          if f.enable { return Err, created; }
          enables := enables + 1;
        }
      }
      Resume();
      return Ok(Connected), created;
    }

    /** POST /complete. */
    method Complete(f: Calls) returns (reply: Reply)
      requires Valid()
      modifies this
      ensures Valid()
      ensures !old(status).Pending? ==> reply == LostRace && Abs() == old(Abs())
      ensures old(status).Pending? ==> reply == ReplyOf(f) && Abs() == AfterWin(old(Abs()), card, f)
    {
      if !status.Pending? { return LostRace; }
      status := Completed;
      var r, created := TryConnect(f);
      if r.Ok? { return r.value; }
      if created.Some? { DeleteConnector(created.value, f.delete); }
      PersistOutcome(f.persist);
      Resume();
      return Failed;
    }

    /** POST /cancel. */
    method Cancel(live: bool) returns (won: bool)
      modifies `status, `resumes, `taskFailures
      ensures won <==> old(status).Pending?
      ensures Abs() == if won then AfterCancel(old(Abs()), card, live) else old(Abs())
    {
      if !status.Pending? { return false; }
      status := Cancelled;
      won := true;
      if card.hasTask && card.hasToolCall && live {
        resumes := resumes + 1;
      } else if card.hasTask && live {
        taskFailures := taskFailures + 1;
      }
    }
  }

  // -------------------------------------------------------- interleavings

  /** Where an attempt stands: every await of the handler is a point where others may run. */
  datatype Point =
    | Start | Claimed | Created | Rejecting | RejectPersist | RejectResume
    | Probed | Audited | Granted | Succeeding | Catching | CatchPersist | CatchResume
    | Done(reply: Reply)

  datatype Request = ToComplete(f: Calls) | ToCancel(live: bool)

  datatype Attempt = Attempt(request: Request, at: Point, created: Option<nat>)

  datatype System = System(card: Card, world: World, attempts: seq<Attempt>)

  function Resumed(w: World, card: Card): World {
    if Resumable(card) then w.(resumes := w.resumes + 1) else w
  }

  function Deleted(w: World, id: nat, throws: bool): World {
    if throws then w else w.(connectors := w.connectors - {id})
  }

  /** One atomic stretch of a complete attempt. */
  function Advance(w: World, card: Card, a: Attempt): (World, Attempt)
    requires a.request.ToComplete?
  {
    var f := a.request.f;
    match a.at
    case Start =>
      if w.status.Pending? then (w.(status := Completed), a.(at := Claimed)) else (w, a.(at := Done(LostRace)))
    case Claimed =>
      if f.create then (w, a.(at := Catching))
      else (w.(connectors := w.connectors + {w.nextId}, nextId := w.nextId + 1), a.(at := Created, created := Some(w.nextId)))
    case Created => (w, a.(at := if f.check then Catching else if f.healthy then Probed else Rejecting))
    case Rejecting =>
      (if a.created.Some? then Deleted(w, a.created.value, f.delete) else w, a.(at := RejectPersist))
    case RejectPersist =>
      (w.(outcomes := w.outcomes + if f.persist then 0 else 1), a.(at := RejectResume))
    case RejectResume => (Resumed(w, card), a.(at := Done(Rejected)))
    case Probed =>
      if f.audit then (w, a.(at := Catching)) else (w.(audits := w.audits + 1), a.(at := Audited))
    case Audited =>
      if !f.declares then (w, a.(at := Succeeding))
      else if f.grant then (w, a.(at := Catching))
      else (w.(grants := w.grants + 1), a.(at := Granted))
    case Granted =>
      if f.getSkill || (f.satisfiable && f.enable) then (w, a.(at := Catching))
      else (w.(enables := w.enables + if f.satisfiable then 1 else 0), a.(at := Succeeding))
    case Succeeding => (Resumed(w, card), a.(at := Done(Connected)))
    case Catching =>
      (if a.created.Some? then Deleted(w, a.created.value, f.delete) else w, a.(at := CatchPersist))
    case CatchPersist =>
      (w.(outcomes := w.outcomes + if f.persist then 0 else 1), a.(at := CatchResume))
    case CatchResume => (Resumed(w, card), a.(at := Done(Failed)))
    case Done(_) => (w, a)
  }

  function Cancelled1(w: World, card: Card, a: Attempt): (World, Attempt)
    requires a.request.ToCancel?
  {
    if !a.at.Start? then (w, a)
    else if w.status.Pending? then (AfterCancel(w, card, a.request.live), a.(at := Done(CancelWon)))
    else (w, a.(at := Done(LostRace)))
  }

  datatype Step = Arrive(request: Request) | Move(k: nat)

  function Next(s: System, step: Step): System {
    match step
    case Arrive(r) =>
      s.(attempts := s.attempts + [Attempt(r, Start, None)])
    case Move(k) =>
      if k >= |s.attempts| then s
      else
        var (w, a) := if s.attempts[k].request.ToComplete? then Advance(s.world, s.card, s.attempts[k])
                      else Cancelled1(s.world, s.card, s.attempts[k]);
        s.(world := w, attempts := s.attempts[k := a])
  }

  function Run(s: System, steps: seq<Step>): System {
    if steps == [] then s else Next(Run(s, steps[..|steps| - 1]), steps[|steps| - 1])
  }

  predicate Fresh(s: System) {
    s.world.status.Pending? && s.attempts == [] && forall c :: c in s.world.connectors ==> c < s.world.nextId
  }

  // ------------------------------------------------------------- invariant

  predicate Idle(a: Attempt) {
    (a.at == Start || a.at == Done(LostRace)) && (a.request.ToComplete? ==> a.created.None?)
  }

  /** The world `base`, as far as a winning attempt at this point has changed it. */
  function Progress(base: World, card: Card, f: Calls, at: Point): World
    requires !at.Start? && at != Done(LostRace)
  {
    var claimed := base.(status := Completed);
    var created := claimed.(nextId := base.nextId + 1, connectors := base.connectors + {base.nextId});
    var rejected := if f.delete then created else created.(connectors := base.connectors);
    var audited := created.(audits := base.audits + 1);
    match at
    case Claimed => claimed
    case Created => created
    case Rejecting => created
    case RejectPersist => rejected
    case RejectResume => rejected.(outcomes := base.outcomes + if f.persist then 0 else 1)
    case Probed => created
    case Audited => audited
    case Granted => audited.(grants := base.grants + 1)
    case Succeeding => AfterWin(base, card, f).(resumes := base.resumes)
    case Catching =>
      AfterWin(base, card, f).(
        resumes := base.resumes, outcomes := base.outcomes,
        connectors := if f.create then base.connectors else created.connectors)
    case CatchPersist => AfterWin(base, card, f).(resumes := base.resumes, outcomes := base.outcomes)
    case CatchResume => AfterWin(base, card, f).(resumes := base.resumes)
    case Done(_) => AfterWin(base, card, f)
  }

  /** The calls so far turned out as this point requires. */
  predicate Reaches(f: Calls, at: Point) {
    match at
    case Start => true
    case Claimed => true
    case Created => !f.create
    case Rejecting => !f.create && !f.check && !f.healthy
    case RejectPersist => !f.create && !f.check && !f.healthy
    case RejectResume => Rejects(f)
    case Probed => ProbesHealthy(f)
    case Audited => ProbesHealthy(f) && !f.audit
    case Granted => Grants(f)
    case Succeeding => Succeeds(f)
    case Catching => !Succeeds(f) && !Rejects(f)
    case CatchPersist => !Succeeds(f) && !Rejects(f)
    case CatchResume => ReplyOf(f).Failed?
    case Done(r) => r == LostRace || r == ReplyOf(f)
  }

  predicate WinnerOk(base: World, card: Card, w: World, a: Attempt) {
    if a.request.ToComplete?
    then
      && !a.at.Start? && a.at != Done(LostRace)
      && Reaches(a.request.f, a.at) && w == Progress(base, card, a.request.f, a.at)
      && a.created == if a.at.Claimed? || a.request.f.create then None else Some(base.nextId)
    else w == AfterCancel(base, card, a.request.live) && a.at == Done(CancelWon)
  }

  /** Nobody has claimed the row and nothing has changed, or exactly one attempt has, and
      the world is as that attempt left it. */
  ghost predicate Inv(base: World, s: System) {
    || (s.world == base && forall k :: 0 <= k < |s.attempts| ==> Idle(s.attempts[k]))
    || exists k: nat :: Won(base, s, k)
  }

  predicate Won(base: World, s: System, k: nat) {
    && k < |s.attempts| && !Idle(s.attempts[k])
    && WinnerOk(base, s.card, s.world, s.attempts[k])
    && forall j :: 0 <= j < |s.attempts| && j != k ==> Idle(s.attempts[j])
  }

  predicate BaseOk(base: World) {
    base.status.Pending? && forall c :: c in base.connectors ==> c < base.nextId
  }

  /** Claiming from an untouched world. */
  lemma ClaimKeeps(base: World, s: System, k: nat)
    requires BaseOk(base) && s.world == base && k < |s.attempts|
    requires forall j :: 0 <= j < |s.attempts| ==> Idle(s.attempts[j])
    ensures Inv(base, Next(s, Move(k)))
  {
    var t := Next(s, Move(k));
    if s.attempts[k].at.Start? {
      assert Won(base, t, k);
    }
  }

  /** Once the row is claimed it is never pending again, so a late attempt changes nothing. */
  lemma LoserKeeps(base: World, s: System, w: nat, k: nat)
    requires BaseOk(base) && Won(base, s, w) && k < |s.attempts| && k != w
    ensures Won(base, Next(s, Move(k)), w)
    ensures Next(s, Move(k)).world == s.world
  {
    assert !s.world.status.Pending?;
    assert Idle(s.attempts[k]);
  }

  predicate InTry(at: Point) {
    at.Claimed? || at.Created? || at.Probed? || at.Audited? || at.Granted? || at.Succeeding?
  }

  lemma TryKeeps(base: World, card: Card, w: World, a: Attempt)
    requires BaseOk(base) && a.request.ToComplete? && WinnerOk(base, card, w, a) && InTry(a.at)
    ensures WinnerOk(base, card, Advance(w, card, a).0, Advance(w, card, a).1)
  {}

  lemma RejectKeeps(base: World, card: Card, w: World, a: Attempt)
    requires BaseOk(base) && a.request.ToComplete? && WinnerOk(base, card, w, a)
    requires a.at.Rejecting? || a.at.RejectPersist? || a.at.RejectResume?
    ensures WinnerOk(base, card, Advance(w, card, a).0, Advance(w, card, a).1)
  {
    assert (base.connectors + {base.nextId}) - {base.nextId} == base.connectors;
  }

  lemma CatchKeeps(base: World, card: Card, w: World, a: Attempt)
    requires BaseOk(base) && a.request.ToComplete? && WinnerOk(base, card, w, a)
    requires a.at.Catching? || a.at.CatchPersist? || a.at.CatchResume? || a.at.Done?
    ensures WinnerOk(base, card, Advance(w, card, a).0, Advance(w, card, a).1)
  {
    assert (base.connectors + {base.nextId}) - {base.nextId} == base.connectors;
    assert base.connectors - {base.nextId} == base.connectors;
  }

  /** One step of the winner is one step of its progress. */
  lemma AdvanceKeeps(base: World, card: Card, w: World, a: Attempt)
    requires BaseOk(base) && a.request.ToComplete? && WinnerOk(base, card, w, a)
    ensures WinnerOk(base, card, Advance(w, card, a).0, Advance(w, card, a).1)
  {
    if InTry(a.at) { TryKeeps(base, card, w, a); }
    else if a.at.Rejecting? || a.at.RejectPersist? || a.at.RejectResume? { RejectKeeps(base, card, w, a); }
    else { CatchKeeps(base, card, w, a); }
  }

  lemma StepKeeps(base: World, s: System, step: Step)
    requires BaseOk(base) && Inv(base, s)
    ensures Inv(base, Next(s, step))
  {
    var t := Next(s, step);
    if w: nat :| Won(base, s, w) {
      match step
      case Arrive(_) => assert Won(base, t, w);
      case Move(k) =>
        if k >= |s.attempts| {
        } else if k != w {
          LoserKeeps(base, s, w, k);
        } else {
          if s.attempts[w].request.ToComplete? { AdvanceKeeps(base, s.card, s.world, s.attempts[w]); }
          assert Won(base, t, w);
        }
    } else {
      match step
      case Arrive(_) =>
      case Move(k) => if k < |s.attempts| { ClaimKeeps(base, s, k); }
    }
  }

  lemma {:induction false} RunKeeps(s: System, steps: seq<Step>)
    requires Fresh(s)
    ensures Inv(s.world, Run(s, steps)) && Run(s, steps).card == s.card
  {
    if steps != [] {
      RunKeeps(s, steps[..|steps| - 1]);
      StepKeeps(s.world, Run(s, steps[..|steps| - 1]), steps[|steps| - 1]);
    }
  }

  // -------------------------------------------------------------- theorems

  /** In every interleaving at most one attempt gets past the claim. */
  lemma OneWinner(s: System, steps: seq<Step>, j: nat, k: nat)
    requires Fresh(s)
    requires j < |Run(s, steps).attempts| && !Idle(Run(s, steps).attempts[j])
    requires k < |Run(s, steps).attempts| && !Idle(Run(s, steps).attempts[k])
    ensures j == k
  {
    RunKeeps(s, steps);
  }

  /** However the attempts interleave, once the winner is done the world is exactly what that
      attempt alone makes of it: one resume, and its connector kept only for an ok reply or
      when the rollback delete threw. */
  lemma WinnerDecides(s: System, steps: seq<Step>, k: nat)
    requires Fresh(s)
    requires k < |Run(s, steps).attempts| && Run(s, steps).attempts[k].at.Done? && !Idle(Run(s, steps).attempts[k])
    ensures var t := Run(s, steps); var a := t.attempts[k];
      t.world ==
        if a.request.ToComplete? then AfterWin(s.world, s.card, a.request.f)
        else AfterCancel(s.world, s.card, a.request.live)
    ensures var a := Run(s, steps).attempts[k]; a.request.ToComplete? ==> a.at.reply == ReplyOf(a.request.f)
  {
    RunKeeps(s, steps);
    var t := Run(s, steps);
    var w: nat :| Won(s.world, t, w);
  }

  /** Until someone wins, and for every attempt that loses, nothing is created, granted,
      audited or resumed. */
  lemma LosersDoNothing(s: System, steps: seq<Step>)
    requires Fresh(s)
    requires forall k :: 0 <= k < |Run(s, steps).attempts| ==> Idle(Run(s, steps).attempts[k])
    ensures Run(s, steps).world == s.world
  {
    RunKeeps(s, steps);
  }

  /** The winning attempt at `k` is a completion and has replied. */
  predicate CompletedBy(s: System, k: nat, f: Calls) {
    k < |s.attempts| && s.attempts[k].request == ToComplete(f) && s.attempts[k].at.Done? && !Idle(s.attempts[k])
  }

  /** The winning attempt at `k` is a cancellation. */
  predicate CancelledBy(s: System, k: nat, live: bool) {
    k < |s.attempts| && s.attempts[k].request == ToCancel(live) && s.attempts[k].at.Done? && !Idle(s.attempts[k])
  }

  /** In every interleaving, what the winner replies, by the calls that threw: ok iff it made
      and probed a healthy connector, audited it, and for a skill that declares the credential
      granted it, re-read the skill and enabled it if it could be; a rejection iff the probe
      answered unhealthy; a failure otherwise. */
  lemma ReplyExact(s: System, steps: seq<Step>, k: nat, f: Calls)
    requires Fresh(s) && CompletedBy(Run(s, steps), k, f)
    ensures Run(s, steps).attempts[k].at == Done(
      if f.create || f.check then Failed
      else if !f.healthy then Rejected
      else if f.audit || (f.declares && (f.grant || f.getSkill || (f.satisfiable && f.enable))) then Failed
      else Connected)
  {
    WinnerDecides(s, steps, k);
  }

  /** In every interleaving, what an ok reply has done: one audit row, one grant iff the skill
      declares the credential, one enabling iff it then has all it needs, one connector, one
      resume if there is a call to resume, and nothing else. */
  lemma ConnectedExact(s: System, steps: seq<Step>, k: nat, f: Calls)
    requires Fresh(s) && CompletedBy(Run(s, steps), k, f) && Run(s, steps).attempts[k].at == Done(Connected)
    ensures var w := s.world;
      Run(s, steps).world == World(
        Completed, w.connectors + {w.nextId}, w.nextId + 1,
        w.grants + (if f.declares then 1 else 0),
        w.enables + (if f.declares && f.satisfiable then 1 else 0),
        w.audits + 1, w.outcomes,
        w.resumes + (if s.card.hasTask && s.card.hasToolCall then 1 else 0), w.taskFailures)
  {
    WinnerDecides(s, steps, k);
  }

  /** In every interleaving, what any other reply has done: no skill is enabled, nothing is
      granted that the skill does not declare, the failure outcome is on record unless storing
      it threw, and the task is resumed all the same. */
  lemma NotConnectedExact(s: System, steps: seq<Step>, k: nat, f: Calls)
    requires Fresh(s) && CompletedBy(Run(s, steps), k, f) && Run(s, steps).attempts[k].at != Done(Connected)
    ensures var w, w' := s.world, Run(s, steps).world;
      && w'.enables == w.enables && w'.taskFailures == w.taskFailures && w'.status.Completed?
      && w'.audits == w.audits + (if !f.create && !f.check && f.healthy && !f.audit then 1 else 0)
      && w'.grants == w.grants + (if !f.create && !f.check && f.healthy && !f.audit && f.declares && !f.grant then 1 else 0)
      && w'.outcomes == w.outcomes + (if f.persist then 0 else 1)
      && w'.resumes == w.resumes + (if s.card.hasTask && s.card.hasToolCall then 1 else 0)
      && w'.connectors == w.connectors + (if !f.create && f.delete then {w.nextId} else {})
  {
    WinnerDecides(s, steps, k);
  }

  /** In every interleaving, what a winning cancel has done: a live task is resumed if there
      is a call to resume and failed if there is none; nothing is created, granted or enabled. */
  lemma CancelExact(s: System, steps: seq<Step>, k: nat, live: bool)
    requires Fresh(s) && CancelledBy(Run(s, steps), k, live)
    ensures Run(s, steps).world == s.world.(
      status := Cancelled,
      resumes := s.world.resumes + (if live && s.card.hasTask && s.card.hasToolCall then 1 else 0),
      taskFailures := s.world.taskFailures + (if live && s.card.hasTask && !s.card.hasToolCall then 1 else 0))
    ensures Run(s, steps).attempts[k].at == Done(CancelWon)
  {
    WinnerDecides(s, steps, k);
  }

  /** In every interleaving the winner resumes the task exactly once. */
  lemma ResumedOnce(s: System, steps: seq<Step>, k: nat, f: Calls)
    requires Fresh(s) && CompletedBy(Run(s, steps), k, f) && s.card.hasTask && s.card.hasToolCall
    ensures Run(s, steps).world.resumes == s.world.resumes + 1
  {
    WinnerDecides(s, steps, k);
  }

  /** In every interleaving, with a delete that works, the connector of the winning attempt
      survives iff its reply is ok, and no other connector is touched. */
  lemma SurvivesIffConnected(s: System, steps: seq<Step>, k: nat, f: Calls)
    requires Fresh(s) && CompletedBy(Run(s, steps), k, f) && !f.delete
    ensures s.world.nextId in Run(s, steps).world.connectors <==> Run(s, steps).attempts[k].at == Done(Connected)
    ensures Run(s, steps).world.connectors - {s.world.nextId} == s.world.connectors
  {
    WinnerDecides(s, steps, k);
  }

  /** The grant is not rolled back: in every interleaving it outlives a failed attempt exactly
      when the throw came after it, from re-reading the skill or from enabling it. */
  lemma GrantOutlivesFailure(s: System, steps: seq<Step>, k: nat, f: Calls)
    requires Fresh(s) && CompletedBy(Run(s, steps), k, f) && Run(s, steps).attempts[k].at != Done(Connected)
    ensures Run(s, steps).world.grants == s.world.grants + 1 <==>
      !f.create && !f.check && f.healthy && !f.audit && f.declares && !f.grant && (f.getSkill || (f.satisfiable && f.enable))
  {
    WinnerDecides(s, steps, k);
  }

  // --------------------------------------------------------- every attempt ends

  /** How many more moves an attempt needs at most. */
  function Left(at: Point): nat {
    match at
    case Start => 9
    case Claimed => 8
    case Created => 7
    case Probed => 6
    case Audited => 5
    case Granted => 4
    case Rejecting => 3
    case Catching => 3
    case RejectPersist => 2
    case CatchPersist => 2
    case RejectResume => 1
    case CatchResume => 1
    case Succeeding => 1
    case Done(_) => 0
  }

  /** A cancellation has only two points: not begun, and answered. */
  predicate OnTrack(a: Attempt) {
    a.request.ToComplete? || a.at.Start? || a.at.Done?
  }

  lemma MoveAdvances(s: System, k: nat)
    requires k < |s.attempts| && !s.attempts[k].at.Done? && OnTrack(s.attempts[k])
    ensures var t := Next(s, Move(k)); k < |t.attempts| && OnTrack(t.attempts[k]) && Left(t.attempts[k].at) < Left(s.attempts[k].at)
  {}

  function Moves(k: nat, n: nat): (r: seq<Step>)
    ensures |r| == n
  {
    if n == 0 then [] else Moves(k, n - 1) + [Move(k)]
  }

  lemma DoneStays(s: System, k: nat)
    requires k < |s.attempts| && s.attempts[k].at.Done?
    ensures Next(s, Move(k)).attempts == s.attempts
  {
    assert s.attempts[k := s.attempts[k]] == s.attempts;
  }

  lemma {:induction false} MovesAdvance(s: System, k: nat, n: nat)
    requires k < |s.attempts| && OnTrack(s.attempts[k])
    ensures k < |Run(s, Moves(k, n)).attempts| && OnTrack(Run(s, Moves(k, n)).attempts[k])
    ensures Run(s, Moves(k, n)).attempts[k].at.Done? || Left(Run(s, Moves(k, n)).attempts[k].at) + n <= 9
  {
    if n > 0 {
      MovesAdvance(s, k, n - 1);
      var t := Run(s, Moves(k, n - 1));
      assert Moves(k, n)[..n - 1] == Moves(k, n - 1);
      if !t.attempts[k].at.Done? { MoveAdvances(t, k); } else { DoneStays(t, k); }
    }
  }

  /** From every state of every interleaving, nine moves of an attempt bring it to a reply. */
  lemma AttemptEnds(s: System, steps: seq<Step>, k: nat)
    requires Fresh(s) && k < |Run(s, steps).attempts|
    ensures var t := Run(Run(s, steps), Moves(k, 9)); k < |t.attempts| && t.attempts[k].at.Done?
  {
    RunKeeps(s, steps);
    assert OnTrack(Run(s, steps).attempts[k]);
    MovesAdvance(Run(s, steps), k, 9);
  }

  /** A request may arrive at any moment, and while nobody has won the first to move does. */
  lemma FirstMoverWins(s: System, steps: seq<Step>, r: Request)
    requires Fresh(s)
    requires forall j :: 0 <= j < |Run(s, steps).attempts| ==> Idle(Run(s, steps).attempts[j])
    ensures var k := |Run(s, steps).attempts|; var t := Next(Run(s, steps), Arrive(r));
      t.attempts == Run(s, steps).attempts + [Attempt(r, Start, None)] && !Idle(Next(t, Move(k)).attempts[k])
  {
    RunKeeps(s, steps);
    LosersDoNothing(s, steps);
  }
}
