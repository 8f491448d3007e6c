/** packages/mobile/src/push.ts with its generation guard (push-registration-guard.ts) and its
    token store (device-token-store.ts): registrations, token rotations and sign-outs whose
    awaits interleave. */
module PushRegistration {
  import opened Common

  /** Where one run of `registerForPushAsync` is suspended. */
  datatype Point = AwaitPermission | AwaitToken | AwaitPost(token: string) | AwaitCategory | Done

  /** A run or a rotation callback, with the generation it captured. */
  datatype Registration = Registration(gen: nat, at: Point)

  datatype Rotation = Rotation(gen: nat, token: string, pending: bool)

  /** The in-memory token and the generation whose work put it there. */
  datatype Slot = Slot(token: string, gen: nat)

  /** Requests to the storage, served in order. A `Get` comes from `prime` and remembers the
      generation it was called in. */
  datatype Op = Set(token: string) | Remove | Get(gen: nat)

  /** A value read for `prime`, on its way back. */
  datatype Read = Read(value: Option<string>, gen: nat)

  datatype State = State(
    gen: nat, started: bool, runs: seq<Registration>, rotations: seq<Rotation>,
    tokenSub: Option<nat>, receivedSub: Option<nat>,
    cached: Option<Slot>, persisted: Option<string>, queue: seq<Op>, answers: seq<Read>)

  datatype Permission = Granted | Declined | NoBundleId | PermissionThrows

  datatype Fetched = IosToken(token: string) | OtherToken | FetchThrows

  /** `ok` is false when the call that was awaited, or what follows it at once, throws. */
  datatype Step =
    | Register
    | PermissionKnown(i: nat, answer: Permission)
    | TokenKnown(i: nat, fetched: Fetched)
    | Posted(i: nat, ok: bool)
    | CategoryReady(i: nat, ok: bool)
    | Rotated(token: string)
    | RotationPosted(j: nat, ok: bool)
    | Reset
    | Prime
    | Serve
    | PrimeLands

  /** A process that has just started: nothing in memory, whatever the last one left on disk. */
  function Boot(persisted: Option<string>): State {
    State(0, false, [], [], None, None, None, persisted, [], [])
  }

  // ---------------------------------------------------------- the store

  /** `cache`: an empty token clears. */
  function Cache(s: State, token: string, gen: nat): State {
    if token == "" then Clear(s) else s.(cached := Some(Slot(token, gen)), queue := s.queue + [Set(token)])
  }

  function Clear(s: State): State {
    s.(cached := None, queue := s.queue + [Remove])
  }

  /** What the storage will hold once these requests are served. */
  function Drained(persisted: Option<string>, queue: seq<Op>): Option<string>
    decreases |queue|
  {
    if queue == [] then persisted
    else
      match queue[0]
      case Set(t) => Drained(Some(t), queue[1..])
      case Remove => Drained(None, queue[1..])
      case Get(_) => Drained(persisted, queue[1..])
  }

  // -------------------------------------------------------------- the steps

  function Suspend(s: State, i: nat, at: Point): State
    requires i < |s.runs|
  {
    s.(runs := s.runs[i := s.runs[i].(at := at)])
  }

  /** A run that gives up lets the next mount try again. */
  function GiveUp(s: State, i: nat): State
    requires i < |s.runs|
  {
    Suspend(s, i, Done).(started := false)
  }

  /** After the token: check the generation, then listen for rotations. */
  function Listen(s: State, i: nat): State
    requires i < |s.runs|
  {
    if s.runs[i].gen != s.gen then Suspend(s, i, Done)
    else Suspend(s, i, AwaitCategory).(tokenSub := if s.tokenSub.None? then Some(s.runs[i].gen) else s.tokenSub)
  }

  function OnRegister(s: State): State {
    if s.started then s else s.(started := true, runs := s.runs + [Registration(s.gen, AwaitPermission)])
  }

  function OnPermissionKnown(s: State, i: nat, answer: Permission): State {
    if i >= |s.runs| || !s.runs[i].at.AwaitPermission? then s
    else if answer.Granted? then Suspend(s, i, AwaitToken)
    else GiveUp(s, i)
  }

  function OnTokenKnown(s: State, i: nat, fetched: Fetched): State {
    if i >= |s.runs| || !s.runs[i].at.AwaitToken? then s
    else
      match fetched
      case IosToken(t) => Suspend(s, i, AwaitPost(t))
      case OtherToken => Listen(s, i)
      case FetchThrows => GiveUp(s, i)
  }

  function OnPosted(s: State, i: nat, ok: bool): State {
    if i >= |s.runs| || !s.runs[i].at.AwaitPost? then s
    else if !ok then GiveUp(s, i)
    else if s.runs[i].gen != s.gen then Suspend(s, i, Done)
    else Listen(Cache(s, s.runs[i].at.token, s.runs[i].gen), i)
  }

  function OnCategoryReady(s: State, i: nat, ok: bool): State {
    if i >= |s.runs| || !s.runs[i].at.AwaitCategory? then s
    else if !ok then GiveUp(s, i)
    else if s.runs[i].gen != s.gen then Suspend(s, i, Done)
    else Suspend(s, i, Done).(receivedSub := if s.receivedSub.None? then Some(s.runs[i].gen) else s.receivedSub)
  }

  function OnRotated(s: State, token: string): State {
    if s.tokenSub.None? then s else s.(rotations := s.rotations + [Rotation(s.gen, token, true)])
  }

  function OnRotationPosted(s: State, j: nat, ok: bool): State {
    if j >= |s.rotations| || !s.rotations[j].pending then s
    else
      var r := s.rotations[j];
      var t := s.(rotations := s.rotations[j := r.(pending := false)]);
      if !ok || r.gen != s.gen then t else Cache(t, r.token, r.gen)
  }

  function OnReset(s: State): State {
    Clear(s.(started := false)).(gen := s.gen + 1, tokenSub := None, receivedSub := None)
  }

  function OnPrime(s: State): State {
    if s.cached.Some? then s else s.(queue := s.queue + [Get(s.gen)])
  }

  function OnServe(s: State): State {
    if s.queue == [] then s
    else
      var t := s.(queue := s.queue[1..]);
      match s.queue[0]
      case Set(token) => t.(persisted := Some(token))
      case Remove => t.(persisted := None)
      case Get(gen) => t.(answers := s.answers + [Read(s.persisted, gen)])
  }

  function OnPrimeLands(s: State): State {
    if s.answers == [] then s
    else
      var r := s.answers[0];
      var t := s.(answers := s.answers[1..]);
      if r.value.Some? && r.value.value != "" then t.(cached := Some(Slot(r.value.value, r.gen))) else t
  }

  function Next(s: State, step: Step): State {
    match step
    case Register => OnRegister(s)
    case PermissionKnown(i, answer) => OnPermissionKnown(s, i, answer)
    case TokenKnown(i, fetched) => OnTokenKnown(s, i, fetched)
    case Posted(i, ok) => OnPosted(s, i, ok)
    case CategoryReady(i, ok) => OnCategoryReady(s, i, ok)
    case Rotated(token) => OnRotated(s, token)
    case RotationPosted(j, ok) => OnRotationPosted(s, j, ok)
    case Reset => OnReset(s)
    case Prime => OnPrime(s)
    case Serve => OnServe(s)
    case PrimeLands => OnPrimeLands(s)
  }

  function Run(s: State, steps: seq<Step>): State {
    if steps == [] then s else Next(Run(s, steps[..|steps| - 1]), steps[|steps| - 1])
  }

  // ------------------------------------------------------------ the module

  /** The module variables and callbacks of push.ts over a FIFO storage. */
  class PushModule {
    var gen: nat
    var started: bool
    var runs: seq<Registration>
    var rotations: seq<Rotation>
    var tokenSub: Option<nat>
    var receivedSub: Option<nat>
    var cached: Option<Slot>
    var persisted: Option<string>
    var queue: seq<Op>
    var answers: seq<Read>

    ghost function Abs(): State
      reads this
    {
      State(gen, started, runs, rotations, tokenSub, receivedSub, cached, persisted, queue, answers)
    }

    constructor (onDisk: Option<string>)
      ensures Abs() == Boot(onDisk)
    {
      gen, started, runs, rotations, tokenSub, receivedSub := 0, false, [], [], None, None;
      cached, persisted, queue, answers := None, onDisk, [], [];
    }

    method ClearStore()
      modifies `cached, `queue
      ensures Abs() == Clear(old(Abs()))
    {
      cached := None;
      queue := queue + [Remove];
    }

    method CacheToken(token: string, author: nat)
      modifies `cached, `queue
      ensures Abs() == Cache(old(Abs()), token, author)
    {
      if |token| == 0 {
        ClearStore();
        return;
      }
      cached := Some(Slot(token, author));
      queue := queue + [Set(token)];
    }

    method PrimeStore()
      modifies `queue
      ensures Abs() == OnPrime(old(Abs()))
    {
      if cached.Some? { return; }
      queue := queue + [Get(gen)];
    }

    method PrimeResolves()
      modifies `cached, `answers
      ensures Abs() == OnPrimeLands(old(Abs()))
    {
      if answers == [] { return; }
      var r := answers[0];
      answers := answers[1..];
      if r.value.Some? && |r.value.value| > 0 { cached := Some(Slot(r.value.value, r.gen)); }
    }

    /** The storage serves its oldest request. */
    method ServeOne()
      modifies `persisted, `queue, `answers
      ensures Abs() == OnServe(old(Abs()))
    {
      if queue == [] { return; }
      var op := queue[0];
      queue := queue[1..];
      match op
      case Set(token) => persisted := Some(token);
      case Remove => persisted := None;
      case Get(g) => answers := answers + [Read(persisted, g)];
    }

    method RegisterForPush()
      modifies `started, `runs
      ensures Abs() == OnRegister(old(Abs()))
    {
      if started { return; }
      started := true;
      runs := runs + [Registration(gen, AwaitPermission)];
    }

    method OnPermission(i: nat, answer: Permission)
      requires i < |runs| && runs[i].at.AwaitPermission?
      modifies `started, `runs
      ensures Abs() == OnPermissionKnown(old(Abs()), i, answer)
    {
      if answer.Granted? {
        runs := runs[i := runs[i].(at := AwaitToken)];
        return;
      }
      started := false;
      runs := runs[i := runs[i].(at := Done)];
    }

    /** From the generation check before the listener to the next await. */
    method InstallTokenListener(i: nat)
      requires i < |runs|
      modifies `runs, `tokenSub
      ensures Abs() == Listen(old(Abs()), i)
    {
      if runs[i].gen != gen {
        runs := runs[i := runs[i].(at := Done)];
        return;
      }
      if tokenSub.None? { tokenSub := Some(runs[i].gen); }
      runs := runs[i := runs[i].(at := AwaitCategory)];
    }

    method OnToken(i: nat, fetched: Fetched)
      requires i < |runs| && runs[i].at.AwaitToken?
      modifies `started, `runs, `tokenSub
      ensures Abs() == OnTokenKnown(old(Abs()), i, fetched)
    {
      match fetched
      case IosToken(t) => runs := runs[i := runs[i].(at := AwaitPost(t))];
      case OtherToken => InstallTokenListener(i);
      case FetchThrows =>
        started := false;
        runs := runs[i := runs[i].(at := Done)];
    }

    method PostReturns(i: nat, ok: bool)
      requires i < |runs| && runs[i].at.AwaitPost?
      modifies `started, `runs, `tokenSub, `cached, `queue
      ensures Abs() == OnPosted(old(Abs()), i, ok)
    {
      if !ok {
        started := false;
        runs := runs[i := runs[i].(at := Done)];
        return;
      }
      if runs[i].gen != gen {
        runs := runs[i := runs[i].(at := Done)];
        return;
      }
      CacheToken(runs[i].at.token, runs[i].gen);
      InstallTokenListener(i);
    }

    method OnCategory(i: nat, ok: bool)
      requires i < |runs| && runs[i].at.AwaitCategory?
      modifies `started, `runs, `receivedSub
      ensures Abs() == OnCategoryReady(old(Abs()), i, ok)
    {
      if !ok {
        started := false;
        runs := runs[i := runs[i].(at := Done)];
        return;
      }
      var current := runs[i].gen == gen;
      runs := runs[i := runs[i].(at := Done)];
      if !current { return; }
      if receivedSub.None? { receivedSub := Some(runs[i].gen); }
    }

    method OnRotation(token: string)
      modifies `rotations
      ensures Abs() == OnRotated(old(Abs()), token)
    {
      if tokenSub.None? { return; }
      rotations := rotations + [Rotation(gen, token, true)];
    }

    method RotationPostReturns(j: nat, ok: bool)
      requires j < |rotations| && rotations[j].pending
      modifies `rotations, `cached, `queue
      ensures Abs() == OnRotationPosted(old(Abs()), j, ok)
    {
      var r := rotations[j];
      rotations := rotations[j := r.(pending := false)];
      if !ok { return; }
      if r.gen != gen { return; }
      CacheToken(r.token, r.gen);
    }

    method ResetRegistration()
      modifies `gen, `started, `tokenSub, `receivedSub, `cached, `queue
      ensures Abs() == OnReset(old(Abs()))
    {
      started := false;
      ClearStore();
      gen := gen + 1;
      tokenSub := None;
      receivedSub := None;
    }
  }

  // ------------------------------------------------------------- invariant

  /** Every live listener and the cached token are the work of the current generation. */
  predicate CurrentOnly(s: State) {
    && (s.tokenSub.Some? ==> s.tokenSub.value == s.gen)
    && (s.receivedSub.Some? ==> s.receivedSub.value == s.gen)
    && (s.cached.Some? ==> s.cached.value.gen == s.gen)
  }

  function TokenOf(s: State): Option<string> {
    if s.cached.Some? then Some(s.cached.value.token) else None
  }

  /** No read that is still out can bring a token back. */
  predicate ReadsEmpty(s: State) {
    && (forall k :: 0 <= k < |s.answers| ==> s.answers[k].value.None?)
    && (forall k :: 0 <= k < |s.queue| && s.queue[k].Get? ==> Drained(s.persisted, s.queue[..k]).None?)
  }

  /** Priming has finished: memory and storage agree up to the writes under way. */
  predicate Inv(s: State) {
    CurrentOnly(s) && ReadsEmpty(s) && Drained(s.persisted, s.queue) == TokenOf(s)
  }

  lemma {:induction false} DrainedSnoc(persisted: Option<string>, queue: seq<Op>, op: Op)
    decreases |queue|
    ensures Drained(persisted, queue + [op]) == (
      match op case Set(t) => Some(t) case Remove => None case Get(_) => Drained(persisted, queue))
  {
    if queue == [] {
      assert (queue + [op])[1..] == [];
    } else {
      assert (queue + [op])[1..] == queue[1..] + [op];
      match queue[0]
      case Set(t) => DrainedSnoc(Some(t), queue[1..], op);
      case Remove => DrainedSnoc(None, queue[1..], op);
      case Get(_) => DrainedSnoc(persisted, queue[1..], op);
    }
  }

  lemma EnqueueKeeps(s: State, op: Op, slot: Option<Slot>)
    requires ReadsEmpty(s)
    requires op.Get? ==> Drained(s.persisted, s.queue).None?
    ensures ReadsEmpty(s.(cached := slot, queue := s.queue + [op]))
  {
    var q := s.queue + [op];
    forall k | 0 <= k < |q| && q[k].Get? ensures Drained(s.persisted, q[..k]).None? {
      if k < |s.queue| { assert q[..k] == s.queue[..k]; } else { assert q[..k] == s.queue; }
    }
  }

  lemma CacheKeeps(s: State, token: string)
    requires Inv(s)
    ensures Inv(Cache(s, token, s.gen))
  {
    if token == "" {
      ClearKeeps(s);
    } else {
      EnqueueKeeps(s, Set(token), Some(Slot(token, s.gen)));
      DrainedSnoc(s.persisted, s.queue, Set(token));
    }
  }

  lemma ClearKeeps(s: State)
    requires Inv(s)
    ensures Inv(Clear(s))
  {
    EnqueueKeeps(s, Remove, None);
    DrainedSnoc(s.persisted, s.queue, Remove);
  }

  lemma PrimeKeeps(s: State)
    requires Inv(s)
    ensures Inv(OnPrime(s))
  {
    if s.cached.None? {
      EnqueueKeeps(s, Get(s.gen), s.cached);
      DrainedSnoc(s.persisted, s.queue, Get(s.gen));
    }
  }

  lemma ServeKeeps(s: State)
    requires Inv(s)
    ensures Inv(OnServe(s))
  {
    if s.queue != [] {
      var t := OnServe(s);
      if s.queue[0].Get? { assert s.queue[..0] == []; }
      forall k | 0 <= k < |t.queue| && t.queue[k].Get? ensures Drained(t.persisted, t.queue[..k]).None? {
        assert s.queue[k + 1] == t.queue[k];
        assert s.queue[..k + 1][1..] == t.queue[..k];
      }
    }
  }

  lemma ListenKeeps(s: State, i: nat)
    requires Inv(s) && i < |s.runs|
    ensures Inv(Listen(s, i))
  {}

  lemma PostedKeeps(s: State, i: nat, ok: bool)
    requires Inv(s)
    ensures Inv(OnPosted(s, i, ok))
  {
    if i < |s.runs| && s.runs[i].at.AwaitPost? && ok && s.runs[i].gen == s.gen {
      CacheKeeps(s, s.runs[i].at.token);
      ListenKeeps(Cache(s, s.runs[i].at.token, s.gen), i);
    }
  }

  lemma RotationPostedKeeps(s: State, j: nat, ok: bool)
    requires Inv(s)
    ensures Inv(OnRotationPosted(s, j, ok))
  {
    if j < |s.rotations| && s.rotations[j].pending && ok && s.rotations[j].gen == s.gen {
      CacheKeeps(s.(rotations := s.rotations[j := s.rotations[j].(pending := false)]), s.rotations[j].token);
    }
  }

  lemma ResetKeeps(s: State)
    requires Inv(s)
    ensures Inv(OnReset(s))
  {
    ClearKeeps(s.(started := false));
  }

  lemma TokenKnownKeeps(s: State, i: nat, fetched: Fetched)
    requires Inv(s)
    ensures Inv(OnTokenKnown(s, i, fetched))
  {
    if i < |s.runs| { ListenKeeps(s, i); }
  }

  lemma CategoryReadyKeeps(s: State, i: nat, ok: bool)
    requires Inv(s)
    ensures Inv(OnCategoryReady(s, i, ok))
  {}

  lemma PermissionKnownKeeps(s: State, i: nat, answer: Permission)
    requires Inv(s)
    ensures Inv(OnPermissionKnown(s, i, answer))
  {}

  lemma PrimeLandsKeeps(s: State)
    requires Inv(s)
    ensures Inv(OnPrimeLands(s))
  {}

  lemma StepKeeps(s: State, step: Step)
    requires Inv(s)
    ensures Inv(Next(s, step))
  {
    match step
    case Posted(i, ok) => PostedKeeps(s, i, ok);
    case RotationPosted(j, ok) => RotationPostedKeeps(s, j, ok);
    case Reset => ResetKeeps(s);
    case Prime => PrimeKeeps(s);
    case Serve => ServeKeeps(s);
    case PermissionKnown(i, answer) => PermissionKnownKeeps(s, i, answer);
    case TokenKnown(i, fetched) => TokenKnownKeeps(s, i, fetched);
    case CategoryReady(i, ok) => CategoryReadyKeeps(s, i, ok);
    case PrimeLands => PrimeLandsKeeps(s);
    case Register =>
    case Rotated(_) =>
  }

  lemma {:induction false} RunKeeps(s: State, steps: seq<Step>)
    requires Inv(s)
    ensures Inv(Run(s, steps))
  {
    if steps != [] {
      RunKeeps(s, steps[..|steps| - 1]);
      StepKeeps(Run(s, steps[..|steps| - 1]), steps[|steps| - 1]);
    }
  }

  // -------------------------------------------------------------- theorems

  /** A process whose boot-time prime has landed before anything else ran. */
  function Primed(persisted: Option<string>): State {
    Next(Next(Next(Boot(persisted), Prime), Serve), PrimeLands)
  }

  lemma PrimedExact(persisted: Option<string>)
    requires persisted != Some("")
    ensures Inv(Primed(persisted)) && TokenOf(Primed(persisted)) == persisted
  {
    assert Next(Boot(persisted), Prime).queue == [Get(0)];
  }

  /** Once priming has finished, no interleaving of registrations, rotations, sign-outs and
      swaps lets a run or a rotation of an older generation leave a listener or a token. */
  lemma OnlyCurrentGeneration(persisted: Option<string>, steps: seq<Step>)
    requires persisted != Some("")
    ensures CurrentOnly(Run(Primed(persisted), steps))
  {
    PrimedExact(persisted);
    RunKeeps(Primed(persisted), steps);
  }

  /** When the storage has served everything, what it holds is what memory holds. */
  lemma StorageAgreesAtRest(persisted: Option<string>, steps: seq<Step>)
    requires persisted != Some("") && Run(Primed(persisted), steps).queue == []
    ensures Run(Primed(persisted), steps).persisted == TokenOf(Run(Primed(persisted), steps))
  {
    PrimedExact(persisted);
    RunKeeps(Primed(persisted), steps);
  }

  /** Right after a sign-out nothing of the old credential is left in memory, and nothing
      that was suspended can put it back: its generation is no longer current. */
  lemma ResetInvalidates(persisted: Option<string>, steps: seq<Step>)
    ensures var s := Next(Run(Primed(persisted), steps), Reset);
      && s.cached.None? && s.tokenSub.None? && s.receivedSub.None?
      && (forall i :: 0 <= i < |s.runs| ==> s.runs[i].gen < s.gen)
      && (forall j :: 0 <= j < |s.rotations| ==> s.rotations[j].gen < s.gen)
  {
    GensKeep(Primed(persisted), steps);
  }

  predicate GensOk(s: State) {
    && (forall i :: 0 <= i < |s.runs| ==> s.runs[i].gen <= s.gen)
    && (forall j :: 0 <= j < |s.rotations| ==> s.rotations[j].gen <= s.gen)
  }

  /** `t` has the runs and rotations of `s`, each with what it captured, and perhaps new ones
      of the current generation. */
  predicate Captures(s: State, t: State) {
    && s.gen <= t.gen && |s.runs| <= |t.runs| && |s.rotations| <= |t.rotations|
    && (forall i :: 0 <= i < |t.runs| ==> t.runs[i].gen == if i < |s.runs| then s.runs[i].gen else s.gen)
    && (forall j :: 0 <= j < |t.rotations| ==> t.rotations[j].gen == if j < |s.rotations| then s.rotations[j].gen else s.gen)
  }

  lemma EarlySteps(s: State, i: nat, answer: Permission, fetched: Fetched)
    ensures Captures(s, OnRegister(s)) && Captures(s, OnPermissionKnown(s, i, answer))
    ensures Captures(s, OnTokenKnown(s, i, fetched))
  {}

  lemma LateSteps(s: State, i: nat, ok: bool)
    ensures Captures(s, OnPosted(s, i, ok)) && Captures(s, OnCategoryReady(s, i, ok))
  {}

  lemma RotationSteps(s: State, token: string, j: nat, ok: bool)
    ensures Captures(s, OnRotated(s, token)) && Captures(s, OnRotationPosted(s, j, ok))
  {}

  lemma StoreSteps(s: State)
    ensures Captures(s, OnReset(s)) && Captures(s, OnPrime(s)) && Captures(s, OnServe(s)) && Captures(s, OnPrimeLands(s))
  {}

  lemma GensStep(s: State, step: Step)
    requires GensOk(s)
    ensures GensOk(Next(s, step))
  {
    assert Captures(s, Next(s, step)) by {
      match step
      case Register => EarlySteps(s, 0, Granted, OtherToken);
      case PermissionKnown(i, answer) => EarlySteps(s, i, answer, OtherToken);
      case TokenKnown(i, fetched) => EarlySteps(s, i, Granted, fetched);
      case Posted(i, ok) => LateSteps(s, i, ok);
      case CategoryReady(i, ok) => LateSteps(s, i, ok);
      case Rotated(token) => RotationSteps(s, token, 0, true);
      case RotationPosted(j, ok) => RotationSteps(s, "", j, ok);
      case _ => StoreSteps(s);
    }
  }

  lemma {:induction false} GensKeep(s: State, steps: seq<Step>)
    requires GensOk(s)
    ensures GensOk(Run(s, steps))
  {
    if steps != [] {
      GensKeep(s, steps[..|steps| - 1]);
      GensStep(Run(s, steps[..|steps| - 1]), steps[|steps| - 1]);
    }
  }

  /** A suspended run of an older generation ends where it next looks, and changes nothing else. */
  lemma StaleRunIsInert(s: State, step: Step, i: nat)
    requires i < |s.runs| && s.runs[i].gen != s.gen
    requires step == Posted(i, true) || step == CategoryReady(i, true) || step == TokenKnown(i, OtherToken)
    requires step.Posted? ==> s.runs[i].at.AwaitPost?
    requires step.CategoryReady? ==> s.runs[i].at.AwaitCategory?
    requires step.TokenKnown? ==> s.runs[i].at.AwaitToken?
    ensures Next(s, step) == s.(runs := s.runs[i := Registration(s.runs[i].gen, Done)])
  {}

  // ------------------------------------- one registration per generation

  predicate Unfinished(s: State, i: nat) {
    i < |s.runs| && s.runs[i].gen == s.gen && !s.runs[i].at.Done?
  }

  /** At most one run of the current generation is under way, and the flag shows it. */
  predicate OneCurrent(s: State) {
    && (forall i, j :: 0 <= i < |s.runs| && 0 <= j < |s.runs| && Unfinished(s, i) && Unfinished(s, j) ==> i == j)
    && (!s.started ==> forall i :: 0 <= i < |s.runs| ==> !Unfinished(s, i))
  }

  /** The step in which a run is declined or throws, and clears the flag. */
  predicate GivesUp(s: State, step: Step) {
    match step
    case PermissionKnown(i, answer) => i < |s.runs| && s.runs[i].at.AwaitPermission? && !answer.Granted?
    case TokenKnown(i, fetched) => i < |s.runs| && s.runs[i].at.AwaitToken? && fetched.FetchThrows?
    case Posted(i, ok) => i < |s.runs| && s.runs[i].at.AwaitPost? && !ok
    case CategoryReady(i, ok) => i < |s.runs| && s.runs[i].at.AwaitCategory? && !ok
    case _ => false
  }

  /** The flag has no generation: a run from before a sign-out clears it under a newer one. */
  predicate Reopens(s: State, step: Step) {
    GivesUp(s, step) && s.runs[step.i].gen != s.gen && exists k :: 0 <= k < |s.runs| && Unfinished(s, k)
  }

  /** Same generation and flag, and no run of it resumes or appears. */
  predicate NoMoreUnfinished(s: State, t: State) {
    t.gen == s.gen && t.started == s.started && |t.runs| == |s.runs|
    && forall i :: 0 <= i < |s.runs| && Unfinished(t, i) ==> Unfinished(s, i)
  }

  lemma GiveUpOne(s: State, i: nat)
    requires OneCurrent(s) && i < |s.runs| && !s.runs[i].at.Done?
    ensures OneCurrent(GiveUp(s, i)) <==> !(s.runs[i].gen != s.gen && exists k :: 0 <= k < |s.runs| && Unfinished(s, k))
  {
    var t := GiveUp(s, i);
    forall k | 0 <= k < |s.runs| ensures Unfinished(t, k) <==> k != i && Unfinished(s, k) {}
    if s.runs[i].gen == s.gen { assert Unfinished(s, i); }
  }

  lemma RegisterOne(s: State)
    requires OneCurrent(s)
    ensures OneCurrent(OnRegister(s))
  {
    var t := OnRegister(s);
    forall i | 0 <= i < |s.runs| && Unfinished(t, i) ensures Unfinished(s, i) {}
  }

  lemma ResetOne(s: State)
    requires GensOk(s)
    ensures OneCurrent(OnReset(s))
  {}

  lemma MovesOn(s: State, step: Step)
    requires !GivesUp(s, step) && !step.Register? && !step.Reset?
    ensures NoMoreUnfinished(s, Next(s, step))
  {}

  /** One step keeps it unless an older run gives up while a current one is under way. */
  lemma OneCurrentStep(s: State, step: Step)
    requires GensOk(s) && OneCurrent(s)
    ensures OneCurrent(Next(s, step)) <==> !Reopens(s, step)
  {
    if GivesUp(s, step) {
      assert Next(s, step) == GiveUp(s, step.i);
      GiveUpOne(s, step.i);
    } else if step.Register? {
      RegisterOne(s);
    } else if step.Reset? {
      ResetOne(s);
    } else {
      MovesOn(s, step);
    }
  }

  predicate OneThroughout(s: State, steps: seq<Step>) {
    OneCurrent(Run(s, steps)) && (steps == [] || OneThroughout(s, steps[..|steps| - 1]))
  }

  predicate NeverReopened(s: State, steps: seq<Step>) {
    steps == [] || (!Reopens(Run(s, steps[..|steps| - 1]), steps[|steps| - 1]) && NeverReopened(s, steps[..|steps| - 1]))
  }

  /** In every run of the module: at every point at most one registration of the current
      generation is under way, exactly when no run from before a sign-out gives up while a
      newer one is. */
  lemma {:induction false} OneRegistrationIff(persisted: Option<string>, steps: seq<Step>)
    ensures OneThroughout(Boot(persisted), steps) <==> NeverReopened(Boot(persisted), steps)
  {
    if steps != [] {
      var before := steps[..|steps| - 1];
      OneRegistrationIff(persisted, before);
      GensKeep(Boot(persisted), before);
      if OneThroughout(Boot(persisted), before) { OneCurrentStep(Run(Boot(persisted), before), steps[|steps| - 1]); }
    }
  }

  /** And whenever that happens the next mount starts a second registration beside the first. */
  lemma ReopenedGateAdmitsTwo(s: State, step: Step)
    requires Reopens(s, step)
    ensures var t := Next(Next(s, step), Register);
      exists i, j :: 0 <= i < j < |t.runs| && Unfinished(t, i) && Unfinished(t, j)
  {
    var k :| 0 <= k < |s.runs| && Unfinished(s, k);
    assert Next(s, step) == GiveUp(s, step.i);
    var t := OnRegister(GiveUp(s, step.i));
    assert t == Next(Next(s, step), Register) && |t.runs| == |s.runs| + 1;
    var n: nat := |s.runs|;
    assert k < n && Unfinished(t, k) && Unfinished(t, n);
  }

  /** A concrete run up to such a step: register, sign out, register, then the first decline. */
  lemma ReopenReached(persisted: Option<string>)
    ensures Reopens(Next(Next(Next(Boot(persisted), Register), Reset), Register), PermissionKnown(0, Declined))
  {
    var t := OnRegister(OnReset(OnRegister(Boot(persisted))));
    assert t.runs == [Registration(0, AwaitPermission), Registration(1, AwaitPermission)] && t.gen == 1;
    assert Unfinished(t, 1);
  }

  // ------------------------------------------------- without waiting for prime

  /** A read that found a token comes back after a sign-out. */
  predicate StaleAnswer(s: State, step: Step) {
    && step.PrimeLands? && s.answers != [] && s.answers[0].gen != s.gen
    && s.answers[0].value.Some? && s.answers[0].value.value != ""
  }

  lemma EarlyStepsCurrent(s: State, i: nat, answer: Permission, fetched: Fetched)
    requires CurrentOnly(s)
    ensures CurrentOnly(OnPermissionKnown(s, i, answer)) && CurrentOnly(OnTokenKnown(s, i, fetched))
  {}

  lemma PostedCurrent(s: State, i: nat, ok: bool)
    requires CurrentOnly(s)
    ensures CurrentOnly(OnPosted(s, i, ok))
  {
    if i < |s.runs| && s.runs[i].at.AwaitPost? && ok && s.runs[i].gen == s.gen {
      var t := Cache(s, s.runs[i].at.token, s.gen);
      assert CurrentOnly(t) && t.runs == s.runs && t.gen == s.gen;
      assert CurrentOnly(Listen(t, i));
    }
  }

  lemma CategoryCurrent(s: State, i: nat, ok: bool)
    requires CurrentOnly(s)
    ensures CurrentOnly(OnCategoryReady(s, i, ok))
  {}

  lemma RotationStepsCurrent(s: State, token: string, j: nat, ok: bool)
    requires CurrentOnly(s)
    ensures CurrentOnly(OnRotated(s, token)) && CurrentOnly(OnRotationPosted(s, j, ok))
  {}

  lemma StoreStepsCurrent(s: State)
    requires CurrentOnly(s)
    ensures CurrentOnly(OnRegister(s)) && CurrentOnly(OnReset(s)) && CurrentOnly(OnPrime(s)) && CurrentOnly(OnServe(s))
  {}

  lemma PrimeLandsCurrent(s: State)
    requires CurrentOnly(s)
    ensures CurrentOnly(OnPrimeLands(s)) <==> !StaleAnswer(s, PrimeLands)
  {}

  /** Every step keeps listeners and token current, except a stale answer, which never does. */
  lemma CurrentOnlyStep(s: State, step: Step)
    requires CurrentOnly(s)
    ensures CurrentOnly(Next(s, step)) <==> !StaleAnswer(s, step)
  {
    match step
    case PermissionKnown(i, answer) => EarlyStepsCurrent(s, i, answer, OtherToken);
    case TokenKnown(i, fetched) => EarlyStepsCurrent(s, i, Granted, fetched);
    case Posted(i, ok) => PostedCurrent(s, i, ok);
    case CategoryReady(i, ok) => CategoryCurrent(s, i, ok);
    case Rotated(token) => RotationStepsCurrent(s, token, 0, true);
    case RotationPosted(j, ok) => RotationStepsCurrent(s, "", j, ok);
    case PrimeLands => PrimeLandsCurrent(s);
    case _ => StoreStepsCurrent(s);
  }

  predicate CurrentThroughout(s: State, steps: seq<Step>) {
    CurrentOnly(Run(s, steps)) && (steps == [] || CurrentThroughout(s, steps[..|steps| - 1]))
  }

  predicate NoStaleAnswer(s: State, steps: seq<Step>) {
    steps == [] || (!StaleAnswer(Run(s, steps[..|steps| - 1]), steps[|steps| - 1]) && NoStaleAnswer(s, steps[..|steps| - 1]))
  }

  /** In every run from the start of the process, whenever `prime` is called: listeners and
      token belong to the current generation at every point exactly when no read that found
      a token comes back after a sign-out. `prime` does not look at the generation again. */
  lemma {:induction false} CurrentOnlyIff(persisted: Option<string>, steps: seq<Step>)
    ensures CurrentThroughout(Boot(persisted), steps) <==> NoStaleAnswer(Boot(persisted), steps)
  {
    if steps != [] {
      var before := steps[..|steps| - 1];
      CurrentOnlyIff(persisted, before);
      if CurrentThroughout(Boot(persisted), before) { CurrentOnlyStep(Run(Boot(persisted), before), steps[|steps| - 1]); }
    }
  }

  /** Whether memory then holds what the storage will hold. */
  lemma PrimeLandsAgrees(s: State)
    requires s.answers != [] && s.answers[0].value.Some? && s.answers[0].value.value != ""
    ensures TokenOf(Next(s, PrimeLands)) == Drained(s.persisted, s.queue) <==>
            Drained(s.persisted, s.queue) == s.answers[0].value
  {}

  /** A concrete run: prime, sign out while the read is out, and the old token is back. */
  lemma PrimeCanResurrect(token: string)
    requires token != ""
    ensures var s := Next(Next(Next(Next(Boot(Some(token)), Prime), Serve), Reset), PrimeLands);
      s.gen == 1 && s.cached == Some(Slot(token, 0)) && !CurrentOnly(s)
  {
    var s1 := Next(Boot(Some(token)), Prime);
    assert s1.queue == [Get(0)];
    var s3 := Next(Next(s1, Serve), Reset);
    assert s3.answers == [Read(Some(token), 0)];
  }

  // --------------------------------------------- a run that stays current

  /** A current run past its token has a token listener to go with. */
  predicate ListenersOk(s: State) {
    forall i :: 0 <= i < |s.runs| && s.runs[i].at.AwaitCategory? && s.runs[i].gen == s.gen ==> s.tokenSub.Some?
  }

  lemma ListenersEarly(s: State, i: nat, answer: Permission, fetched: Fetched)
    requires ListenersOk(s)
    ensures ListenersOk(OnRegister(s)) && ListenersOk(OnPermissionKnown(s, i, answer)) && ListenersOk(OnTokenKnown(s, i, fetched))
  {}

  lemma ListenersPosted(s: State, i: nat, ok: bool)
    requires ListenersOk(s)
    ensures ListenersOk(OnPosted(s, i, ok))
  {}

  lemma ListenersLate(s: State, i: nat, ok: bool, token: string, j: nat)
    requires ListenersOk(s)
    ensures ListenersOk(OnCategoryReady(s, i, ok)) && ListenersOk(OnRotated(s, token)) && ListenersOk(OnRotationPosted(s, j, ok))
  {}

  lemma ListenersStore(s: State)
    requires ListenersOk(s) && GensOk(s)
    ensures ListenersOk(OnReset(s)) && ListenersOk(OnPrime(s)) && ListenersOk(OnServe(s)) && ListenersOk(OnPrimeLands(s))
  {}

  lemma ListenersStep(s: State, step: Step)
    requires ListenersOk(s) && GensOk(s)
    ensures ListenersOk(Next(s, step))
  {
    match step
    case Register => ListenersEarly(s, 0, Granted, OtherToken);
    case PermissionKnown(i, answer) => ListenersEarly(s, i, answer, OtherToken);
    case TokenKnown(i, fetched) => ListenersEarly(s, i, Granted, fetched);
    case Posted(i, ok) => ListenersPosted(s, i, ok);
    case CategoryReady(i, ok) => ListenersLate(s, i, ok, "", 0);
    case Rotated(token) => ListenersLate(s, 0, true, token, 0);
    case RotationPosted(j, ok) => ListenersLate(s, 0, ok, "", j);
    case _ => ListenersStore(s);
  }

  lemma {:induction false} ListenersKeep(persisted: Option<string>, steps: seq<Step>)
    ensures ListenersOk(Run(Boot(persisted), steps)) && GensOk(Run(Boot(persisted), steps))
  {
    if steps != [] {
      ListenersKeep(persisted, steps[..|steps| - 1]);
      ListenersStep(Run(Boot(persisted), steps[..|steps| - 1]), steps[|steps| - 1]);
      GensStep(Run(Boot(persisted), steps[..|steps| - 1]), steps[|steps| - 1]);
    }
  }

  /** In every run, a run still current when its POST succeeds caches the posted token, sends
      it to the storage and listens for rotations. */
  lemma PostedToken(persisted: Option<string>, steps: seq<Step>, i: nat)
    requires var s := Run(Boot(persisted), steps);
      i < |s.runs| && s.runs[i].at.AwaitPost? && s.runs[i].gen == s.gen && s.runs[i].at.token != ""
    ensures var s := Run(Boot(persisted), steps); var t := Next(s, Posted(i, true)); var token := s.runs[i].at.token;
      && t.cached == Some(Slot(token, s.gen)) && t.queue == s.queue + [Set(token)]
      && t.tokenSub.Some? && t.runs == s.runs[i := Registration(s.gen, AwaitCategory)]
      && t.started == s.started
  {}

  /** In every run, a run still current when the category is ready ends with both listeners. */
  lemma RegistrationCompletes(persisted: Option<string>, steps: seq<Step>, i: nat)
    requires var s := Run(Boot(persisted), steps); i < |s.runs| && s.runs[i].at.AwaitCategory? && s.runs[i].gen == s.gen
    ensures var s := Run(Boot(persisted), steps); var t := Next(s, CategoryReady(i, true));
      && t.tokenSub.Some? && t.receivedSub.Some? && t.runs == s.runs[i := Registration(s.gen, Done)]
      && t.cached == s.cached && t.started == s.started
  {
    ListenersKeep(persisted, steps);
  }

  /** A rotated token is posted exactly when a listener is on, for the generation of then; its
      POST lands once, and replaces the cached token exactly when it succeeded and no sign-out
      came in between. */
  lemma RotationLands(s: State, token: string, j: nat, ok: bool)
    requires j < |s.rotations| && s.rotations[j].pending && s.rotations[j].token != ""
    ensures Next(s, Rotated(token)) ==
      if s.tokenSub.Some? then s.(rotations := s.rotations + [Rotation(s.gen, token, true)]) else s
    ensures var r := s.rotations[j]; var settled := s.(rotations := s.rotations[j := r.(pending := false)]);
      Next(s, RotationPosted(j, ok)) ==
        if ok && r.gen == s.gen then settled.(cached := Some(Slot(r.token, r.gen)), queue := s.queue + [Set(r.token)])
        else settled
  {}

  /** The storage serves its oldest request, and reads come back in the order they were asked. */
  lemma ServedInOrder(s: State)
    requires s.queue != []
    ensures var t := Next(s, Serve);
      && t.queue == s.queue[1..]
      && t.persisted == (match s.queue[0] case Set(token) => Some(token) case Remove => None case Get(_) => s.persisted)
      && t.answers == s.answers + (if s.queue[0].Get? then [Read(s.persisted, s.queue[0].gen)] else [])
  {}

  /** The undisturbed course of a first registration, from any signed-in state without one:
      the token is in memory and on its way to the storage, and both listeners are on. */
  lemma FirstRegistration(s: State, token: string)
    requires !s.started && s.tokenSub.None? && s.receivedSub.None? && token != ""
    ensures var i := |s.runs|;
      var t := Run(s, [Register, PermissionKnown(i, Granted), TokenKnown(i, IosToken(token)), Posted(i, true), CategoryReady(i, true)]);
      && t == s.(started := true, runs := s.runs + [Registration(s.gen, Done)], cached := Some(Slot(token, s.gen)),
                 queue := s.queue + [Set(token)], tokenSub := Some(s.gen), receivedSub := Some(s.gen))
  {
    var i := |s.runs|;
    var asked := [Register, PermissionKnown(i, Granted), TokenKnown(i, IosToken(token))];
    RunSteps(s, Register, PermissionKnown(i, Granted), TokenKnown(i, IosToken(token)));
    var s1 := s.(started := true, runs := s.runs + [Registration(s.gen, AwaitPost(token))]);
    FirstThree(s, token);
    assert Run(s, asked) == s1;
    var s2 := Next(s1, Posted(i, true));
    var s3 := Next(s2, CategoryReady(i, true));
    var all := asked + [Posted(i, true), CategoryReady(i, true)];
    assert all == [Register, PermissionKnown(i, Granted), TokenKnown(i, IosToken(token)), Posted(i, true), CategoryReady(i, true)];
    assert all[..4] == asked + [Posted(i, true)] && (asked + [Posted(i, true)])[..3] == asked;
    assert Run(s, all[..4]) == s2 && Run(s, all) == s3;
    LastTwo(s, token);
  }

  lemma RunSteps(s: State, a: Step, b: Step, c: Step)
    ensures Run(s, [a, b, c]) == Next(Next(Next(s, a), b), c)
  {
    assert [a, b, c][..2] == [a, b] && [a, b][..1] == [a] && [a][..0] == [];
    assert Run(s, [a]) == Next(Run(s, []), a);
    assert Run(s, [a, b]) == Next(Run(s, [a]), b);
  }

  lemma FirstThree(s: State, token: string)
    requires !s.started
    ensures var i := |s.runs|;
      Next(Next(Next(s, Register), PermissionKnown(i, Granted)), TokenKnown(i, IosToken(token))) ==
        s.(started := true, runs := s.runs + [Registration(s.gen, AwaitPost(token))])
  {
    var i := |s.runs|;
    var s1 := OnRegister(s);
    var s2 := OnPermissionKnown(s1, i, Granted);
    assert s2.runs == s.runs + [Registration(s.gen, AwaitToken)];
  }

  lemma LastTwo(s: State, token: string)
    requires s.tokenSub.None? && s.receivedSub.None? && token != ""
    ensures var i := |s.runs|;
      var s1 := s.(started := true, runs := s.runs + [Registration(s.gen, AwaitPost(token))]);
      Next(Next(s1, Posted(i, true)), CategoryReady(i, true)) ==
        s.(started := true, runs := s.runs + [Registration(s.gen, Done)], cached := Some(Slot(token, s.gen)),
           queue := s.queue + [Set(token)], tokenSub := Some(s.gen), receivedSub := Some(s.gen))
  {
    var i := |s.runs|;
    var s1 := s.(started := true, runs := s.runs + [Registration(s.gen, AwaitPost(token))]);
    var s2 := OnPosted(s1, i, true);
    assert s2.runs == s.runs + [Registration(s.gen, AwaitCategory)] && s2.tokenSub == Some(s.gen);
    var s3 := OnCategoryReady(s2, i, true);
    assert s3.runs == s.runs + [Registration(s.gen, Done)];
  }
}
