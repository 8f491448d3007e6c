/** packages/mobile/src/queries.ts, `useChatStream`: one hook instance, the effects it runs
    one after another as its session changes, and the callbacks each of them leaves behind. */
module ChatStream {
  import opened Common
  import opened ChatBlocks

  datatype Session = Session(id: string, title: string)

  datatype AppState = Active | Background | Inactive | Unknown | Extension

  /** The variables one effect's callbacks close over. `pending` is its unresolved seed;
      `open` says it holds an event source; `heard`, that it ever attached listeners. */
  datatype Effect = Effect(sid: string, cancelled: bool, seeded: bool, pending: bool, open: bool, heard: bool)

  /** The hook's refs and effects. `opens` lists the Last-Event-ID header of every stream
      opened; `foreground` says that the last of the active, background and inactive states
      reported was active. */
  datatype State = State(
    forSession: Option<string>, blocks: Option<seq<Block>>, session: Option<Session>, lastSeen: Option<string>,
    effects: seq<Effect>, app: AppState, foreground: bool, opens: seq<Option<string>>)

  datatype Event =
    | SetSession(sid: Option<string>)
    | SeedOk(i: nat, seed: seq<Block>, record: Session, endpointOk: bool)
    | SeedFailed(i: nat, unauthorized: bool, endpointOk: bool)
    | BlockFrame(i: nat, block: Block, wireId: Option<string>)
    | SessionFrame(i: nat, record: Session)
    | StreamError(i: nat, unauthorized: bool)
    | AppChange(state: AppState, endpointOk: bool)

  function Mounted(app: AppState): State {
    State(None, None, None, None, [], app, app.Active?, [])
  }

  function WithEffect(s: State, i: nat, e: Effect): State
    requires i < |s.effects|
  {
    s.(effects := s.effects[i := e])
  }

  function CloseStream(s: State, i: nat): State
    requires i < |s.effects|
  {
    WithEffect(s, i, s.effects[i].(open := false))
  }

  function OpenStream(s: State, i: nat, endpointOk: bool): State
    requires i < |s.effects|
  {
    if s.effects[i].cancelled || s.effects[i].open || !endpointOk then s
    else WithEffect(s, i, s.effects[i].(open := true, heard := true)).(opens := s.opens + [s.lastSeen])
  }

  function MaybeOpenStream(s: State, i: nat, endpointOk: bool): State
    requires i < |s.effects|
  {
    var e := s.effects[i];
    if !e.seeded || e.cancelled || e.open || !s.app.Active? then s else OpenStream(s, i, endpointOk)
  }

  function BlocksOf(s: State): seq<Block> {
    if s.blocks.Some? then s.blocks.value else []
  }

  function ApplyBlock(s: State, sid: string, b: Block, wireId: Option<string>): State {
    if s.forSession != Some(sid) || b.sessionId != sid then s
    else
      s.(blocks := Some(Upsert(BlocksOf(s), b)),
         lastSeen := if wireId.Some? && wireId.value != "" then wireId else s.lastSeen)
  }

  function ApplySession(s: State, sid: string, record: Session): State {
    if s.forSession != Some(sid) || record.id != sid then s else s.(session := Some(record))
  }

  function LastIdOf(blocks: seq<Block>): Option<string> {
    if blocks == [] then None else Some(blocks[|blocks| - 1].id)
  }

  function Seeded(s: State, i: nat, seed: seq<Block>, record: Session): State
    requires i < |s.effects|
  {
    var merged := Merge(seed, BlocksOf(s));
    WithEffect(s, i, s.effects[i].(seeded := true, pending := false))
    .(forSession := Some(s.effects[i].sid), blocks := Some(merged), lastSeen := LastIdOf(merged),
      session := if s.session.Some? then s.session else Some(record))
  }

  /** The previous effect's cleanup, if an effect is running. */
  function Cleanup(s: State): State {
    if s.effects == [] then s
    else WithEffect(s, |s.effects| - 1, s.effects[|s.effects| - 1].(cancelled := true, open := false))
  }

  /** The listener is that of the one effect not yet cleaned up, if there is one. */
  function OnAppState(s: State, app: AppState, endpointOk: bool): State {
    var t := s.(app := app,
                foreground := if app.Active? then true else if app.Background? || app.Inactive? then false else s.foreground);
    if s.effects == [] || s.effects[|s.effects| - 1].cancelled then t
    else if app.Active? then MaybeOpenStream(t, |s.effects| - 1, endpointOk)
    else if app.Background? || app.Inactive? then CloseStream(t, |s.effects| - 1)
    else t
  }

  /** May this event happen now? A seed resolves once; frames and errors come from streams
      that were opened. */
  predicate Enabled(s: State, e: Event) {
    match e
    case SetSession(_) => true
    case SeedOk(i, _, _, _) => i < |s.effects| && s.effects[i].pending
    case SeedFailed(i, _, _) => i < |s.effects| && s.effects[i].pending
    case BlockFrame(i, _, _) => i < |s.effects| && s.effects[i].heard
    case SessionFrame(i, _) => i < |s.effects| && s.effects[i].heard
    case StreamError(i, _) => i < |s.effects| && s.effects[i].heard
    case AppChange(_, _) => true
  }

  function Next(s: State, e: Event): State {
    if !Enabled(s, e) then s
    else
      match e
      case SetSession(sid) =>
        var t := Cleanup(s).(forSession := sid, blocks := None, session := None, lastSeen := None);
        if sid.None? then t else t.(effects := t.effects + [Effect(sid.value, false, false, true, false, false)])
      case SeedOk(i, seed, record, ok) =>
        if s.effects[i].cancelled then WithEffect(s, i, s.effects[i].(pending := false))
        else MaybeOpenStream(Seeded(s, i, seed, record), i, ok)
      case SeedFailed(i, unauthorized, ok) =>
        if s.effects[i].cancelled || unauthorized then WithEffect(s, i, s.effects[i].(pending := false))
        else MaybeOpenStream(WithEffect(s, i, s.effects[i].(pending := false, seeded := true)), i, ok)
      case BlockFrame(i, b, wireId) => if s.effects[i].cancelled then s else ApplyBlock(s, s.effects[i].sid, b, wireId)
      case SessionFrame(i, record) => if s.effects[i].cancelled then s else ApplySession(s, s.effects[i].sid, record)
      case StreamError(i, unauthorized) =>
        if s.effects[i].cancelled || !unauthorized then s else CloseStream(s, i)
      case AppChange(app, ok) => OnAppState(s, app, ok)
  }

  function Run(app: AppState, events: seq<Event>): State {
    if events == [] then Mounted(app) else Next(Run(app, events[..|events| - 1]), events[|events| - 1])
  }

  // -------------------------------------------------------------- the hook

  class ChatStream {
    var forSession: Option<string>
    var blocks: Option<seq<Block>>
    var session: Option<Session>
    var lastSeen: Option<string>
    var effects: seq<Effect>
    var app: AppState
    ghost var foreground: bool
    ghost var opens: seq<Option<string>>

    ghost function Abs(): State
      reads this
    {
      State(forSession, blocks, session, lastSeen, effects, app, foreground, opens)
    }

    constructor (current: AppState)
      ensures Abs() == Mounted(current)
    {
      forSession, blocks, session, lastSeen, effects, app := None, None, None, None, [], current;
      foreground, opens := current.Active?, [];
    }

    method Close(i: nat)
      requires i < |effects|
      modifies `effects
      ensures Abs() == CloseStream(old(Abs()), i)
    {
      if !effects[i].open {
        assert effects == effects[i := effects[i].(open := false)];
        return;
      }
      effects := effects[i := effects[i].(open := false)];
    }

    method Open(i: nat, endpointOk: bool)
      requires i < |effects|
      modifies `effects, `opens
      ensures Abs() == OpenStream(old(Abs()), i, endpointOk)
    {
      if effects[i].cancelled { return; }
      if effects[i].open { return; }
      if !endpointOk { return; }
      opens := opens + [lastSeen];
      effects := effects[i := effects[i].(open := true, heard := true)];
    }

    method MaybeOpen(i: nat, endpointOk: bool)
      requires i < |effects|
      modifies `effects, `opens
      ensures Abs() == MaybeOpenStream(old(Abs()), i, endpointOk)
    {
      if !effects[i].seeded { return; }
      if effects[i].cancelled { return; }
      if effects[i].open { return; }
      if !app.Active? { return; }
      Open(i, endpointOk);
    }

    method OnBlock(i: nat, block: Block, wireId: Option<string>)
      requires Enabled(Abs(), BlockFrame(i, block, wireId))
      modifies `blocks, `lastSeen
      ensures Abs() == Next(old(Abs()), BlockFrame(i, block, wireId))
    {
      if effects[i].cancelled { return; }
      if forSession != Some(effects[i].sid) { return; }
      if block.sessionId != effects[i].sid { return; }
      var next := UpsertBlock(if blocks.Some? then blocks.value else [], block);
      blocks := Some(next);
      if wireId.Some? && wireId.value != "" { lastSeen := wireId; }
    }

    method OnSession(i: nat, record: Session)
      requires Enabled(Abs(), SessionFrame(i, record))
      modifies `session
      ensures Abs() == Next(old(Abs()), SessionFrame(i, record))
    {
      if effects[i].cancelled { return; }
      if forSession != Some(effects[i].sid) { return; }
      if record.id != effects[i].sid { return; }
      session := Some(record);
    }

    method OnError(i: nat, unauthorized: bool)
      requires Enabled(Abs(), StreamError(i, unauthorized))
      modifies `effects
      ensures Abs() == Next(old(Abs()), StreamError(i, unauthorized))
    {
      if effects[i].cancelled { return; }
      if unauthorized { Close(i); }
    }

    method OnSeed(i: nat, seed: seq<Block>, record: Session, endpointOk: bool)
      requires Enabled(Abs(), SeedOk(i, seed, record, endpointOk))
      modifies this
      ensures Abs() == Next(old(Abs()), SeedOk(i, seed, record, endpointOk))
    {
      if effects[i].cancelled {
        effects := effects[i := effects[i].(pending := false)];
        return;
      }
      var merged := Merge(seed, if blocks.Some? then blocks.value else []);
      if session.None? { session := Some(record); }
      forSession, blocks := Some(effects[i].sid), Some(merged);
      lastSeen := if |merged| > 0 then Some(merged[|merged| - 1].id) else None;
      effects := effects[i := effects[i].(seeded := true, pending := false)];
      assert Abs() == Seeded(old(Abs()), i, seed, record);
      MaybeOpen(i, endpointOk);
    }

    method OnSeedFailed(i: nat, unauthorized: bool, endpointOk: bool)
      requires Enabled(Abs(), SeedFailed(i, unauthorized, endpointOk))
      modifies `effects, `opens
      ensures Abs() == Next(old(Abs()), SeedFailed(i, unauthorized, endpointOk))
    {
      if effects[i].cancelled || unauthorized {
        effects := effects[i := effects[i].(pending := false)];
        return;
      }
      effects := effects[i := effects[i].(pending := false, seeded := true)];
      MaybeOpen(i, endpointOk);
    }

    method OnAppChange(state: AppState, endpointOk: bool)
      modifies `app, `foreground, `effects, `opens
      ensures Abs() == Next(old(Abs()), AppChange(state, endpointOk))
    {
      app := state;
      foreground := if state.Active? then true else if state.Background? || state.Inactive? then false else foreground;
      if effects == [] || effects[|effects| - 1].cancelled { return; }
      if state.Active? {
        MaybeOpen(|effects| - 1, endpointOk);
      } else if state.Background? || state.Inactive? {
        Close(|effects| - 1);
      }
    }

    /** The previous effect's cleanup, the reset, and the next effect. */
    method RunEffect(sid: Option<string>)
      modifies this
      ensures Abs() == Next(old(Abs()), SetSession(sid))
    {
      if effects != [] {
        effects := effects[|effects| - 1 := effects[|effects| - 1].(cancelled := true, open := false)];
      }
      forSession, blocks, session, lastSeen := sid, None, None, None;
      if sid.Some? { effects := effects + [Effect(sid.value, false, false, true, false, false)]; }
    }
  }

  // ------------------------------------------------------------- invariant

  predicate IsCurrent(s: State, i: nat) {
    i == |s.effects| - 1 && !s.effects[i].cancelled
  }

  predicate EffectOk(s: State, i: nat)
    requires i < |s.effects|
  {
    var e := s.effects[i];
    && (!e.cancelled ==> i == |s.effects| - 1 && s.forSession == Some(e.sid))
    && (e.open ==> e.seeded && !e.cancelled && s.foreground)
    && (e.heard ==> e.seeded)
    && (e.pending ==> !e.seeded)
    && (!e.seeded && !e.cancelled ==> s.blocks.None? && s.session.None? && s.lastSeen.None?)
  }

  /** Every block belongs to the session on screen, and no id appears twice. */
  predicate BlocksOk(s: State) {
    && (s.forSession.None? ==> s.blocks.None?)
    && DistinctIds(BlocksOf(s))
    && forall k :: 0 <= k < |BlocksOf(s)| ==> Some(BlocksOf(s)[k].sessionId) == s.forSession
  }

  predicate Inv(s: State) {
    && (forall i: nat :: i < |s.effects| ==> EffectOk(s, i))
    && (s.app.Active? ==> s.foreground)
    && BlocksOk(s)
  }

  /** The gateway answers a seed request with that session's own blocks, each once. */
  predicate HonestSeed(s: State, e: Event) {
    e.SeedOk? && e.i < |s.effects| ==>
      && DistinctIds(e.seed)
      && forall k :: 0 <= k < |e.seed| ==> e.seed[k].sessionId == s.effects[e.i].sid
  }

  predicate HonestSeeds(app: AppState, events: seq<Event>) {
    events == []
    || (HonestSeeds(app, events[..|events| - 1]) && HonestSeed(Run(app, events[..|events| - 1]), events[|events| - 1]))
  }

  lemma OpenKeeps(s: State, i: nat, ok: bool)
    requires Inv(s) && i < |s.effects|
    ensures Inv(MaybeOpenStream(s, i, ok))
  {
    var t := MaybeOpenStream(s, i, ok);
    forall j: nat | j < |t.effects| ensures EffectOk(t, j) { assert EffectOk(s, j); }
  }

  lemma SetSessionKeeps(s: State, sid: Option<string>)
    requires Inv(s)
    ensures Inv(Next(s, SetSession(sid)))
  {
    var t := Next(s, SetSession(sid));
    forall j: nat | j < |t.effects| ensures EffectOk(t, j) {
      if j < |s.effects| { assert EffectOk(s, j); }
    }
  }

  /** An effect whose seed is out has shown nothing yet, so there is nothing to merge. */
  lemma NothingToMerge(s: State, i: nat, seed: seq<Block>)
    requires Inv(s) && i < |s.effects| && s.effects[i].pending && !s.effects[i].cancelled
    ensures IsCurrent(s, i) && s.blocks.None? && s.session.None? && Merge(seed, BlocksOf(s)) == seed
  {
    assert EffectOk(s, i);
  }

  lemma SeedKeeps(s: State, e: Event)
    requires Inv(s) && HonestSeed(s, e) && e.SeedOk? && Enabled(s, e)
    ensures Inv(Next(s, e))
  {
    if s.effects[e.i].cancelled {
      EffectsKeep(s, Next(s, e));
    } else {
      NothingToMerge(s, e.i, e.seed);
      var t := Seeded(s, e.i, e.seed, e.record);
      forall j: nat | j < |t.effects| ensures EffectOk(t, j) { assert EffectOk(s, j); }
      assert BlocksOf(t) == e.seed;
      OpenKeeps(t, e.i, e.endpointOk);
    }
  }

  /** Effects that only stop waiting, or only close, stay in order. */
  lemma EffectsKeep(s: State, t: State)
    requires Inv(s) && t == s.(effects := t.effects) && |t.effects| == |s.effects|
    requires forall j :: 0 <= j < |s.effects| ==>
      (t.effects[j] == s.effects[j] || t.effects[j] == s.effects[j].(pending := false) || t.effects[j] == s.effects[j].(open := false))
    ensures Inv(t)
  {
    forall j: nat | j < |t.effects| ensures EffectOk(t, j) { assert EffectOk(s, j); }
  }

  lemma SeedFailedKeeps(s: State, e: Event)
    requires Inv(s) && e.SeedFailed? && Enabled(s, e)
    ensures Inv(Next(s, e))
  {
    if s.effects[e.i].cancelled || e.unauthorized {
      EffectsKeep(s, Next(s, e));
    } else {
      var t := WithEffect(s, e.i, s.effects[e.i].(pending := false, seeded := true));
      forall j: nat | j < |t.effects| ensures EffectOk(t, j) { assert EffectOk(s, j); }
      OpenKeeps(t, e.i, e.endpointOk);
    }
  }

  lemma UpsertStays(list: seq<Block>, b: Block, sid: string)
    requires DistinctIds(list) && b.sessionId == sid && forall k :: 0 <= k < |list| ==> list[k].sessionId == sid
    ensures DistinctIds(Upsert(list, b))
    ensures forall k :: 0 <= k < |Upsert(list, b)| ==> Upsert(list, b)[k].sessionId == sid
  {
    UpsertMeaning(list, b, b.id);
  }

  lemma FrameKeeps(s: State, e: Event)
    requires Inv(s) && (e.BlockFrame? || e.SessionFrame?) && Enabled(s, e)
    ensures Inv(Next(s, e))
  {
    var t := Next(s, e);
    assert EffectOk(s, e.i);
    if e.BlockFrame? && !s.effects[e.i].cancelled && e.block.sessionId == s.effects[e.i].sid {
      UpsertStays(BlocksOf(s), e.block, s.effects[e.i].sid);
    }
    forall j: nat | j < |t.effects| ensures EffectOk(t, j) { assert EffectOk(s, j); }
  }

  lemma AppChangeKeeps(s: State, app: AppState, ok: bool)
    requires Inv(s)
    ensures Inv(Next(s, AppChange(app, ok)))
  {
    var n := |s.effects|;
    var t := s.(app := app, foreground := OnAppState(s, app, ok).foreground);
    if n > 0 { assert EffectOk(s, n - 1); }
    if n > 0 && !s.effects[n - 1].cancelled && (app.Background? || app.Inactive?) {
      var u := CloseStream(t, n - 1);
      forall j: nat | j < n ensures EffectOk(u, j) { assert EffectOk(s, j); }
    } else {
      forall j: nat | j < n ensures EffectOk(t, j) { assert EffectOk(s, j); }
      if n > 0 && app.Active? { OpenKeeps(t, n - 1, ok); }
    }
  }

  lemma StepKeeps(s: State, e: Event)
    requires Inv(s) && HonestSeed(s, e)
    ensures Inv(Next(s, e))
  {
    if Enabled(s, e) {
      match e
      case SetSession(sid) => SetSessionKeeps(s, sid);
      case SeedOk(_, _, _, _) => SeedKeeps(s, e);
      case SeedFailed(_, _, _) => SeedFailedKeeps(s, e);
      case BlockFrame(_, _, _) => FrameKeeps(s, e);
      case SessionFrame(_, _) => FrameKeeps(s, e);
      case StreamError(_, _) => EffectsKeep(s, Next(s, e));
      case AppChange(app, ok) => AppChangeKeeps(s, app, ok);
    }
  }

  lemma {:induction false} RunKeeps(app: AppState, events: seq<Event>)
    requires HonestSeeds(app, events)
    ensures Inv(Run(app, events))
  {
    if events != [] {
      RunKeeps(app, events[..|events| - 1]);
      StepKeeps(Run(app, events[..|events| - 1]), events[|events| - 1]);
    }
  }

  // -------------------------------------------------------------- theorems

  /** A stream is held only by the effect of the session on screen, after its seed resolved,
      not cancelled, and with the app last reported active rather than background or inactive. */
  lemma OpenOnlyWhenWatching(app: AppState, events: seq<Event>, i: nat)
    requires HonestSeeds(app, events)
    requires i < |Run(app, events).effects| && Run(app, events).effects[i].open
    ensures var s := Run(app, events);
      IsCurrent(s, i) && s.effects[i].seeded && s.forSession == Some(s.effects[i].sid) && s.foreground
  {
    RunKeeps(app, events);
    assert EffectOk(Run(app, events), i);
  }

  /** States other than active, background and inactive leave an open stream open. */
  lemma OtherStatesKeepStream(s: State, app: AppState, ok: bool, i: nat)
    requires Inv(s) && i < |s.effects| && s.effects[i].open
    ensures Next(s, AppChange(app, ok)).effects[i].open <==> !app.Background? && !app.Inactive?
  {
    assert EffectOk(s, i);
  }

  /** The seed never overwrites a frame: when it resolves, nothing has been shown, and what
      is shown afterwards is the response itself. */
  lemma SeedNeverOverwrites(app: AppState, events: seq<Event>, i: nat, seed: seq<Block>, record: Session, ok: bool)
    requires HonestSeeds(app, events)
    requires var s := Run(app, events); i < |s.effects| && s.effects[i].pending && !s.effects[i].cancelled
    ensures var s := Run(app, events); var t := Next(s, SeedOk(i, seed, record, ok));
      s.blocks.None? && s.session.None? && t.blocks == Some(seed) && t.session == Some(record) && t.lastSeen == LastIdOf(seed)
  {
    RunKeeps(app, events);
    NothingToMerge(Run(app, events), i, seed);
  }

  /** No foreign block and no repeated id is ever shown. */
  lemma OnlyOwnBlocks(app: AppState, events: seq<Event>, k: nat)
    requires HonestSeeds(app, events) && k < |BlocksOf(Run(app, events))|
    ensures var s := Run(app, events);
      && Some(BlocksOf(s)[k].sessionId) == s.forSession
      && forall j :: 0 <= j < |BlocksOf(s)| && j != k ==> BlocksOf(s)[j].id != BlocksOf(s)[k].id
  {
    RunKeeps(app, events);
  }

  /** Nothing a cancelled effect left behind changes what is shown, what is open, or the
      resume cursor. */
  lemma CancelledActsNever(s: State, e: Event, i: nat)
    requires i < |s.effects| && s.effects[i].cancelled
    requires (e.SeedOk? && e.i == i) || (e.SeedFailed? && e.i == i) || (e.BlockFrame? && e.i == i)
      || (e.SessionFrame? && e.i == i) || (e.StreamError? && e.i == i)
    ensures Next(s, e) == s.(effects := Next(s, e).effects)
    ensures |Next(s, e).effects| == |s.effects|
    ensures forall j :: 0 <= j < |s.effects| ==>
      Next(s, e).effects[j] == s.effects[j] || Next(s, e).effects[j] == s.effects[j].(pending := false)
  {}

  /** Frames of the current stream are upserted one by one, and the cursor sent with the next
      connection is the last of them. */
  lemma FramesAreUpserts(app: AppState, events: seq<Event>, i: nat, frames: seq<Block>)
    requires HonestSeeds(app, events)
    requires i < |Run(app, events).effects|
    requires Run(app, events).effects[i].heard && !Run(app, events).effects[i].cancelled
    requires forall k :: 0 <= k < |frames| ==> frames[k].sessionId == Run(app, events).effects[i].sid
    ensures var s := Run(app, events); var t := RunFrames(s, i, frames);
      && BlocksOf(t) == UpsertAll(BlocksOf(s), frames) && t.effects == s.effects
      && t.lastSeen == Resume(s.lastSeen, frames)
  {
    RunKeeps(app, events);
    assert EffectOk(Run(app, events), i);
    FramesUpsert(Run(app, events), i, frames);
  }

  /** The resume cursor: the last frame that carried an id. */
  function Resume(before: Option<string>, frames: seq<Block>): Option<string> {
    if frames == [] then before
    else if frames[|frames| - 1].id != "" then Some(frames[|frames| - 1].id)
    else Resume(before, frames[..|frames| - 1])
  }

  function RunFrames(s: State, i: nat, frames: seq<Block>): State {
    if frames == [] then s
    else Next(RunFrames(s, i, frames[..|frames| - 1]), BlockFrame(i, frames[|frames| - 1], Some(frames[|frames| - 1].id)))
  }

  lemma {:induction false} FramesUpsert(s: State, i: nat, frames: seq<Block>)
    requires i < |s.effects| && s.effects[i].heard && !s.effects[i].cancelled && s.forSession == Some(s.effects[i].sid)
    requires forall k :: 0 <= k < |frames| ==> frames[k].sessionId == s.effects[i].sid
    ensures var t := RunFrames(s, i, frames);
      && BlocksOf(t) == UpsertAll(BlocksOf(s), frames) && t.effects == s.effects && t.forSession == s.forSession
      && t.lastSeen == Resume(s.lastSeen, frames)
  {
    if frames != [] { FramesUpsert(s, i, frames[..|frames| - 1]); }
  }

  // --------------------------------------------------- when a stream opens

  /** The session the screen asked for last. */
  function Asked(events: seq<Event>): Option<string> {
    if events == [] then None
    else if events[|events| - 1].SetSession? then events[|events| - 1].sid
    else Asked(events[..|events| - 1])
  }

  predicate Tracks(s: State, sid: Option<string>) {
    && s.forSession == sid
    && (sid.Some? <==> s.effects != [] && !s.effects[|s.effects| - 1].cancelled)
    && (sid.Some? ==> s.effects[|s.effects| - 1].sid == sid.value)
  }

  predicate SameEffects(s: State, t: State) {
    |t.effects| == |s.effects|
    && forall i :: 0 <= i < |s.effects| ==>
         t.effects[i].sid == s.effects[i].sid && t.effects[i].cancelled == s.effects[i].cancelled
  }

  lemma OpeningKeepsEffects(s: State, i: nat, ok: bool)
    requires i < |s.effects|
    ensures SameEffects(s, MaybeOpenStream(s, i, ok)) && SameEffects(s, CloseStream(s, i))
  {}

  /** Nothing but a session change adds an effect or cleans one up. */
  lemma EffectsKept(s: State, e: Event)
    requires !e.SetSession?
    ensures SameEffects(s, Next(s, e))
  {
    if Enabled(s, e) {
      match e
      case SeedOk(i, seed, record, ok) => OpeningKeepsEffects(Seeded(s, i, seed, record), i, ok);
      case SeedFailed(i, _, ok) => OpeningKeepsEffects(WithEffect(s, i, s.effects[i].(pending := false, seeded := true)), i, ok);
      case StreamError(i, _) => OpeningKeepsEffects(s, i, true);
      case AppChange(app, ok) =>
        if s.effects != [] { OpeningKeepsEffects(s.(app := app, foreground := OnAppState(s, app, ok).foreground), |s.effects| - 1, ok); }
      case _ =>
    }
  }

  lemma SessionKept(s: State, e: Event)
    requires Inv(s) && !e.SetSession?
    ensures Next(s, e).forSession == s.forSession
  {
    if e.SeedOk? && Enabled(s, e) { assert EffectOk(s, e.i); }
  }

  lemma TracksStep(s: State, e: Event, sid: Option<string>)
    requires Inv(s) && Tracks(s, sid)
    ensures Tracks(Next(s, e), if e.SetSession? then e.sid else sid)
  {
    if !e.SetSession? {
      EffectsKept(s, e);
      SessionKept(s, e);
    }
  }

  /** There is an effect that is not cleaned up exactly when a session is asked for, and it
      is that session's. */
  lemma {:induction false} CurrentIsAsked(app: AppState, events: seq<Event>)
    requires HonestSeeds(app, events)
    ensures Tracks(Run(app, events), Asked(events))
  {
    if events != [] {
      CurrentIsAsked(app, events[..|events| - 1]);
      RunKeeps(app, events[..|events| - 1]);
      TracksStep(Run(app, events[..|events| - 1]), events[|events| - 1], Asked(events[..|events| - 1]));
    }
  }

  /** The application state last reported. */
  function LastReported(app: AppState, events: seq<Event>): AppState {
    if events == [] then app
    else if events[|events| - 1].AppChange? then events[|events| - 1].state
    else LastReported(app, events[..|events| - 1])
  }

  lemma {:induction false} AppIsLastReported(app: AppState, events: seq<Event>)
    ensures Run(app, events).app == LastReported(app, events)
  {
    if events != [] { AppIsLastReported(app, events[..|events| - 1]); }
  }

  /** The events that open a stream: the seed of the running effect resolves, or fails but for
      a 401, while the app is active; or the app turns active and the running effect, seeded
      before, has no stream. Each needs a usable endpoint. */
  predicate Opening(s: State, e: Event) {
    && s.effects != []
    && var i := |s.effects| - 1; var last := s.effects[i];
       && !last.cancelled
       && match e
          case SeedOk(j, _, _, ok) => j == i && last.pending && s.app.Active? && ok
          case SeedFailed(j, unauthorized, ok) => j == i && last.pending && !unauthorized && s.app.Active? && ok
          case AppChange(app, ok) => app.Active? && last.seeded && !last.open && ok
          case _ => false
  }

  /** The events that end one: another session, background or inactive, and a 401 on the
      running effect's stream; no other error. */
  predicate Closing(s: State, e: Event) {
    match e
    case SetSession(_) => true
    case AppChange(app, _) => app.Background? || app.Inactive?
    case StreamError(j, unauthorized) => unauthorized && j < |s.effects| && s.effects[j].heard && !s.effects[j].cancelled
    case _ => false
  }

  predicate Streaming(s: State) {
    s.effects != [] && s.effects[|s.effects| - 1].open
  }

  lemma OneIsRunning(s: State, i: nat)
    requires Inv(s) && i < |s.effects| && !s.effects[i].cancelled
    ensures i == |s.effects| - 1 && s.forSession == Some(s.effects[i].sid)
    ensures s.effects[i].pending ==> !s.effects[i].open && s.blocks.None?
  {
    assert EffectOk(s, i);
  }

  lemma StreamingIsRunning(s: State)
    requires Inv(s) && Streaming(s)
    ensures !s.effects[|s.effects| - 1].cancelled
  {
    assert EffectOk(s, |s.effects| - 1);
  }

  /** One step: exactly when a stream opens, with which header, and when one is held. */
  lemma StreamStep(s: State, e: Event)
    requires Inv(s)
    ensures var t := Next(s, e);
      && t.opens == s.opens + (if Opening(s, e) then [t.lastSeen] else [])
      && (Streaming(t) <==> Opening(s, e) || (Streaming(s) && !Closing(s, e)))
  {
    if Streaming(s) { StreamingIsRunning(s); }
    match e
    case SeedOk(i, seed, record, ok) => if Enabled(s, e) && !s.effects[i].cancelled { OneIsRunning(s, i); }
    case SeedFailed(i, unauthorized, ok) => if Enabled(s, e) && !s.effects[i].cancelled { OneIsRunning(s, i); }
    case StreamError(i, unauthorized) => if Enabled(s, e) && !s.effects[i].cancelled { OneIsRunning(s, i); }
    case _ =>
  }

  /** The resume cursor told by the events alone: none for a new session, then the last id of
      its seed, then the last frame of the session that carried one. */
  function Cursor(app: AppState, events: seq<Event>): Option<string> {
    if events == [] then None
    else
      var before, e := events[..|events| - 1], events[|events| - 1];
      var s := Run(app, before);
      match e
      case SetSession(_) => None
      case SeedOk(i, seed, _, _) =>
        if i < |s.effects| && s.effects[i].pending && !s.effects[i].cancelled then LastIdOf(seed) else Cursor(app, before)
      case BlockFrame(i, b, wireId) =>
        if i < |s.effects| && s.effects[i].heard && !s.effects[i].cancelled && b.sessionId == s.effects[i].sid
           && wireId.Some? && wireId.value != ""
        then wireId else Cursor(app, before)
      case _ => Cursor(app, before)
  }

  lemma {:induction false} CursorIsLastSeen(app: AppState, events: seq<Event>)
    requires HonestSeeds(app, events)
    ensures Run(app, events).lastSeen == Cursor(app, events)
  {
    if events != [] {
      var before, e := events[..|events| - 1], events[|events| - 1];
      CursorIsLastSeen(app, before);
      RunKeeps(app, before);
      var s := Run(app, before);
      match e
      case SeedOk(i, seed, record, ok) =>
        if Enabled(s, e) && !s.effects[i].cancelled { NothingToMerge(s, i, seed); }
      case BlockFrame(i, b, wireId) => if Enabled(s, e) && !s.effects[i].cancelled { OneIsRunning(s, i); }
      case _ =>
    }
  }

  /** The headers of the streams a run opens, told by its events. */
  function Headers(app: AppState, events: seq<Event>): seq<Option<string>> {
    if events == [] then []
    else
      var before := events[..|events| - 1];
      Headers(app, before) + if Opening(Run(app, before), events[|events| - 1]) then [Cursor(app, events)] else []
  }

  /** In every run the hook opens a stream at exactly these events, each with the resume
      cursor of that moment as its Last-Event-ID. */
  lemma {:induction false} OpensExact(app: AppState, events: seq<Event>)
    requires HonestSeeds(app, events)
    ensures Run(app, events).opens == Headers(app, events)
  {
    if events != [] {
      var before := events[..|events| - 1];
      OpensExact(app, before);
      RunKeeps(app, before);
      StreamStep(Run(app, before), events[|events| - 1]);
      CursorIsLastSeen(app, events);
    }
  }

  predicate Held(app: AppState, events: seq<Event>) {
    events != []
    && var before, e := events[..|events| - 1], events[|events| - 1];
       Opening(Run(app, before), e) || (Held(app, before) && !Closing(Run(app, before), e))
  }

  /** ... and holds one exactly when an opening event was not followed by a closing one. */
  lemma {:induction false} HeldExact(app: AppState, events: seq<Event>)
    requires HonestSeeds(app, events)
    ensures Streaming(Run(app, events)) <==> Held(app, events)
  {
    if events != [] {
      var before := events[..|events| - 1];
      HeldExact(app, before);
      RunKeeps(app, before);
      StreamStep(Run(app, before), events[|events| - 1]);
    }
  }

  /** Session records from the stream replace the one shown, if they are the session's own. */
  lemma RecordsShown(app: AppState, events: seq<Event>, i: nat, record: Session)
    requires HonestSeeds(app, events) && i < |Run(app, events).effects|
    requires Run(app, events).effects[i].heard && !Run(app, events).effects[i].cancelled
    ensures var s := Run(app, events);
      Next(s, SessionFrame(i, record)) == if record.id == s.effects[i].sid then s.(session := Some(record)) else s
  {
    RunKeeps(app, events);
    OneIsRunning(Run(app, events), i);
  }
}
