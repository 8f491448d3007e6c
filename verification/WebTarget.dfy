/** packages/runtime/src/web-target.ts: the validated-port cache and its generation map, with
    probes that overlap and invalidations that land while they are out. */
module WebTarget {
  import opened Common

  /** A cache entry; `writer` is the probe that wrote it. */
  datatype Entry = Entry(port: nat, validUntil: int, writer: nat)

  datatype Point = Fetching | ReadingBody | Validated(at: int) | Refused

  /** One health probe. Probes are numbered in the order they began. */
  datatype Probe = Probe(instance: string, port: nat, gen: nat, ttl: int, at: Point)

  /** Where a non-null answer came from. */
  datatype Source = FromProbe(probe: nat) | FromCache(entry: Entry, at: int)

  datatype Answer = Answer(instance: string, port: Option<nat>, source: Option<Source>)

  /** `recorded` and `own` are the web port on file and the gateway's own port of each
      instance; `cut` remembers how many probes had begun at its latest invalidation. */
  datatype State = State(
    cache: map<string, Entry>, gens: map<string, nat>, probes: seq<Probe>, answers: seq<Answer>,
    recorded: map<string, nat>, own: map<string, nat>, now: int, cut: map<string, nat>)

  datatype Fetched = Ok200 | NotOk | FetchThrows

  datatype Body = Ours | Foreign | BodyThrows

  datatype Step =
    | Resolve(instance: string, ttl: int)
    | FetchReturns(i: nat, fetched: Fetched)
    | BodyReturns(i: nat, body: Body)
    | Invalidate(instance: string)
    | ClearAll
    | Tick(now: int)
    | Record(instance: string, port: Option<nat>)

  function GenOf(gens: map<string, nat>, instance: string): nat {
    if instance in gens then gens[instance] else 0
  }

  function CutOf(s: State, instance: string): nat {
    if instance in s.cut then s.cut[instance] else 0
  }

  function Say(s: State, instance: string, port: Option<nat>, source: Option<Source>): State {
    s.(answers := s.answers + [Answer(instance, port, source)])
  }

  function OnResolve(s: State, instance: string, ttl: int): State {
    if instance !in s.recorded || s.recorded[instance] == 0 then Say(s, instance, None, None)
    else
      var port := s.recorded[instance];
      if instance in s.own && s.own[instance] == port then Say(s, instance, None, None)
      else if instance in s.cache && s.cache[instance].port == port && s.cache[instance].validUntil > s.now
      then Say(s, instance, Some(port), Some(FromCache(s.cache[instance], s.now)))
      else s.(probes := s.probes + [Probe(instance, port, GenOf(s.gens, instance), ttl, Fetching)])
  }

  function Settle(s: State, i: nat, at: Point): State
    requires i < |s.probes|
  {
    s.(probes := s.probes[i := s.probes[i].(at := at)])
  }

  /** No usable web target: forget the entry, whoever wrote it. */
  function Refuse(s: State, i: nat): State
    requires i < |s.probes|
  {
    var instance := s.probes[i].instance;
    Say(Settle(s, i, Refused).(cache := s.cache - {instance}), instance, None, None)
  }

  function OnFetch(s: State, i: nat, fetched: Fetched): State {
    if i >= |s.probes| || !s.probes[i].at.Fetching? then s
    else if fetched.Ok200? then Settle(s, i, ReadingBody)
    else Refuse(s, i)
  }

  /** The answer is good either way; it is cached only if no invalidation raced the probe. */
  function OnBody(s: State, i: nat, body: Body): State {
    if i >= |s.probes| || !s.probes[i].at.ReadingBody? then s
    else if !body.Ours? then Refuse(s, i)
    else
      var p := s.probes[i];
      var t := Say(Settle(s, i, Validated(s.now)), p.instance, Some(p.port), Some(FromProbe(i)));
      if GenOf(s.gens, p.instance) == p.gen
      then t.(cache := s.cache[p.instance := Entry(p.port, s.now + p.ttl, i)])
      else t
  }

  function OnInvalidate(s: State, instance: string): State {
    s.(cache := s.cache - {instance}, gens := s.gens[instance := GenOf(s.gens, instance) + 1],
       cut := s.cut[instance := |s.probes|])
  }

  function OnClearAll(s: State): State {
    s.(cache := map[], gens := map[], cut := CutAll(s))
  }

  /** Clearing everything is an invalidation of every instance ever probed. */
  function CutAll(s: State): map<string, nat> {
    map p | p in s.probes :: p.instance := |s.probes|
  }

  function OnRecord(s: State, instance: string, port: Option<nat>): State {
    s.(recorded := if port.None? then s.recorded - {instance} else s.recorded[instance := port.value])
  }

  function Next(s: State, step: Step): State {
    match step
    case Resolve(instance, ttl) => OnResolve(s, instance, ttl)
    case FetchReturns(i, fetched) => OnFetch(s, i, fetched)
    case BodyReturns(i, body) => OnBody(s, i, body)
    case Invalidate(instance) => OnInvalidate(s, instance)
    case ClearAll => OnClearAll(s)
    case Tick(now) => s.(now := now)
    case Record(instance, port) => OnRecord(s, instance, port)
  }

  function Boot(recorded: map<string, nat>, own: map<string, nat>, now: int): State {
    State(map[], map[], [], [], recorded, own, now, map[])
  }

  function Run(s: State, steps: seq<Step>): State {
    if steps == [] then s else Next(Run(s, steps[..|steps| - 1]), steps[|steps| - 1])
  }

  // ------------------------------------------------------------ the module

  class Target {
    var cache: map<string, Entry>
    var gens: map<string, nat>
    var probes: seq<Probe>
    var answers: seq<Answer>
    var recorded: map<string, nat>
    const own: map<string, nat>
    var now: int
    ghost var cut: map<string, nat>

    ghost function Abs(): State
      reads this
    {
      State(cache, gens, probes, answers, recorded, own, now, cut)
    }

    constructor (recorded: map<string, nat>, own: map<string, nat>, now: int)
      ensures Abs() == Boot(recorded, own, now)
    {
      this.recorded, this.own, this.now := recorded, own, now;
      cache, gens, probes, answers, cut := map[], map[], [], [], map[];
    }

    method ClearWebTargetCache(instance: Option<string>)
      modifies `cache, `gens, `cut
      ensures Abs() == if instance.None? then OnClearAll(old(Abs())) else OnInvalidate(old(Abs()), instance.value)
    {
      if instance.None? {
        cut := CutAll(Abs());
        cache := map[];
        gens := map[];
      } else {
        cache := cache - {instance.value};
        gens := gens[instance.value := (if instance.value in gens then gens[instance.value] else 0) + 1];
        cut := cut[instance.value := |probes|];
      }
    }

    /** `resolveWebPort` up to its first await; `waiting` is the probe it is left waiting for. */
    method ResolveWebPort(instance: string, ttl: int) returns (waiting: Option<nat>)
      modifies `probes, `answers
      ensures Abs() == OnResolve(old(Abs()), instance, ttl)
      ensures waiting == if |probes| > |old(probes)| then Some(|old(probes)|) else None
    {
      waiting := None;
      if instance !in recorded || recorded[instance] == 0 {
        answers := answers + [Answer(instance, None, None)];
        return;
      }
      var port := recorded[instance];
      if instance in own && port == own[instance] {
        answers := answers + [Answer(instance, None, None)];
        return;
      }
      if instance in cache {
        var cached := cache[instance];
        if cached.port == port && cached.validUntil > now {
          answers := answers + [Answer(instance, Some(port), Some(FromCache(cached, now)))];
          return;
        }
      }
      var gen := if instance in gens then gens[instance] else 0;
      waiting := Some(|probes|);
      probes := probes + [Probe(instance, port, gen, ttl, Fetching)];
    }

    method GiveUp(i: nat)
      requires i < |probes|
      modifies `probes, `answers, `cache
      ensures Abs() == Refuse(old(Abs()), i)
    {
      cache := cache - {probes[i].instance};
      answers := answers + [Answer(probes[i].instance, None, None)];
      probes := probes[i := probes[i].(at := Refused)];
    }

    method FetchDone(i: nat, fetched: Fetched)
      requires i < |probes| && probes[i].at.Fetching?
      modifies `probes, `answers, `cache
      ensures Abs() == OnFetch(old(Abs()), i, fetched)
    {
      if !fetched.Ok200? {
        GiveUp(i);
        return;
      }
      probes := probes[i := probes[i].(at := ReadingBody)];
    }

    method BodyDone(i: nat, body: Body)
      requires i < |probes| && probes[i].at.ReadingBody?
      modifies `probes, `answers, `cache
      ensures Abs() == OnBody(old(Abs()), i, body)
    {
      if !body.Ours? {
        GiveUp(i);
        return;
      }
      var p := probes[i];
      if (if p.instance in gens then gens[p.instance] else 0) == p.gen {
        cache := cache[p.instance := Entry(p.port, now + p.ttl, i)];
      }
      answers := answers + [Answer(p.instance, Some(p.port), Some(FromProbe(i)))];
      probes := probes[i := p.(at := Validated(now))];
    }
  }

  // ------------------------------------------------------------- invariant

  predicate NotOwn(s: State, instance: string, port: nat) {
    port > 0 && (instance in s.own ==> s.own[instance] != port)
  }

  predicate ProbeOk(s: State, i: nat)
    requires i < |s.probes|
  {
    NotOwn(s, s.probes[i].instance, s.probes[i].port)
  }

  /** The entry was written by a probe of this instance and port, when that probe validated
      the port, and expires one time-to-live later. */
  predicate WrittenBy(s: State, instance: string, e: Entry) {
    && e.writer < |s.probes|
    && s.probes[e.writer].instance == instance && s.probes[e.writer].port == e.port
    && s.probes[e.writer].at == Validated(e.validUntil - s.probes[e.writer].ttl)
  }

  predicate AnswerOk(s: State, a: Answer) {
    a.port.Some? ==>
      && NotOwn(s, a.instance, a.port.value)
      && a.source.Some?
      && match a.source.value
         case FromProbe(i) =>
           && i < |s.probes| && s.probes[i].instance == a.instance
           && s.probes[i].port == a.port.value && s.probes[i].at.Validated?
         case FromCache(e, at) => e.port == a.port.value && at < e.validUntil && WrittenBy(s, a.instance, e)
  }

  /** No invalidation is counted past the probes begun. */
  ghost predicate ProbesOk(s: State) {
    && (forall n :: n in s.cut ==> s.cut[n] <= |s.probes|)
    && (forall i: nat :: i < |s.probes| ==> ProbeOk(s, i))
  }

  ghost predicate CacheOk(s: State) {
    forall n :: n in s.cache ==> WrittenBy(s, n, s.cache[n])
  }

  predicate AnswersOk(s: State) {
    forall k :: 0 <= k < |s.answers| ==> AnswerOk(s, s.answers[k])
  }

  ghost predicate Inv(s: State) {
    ProbesOk(s) && CacheOk(s) && AnswersOk(s)
  }

  /** Probes only move on, and a validated one stays validated. */
  predicate Grown(s: State, t: State) {
    && |s.probes| <= |t.probes| && t.own == s.own
    && forall i :: 0 <= i < |s.probes| ==>
         && t.probes[i] == s.probes[i].(at := t.probes[i].at)
         && (s.probes[i].at.Validated? ==> t.probes[i].at == s.probes[i].at)
  }

  lemma AnswersStay(s: State, t: State)
    requires AnswersOk(s) && Grown(s, t) && |s.answers| <= |t.answers| && t.answers[..|s.answers|] == s.answers
    requires forall k :: |s.answers| <= k < |t.answers| ==> AnswerOk(t, t.answers[k])
    ensures AnswersOk(t)
  {
    forall k | 0 <= k < |t.answers| ensures AnswerOk(t, t.answers[k]) {
      if k < |s.answers| {
        assert t.answers[k] == t.answers[..|s.answers|][k] == s.answers[k];
        assert AnswerOk(s, s.answers[k]);
      }
    }
  }

  lemma CacheStays(s: State, t: State)
    requires CacheOk(s) && Grown(s, t)
    requires forall n :: n in t.cache ==> n in s.cache && t.cache[n] == s.cache[n]
    ensures CacheOk(t)
  {
    forall n | n in t.cache ensures WrittenBy(t, n, t.cache[n]) {
      assert WrittenBy(s, n, s.cache[n]);
    }
  }

  lemma ProbesStay(s: State, t: State)
    requires ProbesOk(s) && Grown(s, t) && t.cut == s.cut
    requires forall i: nat :: |s.probes| <= i < |t.probes| ==> ProbeOk(t, i)
    ensures ProbesOk(t)
  {
    forall i: nat | i < |t.probes| ensures ProbeOk(t, i) {
      if i < |s.probes| { assert ProbeOk(s, i); }
    }
  }

  lemma SayKeeps(s: State, instance: string, port: Option<nat>, source: Option<Source>)
    requires Inv(s) && AnswerOk(s, Answer(instance, port, source))
    ensures Inv(Say(s, instance, port, source))
  {
    var t := Say(s, instance, port, source);
    var a := Answer(instance, port, source);
    assert AnswerOk(t, a);
    AnswersStay(s, t);
    CacheStays(s, t);
    ProbesStay(s, t);
  }

  lemma BeginKeeps(s: State, p: Probe)
    requires Inv(s) && NotOwn(s, p.instance, p.port)
    ensures Inv(s.(probes := s.probes + [p]))
  {
    var t := s.(probes := s.probes + [p]);
    AnswersStay(s, t);
    CacheStays(s, t);
    ProbesStay(s, t);
  }

  lemma ResolveKeeps(s: State, instance: string, ttl: int)
    requires Inv(s)
    ensures Inv(OnResolve(s, instance, ttl))
  {
    if instance !in s.recorded || s.recorded[instance] == 0 || (instance in s.own && s.own[instance] == s.recorded[instance]) {
      SayKeeps(s, instance, None, None);
    } else {
      var port := s.recorded[instance];
      if instance in s.cache && s.cache[instance].port == port && s.cache[instance].validUntil > s.now {
        assert WrittenBy(s, instance, s.cache[instance]);
        SayKeeps(s, instance, Some(port), Some(FromCache(s.cache[instance], s.now)));
      } else {
        BeginKeeps(s, Probe(instance, port, GenOf(s.gens, instance), ttl, Fetching));
      }
    }
  }

  lemma RefuseKeeps(s: State, i: nat)
    requires Inv(s) && i < |s.probes| && !s.probes[i].at.Validated?
    ensures Inv(Refuse(s, i))
  {
    AnswersStay(s, Refuse(s, i));
    CacheStays(s, Refuse(s, i));
    ProbesStay(s, Refuse(s, i));
  }

  lemma FetchKeeps(s: State, i: nat, fetched: Fetched)
    requires Inv(s)
    ensures Inv(OnFetch(s, i, fetched))
  {
    if i < |s.probes| && s.probes[i].at.Fetching? {
      if fetched.Ok200? {
        var t := Settle(s, i, ReadingBody);
        AnswersStay(s, t);
        CacheStays(s, t);
        ProbesStay(s, t);
      } else {
        RefuseKeeps(s, i);
      }
    }
  }

  lemma SettleKeeps(s: State, i: nat, at: Point)
    requires Inv(s) && i < |s.probes| && !s.probes[i].at.Validated?
    ensures Inv(Settle(s, i, at))
  {
    AnswersStay(s, Settle(s, i, at));
    CacheStays(s, Settle(s, i, at));
    ProbesStay(s, Settle(s, i, at));
  }

  lemma WriteKeeps(s: State, instance: string, e: Entry)
    requires Inv(s) && WrittenBy(s, instance, e)
    ensures Inv(s.(cache := s.cache[instance := e]))
  {
    var t := s.(cache := s.cache[instance := e]);
    AnswersStay(s, t);
    ProbesStay(s, t);
    forall n | n in t.cache ensures WrittenBy(t, n, t.cache[n]) {
      if n != instance { assert WrittenBy(s, n, s.cache[n]); }
    }
  }

  lemma ValidateKeeps(s: State, i: nat)
    requires Inv(s) && i < |s.probes| && s.probes[i].at.ReadingBody?
    ensures Inv(OnBody(s, i, Ours))
  {
    var p := s.probes[i];
    assert ProbeOk(s, i);
    SettleKeeps(s, i, Validated(s.now));
    SayKeeps(Settle(s, i, Validated(s.now)), p.instance, Some(p.port), Some(FromProbe(i)));
    if GenOf(s.gens, p.instance) == p.gen {
      WriteKeeps(Say(Settle(s, i, Validated(s.now)), p.instance, Some(p.port), Some(FromProbe(i))),
                 p.instance, Entry(p.port, s.now + p.ttl, i));
    }
  }

  lemma BodyKeeps(s: State, i: nat, body: Body)
    requires Inv(s)
    ensures Inv(OnBody(s, i, body))
  {
    if i < |s.probes| && s.probes[i].at.ReadingBody? {
      if body.Ours? { ValidateKeeps(s, i); } else { RefuseKeeps(s, i); }
    }
  }

  lemma InvalidateKeeps(s: State, instance: string)
    requires Inv(s)
    ensures Inv(OnInvalidate(s, instance))
  {
    var t := OnInvalidate(s, instance);
    AnswersStay(s, t);
    CacheStays(s, t);
    forall i: nat | i < |t.probes| ensures ProbeOk(t, i) { assert ProbeOk(s, i); }
  }

  lemma ClearAllKeeps(s: State)
    requires Inv(s)
    ensures Inv(OnClearAll(s))
  {
    var t := OnClearAll(s);
    AnswersStay(s, t);
    forall i: nat | i < |t.probes| ensures ProbeOk(t, i) { assert ProbeOk(s, i); }
  }

  lemma StepKeeps(s: State, step: Step)
    requires Inv(s)
    ensures Inv(Next(s, step))
  {
    match step
    case Resolve(instance, ttl) => ResolveKeeps(s, instance, ttl);
    case FetchReturns(i, fetched) => FetchKeeps(s, i, fetched);
    case BodyReturns(i, body) => BodyKeeps(s, i, body);
    case Invalidate(instance) => InvalidateKeeps(s, instance);
    case ClearAll => ClearAllKeeps(s);
    case Tick(now) => SameProbes(s, Next(s, step));
    case Record(instance, port) => SameProbes(s, Next(s, step));
  }

  lemma SameProbes(s: State, t: State)
    requires Inv(s) && t == s.(now := t.now, recorded := t.recorded)
    ensures Inv(t)
  {
    AnswersStay(s, t);
    CacheStays(s, t);
    ProbesStay(s, t);
  }

  lemma {:induction false} RunKeeps(s: State, steps: seq<Step>)
    requires Inv(s)
    ensures Inv(Run(s, steps))
  {
    if steps != [] {
      RunKeeps(s, steps[..|steps| - 1]);
      StepKeeps(Run(s, steps[..|steps| - 1]), steps[|steps| - 1]);
    }
  }

  // ---------------------------------------------- which probes may write

  /** A state before anything happened. */
  predicate Booted(s: State) {
    s == Boot(s.recorded, s.own, s.now)
  }

  /** Invalidations of the instance since everything was last cleared. */
  function Invalidations(steps: seq<Step>, instance: string): nat {
    if steps == [] then 0
    else
      var last := steps[|steps| - 1];
      if last.ClearAll? then 0
      else Invalidations(steps[..|steps| - 1], instance) + if last == Invalidate(instance) then 1 else 0
  }

  /** What no probe step touches. */
  predicate SameBooks(s: State, t: State) {
    t.gens == s.gens && t.cut == s.cut
  }

  predicate SameProbe(s: State, t: State, i: nat) {
    i < |s.probes| && i < |t.probes| && t.probes[i] == s.probes[i].(at := t.probes[i].at)
  }

  lemma ResolveShape(s: State, n: string, ttl: int)
    ensures var t := OnResolve(s, n, ttl);
      SameBooks(s, t) && t.cache == s.cache && |s.probes| <= |t.probes| <= |s.probes| + 1 && t.probes[..|s.probes|] == s.probes
    ensures var t := OnResolve(s, n, ttl);
      |t.probes| > |s.probes| ==> t.probes[|s.probes|] == Probe(n, t.probes[|s.probes|].port, GenOf(s.gens, n), ttl, Fetching)
  {}

  lemma FetchShape(s: State, i: nat, fetched: Fetched)
    ensures var t := OnFetch(s, i, fetched);
      SameBooks(s, t) && |t.probes| == |s.probes| && t.cache.Items <= s.cache.Items
    ensures forall j: nat :: j < |s.probes| ==> SameProbe(s, OnFetch(s, i, fetched), j)
  {}

  lemma BodyShape(s: State, i: nat, body: Body)
    ensures SameBooks(s, OnBody(s, i, body)) && |OnBody(s, i, body).probes| == |s.probes|
    ensures forall j: nat :: j < |s.probes| ==> SameProbe(s, OnBody(s, i, body), j)
  {
    var t := OnBody(s, i, body);
    assert SameBooks(s, t);
    if i < |s.probes| && s.probes[i].at.ReadingBody? {
      assert t.probes == s.probes[i := s.probes[i].(at := if body.Ours? then Validated(s.now) else Refused)];
    } else {
      assert t == s;
    }
  }

  lemma GenStep(s: State, step: Step, instance: string)
    ensures GenOf(Next(s, step).gens, instance) ==
      if step.ClearAll? then 0 else GenOf(s.gens, instance) + if step == Invalidate(instance) then 1 else 0
  {
    match step
    case Resolve(n, ttl) => ResolveShape(s, n, ttl);
    case FetchReturns(i, fetched) => FetchShape(s, i, fetched);
    case BodyReturns(i, body) => BodyShape(s, i, body);
    case _ =>
  }

  /** The generation counts the invalidations since the last clear, in every run. */
  lemma {:induction false} GenerationCounts(b: State, steps: seq<Step>, instance: string)
    requires Booted(b)
    ensures GenOf(Run(b, steps).gens, instance) == Invalidations(steps, instance)
  {
    if steps != [] {
      GenerationCounts(b, steps[..|steps| - 1], instance);
      GenStep(Run(b, steps[..|steps| - 1]), steps[|steps| - 1], instance);
    }
  }

  /** The position of the step that began the probe. */
  function Began(b: State, steps: seq<Step>, i: nat): (k: nat)
    requires i < |Run(b, steps).probes| && b.probes == []
    ensures k < |steps|
  {
    var before := steps[..|steps| - 1];
    if i < |Run(b, before).probes| then Began(b, before, i) else |steps| - 1
  }

  /** What happened while the probe was out. */
  function Since(b: State, steps: seq<Step>, i: nat): seq<Step>
    requires i < |Run(b, steps).probes| && b.probes == []
  {
    steps[Began(b, steps, i) + 1..]
  }

  /** Probes keep what they were begun with. */
  lemma OldProbe(s: State, step: Step, i: nat)
    requires i < |s.probes|
    ensures SameProbe(s, Next(s, step), i)
  {
    match step
    case Resolve(n, ttl) =>
      ResolveShape(s, n, ttl);
      assert OnResolve(s, n, ttl).probes[..|s.probes|][i] == s.probes[i];
    case FetchReturns(j, fetched) => FetchShape(s, j, fetched);
    case BodyReturns(j, body) => BodyShape(s, j, body);
    case _ =>
  }

  /** Only a call that finds nothing usable begins one, with the current generation. */
  lemma NewProbe(s: State, step: Step, i: nat)
    requires |s.probes| <= i < |Next(s, step).probes|
    ensures i == |s.probes| && step.Resolve? && SameBooks(s, Next(s, step))
    ensures Next(s, step).probes[i].gen == GenOf(s.gens, Next(s, step).probes[i].instance)
  {
    match step
    case Resolve(n, ttl) => ResolveShape(s, n, ttl);
    case FetchReturns(j, fetched) => FetchShape(s, j, fetched);
    case BodyReturns(j, body) => BodyShape(s, j, body);
    case _ =>
  }

  lemma SinceGrows(b: State, steps: seq<Step>, i: nat)
    requires steps != [] && b.probes == [] && i < |Run(b, steps[..|steps| - 1]).probes|
    requires i < |Run(b, steps).probes|
    ensures Began(b, steps, i) == Began(b, steps[..|steps| - 1], i)
    ensures steps[..Began(b, steps, i)] == steps[..|steps| - 1][..Began(b, steps, i)]
    ensures Since(b, steps, i) == Since(b, steps[..|steps| - 1], i) + [steps[|steps| - 1]]
  {
    BeganStays(b, steps, i);
    Slices(steps, Began(b, steps, i));
  }

  lemma BeganStays(b: State, steps: seq<Step>, i: nat)
    requires steps != [] && b.probes == [] && i < |Run(b, steps[..|steps| - 1]).probes|
    requires i < |Run(b, steps).probes|
    ensures Began(b, steps, i) == Began(b, steps[..|steps| - 1], i) < |steps| - 1
  {}

  lemma Slices(steps: seq<Step>, k: nat)
    requires k < |steps| - 1
    ensures steps[..k] == steps[..|steps| - 1][..k]
    ensures steps[k + 1..] == steps[..|steps| - 1][k + 1..] + [steps[|steps| - 1]]
  {}

  /** A probe carries the count at the moment it began. */
  lemma {:induction false} ProbeCarriesCount(b: State, steps: seq<Step>, i: nat)
    requires Booted(b) && i < |Run(b, steps).probes|
    ensures var p := Run(b, steps).probes[i]; p.gen == Invalidations(steps[..Began(b, steps, i)], p.instance)
  {
    var before := steps[..|steps| - 1];
    if i < |Run(b, before).probes| {
      OldProbe(Run(b, before), steps[|steps| - 1], i);
      SinceGrows(b, steps, i);
      ProbeCarriesCount(b, before, i);
    } else {
      NewProbe(Run(b, before), steps[|steps| - 1], i);
      GenerationCounts(b, before, Run(b, steps).probes[i].instance);
    }
  }

  /** While nothing is cleared the count moves exactly when the instance is invalidated. */
  lemma {:induction false} CountMoves(b: State, steps: seq<Step>, i: nat, instance: string)
    requires Booted(b) && i < |Run(b, steps).probes| && ClearAll !in Since(b, steps, i)
    ensures Invalidations(steps[..Began(b, steps, i)], instance) <= Invalidations(steps, instance)
    ensures Invalidations(steps[..Began(b, steps, i)], instance) == Invalidations(steps, instance)
      <==> Invalidate(instance) !in Since(b, steps, i)
  {
    var before := steps[..|steps| - 1];
    if i < |Run(b, before).probes| {
      SinceGrows(b, steps, i);
      forall e | e in Since(b, before, i) ensures e in Since(b, steps, i) {}
      CountMoves(b, before, i, instance);
    } else {
      NewProbe(Run(b, before), steps[|steps| - 1], i);
      assert steps[..Began(b, steps, i)] == before && Since(b, steps, i) == [];
    }
  }

  lemma CutStep(s: State, step: Step, i: nat)
    requires i < |s.probes|
    ensures i < CutOf(Next(s, step), s.probes[i].instance) <==>
      step.ClearAll? || step == Invalidate(s.probes[i].instance) || i < CutOf(s, s.probes[i].instance)
  {
    assert s.probes[i] in s.probes;
  }

  /** A probe is older than the latest invalidation exactly when one happened while it was out. */
  lemma {:induction false} CutIsSince(b: State, steps: seq<Step>, i: nat)
    requires Booted(b) && i < |Run(b, steps).probes|
    ensures var n := Run(b, steps).probes[i].instance;
      i < CutOf(Run(b, steps), n) <==> ClearAll in Since(b, steps, i) || Invalidate(n) in Since(b, steps, i)
  {
    var before := steps[..|steps| - 1];
    if i < |Run(b, before).probes| {
      OldProbe(Run(b, before), steps[|steps| - 1], i);
      SinceGrows(b, steps, i);
      CutIsSince(b, before, i);
      CutStep(Run(b, before), steps[|steps| - 1], i);
    } else {
      NewProbe(Run(b, before), steps[|steps| - 1], i);
      RunKeeps(b, before);
      assert Since(b, steps, i) == [];
    }
  }

  /** Whether a validated probe writes the cache: exactly when its instance has been
      invalidated as often since the last clear as it had been when the probe began. */
  lemma ProbeWritesIff(b: State, steps: seq<Step>, i: nat)
    requires Booted(b)
    requires i < |Run(b, steps).probes| && Run(b, steps).probes[i].at.ReadingBody?
    ensures var n := Run(b, steps).probes[i].instance; var t := Run(b, steps + [BodyReturns(i, Ours)]);
      (n in t.cache && t.cache[n].writer == i) <==>
        Invalidations(steps[..Began(b, steps, i)], n) == Invalidations(steps, n)
  {
    var s := Run(b, steps);
    var n := s.probes[i].instance;
    ProbeCarriesCount(b, steps, i);
    GenerationCounts(b, steps, n);
    RunKeeps(b, steps);
    assert (steps + [BodyReturns(i, Ours)])[..|steps|] == steps;
    assert n in s.cache ==> WrittenBy(s, n, s.cache[n]);
  }

  // -------------------------------------------------------------- theorems

  /** No entry is older than the latest invalidation of its instance. */
  predicate Fresh(s: State) {
    forall n :: n in s.cache ==> s.cache[n].writer >= CutOf(s, n)
  }

  /** A probe from before the latest invalidation is about to write the cache. */
  predicate StaleLanding(s: State, step: Step) {
    && step.BodyReturns? && step.body.Ours? && step.i < |s.probes| && s.probes[step.i].at.ReadingBody?
    && s.probes[step.i].gen == GenOf(s.gens, s.probes[step.i].instance)
    && step.i < CutOf(s, s.probes[step.i].instance)
  }

  /** A landing is stale exactly when everything was cleared while the probe was out and the
      invalidations since then are as many as the probe had counted when it began. */
  lemma StaleLandingIff(b: State, steps: seq<Step>, i: nat)
    requires Booted(b)
    requires i < |Run(b, steps).probes| && Run(b, steps).probes[i].at.ReadingBody?
    ensures var n := Run(b, steps).probes[i].instance;
      StaleLanding(Run(b, steps), BodyReturns(i, Ours)) <==>
        ClearAll in Since(b, steps, i) && Invalidations(steps[..Began(b, steps, i)], n) == Invalidations(steps, n)
  {
    var n := Run(b, steps).probes[i].instance;
    ProbeCarriesCount(b, steps, i);
    GenerationCounts(b, steps, n);
    CutIsSince(b, steps, i);
    if ClearAll !in Since(b, steps, i) { CountMoves(b, steps, i, n); }
  }

  lemma BodyFresh(s: State, i: nat, body: Body)
    requires Inv(s) && Fresh(s)
    ensures Fresh(OnBody(s, i, body)) <==> !StaleLanding(s, BodyReturns(i, body))
  {
    var t := OnBody(s, i, body);
    assert t.cut == s.cut;
    if StaleLanding(s, BodyReturns(i, body)) {
      assert t.cache[s.probes[i].instance].writer == i;
    } else {
      forall n | n in t.cache ensures t.cache[n].writer >= CutOf(t, n) {
        assert n in s.cache ==> s.cache[n].writer >= CutOf(s, n);
      }
    }
  }

  /** Only the end of a probe adds an entry, and only an invalidation moves a cut. */
  lemma OtherFresh(s: State, step: Step)
    requires Inv(s) && Fresh(s) && !step.BodyReturns?
    ensures Fresh(Next(s, step))
  {
    match step
    case Resolve(n, ttl) => ResolveShape(s, n, ttl);
    case FetchReturns(i, fetched) =>
      FetchShape(s, i, fetched);
      var t := OnFetch(s, i, fetched);
      forall n | n in t.cache ensures n in s.cache && t.cache[n] == s.cache[n] {
        assert (n, t.cache[n]) in t.cache.Items;
      }
    case _ =>
  }

  /** Every step keeps the cache fresh, except a stale landing, which never does. */
  lemma FreshStep(s: State, step: Step)
    requires Inv(s) && Fresh(s)
    ensures Fresh(Next(s, step)) <==> !StaleLanding(s, step)
  {
    if step.BodyReturns? { BodyFresh(s, step.i, step.body); } else { OtherFresh(s, step); }
  }

  predicate FreshThroughout(b: State, steps: seq<Step>) {
    Fresh(Run(b, steps)) && (steps == [] || FreshThroughout(b, steps[..|steps| - 1]))
  }

  predicate NoStaleLanding(b: State, steps: seq<Step>) {
    steps == [] || (!StaleLanding(Run(b, steps[..|steps| - 1]), steps[|steps| - 1]) && NoStaleLanding(b, steps[..|steps| - 1]))
  }

  /** The cache is fresh at every point of a run, clears included, exactly when no landing of
      the run is stale. */
  lemma {:induction false} FreshIff(b: State, steps: seq<Step>)
    requires Booted(b)
    ensures FreshThroughout(b, steps) <==> NoStaleLanding(b, steps)
  {
    if steps != [] {
      var before := steps[..|steps| - 1];
      FreshIff(b, before);
      RunKeeps(b, before);
      if FreshThroughout(b, before) { FreshStep(Run(b, before), steps[|steps| - 1]); }
    }
  }

  lemma {:induction false} NoClearNoStale(b: State, steps: seq<Step>)
    requires Booted(b) && ClearAll !in steps
    ensures NoStaleLanding(b, steps)
  {
    if steps != [] {
      var before, last := steps[..|steps| - 1], steps[|steps| - 1];
      assert forall e :: e in before ==> e in steps;
      NoClearNoStale(b, before);
      if StaleLanding(Run(b, before), last) {
        StaleLandingIff(b, before, last.i);
        assert false;
      }
    }
  }

  /** The gateway only ever invalidates one instance. Over any interleaving of overlapping
      probes and such invalidations, every entry was written by a probe of that instance and
      port that validated it and began after the latest invalidation. */
  lemma EntriesAreFresh(b: State, steps: seq<Step>, instance: string)
    requires Booted(b) && ClearAll !in steps && instance in Run(b, steps).cache
    ensures var s := Run(b, steps); var e := s.cache[instance];
      WrittenBy(s, instance, e) && e.writer >= CutOf(s, instance)
  {
    RunKeeps(b, steps);
    NoClearNoStale(b, steps);
    FreshIff(b, steps);
  }

  /** Every non-null answer of any run differs from the gateway's own port and was validated
      by the probe that gave it, or by the probe behind an entry that had not expired. */
  lemma AnswersAreValidated(b: State, steps: seq<Step>, k: nat)
    requires Booted(b) && k < |Run(b, steps).answers|
    ensures AnswerOk(Run(b, steps), Run(b, steps).answers[k])
  {
    RunKeeps(b, steps);
  }

  function Repeat(step: Step, times: nat): (r: seq<Step>)
    ensures |r| == times
  {
    if times == 0 then [] else Repeat(step, times - 1) + [step]
  }

  lemma {:induction false} RepeatInvalidate(s: State, i: nat, times: nat)
    requires i < |s.probes|
    ensures var n := s.probes[i].instance; var t := Run(s, [ClearAll] + Repeat(Invalidate(n), times));
      t.probes == s.probes && GenOf(t.gens, n) == times && CutOf(t, n) == |s.probes|
  {
    var n := s.probes[i].instance;
    var steps := [ClearAll] + Repeat(Invalidate(n), times);
    if times == 0 {
      assert steps == [ClearAll] && steps[..0] == [];
      assert Run(s, []) == s && s.probes[i] in s.probes;
    } else {
      assert steps[..|steps| - 1] == [ClearAll] + Repeat(Invalidate(n), times - 1);
      assert steps[|steps| - 1] == Invalidate(n);
      RepeatInvalidate(s, i, times - 1);
    }
  }

  /** Clearing everything restarts the count: from every state, every probe still reading its
      body lands stale after one clear and as many invalidations as its generation says. */
  lemma ClearAllAdmitsStale(s: State, i: nat)
    requires i < |s.probes| && s.probes[i].at.ReadingBody?
    ensures var p := s.probes[i];
      StaleLanding(Run(s, [ClearAll] + Repeat(Invalidate(p.instance), p.gen)), BodyReturns(i, Ours))
  {
    RepeatInvalidate(s, i, s.probes[i].gen);
  }

  // ---------------------------------------------------- what a call answers

  /** The port on file, unless it is the gateway's own. */
  function Usable(s: State, n: string): Option<nat> {
    if n in s.recorded && s.recorded[n] > 0 && !(n in s.own && s.own[n] == s.recorded[n]) then Some(s.recorded[n]) else None
  }

  predicate Remembered(s: State, n: string) {
    n in s.cache && Usable(s, n) == Some(s.cache[n].port) && s.now < s.cache[n].validUntil
  }

  /** A call answers null at once exactly when there is no usable port on file, answers the
      port at once exactly when an unexpired entry has it, and otherwise begins a probe of it. */
  lemma CallExact(s: State, n: string, ttl: int)
    ensures var t := Next(s, Resolve(n, ttl));
      && t.cache == s.cache && t.gens == s.gens
      && t.answers == s.answers + (
           if Usable(s, n).None? then [Answer(n, None, None)]
           else if Remembered(s, n) then [Answer(n, Usable(s, n), Some(FromCache(s.cache[n], s.now)))]
           else [])
      && t.probes == s.probes + (
           if Usable(s, n).Some? && !Remembered(s, n)
           then [Probe(n, Usable(s, n).value, GenOf(s.gens, n), ttl, Fetching)] else [])
  {}

  /** A probe refused by its response or its body answers null and drops the entry of its
      instance, whoever wrote it; no other entry is touched. */
  predicate Refuses(s: State, t: State, i: nat)
    requires i < |s.probes|
  {
    var n := s.probes[i].instance;
    && t.answers == s.answers + [Answer(n, None, None)] && t.cache == s.cache - {n} && t.gens == s.gens
    && t.probes == s.probes[i := s.probes[i].(at := Refused)]
  }

  lemma FetchExact(s: State, i: nat, fetched: Fetched)
    requires i < |s.probes| && s.probes[i].at.Fetching?
    ensures var t := Next(s, FetchReturns(i, fetched));
      if fetched.Ok200? then t == s.(probes := s.probes[i := s.probes[i].(at := ReadingBody)]) else Refuses(s, t, i)
  {}

  /** A validated probe answers its port, whether or not it may write the cache. */
  lemma BodyExact(s: State, i: nat, body: Body)
    requires i < |s.probes| && s.probes[i].at.ReadingBody?
    ensures var t := Next(s, BodyReturns(i, body)); var p := s.probes[i];
      if body.Ours?
      then
        && t.answers == s.answers + [Answer(p.instance, Some(p.port), Some(FromProbe(i)))]
        && t.probes == s.probes[i := p.(at := Validated(s.now))] && t.gens == s.gens
        && t.cache == if GenOf(s.gens, p.instance) == p.gen then s.cache[p.instance := Entry(p.port, s.now + p.ttl, i)] else s.cache
      else Refuses(s, t, i)
  {}

  /** Time and the port file move on their own; neither touches cache, counters or probes. */
  lemma AroundIt(s: State, now: int, n: string, port: Option<nat>)
    ensures Next(s, Tick(now)) == s.(now := now)
    ensures var t := Next(s, Record(n, port));
      t == s.(recorded := t.recorded)
      && forall m :: (m in t.recorded <==> if m == n then port.Some? else m in s.recorded)
                     && (m in t.recorded ==> t.recorded[m] == if m == n then port.value else s.recorded[m])
  {}

  function Out(probes: seq<Probe>): nat {
    if probes == [] then 0
    else Out(probes[..|probes| - 1]) + if probes[|probes| - 1].at.Fetching? || probes[|probes| - 1].at.ReadingBody? then 1 else 0
  }

  function CallsMade(steps: seq<Step>): nat {
    if steps == [] then 0 else CallsMade(steps[..|steps| - 1]) + if steps[|steps| - 1].Resolve? then 1 else 0
  }

  lemma OutAppend(probes: seq<Probe>, p: Probe)
    ensures Out(probes + [p]) == Out(probes) + if p.at.Fetching? || p.at.ReadingBody? then 1 else 0
  {
    assert (probes + [p])[..|probes|] == probes;
  }

  lemma {:induction false} OutSettle(probes: seq<Probe>, i: nat, p: Probe)
    requires i < |probes|
    ensures Out(probes[i := p])
      + (if probes[i].at.Fetching? || probes[i].at.ReadingBody? then 1 else 0)
      == Out(probes) + (if p.at.Fetching? || p.at.ReadingBody? then 1 else 0)
  {
    var n := |probes| - 1;
    if i < n {
      assert probes[i := p][..n] == probes[..n][i := p];
      OutSettle(probes[..n], i, p);
    } else {
      assert probes[i := p][..n] == probes[..n];
    }
  }

  lemma StepAnswers(s: State, step: Step)
    ensures |Next(s, step).answers| + Out(Next(s, step).probes) ==
      |s.answers| + Out(s.probes) + if step.Resolve? then 1 else 0
  {
    match step
    case Resolve(n, ttl) =>
      CallExact(s, n, ttl);
      if Usable(s, n).Some? && !Remembered(s, n) {
        OutAppend(s.probes, Probe(n, Usable(s, n).value, GenOf(s.gens, n), ttl, Fetching));
      }
    case FetchReturns(i, fetched) =>
      if i < |s.probes| && s.probes[i].at.Fetching? {
        FetchExact(s, i, fetched);
        OutSettle(s.probes, i, s.probes[i].(at := if fetched.Ok200? then ReadingBody else Refused));
      }
    case BodyReturns(i, body) =>
      if i < |s.probes| && s.probes[i].at.ReadingBody? {
        BodyExact(s, i, body);
        OutSettle(s.probes, i, s.probes[i].(at := if body.Ours? then Validated(s.now) else Refused));
      }
    case _ =>
  }

  /** In every run each call is answered exactly once, or its probe is still out. */
  lemma {:induction false} EveryCallAnswered(b: State, steps: seq<Step>)
    requires Booted(b)
    ensures |Run(b, steps).answers| + Out(Run(b, steps).probes) == CallsMade(steps)
  {
    if steps != [] {
      EveryCallAnswered(b, steps[..|steps| - 1]);
      StepAnswers(Run(b, steps[..|steps| - 1]), steps[|steps| - 1]);
    }
  }
}
