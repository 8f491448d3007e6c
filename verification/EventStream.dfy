/** packages/runtime/src/http.ts, `eventStream`, over the capped event list of
    packages/runtime/src/state/audit.ts: server-sent events with replay on reconnect. */
module EventStream {
  import opened Common

  datatype Event = Event(id: string, kind: string)

  const CAPACITY := 1000

  /** Where the retained window of a log of `n` events starts. */
  function WindowStart(n: nat): nat {
    if n > CAPACITY then n - CAPACITY else 0
  }

  function Retained(log: seq<Event>): seq<Event> {
    log[WindowStart(|log|)..]
  }

  function Reverse<T>(s: seq<T>): seq<T> {
    seq(|s|, i requires 0 <= i < |s| => s[|s| - 1 - i])
  }

  /** The instance's event list, newest first, and the full history it is the tail of. */
  class EventList {
    var events: seq<Event>
    ghost var log: seq<Event>

    ghost predicate Valid()
      reads this
    {
      Reverse(events) == Retained(log)
    }

    constructor ()
      ensures Valid() && log == []
    {
      events, log := [], [];
    }

    method AppendEvent(item: Event)
      requires Valid()
      modifies this
      ensures Valid() && log == old(log) + [item]
    {
      events := [item] + events;
      log := log + [item];
      assert |old(Reverse(events))| == |old(Retained(log))|;
      if |events| > CAPACITY { events := events[..CAPACITY]; }
      forall i | 0 <= i < |events| ensures Reverse(events)[i] == Retained(log)[i] {
        var j := i + |old(events)| + 1 - |events|;
        assert j < |old(events)| ==> old(Reverse(events))[j] == old(Retained(log))[j];
      }
    }
  }

  // ---------------------------------------------------------- one stream

  /** The positions from `from` on whose ids have not been seen, each marked seen in turn. */
  function FreshAt(ordered: seq<Event>, from: nat, seen: set<string>): seq<nat>
    requires from <= |ordered|
    decreases |ordered| - from
  {
    if from == |ordered| then []
    else if ordered[from].id in seen then FreshAt(ordered, from + 1, seen)
    else [from] + FreshAt(ordered, from + 1, seen + {ordered[from].id})
  }

  function Ids(events: seq<Event>): set<string> {
    set e | e in events :: e.id
  }

  function IndexOf(ordered: seq<Event>, id: string, from: nat): int
    requires from <= |ordered|
    decreases |ordered| - from
  {
    if from == |ordered| then -1
    else if ordered[from].id == id then from
    else IndexOf(ordered, id, from + 1)
  }

  /** What a new connection counts as already delivered. */
  function Preseed(ordered: seq<Event>, lastEventId: Option<string>): (seen: set<string>) {
    if lastEventId.None? || lastEventId.value == "" then {}
    else
      var cutoff := IndexOf(ordered, lastEventId.value, 0);
      if -1 <= cutoff < |ordered| then Ids(ordered[..cutoff + 1]) else {}
  }

  predicate Within(positions: seq<nat>, lo: nat, hi: nat) {
    forall i :: 0 <= i < |positions| ==> lo <= positions[i] < hi
  }

  function Pick(ordered: seq<Event>, positions: seq<nat>): seq<Event>
    requires Within(positions, 0, |ordered|)
  {
    seq(|positions|, i requires 0 <= i < |positions| => ordered[positions[i]])
  }

  lemma {:induction false} FreshInRange(ordered: seq<Event>, from: nat, seen: set<string>)
    requires from <= |ordered|
    ensures Within(FreshAt(ordered, from, seen), from, |ordered|)
    decreases |ordered| - from
  {
    if from < |ordered| {
      FreshInRange(ordered, from + 1, seen);
      FreshInRange(ordered, from + 1, seen + {ordered[from].id});
    }
  }

  /** Exactly which retained events a poll writes, whether or not ids repeat: the first of
      each id that this connection has not seen. */
  lemma {:induction false} FreshExact(ordered: seq<Event>, from: nat, seen: set<string>, p: nat)
    requires from <= |ordered|
    ensures p in FreshAt(ordered, from, seen) <==> (
      && from <= p < |ordered| && ordered[p].id !in seen
      && forall q :: from <= q < p ==> ordered[q].id != ordered[p].id)
    decreases |ordered| - from
  {
    if from < |ordered| {
      FreshExact(ordered, from + 1, seen, p);
      FreshExact(ordered, from + 1, seen + {ordered[from].id}, p);
      FreshInRange(ordered, from + 1, seen + {ordered[from].id});
    }
  }

  lemma PickHead(ordered: seq<Event>, i: nat, positions: seq<nat>)
    requires i < |ordered| && Within(positions, 0, |ordered|)
    ensures Within([i] + positions, 0, |ordered|)
    ensures Pick(ordered, [i] + positions) == [ordered[i]] + Pick(ordered, positions)
  {}

  lemma IdsSnoc(ordered: seq<Event>, i: nat)
    requires i < |ordered|
    ensures Ids(ordered[..i + 1]) == Ids(ordered[..i]) + {ordered[i].id}
  {
    assert ordered[..i + 1] == ordered[..i] + [ordered[i]];
  }

  class Connection {
    var seen: set<string>
    var written: seq<Event>
    var closed: bool
    var lastFlushAt: int
    var keepalives: nat

    /** `start`: pre-seed from the cutoff, if it is still retained. */
    constructor (events: seq<Event>, lastEventId: Option<string>, now: int)
      ensures seen == Preseed(Reverse(events), lastEventId)
      ensures written == [] && !closed && lastFlushAt == now && keepalives == 0
    {
      seen, written, closed, lastFlushAt, keepalives := {}, [], false, now, 0;
      new;
      if lastEventId.Some? && lastEventId.value != "" {
        var ordered := Reverse(events);
        var cutoff := -1;
        for i := 0 to |ordered|
          invariant cutoff == -1 && seen == {} && written == [] && !closed && lastFlushAt == now && keepalives == 0
          invariant IndexOf(ordered, lastEventId.value, 0) == IndexOf(ordered, lastEventId.value, i)
        {
          if ordered[i].id == lastEventId.value {
            cutoff := i;
            break;
          }
        }
        if cutoff >= 0 {
          for i := 0 to cutoff + 1
            invariant seen == Ids(ordered[..i])
            invariant written == [] && !closed && lastFlushAt == now && keepalives == 0
          {
            assert ordered[..i + 1] == ordered[..i] + [ordered[i]];
            seen := seen + {ordered[i].id};
          }
        } else {
          assert ordered[..0] == [];
        }
      }
    }

    /** `send`: write the retained events not seen yet, oldest first, or a keepalive. */
    method Send(events: seq<Event>, now: int)
      modifies this
      ensures closed == old(closed)
      ensures closed ==> written == old(written) && seen == old(seen)
      ensures Within(FreshAt(Reverse(events), 0, old(seen)), 0, |events|)
      ensures !closed ==> written == old(written) + Pick(Reverse(events), FreshAt(Reverse(events), 0, old(seen)))
      ensures !closed ==> seen == old(seen) + Ids(Reverse(events))
      ensures keepalives == old(keepalives) +
        if !closed && written == old(written) && now - old(lastFlushAt) >= 5000 then 1 else 0
      ensures lastFlushAt ==
        if written != old(written) || keepalives != old(keepalives) then now else old(lastFlushAt)
    {
      FreshInRange(Reverse(events), 0, seen);
      if closed { return; }
      var wrote := WriteFresh(Reverse(events));
      if !wrote && now - lastFlushAt >= 5000 {
        keepalives := keepalives + 1;
        wrote := true;
      }
      if wrote { lastFlushAt := now; }
    }

    method WriteFresh(ordered: seq<Event>) returns (wrote: bool)
      requires Within(FreshAt(ordered, 0, seen), 0, |ordered|)
      modifies `seen, `written
      ensures written == old(written) + Pick(ordered, FreshAt(ordered, 0, old(seen)))
      ensures seen == old(seen) + Ids(ordered)
      ensures wrote <==> written != old(written)
    {
      wrote := false;
      ghost var all := written + Pick(ordered, FreshAt(ordered, 0, seen));
      for i := 0 to |ordered|
        invariant seen == old(seen) + Ids(ordered[..i])
        invariant Within(FreshAt(ordered, i, seen), i, |ordered|)
        invariant written + Pick(ordered, FreshAt(ordered, i, seen)) == all
        invariant |written| >= |old(written)| && (wrote <==> |written| > |old(written)|)
      {
        var event := ordered[i];
        IdsSnoc(ordered, i);
        FreshInRange(ordered, i + 1, seen);
        FreshInRange(ordered, i + 1, seen + {event.id});
        if event.id in seen { continue; }
        assert FreshAt(ordered, i, seen) == [i] + FreshAt(ordered, i + 1, seen + {event.id});
        PickHead(ordered, i, FreshAt(ordered, i + 1, seen + {event.id}));
        Assoc(written, [event], Pick(ordered, FreshAt(ordered, i + 1, seen + {event.id})));
        written := written + [event];
        seen := seen + {event.id};
        wrote := true;
      }
      assert ordered[..|ordered|] == ordered;
    }

    method Cancel()
      modifies this`closed
      ensures closed
    {
      closed := true;
    }
  }

  // ------------------------------------------------- the reconnecting client

  /** A delivered or in-flight frame: its log position, and where the retained window
      started when the poll that sent it ran. */
  datatype Frame = Frame(event: Event, pos: nat, windowStart: nat)

  /** A live connection: the server's `seen` set, the frames on the wire, and how long the
      log was at its latest poll. */
  datatype Link = Link(seen: set<string>, inFlight: seq<Frame>, polled: nat)

  datatype World = World(log: seq<Event>, link: Option<Link>, delivered: seq<Frame>)

  datatype Step = Append(event: Event) | Connect | Poll | Deliver | Lose

  const EMPTY := World([], None, [])

  /** The id the client sends back: that of the last frame it received. */
  function LastId(w: World): Option<string> {
    if w.delivered == [] then None else Some(w.delivered[|w.delivered| - 1].event.id)
  }

  function Frames(log: seq<Event>, positions: seq<nat>): seq<Frame>
    requires Within(positions, 0, |log|)
  {
    seq(|positions|, i requires 0 <= i < |positions| =>
      Frame(log[positions[i]], positions[i], WindowStart(|log|)))
  }

  /** One poll: the retained events not in `seen` go on the wire. */
  function Polled(log: seq<Event>, l: Link): Link {
    var start := WindowStart(|log|);
    FreshInRange(log, start, l.seen);
    Link(l.seen + Ids(Retained(log)), l.inFlight + Frames(log, FreshAt(log, start, l.seen)), |log|)
  }

  function Next(w: World, step: Step): World {
    match step
    case Append(e) => w.(log := w.log + [e])
    case Connect => w.(link := Some(Polled(w.log, Link(Preseed(Retained(w.log), LastId(w)), [], 0))))
    case Poll => if w.link.None? then w else w.(link := Some(Polled(w.log, w.link.value)))
    case Deliver =>
      if w.link.None? || w.link.value.inFlight == [] then w
      else
        var l := w.link.value;
        w.(link := Some(l.(inFlight := l.inFlight[1..])), delivered := w.delivered + [l.inFlight[0]])
    case Lose => w.(link := None)
  }

  function Run(w: World, steps: seq<Step>): World {
    if steps == [] then w else Next(Run(w, steps[..|steps| - 1]), steps[|steps| - 1])
  }

  function Shift(positions: seq<nat>, k: nat): seq<nat> {
    seq(|positions|, i requires 0 <= i < |positions| => positions[i] + k)
  }

  lemma {:induction false} FreshInWindow(log: seq<Event>, i: nat, seen: set<string>)
    requires WindowStart(|log|) + i <= |log|
    ensures FreshAt(log, WindowStart(|log|) + i, seen) == Shift(FreshAt(Retained(log), i, seen), WindowStart(|log|))
    decreases |log| - i
  {
    var start := WindowStart(|log|);
    if start + i < |log| {
      FreshInWindow(log, i + 1, seen);
      FreshInWindow(log, i + 1, seen + {log[start + i].id});
    }
  }

  lemma PickShifted(log: seq<Event>, k: nat, positions: seq<nat>)
    requires k <= |log| && Within(positions, 0, |log| - k)
    ensures Within(Shift(positions, k), 0, |log|)
    ensures Pick(log[k..], positions) == Pick(log, Shift(positions, k))
  {}

  /** What `Send` writes, given the instance's event list, is what a poll of the world puts
      on the wire. */
  lemma SendIsPoll(log: seq<Event>, events: seq<Event>, l: Link)
    requires Reverse(events) == Retained(log)
    ensures Within(FreshAt(Reverse(events), 0, l.seen), 0, |events|)
    ensures Within(FreshAt(log, WindowStart(|log|), l.seen), 0, |log|)
    ensures Pick(Reverse(events), FreshAt(Reverse(events), 0, l.seen))
         == Pick(log, FreshAt(log, WindowStart(|log|), l.seen))
  {
    FreshInWindow(log, 0, l.seen);
    FreshInRange(Retained(log), 0, l.seen);
    PickShifted(log, WindowStart(|log|), FreshAt(Retained(log), 0, l.seen));
  }

  // ------------------------------------------------------------- invariant

  /** Event ids do not repeat. */
  predicate DistinctIds(log: seq<Event>) {
    forall p, q :: 0 <= p < q < |log| ==> log[p].id != log[q].id
  }

  /** The position after the last frame. */
  function NextPos(frames: seq<Frame>): nat {
    if frames == [] then 0 else frames[|frames| - 1].pos + 1
  }

  function Max(a: nat, b: nat): nat {
    if a < b then b else a
  }

  /** Every frame starts where the previous one ended, or where its window started if that
      is later. */
  predicate Chain(frames: seq<Frame>) {
    forall k :: 0 <= k < |frames| ==> frames[k].pos == Max(NextPos(frames[..k]), frames[k].windowStart)
  }

  predicate FromLog(frames: seq<Frame>, log: seq<Event>) {
    forall k :: 0 <= k < |frames| ==> frames[k].pos < |log| && frames[k].event == log[frames[k].pos]
  }

  /** `seen` separates the polled part of the window from what came later. */
  predicate SeenUpTo(log: seq<Event>, seen: set<string>, polled: nat) {
    && (forall p :: polled <= p < |log| ==> log[p].id !in seen)
    && (forall p :: WindowStart(|log|) <= p < polled && p < |log| ==> log[p].id in seen)
  }

  function Wire(w: World): seq<Frame> {
    if w.link.None? then w.delivered else w.delivered + w.link.value.inFlight
  }

  predicate Inv(w: World) {
    && Chain(Wire(w)) && FromLog(Wire(w), w.log)
    && (w.link.Some? ==>
          && w.link.value.polled <= |w.log|
          && w.link.value.seen <= Ids(w.log)
          && SeenUpTo(w.log, w.link.value.seen, w.link.value.polled)
          && NextPos(Wire(w)) == w.link.value.polled)
  }

  function Range(a: nat, b: nat): seq<nat> {
    if b <= a then [] else seq(b - a, i requires 0 <= i < b - a => a + i)
  }

  lemma RangeHead(a: nat, b: nat)
    requires a < b
    ensures Range(a, b) == [a] + Range(a + 1, b)
  {}

  /** A poll sends exactly the positions from the boundary, or from the window start. */
  lemma {:induction false} FreshIsRange(log: seq<Event>, from: nat, seen: set<string>, polled: nat)
    requires DistinctIds(log) && from <= |log| && polled <= |log|
    requires forall p :: Max(from, polled) <= p < |log| ==> log[p].id !in seen
    requires forall p :: from <= p < polled ==> log[p].id in seen
    ensures FreshAt(log, from, seen) == Range(Max(from, polled), |log|)
    decreases |log| - from
  {
    if from < |log| {
      if from < polled {
        assert log[from].id in seen;
        FreshIsRange(log, from + 1, seen, polled);
      } else {
        assert log[from].id !in seen;
        FreshIsRange(log, from + 1, seen + {log[from].id}, from + 1);
        RangeHead(from, |log|);
      }
    }
  }

  lemma {:induction false} ChainRange(frames: seq<Frame>, more: seq<Frame>, start: nat, end: nat, n: nat)
    requires Chain(frames) && n == Max(NextPos(frames), start) <= end && |more| == end - n
    requires forall k :: 0 <= k < |more| ==> more[k].pos == n + k && more[k].windowStart == start
    ensures Chain(frames + more)
    ensures NextPos(frames + more) == if more == [] then NextPos(frames) else end
  {
    var all := frames + more;
    forall k | 0 <= k < |all| ensures all[k].pos == Max(NextPos(all[..k]), all[k].windowStart) {
      if k < |frames| {
        assert all[..k] == frames[..k];
      } else if k == |frames| {
        assert all[..k] == frames;
      } else {
        assert all[..k][k - 1] == more[k - 1 - |frames|];
      }
    }
  }

  lemma PollChain(log: seq<Event>, before: seq<Frame>, seen: set<string>, upTo: nat)
    requires DistinctIds(log) && upTo <= |log| && SeenUpTo(log, seen, upTo)
    requires Chain(before) && FromLog(before, log) && NextPos(before) <= upTo
    requires upTo > NextPos(before) ==> upTo <= WindowStart(|log|) < |log|
    ensures Within(FreshAt(log, WindowStart(|log|), seen), 0, |log|)
    ensures var more := Frames(log, FreshAt(log, WindowStart(|log|), seen));
      Chain(before + more) && FromLog(before + more, log) && NextPos(before + more) == |log|
  {
    var start := WindowStart(|log|);
    FreshInRange(log, start, seen);
    FreshIsRange(log, start, seen, upTo);
    var more := Frames(log, FreshAt(log, start, seen));
    ChainRange(before, more, start, |log|, Max(NextPos(before), start));
    forall k | 0 <= k < |before + more|
      ensures (before + more)[k].pos < |log| && (before + more)[k].event == log[(before + more)[k].pos]
    {
      if k < |before| { assert (before + more)[k] == before[k]; }
    }
  }

  lemma SeenAfterPoll(log: seq<Event>, seen: set<string>)
    requires seen <= Ids(log)
    ensures SeenUpTo(log, seen + Ids(Retained(log)), |log|)
    ensures seen + Ids(Retained(log)) <= Ids(log)
  {
    forall p | WindowStart(|log|) <= p < |log| ensures log[p].id in Ids(Retained(log)) {
      assert Retained(log)[p - WindowStart(|log|)] == log[p];
    }
  }

  /** One poll keeps the chain and moves the boundary to the end of the log. */
  lemma PollKeeps(log: seq<Event>, delivered: seq<Frame>, l: Link, upTo: nat)
    requires DistinctIds(log) && upTo <= |log| && SeenUpTo(log, l.seen, upTo) && l.seen <= Ids(log)
    requires Chain(delivered + l.inFlight) && FromLog(delivered + l.inFlight, log)
    requires NextPos(delivered + l.inFlight) <= upTo
    requires upTo > NextPos(delivered + l.inFlight) ==> upTo <= WindowStart(|log|) < |log|
    ensures Inv(World(log, Some(Polled(log, l)), delivered))
  {
    PollChain(log, delivered + l.inFlight, l.seen, upTo);
    SeenAfterPoll(log, l.seen);
    Assoc(delivered, l.inFlight, Frames(log, FreshAt(log, WindowStart(|log|), l.seen)));
  }

  lemma Assoc<T>(a: seq<T>, b: seq<T>, c: seq<T>)
    ensures a + (b + c) == (a + b) + c
  {}

  lemma {:induction false} IndexExact(ordered: seq<Event>, id: string, from: nat)
    requires from <= |ordered|
    ensures -1 <= IndexOf(ordered, id, from) < |ordered|
    ensures IndexOf(ordered, id, from) >= 0 ==>
      from <= IndexOf(ordered, id, from) && ordered[IndexOf(ordered, id, from)].id == id
    ensures forall p :: from <= p < |ordered| && ordered[p].id == id ==> IndexOf(ordered, id, from) >= 0
    decreases |ordered| - from
  {
    if from < |ordered| { IndexExact(ordered, id, from + 1); }
  }

  /** Pre-seeding covers exactly the retained positions up to the last delivered one. */
  lemma PreseedExact(log: seq<Event>, last: nat)
    requires DistinctIds(log) && last < |log| && log[last].id != ""
    ensures SeenUpTo(log, Preseed(Retained(log), Some(log[last].id)), Max(last + 1, WindowStart(|log|)))
  {
    var start, window := WindowStart(|log|), Retained(log);
    var id := log[last].id;
    IndexExact(window, id, 0);
    var c := IndexOf(window, id, 0);
    if last >= start { assert window[last - start] == log[last]; }
    if c >= 0 {
      assert log[start + c].id == log[last].id;
      forall p | 0 <= p < |log| ensures log[p].id in Ids(window[..c + 1]) <==> start <= p <= last {
        if start <= p <= last { assert window[..c + 1][p - start] == log[p]; }
        if log[p].id in Ids(window[..c + 1]) {
          var e :| e in window[..c + 1] && e.id == log[p].id;
          var j :| 0 <= j <= c && window[..c + 1][j] == e;
          assert log[start + j].id == log[p].id;
        }
      }
    }
  }

  lemma ChainPrefix(frames: seq<Frame>, n: nat)
    requires n <= |frames| && Chain(frames)
    ensures Chain(frames[..n])
  {
    forall k | 0 <= k < n ensures frames[..n][k].pos == Max(NextPos(frames[..n][..k]), frames[..n][k].windowStart) {
      assert frames[..n][..k] == frames[..k];
    }
  }

  predicate NonEmptyIds(log: seq<Event>) {
    forall p :: 0 <= p < |log| ==> log[p].id != ""
  }

  lemma PreseedFromLog(log: seq<Event>, id: Option<string>)
    ensures Preseed(Retained(log), id) <= Ids(log)
  {
    assert forall e :: e in Retained(log) ==> e in log;
  }

  lemma ConnectFirst(w: World)
    requires Inv(w) && DistinctIds(w.log) && w.delivered == []
    ensures Inv(Next(w, Connect))
  {
    assert Preseed(Retained(w.log), LastId(w)) == {} && NextPos(w.delivered) == 0;
    ReconnectKeeps(w.log, w.delivered, {});
  }

  /** What a reconnecting client sends seeds the connection up to its last frame. */
  lemma LastIdSeeds(log: seq<Event>, delivered: seq<Frame>)
    requires DistinctIds(log) && NonEmptyIds(log) && delivered != [] && FromLog(delivered, log)
    ensures NextPos(delivered) <= |log|
    ensures SeenUpTo(log, Preseed(Retained(log), LastId(World(log, None, delivered))), Max(NextPos(delivered), WindowStart(|log|)))
  {
    PreseedExact(log, delivered[|delivered| - 1].pos);
  }

  lemma ConnectAgain(w: World)
    requires Inv(w) && DistinctIds(w.log) && NonEmptyIds(w.log) && w.delivered != []
    ensures Inv(Next(w, Connect))
  {
    LoseKeeps(w);
    LastIdSeeds(w.log, w.delivered);
    PreseedFromLog(w.log, LastId(w));
    ReconnectKeeps(w.log, w.delivered, Preseed(Retained(w.log), LastId(w)));
  }

  lemma ReconnectKeeps(log: seq<Event>, delivered: seq<Frame>, seen: set<string>)
    requires DistinctIds(log) && Chain(delivered) && FromLog(delivered, log) && seen <= Ids(log)
    requires NextPos(delivered) <= |log| && SeenUpTo(log, seen, Max(NextPos(delivered), WindowStart(|log|)))
    ensures Inv(World(log, Some(Polled(log, Link(seen, [], 0))), delivered))
  {
    assert delivered + [] == delivered;
    PollKeeps(log, delivered, Link(seen, [], 0), Max(NextPos(delivered), WindowStart(|log|)));
  }

  lemma LoseKeeps(w: World)
    requires Inv(w)
    ensures Chain(w.delivered) && FromLog(w.delivered, w.log)
  {
    assert Wire(w)[..|w.delivered|] == w.delivered;
    ChainPrefix(Wire(w), |w.delivered|);
    assert forall k :: 0 <= k < |w.delivered| ==> w.delivered[k] == Wire(w)[k];
  }

  lemma AppendKeeps(w: World, e: Event)
    requires Inv(w) && DistinctIds(w.log + [e])
    ensures Inv(Next(w, Append(e)))
  {
    var log' := w.log + [e];
    forall id | id in Ids(w.log) ensures id in Ids(log') && id != e.id {
      var x :| x in w.log && x.id == id;
      var p :| 0 <= p < |w.log| && w.log[p] == x;
      assert log'[p] == x && log'[|w.log|] == e;
    }
    assert WindowStart(|w.log|) <= WindowStart(|log'|);
    assert forall p :: 0 <= p < |w.log| ==> log'[p] == w.log[p];
  }

  lemma MoveHead<T>(a: seq<T>, b: seq<T>)
    requires b != []
    ensures (a + [b[0]]) + b[1..] == a + b
  {}

  lemma DeliverKeeps(w: World)
    requires Inv(w)
    ensures Inv(Next(w, Deliver))
  {
    if w.link.Some? && w.link.value.inFlight != [] {
      var l := w.link.value;
      MoveHead(w.delivered, l.inFlight);
      assert Wire(Next(w, Deliver)) == Wire(w);
    }
  }

  lemma StepKeeps(w: World, step: Step)
    requires Inv(w) && DistinctIds(Next(w, step).log) && NonEmptyIds(w.log)
    ensures Inv(Next(w, step))
  {
    match step
    case Append(e) => AppendKeeps(w, e);
    case Connect => if w.delivered == [] { ConnectFirst(w); } else { ConnectAgain(w); }
    case Poll =>
      if w.link.Some? { PollKeeps(w.log, w.delivered, w.link.value, w.link.value.polled); }
    case Deliver => DeliverKeeps(w);
    case Lose => LoseKeeps(w);
  }

  lemma {:induction false} RunKeeps(steps: seq<Step>)
    requires DistinctIds(Run(EMPTY, steps).log) && NonEmptyIds(Run(EMPTY, steps).log)
    ensures Inv(Run(EMPTY, steps))
  {
    if steps != [] {
      var before, step := Run(EMPTY, steps[..|steps| - 1]), steps[|steps| - 1];
      LogGrows(before, step);
      RunKeeps(steps[..|steps| - 1]);
      StepKeeps(before, step);
    }
  }

  lemma LogGrows(w: World, step: Step)
    ensures |w.log| <= |Next(w, step).log| && Next(w, step).log[..|w.log|] == w.log
    ensures DistinctIds(Next(w, step).log) ==> DistinctIds(w.log)
    ensures NonEmptyIds(Next(w, step).log) ==> NonEmptyIds(w.log)
  {
    assert Next(w, step).log[..|w.log|] == w.log;
    assert forall p :: 0 <= p < |w.log| ==> Next(w, step).log[p] == w.log[p];
  }

  // -------------------------------------------------------------- theorems

  /** Over every chain of polls, losses and reconnects, each delivered frame is the log
      event right after the previous one, or the first of the window retained when it was
      sent if that is later. */
  lemma DeliveryExact(steps: seq<Step>, k: nat)
    requires DistinctIds(Run(EMPTY, steps).log) && NonEmptyIds(Run(EMPTY, steps).log)
    requires k < |Run(EMPTY, steps).delivered|
    ensures var w := Run(EMPTY, steps); var f := w.delivered[k];
      && f.pos < |w.log| && f.event == w.log[f.pos]
      && f.pos == Max(if k == 0 then 0 else w.delivered[k - 1].pos + 1, f.windowStart)
  {
    RunKeeps(steps);
    LoseKeeps(Run(EMPTY, steps));
    ChainAt(Run(EMPTY, steps).delivered, k);
  }

  lemma ChainAt(frames: seq<Frame>, k: nat)
    requires Chain(frames) && k < |frames|
    ensures frames[k].pos == Max(if k == 0 then 0 else frames[k - 1].pos + 1, frames[k].windowStart)
  {
    assert k > 0 ==> frames[..k][k - 1] == frames[k - 1];
  }

  /** Nothing is delivered twice or out of order. */
  lemma {:induction false} StrictlyIncreasing(steps: seq<Step>, j: nat, k: nat)
    requires DistinctIds(Run(EMPTY, steps).log) && NonEmptyIds(Run(EMPTY, steps).log)
    requires j < k < |Run(EMPTY, steps).delivered|
    ensures Run(EMPTY, steps).delivered[j].pos < Run(EMPTY, steps).delivered[k].pos
  {
    DeliveryExact(steps, k);
    if j < k - 1 { StrictlyIncreasing(steps, j, k - 1); }
  }

  /** A position between two delivered frames is missing exactly because it had left the
      retained window before the poll that sent the later frame. */
  lemma SkippedOnlyIfEvicted(steps: seq<Step>, k: nat, p: nat)
    requires DistinctIds(Run(EMPTY, steps).log) && NonEmptyIds(Run(EMPTY, steps).log)
    requires k < |Run(EMPTY, steps).delivered|
    requires (k == 0 || Run(EMPTY, steps).delivered[k - 1].pos < p) && p < Run(EMPTY, steps).delivered[k].pos
    ensures p < Run(EMPTY, steps).delivered[k].windowStart == Run(EMPTY, steps).delivered[k].pos
  {
    DeliveryExact(steps, k);
  }

  /** Nothing is lost at the end: once a poll's frames have arrived, the client has the log's
      last event. */
  lemma CaughtUp(steps: seq<Step>)
    requires DistinctIds(Run(EMPTY, steps).log) && NonEmptyIds(Run(EMPTY, steps).log)
    requires Run(EMPTY, steps).link.Some? && Run(EMPTY, steps).link.value.inFlight == []
    requires Run(EMPTY, steps).link.value.polled == |Run(EMPTY, steps).log| > 0
    ensures var w := Run(EMPTY, steps); w.delivered != [] && w.delivered[|w.delivered| - 1].pos == |w.log| - 1
  {
    RunKeeps(steps);
    NothingInFlight(Run(EMPTY, steps));
  }

  lemma NothingInFlight(w: World)
    requires Inv(w) && w.link.Some? && w.link.value.inFlight == []
    ensures NextPos(w.delivered) == w.link.value.polled
  {
    assert w.delivered + w.link.value.inFlight == w.delivered;
  }

  // ------------------------------------------------- what each step sends

  /** The newest thousand events are retained, all of them while there are no more. */
  lemma RetainsTheLastThousand(log: seq<Event>)
    ensures Retained(log) == if |log| <= 1000 then log else log[|log| - 1000..]
  {
    if |log| <= 1000 { assert log[0..] == log; }
  }

  /** The frames of the log from this position on, as a poll of now sends them. */
  function FramesFrom(log: seq<Event>, from: nat): (r: seq<Frame>)
    requires from <= |log|
    ensures |r| == |log| - from
  {
    seq(|log| - from, i requires 0 <= i < |log| - from => Frame(log[from + i], from + i, WindowStart(|log|)))
  }

  lemma RangeFrames(log: seq<Event>, from: nat)
    requires from <= |log|
    ensures Within(Range(from, |log|), 0, |log|)
    ensures Frames(log, Range(from, |log|)) == FramesFrom(log, from)
  {}

  lemma PollSendsTail(log: seq<Event>, l: Link, upTo: nat)
    requires DistinctIds(log) && upTo <= |log| && SeenUpTo(log, l.seen, upTo)
    ensures Polled(log, l).inFlight == l.inFlight + FramesFrom(log, Max(WindowStart(|log|), upTo))
    ensures Polled(log, l).polled == |log|
  {
    FreshIsRange(log, WindowStart(|log|), l.seen, upTo);
    RangeFrames(log, Max(WindowStart(|log|), upTo));
  }

  lemma ConnectSeen(w: World)
    requires Inv(w) && DistinctIds(w.log) && NonEmptyIds(w.log)
    ensures NextPos(w.delivered) <= |w.log|
    ensures SeenUpTo(w.log, Preseed(Retained(w.log), LastId(w)), Max(NextPos(w.delivered), WindowStart(|w.log|)))
  {
    LoseKeeps(w);
    if w.delivered == [] {
      assert Preseed(Retained(w.log), LastId(w)) == {};
    } else {
      LastIdSeeds(w.log, w.delivered);
    }
  }

  /** Connecting, from every state of every run, sends the retained events after the last one
      received, in order. */
  lemma ConnectSends(steps: seq<Step>)
    requires DistinctIds(Run(EMPTY, steps).log) && NonEmptyIds(Run(EMPTY, steps).log)
    ensures var w := Run(EMPTY, steps); var t := Next(w, Connect);
      && NextPos(w.delivered) <= |w.log| && t.log == w.log && t.delivered == w.delivered && t.link.Some?
      && t.link.value.inFlight == FramesFrom(w.log, Max(WindowStart(|w.log|), NextPos(w.delivered)))
      && t.link.value.polled == |w.log|
  {
    var w := Run(EMPTY, steps);
    RunKeeps(steps);
    ConnectSeen(w);
    PollSendsTail(w.log, Link(Preseed(Retained(w.log), LastId(w)), [], 0), Max(NextPos(w.delivered), WindowStart(|w.log|)));
  }

  /** A later poll sends the retained events after the previous poll, in order. */
  lemma PollSends(steps: seq<Step>)
    requires DistinctIds(Run(EMPTY, steps).log) && NonEmptyIds(Run(EMPTY, steps).log) && Run(EMPTY, steps).link.Some?
    ensures var w := Run(EMPTY, steps); var l, t := w.link.value, Next(w, Poll);
      && t.log == w.log && t.delivered == w.delivered && t.link.Some? && l.polled <= |w.log|
      && t.link.value.inFlight == l.inFlight + FramesFrom(w.log, Max(WindowStart(|w.log|), l.polled))
      && t.link.value.polled == |w.log|
  {
    var w := Run(EMPTY, steps);
    RunKeeps(steps);
    PollSendsTail(w.log, w.link.value, w.link.value.polled);
  }

  /** Frames arrive in order, and a loss drops those on the wire and no others. */
  lemma FramesArrive(w: World)
    ensures w.link.Some? && w.link.value.inFlight != [] ==>
      Next(w, Deliver) == World(w.log, Some(w.link.value.(inFlight := w.link.value.inFlight[1..])),
                                w.delivered + [w.link.value.inFlight[0]])
    ensures Next(w, Lose) == World(w.log, None, w.delivered)
  {}
}
