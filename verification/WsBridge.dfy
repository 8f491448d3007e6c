/** packages/runtime/src/http.ts, the WebSocket bridge: `proxyWebSocketUpgrade` dials the
    web server and registers its callbacks, `webSocketProxyHandler` serves the client. */
module WsBridge {
  import opened Common

  type Frame = seq<char>

  /** Status codes an endpoint may put in a close frame (section 7.4 of RFC 6455): 1004 to
      1006 and 1015 are reserved, 3000 to 4999 belong to libraries and applications. */
  predicate MaySend(code: int) {
    1000 <= code <= 1003 || 1007 <= code <= 1014 || 3000 <= code <= 4999
  }

  function SafeCloseCode(code: Option<int>): (r: int)
    ensures MaySend(r)
    ensures code.Some? && (code.value == 1000 || 3000 <= code.value <= 4999) ==> r == code.value
    ensures code.None? || (code.value < 3000 && code.value != 1000) || code.value > 4999 ==> r == 1011
  {
    if code.Some? && (code.value == 1000 || (code.value >= 3000 && code.value <= 4999)) then code.value else 1011
  }

  /** The connection's flags and buffers, the calls made on the two sockets, and every frame
      the sockets have handed over. */
  datatype State = State(
    clientOpen: bool, upstreamOpen: bool, upstreamClosed: bool, timer: bool,
    toClient: seq<Frame>, toUpstream: seq<Frame>,
    clientSends: seq<Frame>, upstreamSends: seq<Frame>,
    clientCloses: seq<Option<int>>, upstreamCloses: nat, cacheDrops: nat,
    fromClient: seq<Frame>, fromUpstream: seq<Frame>)

  const DIALED := State(false, false, false, true, [], [], [], [], [], 0, 0, [], [])

  datatype Event =
    | UpstreamOpen
    | UpstreamMessage(frame: Frame)
    | UpstreamClose(code: Option<int>)
    | UpstreamError
    | HandshakeTimeout
    | ClientOpen
    | ClientMessage(frame: Frame)
    | ClientClose

  function Down(s: State, code: Option<int>): State {
    s.(timer := false, upstreamClosed := true,
       clientCloses := if s.clientOpen then s.clientCloses + [Some(SafeCloseCode(code))] else s.clientCloses)
  }

  function Handle(s: State, e: Event): State {
    match e
    case UpstreamOpen =>
      s.(timer := false, upstreamOpen := true, upstreamSends := s.upstreamSends + s.toUpstream, toUpstream := [])
    case UpstreamMessage(f) =>
      if s.clientOpen then s.(clientSends := s.clientSends + [f], fromUpstream := s.fromUpstream + [f])
      else s.(toClient := s.toClient + [f], fromUpstream := s.fromUpstream + [f])
    case UpstreamClose(code) => Down(s, code)
    case UpstreamError => Down(s, None).(cacheDrops := s.cacheDrops + 1)
    case HandshakeTimeout =>
      if !s.timer then s
      else s.(timer := false, upstreamCloses := if s.upstreamOpen then s.upstreamCloses else s.upstreamCloses + 1)
    case ClientOpen =>
      if s.upstreamClosed then s.(clientOpen := true, clientCloses := s.clientCloses + [None])
      else s.(clientOpen := true, clientSends := s.clientSends + s.toClient, toClient := [])
    case ClientMessage(f) =>
      if s.upstreamOpen then s.(upstreamSends := s.upstreamSends + [f], fromClient := s.fromClient + [f])
      else s.(toUpstream := s.toUpstream + [f], fromClient := s.fromClient + [f])
    case ClientClose => s.(upstreamCloses := s.upstreamCloses + 1)
  }

  function Run(events: seq<Event>): State {
    if events == [] then DIALED else Handle(Run(events[..|events| - 1]), events[|events| - 1])
  }

  datatype Reply = NotRunning502 | UpgradeFailed426 | Upgraded

  /** A socket: the calls made on it, in order. A send that throws was still attempted. */
  class Socket {
    var sends: seq<Frame>
    var closes: seq<Option<int>>

    constructor ()
      ensures sends == [] && closes == []
    {
      sends, closes := [], [];
    }

    method Send(f: Frame)
      modifies `sends
      ensures sends == old(sends) + [f]
    {
      sends := sends + [f];
    }

    method Close(code: Option<int>)
      modifies `closes
      ensures closes == old(closes) + [code]
    {
      closes := closes + [code];
    }
  }

  method Flush(socket: Socket, frames: seq<Frame>)
    modifies socket`sends
    ensures socket.sends == old(socket.sends) + frames
  {
    for i := 0 to |frames|
      invariant socket.sends == old(socket.sends) + frames[..i]
    {
      assert frames[..i + 1] == frames[..i] + [frames[i]];
      socket.Send(frames[i]);
    }
    assert frames[..|frames|] == frames;
  }

  class Bridge {
    const upstream: Socket
    const client: Socket
    var toClient: seq<Frame>
    var toUpstream: seq<Frame>
    var clientOpen: bool
    var upstreamOpen: bool
    var upstreamClosed: bool
    var timer: bool
    var cacheDrops: nat
    ghost var fromClient: seq<Frame>
    ghost var fromUpstream: seq<Frame>

    ghost function Abs(): State
      reads this, upstream, client
    {
      State(clientOpen, upstreamOpen, upstreamClosed, timer, toClient, toUpstream, client.sends, upstream.sends,
            client.closes, |upstream.closes|, cacheDrops, fromClient, fromUpstream)
    }

    constructor ()
      ensures Abs() == DIALED && upstream != client
      ensures fresh(upstream) && fresh(client)
    {
      upstream := new Socket();
      client := new Socket();
      toClient, toUpstream, clientOpen, upstreamOpen, upstreamClosed := [], [], false, false, false;
      timer, cacheDrops, fromClient, fromUpstream := true, 0, [], [];
    }

    method OnUpstreamOpen()
      requires upstream != client
      modifies this, upstream
      ensures Abs() == Handle(old(Abs()), UpstreamOpen)
    {
      timer := false;
      upstreamOpen := true;
      Flush(upstream, toUpstream);
      toUpstream := [];
    }

    method OnUpstreamMessage(frame: Frame)
      requires upstream != client
      modifies this, client
      ensures Abs() == Handle(old(Abs()), UpstreamMessage(frame))
    {
      fromUpstream := fromUpstream + [frame];
      if clientOpen { client.Send(frame); } else { toClient := toClient + [frame]; }
    }

    method OnUpstreamDown(code: Option<int>)
      requires upstream != client
      modifies this, client
      ensures Abs() == Down(old(Abs()), code)
    {
      timer := false;
      upstreamClosed := true;
      if clientOpen { client.Close(Some(SafeCloseCode(code))); }
    }

    method OnUpstreamClose(code: Option<int>)
      requires upstream != client
      modifies this, client
      ensures Abs() == Handle(old(Abs()), UpstreamClose(code))
    {
      OnUpstreamDown(code);
    }

    method OnUpstreamError()
      requires upstream != client
      modifies this, client
      ensures Abs() == Handle(old(Abs()), UpstreamError)
    {
      cacheDrops := cacheDrops + 1;
      OnUpstreamDown(None);
    }

    method OnHandshakeTimeout()
      requires upstream != client
      modifies this, upstream
      ensures Abs() == Handle(old(Abs()), HandshakeTimeout)
    {
      if !timer { return; }
      timer := false;
      if !upstreamOpen { upstream.Close(None); }
    }

    method Open()
      requires upstream != client
      modifies this, client
      ensures Abs() == Handle(old(Abs()), ClientOpen)
    {
      clientOpen := true;
      if upstreamClosed {
        client.Close(None);
        return;
      }
      Flush(client, toClient);
      toClient := [];
    }

    method Message(frame: Frame)
      requires upstream != client
      modifies this, upstream
      ensures Abs() == Handle(old(Abs()), ClientMessage(frame))
    {
      fromClient := fromClient + [frame];
      if upstreamOpen { upstream.Send(frame); } else { toUpstream := toUpstream + [frame]; }
    }

    method Close()
      requires upstream != client
      modifies this, upstream
      ensures Abs() == Handle(old(Abs()), ClientClose)
    {
      upstream.Close(None);
    }
  }

  /** The upgrade request: nothing is dialed without a live port, and an upgrade that fails
      takes the dialed socket down again. */
  method ProxyWebSocketUpgrade(port: Option<nat>, upgrade: bool) returns (reply: Reply, bridge: Option<Bridge>)
    ensures port.None? ==> reply == NotRunning502 && bridge.None?
    ensures port.Some? ==> bridge.Some? && fresh(bridge.value) && fresh(bridge.value.upstream)
    ensures port.Some? && upgrade ==> reply == Upgraded && bridge.value.Abs() == DIALED
    ensures port.Some? && !upgrade ==> reply == UpgradeFailed426 && bridge.value.Abs() == DIALED.(upstreamCloses := 1)
  {
    if port.None? { return NotRunning502, None; }
    var b := new Bridge();
    if !upgrade {
      b.upstream.Close(None);
      return UpgradeFailed426, Some(b);
    }
    return Upgraded, Some(b);
  }

  // ------------------------------------------------------------- invariant

  lemma RunSnoc(events: seq<Event>, e: Event)
    ensures Run(events + [e]) == Handle(Run(events), e)
  {
    assert (events + [e])[..|events|] == events;
  }

  predicate ClientInOrder(s: State) {
    && s.fromClient == s.upstreamSends + s.toUpstream
    && (s.upstreamOpen ==> s.toUpstream == [])
  }

  lemma ClientOrderStep(s: State, e: Event)
    requires ClientInOrder(s)
    ensures ClientInOrder(Handle(s, e))
  {
    match e
    case UpstreamOpen => assert s.fromClient + [] == s.fromClient;
    case ClientMessage(f) =>
      assert s.upstreamSends + (s.toUpstream + [f]) == (s.upstreamSends + s.toUpstream) + [f];
      if s.upstreamOpen { assert s.upstreamSends + [] == s.upstreamSends; }
    case _ =>
  }

  /** No frame from the client is lost, duplicated or reordered: what was sent upstream,
      followed by what is still buffered, is what the client sent. */
  lemma {:induction false} ClientFramesInOrder(events: seq<Event>)
    ensures Run(events).fromClient == Run(events).upstreamSends + Run(events).toUpstream
    ensures Run(events).upstreamOpen ==> Run(events).toUpstream == []
  {
    if events != [] {
      ClientFramesInOrder(events[..|events| - 1]);
      ClientOrderStep(Run(events[..|events| - 1]), events[|events| - 1]);
    }
  }

  /** The client opened when the upstream was already down, with frames still buffered. */
  predicate Stranded(s: State) {
    s.clientOpen && s.toClient != []
  }

  predicate UpstreamInOrder(s: State) {
    && (!Stranded(s) ==> s.fromUpstream == s.clientSends + s.toClient)
    && (Stranded(s) ==> s.upstreamClosed && s.fromUpstream == s.toClient + s.clientSends)
    && (!s.clientOpen ==> s.clientSends == [])
  }

  lemma UpstreamOrderStep(s: State, e: Event)
    requires UpstreamInOrder(s)
    ensures UpstreamInOrder(Handle(s, e))
  {
    match e
    case UpstreamMessage(f) =>
      assert s.toClient + (s.clientSends + [f]) == (s.toClient + s.clientSends) + [f];
      assert s.clientSends + (s.toClient + [f]) == (s.clientSends + s.toClient) + [f];
      if s.toClient == [] { assert (s.clientSends + [f]) + s.toClient == (s.clientSends + s.toClient) + [f]; }
    case ClientOpen =>
      assert (s.clientSends + s.toClient) + [] == s.clientSends + s.toClient;
      if s.clientSends == [] { assert s.clientSends + s.toClient == s.toClient + s.clientSends; }
    case _ =>
  }

  /** The other direction, for every order of events: the frames sent to the client come
      before the buffered ones, except that a stranded buffer is never flushed. */
  lemma {:induction false} UpstreamFramesExact(events: seq<Event>)
    ensures UpstreamInOrder(Run(events))
  {
    if events != [] {
      UpstreamFramesExact(events[..|events| - 1]);
      UpstreamOrderStep(Run(events[..|events| - 1]), events[|events| - 1]);
    }
  }

  predicate IsDown(e: Event) {
    e.UpstreamClose? || e.UpstreamError?
  }

  /** A WebSocket delivers no message after its close or error event. */
  predicate QuietAfterDown(events: seq<Event>) {
    forall i, j :: 0 <= i < j < |events| && IsDown(events[i]) ==> !events[j].UpstreamMessage?
  }

  lemma {:induction false} ClosedExact(events: seq<Event>)
    ensures Run(events).upstreamClosed <==> exists i :: 0 <= i < |events| && IsDown(events[i])
  {
    if events != [] {
      var n := |events| - 1;
      ClosedExact(events[..n]);
      ClosedStep(Run(events[..n]), events[n]);
      assert forall i :: 0 <= i < n ==> events[..n][i] == events[i];
      if Run(events[..n]).upstreamClosed {
        var i :| 0 <= i < n && IsDown(events[..n][i]);
        assert IsDown(events[i]);
      } else if IsDown(events[n]) {
        assert Run(events).upstreamClosed;
      } else {
        forall i | 0 <= i < |events| ensures !IsDown(events[i]) {
          if i < n { assert !IsDown(events[..n][i]); }
        }
      }
    }
  }

  lemma ClosedStep(s: State, e: Event)
    ensures Handle(s, e).upstreamClosed <==> s.upstreamClosed || IsDown(e)
  {}

  lemma QuietNow(events: seq<Event>)
    requires QuietAfterDown(events) && events != [] && Run(events[..|events| - 1]).upstreamClosed
    ensures !events[|events| - 1].UpstreamMessage?
  {
    ClosedExact(events[..|events| - 1]);
    var i :| 0 <= i < |events| - 1 && IsDown(events[..|events| - 1][i]);
    assert IsDown(events[i]);
  }

  lemma StrandedStep(s: State, e: Event)
    requires UpstreamInOrder(s) && Stranded(Handle(s, e))
    requires s.upstreamClosed ==> !e.UpstreamMessage?
    requires Stranded(s) ==> s.clientSends == []
    ensures Handle(s, e).clientSends == []
  {}

  /** With such a socket a stranded client has been sent nothing. */
  lemma {:induction false} StrandedGetsNothing(events: seq<Event>)
    requires QuietAfterDown(events) && Stranded(Run(events))
    ensures Run(events).clientSends == []
  {
    if events != [] {
      var n := |events| - 1;
      UpstreamFramesExact(events[..n]);
      if Run(events[..n]).upstreamClosed { QuietNow(events); }
      if Stranded(Run(events[..n])) { StrandedGetsNothing(events[..n]); }
      StrandedStep(Run(events[..n]), events[n]);
    }
  }

  /** What the client is sent is always a prefix of what the upstream produced, and all of
      it once the client has opened on a live upstream. */
  lemma ClientSeesPrefix(events: seq<Event>)
    requires QuietAfterDown(events)
    ensures Run(events).clientSends <= Run(events).fromUpstream
    ensures Run(events).clientOpen && !Stranded(Run(events)) ==> Run(events).clientSends == Run(events).fromUpstream
  {
    UpstreamFramesExact(events);
    if Stranded(Run(events)) { StrandedGetsNothing(events); }
  }

  /** Without that assumption the order can break: a frame buffered before the client opened
      on a dead upstream is overtaken by a later one. */
  lemma LateFrameOvertakes()
    ensures var s := Run([UpstreamMessage("a"), UpstreamClose(None), ClientOpen, UpstreamMessage("b")]);
      s.fromUpstream == ["a", "b"] && s.clientSends == ["b"] && s.toClient == ["a"]
  {
    var e0, e1, e2, e3 := UpstreamMessage("a"), UpstreamClose(None), ClientOpen, UpstreamMessage("b");
    RunSnoc([], e0);
    RunSnoc([e0], e1);
    RunSnoc([e0, e1], e2);
    RunSnoc([e0, e1, e2], e3);
    assert [e0] == [] + [e0] && [e0, e1] == [e0] + [e1] && [e0, e1, e2] == [e0, e1] + [e2];
    assert [e0, e1, e2, e3] == [e0, e1, e2] + [e3];
  }

  predicate LegalClose(code: Option<int>) {
    code.Some? ==> MaySend(code.value)
  }

  predicate ClosesExact(s: State) {
    && (s.clientCloses != [] <==> s.clientOpen && s.upstreamClosed)
    && forall i :: 0 <= i < |s.clientCloses| ==> LegalClose(s.clientCloses[i])
  }

  lemma CloseStep(s: State, e: Event)
    requires ClosesExact(s)
    ensures ClosesExact(Handle(s, e))
  {}

  /** The client is asked to close exactly when it is open and the upstream is down, and
      always with a code it may be sent. */
  lemma {:induction false} CloseReachesClient(events: seq<Event>)
    ensures Run(events).clientCloses != [] <==> Run(events).clientOpen && Run(events).upstreamClosed
    ensures forall i :: 0 <= i < |Run(events).clientCloses| ==> LegalClose(Run(events).clientCloses[i])
  {
    if events != [] {
      CloseReachesClient(events[..|events| - 1]);
      CloseStep(Run(events[..|events| - 1]), events[|events| - 1]);
    }
  }

  predicate TimerExact(s: State) {
    && (s.timer ==> !s.upstreamOpen && !s.upstreamClosed)
    && (!s.timer ==> s.upstreamOpen || s.upstreamClosed || s.upstreamCloses > 0)
  }

  lemma TimerStep(s: State, e: Event)
    requires TimerExact(s)
    ensures TimerExact(Handle(s, e))
  {}

  /** The handshake timer is pending only while the upstream has neither opened nor failed,
      so a timer that fires always closes a socket that never opened. */
  lemma {:induction false} TimerPendingExact(events: seq<Event>)
    ensures TimerExact(Run(events))
    ensures Run(events).timer ==> Run(events + [HandshakeTimeout]).upstreamCloses == Run(events).upstreamCloses + 1
    ensures !Run(events).timer ==> Run(events + [HandshakeTimeout]) == Run(events)
  {
    RunSnoc(events, HandshakeTimeout);
    if events != [] {
      TimerPendingExact(events[..|events| - 1]);
      TimerStep(Run(events[..|events| - 1]), events[|events| - 1]);
    }
  }

  // ------------------------------------------------ the calls, from the events

  predicate WentDown(events: seq<Event>) {
    events != [] && (IsDown(events[|events| - 1]) || WentDown(events[..|events| - 1]))
  }

  /** Neither opened, nor failed, nor timed out. */
  predicate Dialing(events: seq<Event>) {
    UpstreamOpen !in events && !WentDown(events) && HandshakeTimeout !in events
  }

  function FromClient(events: seq<Event>): seq<Frame> {
    if events == [] then []
    else FromClient(events[..|events| - 1])
         + if events[|events| - 1].ClientMessage? then [events[|events| - 1].frame] else []
  }

  function FromUpstream(events: seq<Event>): seq<Frame> {
    if events == [] then []
    else FromUpstream(events[..|events| - 1])
         + if events[|events| - 1].UpstreamMessage? then [events[|events| - 1].frame] else []
  }

  /** How often the upstream is closed: once for each close of the client, and once for a
      timeout that finds it still dialing. */
  function UpstreamCloses(events: seq<Event>): nat {
    if events == [] then 0
    else
      var before, e := events[..|events| - 1], events[|events| - 1];
      UpstreamCloses(before) + if e.ClientClose? || (e.HandshakeTimeout? && Dialing(before)) then 1 else 0
  }

  function Errors(events: seq<Event>): nat {
    if events == [] then 0 else Errors(events[..|events| - 1]) + if events[|events| - 1].UpstreamError? then 1 else 0
  }

  /** How the client is closed: with the upstream's code when that goes down under an open
      client (1011 in place of one that may not be passed on), and plainly when it opens on a
      dead upstream. */
  function ClientCloses(events: seq<Event>): seq<Option<int>> {
    if events == [] then []
    else
      var before, e := events[..|events| - 1], events[|events| - 1];
      ClientCloses(before) + (
        match e
        case UpstreamClose(code) =>
          if ClientOpen !in before then []
          else if code.Some? && (code.value == 1000 || 3000 <= code.value <= 4999) then [code]
          else [Some(1011)]
        case UpstreamError => if ClientOpen in before then [Some(1011)] else []
        case ClientOpen => if WentDown(before) then [None] else []
        case _ => [])
  }

  predicate Matches(s: State, events: seq<Event>) {
    && (s.clientOpen <==> ClientOpen in events) && (s.upstreamOpen <==> UpstreamOpen in events)
    && (s.upstreamClosed <==> WentDown(events)) && (s.timer <==> Dialing(events))
    && s.fromClient == FromClient(events) && s.fromUpstream == FromUpstream(events)
  }

  lemma SnocIn(events: seq<Event>, e: Event, x: Event)
    ensures x in events + [e] <==> x in events || x == e
  {}

  lemma MatchesStep(s: State, events: seq<Event>, e: Event)
    requires Matches(s, events)
    ensures Matches(Handle(s, e), events + [e])
  {
    assert (events + [e])[..|events|] == events;
    SnocIn(events, e, ClientOpen);
    SnocIn(events, e, UpstreamOpen);
    SnocIn(events, e, HandshakeTimeout);
  }

  lemma CallsStep(s: State, events: seq<Event>, e: Event)
    requires Matches(s, events)
    requires s.upstreamCloses == UpstreamCloses(events) && s.cacheDrops == Errors(events)
    requires s.clientCloses == ClientCloses(events)
    ensures var t := Handle(s, e);
      && t.upstreamCloses == UpstreamCloses(events + [e]) && t.cacheDrops == Errors(events + [e])
      && t.clientCloses == ClientCloses(events + [e])
  {
    assert (events + [e])[..|events|] == events;
  }

  /** For every order of events: the flags and frames the bridge records, how often it closes
      the upstream, how and how often the client, and that exactly the errors drop the cached
      port. */
  lemma {:induction false} CallsExact(events: seq<Event>)
    ensures Matches(Run(events), events)
    ensures Run(events).upstreamCloses == UpstreamCloses(events) && Run(events).cacheDrops == Errors(events)
    ensures Run(events).clientCloses == ClientCloses(events)
  {
    if events != [] {
      var before, e := events[..|events| - 1], events[|events| - 1];
      assert events == before + [e];
      CallsExact(before);
      MatchesStep(Run(before), before, e);
      CallsStep(Run(before), before, e);
    }
  }
}
