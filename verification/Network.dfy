/**
 * Two endpoints running this code, joined by two FIFO channels. A channel is what one end
 * has queued and the other has not dispatched yet, so the two histories of an endpoint
 * are all that is needed to describe it.
 */
module Network {
  import opened Capsules
  import opened Engine
  import opened Trace
  import opened Sending
  import opened Receiving
  import opened Dialogue
  import opened Hearing
  import opened Endpoint

  // ---------- Two ends ----------

  /** `y` has dispatched a prefix of what `x` has queued, and knows where `x` started from. */
  predicate Hears(y: Session, x: Session) {
    && y.received <= x.emitted
    && PeerIs(y, SpeakerOf(x))
  }

  lemma PrefixGrows(p: Speaker, full: seq<Capsule>, part: seq<Capsule>, id: StreamId)
    requires Legal(p, full) && part <= full
    ensures Extends(StreamView(p.streamData, part, id), StreamView(p.streamData, full, id))
    ensures TotalsGrow(SessionTotals(p.limits, part), SessionTotals(p.limits, full))
    ensures Legal(p, part)
  {
    assert full[..|part|] == part;
    StreamGrows(p, full, |part|, id);
    SessionGrows(p, full, |part|);
    LegalPrefix(p, full, |part|);
  }

  /** What `y` has heard of `x` is at most what `x` has said. */
  lemma HeardFromSaid(y: Session, x: Session, id: StreamId)
    requires Hears(y, x) && SendInv(x)
    ensures Extends(Heard(y, id), Said(x, id))
    ensures TotalsGrow(HeardTotals(y), SaidTotals(x))
  {
    hide SendOk, SessionSendOk, StreamView, SessionTotals, Legal, Extends, TotalsGrow;
    HeardIsSpoken(y, SpeakerOf(x), id);
    PrefixGrows(SpeakerOf(x), x.emitted, y.received, id);
  }

  /** A stream that `x` talks about but did not open itself was begun by `y`. */
  lemma RemoteWasBegun(x: Session, y: Session, id: StreamId)
    requires Inv(x) && Inv(y) && Hears(x, y)
    requires Heard(x, id).begun
    ensures Known(y, id)
    ensures LocalTo(y.cfg.isServer, id) ==> Opened(y, id)
  {
    HeardFromSaid(x, y, id);
    hide Legal, StreamView, SessionTotals, SessionSendOk, SessionRecvOk, Delivered, Mentions;
    assert SendOk(y, id) && RecvOk(y, id);
  }

  lemma MentionedIsReachable(x: Session, y: Session, id: StreamId)
    requires Inv(x) && Inv(y) && Hears(x, y) && Hears(y, x)
    requires Mentions(x.emitted, id)
    ensures Reachable(y, id)
  {
    HeardFromSaid(x, y, id);
    if LocalTo(y.cfg.isServer, id) {
      assert Heard(x, id).begun by {
        hide SessionSendOk, Legal, StreamView, Delivered;
        assert RecvOk(x, id) && SendOk(x, id);
      }
      RemoteWasBegun(x, y, id);
    } else {
      assert Opened(x, id) by {
        hide SendInv, StreamView, Delivered;
        assert RecvOk(x, id);
      }
      hide SendOk, RecvOk, Legal, StreamView, SessionTotals;
    }
  }

  /** The capsule `y` dispatches next, and what `x` had queued before it. */
  lemma NextIsAllowed(x: Session, y: Session)
    requires Inv(x) && Hears(y, x) && |y.received| < |x.emitted|
    ensures Legal(SpeakerOf(x), y.received)
    ensures Allowed(SpeakerOf(x), y.received, x.emitted[|y.received|])
  {
    hide SendOk, RecvOk, StreamView, SessionTotals;
    LegalPrefix(SpeakerOf(x), x.emitted, |y.received|);
    assert x.emitted[..|y.received|] == y.received;
  }

  lemma NextIsMentioned(x: Session, y: Session, id: StreamId)
    requires y.received <= x.emitted && |y.received| < |x.emitted|
    requires About(x.emitted[|y.received|], id)
    ensures Mentions(x.emitted, id)
  {
  }

  lemma NextDataFits(x: Session, y: Session, id: StreamId, data: seq<Byte>, fin: bool)
    requires Inv(x) && Inv(y) && Hears(x, y) && Hears(y, x)
    requires |y.received| < |x.emitted| && x.emitted[|y.received|] == WtStream(id, data, fin)
    ensures y.bytesReceived + |data| <= y.maxDataRemote
    ensures |Heard(y, id).data| + |data| <= Said(y, id).max
  {
    var p := SpeakerOf(x);
    var c := WtStream(id, data, fin);
    var part := y.received + [c];
    assert part <= x.emitted;
    HeardIsSpoken(y, p, id);
    StreamViewSnoc(p.streamData, y.received, c, id);
    SessionTotalsSnoc(p.limits, y.received, c);
    PrefixGrows(p, x.emitted, part, id);
    HeardFromSaid(x, y, id);
    assert |Said(x, id).data| <= Heard(x, id).max by {
      hide SendInv, StreamView, Delivered, Mentions;
      assert RecvOk(x, id);
    }
    hide SendOk, RecvOk, Legal, StreamView, SessionTotals;
  }

  lemma NextCreditIsKnown(x: Session, y: Session, id: StreamId, max: nat)
    requires Inv(x) && Inv(y) && Hears(x, y) && Hears(y, x)
    requires |y.received| < |x.emitted| && x.emitted[|y.received|] == WtMaxStreamData(id, max)
    ensures Known(y, id)
  {
    var p := SpeakerOf(x);
    var c := WtMaxStreamData(id, max);
    var part := y.received + [c];
    assert part <= x.emitted;
    NextIsAllowed(x, y);
    LegalViewShape(p, y.received, id);
    StreamViewSnoc(p.streamData, y.received, c, id);
    PrefixGrows(p, x.emitted, part, id);
    assert Said(x, id).max >= max > p.streamData;
    assert Heard(x, id).begun by {
      hide SendInv, StreamView, Delivered, Mentions;
      assert RecvOk(x, id);
    }
    RemoteWasBegun(x, y, id);
  }

  /** Whatever `x` has queued, `y` will find expected when its turn comes. */
  lemma NextIsExpected(x: Session, y: Session)
    requires Inv(x) && Inv(y) && Hears(x, y) && Hears(y, x)
    requires |y.received| < |x.emitted|
    ensures Expected(y, SpeakerOf(x), x.emitted[|y.received|])
  {
    var c := x.emitted[|y.received|];
    NextIsAllowed(x, y);
    hide Inv, Allowed, Legal, StreamView, SessionTotals, Mentions;
    match c
    case WtStream(id, data, fin) =>
      NextIsMentioned(x, y, id);
      MentionedIsReachable(x, y, id);
      NextDataFits(x, y, id, data, fin);
    case WtResetStream(id, _, _) =>
      NextIsMentioned(x, y, id);
      MentionedIsReachable(x, y, id);
    case WtStopSending(id, _) =>
      NextIsMentioned(x, y, id);
      MentionedIsReachable(x, y, id);
    case WtStreamDataBlocked(id, _) =>
      NextIsMentioned(x, y, id);
      MentionedIsReachable(x, y, id);
    case WtMaxStreamData(id, max) =>
      NextCreditIsKnown(x, y, id, max);
    case _ =>
  }

  // ---------- Runs ----------

  /**
   * `accepted`: the client has processed the 2xx response, which precedes every capsule to it. A client
   * that closed before it stays unaccepted here; `LateWordsAreUnheard` says that nothing is lost by that.
   */
  datatype Net = Net(client: Session, server: Session, accepted: bool)

  datatype Action =
    | ClientCall(call: Call)
    | ServerCall(call: Call)
    | ClientAccepted
    | ToClient
    | ToServer

  /** The client has sent the CONNECT request and the server has just accepted it. */
  function InitialNet(c: Config, s: Config): Net {
    var server := NewSession(s, c, true);
    Net(NewSession(c, s, false), Establish(server, server.peer), false)
  }

  predicate Enabled(n: Net, a: Action) {
    match a
    case ClientCall(call) => Proper(n.client, call)
    case ServerCall(call) => Proper(n.server, call)
    case ClientAccepted => !n.accepted && !n.client.terminated
    case ToClient =>
      n.accepted && !n.client.terminated && |n.client.received| < |n.server.emitted|
    case ToServer =>
      !n.server.terminated && |n.server.received| < |n.client.emitted|
  }

  function StepNet(n: Net, a: Action): Net
    requires Enabled(n, a)
  {
    match a
    case ClientCall(call) => n.(client := Apply(n.client, call))
    case ServerCall(call) => n.(server := Apply(n.server, call))
    case ClientAccepted =>
      n.(client := Establish(n.client, CreditFrom(n.server.cfg, true)), accepted := true)
    case ToClient => n.(client := Receive(n.client, n.server.emitted[|n.client.received|]))
    case ToServer => n.(server := Receive(n.server, n.client.emitted[|n.server.received|]))
  }

  /** The two ends are sound, and each has dispatched a prefix of what the other has queued. */
  ghost predicate Coherent(n: Net) {
    && Inv(n.client) && Inv(n.server)
    && Hears(n.client, n.server) && Hears(n.server, n.client)
    && !n.client.cfg.isServer && n.server.cfg.isServer
    && ValidConfig(n.client.cfg) && ValidConfig(n.server.cfg)
    && (!n.accepted && !n.client.terminated ==> Waiting(n.client))
  }

  ghost predicate NetInv(n: Net) {
    Coherent(n) && NoErrors(n.client.events) && NoErrors(n.server.events)
  }

  // ---------- The initial state ----------

  lemma InitialNetInv(c: Config, s: Config)
    requires ValidConfig(c) && ValidConfig(s) && !c.isServer && s.isServer
    ensures NetInv(InitialNet(c, s))
  {
    hide Inv;
    NewSessionInv(c, s, false);
    NewSessionInv(s, c, true);
    EstablishInv(NewSession(s, c, true), NewSession(s, c, true).peer);
  }

  // ---------- Every step keeps it, and no step raises an error ----------

  lemma DeliverInv(x: Session, y: Session)
    requires Inv(x) && Inv(y) && Hears(x, y) && Hears(y, x)
    requires !y.terminated && |y.received| < |x.emitted| && NoErrors(y.events)
    ensures var c := x.emitted[|y.received|]; var y' := Receive(y, c);
      && Inv(y') && Hears(x, y') && Hears(y', x) && NoErrors(y'.events)
      && (y'.terminated <==> c.WtCloseSession?) && Onward(y, y')
  {
    hide Inv, Receive, NoErrors, Expected;
    var c := x.emitted[|y.received|];
    NextIsExpected(x, y);
    HearAny(y, SpeakerOf(x), c);
    ReceiveOnward(y, c);
  }

  lemma CallInv(x: Session, y: Session, call: Call)
    requires Inv(x) && Inv(y) && Hears(x, y) && Hears(y, x) && Proper(y, call)
    ensures Inv(Apply(y, call)) && Hears(x, Apply(y, call)) && Hears(Apply(y, call), x)
    ensures Apply(y, call).events == y.events && Onward(y, Apply(y, call))
  {
    hide Inv, Apply;
    ApplyInv(y, call);
    ApplyOnward(y, call);
  }

  lemma WaitingCall(s: Session, call: Call)
    requires Waiting(s)
    ensures Apply(s, call).terminated || Waiting(Apply(s, call))
  {
    hide NewStream;
  }

  lemma StepNetInv(n: Net, a: Action)
    requires NetInv(n) && Enabled(n, a)
    ensures NetInv(StepNet(n, a))
  {
    hide Inv, NoErrors, Apply, Receive;
    match a
    case ClientCall(call) =>
      CallInv(n.server, n.client, call);
      if !n.accepted && !n.client.terminated { WaitingCall(n.client, call); }
    case ServerCall(call) => CallInv(n.client, n.server, call);
    case ClientAccepted => EstablishInv(n.client, CreditFrom(n.server.cfg, true));
    case ToClient => DeliverInv(n.server, n.client);
    case ToServer => DeliverInv(n.client, n.server);
  }

  /**
   * Once the client has queued WT_CLOSE_SESSION, what it says later, such as the limits after a late 2xx,
   * is never dispatched: a server that is up has still something before it to dispatch.
   */
  lemma LateWordsAreUnheard(n: Net, late: seq<Capsule>)
    requires NetInv(n) && SaidTotals(n.client).closed && n.client.emitted <= late
    requires !n.server.terminated && |n.server.received| < |late|
    ensures |n.server.received| < |n.client.emitted|
    ensures late[|n.server.received|] == n.client.emitted[|n.server.received|]
  {
    hide SendInv, RecvOk, NoErrors, SessionTotals;
    HeardIsSpoken(n.server, SpeakerOf(n.client), StreamId(0, false, false));
    assert !HeardTotals(n.server).closed;
    assert |n.server.received| == |n.client.emitted| ==> n.server.received == n.client.emitted;
  }

  /** Runs from the establishment of a session, under any interleaving of calls and deliveries. */
  ghost predicate Run(n0: Net, actions: seq<Action>, n: Net)
    decreases |actions|
  {
    if actions == [] then n == n0
    else Enabled(n0, actions[0]) && Run(StepNet(n0, actions[0]), actions[1..], n)
  }

  lemma {:induction false} RunKeepsInv(n0: Net, actions: seq<Action>, n: Net)
    requires NetInv(n0) && Run(n0, actions, n)
    ensures NetInv(n)
    decreases |actions|
  {
    hide NetInv, StepNet, Enabled;
    if actions != [] {
      StepNetInv(n0, actions[0]);
      RunKeepsInv(StepNet(n0, actions[0]), actions[1..], n);
    }
  }

  lemma {:induction false} RunsJoin(n0: Net, a: seq<Action>, n: Net, b: seq<Action>, n': Net)
    requires Run(n0, a, n) && Run(n, b, n')
    ensures Run(n0, a + b, n')
    decreases |a|
  {
    hide StepNet, Enabled;
    if a == [] {
      assert a + b == b;
    } else {
      assert (a + b)[1..] == a[1..] + b;
      RunsJoin(StepNet(n0, a[0]), a[1..], n, b, n');
    }
  }
}
