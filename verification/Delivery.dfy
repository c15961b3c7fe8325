/**
 * What two endpoints achieve together, over every interleaving of calls and deliveries.
 * No false errors; what is delivered is what was handed over, in order; and when nothing
 * is under way any more, everything has arrived, unless one of two exact conditions holds.
 */
module Delivery {
  import opened Capsules
  import opened Engine
  import opened Trace
  import opened Sending
  import opened Conduct
  import opened Receiving
  import opened Dialogue
  import opened Hearing
  import opened Endpoint
  import opened Queues
  import opened Bounds
  import opened Conservation
  import opened Runs
  import opened Network

  function End(n: Net, server: bool): Session { if server then n.server else n.client }

  /** What an action hands over at one end. */
  function HandedOver(n: Net, a: Action, server: bool, id: StreamId): Extra {
    match a
    case ClientCall(call) => if server then NoExtra else Accepted(n.client, call, id)
    case ServerCall(call) => if server then Accepted(n.server, call, id) else NoExtra
    case _ => NoExtra
  }

  /** Everything an end was handed for one stream in the course of a run. */
  function HandedInAll(n: Net, actions: seq<Action>, server: bool, id: StreamId): Extra
    decreases |actions|
  {
    if actions == [] || !Enabled(n, actions[0]) then NoExtra
    else Then(HandedOver(n, actions[0], server, id), HandedInAll(StepNet(n, actions[0]), actions[1..], server, id))
  }

  /** Stopped by the end that opened it, before that end had put anything on it. */
  predicate StoppedUnopened(y: Session, id: StreamId) { LocalTo(y.cfg.isServer, id) && Said(y, id).early }

  /** The credit of such a stream is never raised. */
  predicate StaysAtInitial(y: Session, id: StreamId) {
    StoppedUnopened(y, id) ==> Said(y, id).max == y.cfg.initStreamData
  }

  ghost predicate NetSound(n: Net) {
    && NetInv(n)
    && BandInv(n.client) && BandInv(n.server)
    && (forall id :: WaitsForCredit(QueueOf(n.client, id)) && WaitsForCredit(QueueOf(n.server, id)))
    && (forall id :: StaysAtInitial(n.client, id) && StaysAtInitial(n.server, id))
  }

  // ---------- Steps ----------

  /** A stream that only `x` could have begun after `y` did, and that `y` has not begun. */
  lemma UnopenedIsUntouched(x: Session, y: Session, id: StreamId)
    requires Inv(x) && Inv(y) && Hears(x, y) && Hears(y, x)
    requires LocalTo(y.cfg.isServer, id) && !Said(y, id).begun
    ensures Said(y, id).max == y.cfg.initStreamData
  {
    if Said(y, id).max != y.cfg.initStreamData {
      assert Heard(y, id).begun by { hide SendInv, StreamView, Delivered, Mentions; assert RecvOk(y, id); }
      HeardFromSaid(y, x, id);
      assert Heard(x, id).begun by {
        hide SessionSendOk, SessionRecvOk, Legal, StreamView, Delivered;
        assert RecvOk(x, id) && SendOk(x, id);
      }
      HeardFromSaid(x, y, id);
    }
  }

  lemma SaidGrows(s: Session, s': Session, id: StreamId)
    requires SendInv(s') && s'.cfg == s.cfg && s.emitted <= s'.emitted
    ensures Extends(Said(s, id), Said(s', id))
  {
    hide SendOk, SessionSendOk, Legal, StreamView;
    assert s'.emitted[..|s.emitted|] == s.emitted;
    StreamGrows(SpeakerOf(s'), s'.emitted, |s.emitted|, id);
  }

  lemma UnstoppedStays(s: Session, s': Session, id: StreamId)
    requires SendInv(s) && SendInv(s') && s'.sentStops == s.sentStops
    requires s'.cfg == s.cfg && s.emitted <= s'.emitted
    requires StaysAtInitial(s, id)
    ensures StaysAtInitial(s', id)
  {
    SaidGrows(s, s', id);
    assert Said(s', id).early ==> Said(s', id).stopped by {
      LegalViewShape(SpeakerOf(s'), s'.emitted, id);
    }
    hide Legal, StreamView, SessionTotals, SessionSendOk;
    assert SendOk(s, id) && SendOk(s', id);
  }

  lemma StopStays(x: Session, y: Session, stop: StreamId, code: ErrorCode, id: StreamId)
    requires Inv(x) && Inv(y) && Hears(x, y) && Hears(y, x) && StaysAtInitial(y, id)
    ensures StaysAtInitial(StopSending(y, stop, code), id)
  {
    var y' := StopSending(y, stop, code);
    if LocalTo(y.cfg.isServer, id) && !Said(y, id).begun { UnopenedIsUntouched(x, y, id); }
    if y' != y { StreamViewSnoc(y.cfg.initStreamData, y.emitted, WtStopSending(stop, code), id); }
    hide Inv, StreamView;
  }

  /** One end after a call or a delivery: its queues are served and its credit stays in the band. */
  ghost predicate EndStep(s: Session, s': Session, id: StreamId, e: Extra) {
    && Serves(QueueOf(s, id), QueueOf(s', id), e)
    && (BandInv(s) ==> BandInv(s'))
    && (StaysAtInitial(s, id) ==> StaysAtInitial(s', id))
  }

  lemma SameEnd(s: Session, id: StreamId)
    ensures EndStep(s, s, id, NoExtra)
  {
    hide Serves, StreamView, QueueOf;
    ServesSelf(QueueOf(s, id));
  }

  lemma CallStep(x: Session, y: Session, call: Call, id: StreamId)
    requires Inv(x) && Inv(y) && Hears(x, y) && Hears(y, x) && Proper(y, call)
    ensures EndStep(y, Apply(y, call), id, Accepted(y, call, id))
  {
    ApplyServes(y, call, id);
    ApplyBounds(y, call, false);
    if StaysAtInitial(y, id) {
      if call.Stop? {
        StopStays(x, y, call.id, call.code, id);
      } else {
        ApplyInv(y, call);
        ApplyOnward(y, call);
        hide SendInv, RecvInv, Apply, Serves;
        UnstoppedStays(y, Apply(y, call), id);
      }
    }
    hide SendInv, RecvInv, BandInv, Apply, Serves, QueueOf, StreamView, KeepsRoster;
  }

  lemma DeliverStep(x: Session, y: Session, id: StreamId)
    requires Inv(x) && Inv(y) && Hears(x, y) && Hears(y, x)
    requires !y.terminated && |y.received| < |x.emitted| && NoErrors(y.events)
    ensures EndStep(y, Receive(y, x.emitted[|y.received|]), id, NoExtra)
  {
    var c := x.emitted[|y.received|];
    NextIsExpected(x, y);
    DeliverInv(x, y);
    hide StreamView, Legal, SessionTotals, Receive, NoErrors, Serves, QueueOf, BandInv, KeepsRoster;
    if Creates(c) && ReceivableDataCapsule(c.id, y.cfg.isServer) {
      OpenIsNotFreedThere(x, y, c);
    }
    ReceiveServes(y, c, id);
    ReceiveBounds(y, c, false);
    if StaysAtInitial(y, id) {
      hide SendInv, RecvInv;
      UnstoppedStays(y, Receive(y, c), id);
    }
  }

  lemma OpenIsNotFreedThere(x: Session, y: Session, c: Capsule)
    requires Inv(y) && Expected(y, SpeakerOf(x), c) && Creates(c) && ReceivableDataCapsule(c.id, y.cfg.isServer)
    ensures Recalls(y, c.id)
  {
    hide Inv, Legal, StreamView;
    assert StreamView(SpeakerOf(x).streamData, y.received, c.id).ending == Open;
    OpenIsNotFreed(y, SpeakerOf(x), c.id);
  }

  /** Establishing changes no queue, no window and no stop. */
  lemma EstablishEnd(s: Session, peer: PeerCredit, id: StreamId)
    requires SendInv(s) && SendInv(Establish(s, peer))
    ensures EndStep(s, Establish(s, peer), id, NoExtra)
  {
    var s' := Announce(s);
    AnnounceCalm(s, id);
    SilentCalm(s', Establish(s, peer), id);
    CalmTransitive(QueueOf(s, id), QueueOf(s', id), QueueOf(Establish(s, peer), id));
    CalmServes(QueueOf(s, id), QueueOf(Establish(s, peer), id));
    if StaysAtInitial(s, id) { UnstoppedStays(s, Establish(s, peer), id); }
    hide SendInv, Serves, QueueOf, StreamView, Calm, Band;
  }

  /** What one action does at both ends. */
  lemma NetStep(n: Net, a: Action, id: StreamId)
    requires NetInv(n) && Enabled(n, a)
    ensures EndStep(n.client, StepNet(n, a).client, id, HandedOver(n, a, false, id))
    ensures EndStep(n.server, StepNet(n, a).server, id, HandedOver(n, a, true, id))
  {
    hide Inv, EndStep, NoErrors, Apply, Receive;
    SameEnd(n.client, id);
    SameEnd(n.server, id);
    match a
    case ClientCall(call) => CallStep(n.server, n.client, call, id);
    case ServerCall(call) => CallStep(n.client, n.server, call, id);
    case ClientAccepted =>
      StepNetInv(n, a);
      assert SendInv(n.client) && SendInv(StepNet(n, a).client) by { hide *; InvGives(n.client); InvGives(StepNet(n, a).client); }
      EstablishEnd(n.client, CreditFrom(n.server.cfg, true), id);
    case ToClient => DeliverStep(n.server, n.client, id);
    case ToServer => DeliverStep(n.client, n.server, id);
  }

  lemma InvGives(s: Session)
    requires Inv(s)
    ensures SendInv(s)
  {
  }

  lemma ServedWaits(q: Queue, r: Queue, e: Extra)
    requires Serves(q, r, e) && WaitsForCredit(q)
    ensures WaitsForCredit(r)
  {
  }

  lemma StepNetSound(n: Net, a: Action)
    requires NetSound(n) && Enabled(n, a)
    ensures NetSound(StepNet(n, a))
  {
    StepNetInv(n, a);
    var n' := StepNet(n, a);
    hide NetInv, StepNet, BandInv, QueueOf, StaysAtInitial, WaitsForCredit, Serves;
    NetStep(n, a, StreamId(0, false, false));
    forall id ensures WaitsForCredit(QueueOf(n'.client, id)) && WaitsForCredit(QueueOf(n'.server, id))
                      && StaysAtInitial(n'.client, id) && StaysAtInitial(n'.server, id) {
      NetStep(n, a, id);
      ServedWaits(QueueOf(n.client, id), QueueOf(n'.client, id), HandedOver(n, a, false, id));
      ServedWaits(QueueOf(n.server, id), QueueOf(n'.server, id), HandedOver(n, a, true, id));
    }
  }

  lemma {:induction false} RunSound(n0: Net, actions: seq<Action>, n: Net)
    requires NetSound(n0) && Run(n0, actions, n)
    ensures NetSound(n)
    decreases |actions|
  {
    hide NetSound, StepNet, Enabled;
    if actions != [] {
      StepNetSound(n0, actions[0]);
      RunSound(StepNet(n0, actions[0]), actions[1..], n);
    }
  }

  lemma {:induction false} RunServes(n0: Net, actions: seq<Action>, n: Net, server: bool, id: StreamId)
    requires NetInv(n0) && Run(n0, actions, n)
    ensures Serves(QueueOf(End(n0, server), id), QueueOf(End(n, server), id), HandedInAll(n0, actions, server, id))
    decreases |actions|
  {
    hide NetInv, StepNet, Enabled, HandedOver, Serves, QueueOf, BandInv, StaysAtInitial;
    if actions == [] {
      ServesSelf(QueueOf(End(n, server), id));
    } else {
      var n1 := StepNet(n0, actions[0]);
      StepNetInv(n0, actions[0]);
      NetStep(n0, actions[0], id);
      RunServes(n1, actions[1..], n, server, id);
      ServesThen(QueueOf(End(n0, server), id), QueueOf(End(n1, server), id), QueueOf(End(n, server), id),
                 HandedOver(n0, actions[0], server, id), HandedInAll(n1, actions[1..], server, id));
    }
  }

  lemma InitialNetSound(c: Config, s: Config)
    requires ValidConfig(c) && ValidConfig(s) && !c.isServer && s.isServer
    ensures NetSound(InitialNet(c, s))
    ensures forall server, id :: QueueOf(End(InitialNet(c, s), server), id) == Queue([], Ending.Open, [], true)
  {
    InitialNetInv(c, s);
    hide NetInv;
    NewEnd(c, s, false);
    NewEnd(s, c, true);
    forall id ensures QueueOf(InitialNet(c, s).client, id) == Queue([], Ending.Open, [], true) && QueueOf(InitialNet(c, s).server, id) == Queue([], Ending.Open, [], true)
                   && StaysAtInitial(InitialNet(c, s).client, id) && StaysAtInitial(InitialNet(c, s).server, id) {
      NewEndQueue(c, s, false, id);
      NewEndQueue(s, c, true, id);
    }
    hide QueueOf, StaysAtInitial, BandInv;
  }

  lemma NewEnd(cfg: Config, peer: Config, header: bool)
    requires ValidConfig(cfg)
    ensures BandInv(NewSession(cfg, peer, header))
    ensures BandInv(Establish(NewSession(cfg, peer, header), NewSession(cfg, peer, header).peer))
  {
  }

  lemma NewEndQueue(cfg: Config, peer: Config, header: bool, id: StreamId)
    ensures var s := NewSession(cfg, peer, header);
      && QueueOf(s, id) == Queue([], Ending.Open, [], true) && StaysAtInitial(s, id)
      && QueueOf(Establish(s, s.peer), id) == Queue([], Ending.Open, [], true)
      && StaysAtInitial(Establish(s, s.peer), id)
  {
    var s := NewSession(cfg, peer, header);
    var e := Establish(s, s.peer);
    var a, b, c := WtMaxData(cfg.initData), WtMaxStreams(true, cfg.initBidi), WtMaxStreams(false, cfg.initUni);
    assert e.emitted == [] + [a] + [b] + [c];
    StreamViewSnoc(cfg.initStreamData, [], a, id);
    StreamViewSnoc(cfg.initStreamData, [] + [a], b, id);
    StreamViewSnoc(cfg.initStreamData, [] + [a] + [b], c, id);
  }

  // ---------- No false errors ----------

  predicate IsClose(a: Action) { (a.ClientCall? || a.ServerCall?) && a.call.Close? }

  lemma StepEnds(n: Net, a: Action)
    requires NetInv(n) && Enabled(n, a) && !IsClose(a)
    requires !n.client.terminated && !n.server.terminated
    ensures !StepNet(n, a).client.terminated && !StepNet(n, a).server.terminated
  {
    hide Inv, NoErrors, Apply, Receive;
    match a
    case ClientCall(call) => ApplyOnward(n.client, call);
    case ServerCall(call) => ApplyOnward(n.server, call);
    case ClientAccepted =>
    case ToClient =>
      DeliverInv(n.server, n.client);
      NotClosedYet(n.server, |n.client.received|);
    case ToServer =>
      DeliverInv(n.client, n.server);
      NotClosedYet(n.client, |n.server.received|);
  }

  lemma NotClosedYet(x: Session, k: nat)
    requires Inv(x) && !x.terminated && k < |x.emitted|
    ensures !x.emitted[k].WtCloseSession?
  {
    hide SendOk, RecvInv, StreamView;
    if x.emitted[k].WtCloseSession? {
      assert x.emitted[..|x.emitted|] == x.emitted;
      SessionTotalsSnoc(SpeakerOf(x).limits, x.emitted[..k], x.emitted[k]);
      assert x.emitted[..k + 1] == x.emitted[..k] + [x.emitted[k]];
      SessionGrows(SpeakerOf(x), x.emitted, k + 1);
    }
  }

  lemma {:induction false} RunEnds(n0: Net, actions: seq<Action>, n: Net)
    requires NetInv(n0) && Run(n0, actions, n) && !n0.client.terminated && !n0.server.terminated
    requires forall k :: 0 <= k < |actions| ==> !IsClose(actions[k])
    ensures !n.client.terminated && !n.server.terminated
    decreases |actions|
  {
    hide NetInv, StepNet, Enabled;
    if actions != [] {
      StepEnds(n0, actions[0]);
      StepNetInv(n0, actions[0]);
      RunEnds(StepNet(n0, actions[0]), actions[1..], n);
    }
  }

  /**
   * Whatever one copy of this code queues, the other dispatches without an error, and a session ends
   * only by a call. Capsules are taken as they are here; what a payload limit adds is in `PayloadLimits`.
   */
  lemma NoFalseErrors(c: Config, s: Config, actions: seq<Action>, n: Net)
    requires ValidConfig(c) && ValidConfig(s) && !c.isServer && s.isServer
    requires Run(InitialNet(c, s), actions, n)
    ensures NoErrors(n.client.events) && NoErrors(n.server.events)
    ensures n.client.terminated || n.server.terminated ==> exists k :: 0 <= k < |actions| && IsClose(actions[k])
  {
    InitialNetInv(c, s);
    RunKeepsInv(InitialNet(c, s), actions, n);
    hide Inv, NoErrors, Run;
    if forall k :: 0 <= k < |actions| ==> !IsClose(actions[k]) {
      RunEnds(InitialNet(c, s), actions, n);
    }
  }

  // ---------- In order, without loss or duplication ----------

  /** What one end delivers is a prefix of what the other was handed, and all of it once the FIN is through. */
  lemma DeliversInOrder(c: Config, s: Config, actions: seq<Action>, n: Net, from: bool, id: StreamId)
    requires ValidConfig(c) && ValidConfig(s) && !c.isServer && s.isServer
    requires Run(InitialNet(c, s), actions, n)
    ensures var e := HandedInAll(InitialNet(c, s), actions, from, id); var y := End(n, !from);
      && Delivered(y.events, id) <= e.data
      && (Heard(y, id).ending == Finished ==> Delivered(y.events, id) == e.data && e.fin)
  {
    hide NetInv, BandInv, Serves, QueueOf, StaysAtInitial, Run, HandedInAll, InitialNet, WaitsForCredit, StreamView;
    var n0 := InitialNet(c, s);
    InitialNetSound(c, s);
    RunSound(n0, actions, n);
    RunServes(n0, actions, n, from, id);
    assert QueueOf(End(n0, from), id) == Queue([], Ending.Open, [], true);
    SoundEnds(n, from, id);
    InOrder(End(n, from), End(n, !from), id, HandedInAll(n0, actions, from, id));
  }

  lemma InOrder(x: Session, y: Session, id: StreamId, e: Extra)
    requires Inv(x) && Inv(y) && Hears(y, x)
    requires Serves(Queue([], Ending.Open, [], true), QueueOf(x, id), e)
    ensures Delivered(y.events, id) <= e.data
    ensures Heard(y, id).ending == Finished ==> Delivered(y.events, id) == e.data && e.fin
  {
    HeardFromSaid(y, x, id);
    assert Delivered(y.events, id) == Heard(y, id).data by { hide SendInv, StreamView, Delivered, Mentions; assert RecvOk(y, id); }
    if Said(x, id).ending != Ending.Open { EndedHasNoQueue(x, id); }
    hide Inv, StreamView, Delivered, HasFin;
  }

  lemma SoundEnds(n: Net, from: bool, id: StreamId)
    requires NetSound(n)
    ensures var x := End(n, from); var y := End(n, !from);
            Inv(x) && Inv(y) && Hears(x, y) && Hears(y, x) && BandInv(y) && StaysAtInitial(y, id)
            && WaitsForCredit(QueueOf(x, id))
  {
    hide Inv, Hears, BandInv, StaysAtInitial, QueueOf, NoErrors;
  }

  // ---------- Everything arrives ----------

  /** The session is up at both ends and nothing is under way. */
  predicate Quiescent(n: Net) {
    && n.accepted && !n.client.terminated && !n.server.terminated
    && n.client.received == n.server.emitted && n.server.received == n.client.emitted
  }

  /** `y` still extends credit that `x` has not used. */
  lemma CreditRemains(x: Session, y: Session, id: StreamId)
    requires Inv(x) && Inv(y) && Hears(x, y) && Hears(y, x)
    requires x.received == y.emitted && y.received == x.emitted
    requires BandInv(y) && y.cfg.initData > 0 && y.bytesReceived < MAX_VARINT
    ensures x.bytesSent < x.maxDataLocal
  {
    HeardIsSpoken(y, SpeakerOf(x), id);
    HeardIsSpoken(x, SpeakerOf(y), id);
    BandBounds(y.bytesReceived, y.maxDataRemote, y.cfg.initData);
    hide SendOk, RecvOk, StreamView, SessionTotals, Legal, Band;
  }

  lemma {:induction false} StreamWithinSession(l: Limits, init: nat, log: seq<Capsule>, id: StreamId)
    ensures |StreamView(init, log, id).data| <= SessionTotals(l, log).data
    decreases |log|
  {
    if log != [] { StreamWithinSession(l, init, log[..|log| - 1], id); }
  }

  /** The two ends agree about a stream once nothing is under way. */
  lemma Agreement(x: Session, y: Session, id: StreamId)
    requires Hears(x, y) && Hears(y, x)
    requires x.received == y.emitted && y.received == x.emitted
    ensures Heard(y, id) == Said(x, id) && Heard(x, id) == Said(y, id)
    ensures HeardTotals(y) == SaidTotals(x) && HeardTotals(x) == SaidTotals(y)
  {
    HeardIsSpoken(y, SpeakerOf(x), id);
    HeardIsSpoken(x, SpeakerOf(y), id);
  }

  lemma WaitingSender(x: Session, id: StreamId)
    requires Inv(x) && id in x.streams && x.streams[id].pending != []
    ensures Said(x, id).ending == Ending.Open
    ensures x.streams[id].bytesSent == |Said(x, id).data| && x.streams[id].maxLocal == Heard(x, id).max
    ensures !id.uni || LocalTo(x.cfg.isServer, id)
    ensures Heard(x, id).stopped ==> Heard(x, id).early && !LocalTo(x.cfg.isServer, id)
  {
    hide SessionSendOk, SessionRecvOk, StreamView, Legal, Delivered, Mentions;
    assert SendOk(x, id) && RecvOk(x, id);
  }

  /** What an end grants a stream whose data has not ended. */
  lemma WaitingReceiver(y: Session, id: StreamId)
    requires Inv(y) && BandInv(y) && Heard(y, id).ending == Ending.Open
    requires !id.uni || !LocalTo(y.cfg.isServer, id)
    requires y.cfg.initStreamData > 0 && |Heard(y, id).data| < MAX_VARINT
    ensures !Said(y, id).stopped ==> |Heard(y, id).data| < Said(y, id).max
  {
    assert SendOk(y, id) && RecvOk(y, id);
    if id in y.streams && id !in y.sentStops {
      BandBounds(y.streams[id].bytesReceived, y.streams[id].maxRemote, y.cfg.initStreamData);
    }
    hide SendInv, RecvInv, StreamView, Delivered, Mentions, Band;
  }

  lemma StreamCreditRemains(x: Session, y: Session, id: StreamId)
    requires Inv(x) && Inv(y) && Hears(x, y) && Hears(y, x)
    requires x.received == y.emitted && y.received == x.emitted
    requires BandInv(y) && y.cfg.initStreamData > 0 && y.bytesReceived < MAX_VARINT
    requires id in x.streams && x.streams[id].pending != [] && !StoppedUnopened(y, id)
    ensures x.streams[id].bytesSent < x.streams[id].maxLocal
  {
    Agreement(x, y, id);
    WaitingSender(x, id);
    HeardAtMostAll(y, id);
    hide Inv, BandInv, StreamView;
    WaitingReceiver(y, id);
  }

  lemma HeardAtMostAll(s: Session, id: StreamId)
    requires Inv(s)
    ensures |Heard(s, id).data| <= s.bytesReceived
  {
    StreamWithinSession(Limits(s.peer.data, s.peer.bidi, s.peer.uniStreams), InitialSendCredit(s, id), s.received, id);
    hide SendInv, RecvOk, StreamView;
  }

  lemma AllBytes(p: seq<PendingSend>)
    ensures p != [] && !HasEmpty(p) ==> Bytes(p) != []
  {
    if p != [] { assert Bytes(p) == p[0].data + Bytes(p[1..]); }
  }

  /**
   * Nothing under way and still bytes in a queue: then an empty entry is in the queue, or the
   * stream was stopped before it was opened and what was handed over exceeds its first window.
   */
  lemma StuckOnlyIf(x: Session, y: Session, id: StreamId)
    requires Inv(x) && Inv(y) && Hears(x, y) && Hears(y, x)
    requires x.received == y.emitted && y.received == x.emitted
    requires BandInv(y) && StaysAtInitial(y, id) && WaitsForCredit(QueueOf(x, id))
    requires y.cfg.initData > 0 && y.cfg.initStreamData > 0 && y.bytesReceived < MAX_VARINT
    requires Unsent(x, id) != []
    ensures HasEmpty(Unsent(x, id))
         || (StoppedUnopened(y, id) && |Committed(QueueOf(x, id))| > y.cfg.initStreamData)
  {
    if !HasEmpty(Unsent(x, id)) {
      CreditRemains(x, y, id);
      if !StoppedUnopened(y, id) { StreamCreditRemains(x, y, id); }
      WaitingSender(x, id);
      Agreement(x, y, id);
      AllBytes(Unsent(x, id));
      hide Inv, StreamView, Band, Bytes;
      assert Unsent(x, id)[0].data != [];
    }
  }

  lemma SentWithinCredit(x: Session, id: StreamId)
    requires Inv(x)
    ensures |Said(x, id).data| <= Heard(x, id).max
  {
    hide SendInv, SessionRecvOk, StreamView, Delivered, Mentions;
    assert RecvOk(x, id);
  }

  /** Whether everything handed over on a stream gets through once the network is quiet. */
  predicate Flows(e: Extra, y: Session, id: StreamId) {
    !e.zero && (StoppedUnopened(y, id) ==> |e.data| <= y.cfg.initStreamData)
  }

  lemma QuietEnd(x: Session, y: Session, id: StreamId, e: Extra)
    requires Inv(x) && Inv(y) && Hears(x, y) && Hears(y, x)
    requires x.received == y.emitted && y.received == x.emitted
    requires BandInv(y) && StaysAtInitial(y, id) && WaitsForCredit(QueueOf(x, id))
    requires y.cfg.initData > 0 && y.cfg.initStreamData > 0 && y.bytesReceived < MAX_VARINT
    requires Serves(Queue([], Ending.Open, [], true), QueueOf(x, id), e)
    requires Said(x, id).ending != WasReset
    ensures Unsent(x, id) == [] <==> Flows(e, y, id)
    ensures Unsent(x, id) == [] ==>
              Delivered(y.events, id) == e.data && (e.fin <==> Heard(y, id).ending == Finished)
  {
    Agreement(x, y, id);
    SentWithinCredit(x, id);
    if Unsent(x, id) != [] { StuckOnlyIf(x, y, id); }
    assert Delivered(y.events, id) == Heard(y, id).data by { hide SendInv, StreamView, Delivered, Mentions; assert RecvOk(y, id); }
    hide Inv, StreamView, BandInv, Delivered;
  }

  /**
   * No flow-control deadlock. With positive windows, and as long as fewer than 2^62 - 1 bytes
   * were received, once nothing is under way every stream that was not reset has delivered all
   * bytes handed over, and its FIN, if and only if no empty send was queued behind waiting data
   * and, should its opener have stopped it before using it, all fits the first window.
   */
  lemma EverythingArrives(c: Config, s: Config, actions: seq<Action>, n: Net, from: bool, id: StreamId)
    requires ValidConfig(c) && ValidConfig(s) && !c.isServer && s.isServer
    requires Run(InitialNet(c, s), actions, n) && Quiescent(n)
    requires End(n, !from).cfg.initData > 0 && End(n, !from).cfg.initStreamData > 0
    requires End(n, !from).bytesReceived < MAX_VARINT
    requires Said(End(n, from), id).ending != WasReset
    ensures var x := End(n, from); var y := End(n, !from); var e := HandedInAll(InitialNet(c, s), actions, from, id);
      && (Unsent(x, id) == [] <==> Flows(e, y, id))
      && (Flows(e, y, id) ==> Delivered(y.events, id) == e.data && (e.fin <==> Heard(y, id).ending == Finished))
  {
    hide NetInv, BandInv, Serves, QueueOf, StaysAtInitial, Run, HandedInAll, InitialNet, WaitsForCredit, Flows;
    var n0 := InitialNet(c, s);
    InitialNetSound(c, s);
    RunSound(n0, actions, n);
    RunServes(n0, actions, n, from, id);
    assert QueueOf(End(n0, from), id) == Queue([], Ending.Open, [], true);
    SoundEnds(n, from, id);
    QuietEnd(End(n, from), End(n, !from), id, HandedInAll(n0, actions, from, id));
  }

  // ---------- A stop is for good ----------

  lemma {:induction false} RunLogs(n0: Net, actions: seq<Action>, n: Net, server: bool)
    requires NetInv(n0) && Run(n0, actions, n)
    ensures End(n0, server).emitted <= End(n, server).emitted && End(n, server).cfg == End(n0, server).cfg
    decreases |actions|
  {
    hide NetInv, StepNet, Enabled;
    if actions != [] {
      StepLogs(n0, actions[0], server);
      StepNetInv(n0, actions[0]);
      RunLogs(StepNet(n0, actions[0]), actions[1..], n, server);
    }
  }

  /** From a stop on, in every later run, the credit of the stream is what it was, and no more bytes than that are ever sent. */
  lemma StopIsForGood(n0: Net, actions: seq<Action>, n: Net, server: bool, id: StreamId)
    requires NetInv(n0) && Run(n0, actions, n) && Said(End(n0, server), id).stopped
    ensures Said(End(n, server), id).max == Said(End(n0, server), id).max
    ensures |Said(End(n, !server), id).data| <= Said(End(n0, server), id).max
  {
    RunKeepsInv(n0, actions, n);
    RunLogs(n0, actions, n, server);
    var x, y := End(n, !server), End(n, server);
    assert Inv(x) && Inv(y) && Hears(x, y) by { hide Inv, Hears, NoErrors; }
    hide NetInv, Run, StreamView, RecvInv;
    assert SendInv(y);
    SaidGrows(End(n0, server), y, id);
    HeardFromSaid(x, y, id);
    SentWithinCredit(x, id);
  }

  // ---------- No capsule outgrows the receiver's windows ----------

  /** All credit of a stream, and of the session, that is not yet used. */
  lemma WindowLeft(y: Session, id: StreamId)
    requires Inv(y) && BandInv(y) && Heard(y, id).ending == Ending.Open
    requires !id.uni || !LocalTo(y.cfg.isServer, id)
    ensures Said(y, id).max <= |Heard(y, id).data| + y.cfg.initStreamData
    ensures SaidTotals(y).max.data <= HeardTotals(y).data + y.cfg.initData
  {
    assert SendOk(y, id) && RecvOk(y, id);
    hide Legal, StreamView, SessionTotals, Delivered, Mentions, Band;
  }

  /** No capsule can carry more data than this to an end so configured. */
  function Window(cfg: Config): nat { Min(cfg.initData, cfg.initStreamData) }

  /** What `x` may still have said behind `part`, `y` having dispatched no more than that. */
  lemma SaidWithin(x: Session, y: Session, id: StreamId, part: seq<Capsule>, whole: seq<Capsule>)
    requires Inv(x) && Inv(y) && Hears(x, y) && Hears(y, x) && BandInv(y)
    requires y.received <= part <= whole <= x.emitted
    requires ReceivableDataCapsule(id, !x.cfg.isServer)
    requires StreamView(x.cfg.initStreamData, part, id).ending == Ending.Open
    ensures |StreamView(x.cfg.initStreamData, whole, id).data|
         <= |StreamView(x.cfg.initStreamData, part, id).data| + y.cfg.initStreamData
    ensures SessionTotals(SpeakerOf(x).limits, whole).data
         <= SessionTotals(SpeakerOf(x).limits, part).data + y.cfg.initData
  {
    var p := SpeakerOf(x);
    PrefixGrows(p, x.emitted, whole, id);
    PrefixGrows(p, x.emitted, part, id);
    PrefixGrows(p, part, y.received, id);
    HeardIsSpoken(y, p, id);
    HeardFromSaid(x, y, id);
    SentWithinCredit(x, id);
    assert SaidTotals(x).data <= HeardTotals(x).max.data by { hide SendOk, RecvOk, Legal, StreamView, SessionTotals; }
    hide Inv, BandInv, Legal, StreamView, SessionTotals;
    WindowLeft(y, id);
  }

  /** A WT_STREAM that is under way carries at most the receiver's initial windows. */
  lemma QueuedFits(x: Session, y: Session, k: nat)
    requires Inv(x) && Inv(y) && Hears(x, y) && Hears(y, x) && BandInv(y)
    requires |y.received| <= k < |x.emitted| && x.emitted[k].WtStream?
    ensures |x.emitted[k].data| <= Window(y.cfg)
  {
    var c := x.emitted[k];
    var part := x.emitted[..k];
    LegalPrefix(SpeakerOf(x), x.emitted, k);
    assert y.received <= part && part + [c] == x.emitted[..k + 1];
    StreamViewSnoc(x.cfg.initStreamData, part, c, c.id);
    SessionTotalsSnoc(SpeakerOf(x).limits, part, c);
    hide Inv, BandInv, Legal, StreamView, SessionTotals;
    SaidWithin(x, y, c.id, part, part + [c]);
  }

  predicate AllFit(log: seq<Capsule>, window: nat) {
    forall k :: 0 <= k < |log| && log[k].WtStream? ==> |log[k].data| <= window
  }

  /** One step on: what was dispatched by now was under way before. */
  lemma StaysFit(x: Session, y: Session, x': Session, y': Session)
    requires Inv(x') && Inv(y') && Hears(x', y') && Hears(y', x') && BandInv(y')
    requires AllFit(x.emitted, Window(y.cfg)) && x.emitted <= x'.emitted && y'.received <= x.emitted && y'.cfg == y.cfg
    ensures AllFit(x'.emitted, Window(y'.cfg))
  {
    hide Inv, Hears, BandInv;
    forall k | 0 <= k < |x'.emitted| && x'.emitted[k].WtStream? ensures |x'.emitted[k].data| <= Window(y'.cfg) {
      if k < |y'.received| { assert x'.emitted[k] == x.emitted[k]; } else { QueuedFits(x', y', k); }
    }
  }

  lemma StepLogs(n: Net, a: Action, server: bool)
    requires NetInv(n) && Enabled(n, a)
    ensures End(n, server).emitted <= End(StepNet(n, a), server).emitted
    ensures End(StepNet(n, a), server).cfg == End(n, server).cfg
    ensures End(StepNet(n, a), server).received <= End(n, !server).emitted
  {
    hide Inv, NoErrors, Apply, Receive;
    match a
    case ClientCall(call) => ApplyOnward(n.client, call);
    case ServerCall(call) => ApplyOnward(n.server, call);
    case ClientAccepted =>
    case ToClient => ReceiveOnward(n.client, n.server.emitted[|n.client.received|]);
    case ToServer => ReceiveOnward(n.server, n.client.emitted[|n.server.received|]);
  }

  lemma {:induction false} RunFits(n0: Net, actions: seq<Action>, n: Net, from: bool)
    requires NetSound(n0) && Run(n0, actions, n)
    requires AllFit(End(n0, from).emitted, Window(End(n0, !from).cfg))
    ensures AllFit(End(n, from).emitted, Window(End(n, !from).cfg))
    decreases |actions|
  {
    hide NetInv, Inv, Hears, BandInv, StepNet, Enabled, StaysAtInitial, WaitsForCredit, AllFit, QueueOf;
    if actions != [] {
      var n1 := StepNet(n0, actions[0]);
      StepNetSound(n0, actions[0]);
      StepLogs(n0, actions[0], from);
      StepLogs(n0, actions[0], !from);
      SoundEnds(n1, from, StreamId(0, false, false));
      SoundEnds(n1, !from, StreamId(0, false, false));
      StaysFit(End(n0, from), End(n0, !from), End(n1, from), End(n1, !from));
      RunFits(n1, actions[1..], n, from);
    }
  }

  /** No WT_STREAM that is ever queued carries more than the receiver's initial windows. */
  lemma PayloadFits(c: Config, s: Config, actions: seq<Action>, n: Net, from: bool)
    requires ValidConfig(c) && ValidConfig(s) && !c.isServer && s.isServer
    requires Run(InitialNet(c, s), actions, n)
    ensures AllFit(End(n, from).emitted, Window(End(n, !from).cfg))
  {
    hide NetInv, BandInv, StaysAtInitial, Run, QueueOf;
    InitialNetSound(c, s);
    RunFits(InitialNet(c, s), actions, n, from);
  }
}
