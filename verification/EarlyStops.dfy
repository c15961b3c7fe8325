/**
 * A run of two ends that comes to rest with a byte undelivered, because the stream was
 * stopped by its opener before it was used.
 */
module EarlyStops {
  import opened Capsules
  import opened Engine
  import opened Trace
  import opened Sending
  import opened Receiving
  import opened Endpoint
  import opened Queues
  import opened Network
  import opened Delivery
  import opened Reader
  import opened ByteNetwork
  import opened Witnesses

  /** The client lets a stream carry one byte to begin with; the session has room for more. */
  const Stopper := Config(false, 100, 1, 1, 1)
  const Sender := Config(true, 100, 100, 1, 1)

  function Limits3(cfg: Config): seq<Capsule> {
    [WtMaxData(cfg.initData), WtMaxStreams(true, cfg.initBidi), WtMaxStreams(false, cfg.initUni)]
  }

  /** Limits that only repeat what is known change nothing. */
  lemma OldLimits(y: Session, peer: Config)
    requires !y.terminated && peer.initData > 0 && peer.initBidi > 0 && peer.initUni > 0
    requires peer.initBidi <= MAX_STREAMS && peer.initUni <= MAX_STREAMS
    requires y.maxDataLocal == peer.initData && y.receivedMaxData == Some(peer.initData)
    requires y.bidi.maxLocal == peer.initBidi && y.bidi.received == Some(peer.initBidi) && !y.bidi.blockedSent
    requires y.uni.maxLocal == peer.initUni && y.uni.received == Some(peer.initUni) && !y.uni.blockedSent
    ensures ReceiveAll(y, Limits3(peer)) == y.(received := y.received + Limits3(peer))
  {
    hide Receive;
    var l := Limits3(peer);
    OldMaxData(y, peer.initData);
    var y1 := y.(received := y.received + [l[0]]);
    OldMaxStreams(y1, true, peer.initBidi);
    var y2 := y1.(received := y1.received + [l[1]]);
    OldMaxStreams(y2, false, peer.initUni);
    ReceiveThree(y, l[0], l[1], l[2]);
    assert l == [l[0], l[1], l[2]];
    assert y.received + [l[0]] + [l[1]] + [l[2]] == y.received + l;
  }

  lemma OldMaxData(y: Session, max: nat)
    requires !y.terminated && y.maxDataLocal == max && y.receivedMaxData == Some(max)
    ensures Receive(y, WtMaxData(max)) == y.(received := y.received + [WtMaxData(max)])
  {
  }

  lemma OldMaxStreams(y: Session, bidi: bool, max: nat)
    requires !y.terminated && max <= MAX_STREAMS
    requires var n := Count(y, bidi); n.maxLocal == max && n.received == Some(max) && !n.blockedSent
    ensures Receive(y, WtMaxStreams(bidi, max)) == y.(received := y.received + [WtMaxStreams(bidi, max)])
  {
  }

  lemma ReceiveTwo(y: Session, a: Capsule, b: Capsule)
    ensures ReceiveAll(y, [a, b]) == Receive(Receive(y, a), b)
  {
    hide Receive;
    var z := Receive(Receive(y, a), b);
    assert ReceiveAll(z, []) == z;
    assert [a, b][1..] == [b] && [b][1..] == [];
    assert ReceiveAll(Receive(y, a), [b]) == ReceiveAll(z, []);
  }

  lemma ReceiveThree(y: Session, a: Capsule, b: Capsule, c: Capsule)
    ensures ReceiveAll(y, [a, b, c]) == Receive(Receive(Receive(y, a), b), c)
  {
    hide Receive;
    assert [a, b, c][1..] == [b, c];
    ReceiveTwo(Receive(y, a), b, c);
  }

  /** What the client has done before anything is delivered. */
  function ClientStops(): Session {
    var y := Establish(NewSession(Stopper, Sender, false), CreditFrom(Sender, true));
    SendStreamData(StopSending(OpenStream(y, false).0, OwnBidi, 0), OwnBidi, [7], false)
  }

  const StopAndSend: seq<Capsule> := [WtStopSending(OwnBidi, 0), WtStream(OwnBidi, [7], false)]

  lemma ClientStopsFacts()
    ensures var x := ClientStops();
      && x.emitted == Limits3(Stopper) + StopAndSend
      && x.streams == map[OwnBidi := Stream(true, false, Ready, 1, 100, Recv, 0, 1, [], false, false)]
      && x.sentStops == {OwnBidi} && !x.terminated && x.received == []
      && x == NewSession(Stopper, Sender, false).(established := true, peer := CreditFrom(Sender, true), emitted := x.emitted,
                bytesSent := 1, bidi := x.bidi, streams := x.streams, sentStops := x.sentStops)
      && x.bidi.maxLocal == 1 && x.bidi.received == Some(1) && !x.bidi.blockedSent
  {
    var y := Establish(NewSession(Stopper, Sender, false), CreditFrom(Sender, true));
    var o := OpenStream(y, false).0;
    assert o.streams == map[OwnBidi := Stream(true, false, Ready, 0, 100, Recv, 0, 1, [], false, false)];
    assert y.emitted == Limits3(Stopper);
    var p := StopSending(o, OwnBidi, 0);
    assert p.emitted == y.emitted + [WtStopSending(OwnBidi, 0)];
    var x := SendStreamData(p, OwnBidi, [7], false);
    assert x.emitted == y.emitted + [WtStopSending(OwnBidi, 0)] + [WtStream(OwnBidi, [7], false)];
  }

  /** The server as it is once it has accepted. */
  function ServerUp(): Session {
    var y := NewSession(Sender, Stopper, true);
    Establish(y, y.peer)
  }

  /** What the server has heard when it starts to send. */
  function ServerHeard(): Session { ReceiveAll(ReceiveAll(ServerUp(), Limits3(Stopper)), StopAndSend) }

  lemma ServerHeardFacts()
    ensures var y := ServerHeard();
      && !y.terminated && y.emitted == Limits3(Sender) && y.received == Limits3(Stopper) + StopAndSend
      && y.streams == map[OwnBidi := Stream(false, false, Ready, 0, 1, Recv, 1, 100, [], false, false)]
      && y.maxDataLocal == 100 && y.bytesSent == 0 && !y.dataBlockedSent
  {
    var y0 := ServerUp();
    OldLimits(y0, Stopper);
    var y1 := y0.(received := y0.received + Limits3(Stopper));
    var y2 := Receive(y1, StopAndSend[0]);
    assert y2.streams == map[] && y2.released == {} && y2.emitted == y0.emitted;
    assert y2.received == Limits3(Stopper) + [StopAndSend[0]];
    var y3 := Receive(y2, StopAndSend[1]);
    ServerTakesSeven(y2);
    hide Receive, Limits3;
    ReceiveTwo(y1, StopAndSend[0], StopAndSend[1]);
  }

  lemma ServerTakesSeven(y: Session)
    requires !y.terminated && y.streams == map[] && y.released == {} && y.receivedMaxStreamData == map[] && y.cfg == Sender
    requires y.bytesReceived == 0 && y.maxDataRemote == 100 && y.bidi.maxRemote == 1 && y.peer == CreditFrom(Stopper, true)
    ensures var y' := Receive(y, WtStream(OwnBidi, [7], false));
      && y' == y.(received := y.received + [WtStream(OwnBidi, [7], false)], events := y'.events, bytesReceived := 1, streams := y'.streams)
      && y'.streams == map[OwnBidi := Stream(false, false, Ready, 0, 1, Recv, 1, 100, [], false, false)]
  {
  }

  // ---------- The run ----------

  /** `k` times the same action. */
  function Times(a: Action, k: nat): seq<Action> { if k == 0 then [] else [a] + Times(a, k - 1) }

  /** Delivering `caps`, if the end is still up after them. */
  lemma {:induction false} DeliverRun(n: Net, to: bool, caps: seq<Capsule>)
    requires to || n.accepted
    requires End(n, to).received + caps <= End(n, !to).emitted && !ReceiveAll(End(n, to), caps).terminated
    ensures Run(n, Times(ToEnd(to), |caps|), WithEnd(n, to, ReceiveAll(End(n, to), caps)))
    decreases |caps|
  {
    hide Receive, StepNet, Enabled, WithEnd, Times;
    var y := End(n, to);
    SameEnds(n, to, y, y);
    TimesFirst(ToEnd(to), |caps|);
    if caps != [] {
      var y1 := Receive(y, caps[0]);
      StillUp(y, caps);
      FirstOf(y.received, caps, End(n, !to).emitted);
      ReceiveOnward(y, caps[0]);
      SameEnds(n, to, y1, ReceiveAll(y1, caps[1..]));
      OneDelivery(n, to);
      DeliverRun(WithEnd(n, to, y1), to, caps[1..]);
    }
  }

  lemma TimesFirst(a: Action, k: nat)
    ensures k == 0 ==> Times(a, k) == []
    ensures k > 0 ==> Times(a, k) != [] && Times(a, k)[0] == a && Times(a, k)[1..] == Times(a, k - 1)
  {
  }

  lemma FirstOf(done: seq<Capsule>, caps: seq<Capsule>, whole: seq<Capsule>)
    requires caps != [] && done + caps <= whole
    ensures |done| < |whole| && whole[|done|] == caps[0] && done + [caps[0]] + caps[1..] <= whole
  {
    assert (done + caps)[|done|] == caps[0];
    assert done + [caps[0]] + caps[1..] == done + caps;
  }

  lemma StillUp(y: Session, caps: seq<Capsule>)
    requires !ReceiveAll(y, caps).terminated
    ensures !y.terminated
  {
    if y.terminated { ReceiveAllOver(y, caps); }
  }

  lemma OneDelivery(n: Net, to: bool)
    requires (to || n.accepted) && !End(n, to).terminated && |End(n, to).received| < |End(n, !to).emitted|
    ensures Enabled(n, ToEnd(to)) && StepNet(n, ToEnd(to)) == WithEnd(n, to, Taken(n, to))
  {
    hide Receive;
  }

  lemma RunFour(n: Net, a: Action, b: Action, c: Action, d: Action)
    requires Enabled(n, a) && Enabled(StepNet(n, a), b) && Enabled(StepNet(StepNet(n, a), b), c)
    requires Enabled(StepNet(StepNet(StepNet(n, a), b), c), d)
    ensures Run(n, [a, b, c, d], StepNet(StepNet(StepNet(StepNet(n, a), b), c), d))
  {
    hide Enabled, StepNet;
    var n1 := StepNet(n, a);
    var n2 := StepNet(n1, b);
    var n3 := StepNet(n2, c);
    var n4 := StepNet(n3, d);
    assert [a, b, c, d][1..] == [b, c, d] && [b, c, d][1..] == [c, d] && [c, d][1..] == [d] && [d][1..] == [];
    assert Run(n4, [], n4);
    assert Run(n3, [d], n4);
    assert Run(n2, [c, d], n4);
    assert Run(n1, [b, c, d], n4);
  }

  lemma RunSingle(n: Net, a: Action)
    requires Enabled(n, a)
    ensures Run(n, [a], StepNet(n, a))
  {
    hide Enabled, StepNet;
    assert [a][1..] == [];
    assert Run(StepNet(n, a), [], StepNet(n, a));
  }

  function ServerSends(): Session { SendStreamData(ServerHeard(), OwnBidi, [1, 2], false) }

  const OneAndBlocked: seq<Capsule> := [WtStream(OwnBidi, [1], false), WtStreamDataBlocked(OwnBidi, 1)]

  lemma ServerSendsFacts()
    ensures var y := ServerSends();
      && y.emitted == Limits3(Sender) + OneAndBlocked && y.received == Limits3(Stopper) + StopAndSend
      && !y.terminated && Unsent(y, OwnBidi) == [PendingSend([2], false)]
      && AcceptsSend(ServerHeard(), OwnBidi)
  {
    ServerHeardFacts();
    hide ServerHeard, Limits3;
    var y := ServerHeard();
    assert [1, 2][..1] == [1] && [1, 2][1..] == [2];
    var c := SendChunk(y, OwnBidi, [1], false);
    assert c.emitted == Limits3(Sender) + [WtStream(OwnBidi, [1], false)];
    assert SendStreamData(y, OwnBidi, [1, 2], false).emitted == c.emitted + [WtStreamDataBlocked(OwnBidi, 1)];
  }

  function ClientRests(): Session { ReceiveAll(ReceiveAll(ClientStops(), Limits3(Sender)), OneAndBlocked) }

  lemma ClientRestsFacts()
    ensures var x := ClientRests();
      && !x.terminated && x.emitted == ClientStops().emitted && x.received == Limits3(Sender) + OneAndBlocked
      && x.sentStops == {OwnBidi}
  {
    ClientStopsFacts();
    hide ClientStops, Limits3;
    var x0 := ClientStops();
    OldLimits(x0, Sender);
    var x1 := x0.(received := x0.received + Limits3(Sender));
    ClientTakesOne(x1);
    var x2 := Receive(x1, OneAndBlocked[0]);
    hide Receive;
    ReceiveTwo(x1, OneAndBlocked[0], OneAndBlocked[1]);
    assert x1.received + [OneAndBlocked[0]] + [OneAndBlocked[1]] == Limits3(Sender) + OneAndBlocked;
  }

  lemma ClientTakesOne(x: Session)
    requires !x.terminated && x.sentStops == {OwnBidi} && x.released == {} && x.cfg == Stopper
    requires x.streams == map[OwnBidi := Stream(true, false, Ready, 1, 100, Recv, 0, 1, [], false, false)]
    requires x.bytesReceived == 0 && x.maxDataRemote == 100
    ensures var x' := Receive(Receive(x, WtStream(OwnBidi, [1], false)), WtStreamDataBlocked(OwnBidi, 1));
      && !x'.terminated && x'.emitted == x.emitted && x'.sentStops == x.sentStops
      && x'.received == x.received + [WtStream(OwnBidi, [1], false)] + [WtStreamDataBlocked(OwnBidi, 1)]
  {
    var x1 := Receive(x, WtStream(OwnBidi, [1], false));
    assert x1 == x.(received := x.received + [WtStream(OwnBidi, [1], false)], events := x1.events, bytesReceived := 1, streams := x1.streams);
    assert x1.streams == map[OwnBidi := Stream(true, false, Ready, 1, 100, Recv, 1, 1, [], false, false)];
    hide HandleWtStream;
  }

  lemma {:induction false} ReceiveAllJoin(y: Session, a: seq<Capsule>, b: seq<Capsule>)
    ensures ReceiveAll(y, a + b) == ReceiveAll(ReceiveAll(y, a), b)
    decreases |a|
  {
    hide Receive;
    if a == [] {
      assert a + b == b;
    } else {
      assert (a + b)[1..] == a[1..] + b;
      ReceiveAllJoin(Receive(y, a[0]), a[1..], b);
    }
  }

  function ClientCalls(): seq<Action> {
    [ClientAccepted, ClientCall(OpenCall(false)), ClientCall(Stop(OwnBidi, 0)), ClientCall(Send(OwnBidi, [7], false))]
  }

  lemma ClientPart()
    ensures Run(InitialNet(Stopper, Sender), ClientCalls(), Net(ClientStops(), ServerUp(), true))
  {
    var n0 := InitialNet(Stopper, Sender);
    var a, b, c, d := ClientAccepted, ClientCall(OpenCall(false)), ClientCall(Stop(OwnBidi, 0)), ClientCall(Send(OwnBidi, [7], false));
    hide NewSession, Establish, OpenStream, SendStreamData, StopSending, CreditFrom;
    assert n0.server.cfg == Sender by { ServerUpFacts(); }
    assert n0 == Net(NewSession(Stopper, Sender, false), ServerUp(), false);
    var n1 := StepNet(n0, a);
    var n2 := StepNet(n1, b);
    assert n2.client.cfg == Stopper by { OpenedFacts(); }
    RunFour(n0, a, b, c, d);
  }

  lemma ServerUpFacts()
    ensures ServerUp().cfg == Sender && ServerUp().received == [] && !ServerUp().terminated
  {
  }

  lemma OpenedFacts()
    ensures OpenStream(Establish(NewSession(Stopper, Sender, false), CreditFrom(Sender, true)), false).0.cfg == Stopper
  {
  }

  function EarlyStopRun(): seq<Action> {
    ClientCalls() + Times(ToServer, 5) + [ServerCall(Send(OwnBidi, [1, 2], false))] + Times(ToClient, 5)
  }

  lemma ServerPart()
    ensures Run(Net(ClientStops(), ServerUp(), true), Times(ToServer, 5), Net(ClientStops(), ServerHeard(), true))
    ensures Run(Net(ClientStops(), ServerHeard(), true), [ServerCall(Send(OwnBidi, [1, 2], false))], Net(ClientStops(), ServerSends(), true))
  {
    ClientStopsFacts();
    ServerUpFacts();
    ServerHeardFacts();
    hide ClientStops, ServerUp, ReceiveAll, Run, Times, SendStreamData;
    var caps := Limits3(Stopper) + StopAndSend;
    ReceiveAllJoin(ServerUp(), Limits3(Stopper), StopAndSend);
    DeliverRun(Net(ClientStops(), ServerUp(), true), true, caps);
    RunSingle(Net(ClientStops(), ServerHeard(), true), ServerCall(Send(OwnBidi, [1, 2], false)));
  }

  lemma ClientReads()
    ensures Run(Net(ClientStops(), ServerSends(), true), Times(ToClient, 5), Net(ClientRests(), ServerSends(), true))
  {
    ClientStopsFacts();
    ServerSendsFacts();
    ClientRestsFacts();
    hide ClientStops, ServerSends, ReceiveAll, Run, Times;
    var caps := Limits3(Sender) + OneAndBlocked;
    ReceiveAllJoin(ClientStops(), Limits3(Sender), OneAndBlocked);
    DeliverRun(Net(ClientStops(), ServerSends(), true), false, caps);
  }

  /**
   * The client opens a stream, stops it before using it, and only then sends on it. The server has
   * ignored the early stop and sends two bytes, of which one fits. Nothing is under way any more, the
   * session is up, no entry is empty, and the other byte waits: `Delivery.StopIsForGood` says for how long.
   */
  lemma EarlyStopStarves()
    ensures var n := Net(ClientRests(), ServerSends(), true);
      && Run(InitialNet(Stopper, Sender), EarlyStopRun(), n) && Quiescent(n) && NetInv(n)
      && Unsent(n.server, OwnBidi) == [PendingSend([2], false)] && Said(n.server, OwnBidi).ending == Ending.Open
      && Said(n.client, OwnBidi).stopped
  {
    var n4, n9, n10 := Net(ClientStops(), ServerUp(), true), Net(ClientStops(), ServerHeard(), true), Net(ClientStops(), ServerSends(), true);
    var n := Net(ClientRests(), ServerSends(), true);
    ClientStopsFacts();
    ServerSendsFacts();
    ClientRestsFacts();
    hide Run, ClientStops, ServerUp, ServerHeard, ServerSends, ClientRests, Times, NetInv, InitialNet, ClientCalls, Limits3, SendInv, StreamView;
    ClientPart();
    ServerPart();
    ClientReads();
    var n0 := InitialNet(Stopper, Sender);
    RunsJoin(n0, ClientCalls(), n4, Times(ToServer, 5), n9);
    RunsJoin(n0, ClientCalls() + Times(ToServer, 5), n9, [ServerCall(Send(OwnBidi, [1, 2], false))], n10);
    RunsJoin(n0, ClientCalls() + Times(ToServer, 5) + [ServerCall(Send(OwnBidi, [1, 2], false))], n10, Times(ToClient, 5), n);
    InitialNetInv(Stopper, Sender);
    RunKeepsInv(n0, EarlyStopRun(), n);
    SoundSaid(n);
  }

  lemma SoundSaid(n: Net)
    requires NetInv(n) && Unsent(n.server, OwnBidi) != [] && OwnBidi in n.client.sentStops
    ensures Said(n.server, OwnBidi).ending == Ending.Open && Said(n.client, OwnBidi).stopped
  {
    assert SendInv(n.server) && SendInv(n.client) by { hide SendInv, RecvInv; }
    hide NetInv, StreamView, Legal, SessionSendOk;
    assert SendOk(n.server, OwnBidi) && SendOk(n.client, OwnBidi);
  }
}
