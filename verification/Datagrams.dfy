/**
 * Datagrams: no window and no queue holds them up, so they arrive in the order in which
 * they were sent, each once, and nothing but a call of the application makes one.
 */
module Datagrams {
  import opened Capsules
  import Utf8
  import opened Engine
  import opened Receiving
  import opened Endpoint
  import opened Network
  import opened Delivery
  import opened Deeds

  // ---------- In logs ----------

  /** The datagrams of a log of capsules. */
  function Payloads(log: seq<Capsule>): seq<seq<Byte>> {
    if log == [] then []
    else
      var c := log[|log| - 1];
      Payloads(log[..|log| - 1]) + (if c.Datagram? then [c.payload] else [])
  }

  /** The datagrams that reached the application. */
  function Arrived(events: seq<Event>): seq<seq<Byte>> {
    if events == [] then []
    else
      var e := events[|events| - 1];
      Arrived(events[..|events| - 1]) + (if e.DatagramReceived? then [e.payload] else [])
  }

  lemma PayloadsSnoc(log: seq<Capsule>, c: Capsule)
    ensures Payloads(log + [c]) == Payloads(log) + (if c.Datagram? then [c.payload] else [])
  {
    assert (log + [c])[..|log|] == log;
  }

  lemma ArrivedSnoc(events: seq<Event>, e: Event)
    ensures Arrived(events + [e]) == Arrived(events) + (if e.DatagramReceived? then [e.payload] else [])
  {
    assert (events + [e])[..|events|] == events;
  }

  lemma {:induction false} PayloadsGrow(log: seq<Capsule>, more: seq<Capsule>)
    requires log <= more
    ensures Payloads(log) <= Payloads(more)
    decreases |more|
  {
    if |log| == |more| {
      assert log == more;
    } else {
      PayloadsGrow(log, more[..|more| - 1]);
    }
  }

  lemma {:induction false} PayloadsJoin(a: seq<Capsule>, b: seq<Capsule>)
    ensures Payloads(a + b) == Payloads(a) + Payloads(b)
    decreases |b|
  {
    if b == [] {
      assert a + b == a;
    } else {
      PayloadsJoin(a, b[..|b| - 1]);
      assert a + b == (a + b[..|b| - 1]) + [b[|b| - 1]];
      PayloadsSnoc(a + b[..|b| - 1], b[|b| - 1]);
    }
  }

  lemma {:induction false} ArrivedJoin(a: seq<Event>, b: seq<Event>)
    ensures Arrived(a + b) == Arrived(a) + Arrived(b)
    decreases |b|
  {
    if b == [] {
      assert a + b == a;
    } else {
      ArrivedJoin(a, b[..|b| - 1]);
      assert a + b == (a + b[..|b| - 1]) + [b[|b| - 1]];
      ArrivedSnoc(a + b[..|b| - 1], b[|b| - 1]);
    }
  }

  /** Datagrams are words. */
  lemma {:induction false} PayloadsAreWords(log: seq<Capsule>)
    ensures Payloads(WordsOf(log)) == Payloads(log)
    decreases |log|
  {
    if log != [] {
      var init, c := log[..|log| - 1], log[|log| - 1];
      PayloadsAreWords(init);
      PayloadsSnoc(WordsOf(init), c);
      assert WordsOf(log) == if IsWord(c) then WordsOf(init) + [c] else WordsOf(init);
      hide WordsOf;
    }
  }

  lemma {:induction false} ArrivedAreTold(events: seq<Event>)
    ensures Arrived(Tellings(events)) == Arrived(events)
    decreases |events|
  {
    if events != [] {
      var init, e := events[..|events| - 1], events[|events| - 1];
      ArrivedAreTold(init);
      ArrivedSnoc(Tellings(init), e);
      assert Tellings(events) == if IsTelling(e) then Tellings(init) + [e] else Tellings(init);
      hide Tellings;
    }
  }

  lemma AddsDatagrams(s: Session, s': Session, words: seq<Capsule>, news: seq<Event>)
    requires Adds(s, s', words, news)
    ensures Payloads(s'.emitted) == Payloads(s.emitted) + Payloads(words)
    ensures Arrived(s'.events) == Arrived(s.events) + Arrived(news)
  {
    hide Payloads, Arrived, WordsOf, Tellings;
    PayloadsAreWords(s.emitted);
    PayloadsAreWords(s'.emitted);
    ArrivedAreTold(s.events);
    ArrivedAreTold(s'.events);
    PayloadsJoin(WordsOf(s.emitted), words);
    ArrivedJoin(Tellings(s.events), news);
  }

  /** A call sends its datagram, if it is send_datagram, and no other. */
  lemma ApplyDatagrams(s: Session, call: Call)
    ensures Payloads(Apply(s, call).emitted)
         == Payloads(s.emitted) + (if call.SendDgram? && !s.terminated then [call.payload] else [])
    ensures Arrived(Apply(s, call).events) == Arrived(s.events)
  {
    hide Apply, Adds, Utf8.Cut;
    ApplyWords(s, call);
    AddsDatagrams(s, Apply(s, call), WordOf(s, call), []);
  }

  /** A capsule from whatever peer makes no datagram go out, and delivers one iff it is one. */
  lemma ReceiveDatagrams(s: Session, c: Capsule)
    ensures Payloads(Receive(s, c).emitted) == Payloads(s.emitted)
    ensures Arrived(Receive(s, c).events) == Arrived(s.events) + (if c.Datagram? && !s.terminated then [c.payload] else [])
  {
    hide Dispatch, Adds;
    if !s.terminated {
      ReceiveWords(s, c);
      var s' := Receive(s, c);
      if Adds(s, s', AnswerWord(s, c), News(s, c)) {
        AddsDatagrams(s, s', AnswerWord(s, c), News(s, c));
      } else {
        var code :| Adds(s, s', [WtCloseSession(code, [])], []);
        AddsDatagrams(s, s', [WtCloseSession(code, [])], []);
      }
    }
  }

  // ---------- Two ends ----------

  /** The datagram an action hands over at one end, if any. */
  function DatagramOf(n: Net, a: Action, server: bool): seq<seq<Byte>> {
    if (if server then a.ServerCall? else a.ClientCall?) && a.call.SendDgram? && !End(n, server).terminated
    then [a.call.payload] else []
  }

  function DatagramsHanded(n: Net, actions: seq<Action>, server: bool): seq<seq<Byte>>
    decreases |actions|
  {
    if actions == [] || !Enabled(n, actions[0]) then []
    else DatagramOf(n, actions[0], server) + DatagramsHanded(StepNet(n, actions[0]), actions[1..], server)
  }

  /** Everything dispatched has reached the application. */
  predicate AllArrived(s: Session) { Arrived(s.events) == Payloads(s.received) }

  lemma ReceiveArrives(s: Session, c: Capsule)
    requires AllArrived(s)
    ensures AllArrived(Receive(s, c))
  {
    ReceiveDatagrams(s, c);
    ReceiveOnward(s, c);
    PayloadsSnoc(s.received, c);
    hide Payloads, Arrived, Receive;
  }

  lemma StepDatagrams(n: Net, a: Action, server: bool)
    requires Enabled(n, a)
    ensures Payloads(End(StepNet(n, a), server).emitted) == Payloads(End(n, server).emitted) + DatagramOf(n, a, server)
    ensures AllArrived(End(n, server)) ==> AllArrived(End(StepNet(n, a), server))
  {
    hide Payloads, Arrived, Apply, Receive;
    match a
    case ClientCall(call) => ApplyDatagrams(n.client, call); ApplyOnward(n.client, call);
    case ServerCall(call) => ApplyDatagrams(n.server, call); ApplyOnward(n.server, call);
    case ClientAccepted => AnnounceDatagrams(n.client, CreditFrom(n.server.cfg, true));
    case ToClient =>
      ReceiveDatagrams(n.client, n.server.emitted[|n.client.received|]);
      if AllArrived(n.client) { ReceiveArrives(n.client, n.server.emitted[|n.client.received|]); }
    case ToServer =>
      ReceiveDatagrams(n.server, n.client.emitted[|n.server.received|]);
      if AllArrived(n.server) { ReceiveArrives(n.server, n.client.emitted[|n.server.received|]); }
  }

  lemma AnnounceDatagrams(s: Session, peer: PeerCredit)
    ensures var s' := Establish(s, peer);
            Payloads(s'.emitted) == Payloads(s.emitted) && Arrived(s'.events) == Arrived(s.events) && s'.received == s.received
  {
    hide WordsOf, Tellings;
    AnnounceOther(s, peer);
    PayloadsAreWords(s.emitted);
    PayloadsAreWords(Establish(s, peer).emitted);
  }

  lemma {:induction false} RunDatagrams(n0: Net, actions: seq<Action>, n: Net, server: bool)
    requires Run(n0, actions, n) && AllArrived(End(n0, server))
    ensures Payloads(End(n, server).emitted) == Payloads(End(n0, server).emitted) + DatagramsHanded(n0, actions, server)
    ensures AllArrived(End(n, server))
    decreases |actions|
  {
    hide StepNet, Enabled, DatagramOf, Payloads, Arrived;
    if actions != [] {
      StepDatagrams(n0, actions[0], server);
      RunDatagrams(StepNet(n0, actions[0]), actions[1..], n, server);
    }
  }

  /** Datagrams arrive in order, each once; all of them, once everything queued has been dispatched. */
  lemma DatagramsInOrder(c: Config, s: Config, actions: seq<Action>, n: Net, from: bool)
    requires ValidConfig(c) && ValidConfig(s) && !c.isServer && s.isServer
    requires Run(InitialNet(c, s), actions, n)
    ensures var sent := DatagramsHanded(InitialNet(c, s), actions, from); var x := End(n, from); var y := End(n, !from);
      Arrived(y.events) <= sent && (y.received == x.emitted ==> Arrived(y.events) == sent)
  {
    var n0 := InitialNet(c, s);
    InitialNetInv(c, s);
    RunKeepsInv(n0, actions, n);
    AnnounceDatagrams(NewSession(s, c, true), NewSession(s, c, true).peer);
    hide Inv, Run, NoErrors, DatagramsHanded, Establish;
    assert Payloads(n0.client.emitted) == [] == Payloads(n0.server.emitted);
    RunDatagrams(n0, actions, n, from);
    RunDatagrams(n0, actions, n, !from);
    PayloadsGrow(End(n, !from).received, End(n, from).emitted);
  }
}
