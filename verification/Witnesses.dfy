/**
 * Runs in which the code does what one might expect it never to do. Each reaches the state
 * that a lemma of `Runs` or `Delivery` is conditional on.
 */
module Witnesses {
  import opened Capsules
  import opened Engine
  import opened Trace
  import opened Sending
  import opened Dialogue
  import opened Endpoint
  import opened Queues
  import opened Runs

  lemma PlayNone(s: Session)
    ensures Play(s, []) == s && FairRun(s, [])
  {
  }

  lemma PlayFirst(s: Session, steps: seq<Step>)
    requires steps != []
    ensures Play(s, steps) == Play(Advance(s, steps[0]), steps[1..])
    ensures FairRun(s, steps) <==> Fair(s, steps[0]) && FairRun(Advance(s, steps[0]), steps[1..])
  {
    hide Advance, Fair;
  }

  lemma PlayTwo(s: Session, a: Step, b: Step)
    ensures Play(s, [a, b]) == Advance(Advance(s, a), b)
    ensures FairRun(s, [a, b]) <==> Fair(s, a) && Fair(Advance(s, a), b)
  {
    hide Advance, Fair, Play, FairRun;
    PlayFirst(s, [a, b]);
    PlayFirst(Advance(s, a), [b]);
    PlayNone(Advance(Advance(s, a), b));
    assert [a, b][1..] == [b] && [b][1..] == [];
  }

  lemma PlayThree(s: Session, a: Step, b: Step, c: Step)
    ensures Play(s, [a, b, c]) == Advance(Advance(Advance(s, a), b), c)
    ensures FairRun(s, [a, b, c]) <==> Fair(s, a) && Fair(Advance(s, a), b) && Fair(Advance(Advance(s, a), b), c)
  {
    hide Advance, Fair, Play, FairRun;
    PlayFirst(s, [a, b, c]);
    PlayTwo(Advance(s, a), b, c);
    assert [a, b, c][1..] == [b, c];
  }

  lemma PlayFour(s: Session, a: Step, b: Step, c: Step, d: Step)
    ensures Play(s, [a, b, c, d]) == Advance(Advance(Advance(Advance(s, a), b), c), d)
    ensures FairRun(s, [a, b, c, d])
       <==> Fair(s, a) && Fair(Advance(s, a), b) && Fair(Advance(Advance(s, a), b), c)
            && Fair(Advance(Advance(Advance(s, a), b), c), d)
  {
    hide Advance, Fair, Play, FairRun;
    PlayFirst(s, [a, b, c, d]);
    PlayThree(Advance(s, a), b, c, d);
    assert [a, b, c, d][1..] == [b, c, d];
  }

  /** A client and a server whose windows are one byte. */
  const Narrow := Config(false, 1, 1, 1, 1)
  const NarrowServer := Config(true, 1, 1, 1, 1)

  const OwnBidi := StreamId(0, false, false)
  const PeerUni := StreamId(0, true, false)

  lemma NarrowIsValid()
    ensures ValidConfig(Narrow) && ValidConfig(NarrowServer)
  {
  }

  // ---------- Sessions that have just been established ----------

  function NewClient(): Session { NewSession(Narrow, NarrowServer, false) }
  function NewServer(): Session { NewSession(NarrowServer, Narrow, true) }

  const ClientConfirms: Step := Confirmation(CreditFrom(NarrowServer, true))
  const ServerConfirms: Step := Confirmation(CreditFrom(Narrow, true))

  /** The client has seen the 2xx. */
  function ClientUp(): Session { Announce(Confirm(NewClient(), CreditFrom(NarrowServer, true))) }

  lemma ClientUpFacts()
    ensures Advance(Advance(NewClient(), ClientConfirms), Announcement) == ClientUp()
    ensures Fair(NewClient(), ClientConfirms) && Fair(Advance(NewClient(), ClientConfirms), Announcement)
    ensures Idle(ClientUp())
  {
  }

  lemma NewClientIsSound()
    ensures EndpointInv(NewClient())
  {
    hide EndpointInv;
    NarrowIsValid();
    NewSessionIsSound(Narrow, NarrowServer, false, OwnBidi);
  }

  lemma NewServerIsSound()
    ensures EndpointInv(NewServer())
  {
    hide EndpointInv;
    NarrowIsValid();
    NewSessionIsSound(NarrowServer, Narrow, true, OwnBidi);
  }

  /** A client that has opened no stream. */
  predicate Idle(s: Session) {
    && s.cfg == Narrow && s.established && !s.terminated && s.streams == map[] && s.released == {} && s.freed == {}
    && s.sentStops == {} && s.receivedMaxStreamData == map[]
    && s.emitted == [WtMaxData(1), WtMaxStreams(true, 1), WtMaxStreams(false, 1)]
    && s.bytesReceived == 0 && s.maxDataRemote == 1 && s.bytesSent == 0 && s.maxDataLocal == 1
    && s.bidi == InitialCount(1, 1) && s.uni == InitialCount(1, 1) && s.peer == CreditFrom(NarrowServer, true)
  }

  // ---------- An empty send behind waiting data ----------

  function EmptySendSteps(): seq<Step> {
    [ClientConfirms, Announcement, Do(OpenCall(false)), Do(Send(OwnBidi, [7, 7], false))]
  }

  /** The state that `EmptyEntryNeverLeaves` starts from is reached by two calls of an ordinary client. */
  lemma EmptyEntryHappens()
    ensures var s := Play(NewClient(), EmptySendSteps());
      && EndpointInv(s) && AcceptsSend(s, OwnBidi) && s.streams[OwnBidi].pending == [PendingSend([7], false)]
      && Unsent(SendStreamData(s, OwnBidi, [], true), OwnBidi) == [PendingSend([7], false), PendingSend([], true)]
  {
    var c, d := Do(OpenCall(false)), Do(Send(OwnBidi, [7, 7], false));
    hide NewSession, Announce, EndpointInv, QueueOf, Submitted, FairRun, Play, SendStreamData, NewClient, ClientUp;
    ClientUpFacts();
    var s2 := ClientUp();
    var s3 := Advance(s2, c);
    OpensFirst(s2, false);
    assert s3 == OpenStream(s2, false).0;
    AfterNarrowSend(s3);
    assert Advance(s3, d) == SendStreamData(s3, OwnBidi, [7, 7], false);
    assert Fair(s2, c) && Fair(s3, d);
    hide Advance, Fair;
    PlayFour(NewClient(), ClientConfirms, Announcement, c, d);
    NewClientIsSound();
    PlayKeeps(NewClient(), EmptySendSteps(), OwnBidi);
  }

  lemma OpensFirst(s: Session, uni: bool)
    requires Idle(s)
    ensures var o := OpenStream(s, uni); var id := StreamId(0, uni, false);
      && o.1 == Some(id)
      && o.0.streams == map[id := Stream(true, uni, Ready, 0, 1, Recv, 0, 1, [], false, false)]
      && o.0.maxDataLocal == 1 && o.0.bytesSent == 0 && !o.0.terminated && o.0.sentStops == {} && o.0.cfg == Narrow
  {
  }

  lemma AfterNarrowSend(s: Session)
    requires OwnBidi in s.streams && s.streams[OwnBidi] == Stream(true, false, Ready, 0, 1, Recv, 0, 1, [], false, false)
    requires s.maxDataLocal == 1 && s.bytesSent == 0 && !s.terminated
    ensures var s' := SendStreamData(s, OwnBidi, [7, 7], false);
      && AcceptsSend(s', OwnBidi) && s'.streams[OwnBidi].pending == [PendingSend([7], false)]
      && Unsent(SendStreamData(s', OwnBidi, [], true), OwnBidi) == [PendingSend([7], false), PendingSend([], true)]
  {
    assert [7, 7][1..] == [7];
    var s' := SendStreamData(s, OwnBidi, [7, 7], false);
    assert s'.streams[OwnBidi].pending == [PendingSend([7], false)];
    assert s'.streams[OwnBidi].pending + [PendingSend([], true)] == [PendingSend([7], false), PendingSend([], true)];
  }

  // ---------- A reset of a stream one may only receive on ----------

  const FirstByte: Capsule := WtStream(PeerUni, [7], false)

  /** A server that is up and has then taken one byte of its client's first unidirectional stream. */
  function TookOne(): Session { Receive(Announce(Confirm(NewServer(), CreditFrom(Narrow, true))), FirstByte) }

  lemma TookOneFacts()
    ensures var s := TookOne(); !s.terminated && s.cfg == NarrowServer && PeerUni in s.streams && !SendDone(s.streams[PeerUni])
  {
    FirstChunk(Announce(Confirm(NewServer(), CreditFrom(Narrow, true))), PeerUni);
  }

  lemma TookOneIsPlayed()
    ensures Play(NewServer(), [ServerConfirms, Announcement, Take(FirstByte)]) == TookOne()
    ensures FairRun(NewServer(), [ServerConfirms, Announcement, Take(FirstByte)])
  {
    var s0 := NewServer();
    var s1 := Advance(s0, ServerConfirms);
    var s2 := Advance(s1, Announcement);
    assert Fair(s0, ServerConfirms) && Fair(s1, Announcement) && Fair(s2, Take(FirstByte));
    assert s2 == Announce(Confirm(NewServer(), CreditFrom(Narrow, true)));
    hide Play, FairRun, Fair, Receive, NewServer, Announce, Confirm;
    PlayThree(s0, ServerConfirms, Announcement, Take(FirstByte));
  }

  /** A server that resets the first unidirectional stream of its client queues what the draft forbids. */
  lemma ResetFacesBack(code: ErrorCode)
    ensures var s := Play(NewServer(), [ServerConfirms, Announcement, Take(FirstByte)]);
            EndpointInv(s) && !SendInv(ResetStream(s, PeerUni, code))
            && PeerUni in s.streams && !Legal(SpeakerOf(s), MarkReset(s, PeerUni, code).emitted)
  {
    hide Play, NewServer, EndpointInv, SendInv, ResetStream, TookOne, Legal, FairRun;
    TookOneFacts();
    TookOneIsPlayed();
    NewServerIsSound();
    PlayKeeps(NewServer(), [ServerConfirms, Announcement, Take(FirstByte)], PeerUni);
    SoundSends(TookOne());
    ResetMustFaceForward(TookOne(), PeerUni, code);
  }

  lemma SoundSends(s: Session)
    requires EndpointInv(s)
    ensures SendInv(s)
  {
  }

  /** One byte fills the window of one byte, and is answered by new credit. */
  lemma FirstChunk(s: Session, id: StreamId)
    requires !s.terminated && s.streams == map[] && s.released == {} && s.sentStops == {} && s.receivedMaxStreamData == map[]
    requires ReceivableDataCapsule(id, s.cfg.isServer) && !LocalTo(s.cfg.isServer, id)
    requires s.bytesReceived == 0 && s.maxDataRemote == s.cfg.initData == s.cfg.initStreamData == 1
    requires id.counter < Count(s, !id.uni).maxRemote
    ensures var s' := Receive(s, WtStream(id, [7], false));
      && !s'.terminated && id in s'.streams && !SendDone(s'.streams[id])
      && s'.maxDataRemote == 2
  {
    var h := Heed(s, WtStream(id, [7], false));
    var s1 := Put(h, id, NewStream(h, id));
    var s2 := RecvChunk(s1, id, [7], false);
    var s3 := MaybeSendMaxData(s2);
    assert s2.bytesReceived == 1 && s2.streams[id].bytesReceived == 1 && s2.streams[id].maxRemote == 1;
    assert s3.maxDataRemote == 2 && s3.streams == s2.streams;
  }

  const OwnUni := StreamId(0, true, false)

  /** A client that stops the unidirectional stream it has just opened queues what the draft forbids. */
  lemma StopFacesForward(code: ErrorCode)
    ensures var s := Play(NewClient(), [ClientConfirms, Announcement, Do(OpenCall(true))]);
            EndpointInv(s) && OwnUni in s.streams && !SendInv(StopSending(s, OwnUni, code))
            && !Legal(SpeakerOf(s), StopSending(s, OwnUni, code).emitted)
  {
    hide Announce, EndpointInv, SendInv, StopSending, FairRun, Play, NewClient, ClientUp, OpenStream, Legal;
    ClientUpFacts();
    var s2 := ClientUp();
    OpensFirst(s2, true);
    var s3 := OpenStream(s2, true).0;
    assert Advance(s2, Do(OpenCall(true))) == s3 && Fair(s2, Do(OpenCall(true)));
    hide Advance, Fair;
    PlayThree(NewClient(), ClientConfirms, Announcement, Do(OpenCall(true)));
    NewClientIsSound();
    PlayKeeps(NewClient(), [ClientConfirms, Announcement, Do(OpenCall(true))], OwnUni);
    SoundSends(s3);
    StopMustFaceBack(s3, OwnUni, code);
  }

  // ---------- Limits announced too late ----------

  /** A server that is established but has only gone through what came early. */
  function Deferred(): Session { Receive(Confirm(NewServer(), CreditFrom(Narrow, true)), FirstByte) }

  lemma DeferredFacts()
    ensures var s := Deferred();
      && !s.terminated && s.cfg == NarrowServer && s.maxDataRemote == 2 && s.bidi.maxRemote == 1 && s.uni.maxRemote == 1
  {
    FirstChunk(Confirm(NewServer(), CreditFrom(Narrow, true)), PeerUni);
  }

  lemma DeferredIsPlayed()
    ensures EndpointInv(Deferred())
    ensures !Deferred().terminated ==>
              Play(NewServer(), [ServerConfirms, Take(FirstByte), Announcement]) == Announce(Deferred())
  {
    var s0 := NewServer();
    var s1 := Advance(s0, ServerConfirms);
    assert Fair(s0, ServerConfirms) && Fair(s1, Take(FirstByte));
    assert s1 == Confirm(NewServer(), CreditFrom(Narrow, true)) && Advance(s1, Take(FirstByte)) == Deferred();
    assert !Deferred().terminated ==> Advance(Deferred(), Announcement) == Announce(Deferred());
    hide Play, EndpointInv, FairRun, Fair, Advance, NewServer, Deferred;
    NewServerIsSound();
    AdvanceKeeps(s0, ServerConfirms, PeerUni);
    AdvanceKeeps(s1, Take(FirstByte), PeerUni);
    PlayThree(s0, ServerConfirms, Take(FirstByte), Announcement);
  }

  /** A server that took one early byte before it announces its limits announces less than it granted for that byte. */
  lemma AnnouncedTooLate()
    ensures var s := Play(NewServer(), [ServerConfirms, Take(FirstByte), Announcement]);
            !Legal(SpeakerOf(s), s.emitted)
  {
    hide Play, NewServer, EndpointInv, SendInv, Deferred, Legal;
    DeferredFacts();
    DeferredIsPlayed();
    SoundSends(Deferred());
    AnnounceMustComeFirst(Deferred());
  }

  // ---------- A stream ID of ours that the peer used first ----------

  function BadMannersSteps(): seq<Step> {
    [ClientConfirms, Announcement, Take(WtStream(OwnBidi, [], true)), Do(Send(OwnBidi, [], true))]
  }

  lemma UsedByPeer(s: Session)
    requires Idle(s)
    ensures var s' := Receive(s, WtStream(OwnBidi, [], true));
      && s' == s.(received := s'.received, events := s'.events, streams := s'.streams)
      && s'.streams == map[OwnBidi := Stream(true, false, Ready, 0, 1, DataRecvd, 0, 1, [], false, false)]
  {
  }

  lemma FinishedByUs(s: Session)
    requires s.streams == map[OwnBidi := Stream(true, false, Ready, 0, 1, DataRecvd, 0, 1, [], false, false)]
    requires !s.terminated && s.maxDataLocal == 1 && s.bytesSent == 0 && s.released == {}
    ensures var s' := SendStreamData(s, OwnBidi, [], true);
      && s' == s.(emitted := s.emitted + [WtStream(OwnBidi, [], true)], streams := map[],
                  released := s.released + {OwnBidi}, freed := s.freed + {OwnBidi})
  {
    var s' := SendStreamData(s, OwnBidi, [], true);
    assert s'.streams == map[];
  }

  lemma OpenedAgain(s: Session)
    requires s.established && !s.terminated && s.streams == map[] && s.cfg == Narrow
    requires s.bidi == InitialCount(1, 1) && s.peer == CreditFrom(NarrowServer, true) && s.receivedMaxStreamData == map[]
    requires s.maxDataLocal == 1 && s.bytesSent == 0
    ensures OpenStream(s, false).1 == Some(OwnBidi)
    ensures SendStreamData(OpenStream(s, false).0, OwnBidi, [7], false).emitted == s.emitted + [WtStream(OwnBidi, [7], false)]
  {
    var o := OpenStream(s, false).0;
    assert o.streams == map[OwnBidi := Stream(true, false, Ready, 0, 1, Recv, 0, 1, [], false, false)];
  }

  /** The stream is gone, and its FIN was the last that was sent. */
  predicate BothEnded(s: Session) {
    s.emitted == ClientUp().emitted + [WtStream(OwnBidi, [], true)] && s.streams == map[] && !s.terminated
  }

  /**
   * The peer ends our first stream before we have opened it, and we end it too. open_stream then hands
   * its ID out as new, and what is sent on it follows the FIN.
   */
  lemma OpenedTwice()
    ensures var s := Play(NewClient(), BadMannersSteps());
            var o := OpenStream(s, false);
      && BothEnded(s)
      && o.1 == Some(OwnBidi) && OwnBidi in s.freed
      && !Legal(SpeakerOf(o.0), SendStreamData(o.0, OwnBidi, [7], false).emitted)
  {
    var c, d := Take(WtStream(OwnBidi, [], true)), Do(Send(OwnBidi, [], true));
    hide NewClient, ClientUp, Announce, Receive, SendStreamData, OpenStream, Play;
    ClientUpFacts();
    var s2 := ClientUp();
    UsedByPeer(s2);
    var s3 := Advance(s2, c);
    assert s3 == Receive(s2, WtStream(OwnBidi, [], true));
    FinishedByUs(s3);
    var s4 := Advance(s3, d);
    assert s4 == SendStreamData(s3, OwnBidi, [], true);
    PlayFour(NewClient(), ClientConfirms, Announcement, c, d);
    OpenedAgain(s4);
    FinThenData(SpeakerOf(OpenStream(s4, false).0), s2.emitted);
  }

  lemma FinThenData(p: Speaker, before: seq<Capsule>)
    ensures !Legal(p, before + [WtStream(OwnBidi, [], true)] + [WtStream(OwnBidi, [7], false)])
  {
    hide Legal;
    var log := before + [WtStream(OwnBidi, [], true)] + [WtStream(OwnBidi, [7], false)];
    if Legal(p, log) { OneEnding(p, log, |before|, |before| + 1, OwnBidi); }
  }
}
