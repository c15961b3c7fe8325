/**
 * One endpoint as its application and its peer drive it: API calls and capsules as
 * values, the establishment of the session, and what no step can undo.
 */
module Endpoint {
  import opened Capsules
  import Utf8
  import opened Engine
  import opened Trace
  import opened Sending
  import opened Conduct
  import opened Receiving
  import opened Dialogue
  import opened Hearing

  // ---------- API calls as values ----------

  datatype Call =
    | OpenCall(uni: bool)
    | Send(id: StreamId, data: seq<Byte>, fin: bool)
    | Reset(id: StreamId, code: ErrorCode)
    | Stop(id: StreamId, code: ErrorCode)
    | SendDgram(payload: seq<Byte>)
    | DrainCall
    | Close(code: ErrorCode, message: seq<Byte>)

  function Apply(s: Session, call: Call): Session {
    match call
    case OpenCall(uni) => OpenStream(s, uni).0
    case Send(id, data, fin) => SendStreamData(s, id, data, fin)
    case Reset(id, code) => ResetStream(s, id, code)
    case Stop(id, code) => StopSending(s, id, code)
    case SendDgram(payload) => SendDatagram(s, payload)
    case DrainCall => DrainSession(s)
    case Close(code, message) => CloseSession(s, code, message)
  }

  /** An application resets only streams it may send on and stops only streams it may receive on. */
  predicate Proper(s: Session, call: Call) {
    match call
    case Reset(id, _) => ReceivableDataCapsule(id, !s.cfg.isServer)
    case Stop(id, _) => ReceivableFlowCapsule(id, !s.cfg.isServer)
    case _ => true
  }

  lemma ApplyInv(s: Session, call: Call)
    requires Inv(s) && Proper(s, call)
    ensures Inv(Apply(s, call))
  {
    hide Inv;
    match call
    case OpenCall(uni) => OpenStreamInv(s, uni);
    case Send(id, data, fin) => SendStreamDataInv(s, id, data, fin);
    case Reset(id, code) => ResetStreamInv(s, id, code);
    case Stop(id, code) => StopSendingInv(s, id, code);
    case SendDgram(payload) => NoticesInv(s, payload);
    case DrainCall => NoticesInv(s, []);
    case Close(code, message) => CloseInv(s, code, message);
  }

  // ---------- Nothing queued is ever taken back ----------

  /** What neither a call nor a handler can undo. */
  predicate Onward(s: Session, s': Session) {
    && s'.cfg == s.cfg && s'.peer == s.peer
    && s.emitted <= s'.emitted
    && (s.terminated ==> s'.terminated)
  }

  lemma BlockedOnward(s: Session, id: StreamId, a: nat, b: nat)
    requires id in s.streams
    ensures SameLogs(s, ReportBlocked(s, id, a, b)) && id in ReportBlocked(s, id, a, b).streams
  {
    hide Emit;
    BlockedFrame(s, id, a, b);
    SessionBlockedLogs(s);
    StreamBlockedLogs(if a <= b then ReportSessionBlocked(s) else s, id);
  }

  lemma SessionBlockedLogs(s: Session)
    ensures SameLogs(s, ReportSessionBlocked(s)) && ReportSessionBlocked(s).streams == s.streams
  {
  }

  lemma StreamBlockedLogs(s: Session, id: StreamId)
    requires id in s.streams
    ensures SameLogs(s, ReportStreamBlocked(s, id))
  {
  }

  lemma SendLogs(s: Session, id: StreamId, data: seq<Byte>, fin: bool)
    ensures SameLogs(s, SendStreamData(s, id, data, fin))
  {
    hide MaybeRelease, ReportBlocked;
    if AcceptsSend(s, id) {
      var st := s.streams[id];
      var n := Sendable(s, st, |data|);
      if st.pending == [] {
        if n < |data| {
          var s1 := if n > 0 then SendChunk(s, id, data[..n], false) else s;
          BlockedOnward(s1, id, SessionAvail(s, |data|), StreamAvail(st, |data|));
        } else {
          ReleaseFrame(SendChunk(s, id, data, fin), id);
        }
      }
    }
  }

  lemma ResetLogs(s: Session, id: StreamId, code: ErrorCode)
    ensures SameLogs(s, ResetStream(s, id, code))
  {
    hide MaybeRelease;
    if !s.terminated && id in s.streams && !SendDone(s.streams[id]) {
      MarkResetFrame(s, id, code);
      ReleaseFrame(MarkReset(s, id, code), id);
    }
  }

  lemma ApplyOnward(s: Session, call: Call)
    ensures Onward(s, Apply(s, call)) && Apply(s, call).received == s.received
    ensures Apply(s, call).events == s.events
    ensures !call.Close? ==> Apply(s, call).terminated == s.terminated
  {
    hide SendStreamData, ResetStream, NewStream, Utf8.Cut;
    match call
    case OpenCall(uni) =>
    case Send(id, data, fin) => SendLogs(s, id, data, fin);
    case Reset(id, code) => ResetLogs(s, id, code);
    case Stop(id, code) =>
    case SendDgram(payload) =>
    case DrainCall =>
    case Close(code, message) =>
  }

  ghost predicate NoErrors(events: seq<Event>) { forall k :: 0 <= k < |events| ==> !events[k].Error? }

  /** An Error event is only ever pushed on the way to ending the session. */
  ghost predicate Answers(s: Session, s': Session) {
    && Onward(s, s') && s'.received == s.received
    && (NoErrors(s.events) && !s'.terminated ==> NoErrors(s'.events))
  }

  lemma ReportAnswers(s: Session, code: ErrorCode)
    ensures Answers(s, ReportError(s, code)) && Answers(s, ReportLimitError(s))
    ensures ReportError(s, code).terminated && ReportLimitError(s).terminated
  {
    hide NoErrors;
  }

  lemma AcceptAnswers(s: Session, id: StreamId, data: seq<Byte>, fin: bool)
    requires id in s.streams
    ensures Answers(s, AcceptWtStream(s, id, data, fin))
  {
    hide MaybeSendMaxData, MaybeSendMaxStreamData, MaybeRelease, ReportError;
    ReportAnswers(s, WT_STREAM_STATE_ERROR);
    ReportAnswers(s, WT_FLOW_CONTROL_ERROR);
    var s1 := RecvChunk(s, id, data, fin);
    var s2 := MaybeSendMaxData(s1);
    var s3 := MaybeSendMaxStreamData(s2, id);
    CreditFrame(s1, id);
    CreditFrame(s2, id);
    ReleaseFrame(s3, id);
  }

  lemma HandleWtStreamAnswers(s: Session, id: StreamId, data: seq<Byte>, fin: bool)
    ensures Answers(s, HandleWtStream(s, id, data, fin))
  {
    hide AcceptWtStream, ReportError, NoErrors, NewStream;
    ReportAnswers(s, WT_STREAM_STATE_ERROR);
    ReportAnswers(s, WT_FLOW_CONTROL_ERROR);
    if id in s.streams { AcceptAnswers(s, id, data, fin); }
    else { AcceptAnswers(Put(s, id, NewStream(s, id)), id, data, fin); }
  }

  lemma RecvResetAnswers(s: Session, id: StreamId, code: ErrorCode)
    requires id in s.streams
    ensures Answers(s, RecvReset(s, id, code))
  {
    hide MaybeRelease;
    ReleaseFrame(NoteReset(s, id, code), id);
  }

  lemma HandleWtResetStreamAnswers(s: Session, id: StreamId, code: ErrorCode, size: nat)
    ensures Answers(s, HandleWtResetStream(s, id, code, size))
  {
    hide RecvReset, ReportError, NoErrors, NewStream;
    ReportAnswers(s, WT_STREAM_STATE_ERROR);
    ReportAnswers(s, WT_FLOW_CONTROL_ERROR);
    if id in s.streams { RecvResetAnswers(s, id, code); }
    else { RecvResetAnswers(Put(s, id, NewStream(s, id)), id, code); }
  }

  lemma HandleWtStopSendingAnswers(s: Session, id: StreamId, code: ErrorCode)
    ensures Answers(s, HandleWtStopSending(s, id, code))
  {
    hide ResetStream, ReportError;
    ReportAnswers(s, WT_STREAM_STATE_ERROR);
    ResetLogs(NoteStop(s, id, code), id, code);
  }

  lemma LimitHandlersAnswer(s: Session, id: StreamId, bidi: bool, max: nat)
    ensures Answers(s, HandleWtMaxData(s, max))
    ensures Answers(s, HandleWtMaxStreams(s, bidi, max))
    ensures Answers(s, HandleWtStreamDataBlocked(s, id))
    ensures Answers(s, HandleWtStreamsBlocked(s, max))
  {
    hide FlushPending, ReportError, ReportLimitError, NoErrors;
    ReportAnswers(s, WT_STREAM_STATE_ERROR);
    var s1 := s.(receivedMaxData := Some(max), maxDataLocal := max, dataBlockedSent := false);
    FlushFrame(s1);
  }

  lemma HandleWtMaxStreamDataAnswers(s: Session, id: StreamId, max: nat)
    ensures Answers(s, HandleWtMaxStreamData(s, id, max))
  {
    hide FlushPending, ReportError, ReportLimitError, NoErrors;
    ReportAnswers(s, WT_STREAM_STATE_ERROR);
    if id in s.streams {
      var st := s.streams[id].(maxLocal := max, dataBlockedSent := false);
      FlushFrame(Put(s, id, st));
      FlushFrame(Put(s.(receivedMaxStreamData := s.receivedMaxStreamData[id := max]), id, st));
    }
  }

  lemma DispatchAnswers(s: Session, c: Capsule)
    ensures Onward(s, Dispatch(s, c)) && Dispatch(s, c).received == s.received
    ensures NoErrors(s.events) && (c.WtCloseSession? || !Dispatch(s, c).terminated) ==> NoErrors(Dispatch(s, c).events)
  {
    hide HandleWtStream, HandleWtResetStream, HandleWtStopSending, HandleWtMaxData, HandleWtMaxStreamData,
         HandleWtMaxStreams, HandleWtStreamDataBlocked, HandleWtStreamsBlocked;
    match c
    case WtResetStream(id, code, size) => HandleWtResetStreamAnswers(s, id, code, size);
    case WtStopSending(id, code) => HandleWtStopSendingAnswers(s, id, code);
    case WtStream(id, data, fin) => HandleWtStreamAnswers(s, id, data, fin);
    case WtMaxData(max) => LimitHandlersAnswer(s, StreamId(0, false, false), true, max);
    case WtMaxStreamData(id, max) => HandleWtMaxStreamDataAnswers(s, id, max);
    case WtMaxStreams(bidi, max) => LimitHandlersAnswer(s, StreamId(0, false, false), bidi, max);
    case WtStreamDataBlocked(id, max) => LimitHandlersAnswer(s, id, true, max);
    case WtStreamsBlocked(bidi, max) => LimitHandlersAnswer(s, StreamId(0, false, false), bidi, max);
    case _ =>
  }

  lemma ReceiveOnward(s: Session, c: Capsule)
    ensures Onward(s, Receive(s, c))
    ensures Receive(s, c).received == if s.terminated then s.received else s.received + [c]
    ensures NoErrors(s.events) && (c.WtCloseSession? || !Receive(s, c).terminated) ==> NoErrors(Receive(s, c).events)
  {
    hide Dispatch, NoErrors;
    DispatchAnswers(Heed(s, c), c);
  }

  // ---------- Establishing a session ----------

  /** The limits are 32-bit SETTINGS values. */
  predicate ValidConfig(cfg: Config) {
    cfg.initData < 0x1_0000_0000 && cfg.initStreamData < 0x1_0000_0000
    && cfg.initBidi < 0x1_0000_0000 && cfg.initUni < 0x1_0000_0000
  }

  function Announced(init: nat, header: bool): Option<nat> {
    if header || init > 0 then Some(init) else None
  }

  function CreditFrom(peer: Config, header: bool): PeerCredit {
    var a := Announced(peer.initStreamData, header);
    PeerCredit(peer.initData, peer.initBidi, peer.initUni,
               peer.initStreamData, peer.initStreamData, peer.initStreamData, a, a, a)
  }

  function InitialCount(peerLimit: nat, ownLimit: nat): StreamCount {
    StreamCount(0, peerLimit, if peerLimit > 0 then Some(peerLimit) else None, ownLimit, false)
  }

  /** A session entry from the two SETTINGS, and the WebTransport-Init header once it has come. */
  function NewSession(cfg: Config, peer: Config, header: bool): Session {
    Session(cfg, CreditFrom(peer, header), false, false,
            0, peer.initData, if peer.initData > 0 then Some(peer.initData) else None,
            0, cfg.initData,
            InitialCount(peer.initBidi, cfg.initBidi), InitialCount(peer.initUni, cfg.initUni),
            map[], map[], {}, {}, {}, false, [], [], [], {})
  }

  /** An endpoint repeats its configured limits once the session is established. */
  function Announce(s: Session): Session {
    s.(emitted := s.emitted + [WtMaxData(s.cfg.initData)] + [WtMaxStreams(true, s.cfg.initBidi)]
                + [WtMaxStreams(false, s.cfg.initUni)])
  }

  /** The 2xx response was sent or received; `peer` is what the peer's SETTINGS and header allow. */
  function Confirm(s: Session, peer: PeerCredit): Session { s.(established := true, peer := peer) }

  function Establish(s: Session, peer: PeerCredit): Session { Confirm(Announce(s), peer) }

  /** No limit has been raised yet. */
  predicate FreshLimits(s: Session) {
    && s.maxDataRemote == s.cfg.initData
    && s.bidi.maxRemote == s.cfg.initBidi && s.uni.maxRemote == s.cfg.initUni
  }

  /** A client that has not seen the 2xx yet has opened no stream and dispatched nothing. */
  predicate Waiting(s: Session) {
    && !s.established && !s.terminated
    && s.received == [] && s.streams == map[] && s.freed == {}
    && FreshLimits(s)
  }

  lemma NewSessionInv(cfg: Config, peer: Config, header: bool)
    requires ValidConfig(cfg) && ValidConfig(peer)
    ensures Inv(NewSession(cfg, peer, header)) && Waiting(NewSession(cfg, peer, header))
  {
    var s := NewSession(cfg, peer, header);
    forall id ensures SendOk(s, id) && RecvOk(s, id) { }
  }

  predicate OwnLimit(s: Session, c: Capsule) {
    c == WtMaxData(s.cfg.initData) || c == WtMaxStreams(true, s.cfg.initBidi) || c == WtMaxStreams(false, s.cfg.initUni)
  }

  lemma AnnounceOneKeeps(s: Session, s': Session, c: Capsule)
    requires SendInv(s) && FreshLimits(s) && !s.terminated && ValidConfig(s.cfg)
    requires OwnLimit(s, c) && s' == s.(emitted := s.emitted + [c])
    ensures SendInv(s') && FreshLimits(s')
  {
    hide SendOk, StreamView, SessionTotals, Legal;
    NotClosed(s);
    SessionTotalsSnoc(SpeakerOf(s).limits, s.emitted, c);
    EmitSessionKeeps(s, s', c);
  }

  lemma AnnounceKeeps(s: Session)
    requires SendInv(s) && FreshLimits(s) && !s.terminated && ValidConfig(s.cfg)
    ensures SendInv(Announce(s))
  {
    hide SendInv;
    var s1 := s.(emitted := s.emitted + [WtMaxData(s.cfg.initData)]);
    AnnounceOneKeeps(s, s1, WtMaxData(s.cfg.initData));
    var s2 := s1.(emitted := s1.emitted + [WtMaxStreams(true, s.cfg.initBidi)]);
    AnnounceOneKeeps(s1, s2, WtMaxStreams(true, s.cfg.initBidi));
    AnnounceOneKeeps(s2, Announce(s), WtMaxStreams(false, s.cfg.initUni));
  }

  lemma AnnounceOneInv(s: Session, s': Session, c: Capsule)
    requires Inv(s) && FreshLimits(s) && !s.terminated && ValidConfig(s.cfg)
    requires OwnLimit(s, c) && s' == s.(emitted := s.emitted + [c])
    ensures Inv(s')
  {
    hide SendInv, RecvInv;
    AnnounceOneKeeps(s, s', c);
    EmitFrame(s, s', c);
  }

  lemma EstablishInv(s: Session, peer: PeerCredit)
    requires Inv(s) && Waiting(s) && ValidConfig(s.cfg)
    requires peer.(announcedUni := s.peer.announcedUni, announcedBidiLocal := s.peer.announcedBidiLocal,
                   announcedBidiRemote := s.peer.announcedBidiRemote) == s.peer
    requires peer.announcedUni.Some? ==> peer.announcedUni.value <= peer.uni
    requires peer.announcedBidiLocal.Some? ==> peer.announcedBidiLocal.value <= peer.bidiLocal
    requires peer.announcedBidiRemote.Some? ==> peer.announcedBidiRemote.value <= peer.bidiRemote
    ensures Inv(Establish(s, peer))
  {
    hide Inv;
    var s1 := s.(emitted := s.emitted + [WtMaxData(s.cfg.initData)]);
    AnnounceOneInv(s, s1, WtMaxData(s.cfg.initData));
    var s2 := s1.(emitted := s1.emitted + [WtMaxStreams(true, s.cfg.initBidi)]);
    AnnounceOneInv(s1, s2, WtMaxStreams(true, s.cfg.initBidi));
    AnnounceOneInv(s2, Announce(s), WtMaxStreams(false, s.cfg.initUni));
    EstablishedFlag(Announce(s), peer);
  }

  lemma EstablishedFlag(s: Session, peer: PeerCredit)
    requires Inv(s) && !s.terminated
    requires peer.(announcedUni := s.peer.announcedUni, announcedBidiLocal := s.peer.announcedBidiLocal,
                   announcedBidiRemote := s.peer.announcedBidiRemote) == s.peer
    requires peer.announcedUni.Some? ==> peer.announcedUni.value <= peer.uni
    requires peer.announcedBidiLocal.Some? ==> peer.announcedBidiLocal.value <= peer.bidiLocal
    requires peer.announcedBidiRemote.Some? ==> peer.announcedBidiRemote.value <= peer.bidiRemote
    ensures Inv(s.(established := true, peer := peer))
  {
    var s' := s.(established := true, peer := peer);
    hide Legal, StreamView, SessionTotals, Delivered, Mentions;
    QuietKeeps(s, s');
    forall id ensures RecvOk(s', id) { assert RecvOk(s, id); }
  }
}
