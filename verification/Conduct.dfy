/**
 * Every API call and every capsule handler keeps the sending invariant. The peer is
 * arbitrary here: nothing is assumed about the capsules it sends.
 */
module Conduct {
  import opened Capsules
  import opened Engine
  import opened Trace
  import opened Sending

  // ---------- API calls ----------

  /** The ID that the next open_stream would hand out. */
  function NextId(s: Session, uni: bool): StreamId { StreamId(Count(s, !uni).next, uni, s.cfg.isServer) }

  lemma OpenStreamKeeps(s: Session, uni: bool)
    requires SendInv(s)
    requires NextId(s, uni) !in s.freed
    ensures SendInv(OpenStream(s, uni).0)
  {
    hide SendOk, Legal, StreamView, SessionTotals;
    var n := Count(s, !uni);
    var id := NextId(s, uni);
    if s.established && n.next >= n.maxLocal && !n.blockedSent {
      EmitNoticeKeeps(s, OpenStream(s, uni).0, WtStreamsBlocked(!uni, n.maxLocal));
    } else if s.established && n.next < n.maxLocal && id !in s.streams {
      var s1 := WithCount(s, !uni, n.(next := n.next + 1));
      QuietKeeps(s, s1);
      CreateKeeps(s1, id);
    }
  }

  /** The smaller of two credits is the one that is reported, and it is used up. */
  predicate UsedUp(s: Session, id: StreamId, a: nat, b: nat)
    requires id in s.streams
  {
    (a <= b ==> s.bytesSent == s.maxDataLocal) && (b <= a ==> s.streams[id].bytesSent == s.streams[id].maxLocal)
  }

  /** What send_stream_data has put on the wire, perhaps nothing, before it reports what blocks the rest. */
  function SendPart(s: Session, id: StreamId, data: seq<Byte>): Session
    requires id in s.streams
  {
    var n := Sendable(s, s.streams[id], |data|);
    if 0 < n <= |data| then SendChunk(s, id, data[..n], false) else s
  }

  lemma PartUsesUp(s: Session, id: StreamId, data: seq<Byte>)
    requires SendInv(s) && id in s.streams && Sendable(s, s.streams[id], |data|) < |data|
    ensures id in SendPart(s, id, data).streams
    ensures UsedUp(SendPart(s, id, data), id, SessionAvail(s, |data|), StreamAvail(s.streams[id], |data|))
  {
    hide Legal, StreamView, SessionTotals;
    assert SendOk(s, id);
  }

  lemma SessionBlockedKeeps(s: Session)
    requires SendInv(s) && !s.terminated && s.bytesSent == s.maxDataLocal
    ensures SendInv(ReportSessionBlocked(s))
  {
    if !s.dataBlockedSent {
      EmitNoticeKeeps(s, ReportSessionBlocked(s), WtDataBlocked(s.maxDataLocal));
    }
  }

  lemma StreamBlockedKeeps(s: Session, id: StreamId)
    requires SendInv(s) && !s.terminated && id in s.streams
    requires !SendDone(s.streams[id]) && SendableStream(s.streams[id])
    requires s.streams[id].bytesSent == s.streams[id].maxLocal
    ensures SendInv(ReportStreamBlocked(s, id))
  {
    hide Legal, StreamView, SessionTotals;
    var st := s.streams[id];
    if !st.dataBlockedSent {
      NotClosed(s);
      assert SendOk(s, id);
      var c := WtStreamDataBlocked(id, st.maxLocal);
      var s' := ReportStreamBlocked(s, id);
      SessionTotalsSnoc(SpeakerOf(s).limits, s.emitted, c);
      assert SaidTotals(s') == SaidTotals(s);
      assert SessionSendOk(s');
      EmitStreamKeeps(s, s', c, id, st.(dataBlockedSent := true));
    }
  }

  lemma SessionBlockedFrame(s: Session)
    ensures ReportSessionBlocked(s).streams == s.streams
    ensures ReportSessionBlocked(s).terminated == s.terminated
  {
  }

  lemma StreamBlockedFrame(s: Session, id: StreamId)
    requires id in s.streams
    ensures var s' := ReportStreamBlocked(s, id);
            s'.streams == s.streams || s'.streams == s.streams[id := s.streams[id].(dataBlockedSent := true)]
  {
  }

  lemma BlockedFrame(s: Session, id: StreamId, a: nat, b: nat)
    requires id in s.streams
    ensures var s' := ReportBlocked(s, id, a, b);
            s'.streams == s.streams || s'.streams == s.streams[id := s.streams[id].(dataBlockedSent := true)]
  {
    hide ReportSessionBlocked, ReportStreamBlocked;
    SessionBlockedFrame(s);
    var s1 := if a <= b then ReportSessionBlocked(s) else s;
    StreamBlockedFrame(s1, id);
  }

  lemma BlockedKeeps(s: Session, id: StreamId, a: nat, b: nat)
    requires SendInv(s) && !s.terminated && id in s.streams
    requires !SendDone(s.streams[id]) && SendableStream(s.streams[id]) && UsedUp(s, id, a, b)
    ensures SendInv(ReportBlocked(s, id, a, b))
  {
    hide SendInv, ReportSessionBlocked, ReportStreamBlocked;
    if a <= b {
      SessionBlockedKeeps(s);
      SessionBlockedFrame(s);
      if b <= a { StreamBlockedKeeps(ReportSessionBlocked(s), id); }
    } else {
      StreamBlockedKeeps(s, id);
    }
  }

  lemma SendStreamDataKeeps(s: Session, id: StreamId, data: seq<Byte>, fin: bool)
    requires SendInv(s)
    ensures SendInv(SendStreamData(s, id, data, fin))
  {
    hide Legal, StreamView, SessionTotals, MaybeRelease, ReportBlocked;
    if AcceptsSend(s, id) {
      assert SendOk(s, id);
      var st := s.streams[id];
      var n := Sendable(s, st, |data|);
      if st.pending != [] {
        SetPendingKeeps(s, id, st.pending + [PendingSend(data, fin)]);
      } else if n < |data| {
        var s1 := if n > 0 then SendChunk(s, id, data[..n], false) else s;
        if n > 0 { ChunkKeeps(s, id, data[..n], false); }
        PartUsesUp(s, id, data);
        BlockedKeeps(s1, id, SessionAvail(s, |data|), StreamAvail(st, |data|));
        BlockedFrame(s1, id, SessionAvail(s, |data|), StreamAvail(st, |data|));
        SetPendingKeeps(ReportBlocked(s1, id, SessionAvail(s, |data|), StreamAvail(st, |data|)), id,
                        [PendingSend(data[n..], fin)]);
      } else {
        ChunkKeeps(s, id, data, fin);
        if fin { MaybeReleaseKeeps(SendChunk(s, id, data, fin), id); }
      }
    }
  }

  lemma MarkResetKeeps(s: Session, id: StreamId, code: ErrorCode)
    requires SendInv(s) && ReceivableDataCapsule(id, !s.cfg.isServer)
    requires !s.terminated && id in s.streams && !SendDone(s.streams[id])
    ensures SendInv(MarkReset(s, id, code))
  {
    hide Legal, StreamView;
    NotClosed(s);
    assert SendOk(s, id);
    var c := WtResetStream(id, code, s.streams[id].bytesSent);
    var s1 := MarkReset(s, id, code);
    SessionTotalsSnoc(SpeakerOf(s).limits, s.emitted, c);
    EmitStreamKeeps(s, s1, c, id, s1.streams[id]);
  }

  /** Resetting is sound on the streams this end may send on; `Runs.ResetMustFaceForward` shows that it is on no other. */
  lemma ResetStreamKeeps(s: Session, id: StreamId, code: ErrorCode)
    requires SendInv(s) && ReceivableDataCapsule(id, !s.cfg.isServer)
    ensures SendInv(ResetStream(s, id, code))
    ensures ResetStream(s, id, code).terminated == s.terminated
  {
    hide SendInv, MaybeRelease;
    if !s.terminated && id in s.streams && !SendDone(s.streams[id]) {
      MarkResetKeeps(s, id, code);
      MaybeReleaseKeeps(MarkReset(s, id, code), id);
      MaybeReleaseKeepsCredit(MarkReset(s, id, code), id);
    }
  }

  lemma StopSendingKeeps(s: Session, id: StreamId, code: ErrorCode)
    requires SendInv(s) && ReceivableFlowCapsule(id, !s.cfg.isServer)
    ensures SendInv(StopSending(s, id, code))
  {
    if !s.terminated && id in s.streams && id !in s.sentStops {
      NotClosed(s);
      assert SendOk(s, id);
      var c := WtStopSending(id, code);
      SessionTotalsSnoc(SpeakerOf(s).limits, s.emitted, c);
      EmitStreamKeeps(s, StopSending(s, id, code), c, id, s.streams[id]);
    }
  }

  lemma NoticesKeep(s: Session, payload: seq<Byte>)
    requires SendInv(s)
    ensures SendInv(SendDatagram(s, payload)) && SendInv(DrainSession(s))
  {
    if !s.terminated {
      EmitNoticeKeeps(s, SendDatagram(s, payload), Datagram(payload));
      EmitNoticeKeeps(s, DrainSession(s), WtDrainSession);
    }
  }

  // ---------- Capsule handlers ----------

  lemma ReplenishKeeps(s: Session, id: StreamId)
    requires SendInv(s) && ReceivableDataCapsule(id, s.cfg.isServer)
    ensures SendInv(MaybeSendMaxStreamData(MaybeSendMaxData(s), id))
    ensures MaybeSendMaxStreamData(MaybeSendMaxData(s), id).terminated == s.terminated
  {
    MaxDataKeeps(s);
    MaxStreamDataKeeps(MaybeSendMaxData(s), id);
  }

  lemma RecvChunkKeeps(s: Session, id: StreamId, data: seq<Byte>, fin: bool)
    requires SendInv(s) && id in s.streams
    requires s.bytesReceived + |data| <= s.maxDataRemote
    requires s.streams[id].bytesReceived + |data| <= s.streams[id].maxRemote
    ensures SendInv(RecvChunk(s, id, data, fin))
  {
    hide Legal, StreamView, SessionTotals;
    assert SendOk(s, id);
    PutKeeps(s, RecvChunk(s, id, data, fin), id, RecvChunk(s, id, data, fin).streams[id]);
  }

  lemma AcceptKeeps(s: Session, id: StreamId, data: seq<Byte>, fin: bool)
    requires SendInv(s) && !s.terminated && id in s.streams && ReceivableDataCapsule(id, s.cfg.isServer)
    ensures SendInv(AcceptWtStream(s, id, data, fin))
  {
    hide MaybeSendMaxData, MaybeSendMaxStreamData, MaybeRelease, Legal, StreamView;
    var st := s.streams[id];
    if || (data != [] && RecvDone(st))
       || s.bytesReceived + |data| > s.maxDataRemote
       || st.bytesReceived + |data| > st.maxRemote {
      ReportKeeps(s, WT_STREAM_STATE_ERROR);
      ReportKeeps(s, WT_FLOW_CONTROL_ERROR);
    } else {
      RecvChunkKeeps(s, id, data, fin);
      var s1 := RecvChunk(s, id, data, fin);
      ReplenishKeeps(s1, id);
      if fin { MaybeReleaseKeeps(MaybeSendMaxStreamData(MaybeSendMaxData(s1), id), id); }
    }
  }

  lemma NoteResetKeeps(s: Session, id: StreamId, code: ErrorCode)
    requires SendInv(s) && id in s.streams
    ensures SendInv(NoteReset(s, id, code))
  {
    hide Legal, StreamView, SessionTotals;
    assert SendOk(s, id);
    PutKeeps(s, NoteReset(s, id, code), id, s.streams[id].(recvState := ResetRecvd));
  }

  lemma RecvResetKeeps(s: Session, id: StreamId, code: ErrorCode)
    requires SendInv(s) && !s.terminated && id in s.streams
    ensures SendInv(RecvReset(s, id, code))
  {
    NoteResetKeeps(s, id, code);
    hide SendInv, MaybeRelease;
    MaybeReleaseKeeps(NoteReset(s, id, code), id);
  }

  /** A freed stream is recalled as released; the cap on that record is the one exception. */
  predicate Recalls(s: Session, id: StreamId) { id in s.freed ==> id in s.released || id in s.streams }

  lemma HandleWtStreamKeeps(s: Session, id: StreamId, data: seq<Byte>, fin: bool)
    requires SendInv(s) && !s.terminated
    requires ReceivableDataCapsule(id, s.cfg.isServer) ==> Recalls(s, id)
    ensures SendInv(HandleWtStream(s, id, data, fin))
  {
    ReportKeeps(s, WT_STREAM_STATE_ERROR);
    ReportKeeps(s, WT_FLOW_CONTROL_ERROR);
    if ReceivableDataCapsule(id, s.cfg.isServer) {
      if id in s.streams {
        AcceptKeeps(s, id, data, fin);
      } else if id !in s.released && !ExceedsStreamLimit(s, id) {
        CreateKeeps(s, id);
        AcceptKeeps(Put(s, id, NewStream(s, id)), id, data, fin);
      }
    }
  }

  lemma HandleWtResetStreamKeeps(s: Session, id: StreamId, code: ErrorCode, size: nat)
    requires SendInv(s) && !s.terminated
    requires ReceivableDataCapsule(id, s.cfg.isServer) ==> Recalls(s, id)
    ensures SendInv(HandleWtResetStream(s, id, code, size))
  {
    ReportKeeps(s, WT_STREAM_STATE_ERROR);
    ReportKeeps(s, WT_FLOW_CONTROL_ERROR);
    if ReceivableDataCapsule(id, s.cfg.isServer) {
      if id in s.streams {
        RecvResetKeeps(s, id, code);
      } else if id !in s.released && size == 0 && !ExceedsStreamLimit(s, id) {
        CreateKeeps(s, id);
        RecvResetKeeps(Put(s, id, NewStream(s, id)), id, code);
      }
    }
  }

  lemma NoteStopKeeps(s: Session, id: StreamId, code: ErrorCode)
    requires SendInv(s)
    ensures SendInv(NoteStop(s, id, code))
    ensures NoteStop(s, id, code).terminated == s.terminated && NoteStop(s, id, code).cfg == s.cfg
  {
    hide Legal, StreamView, SessionTotals;
    if id in s.streams {
      assert SendOk(s, id);
      PutKeeps(s, NoteStop(s, id, code), id, s.streams[id].(stopReceived := true));
    } else {
      QuietKeeps(s, NoteStop(s, id, code));
    }
  }

  lemma HandleWtStopSendingKeeps(s: Session, id: StreamId, code: ErrorCode)
    requires SendInv(s) && !s.terminated
    ensures SendInv(HandleWtStopSending(s, id, code))
  {
    hide SendInv, ResetStream, ReportError, NoteStop;
    ReportKeeps(s, WT_STREAM_STATE_ERROR);
    NoteStopKeeps(s, id, code);
    if ReceivableFlowCapsule(id, s.cfg.isServer) {
      ResetStreamKeeps(NoteStop(s, id, code), id, code);
    }
  }

  lemma HandleWtMaxDataKeeps(s: Session, max: nat)
    requires SendInv(s) && !s.terminated
    ensures SendInv(HandleWtMaxData(s, max))
  {
    ReportKeeps(s, WT_FLOW_CONTROL_ERROR);
    var s1 := s.(receivedMaxData := Some(max));
    QuietKeeps(s, s1);
    if max > s.maxDataLocal {
      QuietKeeps(s, s1.(maxDataLocal := max, dataBlockedSent := false));
      FlushKeeps(s1.(maxDataLocal := max, dataBlockedSent := false));
    }
  }

  lemma HandleWtMaxStreamDataKeeps(s: Session, id: StreamId, max: nat)
    requires SendInv(s) && !s.terminated
    ensures SendInv(HandleWtMaxStreamData(s, id, max))
  {
    hide Legal, StreamView, SessionTotals, FlushPending, CloseSession;
    ReportKeeps(s, WT_STREAM_STATE_ERROR);
    var s1 := s.(receivedMaxStreamData := s.receivedMaxStreamData[id := max]);
    QuietKeeps(s, s1);
    if id in s.streams && max > s.streams[id].maxLocal {
      assert SendOk(s, id);
      var st := s.streams[id].(maxLocal := max, dataBlockedSent := false);
      PutKeeps(s, Put(s, id, st), id, st);
      PutKeeps(s, Put(s1, id, st), id, st);
      FlushKeeps(Put(s, id, st));
      FlushKeeps(Put(s1, id, st));
    }
  }

  lemma HandleWtMaxStreamsKeeps(s: Session, bidi: bool, max: nat)
    requires SendInv(s) && !s.terminated
    ensures SendInv(HandleWtMaxStreams(s, bidi, max))
  {
    ReportKeeps(s, WT_FLOW_CONTROL_ERROR);
    var n := Count(s, bidi);
    if max <= MAX_STREAMS {
      QuietKeeps(s, WithCount(s, bidi, n.(received := Some(max), maxLocal := Max(n.maxLocal, max),
                                          blockedSent := n.blockedSent && max <= n.maxLocal)));
    }
  }

  predicate Creates(c: Capsule) { c.WtStream? || c.WtResetStream? }

  lemma DispatchKeeps(s: Session, c: Capsule)
    requires SendInv(s) && !s.terminated
    requires Creates(c) && ReceivableDataCapsule(c.id, s.cfg.isServer) ==> Recalls(s, c.id)
    ensures SendInv(Dispatch(s, c))
  {
    hide SendOk, Legal, SessionTotals;
    match c
    case Datagram(payload) => PushKeeps(s, DatagramReceived(payload));
    case WtResetStream(id, code, size) => HandleWtResetStreamKeeps(s, id, code, size);
    case WtStopSending(id, code) => HandleWtStopSendingKeeps(s, id, code);
    case WtStream(id, data, fin) => HandleWtStreamKeeps(s, id, data, fin);
    case WtMaxData(max) => HandleWtMaxDataKeeps(s, max);
    case WtMaxStreamData(id, max) => HandleWtMaxStreamDataKeeps(s, id, max);
    case WtMaxStreams(bidi, max) => HandleWtMaxStreamsKeeps(s, bidi, max);
    case WtDataBlocked(_) =>
    case WtStreamDataBlocked(_, _) => ReportKeeps(s, WT_STREAM_STATE_ERROR);
    case WtStreamsBlocked(_, _) => ReportKeeps(s, WT_FLOW_CONTROL_ERROR);
    case WtCloseSession(code, message) => QuietKeeps(s, HandleWtCloseSession(s, code, message));
    case WtDrainSession => PushKeeps(s, SessionDraining);
  }

  /** Whatever capsule arrives, what this endpoint queues in answer stays in the language. */
  lemma ReceiveKeepsSending(s: Session, c: Capsule)
    requires SendInv(s)
    requires Creates(c) && ReceivableDataCapsule(c.id, s.cfg.isServer) ==> Recalls(s, c.id)
    ensures SendInv(Receive(s, c))
  {
    if !s.terminated {
      QuietKeeps(s, s.(received := s.received + [c]));
      DispatchKeeps(s.(received := s.received + [c]), c);
    }
  }
}
