/**
 * The session as the object it is: fields updated in place, step by step, in the order of
 * the source. Every method is proved against its counterpart in `Engine` and `Endpoint`, so
 * that everything proved about runs holds of this object.
 */
module SessionObject {
  import opened Capsules
  import Utf8
  import opened Engine
  import opened Endpoint
  import opened Conservation

  class WtSession {
    const cfg: Config
    var peer: PeerCredit
    var isEstablished: bool
    var isTerminated: bool
    var bytesSent: nat
    var maxDataLocal: nat
    var receivedMaxData: Option<nat>
    var bytesReceived: nat
    var maxDataRemote: nat
    var bidi: StreamCount
    var uni: StreamCount
    var streams: map<StreamId, Stream>
    var receivedMaxStreamData: map<StreamId, nat>
    var receivedStops: set<StreamId>
    var sentStops: set<StreamId>
    var released: set<StreamId>
    var dataBlockedSent: bool
    /** Capsules queued on the CONNECT stream, and events queued for the application. */
    var outbox: seq<Capsule>
    var events: seq<Event>
    ghost var received: seq<Capsule>
    ghost var freed: set<StreamId>

    ghost function State(): Session
      reads this
    {
      Session(cfg, peer, isEstablished, isTerminated, bytesSent, maxDataLocal, receivedMaxData,
              bytesReceived, maxDataRemote, bidi, uni, streams, receivedMaxStreamData, receivedStops,
              sentStops, released, dataBlockedSent, outbox, received, events, freed)
    }

    constructor (cfg: Config, peerCfg: Config, header: bool)
      ensures State() == NewSession(cfg, peerCfg, header)
    {
      this.cfg := cfg;
      peer := CreditFrom(peerCfg, header);
      isEstablished, isTerminated := false, false;
      bytesSent, bytesReceived := 0, 0;
      maxDataLocal, maxDataRemote := peerCfg.initData, cfg.initData;
      receivedMaxData := if peerCfg.initData > 0 then Some(peerCfg.initData) else None;
      bidi := InitialCount(peerCfg.initBidi, cfg.initBidi);
      uni := InitialCount(peerCfg.initUni, cfg.initUni);
      streams, receivedMaxStreamData := map[], map[];
      receivedStops, sentStops, released := {}, {}, {};
      dataBlockedSent := false;
      outbox, events := [], [];
      received, freed := [], {};
    }

    // ---------- Output ----------

    method SendCapsule(c: Capsule)
      modifies this`outbox
      ensures State() == Emit(old(State()), c)
    {
      outbox := outbox + [c];
    }

    method PushEvent(e: Event)
      modifies this`events
      ensures State() == Push(old(State()), e)
    {
      events := events + [e];
    }

    // ---------- Ending a session ----------

    method CloseSession(code: ErrorCode, message: seq<Byte>)
      modifies this
      ensures State() == Engine.CloseSession(old(State()), code, message)
    {
      if isTerminated {
        return;
      }
      var length := Utf8.RetreatUntilValid(message, MAX_MESSAGE);
      Utf8.CutIsLongest(message, MAX_MESSAGE, length);
      SendCapsule(WtCloseSession(code, message[..length]));
      isTerminated := true;
      isEstablished := false;
    }

    method ReportError(code: ErrorCode)
      modifies this
      ensures State() == Engine.ReportError(old(State()), code)
    {
      PushEvent(Error(code));
      CloseSession(code, []);
    }

    /** Limits that decrease or exceed their ceiling close the session without an event. */
    method ReportFlowControlError()
      modifies this
      ensures State() == ReportLimitError(old(State()))
    {
      CloseSession(WT_FLOW_CONTROL_ERROR, []);
    }

    // ---------- Credit and release ----------

    method MaybeSendMaxData()
      modifies this
      ensures State() == Engine.MaybeSendMaxData(old(State()))
    {
      if isTerminated || cfg.initData == 0 || bytesReceived <= maxDataRemote / 2 {
        return;
      }
      var updated := bytesReceived + cfg.initData;
      if updated > MAX_VARINT {
        updated := MAX_VARINT;
      }
      if updated <= maxDataRemote {
        return;
      }
      maxDataRemote := updated;
      SendCapsule(WtMaxData(updated));
    }

    method MaybeSendMaxStreamData(id: StreamId)
      modifies this
      ensures State() == Engine.MaybeSendMaxStreamData(old(State()), id)
    {
      if isTerminated || id in sentStops || id !in streams {
        return;
      }
      var st := streams[id];
      if cfg.initStreamData == 0 || st.bytesReceived <= st.maxRemote / 2 {
        return;
      }
      var updated := st.bytesReceived + cfg.initStreamData;
      if updated > MAX_VARINT {
        updated := MAX_VARINT;
      }
      if updated <= st.maxRemote {
        return;
      }
      streams := streams[id := st.(maxRemote := updated)];
      SendCapsule(WtMaxStreamData(id, updated));
    }

    method MaybeReleaseStream(id: StreamId)
      modifies this
      ensures State() == MaybeRelease(old(State()), id)
    {
      hide GrantStream, Forget;
      if id !in streams {
        return;
      }
      var st := streams[id];
      var sendDone := st.sendState == DataSent || st.sendState == ResetSent;
      var recvDone := st.recvState == DataRecvd || st.recvState == ResetRecvd;
      var releasable := false;
      if st.isUni {
        if st.isLocal { releasable := sendDone; } else { releasable := recvDone; }
      } else {
        releasable := sendDone && recvDone;
      }
      if !releasable {
        return;
      }
      ForgetEntry(id);
      if !st.isLocal {
        AdvertiseOneMoreStream(!st.isUni);
      }
    }

    method ForgetEntry(id: StreamId)
      requires id in streams
      modifies this
      ensures State() == Forget(old(State()), id)
    {
      var sendOnly := streams[id].isLocal && streams[id].isUni;
      if !sendOnly && |released| < MAX_RECEIVED_MAP_ENTRIES {
        released := released + {id};
      }
      streams := streams - {id};
      freed := freed + {id};
    }

    method AdvertiseOneMoreStream(isBidi: bool)
      modifies this
      ensures State() == GrantStream(old(State()), isBidi)
    {
      if isBidi {
        if bidi.maxRemote < MAX_STREAMS {
          bidi := bidi.(maxRemote := bidi.maxRemote + 1);
          SendCapsule(WtMaxStreams(true, bidi.maxRemote));
        }
      } else if uni.maxRemote < MAX_STREAMS {
        uni := uni.(maxRemote := uni.maxRemote + 1);
        SendCapsule(WtMaxStreams(false, uni.maxRemote));
      }
    }

    // ---------- Sending under flow control ----------

    /** What session and stream credit allow of `size` bytes. */
    method Credit(id: StreamId, size: nat) returns (sessionAvail: nat, streamAvail: nat)
      requires id in streams
      ensures sessionAvail == SessionAvail(State(), size)
      ensures streamAvail == StreamAvail(streams[id], size)
      ensures sessionAvail <= size && streamAvail <= size
    {
      sessionAvail, streamAvail := 0, 0;
      if bytesSent <= maxDataLocal {
        var remaining := maxDataLocal - bytesSent;
        sessionAvail := if remaining > size then size else remaining;
      }
      var st := streams[id];
      if st.bytesSent <= st.maxLocal {
        var remaining := st.maxLocal - st.bytesSent;
        streamAvail := if remaining > size then size else remaining;
      }
    }

    /** Queues a WT_STREAM and counts its bytes at both levels. */
    method SendStreamCapsule(id: StreamId, data: seq<Byte>, fin: bool)
      requires id in streams
      modifies this
      ensures State() == SendChunk(old(State()), id, data, fin)
      ensures id in streams && streams[id].pending == old(streams)[id].pending
      ensures isTerminated == old(isTerminated) && bytesSent == old(bytesSent) + |data|
    {
      SendCapsule(WtStream(id, data, fin));
      bytesSent := bytesSent + |data|;
      var st := streams[id];
      streams := streams[id := st.(bytesSent := st.bytesSent + |data|,
                                   sendState := if fin then DataSent else st.sendState)];
    }

    /** The innermost loop of flush_pending_sends: one stream, until its credit or its queue ends. */
    method DrainStream(id: StreamId) returns (progressed: bool)
      requires !isTerminated
      modifies this
      ensures State() == Drain(old(State()), id)
      ensures progressed <==> bytesSent > old(bytesSent)
      ensures !isTerminated
    {
      hide MaybeRelease, SendChunk;
      ghost var s := State();
      progressed := false;
      while id in streams && streams[id].pending != []
        invariant !isTerminated
        invariant Drain(State(), id) == Drain(s, id)
        invariant bytesSent >= s.bytesSent && (progressed <==> bytesSent > s.bytesSent)
        decreases if id in streams then |streams[id].pending| else 0
      {
        var p := streams[id].pending;
        var sessionAvail, streamAvail := Credit(id, |p[0].data|);
        var sendable := if sessionAvail < streamAvail then sessionAvail else streamAvail;
        if sendable == 0 {
          break;
        }
        progressed := true;
        if sendable < |p[0].data| {
          streams := streams[id := streams[id].(pending := [PendingSend(p[0].data[sendable..], p[0].fin)] + p[1..])];
          SendStreamCapsule(id, p[0].data[..sendable], false);
          assert State() == Drain(s, id);
          return;
        }
        streams := streams[id := streams[id].(pending := p[1..])];
        SendStreamCapsule(id, p[0].data, p[0].fin);
        if p[0].fin {
          MaybeReleaseKeepsCredit(State(), id);
          MaybeReleaseStream(id);
          assert State() == Drain(s, id);
          return;
        }
      }
    }

    /** One walk over a copy of the stream IDs; entries may be released on the way. */
    method FlushWalk() returns (progressed: bool)
      requires !isTerminated
      modifies this
      ensures State() == FlushPass(old(State()), SortedKeys(old(streams).Keys))
      ensures progressed <==> bytesSent > old(bytesSent)
      ensures !isTerminated
    {
      hide Drain, SortedKeys;
      ghost var s := State();
      progressed := false;
      var ids := SortedKeys(streams.Keys);
      var i := 0;
      assert ids[0..] == ids;
      while i < |ids|
        invariant 0 <= i <= |ids| && !isTerminated
        invariant FlushPass(State(), ids[i..]) == FlushPass(s, ids)
        invariant bytesSent >= s.bytesSent && (progressed <==> bytesSent > s.bytesSent)
      {
        var id := ids[i];
        assert ids[i..][1..] == ids[i + 1..];
        if id in streams {
          if SendDone(streams[id]) {
            streams := streams[id := streams[id].(pending := [])];
          } else {
            DrainProgress(State(), id);
            var sent := DrainStream(id);
            progressed := progressed || sent;
          }
        }
        i := i + 1;
      }
    }

    method FlushPendingSends()
      modifies this
      ensures State() == FlushPending(old(State()))
    {
      if isTerminated {
        return;
      }
      ghost var s := State();
      var progressed := true;
      while progressed
        invariant !isTerminated
        invariant if progressed then FlushPending(State()) == FlushPending(s) else State() == FlushPending(s)
        decreases progressed, if bytesSent <= maxDataLocal then maxDataLocal - bytesSent else 0
      {
        FlushPassProgress(State(), SortedKeys(streams.Keys));
        progressed := FlushWalk();
      }
    }

    // ---------- API calls ----------

    method OpenStream(isUni: bool) returns (id: Option<StreamId>)
      modifies this
      ensures (State(), id) == Engine.OpenStream(old(State()), isUni)
    {
      if !isEstablished {
        return None;
      }
      if isUni {
        if uni.next >= uni.maxLocal {
          if !uni.blockedSent {
            SendCapsule(WtStreamsBlocked(false, uni.maxLocal));
            uni := uni.(blockedSent := true);
          }
          return None;
        }
      } else {
        if bidi.next >= bidi.maxLocal {
          if !bidi.blockedSent {
            SendCapsule(WtStreamsBlocked(true, bidi.maxLocal));
            bidi := bidi.(blockedSent := true);
          }
          return None;
        }
      }
      var candidate := StreamId(if isUni then uni.next else bidi.next, isUni, cfg.isServer);
      if candidate in streams {
        return None;
      }
      if isUni { uni := uni.(next := uni.next + 1); } else { bidi := bidi.(next := bidi.next + 1); }
      streams := streams[candidate := NewEntry(candidate)];
      return Some(candidate);
    }

    /** The credit of a new stream: the peer's initial value, or an earlier WT_MAX_STREAM_DATA if larger. */
    function NewEntry(id: StreamId): (st: Stream)
      reads this
      ensures st == NewStream(State(), id)
    {
      var isLocal := id.server == cfg.isServer;
      var credit := if id.uni then peer.uni else if isLocal then peer.bidiLocal else peer.bidiRemote;
      Stream(isLocal, id.uni, Ready, 0,
             if id in receivedMaxStreamData && receivedMaxStreamData[id] > credit then receivedMaxStreamData[id] else credit,
             Recv, 0, cfg.initStreamData, [], false, false)
    }

    method ReportBlockedCredit(id: StreamId, sessionAvail: nat, streamAvail: nat)
      requires id in streams
      modifies this
      ensures State() == ReportBlocked(old(State()), id, sessionAvail, streamAvail)
      ensures id in streams && streams[id].pending == old(streams)[id].pending
    {
      hide Emit;
      if sessionAvail <= streamAvail && !dataBlockedSent {
        SendCapsule(WtDataBlocked(maxDataLocal));
        dataBlockedSent := true;
      }
      assert State() == if sessionAvail <= streamAvail then ReportSessionBlocked(old(State())) else old(State());
      if streamAvail <= sessionAvail && !streams[id].dataBlockedSent {
        SendCapsule(WtStreamDataBlocked(id, streams[id].maxLocal));
        streams := streams[id := streams[id].(dataBlockedSent := true)];
      }
    }

    method SendStreamData(id: StreamId, data: seq<Byte>, fin: bool)
      modifies this
      ensures State() == Engine.SendStreamData(old(State()), id, data, fin)
    {
      hide SendChunk, ReportBlocked, MaybeRelease;
      if isTerminated || id !in streams {
        return;
      }
      var st := streams[id];
      if !(st.isLocal || !st.isUni) || st.sendState == ResetSent || st.sendState == DataSent {
        return;
      }
      if st.pending != [] {
        if st.pending[|st.pending| - 1].fin {
          return;
        }
        streams := streams[id := st.(pending := st.pending + [PendingSend(data, fin)])];
        return;
      }
      var sessionAvail, streamAvail := Credit(id, |data|);
      var sendable := if sessionAvail < streamAvail then sessionAvail else streamAvail;
      if sendable < |data| {
        SendFirstPart(id, data, fin, sendable, sessionAvail, streamAvail);
        return;
      }
      SendStreamCapsule(id, data, fin);
      if fin {
        MaybeReleaseStream(id);
      }
    }

    /** What credit allows goes out; the rest is queued. */
    method SendFirstPart(id: StreamId, data: seq<Byte>, fin: bool, sendable: nat, sessionAvail: nat, streamAvail: nat)
      requires id in streams && streams[id].pending == [] && AcceptsSend(State(), id)
      requires sessionAvail == SessionAvail(State(), |data|) && streamAvail == StreamAvail(streams[id], |data|)
      requires sendable == Min(sessionAvail, streamAvail) < |data|
      modifies this
      ensures State() == Engine.SendStreamData(old(State()), id, data, fin)
    {
      ghost var s := State();
      assert sendable == Sendable(s, s.streams[id], |data|);
      hide SendChunk, ReportBlocked, AcceptsSend, SessionAvail, StreamAvail, Sendable,
           Engine.SendStreamData, SetPending, SendableStream;
      if sendable > 0 {
        SendStreamCapsule(id, data[..sendable], false);
      }
      ghost var s1 := State();
      assert s1 == FirstPart(s, id, data);
      ReportBlockedCredit(id, sessionAvail, streamAvail);
      QueueRest(id, PendingSend(data[sendable..], fin));
      PartIsThis(s, id, data, fin);
    }

    method QueueRest(id: StreamId, p: PendingSend)
      requires id in streams && streams[id].pending == []
      modifies this
      ensures State() == SetPending(old(State()), id, [p])
    {
      streams := streams[id := streams[id].(pending := streams[id].pending + [p])];
      assert old(streams)[id].pending + [p] == [p];
    }

    method ResetStream(id: StreamId, code: ErrorCode)
      modifies this
      ensures State() == Engine.ResetStream(old(State()), id, code)
    {
      hide MaybeRelease;
      if isTerminated || id !in streams {
        return;
      }
      var st := streams[id];
      if st.sendState == ResetSent || st.sendState == DataSent {
        return;
      }
      SendCapsule(WtResetStream(id, code, st.bytesSent));
      streams := streams[id := st.(sendState := ResetSent, pending := [])];
      MaybeReleaseStream(id);
    }

    method StopSending(id: StreamId, code: ErrorCode)
      modifies this
      ensures State() == Engine.StopSending(old(State()), id, code)
    {
      if isTerminated || id !in streams || id in sentStops {
        return;
      }
      sentStops := sentStops + {id};
      SendCapsule(WtStopSending(id, code));
    }

    method SendDatagram(payload: seq<Byte>)
      modifies this
      ensures State() == Engine.SendDatagram(old(State()), payload)
    {
      if !isTerminated {
        SendCapsule(Datagram(payload));
      }
    }

    method DrainSession()
      modifies this
      ensures State() == Engine.DrainSession(old(State()))
    {
      if !isTerminated {
        SendCapsule(WtDrainSession);
      }
    }

    /** The 2xx response: the session is up, and the configured limits are stated once more. */
    method Establish(credit: PeerCredit)
      modifies this
      ensures State() == Endpoint.Establish(old(State()), credit)
    {
      peer := credit;
      isEstablished := true;
      SendCapsule(WtMaxData(cfg.initData));
      SendCapsule(WtMaxStreams(true, cfg.initBidi));
      SendCapsule(WtMaxStreams(false, cfg.initUni));
    }

    // ---------- Capsule handlers ----------

    method HandleWtStream(id: StreamId, data: seq<Byte>, fin: bool)
      modifies this
      ensures State() == Engine.HandleWtStream(old(State()), id, data, fin)
    {
      hide Engine.ReportError, AcceptWtStream, NewStream;
      if !ReceivableDataCapsule(id, cfg.isServer) {
        ReportError(WT_STREAM_STATE_ERROR);
        return;
      }
      if id !in streams {
        if id in released {
          if data != [] {
            ReportError(WT_STREAM_STATE_ERROR);
          }
          return;
        }
        if id.counter + 1 > (if id.uni then uni.maxRemote else bidi.maxRemote) {
          ReportError(WT_FLOW_CONTROL_ERROR);
          return;
        }
        streams := streams[id := NewEntry(id)];
      }
      AcceptStreamData(id, data, fin);
    }

    method AcceptStreamData(id: StreamId, data: seq<Byte>, fin: bool)
      requires id in streams
      modifies this
      ensures State() == AcceptWtStream(old(State()), id, data, fin)
    {
      hide Engine.ReportError, MaybeRelease, Engine.MaybeSendMaxData, Engine.MaybeSendMaxStreamData;
      var st := streams[id];
      if data != [] && (st.recvState == DataRecvd || st.recvState == ResetRecvd) {
        ReportError(WT_STREAM_STATE_ERROR);
        return;
      }
      if bytesReceived + |data| > maxDataRemote || st.bytesReceived + |data| > st.maxRemote {
        ReportError(WT_FLOW_CONTROL_ERROR);
        return;
      }
      ReceiveChunk(id, data, fin);
      MaybeSendMaxData();
      MaybeSendMaxStreamData(id);
      if fin {
        MaybeReleaseStream(id);
      }
    }

    /** The event and the accounting. The receive side ends here too: nothing reads it before the release. */
    method ReceiveChunk(id: StreamId, data: seq<Byte>, fin: bool)
      requires id in streams
      modifies this
      ensures State() == RecvChunk(old(State()), id, data, fin)
    {
      if data != [] || fin {
        PushEvent(StreamData(id, data, fin));
      }
      var st := streams[id];
      streams := streams[id := st.(bytesReceived := st.bytesReceived + |data|,
                                   recvState := if fin then DataRecvd else st.recvState)];
      bytesReceived := bytesReceived + |data|;
    }

    method HandleWtResetStream(id: StreamId, code: ErrorCode, reliableSize: nat)
      modifies this
      ensures State() == Engine.HandleWtResetStream(old(State()), id, code, reliableSize)
    {
      hide Engine.ReportError, RecvReset, NewStream;
      if !ReceivableDataCapsule(id, cfg.isServer) {
        ReportError(WT_STREAM_STATE_ERROR);
        return;
      }
      if id !in streams {
        if id in released || reliableSize > 0 {
          ReportError(WT_STREAM_STATE_ERROR);
          return;
        }
        if id.counter + 1 > (if id.uni then uni.maxRemote else bidi.maxRemote) {
          ReportError(WT_FLOW_CONTROL_ERROR);
          return;
        }
        streams := streams[id := NewEntry(id)];
      } else {
        var st := streams[id];
        if st.recvState == DataRecvd || st.recvState == ResetRecvd || reliableSize != st.bytesReceived {
          ReportError(WT_STREAM_STATE_ERROR);
          return;
        }
      }
      EndReceiving(id, code);
    }

    method EndReceiving(id: StreamId, code: ErrorCode)
      requires id in streams
      modifies this
      ensures State() == RecvReset(old(State()), id, code)
    {
      hide MaybeRelease;
      streams := streams[id := streams[id].(recvState := ResetRecvd)];
      PushEvent(StreamReset(id, code));
      MaybeReleaseStream(id);
    }

    method HandleWtStopSending(id: StreamId, code: ErrorCode)
      modifies this
      ensures State() == Engine.HandleWtStopSending(old(State()), id, code)
    {
      hide Engine.ReportError, Engine.ResetStream, NoteStop;
      if !ReceivableFlowCapsule(id, cfg.isServer) {
        ReportError(WT_STREAM_STATE_ERROR);
        return;
      }
      var known := id in streams;
      if id in receivedStops || (known && streams[id].stopReceived) {
        ReportError(WT_STREAM_STATE_ERROR);
        return;
      }
      RecordStop(id, code);
      if known {
        ResetStream(id, code);
      }
    }

    method RecordStop(id: StreamId, code: ErrorCode)
      modifies this
      ensures State() == NoteStop(old(State()), id, code)
    {
      var known := id in streams;
      if known {
        streams := streams[id := streams[id].(stopReceived := true)];
      }
      if |receivedStops| < MAX_RECEIVED_MAP_ENTRIES {
        receivedStops := receivedStops + {id};
      } else if !known {
        return;
      }
      PushEvent(StopSendingReceived(id, code));
    }

    method HandleWtMaxData(max: nat)
      modifies this
      ensures State() == Engine.HandleWtMaxData(old(State()), max)
    {
      hide ReportLimitError, FlushPending;
      if receivedMaxData.Some? && max < receivedMaxData.value {
        ReportFlowControlError();
        return;
      }
      receivedMaxData := Some(max);
      if max > maxDataLocal {
        maxDataLocal := max;
        dataBlockedSent := false;
        assert State() == old(State()).(receivedMaxData := Some(max), maxDataLocal := max, dataBlockedSent := false);
        FlushPendingSends();
      }
    }

    method HandleWtMaxStreamData(id: StreamId, max: nat)
      modifies this
      ensures State() == Engine.HandleWtMaxStreamData(old(State()), id, max)
    {
      hide Engine.ReportError, ReportLimitError, FlushPending;
      if !ReceivableFlowCapsule(id, cfg.isServer) {
        ReportError(WT_STREAM_STATE_ERROR);
        return;
      }
      if id in receivedStops || (id in streams && streams[id].stopReceived) {
        ReportError(WT_STREAM_STATE_ERROR);
        return;
      }
      var previous := None;
      if id in receivedMaxStreamData {
        previous := Some(receivedMaxStreamData[id]);
      } else if id in streams {
        previous := Some(streams[id].maxLocal);
      } else {
        previous := if id.uni then peer.announcedUni
                    else if id.server == cfg.isServer then peer.announcedBidiLocal
                    else peer.announcedBidiRemote;
      }
      assert previous == PreviousMaxStreamData(State(), id);
      hide PreviousMaxStreamData;
      if previous.Some? && max < previous.value {
        ReportFlowControlError();
        return;
      }
      RecordMaxStreamData(id, max);
    }

    method RecordMaxStreamData(id: StreamId, max: nat)
      requires ReceivableFlowCapsule(id, cfg.isServer) && !HasReceivedStop(State(), id)
      requires !(PreviousMaxStreamData(State(), id).Some? && max < PreviousMaxStreamData(State(), id).value)
      modifies this
      ensures State() == Engine.HandleWtMaxStreamData(old(State()), id, max)
    {
      hide FlushPending, PreviousMaxStreamData, HasReceivedStop, Engine.ReportError, ReportLimitError;
      if id in receivedMaxStreamData || |receivedMaxStreamData| < MAX_RECEIVED_MAP_ENTRIES {
        receivedMaxStreamData := receivedMaxStreamData[id := max];
      }
      if id in streams && max > streams[id].maxLocal {
        streams := streams[id := streams[id].(maxLocal := max, dataBlockedSent := false)];
        FlushPendingSends();
      }
    }

    method HandleWtMaxStreams(isBidi: bool, max: nat)
      modifies this
      ensures State() == Engine.HandleWtMaxStreams(old(State()), isBidi, max)
    {
      if max > MAX_STREAMS {
        ReportFlowControlError();
        return;
      }
      var n := if isBidi then bidi else uni;
      if n.received.Some? && max < n.received.value {
        ReportFlowControlError();
        return;
      }
      n := n.(received := Some(max));
      if max > n.maxLocal {
        n := n.(maxLocal := max, blockedSent := false);
      }
      if isBidi { bidi := n; } else { uni := n; }
    }

    method HandleWtStreamDataBlocked(id: StreamId)
      modifies this
      ensures State() == Engine.HandleWtStreamDataBlocked(old(State()), id)
    {
      if || !ReceivableDataCapsule(id, cfg.isServer)
         || (id in streams && (streams[id].recvState == DataRecvd || streams[id].recvState == ResetRecvd))
         || id in released {
        ReportError(WT_STREAM_STATE_ERROR);
      }
    }

    method HandleWtStreamsBlocked(max: nat)
      modifies this
      ensures State() == Engine.HandleWtStreamsBlocked(old(State()), max)
    {
      if max > MAX_STREAMS {
        ReportFlowControlError();
      }
    }

    method HandleWtCloseSession(code: ErrorCode, message: seq<Byte>)
      modifies this
      ensures State() == Engine.HandleWtCloseSession(old(State()), code, message)
    {
      PushEvent(SessionClosed(code, message));
      isTerminated := true;
      isEstablished := false;
    }

    /** One complete capsule. A session that is over throws away whatever still arrives. */
    method HandleCapsule(c: Capsule)
      modifies this
      ensures State() == Receive(old(State()), c)
    {
      if isTerminated {
        return;
      }
      received := received + [c];
      Dispatch(c);
    }

    method Dispatch(c: Capsule)
      modifies this
      ensures State() == Engine.Dispatch(old(State()), c)
    {
      hide Engine.HandleWtStream, Engine.HandleWtResetStream, Engine.HandleWtStopSending, Engine.HandleWtMaxData,
           Engine.HandleWtMaxStreamData, Engine.HandleWtMaxStreams, Engine.HandleWtStreamDataBlocked,
           Engine.HandleWtStreamsBlocked, Engine.HandleWtCloseSession;
      match c {
        case Datagram(payload) => PushEvent(DatagramReceived(payload));
        case WtResetStream(id, code, size) => HandleWtResetStream(id, code, size);
        case WtStopSending(id, code) => HandleWtStopSending(id, code);
        case WtStream(id, data, fin) => HandleWtStream(id, data, fin);
        case WtMaxData(max) => HandleWtMaxData(max);
        case WtMaxStreamData(id, max) => HandleWtMaxStreamData(id, max);
        case WtMaxStreams(isBidi, max) => HandleWtMaxStreams(isBidi, max);
        case WtDataBlocked(_) =>
        case WtStreamDataBlocked(id, _) => HandleWtStreamDataBlocked(id);
        case WtStreamsBlocked(_, max) => HandleWtStreamsBlocked(max);
        case WtCloseSession(code, message) => HandleWtCloseSession(code, message);
        case WtDrainSession => PushEvent(SessionDraining);
      }
    }
  }
}
