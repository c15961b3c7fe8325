/**
 * How large a capsule can get by what the application hands over: a WT_STREAM never carries
 * more than one call of send_stream_data did, and a datagram is one call of send_datagram.
 */
module Inputs {
  import opened Capsules
  import Utf8
  import opened Engine
  import opened Dialogue
  import opened Endpoint
  import opened Network
  import opened Delivery

  /** The most bytes one call may hand over: to send on each stream, as a datagram, as a closing message once cut. */
  datatype Sizes = Sizes(data: StreamId -> nat, datagram: nat, message: nat)

  predicate CallFits(call: Call, z: Sizes) {
    && (call.Send? ==> |call.data| <= z.data(call.id))
    && (call.SendDgram? ==> |call.payload| <= z.datagram)
    && (call.Close? ==> |Utf8.Cut(call.message, MAX_MESSAGE)| <= z.message)
  }

  predicate Small(c: Capsule, z: Sizes) {
    && (c.WtStream? ==> |c.data| <= z.data(c.id))
    && (c.Datagram? ==> |c.payload| <= z.datagram)
    && (c.WtCloseSession? ==> |c.message| <= z.message)
  }

  predicate AllSmall(log: seq<Capsule>, z: Sizes) { forall k :: 0 <= k < |log| ==> Small(log[k], z) }

  predicate SmallEntries(p: seq<PendingSend>, most: nat) { forall k :: 0 <= k < |p| ==> |p[k].data| <= most }

  ghost predicate Modest(s: Session, z: Sizes) {
    AllSmall(s.emitted, z) && forall id :: id in s.streams ==> SmallEntries(s.streams[id].pending, z.data(id))
  }

  // ---------- Steps ----------

  /** Every queue of `s'` was one of `s`, or is small. */
  ghost predicate QueuesSmall(s: Session, s': Session, z: Sizes) {
    forall id :: id in s'.streams ==>
      (id in s.streams && s'.streams[id].pending == s.streams[id].pending) || SmallEntries(s'.streams[id].pending, z.data(id))
  }

  lemma SilentModest(s: Session, s': Session, z: Sizes)
    requires Modest(s, z) && s'.emitted == s.emitted && QueuesSmall(s, s', z)
    ensures Modest(s', z)
  {
    hide SmallEntries, Small;
  }

  lemma EmitModest(s: Session, s': Session, c: Capsule, z: Sizes)
    requires Modest(s, z) && s'.emitted == s.emitted + [c] && Small(c, z) && QueuesSmall(s, s', z)
    ensures Modest(s', z)
  {
    hide SmallEntries, Small;
  }

  lemma CloseModest(s: Session, code: ErrorCode, message: seq<Byte>, z: Sizes)
    requires Modest(s, z) && |Utf8.Cut(message, MAX_MESSAGE)| <= z.message
    ensures Modest(CloseSession(s, code, message), z)
  {
    hide Modest, SmallEntries;
    var s' := CloseSession(s, code, message);
    if s' != s { EmitModest(s, s', s'.emitted[|s.emitted|], z); }
  }

  lemma ReportModest(s: Session, code: ErrorCode, z: Sizes)
    requires Modest(s, z)
    ensures Modest(ReportError(s, code), z) && Modest(ReportLimitError(s), z)
  {
    SilentModest(s, Push(s, Error(code)), z);
    hide Modest, CloseSession;
    CloseModest(Push(s, Error(code)), code, [], z);
    CloseModest(s, WT_FLOW_CONTROL_ERROR, [], z);
  }

  lemma CreditModest(s: Session, id: StreamId, z: Sizes)
    requires Modest(s, z)
    ensures Modest(MaybeSendMaxData(s), z) && Modest(MaybeSendMaxStreamData(s, id), z)
  {
    hide Modest, SmallEntries, ShouldReplenish, Replenished;
    var s1 := MaybeSendMaxData(s);
    if s1 != s { EmitModest(s, s1, WtMaxData(s1.maxDataRemote), z); }
    var s2 := MaybeSendMaxStreamData(s, id);
    if s2 != s { EmitModest(s, s2, WtMaxStreamData(id, s2.streams[id].maxRemote), z); }
  }

  lemma ReleaseModest(s: Session, id: StreamId, z: Sizes)
    requires Modest(s, z)
    ensures Modest(MaybeRelease(s, id), z)
  {
    hide Modest, SmallEntries;
    if id in s.streams && Releasable(s.streams[id]) {
      var bidi := !s.streams[id].isUni;
      var f := Forget(s, id);
      SilentModest(s, f, z);
      var g := GrantStream(f, bidi);
      if g != f { EmitModest(f, g, WtMaxStreams(bidi, Count(f, bidi).maxRemote + 1), z); }
    }
  }

  lemma ChunkModest(s: Session, id: StreamId, p: seq<PendingSend>, data: seq<Byte>, fin: bool, z: Sizes)
    requires Modest(s, z) && id in s.streams && |data| <= z.data(id) && SmallEntries(p, z.data(id))
    ensures Modest(SendChunk(SetPending(s, id, p), id, data, fin), z)
  {
    hide Modest, SmallEntries;
    EmitModest(s, SendChunk(SetPending(s, id, p), id, data, fin), WtStream(id, data, fin), z);
  }

  lemma PendingModest(s: Session, id: StreamId, p: seq<PendingSend>, z: Sizes)
    requires Modest(s, z) && id in s.streams && SmallEntries(p, z.data(id))
    ensures Modest(SetPending(s, id, p), z)
  {
    hide Modest, SmallEntries;
    SilentModest(s, SetPending(s, id, p), z);
  }

  lemma {:induction false} DrainModest(s: Session, id: StreamId, z: Sizes)
    requires Modest(s, z)
    ensures Modest(Drain(s, id), z)
    decreases if id in s.streams then |s.streams[id].pending| else 0
  {
    if id in s.streams && s.streams[id].pending != [] {
      var p := s.streams[id].pending;
      assert SmallEntries(p, z.data(id));
      hide Modest, MaybeRelease;
      var n := Sendable(s, s.streams[id], |p[0].data|);
      if 0 < n < |p[0].data| {
        ChunkModest(s, id, [PendingSend(p[0].data[n..], p[0].fin)] + p[1..], p[0].data[..n], false, z);
      } else if 0 < n {
        ChunkModest(s, id, p[1..], p[0].data, p[0].fin, z);
        var s' := SendChunk(SetPending(s, id, p[1..]), id, p[0].data, p[0].fin);
        if p[0].fin { ReleaseModest(s', id, z); } else { DrainModest(s', id, z); }
      }
    }
  }

  lemma {:induction false} FlushPassModest(s: Session, ids: seq<StreamId>, z: Sizes)
    requires Modest(s, z)
    ensures Modest(FlushPass(s, ids), z)
    decreases |ids|
  {
    hide Modest, Drain;
    if ids != [] {
      if ids[0] in s.streams { PendingModest(s, ids[0], [], z); }
      DrainModest(s, ids[0], z);
      FlushPassModest(FlushOne(s, ids[0]), ids[1..], z);
    }
  }

  lemma {:induction false} FlushModest(s: Session, z: Sizes)
    requires Modest(s, z)
    ensures Modest(FlushPending(s), z)
    decreases if s.bytesSent <= s.maxDataLocal then s.maxDataLocal - s.bytesSent else 0
  {
    hide Modest, FlushPass;
    if !s.terminated {
      var ids := SortedKeys(s.streams.Keys);
      FlushPassProgress(s, ids);
      FlushPassModest(s, ids, z);
      if FlushPass(s, ids).bytesSent != s.bytesSent { FlushModest(FlushPass(s, ids), z); }
    }
  }

  lemma BlockedModest(s: Session, id: StreamId, a: nat, b: nat, z: Sizes)
    requires Modest(s, z) && id in s.streams
    ensures Modest(ReportBlocked(s, id, a, b), z)
  {
    hide Modest, SmallEntries;
    var s1 := if a <= b then ReportSessionBlocked(s) else s;
    if s1 != s { EmitModest(s, s1, WtDataBlocked(s.maxDataLocal), z); }
    var s2 := if b <= a then ReportStreamBlocked(s1, id) else s1;
    if s2 != s1 { EmitModest(s1, s2, WtStreamDataBlocked(id, s1.streams[id].maxLocal), z); }
  }

  lemma PartModest(s: Session, id: StreamId, data: seq<Byte>, fin: bool, z: Sizes)
    requires Modest(s, z) && id in s.streams && |data| <= z.data(id)
    ensures Modest(SendChunk(s, id, data, fin), z) && id in SendChunk(s, id, data, fin).streams
  {
    hide Modest, SmallEntries;
    EmitModest(s, SendChunk(s, id, data, fin), WtStream(id, data, fin), z);
  }

  lemma BlockedStays(s: Session, id: StreamId, a: nat, b: nat)
    requires id in s.streams
    ensures id in ReportBlocked(s, id, a, b).streams
  {
  }

  lemma SendModest(s: Session, id: StreamId, data: seq<Byte>, fin: bool, z: Sizes)
    requires Modest(s, z) && |data| <= z.data(id)
    ensures Modest(SendStreamData(s, id, data, fin), z)
  {
    if AcceptsSend(s, id) {
      var st := s.streams[id];
      assert SmallEntries(st.pending, z.data(id));
      hide Modest, MaybeRelease, ReportBlocked, SendChunk, SetPending;
      var n := Sendable(s, st, |data|);
      if st.pending != [] {
        PendingModest(s, id, st.pending + [PendingSend(data, fin)], z);
      } else if n < |data| {
        var s1 := if n > 0 then SendChunk(s, id, data[..n], false) else s;
        PartModest(s, id, data[..n], false, z);
        BlockedModest(s1, id, SessionAvail(s, |data|), StreamAvail(st, |data|), z);
        BlockedStays(s1, id, SessionAvail(s, |data|), StreamAvail(st, |data|));
        PendingModest(ReportBlocked(s1, id, SessionAvail(s, |data|), StreamAvail(st, |data|)), id,
                      [PendingSend(data[n..], fin)], z);
      } else {
        PartModest(s, id, data, fin, z);
        ReleaseModest(SendChunk(s, id, data, fin), id, z);
      }
    }
  }

  lemma ResetModest(s: Session, id: StreamId, code: ErrorCode, z: Sizes)
    requires Modest(s, z)
    ensures Modest(ResetStream(s, id, code), z)
  {
    hide Modest, MaybeRelease;
    if !s.terminated && id in s.streams && !SendDone(s.streams[id]) {
      EmitModest(s, MarkReset(s, id, code), WtResetStream(id, code, s.streams[id].bytesSent), z);
      ReleaseModest(MarkReset(s, id, code), id, z);
    }
  }

  lemma CreateModest(s: Session, id: StreamId, z: Sizes)
    requires Modest(s, z)
    ensures Modest(Put(s, id, NewStream(s, id)), z)
  {
    hide Modest;
    SilentModest(s, Put(s, id, NewStream(s, id)), z);
  }

  lemma OpenModest(s: Session, uni: bool, z: Sizes)
    requires Modest(s, z)
    ensures Modest(OpenStream(s, uni).0, z)
  {
    hide Modest;
    var s' := OpenStream(s, uni).0;
    if s'.emitted != s.emitted {
      EmitModest(s, s', WtStreamsBlocked(!uni, Count(s, !uni).maxLocal), z);
    } else {
      SilentModest(s, s', z);
    }
  }

  lemma ApplyModest(s: Session, call: Call, z: Sizes)
    requires Modest(s, z) && CallFits(call, z)
    ensures Modest(Apply(s, call), z)
  {
    hide Modest, OpenStream, SendStreamData, ResetStream, CloseSession, SmallEntries;
    match call
    case OpenCall(uni) => OpenModest(s, uni, z);
    case Send(id, data, fin) => SendModest(s, id, data, fin, z);
    case Reset(id, code) => ResetModest(s, id, code, z);
    case Stop(id, code) => if StopSending(s, id, code) != s { EmitModest(s, StopSending(s, id, code), WtStopSending(id, code), z); }
    case SendDgram(payload) => if !s.terminated { EmitModest(s, SendDatagram(s, payload), Datagram(payload), z); }
    case DrainCall => if !s.terminated { EmitModest(s, DrainSession(s), WtDrainSession, z); }
    case Close(code, message) => CloseModest(s, code, message, z);
  }

  // ---------- Handlers: whatever the peer sends, only what was handed over goes out ----------

  lemma AcceptModest(s: Session, id: StreamId, data: seq<Byte>, fin: bool, z: Sizes)
    requires Modest(s, z) && id in s.streams
    ensures Modest(AcceptWtStream(s, id, data, fin), z)
  {
    hide Modest, SmallEntries, MaybeSendMaxData, MaybeSendMaxStreamData, MaybeRelease, ReportError;
    ReportModest(s, WT_STREAM_STATE_ERROR, z);
    ReportModest(s, WT_FLOW_CONTROL_ERROR, z);
    var s1 := RecvChunk(s, id, data, fin);
    SilentModest(s, s1, z);
    CreditModest(s1, id, z);
    CreditModest(MaybeSendMaxData(s1), id, z);
    ReleaseModest(MaybeSendMaxStreamData(MaybeSendMaxData(s1), id), id, z);
  }

  lemma StreamModest(s: Session, id: StreamId, data: seq<Byte>, fin: bool, z: Sizes)
    requires Modest(s, z)
    ensures Modest(HandleWtStream(s, id, data, fin), z)
  {
    hide Modest, AcceptWtStream, ReportError, NewStream;
    ReportModest(s, WT_STREAM_STATE_ERROR, z);
    ReportModest(s, WT_FLOW_CONTROL_ERROR, z);
    CreateModest(s, id, z);
    if id in s.streams { AcceptModest(s, id, data, fin, z); } else { AcceptModest(Put(s, id, NewStream(s, id)), id, data, fin, z); }
  }

  lemma RecvResetModest(s: Session, id: StreamId, code: ErrorCode, z: Sizes)
    requires Modest(s, z) && id in s.streams
    ensures Modest(RecvReset(s, id, code), z)
  {
    hide Modest, MaybeRelease;
    SilentModest(s, NoteReset(s, id, code), z);
    ReleaseModest(NoteReset(s, id, code), id, z);
  }

  lemma PeerResetModest(s: Session, id: StreamId, code: ErrorCode, size: nat, z: Sizes)
    requires Modest(s, z)
    ensures Modest(HandleWtResetStream(s, id, code, size), z)
  {
    hide Modest, RecvReset, ReportError, NewStream;
    ReportModest(s, WT_STREAM_STATE_ERROR, z);
    ReportModest(s, WT_FLOW_CONTROL_ERROR, z);
    CreateModest(s, id, z);
    if id in s.streams { RecvResetModest(s, id, code, z); } else { RecvResetModest(Put(s, id, NewStream(s, id)), id, code, z); }
  }

  lemma PeerStopModest(s: Session, id: StreamId, code: ErrorCode, z: Sizes)
    requires Modest(s, z)
    ensures Modest(HandleWtStopSending(s, id, code), z)
  {
    hide Modest, SmallEntries, ResetStream, ReportError;
    ReportModest(s, WT_STREAM_STATE_ERROR, z);
    SilentModest(s, NoteStop(s, id, code), z);
    ResetModest(NoteStop(s, id, code), id, code, z);
  }

  lemma PeerLimitsModest(s: Session, id: StreamId, bidi: bool, max: nat, z: Sizes)
    requires Modest(s, z)
    ensures Modest(HandleWtMaxData(s, max), z) && Modest(HandleWtMaxStreams(s, bidi, max), z)
    ensures Modest(HandleWtStreamDataBlocked(s, id), z) && Modest(HandleWtStreamsBlocked(s, max), z)
  {
    hide Modest, SmallEntries, FlushPending, ReportError, ReportLimitError;
    ReportModest(s, WT_STREAM_STATE_ERROR, z);
    var s1 := s.(receivedMaxData := Some(max), maxDataLocal := max, dataBlockedSent := false);
    SilentModest(s, s1, z);
    FlushModest(s1, z);
    SilentModest(s, s.(receivedMaxData := Some(max)), z);
    StreamLimitModest(s, bidi, max, z);
  }

  lemma StreamLimitModest(s: Session, bidi: bool, max: nat, z: Sizes)
    requires Modest(s, z)
    ensures Modest(HandleWtMaxStreams(s, bidi, max), z)
  {
    ReportModest(s, WT_FLOW_CONTROL_ERROR, z);
    hide SmallEntries, Small, ReportLimitError;
  }

  lemma RaiseModest(s: Session, id: StreamId, max: nat, z: Sizes)
    requires Modest(s, z) && id in s.streams
    ensures Modest(FlushPending(Put(s, id, s.streams[id].(maxLocal := max, dataBlockedSent := false))), z)
  {
    hide Modest, SmallEntries, FlushPending;
    var s' := Put(s, id, s.streams[id].(maxLocal := max, dataBlockedSent := false));
    SilentModest(s, s', z);
    FlushModest(s', z);
  }

  lemma PeerCreditModest(s: Session, id: StreamId, max: nat, z: Sizes)
    requires Modest(s, z)
    ensures Modest(HandleWtMaxStreamData(s, id, max), z)
  {
    hide Modest, SmallEntries, FlushPending, ReportError, ReportLimitError, PreviousMaxStreamData, HasReceivedStop;
    ReportModest(s, WT_STREAM_STATE_ERROR, z);
    var s1 := s.(receivedMaxStreamData := s.receivedMaxStreamData[id := max]);
    SilentModest(s, s1, z);
    if id in s.streams {
      RaiseModest(s, id, max, z);
      RaiseModest(s1, id, max, z);
    }
  }

  lemma DispatchModest(s: Session, c: Capsule, z: Sizes)
    requires Modest(s, z)
    ensures Modest(Dispatch(s, c), z)
  {
    SilentModest(s, Push(s, SessionDraining), z);
    if c.Datagram? { SilentModest(s, Push(s, DatagramReceived(c.payload)), z); }
    if c.WtCloseSession? { SilentModest(s, HandleWtCloseSession(s, c.code, c.message), z); }
    hide Modest, HandleWtStream, HandleWtResetStream, HandleWtStopSending, HandleWtMaxData, HandleWtMaxStreamData,
         HandleWtMaxStreams, HandleWtStreamDataBlocked, HandleWtStreamsBlocked;
    match c
    case WtStream(id, data, fin) => StreamModest(s, id, data, fin, z);
    case WtResetStream(id, code, size) => PeerResetModest(s, id, code, size, z);
    case WtStopSending(id, code) => PeerStopModest(s, id, code, z);
    case WtMaxStreamData(id, max) => PeerCreditModest(s, id, max, z);
    case WtMaxData(max) => PeerLimitsModest(s, StreamId(0, false, false), false, max, z);
    case WtMaxStreams(bidi, max) => PeerLimitsModest(s, StreamId(0, false, false), bidi, max, z);
    case WtStreamDataBlocked(id, max) => PeerLimitsModest(s, id, false, max, z);
    case WtStreamsBlocked(bidi, max) => PeerLimitsModest(s, StreamId(0, false, false), bidi, max, z);
    case _ =>
  }

  lemma ReceiveModest(s: Session, c: Capsule, z: Sizes)
    requires Modest(s, z)
    ensures Modest(Receive(s, c), z)
  {
    SilentModest(s, Heed(s, c), z);
    hide Modest, Dispatch;
    if !s.terminated { DispatchModest(Heed(s, c), c, z); }
  }

  lemma EstablishModest(s: Session, peer: PeerCredit, z: Sizes)
    requires Modest(s, z)
    ensures Modest(Establish(s, peer), z)
  {
    var a, b, c := WtMaxData(s.cfg.initData), WtMaxStreams(true, s.cfg.initBidi), WtMaxStreams(false, s.cfg.initUni);
    SmallSnoc(s.emitted, a, z);
    SmallSnoc(s.emitted + [a], b, z);
    SmallSnoc(s.emitted + [a] + [b], c, z);
    hide SmallEntries, AllSmall;
  }

  lemma SmallSnoc(log: seq<Capsule>, c: Capsule, z: Sizes)
    requires AllSmall(log, z) && Small(c, z)
    ensures AllSmall(log + [c], z)
  {
  }

  // ---------- Two ends ----------

  predicate ActionFits(a: Action, server: bool, z: Sizes) {
    (if server then a.ServerCall? else a.ClientCall?) ==> CallFits(a.call, z)
  }

  lemma StepModest(n: Net, a: Action, server: bool, z: Sizes)
    requires Enabled(n, a) && ActionFits(a, server, z) && Modest(End(n, server), z)
    ensures Modest(End(StepNet(n, a), server), z)
  {
    hide Modest, Apply, Receive;
    match a
    case ClientCall(call) => if !server { ApplyModest(n.client, call, z); }
    case ServerCall(call) => if server { ApplyModest(n.server, call, z); }
    case ClientAccepted => if !server { EstablishModest(n.client, CreditFrom(n.server.cfg, true), z); }
    case ToClient => if !server { ReceiveModest(n.client, n.server.emitted[|n.client.received|], z); }
    case ToServer => if server { ReceiveModest(n.server, n.client.emitted[|n.server.received|], z); }
  }
}
