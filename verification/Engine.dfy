/**
 * One WebTransport session of an HTTP/2 endpoint, as a value: the fields of
 * WtSessionInfo and WtStreamInfo, and what every API call and every capsule
 * handler does to them.
 *
 * Four history variables are carried along and never read by an operation:
 * everything ever queued for the peer, every capsule ever dispatched, every event
 * ever pushed, and the IDs of every stream entry ever freed.
 */
module Engine {
  import opened Capsules
  import Utf8

  // ---------- State ----------

  datatype SendState = Ready | DataSent | ResetSent
  datatype RecvState = Recv | DataRecvd | ResetRecvd

  datatype PendingSend = PendingSend(data: seq<Byte>, fin: bool)

  datatype Stream = Stream(
    isLocal: bool,
    isUni: bool,
    sendState: SendState,
    bytesSent: nat,
    maxLocal: nat,
    recvState: RecvState,
    bytesReceived: nat,
    maxRemote: nat,
    pending: seq<PendingSend>,
    dataBlockedSent: bool,
    stopReceived: bool)

  /** Stream-count limits of one direction; `next` is both the streams opened and the next counter. */
  datatype StreamCount = StreamCount(
    next: nat,
    maxLocal: nat,
    received: Option<nat>,
    maxRemote: nat,
    blockedSent: bool)

  datatype Config = Config(
    isServer: bool,
    initData: nat,
    initStreamData: nat,
    initBidi: nat,
    initUni: nat)

  /** The peer's initial limits and stream credits, and which credits were announced. */
  datatype PeerCredit = PeerCredit(
    data: nat,
    bidi: nat,
    uniStreams: nat,
    uni: nat,
    bidiLocal: nat,
    bidiRemote: nat,
    announcedUni: Option<nat>,
    announcedBidiLocal: Option<nat>,
    announcedBidiRemote: Option<nat>)

  datatype Event =
    | StreamData(id: StreamId, data: seq<Byte>, fin: bool)
    | StreamReset(id: StreamId, code: ErrorCode)
    | StopSendingReceived(id: StreamId, code: ErrorCode)
    | DatagramReceived(payload: seq<Byte>)
    | SessionClosed(code: ErrorCode, message: seq<Byte>)
    | SessionDraining
    | Error(code: ErrorCode)

  const WT_FLOW_CONTROL_ERROR: ErrorCode := 0x50
  const WT_STREAM_STATE_ERROR: ErrorCode := 0x51
  const WT_ERROR: ErrorCode := 0x52

  /** The fixed cap of the containers a peer could otherwise grow without bound. */
  const MAX_RECEIVED_MAP_ENTRIES: nat := 4096

  datatype Session = Session(
    cfg: Config,
    peer: PeerCredit,
    established: bool,
    terminated: bool,
    bytesSent: nat,
    maxDataLocal: nat,
    receivedMaxData: Option<nat>,
    bytesReceived: nat,
    maxDataRemote: nat,
    bidi: StreamCount,
    uni: StreamCount,
    streams: map<StreamId, Stream>,
    receivedMaxStreamData: map<StreamId, nat>,
    receivedStops: set<StreamId>,
    sentStops: set<StreamId>,
    released: set<StreamId>,
    dataBlockedSent: bool,
    // History
    emitted: seq<Capsule>,
    received: seq<Capsule>,
    events: seq<Event>,
    freed: set<StreamId>)

  // ---------- Small accessors ----------

  predicate SendDone(st: Stream) { st.sendState != Ready }
  predicate RecvDone(st: Stream) { st.recvState != Recv }

  function Count(s: Session, bidi: bool): StreamCount { if bidi then s.bidi else s.uni }

  function WithCount(s: Session, bidi: bool, n: StreamCount): Session {
    s.(bidi := if bidi then n else s.bidi, uni := if bidi then s.uni else n)
  }

  function Emit(s: Session, c: Capsule): Session { s.(emitted := s.emitted + [c]) }

  function Push(s: Session, e: Event): Session { s.(events := s.events + [e]) }

  function Put(s: Session, id: StreamId, st: Stream): Session { s.(streams := s.streams[id := st]) }

  // ---------- Credit of a new stream ----------

  function PeerSendCredit(s: Session, isUni: bool, isLocal: bool): nat {
    if isUni then s.peer.uni else if isLocal then s.peer.bidiLocal else s.peer.bidiRemote
  }

  function AnnouncedCredit(s: Session, isUni: bool, isLocal: bool): Option<nat> {
    if isUni then s.peer.announcedUni
    else if isLocal then s.peer.announcedBidiLocal
    else s.peer.announcedBidiRemote
  }

  function InitialSendCredit(s: Session, id: StreamId): nat {
    PeerSendCredit(s, id.uni, LocalTo(s.cfg.isServer, id))
  }

  function NewStream(s: Session, id: StreamId): Stream {
    var credit := InitialSendCredit(s, id);
    var known := if id in s.receivedMaxStreamData then s.receivedMaxStreamData[id] else 0;
    Stream(LocalTo(s.cfg.isServer, id), id.uni,
           Ready, 0, Max(credit, known), Recv, 0, s.cfg.initStreamData, [], false, false)
  }

  // ---------- Ending a session ----------

  /** The message goes out cut to 1024 bytes, and back to the last whole character. */
  function CloseSession(s: Session, code: ErrorCode, message: seq<Byte>): Session {
    if s.terminated then s
    else Emit(s, WtCloseSession(code, Utf8.Cut(message, MAX_MESSAGE))).(terminated := true, established := false)
  }

  /** An error that is first pushed to the application, then closes the session. */
  function ReportError(s: Session, code: ErrorCode): Session {
    CloseSession(Push(s, Error(code)), code, [])
  }

  /** A decreased or oversized limit closes the session without an Error event. */
  function ReportLimitError(s: Session): Session {
    CloseSession(s, WT_FLOW_CONTROL_ERROR, [])
  }

  // ---------- Credit replenishment and release ----------

  function Replenished(received: nat, init: nat): nat { Min(received + init, MAX_VARINT) }

  /** The receiver tops its advertised limit up once half of it has been used. */
  predicate ShouldReplenish(received: nat, limit: nat, init: nat) {
    init != 0 && received > limit / 2 && Replenished(received, init) > limit
  }

  function MaybeSendMaxData(s: Session): Session {
    if s.terminated || !ShouldReplenish(s.bytesReceived, s.maxDataRemote, s.cfg.initData) then s
    else
      var updated := Replenished(s.bytesReceived, s.cfg.initData);
      Emit(s, WtMaxData(updated)).(maxDataRemote := updated)
  }

  function MaybeSendMaxStreamData(s: Session, id: StreamId): Session {
    if s.terminated || id in s.sentStops || id !in s.streams then s
    else
      var st := s.streams[id];
      if !ShouldReplenish(st.bytesReceived, st.maxRemote, s.cfg.initStreamData) then s
      else
        var updated := Replenished(st.bytesReceived, s.cfg.initStreamData);
        Put(Emit(s, WtMaxStreamData(id, updated)), id, st.(maxRemote := updated))
  }

  predicate Releasable(st: Stream) {
    if st.isUni then (if st.isLocal then SendDone(st) else RecvDone(st))
    else SendDone(st) && RecvDone(st)
  }

  /** Drops the entry of a finished stream and remembers its ID, within the cap. */
  function Forget(s: Session, id: StreamId): Session
    requires id in s.streams
  {
    var st := s.streams[id];
    var remember := !(st.isLocal && st.isUni) && |s.released| < MAX_RECEIVED_MAP_ENTRIES;
    s.(released := if remember then s.released + {id} else s.released,
       streams := s.streams - {id},
       freed := s.freed + {id})
  }

  /** A peer that finished one of its streams may open one more. */
  function GrantStream(s: Session, bidi: bool): Session {
    var n := Count(s, bidi);
    if n.maxRemote < MAX_STREAMS
    then WithCount(Emit(s, WtMaxStreams(bidi, n.maxRemote + 1)), bidi, n.(maxRemote := n.maxRemote + 1))
    else s
  }

  function MaybeRelease(s: Session, id: StreamId): Session {
    if id !in s.streams || !Releasable(s.streams[id]) then s
    else
      var st := s.streams[id];
      if st.isLocal then Forget(s, id) else GrantStream(Forget(s, id), !st.isUni)
  }

  // ---------- Sending under flow control ----------

  /** What a limit still allows of `size` bytes; nothing once it has been overrun. */
  function Avail(limit: nat, sent: nat, size: nat): nat {
    if sent <= limit then Min(limit - sent, size) else 0
  }

  function SessionAvail(s: Session, size: nat): nat { Avail(s.maxDataLocal, s.bytesSent, size) }
  function StreamAvail(st: Stream, size: nat): nat { Avail(st.maxLocal, st.bytesSent, size) }

  function Sendable(s: Session, st: Stream, size: nat): nat {
    Min(SessionAvail(s, size), StreamAvail(st, size))
  }

  /** Queues one WT_STREAM capsule and accounts for it. */
  function SendChunk(s: Session, id: StreamId, data: seq<Byte>, fin: bool): Session
    requires id in s.streams
  {
    var st := s.streams[id];
    s.(emitted := s.emitted + [WtStream(id, data, fin)],
       bytesSent := s.bytesSent + |data|,
       streams := s.streams[id := st.(bytesSent := st.bytesSent + |data|,
                                      sendState := if fin then DataSent else st.sendState)])
  }

  function SetPending(s: Session, id: StreamId, p: seq<PendingSend>): Session
    requires id in s.streams
  {
    Put(s, id, s.streams[id].(pending := p))
  }

  /** Sends what credit allows from one stream's queue, front first. */
  function Drain(s: Session, id: StreamId): Session
    decreases if id in s.streams then |s.streams[id].pending| else 0
  {
    if id !in s.streams || s.streams[id].pending == [] then s
    else
      var p := s.streams[id].pending;
      var n := Sendable(s, s.streams[id], |p[0].data|);
      if n == 0 then s
      else if n < |p[0].data| then
        SendChunk(SetPending(s, id, [PendingSend(p[0].data[n..], p[0].fin)] + p[1..]),
                  id, p[0].data[..n], false)
      else
        var s' := SendChunk(SetPending(s, id, p[1..]), id, p[0].data, p[0].fin);
        if p[0].fin then MaybeRelease(s', id) else Drain(s', id)
  }

  function FlushOne(s: Session, id: StreamId): Session {
    if id !in s.streams then s
    else if SendDone(s.streams[id]) then SetPending(s, id, [])
    else Drain(s, id)
  }

  /** One walk over the streams that had an entry when the walk began. */
  function FlushPass(s: Session, ids: seq<StreamId>): Session
    decreases |ids|
  {
    if ids == [] then s else FlushPass(FlushOne(s, ids[0]), ids[1..])
  }

  lemma MaybeReleaseKeepsCredit(s: Session, id: StreamId)
    ensures MaybeRelease(s, id).maxDataLocal == s.maxDataLocal
    ensures MaybeRelease(s, id).terminated == s.terminated
    ensures MaybeRelease(s, id).bytesSent == s.bytesSent
  {
  }

  lemma DrainProgress(s: Session, id: StreamId)
    ensures Drain(s, id).maxDataLocal == s.maxDataLocal
    ensures Drain(s, id).terminated == s.terminated
    ensures Drain(s, id).bytesSent >= s.bytesSent
    ensures Drain(s, id).bytesSent > s.bytesSent ==> Drain(s, id).bytesSent <= s.maxDataLocal
    decreases if id in s.streams then |s.streams[id].pending| else 0
  {
    if id in s.streams && s.streams[id].pending != [] {
      var p := s.streams[id].pending;
      var n := Sendable(s, s.streams[id], |p[0].data|);
      if n == |p[0].data| && n != 0 {
        var s' := SendChunk(SetPending(s, id, p[1..]), id, p[0].data, p[0].fin);
        if p[0].fin { MaybeReleaseKeepsCredit(s', id); } else { DrainProgress(s', id); }
      }
    }
  }

  lemma FlushPassProgress(s: Session, ids: seq<StreamId>)
    ensures FlushPass(s, ids).maxDataLocal == s.maxDataLocal
    ensures FlushPass(s, ids).terminated == s.terminated
    ensures FlushPass(s, ids).bytesSent >= s.bytesSent
    ensures FlushPass(s, ids).bytesSent > s.bytesSent ==> FlushPass(s, ids).bytesSent <= s.maxDataLocal
    decreases |ids|
  {
    if ids != [] {
      DrainProgress(s, ids[0]);
      FlushPassProgress(FlushOne(s, ids[0]), ids[1..]);
    }
  }

  /** Walks until a walk sends nothing. Every other walk uses up session credit. */
  function FlushPending(s: Session): Session
    decreases if s.bytesSent <= s.maxDataLocal then s.maxDataLocal - s.bytesSent else 0
  {
    if s.terminated then s
    else
      FlushPassProgress(s, SortedKeys(s.streams.Keys));
      var s' := FlushPass(s, SortedKeys(s.streams.Keys));
      if s'.bytesSent == s.bytesSent then s' else FlushPending(s')
  }

  // ---------- Keys in ascending order, as std::map walks them ----------

  predicate IsLeast(k: StreamId, keys: set<StreamId>) {
    k in keys && forall x :: x in keys ==> WireId(k) <= WireId(x)
  }

  lemma LeastBelow(keys: set<StreamId>, k: StreamId)
    requires k in keys
    ensures exists l :: IsLeast(l, keys)
    decreases WireId(k)
  {
    if k0 :| k0 in keys && WireId(k0) < WireId(k) {
      LeastBelow(keys, k0);
    } else {
      assert IsLeast(k, keys);
    }
  }

  lemma LeastIsUnique(keys: set<StreamId>, k: StreamId, l: StreamId)
    requires IsLeast(k, keys) && IsLeast(l, keys)
    ensures k == l
  {
    StreamIdRoundTrip(k);
    StreamIdRoundTrip(l);
  }

  function Least(keys: set<StreamId>): (k: StreamId)
    requires keys != {}
    ensures IsLeast(k, keys)
  {
    ghost var k0 :| k0 in keys;
    LeastBelow(keys, k0);
    assert forall k, l :: IsLeast(k, keys) && IsLeast(l, keys) ==> k == l by {
      forall k, l | IsLeast(k, keys) && IsLeast(l, keys) ensures k == l { LeastIsUnique(keys, k, l); }
    }
    var k :| k in keys && IsLeast(k, keys);
    k
  }

  function SortedKeys(keys: set<StreamId>): (ids: seq<StreamId>)
    ensures forall x :: x in ids <==> x in keys
    ensures forall j, k :: 0 <= j < k < |ids| ==> WireId(ids[j]) < WireId(ids[k])
    decreases keys
  {
    if keys == {} then []
    else
      var k := Least(keys);
      [k] + SortedKeys(keys - {k})
  }

  // ---------- API calls ----------

  /** Opens a stream; the second component is its ID, or nothing. */
  function OpenStream(s: Session, uni: bool): (Session, Option<StreamId>) {
    var n := Count(s, !uni);
    if !s.established then (s, None)
    else if n.next >= n.maxLocal then
      if n.blockedSent then (s, None)
      else (WithCount(Emit(s, WtStreamsBlocked(!uni, n.maxLocal)), !uni, n.(blockedSent := true)), None)
    else
      var id := StreamId(n.next, uni, s.cfg.isServer);
      if id in s.streams then (s, None)
      else (Put(WithCount(s, !uni, n.(next := n.next + 1)), id, NewStream(s, id)), Some(id))
  }

  predicate SendableStream(st: Stream) { st.isLocal || !st.isUni }

  /** Whether send_stream_data takes the bytes at all, rather than dropping them silently. */
  predicate AcceptsSend(s: Session, id: StreamId) {
    && !s.terminated
    && id in s.streams
    && SendableStream(s.streams[id])
    && !SendDone(s.streams[id])
    && (s.streams[id].pending != [] ==> !s.streams[id].pending[|s.streams[id].pending| - 1].fin)
  }

  /** WT_DATA_BLOCKED and WT_STREAM_DATA_BLOCKED are each queued at most once per limit. */
  function ReportSessionBlocked(s: Session): Session {
    if s.dataBlockedSent then s
    else Emit(s, WtDataBlocked(s.maxDataLocal)).(dataBlockedSent := true)
  }

  function ReportStreamBlocked(s: Session, id: StreamId): Session
    requires id in s.streams
  {
    var st := s.streams[id];
    if st.dataBlockedSent then s
    else Put(Emit(s, WtStreamDataBlocked(id, st.maxLocal)), id, st.(dataBlockedSent := true))
  }

  /** Called after `sendable < size`: the smaller credit is the one that blocked. */
  function ReportBlocked(s: Session, id: StreamId, sessionAvail: nat, streamAvail: nat): Session
    requires id in s.streams
  {
    var s1 := if sessionAvail <= streamAvail then ReportSessionBlocked(s) else s;
    if streamAvail <= sessionAvail then ReportStreamBlocked(s1, id) else s1
  }

  function SendStreamData(s: Session, id: StreamId, data: seq<Byte>, fin: bool): Session {
    if !AcceptsSend(s, id) then s
    else
      var st := s.streams[id];
      if st.pending != [] then SetPending(s, id, st.pending + [PendingSend(data, fin)])
      else
        var n := Sendable(s, st, |data|);
        if n < |data| then
          var s1 := if n > 0 then SendChunk(s, id, data[..n], false) else s;
          var s2 := ReportBlocked(s1, id, SessionAvail(s, |data|), StreamAvail(st, |data|));
          SetPending(s2, id, [PendingSend(data[n..], fin)])
        else
          var s1 := SendChunk(s, id, data, fin);
          if fin then MaybeRelease(s1, id) else s1
  }

  /** The reset itself, before the entry is perhaps released. What waited is dropped. */
  function MarkReset(s: Session, id: StreamId, code: ErrorCode): Session
    requires id in s.streams
  {
    s.(emitted := s.emitted + [WtResetStream(id, code, s.streams[id].bytesSent)],
       streams := s.streams[id := s.streams[id].(sendState := ResetSent, pending := [])])
  }

  function ResetStream(s: Session, id: StreamId, code: ErrorCode): Session {
    if s.terminated || id !in s.streams || SendDone(s.streams[id]) then s
    else MaybeRelease(MarkReset(s, id, code), id)
  }

  function StopSending(s: Session, id: StreamId, code: ErrorCode): Session {
    if s.terminated || id !in s.streams || id in s.sentStops then s
    else Emit(s, WtStopSending(id, code)).(sentStops := s.sentStops + {id})
  }

  function SendDatagram(s: Session, payload: seq<Byte>): Session {
    if s.terminated then s else Emit(s, Datagram(payload))
  }

  function DrainSession(s: Session): Session {
    if s.terminated then s else Emit(s, WtDrainSession)
  }

  // ---------- Capsule handlers ----------

  predicate ExceedsStreamLimit(s: Session, id: StreamId) {
    id.counter + 1 > Count(s, !id.uni).maxRemote
  }

  /** The accounting of an accepted WT_STREAM, before any credit is returned. */
  function RecvChunk(s: Session, id: StreamId, data: seq<Byte>, fin: bool): Session
    requires id in s.streams
  {
    var st := s.streams[id];
    s.(events := if data != [] || fin then s.events + [StreamData(id, data, fin)] else s.events,
       bytesReceived := s.bytesReceived + |data|,
       streams := s.streams[id := st.(bytesReceived := st.bytesReceived + |data|,
                                      recvState := if fin then DataRecvd else st.recvState)])
  }

  function AcceptWtStream(s: Session, id: StreamId, data: seq<Byte>, fin: bool): Session
    requires id in s.streams
  {
    var st := s.streams[id];
    if data != [] && RecvDone(st) then ReportError(s, WT_STREAM_STATE_ERROR)
    else if s.bytesReceived + |data| > s.maxDataRemote
         || st.bytesReceived + |data| > st.maxRemote then
      ReportError(s, WT_FLOW_CONTROL_ERROR)
    else
      var s1 := MaybeSendMaxStreamData(MaybeSendMaxData(RecvChunk(s, id, data, fin)), id);
      if fin then MaybeRelease(s1, id) else s1
  }

  function HandleWtStream(s: Session, id: StreamId, data: seq<Byte>, fin: bool): Session {
    if !ReceivableDataCapsule(id, s.cfg.isServer) then ReportError(s, WT_STREAM_STATE_ERROR)
    else if id in s.streams then AcceptWtStream(s, id, data, fin)
    else if id in s.released then
      if data == [] then s else ReportError(s, WT_STREAM_STATE_ERROR)
    else if ExceedsStreamLimit(s, id) then ReportError(s, WT_FLOW_CONTROL_ERROR)
    else AcceptWtStream(Put(s, id, NewStream(s, id)), id, data, fin)
  }

  /** The end of the receive side, before the entry is perhaps released. */
  function NoteReset(s: Session, id: StreamId, code: ErrorCode): Session
    requires id in s.streams
  {
    s.(events := s.events + [StreamReset(id, code)],
       streams := s.streams[id := s.streams[id].(recvState := ResetRecvd)])
  }

  function RecvReset(s: Session, id: StreamId, code: ErrorCode): Session
    requires id in s.streams
  {
    MaybeRelease(NoteReset(s, id, code), id)
  }

  function HandleWtResetStream(s: Session, id: StreamId, code: ErrorCode, reliableSize: nat): Session {
    if !ReceivableDataCapsule(id, s.cfg.isServer) then ReportError(s, WT_STREAM_STATE_ERROR)
    else if id !in s.streams then
      if id in s.released || reliableSize > 0 then ReportError(s, WT_STREAM_STATE_ERROR)
      else if ExceedsStreamLimit(s, id) then ReportError(s, WT_FLOW_CONTROL_ERROR)
      else RecvReset(Put(s, id, NewStream(s, id)), id, code)
    else if RecvDone(s.streams[id]) || reliableSize != s.streams[id].bytesReceived then
      ReportError(s, WT_STREAM_STATE_ERROR)
    else RecvReset(s, id, code)
  }

  predicate HasReceivedStop(s: Session, id: StreamId) {
    id in s.receivedStops || (id in s.streams && s.streams[id].stopReceived)
  }

  /** A stop for an unknown stream is dropped without a trace once the record is full. */
  function NoteStop(s: Session, id: StreamId, code: ErrorCode): Session {
    var known := id in s.streams;
    var room := |s.receivedStops| < MAX_RECEIVED_MAP_ENTRIES;
    s.(streams := if known then s.streams[id := s.streams[id].(stopReceived := true)] else s.streams,
       receivedStops := if room then s.receivedStops + {id} else s.receivedStops,
       events := if known || room then s.events + [StopSendingReceived(id, code)] else s.events)
  }

  /** A stop for a known stream is answered with a reset carrying the same code. */
  function HandleWtStopSending(s: Session, id: StreamId, code: ErrorCode): Session {
    if !ReceivableFlowCapsule(id, s.cfg.isServer) || HasReceivedStop(s, id) then
      ReportError(s, WT_STREAM_STATE_ERROR)
    else if id in s.streams then ResetStream(NoteStop(s, id, code), id, code)
    else NoteStop(s, id, code)
  }

  function HandleWtMaxData(s: Session, max: nat): Session {
    if s.receivedMaxData.Some? && max < s.receivedMaxData.value then ReportLimitError(s)
    else
      var s1 := s.(receivedMaxData := Some(max));
      if max > s.maxDataLocal
      then FlushPending(s1.(maxDataLocal := max, dataBlockedSent := false))
      else s1
  }

  /** What a WT_MAX_STREAM_DATA for this stream must not fall below. */
  function PreviousMaxStreamData(s: Session, id: StreamId): Option<nat> {
    if id in s.receivedMaxStreamData then Some(s.receivedMaxStreamData[id])
    else if id in s.streams then Some(s.streams[id].maxLocal)
    else AnnouncedCredit(s, id.uni, LocalTo(s.cfg.isServer, id))
  }

  function HandleWtMaxStreamData(s: Session, id: StreamId, max: nat): Session {
    if !ReceivableFlowCapsule(id, s.cfg.isServer) || HasReceivedStop(s, id) then
      ReportError(s, WT_STREAM_STATE_ERROR)
    else
      var previous := PreviousMaxStreamData(s, id);
      if previous.Some? && max < previous.value then ReportLimitError(s)
      else
        var keep := id in s.receivedMaxStreamData
                    || |s.receivedMaxStreamData| < MAX_RECEIVED_MAP_ENTRIES;
        var s1 := if keep then s.(receivedMaxStreamData := s.receivedMaxStreamData[id := max]) else s;
        if id in s.streams && max > s.streams[id].maxLocal
        then FlushPending(Put(s1, id, s.streams[id].(maxLocal := max, dataBlockedSent := false)))
        else s1
  }

  function HandleWtMaxStreams(s: Session, bidi: bool, max: nat): Session {
    var n := Count(s, bidi);
    if max > MAX_STREAMS || (n.received.Some? && max < n.received.value) then ReportLimitError(s)
    else WithCount(s, bidi, n.(received := Some(max), maxLocal := Max(n.maxLocal, max),
                               blockedSent := n.blockedSent && max <= n.maxLocal))
  }

  function HandleWtStreamDataBlocked(s: Session, id: StreamId): Session {
    if || !ReceivableDataCapsule(id, s.cfg.isServer)
       || (id in s.streams && RecvDone(s.streams[id]))
       || id in s.released
    then ReportError(s, WT_STREAM_STATE_ERROR)
    else s
  }

  function HandleWtStreamsBlocked(s: Session, max: nat): Session {
    if max > MAX_STREAMS then ReportLimitError(s) else s
  }

  /** The session is over; its entry, and so everything still queued, is dropped. */
  function HandleWtCloseSession(s: Session, code: ErrorCode, message: seq<Byte>): Session {
    Push(s, SessionClosed(code, message)).(terminated := true, established := false)
  }

  function Dispatch(s: Session, c: Capsule): Session {
    match c
    case Datagram(payload) => Push(s, DatagramReceived(payload))
    case WtResetStream(id, code, size) => HandleWtResetStream(s, id, code, size)
    case WtStopSending(id, code) => HandleWtStopSending(s, id, code)
    case WtStream(id, data, fin) => HandleWtStream(s, id, data, fin)
    case WtMaxData(max) => HandleWtMaxData(s, max)
    case WtMaxStreamData(id, max) => HandleWtMaxStreamData(s, id, max)
    case WtMaxStreams(bidi, max) => HandleWtMaxStreams(s, bidi, max)
    case WtDataBlocked(_) => s
    case WtStreamDataBlocked(id, _) => HandleWtStreamDataBlocked(s, id)
    case WtStreamsBlocked(_, max) => HandleWtStreamsBlocked(s, max)
    case WtCloseSession(code, message) => HandleWtCloseSession(s, code, message)
    case WtDrainSession => Push(s, SessionDraining)
  }

  /** Processing one capsule. A terminated session throws away whatever still arrives. */
  function Receive(s: Session, c: Capsule): Session {
    if s.terminated then s else Dispatch(s.(received := s.received + [c]), c)
  }
}
