/**
 * One endpoint against an arbitrary peer, over whole runs: what it queues is in the
 * language of the draft, and the bytes and FINs of every stream are queued in the order
 * they were handed over, each exactly once.
 */
module Conservation {
  import opened Capsules
  import opened Engine
  import opened Trace
  import opened Sending
  import opened Conduct
  import opened Dialogue
  import opened Hearing
  import opened Endpoint
  import opened Queues

  // ---------- API calls ----------

  /** What a call accepts for stream `id`. Data for a finished, reset or unknown stream is dropped. */
  function Accepted(s: Session, call: Call, id: StreamId): Extra {
    if call.Send? && call.id == id && AcceptsSend(s, id)
    then Extra(call.data, call.fin, call.data == [] && Unsent(s, id) != [])
    else NoExtra
  }

  lemma BytesAppend(p: seq<PendingSend>, e: PendingSend)
    ensures Bytes(p + [e]) == Bytes(p) + e.data
  {
    if p == [] {
      assert Bytes([e]) == e.data + Bytes([]);
    } else {
      assert (p + [e])[1..] == p[1..] + [e];
      BytesAppend(p[1..], e);
      assert p[0].data + (Bytes(p[1..]) + e.data) == (p[0].data + Bytes(p[1..])) + e.data;
    }
  }

  lemma HasEmptyAppend(p: seq<PendingSend>, e: PendingSend)
    ensures HasEmpty(p + [e]) <==> HasEmpty(p) || e.data == []
  {
    var l := p + [e];
    if HasEmpty(p) { var k :| 0 <= k < |p| && p[k].data == []; assert l[k] == p[k]; }
    if e.data == [] { assert l[|p|] == e; }
    if HasEmpty(l) && e.data != [] { var k :| 0 <= k < |l| && l[k].data == []; assert p[k] == l[k]; }
  }

  lemma AppendServes(q: Queue, r: Queue, e: PendingSend)
    requires q.ending == Open && q.unsent != [] && !HasFin(q.unsent)
    requires r == q.(unsent := q.unsent + [e])
    ensures Serves(q, r, Extra(e.data, e.fin, e.data == []))
  {
    BytesAppend(q.unsent, e);
    HasEmptyAppend(q.unsent, e);
    hide Bytes, HasEmpty;
    assert q.said + (Bytes(q.unsent) + e.data) == (q.said + Bytes(q.unsent)) + e.data;
  }

  /** Part of fresh data was sent; the rest, not empty, waits because credit ran out. */
  lemma SplitServes(q: Queue, r: Queue, data: seq<Byte>, n: nat, fin: bool)
    requires q.ending == Open && q.unsent == [] && n < |data|
    requires r == Queue(q.said + data[..n], Open, [PendingSend(data[n..], fin)], r.starved) && r.starved
    ensures Serves(q, r, Extra(data, fin, false))
  {
    assert Bytes(r.unsent) == data[n..] + Bytes([]);
    assert !HasEmpty(r.unsent) && !HasEmpty(q.unsent);
    assert q.said + data[..n] + data[n..] == q.said + data;
    assert q.said + [] == q.said;
  }

  lemma WholeFreshServes(q: Queue, r: Queue, data: seq<Byte>, fin: bool)
    requires q.ending == Open && q.unsent == []
    requires r == Queue(q.said + data, if fin then Finished else Open, [], r.starved)
    ensures Serves(q, r, Extra(data, fin, false))
  {
    assert q.said + [] == q.said && q.said + data + [] == q.said + data;
  }

  lemma ReadyIsOpen(s: Session, id: StreamId)
    requires SendInv(s) && AcceptsSend(s, id)
    ensures Said(s, id).ending == Open && !HasFin(Unsent(s, id))
  {
    hide Legal, StreamView, SessionTotals;
    assert SendOk(s, id);
  }

  lemma SetPendingQueue(s: Session, id: StreamId, p: seq<PendingSend>, i: StreamId)
    requires id in s.streams
    ensures QueueOf(SetPending(s, id, p), i) == if i == id then QueueOf(s, i).(unsent := p) else QueueOf(s, i)
  {
    hide StreamView;
  }

  lemma FreshChunk(s: Session, id: StreamId, data: seq<Byte>, fin: bool)
    requires id in s.streams && s.streams[id].pending == []
    ensures SendChunk(SetPending(s, id, []), id, data, fin) == SendChunk(s, id, data, fin)
  {
    assert SetPending(s, id, []) == s;
  }

  lemma BlockedStarved(s: Session, id: StreamId, a: nat, b: nat)
    requires id in s.streams
    ensures Starved(ReportBlocked(s, id, a, b), id) == Starved(s, id)
  {
    var s1 := if a <= b then ReportSessionBlocked(s) else s;
    var s2 := if b <= a then ReportStreamBlocked(s1, id) else s1;
    assert s1.streams == s.streams && s1.bytesSent == s.bytesSent && s1.maxDataLocal == s.maxDataLocal;
    assert s2.bytesSent == s1.bytesSent && s2.maxDataLocal == s1.maxDataLocal;
    hide ReportBlocked, ReportSessionBlocked;
  }

  function FirstPart(s: Session, id: StreamId, data: seq<Byte>): Session
    requires id in s.streams
  {
    var n := Sendable(s, s.streams[id], |data|);
    if 0 < n <= |data| then SendChunk(s, id, data[..n], false) else s
  }

  /** Sending what credit allows uses that credit up. */
  lemma FirstPartQueue(s: Session, id: StreamId, data: seq<Byte>)
    requires SendInv(s) && AcceptsSend(s, id) && s.streams[id].pending == []
    requires Sendable(s, s.streams[id], |data|) < |data|
    ensures id in FirstPart(s, id, data).streams
    ensures QueueOf(FirstPart(s, id, data), id)
         == Queue(Said(s, id).data + data[..Sendable(s, s.streams[id], |data|)], Open, [], true)
  {
    ReadyIsOpen(s, id);
    hide SendInv, StreamView;
    var n := Sendable(s, s.streams[id], |data|);
    FreshChunk(s, id, data[..n], false);
    ChunkQueue(s, id, data[..n], false, []);
    if n == 0 {
      assert Said(s, id).data + data[..0] == Said(s, id).data;
      assert Starved(s, id);
    } else {
      hide SendChunk;
    }
  }

  /** The first part of fresh data is sent and the rest is queued. */
  lemma SendPartServes(s: Session, id: StreamId, data: seq<Byte>, fin: bool, i: StreamId)
    requires SendInv(s) && AcceptsSend(s, id) && s.streams[id].pending == []
    requires Sendable(s, s.streams[id], |data|) < |data|
    ensures Serves(QueueOf(s, i), QueueOf(SendStreamData(s, id, data, fin), i),
                   if i == id then Extra(data, fin, false) else NoExtra)
  {
    FirstPartQueue(s, id, data);
    ReadyIsOpen(s, id);
    hide SendInv, StreamView, Serves, Calm, ReportBlocked, SendChunk, SetPending, AcceptsSend, Sendable, Starved;
    var n := Sendable(s, s.streams[id], |data|);
    var a, b := SessionAvail(s, |data|), StreamAvail(s.streams[id], |data|);
    var s1 := FirstPart(s, id, data);
    var s2 := ReportBlocked(s1, id, a, b);
    var s3 := SetPending(s2, id, [PendingSend(data[n..], fin)]);
    BlockedStarved(s1, id, a, b);
    BlockedOnward(s1, id, a, b);
    BlockedCalm(s1, id, a, b, i);
    SetPendingQueue(s2, id, [PendingSend(data[n..], fin)], i);
    assert s3 == SendStreamData(s, id, data, fin) by { PartIsThis(s, id, data, fin); }
    SendPartEnds(s, s1, s2, s3, id, data, n, fin, i);
  }

  lemma PartIsThis(s: Session, id: StreamId, data: seq<Byte>, fin: bool)
    requires AcceptsSend(s, id) && s.streams[id].pending == []
    requires Sendable(s, s.streams[id], |data|) < |data|
    requires id in FirstPart(s, id, data).streams
    requires id in ReportBlocked(FirstPart(s, id, data), id, SessionAvail(s, |data|), StreamAvail(s.streams[id], |data|)).streams
    ensures SendStreamData(s, id, data, fin)
         == SetPending(ReportBlocked(FirstPart(s, id, data), id, SessionAvail(s, |data|), StreamAvail(s.streams[id], |data|)),
                       id, [PendingSend(data[Sendable(s, s.streams[id], |data|)..], fin)])
  {
    hide ReportBlocked, SendChunk, SetPending, Sendable;
  }

  lemma SendPartEnds(s: Session, s1: Session, s2: Session, s3: Session, id: StreamId, data: seq<Byte>, n: nat,
                     fin: bool, i: StreamId)
    requires id in s.streams && n < |data| && QueueOf(s, id).ending == Open && Unsent(s, id) == []
    requires s1 == if n > 0 then SendChunk(s, id, data[..n], false) else s
    requires QueueOf(s1, id) == Queue(QueueOf(s, id).said + data[..n], Open, [], true)
    requires Calm(QueueOf(s1, i), QueueOf(s2, i)) && QueueOf(s2, id).starved
    requires QueueOf(s3, i) == if i == id then QueueOf(s2, i).(unsent := [PendingSend(data[n..], fin)]) else QueueOf(s2, i)
    ensures Serves(QueueOf(s, i), QueueOf(s3, i), if i == id then Extra(data, fin, false) else NoExtra)
  {
    hide StreamView, Serves;
    if i == id {
      SplitServes(QueueOf(s, id), QueueOf(s3, id), data, n, fin);
    } else {
      if n > 0 {
        FreshChunk(s, id, data[..n], false);
        ChunkCalm(s, id, data[..n], false, [], i);
      }
      CalmServes(QueueOf(s, i), QueueOf(s3, i));
    }
  }

  lemma SendWholeServes(s: Session, id: StreamId, data: seq<Byte>, fin: bool, i: StreamId)
    requires SendInv(s) && AcceptsSend(s, id) && s.streams[id].pending == []
    requires Sendable(s, s.streams[id], |data|) >= |data|
    ensures Serves(QueueOf(s, i), QueueOf(SendStreamData(s, id, data, fin), i),
                   if i == id then Extra(data, fin, false) else NoExtra)
  {
    ReadyIsOpen(s, id);
    var s1 := SendChunk(s, id, data, fin);
    assert SendInv(s1) by {
      hide SendInv, SendChunk;
      assert SendableStream(s.streams[id]);
      ChunkKeeps(s, id, data, fin);
    }
    hide SendInv, StreamView, Serves, Calm, SendChunk, Sendable, MaybeRelease;
    FreshChunk(s, id, data, fin);
    if i == id {
      ChunkQueue(s, id, data, fin, []);
      WholeFreshServes(QueueOf(s, i), QueueOf(s1, i), data, fin);
    } else {
      ChunkCalm(s, id, data, fin, [], i);
      CalmServes(QueueOf(s, i), QueueOf(s1, i));
    }
    if fin {
      ReleaseCalm(s1, id, i);
      ThenCalm(QueueOf(s, i), QueueOf(s1, i), QueueOf(MaybeRelease(s1, id), i),
               if i == id then Extra(data, fin, false) else NoExtra);
    }
  }

  lemma SendServes(s: Session, id: StreamId, data: seq<Byte>, fin: bool, i: StreamId)
    requires SendInv(s)
    ensures Serves(QueueOf(s, i), QueueOf(SendStreamData(s, id, data, fin), i), Accepted(s, Send(id, data, fin), i))
  {
    if !AcceptsSend(s, id) {
      hide SendInv, StreamView, Serves;
      ServesSelf(QueueOf(s, i));
    } else if s.streams[id].pending != [] {
      ReadyIsOpen(s, id);
      hide SendInv, StreamView, Serves, HasFin;
      SetPendingQueue(s, id, s.streams[id].pending + [PendingSend(data, fin)], i);
      if i == id {
        AppendServes(QueueOf(s, i), QueueOf(SendStreamData(s, id, data, fin), i), PendingSend(data, fin));
      } else {
        ServesSelf(QueueOf(s, i));
      }
    } else {
      hide SendInv, StreamView, Serves, SendStreamData, Sendable, QueueOf;
      if Sendable(s, s.streams[id], |data|) < |data| {
        SendPartServes(s, id, data, fin, i);
      } else {
        SendWholeServes(s, id, data, fin, i);
      }
    }
  }

  lemma DroppedServes(q: Queue, r: Queue)
    requires q.ending == Open && r == q.(ending := WasReset, unsent := [])
    ensures Serves(q, r, NoExtra)
  {
    assert Committed(q) + [] == Committed(q);
  }

  lemma MarkResetQueue(s: Session, id: StreamId, code: ErrorCode)
    requires SendInv(s) && id in s.streams && !SendDone(s.streams[id])
    ensures QueueOf(s, id).ending == Open
    ensures QueueOf(MarkReset(s, id, code), id) == QueueOf(s, id).(ending := WasReset, unsent := [])
  {
    StreamViewSnoc(s.cfg.initStreamData, s.emitted, WtResetStream(id, code, s.streams[id].bytesSent), id);
    assert Said(s, id).ending == Open by { hide Legal, StreamView, SessionTotals; assert SendOk(s, id); }
    hide SendInv, StreamView;
  }

  /** A reset drops what waits; nothing more is said on the stream. */
  lemma MarkResetServes(s: Session, id: StreamId, code: ErrorCode, i: StreamId)
    requires SendInv(s) && id in s.streams && !SendDone(s.streams[id])
    ensures Serves(QueueOf(s, i), QueueOf(MarkReset(s, id, code), i), NoExtra)
  {
    hide SendInv, Serves, QueueOf, Calm;
    if i == id {
      MarkResetQueue(s, id, code);
      DroppedServes(QueueOf(s, i), QueueOf(MarkReset(s, id, code), i));
    } else {
      EmitCalm(s, MarkReset(s, id, code), WtResetStream(id, code, s.streams[id].bytesSent), i);
      CalmServes(QueueOf(s, i), QueueOf(MarkReset(s, id, code), i));
    }
  }

  lemma ResetServes(s: Session, id: StreamId, code: ErrorCode, i: StreamId)
    requires SendInv(s) && (id in s.streams ==> ReceivableDataCapsule(id, !s.cfg.isServer))
    ensures Serves(QueueOf(s, i), QueueOf(ResetStream(s, id, code), i), NoExtra)
  {
    hide SendInv, StreamView, Serves, Calm, MaybeRelease, MarkReset;
    ServesSelf(QueueOf(s, i));
    if !s.terminated && id in s.streams && !SendDone(s.streams[id]) {
      var s1 := MarkReset(s, id, code);
      ResetIsMark(s, id, code);
      MarkResetKeeps(s, id, code);
      MarkResetServes(s, id, code, i);
      ReleaseCalm(s1, id, i);
      ThenCalm(QueueOf(s, i), QueueOf(s1, i), QueueOf(MaybeRelease(s1, id), i), NoExtra);
    }
  }

  lemma CreateCalm(s: Session, id: StreamId, i: StreamId)
    requires id !in s.streams
    ensures Calm(QueueOf(s, i), QueueOf(Put(s, id, NewStream(s, id)), i))
  {
    hide StreamView;
  }

  lemma OpenCalm(s: Session, uni: bool, i: StreamId)
    ensures Calm(QueueOf(s, i), QueueOf(OpenStream(s, uni).0, i))
  {
    var n := Count(s, !uni);
    var s' := OpenStream(s, uni).0;
    assert NewStream(WithCount(s, !uni, n.(next := n.next + 1)), NextId(s, uni)) == NewStream(s, NextId(s, uni));
    hide Calm, QueueOf, NewStream;
    SilentCalm(s, s, i);
    if s.established && n.next < n.maxLocal && NextId(s, uni) !in s.streams {
      var s1 := WithCount(s, !uni, n.(next := n.next + 1));
      SilentCalm(s, s1, i);
      CreateCalm(s1, NextId(s, uni), i);
      CalmTransitive(QueueOf(s, i), QueueOf(s1, i), QueueOf(s', i));
    } else if s' != s {
      EmitCalm(s, s', WtStreamsBlocked(!uni, n.maxLocal), i);
    }
  }

  lemma CalmTransitive(q: Queue, r: Queue, t: Queue)
    requires Calm(q, r) && Calm(r, t)
    ensures Calm(q, t)
  {
  }

  lemma NoticesCalm(s: Session, call: Call, i: StreamId)
    requires call.Stop? || call.SendDgram? || call.DrainCall?
    ensures Calm(QueueOf(s, i), QueueOf(Apply(s, call), i))
  {
    hide Calm, QueueOf;
    var s' := Apply(s, call);
    SilentCalm(s, s, i);
    if s' != s {
      var c := match call case Stop(id, code) => WtStopSending(id, code)
                          case SendDgram(payload) => Datagram(payload) case _ => WtDrainSession;
      EmitCalm(s, s', c, i);
    }
  }

  /** Every call serves every queue, and adds exactly what it accepted. */
  lemma ApplyServes(s: Session, call: Call, i: StreamId)
    requires SendInv(s) && Proper(s, call)
    ensures Serves(QueueOf(s, i), QueueOf(Apply(s, call), i), Accepted(s, call, i))
  {
    hide SendInv, Serves, Calm, QueueOf, SendStreamData, ResetStream, OpenStream, CloseSession;
    match call
    case OpenCall(uni) =>
      OpenCalm(s, uni, i);
      CalmServes(QueueOf(s, i), QueueOf(Apply(s, call), i));
    case Send(id, data, fin) => SendServes(s, id, data, fin, i);
    case Reset(id, code) => ResetServes(s, id, code, i);
    case Close(code, message) =>
      CloseCalm(s, code, message, i);
      CalmServes(QueueOf(s, i), QueueOf(Apply(s, call), i));
    case _ =>
      NoticesCalm(s, call, i);
      CalmServes(QueueOf(s, i), QueueOf(Apply(s, call), i));
  }

  // ---------- Handlers ----------

  lemma AcceptCalm(s: Session, id: StreamId, data: seq<Byte>, fin: bool, i: StreamId)
    requires SendInv(s) && !s.terminated && id in s.streams && ReceivableDataCapsule(id, s.cfg.isServer)
    ensures Calm(QueueOf(s, i), QueueOf(AcceptWtStream(s, id, data, fin), i))
  {
    hide MaybeSendMaxData, MaybeSendMaxStreamData, MaybeRelease, ReportError, SendInv, Calm, QueueOf;
    var st := s.streams[id];
    if || (data != [] && RecvDone(st))
       || s.bytesReceived + |data| > s.maxDataRemote
       || st.bytesReceived + |data| > st.maxRemote {
      ReportCalm(s, WT_STREAM_STATE_ERROR, i);
      ReportCalm(s, WT_FLOW_CONTROL_ERROR, i);
    } else {
      var s1 := RecvChunk(s, id, data, fin);
      var s2 := MaybeSendMaxData(s1);
      var s3 := MaybeSendMaxStreamData(s2, id);
      RecvChunkKeeps(s, id, data, fin);
      ReplenishKeeps(s1, id);
      SilentCalm(s, s1, i);
      MaxDataCalm(s1, i);
      MaxStreamDataCalm(s2, id, i);
      CalmTransitive(QueueOf(s, i), QueueOf(s1, i), QueueOf(s2, i));
      CalmTransitive(QueueOf(s, i), QueueOf(s2, i), QueueOf(s3, i));
      if fin {
        ReleaseCalm(s3, id, i);
        CalmTransitive(QueueOf(s, i), QueueOf(s3, i), QueueOf(MaybeRelease(s3, id), i));
      }
    }
  }

  lemma HandleWtStreamCalm(s: Session, id: StreamId, data: seq<Byte>, fin: bool, i: StreamId)
    requires SendInv(s) && !s.terminated && (ReceivableDataCapsule(id, s.cfg.isServer) ==> Recalls(s, id))
    ensures Calm(QueueOf(s, i), QueueOf(HandleWtStream(s, id, data, fin), i))
  {
    hide SendInv, AcceptWtStream, ReportError, NewStream, Calm, QueueOf;
    ReportCalm(s, WT_STREAM_STATE_ERROR, i);
    ReportCalm(s, WT_FLOW_CONTROL_ERROR, i);
    SilentCalm(s, s, i);
    if ReceivableDataCapsule(id, s.cfg.isServer) {
      if id in s.streams {
        AcceptCalm(s, id, data, fin, i);
      } else if id !in s.released && !ExceedsStreamLimit(s, id) {
        var s1 := Put(s, id, NewStream(s, id));
        CreateKeeps(s, id);
        CreateCalm(s, id, i);
        AcceptCalm(s1, id, data, fin, i);
        CalmTransitive(QueueOf(s, i), QueueOf(s1, i), QueueOf(AcceptWtStream(s1, id, data, fin), i));
      }
    }
  }

  lemma RecvResetCalm(s: Session, id: StreamId, code: ErrorCode, i: StreamId)
    requires SendInv(s) && id in s.streams
    ensures Calm(QueueOf(s, i), QueueOf(RecvReset(s, id, code), i))
  {
    var s1 := NoteReset(s, id, code);
    NoteResetKeeps(s, id, code);
    hide SendInv, MaybeRelease, Calm, QueueOf;
    SilentCalm(s, s1, i);
    ReleaseCalm(s1, id, i);
    CalmTransitive(QueueOf(s, i), QueueOf(s1, i), QueueOf(MaybeRelease(s1, id), i));
  }

  lemma HandleWtResetStreamCalm(s: Session, id: StreamId, code: ErrorCode, size: nat, i: StreamId)
    requires SendInv(s) && !s.terminated && (ReceivableDataCapsule(id, s.cfg.isServer) ==> Recalls(s, id))
    ensures Calm(QueueOf(s, i), QueueOf(HandleWtResetStream(s, id, code, size), i))
  {
    hide SendInv, RecvReset, ReportError, NewStream, Calm, QueueOf;
    ReportCalm(s, WT_STREAM_STATE_ERROR, i);
    ReportCalm(s, WT_FLOW_CONTROL_ERROR, i);
    if ReceivableDataCapsule(id, s.cfg.isServer) {
      if id in s.streams {
        RecvResetCalm(s, id, code, i);
      } else if id !in s.released && !ExceedsStreamLimit(s, id) {
        var s1 := Put(s, id, NewStream(s, id));
        CreateKeeps(s, id);
        CreateCalm(s, id, i);
        RecvResetCalm(s1, id, code, i);
        CalmTransitive(QueueOf(s, i), QueueOf(s1, i), QueueOf(RecvReset(s1, id, code), i));
      }
    }
  }

  lemma NoteStopCalm(s: Session, id: StreamId, code: ErrorCode, i: StreamId)
    ensures Calm(QueueOf(s, i), QueueOf(NoteStop(s, id, code), i))
  {
    hide Calm, QueueOf;
    SilentCalm(s, NoteStop(s, id, code), i);
  }

  lemma HandleWtStopSendingServes(s: Session, id: StreamId, code: ErrorCode, i: StreamId)
    requires SendInv(s) && !s.terminated
    ensures Serves(QueueOf(s, i), QueueOf(HandleWtStopSending(s, id, code), i), NoExtra)
  {
    hide SendInv, NoteStop, ReportError, ResetStream, Calm, QueueOf, Serves;
    ReportCalm(s, WT_STREAM_STATE_ERROR, i);
    CalmServes(QueueOf(s, i), QueueOf(ReportError(s, WT_STREAM_STATE_ERROR), i));
    if ReceivableFlowCapsule(id, s.cfg.isServer) {
      var s1 := NoteStop(s, id, code);
      NoteStopKeeps(s, id, code);
      NoteStopCalm(s, id, code, i);
      CalmServes(QueueOf(s, i), QueueOf(s1, i));
      ResetServes(s1, id, code, i);
      CalmThen(QueueOf(s, i), QueueOf(s1, i), QueueOf(ResetStream(s1, id, code), i), NoExtra);
    }
  }

  /** Raising a limit and flushing: whatever waited, nothing waits afterwards that credit would carry. */
  lemma RaiseServes(s: Session, s1: Session, i: StreamId)
    requires SendInv(s1) && !s1.terminated
    requires s1.emitted == s.emitted && s1.cfg == s.cfg && Unsent(s1, i) == Unsent(s, i)
    ensures Serves(QueueOf(s, i), QueueOf(FlushPending(s1), i), NoExtra)
  {
    FlushServes(s1, i);
    hide SendInv, FlushPending, Bytes, HasEmpty, HasFin, StreamView;
    assert QueueOf(s1, i) == QueueOf(s, i).(starved := QueueOf(s1, i).starved);
  }

  lemma HandleWtMaxDataServes(s: Session, max: nat, i: StreamId)
    requires SendInv(s) && !s.terminated
    ensures Serves(QueueOf(s, i), QueueOf(HandleWtMaxData(s, max), i), NoExtra)
  {
    hide ReportLimitError, FlushPending, Calm, QueueOf, Serves, SendOk, SessionTotals, Legal;
    if s.receivedMaxData.Some? && max < s.receivedMaxData.value {
      ReportCalm(s, WT_FLOW_CONTROL_ERROR, i);
      CalmServes(QueueOf(s, i), QueueOf(ReportLimitError(s), i));
    } else if max > s.maxDataLocal {
      var s1 := s.(receivedMaxData := Some(max), maxDataLocal := max, dataBlockedSent := false);
      QuietKeeps(s, s1);
      RaiseServes(s, s1, i);
    } else {
      SilentCalm(s, s.(receivedMaxData := Some(max)), i);
      CalmServes(QueueOf(s, i), QueueOf(s.(receivedMaxData := Some(max)), i));
    }
  }

  lemma HandleWtMaxStreamDataServes(s: Session, id: StreamId, max: nat, i: StreamId)
    requires SendInv(s) && !s.terminated
    ensures Serves(QueueOf(s, i), QueueOf(HandleWtMaxStreamData(s, id, max), i), NoExtra)
  {
    hide SendInv, ReportLimitError, ReportError, FlushPending, Calm, QueueOf, Serves, PreviousMaxStreamData, HasReceivedStop;
    ReportCalm(s, WT_STREAM_STATE_ERROR, i);
    CalmServes(QueueOf(s, i), QueueOf(ReportLimitError(s), i));
    CalmServes(QueueOf(s, i), QueueOf(ReportError(s, WT_STREAM_STATE_ERROR), i));
    var keep := id in s.receivedMaxStreamData || |s.receivedMaxStreamData| < MAX_RECEIVED_MAP_ENTRIES;
    var s1 := if keep then s.(receivedMaxStreamData := s.receivedMaxStreamData[id := max]) else s;
    SilentCalm(s, s1, i);
    CalmServes(QueueOf(s, i), QueueOf(s1, i));
    if id in s.streams && max > s.streams[id].maxLocal {
      RaiseStream(s, s1, id, max);
      RaiseServes(s, Put(s1, id, s.streams[id].(maxLocal := max, dataBlockedSent := false)), i);
    }
  }

  lemma RaiseStream(s: Session, s1: Session, id: StreamId, max: nat)
    requires SendInv(s) && id in s.streams && max > s.streams[id].maxLocal
    requires s1 == s.(receivedMaxStreamData := s1.receivedMaxStreamData)
    ensures SendInv(Put(s1, id, s.streams[id].(maxLocal := max, dataBlockedSent := false)))
  {
    hide Legal, StreamView, SessionTotals;
    assert SendOk(s, id);
    var st := s.streams[id].(maxLocal := max, dataBlockedSent := false);
    PutKeeps(s, Put(s1, id, st), id, st);
  }

  lemma HandleRestCalm(s: Session, c: Capsule, i: StreamId)
    requires c.Datagram? || c.WtMaxStreams? || c.WtDataBlocked? || c.WtStreamDataBlocked? || c.WtStreamsBlocked?
          || c.WtCloseSession? || c.WtDrainSession?
    ensures Calm(QueueOf(s, i), QueueOf(Dispatch(s, c), i))
  {
    hide Calm, QueueOf, ReportError, ReportLimitError;
    ReportCalm(s, WT_STREAM_STATE_ERROR, i);
    if Dispatch(s, c) != ReportError(s, WT_STREAM_STATE_ERROR) && Dispatch(s, c) != ReportLimitError(s) {
      SilentCalm(s, Dispatch(s, c), i);
    }
  }

  lemma DispatchServes(s: Session, c: Capsule, i: StreamId)
    requires SendInv(s) && !s.terminated
    requires Creates(c) && ReceivableDataCapsule(c.id, s.cfg.isServer) ==> Recalls(s, c.id)
    ensures Serves(QueueOf(s, i), QueueOf(Dispatch(s, c), i), NoExtra)
  {
    hide SendInv, Serves, Calm, QueueOf, HandleWtStream, HandleWtResetStream, HandleWtStopSending, HandleWtMaxData,
         HandleWtMaxStreamData;
    match c
    case WtStream(id, data, fin) =>
      HandleWtStreamCalm(s, id, data, fin, i);
      CalmServes(QueueOf(s, i), QueueOf(HandleWtStream(s, id, data, fin), i));
    case WtResetStream(id, code, size) =>
      HandleWtResetStreamCalm(s, id, code, size, i);
      CalmServes(QueueOf(s, i), QueueOf(HandleWtResetStream(s, id, code, size), i));
    case WtStopSending(id, code) => HandleWtStopSendingServes(s, id, code, i);
    case WtMaxData(max) => HandleWtMaxDataServes(s, max, i);
    case WtMaxStreamData(id, max) => HandleWtMaxStreamDataServes(s, id, max, i);
    case _ =>
      HandleRestCalm(s, c, i);
      CalmServes(QueueOf(s, i), QueueOf(Dispatch(s, c), i));
  }

  /** Every capsule serves every queue and adds nothing. */
  lemma ReceiveServes(s: Session, c: Capsule, i: StreamId)
    requires SendInv(s)
    requires Creates(c) && ReceivableDataCapsule(c.id, s.cfg.isServer) ==> Recalls(s, c.id)
    ensures Serves(QueueOf(s, i), QueueOf(Receive(s, c), i), NoExtra)
  {
    hide SendInv, Serves, Calm, QueueOf, Dispatch;
    if s.terminated {
      ServesSelf(QueueOf(s, i));
    } else {
      var s1 := Heed(s, c);
      HeedKeeps(s, c);
      SilentCalm(s, s1, i);
      DispatchServes(s1, c, i);
      CalmThen(QueueOf(s, i), QueueOf(s1, i), QueueOf(Dispatch(s1, c), i), NoExtra);
    }
  }
}
