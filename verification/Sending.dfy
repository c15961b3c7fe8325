/**
 * What an endpoint keeps about the capsules it has queued, whatever its peer sends:
 * its counters agree with its own words, its words are in the language of the draft,
 * and it never passes the limits it was given.
 */
module Sending {
  import opened Capsules
  import Utf8
  import opened Engine
  import opened Trace

  function SpeakerOf(s: Session): Speaker {
    Speaker(s.cfg.isServer, Limits(s.cfg.initData, s.cfg.initBidi, s.cfg.initUni), s.cfg.initStreamData)
  }

  /** What `s` has said about a stream. */
  function Said(s: Session, id: StreamId): View { StreamView(s.cfg.initStreamData, s.emitted, id) }

  function SaidTotals(s: Session): Totals { SessionTotals(SpeakerOf(s).limits, s.emitted) }

  /** Only the last entry of a queue may carry the FIN. */
  predicate FinOnlyLast(p: seq<PendingSend>) {
    forall k :: 0 <= k < |p| - 1 ==> !p[k].fin
  }

  predicate EntryMatches(st: Stream, v: View, id: StreamId, isServer: bool) {
    && st.isLocal == LocalTo(isServer, id) && st.isUni == id.uni
    && st.bytesSent == |v.data| <= st.maxLocal
    && (st.sendState == Ready <==> v.ending == Open)
    && (st.sendState == ResetSent <==> v.ending == WasReset)
    && st.bytesReceived <= st.maxRemote == v.max <= MAX_VARINT
    && FinOnlyLast(st.pending)
    && (st.pending != [] ==> !SendDone(st) && SendableStream(st))
  }

  ghost predicate SendOk(s: Session, id: StreamId) {
    var v := Said(s, id);
    && (id in s.sentStops <==> v.stopped)
    && (id in s.streams ==> id !in s.freed && EntryMatches(s.streams[id], v, id, s.cfg.isServer))
    && (id !in s.streams && id !in s.freed ==> v == InitialView(s.cfg.initStreamData))
  }

  ghost predicate SessionSendOk(s: Session) {
    var t := SaidTotals(s);
    && s.bytesSent == t.data <= s.maxDataLocal
    && s.bytesReceived <= s.maxDataRemote == t.max.data <= MAX_VARINT
    && s.bidi.maxRemote == t.max.bidi <= MAX_STREAMS
    && s.uni.maxRemote == t.max.uni <= MAX_STREAMS
    && s.bidi.next <= s.bidi.maxLocal <= MAX_STREAMS
    && s.uni.next <= s.uni.maxLocal <= MAX_STREAMS
    && (t.closed ==> s.terminated)
    && (s.terminated ==> !s.established)
    && s.cfg.initStreamData <= MAX_VARINT
  }

  ghost predicate SendInv(s: Session) {
    && SessionSendOk(s)
    && Legal(SpeakerOf(s), s.emitted)
    && forall id :: SendOk(s, id)
  }

  // ---------- Steps that queue nothing ----------

  /** The fields of `s` that the invariant does not look at may change freely. */
  predicate SameWords(s: Session, s': Session) {
    && s'.cfg == s.cfg && s'.emitted == s.emitted && s'.sentStops == s.sentStops
    && s'.bytesSent == s.bytesSent && s'.maxDataRemote == s.maxDataRemote
    && s'.bidi.maxRemote == s.bidi.maxRemote && s'.uni.maxRemote == s.uni.maxRemote
    && (s.terminated ==> s'.terminated)
  }

  predicate LimitsHold(s: Session) {
    && s.bytesSent <= s.maxDataLocal
    && s.bytesReceived <= s.maxDataRemote
    && s.bidi.next <= s.bidi.maxLocal <= MAX_STREAMS
    && s.uni.next <= s.uni.maxLocal <= MAX_STREAMS
    && (s.terminated ==> !s.established)
  }

  /** A step that queues nothing and leaves every entry alone. */
  lemma QuietKeeps(s: Session, s': Session)
    requires SendInv(s) && SameWords(s, s') && LimitsHold(s')
    requires s'.streams == s.streams && s'.freed == s.freed
    ensures SendInv(s')
  {
    forall id ensures SendOk(s', id) { assert SendOk(s, id); }
  }

  /** A step that queues nothing and changes one entry, or creates it for an untouched stream. */
  lemma PutKeeps(s: Session, s': Session, id: StreamId, st: Stream)
    requires SendInv(s) && SameWords(s, s') && LimitsHold(s')
    requires s'.streams == s.streams[id := st] && s'.freed == s.freed && id !in s.freed
    requires EntryMatches(st, Said(s, id), id, s.cfg.isServer)
    ensures SendInv(s')
  {
    forall i ensures SendOk(s', i) { assert SendOk(s, i); }
  }

  lemma CreateKeeps(s: Session, id: StreamId)
    requires SendInv(s) && id !in s.streams && id !in s.freed
    ensures SendInv(Put(s, id, NewStream(s, id)))
  {
    assert SendOk(s, id);
    PutKeeps(s, Put(s, id, NewStream(s, id)), id, NewStream(s, id));
  }

  lemma SetPendingKeeps(s: Session, id: StreamId, p: seq<PendingSend>)
    requires SendInv(s) && id in s.streams && FinOnlyLast(p)
    requires p != [] ==> !SendDone(s.streams[id]) && SendableStream(s.streams[id])
    ensures SendInv(SetPending(s, id, p))
  {
    assert SendOk(s, id);
    PutKeeps(s, SetPending(s, id, p), id, s.streams[id].(pending := p));
  }

  // ---------- Steps that queue one capsule ----------

  /** The capsule leaves the views of all streams but `id` as they were. */
  lemma ViewsElsewhere(init: nat, log: seq<Capsule>, c: Capsule, id: StreamId)
    requires !About(c, id)
    ensures StreamView(init, log + [c], id) == StreamView(init, log, id)
  {
    StreamViewSnoc(init, log, c, id);
  }

  predicate OneMore(s: Session, s': Session, c: Capsule) {
    s'.cfg == s.cfg && s'.emitted == s.emitted + [c]
  }

  /** Queueing a capsule about no stream. */
  lemma EmitSessionKeeps(s: Session, s': Session, c: Capsule)
    requires SendInv(s) && OneMore(s, s', c) && Allowed(SpeakerOf(s), s.emitted, c)
    requires SessionSendOk(s')
    requires forall id :: !About(c, id)
    requires s'.streams == s.streams && s'.freed == s.freed && s'.sentStops == s.sentStops
    ensures SendInv(s')
  {
    LegalSnoc(SpeakerOf(s), s.emitted, c);
    forall id ensures SendOk(s', id) {
      assert SendOk(s, id);
      ViewsElsewhere(s.cfg.initStreamData, s.emitted, c, id);
    }
  }

  /** Queueing a capsule about one stream that has an entry. */
  lemma EmitStreamKeeps(s: Session, s': Session, c: Capsule, id: StreamId, st: Stream)
    requires SendInv(s) && OneMore(s, s', c) && Allowed(SpeakerOf(s), s.emitted, c)
    requires SessionSendOk(s')
    requires forall i :: i != id ==> !About(c, i)
    requires id in s.streams && s'.streams == s.streams[id := st] && s'.freed == s.freed
    requires s'.sentStops == if c.WtStopSending? then s.sentStops + {id} else s.sentStops
    requires c.WtStopSending? ==> c.id == id
    requires EntryMatches(st, StepView(Said(s, id), c, id), id, s.cfg.isServer)
    ensures SendInv(s')
  {
    LegalSnoc(SpeakerOf(s), s.emitted, c);
    forall i ensures SendOk(s', i) {
      assert SendOk(s, i);
      StreamViewSnoc(s.cfg.initStreamData, s.emitted, c, i);
      if i != id { ViewsElsewhere(s.cfg.initStreamData, s.emitted, c, i); }
    }
  }

  lemma NotClosed(s: Session)
    requires SendInv(s) && !s.terminated
    ensures !SaidTotals(s).closed
  {
  }

  /** A capsule that only informs: it neither moves a limit nor belongs to a stream. */
  lemma EmitNoticeKeeps(s: Session, s': Session, c: Capsule)
    requires SendInv(s) && !s.terminated && OneMore(s, s', c)
    requires c.Datagram? || c.WtDrainSession? || c.WtDataBlocked? || c.WtStreamsBlocked? || c.WtCloseSession?
    requires c.WtStreamsBlocked? ==> c.max <= MAX_STREAMS
    requires c.WtDataBlocked? ==> c.max == s.bytesSent
    requires c.WtCloseSession? ==> s'.terminated && |c.message| <= MAX_MESSAGE && Utf8.WellFormed(c.message)
    requires LimitsHold(s') && s'.bytesSent == s.bytesSent && s'.maxDataRemote == s.maxDataRemote
    requires s'.bidi.maxRemote == s.bidi.maxRemote && s'.uni.maxRemote == s.uni.maxRemote
    requires s'.streams == s.streams && s'.freed == s.freed && s'.sentStops == s.sentStops
    ensures SendInv(s')
  {
    NotClosed(s);
    SessionTotalsSnoc(SpeakerOf(s).limits, s.emitted, c);
    EmitSessionKeeps(s, s', c);
  }

  lemma CloseKeeps(s: Session, code: ErrorCode, message: seq<Byte>)
    requires SendInv(s)
    ensures SendInv(CloseSession(s, code, message))
    ensures CloseSession(s, code, message).terminated
  {
    if !s.terminated {
      EmitNoticeKeeps(s, CloseSession(s, code, message), WtCloseSession(code, Utf8.Cut(message, MAX_MESSAGE)));
    }
  }

  lemma PushKeeps(s: Session, e: Event)
    requires SendInv(s)
    ensures SendInv(Push(s, e))
  {
    QuietKeeps(s, Push(s, e));
  }

  lemma ReportKeeps(s: Session, code: ErrorCode)
    requires SendInv(s)
    ensures SendInv(ReportError(s, code)) && ReportError(s, code).terminated
    ensures SendInv(ReportLimitError(s)) && ReportLimitError(s).terminated
  {
    PushKeeps(s, Error(code));
    CloseKeeps(Push(s, Error(code)), code, []);
    CloseKeeps(s, WT_FLOW_CONTROL_ERROR, []);
  }

  lemma MaxDataKeeps(s: Session)
    requires SendInv(s)
    ensures SendInv(MaybeSendMaxData(s))
  {
    var s' := MaybeSendMaxData(s);
    if s' != s {
      NotClosed(s);
      var c := WtMaxData(s'.maxDataRemote);
      SessionTotalsSnoc(SpeakerOf(s).limits, s.emitted, c);
      EmitSessionKeeps(s, s', c);
    }
  }

  lemma MaxStreamDataKeeps(s: Session, id: StreamId)
    requires SendInv(s) && ReceivableDataCapsule(id, s.cfg.isServer)
    ensures SendInv(MaybeSendMaxStreamData(s, id))
  {
    var s' := MaybeSendMaxStreamData(s, id);
    if s' != s {
      NotClosed(s);
      assert SendOk(s, id);
      var c := WtMaxStreamData(id, s'.streams[id].maxRemote);
      SessionTotalsSnoc(SpeakerOf(s).limits, s.emitted, c);
      EmitStreamKeeps(s, s', c, id, s'.streams[id]);
    }
  }

  lemma ForgetKeeps(s: Session, id: StreamId)
    requires SendInv(s) && id in s.streams
    ensures SendInv(Forget(s, id))
  {
    var s' := Forget(s, id);
    forall i ensures SendOk(s', i) { assert SendOk(s, i); }
  }

  lemma GrantKeeps(s: Session, bidi: bool)
    requires SendInv(s) && !s.terminated
    ensures SendInv(GrantStream(s, bidi))
  {
    var n := Count(s, bidi);
    if n.maxRemote < MAX_STREAMS {
      NotClosed(s);
      var c := WtMaxStreams(bidi, n.maxRemote + 1);
      SessionTotalsSnoc(SpeakerOf(s).limits, s.emitted, c);
      EmitSessionKeeps(s, GrantStream(s, bidi), c);
    }
  }

  lemma MaybeReleaseKeeps(s: Session, id: StreamId)
    requires SendInv(s) && !s.terminated
    ensures SendInv(MaybeRelease(s, id))
  {
    if id in s.streams && Releasable(s.streams[id]) {
      ForgetKeeps(s, id);
      if !s.streams[id].isLocal {
        GrantKeeps(Forget(s, id), !s.streams[id].isUni);
      }
    }
  }

  lemma ChunkKeeps(s: Session, id: StreamId, data: seq<Byte>, fin: bool)
    requires SendInv(s) && !s.terminated && id in s.streams
    requires !SendDone(s.streams[id]) && SendableStream(s.streams[id])
    requires fin ==> s.streams[id].pending == []
    requires |data| <= Sendable(s, s.streams[id], |data|)
    ensures SendInv(SendChunk(s, id, data, fin))
  {
    NotClosed(s);
    assert SendOk(s, id);
    var c := WtStream(id, data, fin);
    SessionTotalsSnoc(SpeakerOf(s).limits, s.emitted, c);
    EmitStreamKeeps(s, SendChunk(s, id, data, fin), c, id, SendChunk(s, id, data, fin).streams[id]);
  }

  // ---------- Draining ----------

  lemma DrainKeeps(s: Session, id: StreamId)
    requires SendInv(s) && !s.terminated
    ensures SendInv(Drain(s, id))
    decreases if id in s.streams then |s.streams[id].pending| else 0
  {
    hide Legal, StreamView, SessionTotals, MaybeRelease;
    if id in s.streams && s.streams[id].pending != [] {
      assert SendOk(s, id);
      var p := s.streams[id].pending;
      var n := Sendable(s, s.streams[id], |p[0].data|);
      if 0 < n < |p[0].data| {
        var rest := [PendingSend(p[0].data[n..], p[0].fin)] + p[1..];
        SetPendingKeeps(s, id, rest);
        ChunkKeeps(SetPending(s, id, rest), id, p[0].data[..n], false);
      } else if 0 < n {
        SetPendingKeeps(s, id, p[1..]);
        ChunkKeeps(SetPending(s, id, p[1..]), id, p[0].data, p[0].fin);
        var s' := SendChunk(SetPending(s, id, p[1..]), id, p[0].data, p[0].fin);
        if p[0].fin { MaybeReleaseKeeps(s', id); } else { DrainKeeps(s', id); }
      }
    }
  }

  lemma {:induction false} FlushPassKeeps(s: Session, ids: seq<StreamId>)
    requires SendInv(s) && !s.terminated
    ensures SendInv(FlushPass(s, ids))
    decreases |ids|
  {
    if ids != [] {
      if ids[0] in s.streams {
        if SendDone(s.streams[ids[0]]) { SetPendingKeeps(s, ids[0], []); } else { DrainKeeps(s, ids[0]); }
      }
      DrainProgress(s, ids[0]);
      FlushPassKeeps(FlushOne(s, ids[0]), ids[1..]);
    }
  }

  lemma {:induction false} FlushKeeps(s: Session)
    requires SendInv(s)
    ensures SendInv(FlushPending(s))
    decreases if s.bytesSent <= s.maxDataLocal then s.maxDataLocal - s.bytesSent else 0
  {
    if !s.terminated {
      var ids := SortedKeys(s.streams.Keys);
      FlushPassProgress(s, ids);
      FlushPassKeeps(s, ids);
      var s' := FlushPass(s, ids);
      if s'.bytesSent != s.bytesSent { FlushKeeps(s'); }
    }
  }
}
