/**
 * What an endpoint keeps about the capsules it has dispatched: its receive state and
 * its send credit are what the peer has said, as long as it has dispatched them
 * without error.
 */
module Receiving {
  import opened Capsules
  import Utf8
  import opened Engine
  import opened Trace
  import opened Sending

  /** What the peer has said about a stream, as far as `s` has dispatched it. */
  function Heard(s: Session, id: StreamId): View { StreamView(InitialSendCredit(s, id), s.received, id) }

  function HeardTotals(s: Session): Totals {
    SessionTotals(Limits(s.peer.data, s.peer.bidi, s.peer.uniStreams), s.received)
  }

  /** The bytes of one stream that reached the application. */
  function Delivered(events: seq<Event>, id: StreamId): seq<Byte> {
    if events == [] then []
    else
      var e := events[|events| - 1];
      Delivered(events[..|events| - 1], id) + (if e.StreamData? && e.id == id then e.data else [])
  }

  lemma DeliveredSnoc(events: seq<Event>, e: Event, id: StreamId)
    ensures Delivered(events + [e], id)
         == Delivered(events, id) + (if e.StreamData? && e.id == id then e.data else [])
  {
    assert (events + [e])[..|events|] == events;
  }

  predicate Opened(s: Session, id: StreamId) {
    LocalTo(s.cfg.isServer, id) && id.counter < Count(s, !id.uni).next
  }

  /** Both sides of the stream that are in use have ended. */
  predicate Ended(said: View, heard: View, id: StreamId, isServer: bool) {
    if id.uni then (if LocalTo(isServer, id) then said.ending != Open else heard.ending != Open)
    else said.ending != Open && heard.ending != Open
  }

  predicate EntryHeard(st: Stream, r: View) {
    && st.bytesReceived == |r.data|
    && (st.recvState == Recv <==> r.ending == Open)
    && st.maxLocal == r.max
    && (st.stopReceived <==> r.stopped && !(r.early && !st.isLocal))
    && (st.stopReceived ==> SendDone(st))
    && (st.isLocal || r.begun)
  }

  /** Nothing was ever exchanged about the stream, but perhaps an early stop. */
  predicate Untouched(s: Session, id: StreamId, r: View) {
    && !r.begun && r.data == [] && r.ending == Open
    && r.max == InitialSendCredit(s, id)
    && (r.stopped ==> r.early && !LocalTo(s.cfg.isServer, id))
    && id !in s.receivedMaxStreamData
    && !Opened(s, id)
    && !Mentions(s.emitted, id)
  }

  ghost predicate RecvOk(s: Session, id: StreamId) {
    var r := Heard(s, id);
    && (id in s.streams ==> EntryHeard(s.streams[id], r))
    && (id in s.freed ==> Ended(Said(s, id), r, id, s.cfg.isServer))
    && (id !in s.streams && id !in s.freed ==> Untouched(s, id, r))
    && (id in s.streams || id in s.freed ==> (LocalTo(s.cfg.isServer, id) ==> Opened(s, id)))
    && (id in s.freed && !LocalTo(s.cfg.isServer, id) ==> r.begun)
    && (id in s.receivedMaxStreamData ==> s.receivedMaxStreamData[id] <= r.max)
    && (id in s.receivedStops ==> r.stopped)
    && (id in s.released ==> id in s.freed)
    && |Said(s, id).data| <= r.max
    && (Said(s, id).max != s.cfg.initStreamData ==> r.begun)
    && Delivered(s.events, id) == r.data
  }

  ghost predicate SessionRecvOk(s: Session) {
    var t := HeardTotals(s);
    && s.bytesReceived == t.data
    && s.maxDataLocal == t.max.data
    && s.bidi.maxLocal == t.max.bidi
    && s.uni.maxLocal == t.max.uni
    && (s.receivedMaxData.Some? ==> s.receivedMaxData.value <= s.maxDataLocal)
    && (s.bidi.received.Some? ==> s.bidi.received.value <= s.bidi.maxLocal)
    && (s.uni.received.Some? ==> s.uni.received.value <= s.uni.maxLocal)
    && (t.closed ==> s.terminated)
    && (s.peer.announcedUni.Some? ==> s.peer.announcedUni.value <= s.peer.uni)
    && (s.peer.announcedBidiLocal.Some? ==> s.peer.announcedBidiLocal.value <= s.peer.bidiLocal)
    && (s.peer.announcedBidiRemote.Some? ==> s.peer.announcedBidiRemote.value <= s.peer.bidiRemote)
  }

  ghost predicate RecvInv(s: Session) {
    && SessionRecvOk(s)
    && forall id :: RecvOk(s, id)
  }

  // ---------- Steps of the sending side leave the receiving side alone ----------

  predicate SameCount(m: StreamCount, n: StreamCount) {
    m.maxLocal == n.maxLocal && m.received == n.received && m.next == n.next
  }

  predicate SameEars(s: Session, s': Session) {
    && s'.cfg == s.cfg && s'.peer == s.peer && s'.received == s.received && s'.events == s.events
    && s'.bytesReceived == s.bytesReceived && s'.maxDataLocal == s.maxDataLocal
    && s'.receivedMaxData == s.receivedMaxData
    && SameCount(s.bidi, s'.bidi) && SameCount(s.uni, s'.uni)
    && s'.receivedMaxStreamData == s.receivedMaxStreamData && s'.receivedStops == s.receivedStops
    && (s.terminated ==> s'.terminated)
  }

  predicate SameRecv(st: Stream, st': Stream) {
    && st'.isLocal == st.isLocal && st'.isUni == st.isUni
    && st'.recvState == st.recvState && st'.bytesReceived == st.bytesReceived
    && st'.maxLocal == st.maxLocal && st'.stopReceived == st.stopReceived
    && (SendDone(st) ==> SendDone(st'))
  }

  /** What a step of the sending side may do to one stream. */
  ghost predicate KeepsStream(s: Session, s': Session, id: StreamId) {
    && (Said(s, id).ending != Open ==> Said(s', id).ending != Open)
    && (id in s.freed <==> id in s'.freed && id !in s.streams)
    && (id in s.streams && id in s'.streams ==> SameRecv(s.streams[id], s'.streams[id]))
    && (id in s.streams && id !in s'.streams ==>
          id in s'.freed && |Said(s', id).data| <= Heard(s, id).max
          && Ended(Said(s', id), Heard(s, id), id, s.cfg.isServer))
    && (id !in s.streams ==>
          id !in s'.streams && Said(s', id) == Said(s, id)
          && (Mentions(s'.emitted, id) ==> Mentions(s.emitted, id)))
    && (id in s'.released ==> id in s.released || id in s'.freed)
    && (Said(s', id).max != Said(s, id).max ==> Heard(s, id).begun)
  }

  lemma RecvFrame(s: Session, s': Session)
    requires SendInv(s) && RecvInv(s) && SendInv(s') && SameEars(s, s')
    requires forall id :: KeepsStream(s, s', id)
    ensures RecvInv(s')
  {
    forall id ensures RecvOk(s', id) {
      assert RecvOk(s, id) && SendOk(s, id) && SendOk(s', id) && KeepsStream(s, s', id);
    }
  }

  /** How one more capsule changes what was said. */
  lemma Words(s: Session, s': Session, c: Capsule)
    requires OneMore(s, s', c)
    ensures forall id :: Said(s', id) == StepView(Said(s, id), c, id)
    ensures forall id :: Mentions(s'.emitted, id) <==> Mentions(s.emitted, id) || About(c, id)
  {
    forall id ensures Said(s', id) == StepView(Said(s, id), c, id) {
      StreamViewSnoc(s.cfg.initStreamData, s.emitted, c, id);
    }
    forall id ensures Mentions(s'.emitted, id) <==> Mentions(s.emitted, id) || About(c, id) {
      MentionsSnoc(s.emitted, c, id);
    }
  }

  /** One capsule, about nothing or about a stream that has an entry, and at most that entry changed. */
  lemma EmitFrame(s: Session, s': Session, c: Capsule)
    requires SendInv(s) && RecvInv(s) && SendInv(s') && SameEars(s, s') && OneMore(s, s', c)
    requires s'.streams.Keys == s.streams.Keys && s'.freed == s.freed && s'.released == s.released
    requires forall id :: About(c, id) ==> id in s.streams
    requires forall id :: id in s.streams ==> SameRecv(s.streams[id], s'.streams[id])
    requires c.WtMaxStreamData? ==> Heard(s, c.id).begun
    ensures RecvInv(s')
  {
    Words(s, s', c);
    forall id ensures KeepsStream(s, s', id) {
      assert SendOk(s, id) && RecvOk(s, id);
    }
    RecvFrame(s, s');
  }

  /** Nothing queued, and entries changed on the sending side only. */
  lemma SilentFrame(s: Session, s': Session)
    requires SendInv(s) && RecvInv(s) && SendInv(s') && SameEars(s, s') && s'.emitted == s.emitted
    requires s'.streams.Keys == s.streams.Keys && s'.freed == s.freed && s'.released == s.released
    requires forall id :: id in s.streams ==> SameRecv(s.streams[id], s'.streams[id])
    ensures RecvInv(s')
  {
    forall id ensures KeepsStream(s, s', id) {
      assert SendOk(s, id) && RecvOk(s, id);
    }
    RecvFrame(s, s');
  }

  // ---------- The steps, one by one ----------

  ghost predicate Inv(s: Session) { SendInv(s) && RecvInv(s) }

  lemma CloseInv(s: Session, code: ErrorCode, message: seq<Byte>)
    requires Inv(s)
    ensures Inv(CloseSession(s, code, message))
  {
    CloseKeeps(s, code, message);
    if !s.terminated {
      EmitFrame(s, CloseSession(s, code, message), WtCloseSession(code, Utf8.Cut(message, MAX_MESSAGE)));
    }
  }

  lemma MaxDataInv(s: Session)
    requires Inv(s)
    ensures Inv(MaybeSendMaxData(s))
  {
    hide SendOk, RecvOk, SessionSendOk, SessionRecvOk, Legal, StreamView, SessionTotals;
    MaxDataKeeps(s);
    var s' := MaybeSendMaxData(s);
    if s' != s { EmitFrame(s, s', WtMaxData(s'.maxDataRemote)); }
  }

  lemma MaxStreamDataInv(s: Session, id: StreamId)
    requires Inv(s) && ReceivableDataCapsule(id, s.cfg.isServer) && Heard(s, id).begun
    ensures Inv(MaybeSendMaxStreamData(s, id))
  {
    hide SendOk, RecvOk, SessionSendOk, SessionRecvOk, Legal, StreamView, SessionTotals;
    MaxStreamDataKeeps(s, id);
    var s' := MaybeSendMaxStreamData(s, id);
    if s' != s { EmitFrame(s, s', WtMaxStreamData(id, s'.streams[id].maxRemote)); }
  }

  lemma ForgetInv(s: Session, id: StreamId)
    requires Inv(s) && id in s.streams && Releasable(s.streams[id])
    ensures Inv(Forget(s, id))
  {
    ForgetKeeps(s, id);
    var s' := Forget(s, id);
    forall i ensures KeepsStream(s, s', i) {
      assert SendOk(s, i) && RecvOk(s, i);
    }
    RecvFrame(s, s');
  }

  lemma GrantInv(s: Session, bidi: bool)
    requires Inv(s) && !s.terminated
    ensures Inv(GrantStream(s, bidi))
  {
    hide SendOk, RecvOk, SessionSendOk, SessionRecvOk, Legal, StreamView, SessionTotals;
    GrantKeeps(s, bidi);
    var n := Count(s, bidi);
    if n.maxRemote < MAX_STREAMS {
      EmitFrame(s, GrantStream(s, bidi), WtMaxStreams(bidi, n.maxRemote + 1));
    }
  }

  lemma MaybeReleaseInv(s: Session, id: StreamId)
    requires Inv(s) && !s.terminated
    ensures Inv(MaybeRelease(s, id))
  {
    if id in s.streams && Releasable(s.streams[id]) {
      ForgetInv(s, id);
      if !s.streams[id].isLocal {
        GrantInv(Forget(s, id), !s.streams[id].isUni);
      }
    }
  }

  lemma SetPendingInv(s: Session, id: StreamId, p: seq<PendingSend>)
    requires Inv(s) && id in s.streams && FinOnlyLast(p)
    requires p != [] ==> !SendDone(s.streams[id]) && SendableStream(s.streams[id])
    ensures Inv(SetPending(s, id, p))
  {
    SetPendingKeeps(s, id, p);
    SilentFrame(s, SetPending(s, id, p));
  }

  lemma ChunkInv(s: Session, id: StreamId, data: seq<Byte>, fin: bool)
    requires Inv(s) && !s.terminated && id in s.streams
    requires !SendDone(s.streams[id]) && SendableStream(s.streams[id])
    requires fin ==> s.streams[id].pending == []
    requires |data| <= Sendable(s, s.streams[id], |data|)
    ensures Inv(SendChunk(s, id, data, fin))
  {
    ChunkKeeps(s, id, data, fin);
    EmitFrame(s, SendChunk(s, id, data, fin), WtStream(id, data, fin));
  }

  lemma DrainInv(s: Session, id: StreamId)
    requires Inv(s) && !s.terminated
    ensures Inv(Drain(s, id))
    decreases if id in s.streams then |s.streams[id].pending| else 0
  {
    hide Legal, StreamView, SessionTotals, MaybeRelease;
    if id in s.streams && s.streams[id].pending != [] {
      assert SendOk(s, id);
      var p := s.streams[id].pending;
      var n := Sendable(s, s.streams[id], |p[0].data|);
      if 0 < n < |p[0].data| {
        var rest := [PendingSend(p[0].data[n..], p[0].fin)] + p[1..];
        SetPendingInv(s, id, rest);
        ChunkInv(SetPending(s, id, rest), id, p[0].data[..n], false);
      } else if 0 < n {
        SetPendingInv(s, id, p[1..]);
        ChunkInv(SetPending(s, id, p[1..]), id, p[0].data, p[0].fin);
        var s' := SendChunk(SetPending(s, id, p[1..]), id, p[0].data, p[0].fin);
        if p[0].fin { MaybeReleaseInv(s', id); } else { DrainInv(s', id); }
      }
    }
  }

  lemma {:induction false} FlushPassInv(s: Session, ids: seq<StreamId>)
    requires Inv(s) && !s.terminated
    ensures Inv(FlushPass(s, ids))
    decreases |ids|
  {
    if ids != [] {
      if ids[0] in s.streams {
        if SendDone(s.streams[ids[0]]) { SetPendingInv(s, ids[0], []); } else { DrainInv(s, ids[0]); }
      }
      DrainProgress(s, ids[0]);
      FlushPassInv(FlushOne(s, ids[0]), ids[1..]);
    }
  }

  lemma {:induction false} FlushInv(s: Session)
    requires Inv(s)
    ensures Inv(FlushPending(s))
    decreases if s.bytesSent <= s.maxDataLocal then s.maxDataLocal - s.bytesSent else 0
  {
    if !s.terminated {
      var ids := SortedKeys(s.streams.Keys);
      FlushPassProgress(s, ids);
      FlushPassInv(s, ids);
      var s' := FlushPass(s, ids);
      if s'.bytesSent != s.bytesSent { FlushInv(s'); }
    }
  }
}
