/**
 * The full invariant of one endpoint under its own API calls, and under every capsule
 * that a well-spoken peer may send it: such a capsule never raises an error.
 */
module Dialogue {
  import opened Capsules
  import opened Engine
  import opened Trace
  import opened Sending
  import opened Conduct
  import opened Receiving

  // ---------- API calls ----------

  lemma NextIdIsFresh(s: Session, uni: bool)
    requires Inv(s)
    ensures NextId(s, uni) !in s.freed && NextId(s, uni) !in s.streams
  {
    assert RecvOk(s, NextId(s, uni));
  }

  lemma OpenFrame(s: Session, s': Session, uni: bool)
    requires Inv(s) && SendInv(s')
    requires s' == Put(WithCount(s, !uni, Count(s, !uni).(next := Count(s, !uni).next + 1)),
                       NextId(s, uni), NewStream(s, NextId(s, uni)))
    ensures RecvInv(s')
  {
    hide Legal, StreamView, SessionTotals, SendOk, Delivered, Mentions;
    var id := NextId(s, uni);
    NextIdIsFresh(s, uni);
    forall i ensures RecvOk(s', i) {
      assert RecvOk(s, i);
      assert Said(s', i) == Said(s, i) && Heard(s', i) == Heard(s, i);
    }
  }

  lemma OpenStreamInv(s: Session, uni: bool)
    requires Inv(s)
    ensures Inv(OpenStream(s, uni).0)
  {
    hide SendInv, RecvInv;
    NextIdIsFresh(s, uni);
    OpenStreamKeeps(s, uni);
    var n := Count(s, !uni);
    if s.established && n.next >= n.maxLocal && !n.blockedSent {
      OpenBlockedFrame(s, OpenStream(s, uni).0, uni);
    } else if s.established && n.next < n.maxLocal {
      OpenFrame(s, OpenStream(s, uni).0, uni);
    }
  }

  lemma OpenBlockedFrame(s: Session, s': Session, uni: bool)
    requires Inv(s) && SendInv(s')
    requires s' == WithCount(Emit(s, WtStreamsBlocked(!uni, Count(s, !uni).maxLocal)), !uni,
                             Count(s, !uni).(blockedSent := true))
    ensures RecvInv(s')
  {
    hide SendOk, RecvOk, Legal, StreamView, SessionTotals;
    EmitFrame(s, s', WtStreamsBlocked(!uni, Count(s, !uni).maxLocal));
  }

  lemma SessionBlockedInv(s: Session)
    requires Inv(s) && !s.terminated && s.bytesSent == s.maxDataLocal
    ensures Inv(ReportSessionBlocked(s))
  {
    hide SendOk, RecvOk, Legal, StreamView, SessionTotals;
    SessionBlockedKeeps(s);
    if !s.dataBlockedSent { EmitFrame(s, ReportSessionBlocked(s), WtDataBlocked(s.maxDataLocal)); }
  }

  lemma StreamBlockedInv(s: Session, id: StreamId)
    requires Inv(s) && !s.terminated && id in s.streams
    requires !SendDone(s.streams[id]) && SendableStream(s.streams[id])
    requires s.streams[id].bytesSent == s.streams[id].maxLocal
    ensures Inv(ReportStreamBlocked(s, id))
  {
    hide SendOk, RecvOk, Legal, StreamView, SessionTotals;
    StreamBlockedKeeps(s, id);
    if !s.streams[id].dataBlockedSent {
      EmitFrame(s, ReportStreamBlocked(s, id), WtStreamDataBlocked(id, s.streams[id].maxLocal));
    }
  }

  lemma BlockedInv(s: Session, id: StreamId, a: nat, b: nat)
    requires Inv(s) && !s.terminated && id in s.streams
    requires !SendDone(s.streams[id]) && SendableStream(s.streams[id]) && UsedUp(s, id, a, b)
    ensures Inv(ReportBlocked(s, id, a, b))
  {
    hide Inv, ReportSessionBlocked, ReportStreamBlocked;
    SessionBlockedFrame(s);
    if a <= b {
      SessionBlockedInv(s);
      if b <= a { StreamBlockedInv(ReportSessionBlocked(s), id); }
    } else {
      StreamBlockedInv(s, id);
    }
  }

  lemma SendStreamDataInv(s: Session, id: StreamId, data: seq<Byte>, fin: bool)
    requires Inv(s)
    ensures Inv(SendStreamData(s, id, data, fin))
  {
    if AcceptsSend(s, id) {
      assert FinOnlyLast(s.streams[id].pending) by { assert SendOk(s, id); }
      hide SendInv, RecvInv, MaybeRelease, ReportBlocked;
      var st := s.streams[id];
      var n := Sendable(s, st, |data|);
      if st.pending != [] {
        SetPendingInv(s, id, st.pending + [PendingSend(data, fin)]);
      } else if n < |data| {
        var s1 := if n > 0 then SendChunk(s, id, data[..n], false) else s;
        if n > 0 { ChunkInv(s, id, data[..n], false); }
        PartUsesUp(s, id, data);
        BlockedInv(s1, id, SessionAvail(s, |data|), StreamAvail(st, |data|));
        BlockedFrame(s1, id, SessionAvail(s, |data|), StreamAvail(st, |data|));
        SetPendingInv(ReportBlocked(s1, id, SessionAvail(s, |data|), StreamAvail(st, |data|)), id,
                      [PendingSend(data[n..], fin)]);
      } else {
        ChunkInv(s, id, data, fin);
        if fin { MaybeReleaseInv(SendChunk(s, id, data, fin), id); }
      }
    }
  }

  lemma MarkResetInv(s: Session, id: StreamId, code: ErrorCode)
    requires Inv(s) && ReceivableDataCapsule(id, !s.cfg.isServer)
    requires !s.terminated && id in s.streams && !SendDone(s.streams[id])
    ensures Inv(MarkReset(s, id, code))
  {
    hide SendOk, RecvOk, Legal, StreamView, SessionTotals;
    MarkResetKeeps(s, id, code);
    EmitFrame(s, MarkReset(s, id, code), WtResetStream(id, code, s.streams[id].bytesSent));
  }

  lemma ResetStreamInv(s: Session, id: StreamId, code: ErrorCode)
    requires Inv(s) && ReceivableDataCapsule(id, !s.cfg.isServer)
    ensures Inv(ResetStream(s, id, code))
  {
    hide Inv, MaybeRelease;
    if !s.terminated && id in s.streams && !SendDone(s.streams[id]) {
      MarkResetInv(s, id, code);
      MaybeReleaseInv(MarkReset(s, id, code), id);
    }
  }

  lemma StopSendingInv(s: Session, id: StreamId, code: ErrorCode)
    requires Inv(s) && ReceivableFlowCapsule(id, !s.cfg.isServer)
    ensures Inv(StopSending(s, id, code))
  {
    hide SendOk, RecvOk, Legal, StreamView, SessionTotals;
    StopSendingKeeps(s, id, code);
    if StopSending(s, id, code) != s {
      EmitFrame(s, StopSending(s, id, code), WtStopSending(id, code));
    }
  }

  lemma NoticesInv(s: Session, payload: seq<Byte>)
    requires Inv(s)
    ensures Inv(SendDatagram(s, payload)) && Inv(DrainSession(s))
  {
    hide SendOk, RecvOk, Legal, StreamView, SessionTotals;
    NoticesKeep(s, payload);
    if !s.terminated {
      EmitFrame(s, SendDatagram(s, payload), Datagram(payload));
      EmitFrame(s, DrainSession(s), WtDrainSession);
    }
  }

  // ---------- What a well-spoken peer may send ----------

  /** `p` is the peer of `s`, and `s` knows the limits that `p` started from. */
  predicate PeerIs(s: Session, p: Speaker) {
    && p.isServer == !s.cfg.isServer
    && p.limits == Limits(s.peer.data, s.peer.bidi, s.peer.uniStreams)
    && s.peer.uni == s.peer.bidiLocal == s.peer.bidiRemote == p.streamData
  }

  /** The stream a capsule is about is one this end opened, or one it lets the peer open. */
  predicate Reachable(s: Session, id: StreamId) {
    if LocalTo(s.cfg.isServer, id) then Opened(s, id) else id.counter < Count(s, !id.uni).maxRemote
  }

  predicate Known(s: Session, id: StreamId) { id in s.streams || id in s.freed }

  /** The limits `s` has announced are respected. */
  predicate Within(s: Session, c: Capsule) {
    match c
    case WtStream(id, data, _) =>
      && Reachable(s, id)
      && s.bytesReceived + |data| <= s.maxDataRemote
      && |Heard(s, id).data| + |data| <= Said(s, id).max
    case WtResetStream(id, _, _) => Reachable(s, id)
    case WtStopSending(id, _) => LocalTo(s.cfg.isServer, id) ==> Opened(s, id)
    case WtMaxStreamData(id, _) => Known(s, id)
    case WtStreamDataBlocked(id, _) => LocalTo(s.cfg.isServer, id) ==> Opened(s, id)
    case _ => true
  }

  ghost predicate Expected(s: Session, p: Speaker, c: Capsule) {
    && PeerIs(s, p) && Legal(p, s.received) && Allowed(p, s.received, c) && Within(s, c)
  }

  lemma HeardIsSpoken(s: Session, p: Speaker, id: StreamId)
    requires PeerIs(s, p)
    ensures Heard(s, id) == StreamView(p.streamData, s.received, id)
    ensures HeardTotals(s) == SessionTotals(p.limits, s.received)
  {
  }

  // ---------- Hearing one capsule ----------

  predicate SameStreamEars(s: Session, s': Session, id: StreamId) {
    && (id in s.streams <==> id in s'.streams)
    && (id in s.streams ==> s'.streams[id] == s.streams[id])
    && (id in s.receivedMaxStreamData <==> id in s'.receivedMaxStreamData)
    && (id in s.receivedMaxStreamData ==> s'.receivedMaxStreamData[id] == s.receivedMaxStreamData[id])
    && (id in s.receivedStops <==> id in s'.receivedStops)
    && Delivered(s'.events, id) == Delivered(s.events, id)
  }

  predicate SameMouth(s: Session, s': Session) {
    && s'.cfg == s.cfg && s'.peer == s.peer && s'.emitted == s.emitted
    && s'.freed == s.freed && s'.released == s.released
    && s'.bidi.next == s.bidi.next && s'.uni.next == s.uni.next
  }

  lemma HearFrame(s: Session, s': Session, c: Capsule)
    requires Inv(s) && SendInv(s') && SameMouth(s, s')
    requires s'.received == s.received + [c] && SessionRecvOk(s')
    requires forall id :: !About(c, id) ==> SameStreamEars(s, s', id)
    requires forall id :: About(c, id) ==> RecvOk(s', id)
    ensures Inv(s')
  {
    hide SendInv, Delivered, Mentions, SessionRecvOk;
    forall id ensures RecvOk(s', id) {
      assert RecvOk(s, id);
      if !About(c, id) {
        ViewsElsewhere(InitialSendCredit(s, id), s.received, c, id);
      }
    }
  }

  lemma HearSession(s: Session, s': Session, c: Capsule)
    requires SessionRecvOk(s) && s'.received == s.received + [c] && s'.peer == s.peer
    requires s'.receivedMaxData == s.receivedMaxData
    requires s'.bidi.received == s.bidi.received && s'.uni.received == s.uni.received
    requires s'.bidi.maxLocal == s.bidi.maxLocal && s'.uni.maxLocal == s.uni.maxLocal
    requires s'.maxDataLocal == s.maxDataLocal
    requires s'.bytesReceived == s.bytesReceived + (if c.WtStream? then |c.data| else 0)
    requires (s.terminated ==> s'.terminated) && (c.WtCloseSession? ==> s'.terminated)
    requires !c.WtMaxData? && !c.WtMaxStreams?
    ensures SessionRecvOk(s')
  {
    SessionTotalsSnoc(Limits(s.peer.data, s.peer.bidi, s.peer.uniStreams), s.received, c);
  }

  function Heed(s: Session, c: Capsule): Session { s.(received := s.received + [c]) }

  lemma HeedKeeps(s: Session, c: Capsule)
    requires SendInv(s)
    ensures SendInv(Heed(s, c))
  {
    hide SendOk, Legal, SessionTotals;
    QuietKeeps(s, Heed(s, c));
  }

  /** A capsule that is only noticed. */
  lemma HearNotice(s: Session, s': Session, c: Capsule)
    requires Inv(s) && SendInv(s') && SameMouth(s, s')
    requires s' == Heed(s, c).(events := s'.events, terminated := s'.terminated, established := s'.established)
    requires s'.events == s.events
          || (s'.events != [] && s'.events[..|s'.events| - 1] == s.events && !s'.events[|s'.events| - 1].StreamData?)
    requires (s.terminated ==> s'.terminated) && (c.WtCloseSession? ==> s'.terminated)
    requires !c.WtMaxData? && !c.WtMaxStreams? && !c.WtStream?
    requires forall id :: !About(c, id)
    ensures Inv(s')
  {
    hide SendInv, RecvOk, Mentions;
    HearSession(s, s', c);
    HearFrame(s, s', c);
  }

  /** WT_STREAM_DATA_BLOCKED tells nothing that is kept. */
  lemma HearStreamBlocked(s: Session, id: StreamId, max: nat)
    requires Inv(s)
    ensures Inv(Heed(s, WtStreamDataBlocked(id, max)))
  {
    hide SendInv, Mentions, Delivered;
    var c := WtStreamDataBlocked(id, max);
    HeedKeeps(s, c);
    HearSession(s, Heed(s, c), c);
    assert RecvOk(s, id);
    StreamViewSnoc(InitialSendCredit(s, id), s.received, c, id);
    HearFrame(s, Heed(s, c), c);
  }
}
