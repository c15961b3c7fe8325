/**
 * Dispatching a capsule of a well-spoken peer keeps the invariant and raises no error:
 * the session ends only if the capsule is WT_CLOSE_SESSION.
 */
module Hearing {
  import opened Capsules
  import opened Engine
  import opened Trace
  import opened Sending
  import opened Conduct
  import opened Receiving
  import opened Dialogue

  /** A stream whose data may still grow has no freed entry. */
  lemma OpenIsNotFreed(s: Session, p: Speaker, id: StreamId)
    requires Inv(s) && PeerIs(s, p)
    requires ReceivableDataCapsule(id, s.cfg.isServer)
    requires StreamView(p.streamData, s.received, id).ending == Open
    ensures id !in s.freed && id !in s.released
    ensures Heard(s, id).ending == Open
  {
    hide SendInv, Delivered, Mentions;
    HeardIsSpoken(s, p, id);
    assert RecvOk(s, id);
  }

  // ---------- WT_STREAM ----------

  /** The entry the capsule lands on: the one there is, or a new one. */
  function WithEntry(s: Session, id: StreamId): (r: Session)
    ensures id in r.streams
  {
    s.(streams := if id in s.streams then s.streams else s.streams[id := NewStream(s, id)])
  }

  lemma WithEntryKeeps(s: Session, id: StreamId)
    requires SendInv(s) && id !in s.freed
    ensures SendInv(WithEntry(s, id))
  {
    hide SendInv;
    if id !in s.streams { CreateKeeps(s, id); }
  }

  lemma EntrySaid(s: Session, id: StreamId)
    requires SendInv(s) && id !in s.freed
    ensures WithEntry(s, id).streams[id].maxRemote == Said(s, id).max
    ensures WithEntry(s, id).streams[id].isLocal == LocalTo(s.cfg.isServer, id)
    ensures WithEntry(s, id).streams[id].isUni == id.uni
  {
    hide SessionSendOk, Legal, StreamView;
    assert SendOk(s, id);
  }

  predicate EntryHears(st: Stream, r: View, local: bool) {
    && st.bytesReceived == |r.data|
    && st.maxLocal == r.max
    && (st.recvState == Recv <==> r.ending == Open)
    && (st.stopReceived <==> r.stopped && !(r.early && !local))
    && (st.stopReceived ==> SendDone(st))
  }

  lemma EntryFacts(s: Session, id: StreamId)
    requires Inv(s) && id !in s.freed
    ensures EntryHears(WithEntry(s, id).streams[id], Heard(s, id), LocalTo(s.cfg.isServer, id))
  {
    EntrySaid(s, id);
    hide SendInv, SessionRecvOk, Legal, Delivered, Mentions, StreamView;
    assert RecvOk(s, id);
  }

  lemma ChunkHeardKeeps(s: Session, p: Speaker, id: StreamId, data: seq<Byte>, fin: bool)
    requires Inv(s) && Expected(s, p, WtStream(id, data, fin)) && id !in s.freed
    ensures SendInv(RecvChunk(WithEntry(Heed(s, WtStream(id, data, fin)), id), id, data, fin))
  {
    var c := WtStream(id, data, fin);
    var s1 := WithEntry(Heed(s, c), id);
    EntryFacts(s, id);
    EntrySaid(s, id);
    hide SendInv, RecvInv, Allowed, Legal;
    HeedKeeps(s, c);
    WithEntryKeeps(Heed(s, c), id);
    RecvChunkKeeps(s1, id, data, fin);
  }

  /** Only the entry and the history of `s'` have moved on from `s`. */
  predicate SameRecords(s: Session, s': Session) {
    && s'.receivedMaxStreamData == s.receivedMaxStreamData
    && s'.receivedStops == s.receivedStops
  }

  lemma EntryOfHeed(s: Session, c: Capsule, id: StreamId)
    ensures WithEntry(Heed(s, c), id).streams == WithEntry(s, id).streams
  {
  }

  lemma ChunkShape(s: Session, id: StreamId, data: seq<Byte>, fin: bool)
    ensures var s2 := RecvChunk(WithEntry(Heed(s, WtStream(id, data, fin)), id), id, data, fin);
            var st := WithEntry(s, id).streams[id];
      && SameMouth(s, s2) && SameRecords(s, s2)
      && s2.received == s.received + [WtStream(id, data, fin)]
      && id in s2.streams
      && s2.streams[id] == st.(bytesReceived := st.bytesReceived + |data|,
                               recvState := if fin then DataRecvd else st.recvState)
      && ((s2.events == s.events && data == []) || s2.events == s.events + [StreamData(id, data, fin)])
  {
    hide NewStream;
    EntryOfHeed(s, WtStream(id, data, fin), id);
  }

  /** A data capsule touches the data half of its stream's entry only. */
  lemma DataHeardOk(s: Session, s': Session, id: StreamId)
    requires RecvOk(s, id) && id !in s.freed && Reachable(s, id)
    requires SameMouth(s, s') && SameRecords(s, s')
    requires id in s'.streams && EntryHeard(s'.streams[id], Heard(s', id))
    requires Heard(s', id).begun
    requires Heard(s', id).max == Heard(s, id).max && Heard(s', id).stopped == Heard(s, id).stopped
    requires Delivered(s'.events, id) == Heard(s', id).data
    ensures RecvOk(s', id)
  {
    hide Delivered, Mentions, StreamView, EntryHeard;
  }

  lemma ChunkEntryHeard(st: Stream, st': Stream, r: View, id: StreamId, data: seq<Byte>, fin: bool)
    requires EntryHears(st, r, st.isLocal) && r.ending == Open
    requires st' == st.(bytesReceived := st.bytesReceived + |data|,
                        recvState := if fin then DataRecvd else st.recvState)
    ensures EntryHeard(st', StepView(r, WtStream(id, data, fin), id))
  {
  }

  lemma ChunkHeardOk(s: Session, id: StreamId, data: seq<Byte>, fin: bool)
    requires Inv(s) && id !in s.freed && Reachable(s, id)
    requires Heard(s, id).ending == Open
    ensures RecvOk(RecvChunk(WithEntry(Heed(s, WtStream(id, data, fin)), id), id, data, fin), id)
  {
    var c := WtStream(id, data, fin);
    var s2 := RecvChunk(WithEntry(Heed(s, c), id), id, data, fin);
    EntryFacts(s, id);
    EntrySaid(s, id);
    ChunkShape(s, id, data, fin);
    assert RecvOk(s, id) && Delivered(s.events, id) == Heard(s, id).data;
    StreamViewSnoc(InitialSendCredit(s, id), s.received, c, id);
    DeliveredSnoc(s.events, StreamData(id, data, fin), id);
    hide SendInv, RecvInv, RecvChunk, WithEntry, RecvOk, StreamView, Delivered;
    ChunkEntryHeard(WithEntry(s, id).streams[id], s2.streams[id], Heard(s, id), id, data, fin);
    DataHeardOk(s, s2, id);
  }

  lemma ChunkHeardElsewhere(s: Session, id: StreamId, data: seq<Byte>, fin: bool, i: StreamId)
    requires i != id
    ensures SameStreamEars(s, RecvChunk(WithEntry(Heed(s, WtStream(id, data, fin)), id), id, data, fin), i)
  {
    ChunkShape(s, id, data, fin);
    DeliveredSnoc(s.events, StreamData(id, data, fin), i);
    hide Delivered, NewStream, SameMouth;
  }

  lemma ChunkHeardFrame(s: Session, id: StreamId, data: seq<Byte>, fin: bool)
    requires SessionRecvOk(s)
    ensures var s2 := RecvChunk(WithEntry(Heed(s, WtStream(id, data, fin)), id), id, data, fin);
            SameMouth(s, s2) && s2.received == s.received + [WtStream(id, data, fin)] && SessionRecvOk(s2)
            && s2.terminated == s.terminated
  {
    hide NewStream, SessionTotals;
    HearSession(s, RecvChunk(WithEntry(Heed(s, WtStream(id, data, fin)), id), id, data, fin), WtStream(id, data, fin));
  }

  lemma ChunkHeard(s: Session, p: Speaker, id: StreamId, data: seq<Byte>, fin: bool)
    requires Inv(s) && Expected(s, p, WtStream(id, data, fin)) && id !in s.freed
    requires Heard(s, id).ending == Open
    ensures var s2 := RecvChunk(WithEntry(Heed(s, WtStream(id, data, fin)), id), id, data, fin);
            Inv(s2) && Heard(s2, id).begun && s2.terminated == s.terminated && s2.cfg == s.cfg
  {
    var c := WtStream(id, data, fin);
    var s2 := RecvChunk(WithEntry(Heed(s, c), id), id, data, fin);
    ChunkHeardKeeps(s, p, id, data, fin);
    ChunkHeardOk(s, id, data, fin);
    ChunkHeardFrame(s, id, data, fin);
    StreamViewSnoc(InitialSendCredit(s, id), s.received, c, id);
    hide SendInv, RecvOk, SessionRecvOk, Expected, StreamView, RecvChunk, WithEntry;
    forall i | !About(c, i) ensures SameStreamEars(s, s2, i) {
      ChunkHeardElsewhere(s, id, data, fin, i);
    }
    HearFrame(s, s2, c);
  }

  /** What happens once the bytes are accounted for: credit goes back, a finished stream is freed. */
  function AfterChunk(s: Session, id: StreamId, fin: bool): Session {
    var s1 := MaybeSendMaxStreamData(MaybeSendMaxData(s), id);
    if fin then MaybeRelease(s1, id) else s1
  }

  predicate SameLogs(s: Session, s': Session) {
    && s'.cfg == s.cfg && s'.peer == s.peer && s'.received == s.received && s'.events == s.events
    && s'.terminated == s.terminated
    && s.emitted <= s'.emitted
  }

  lemma CreditFrame(s: Session, id: StreamId)
    ensures SameLogs(s, MaybeSendMaxData(s))
    ensures SameLogs(s, MaybeSendMaxStreamData(s, id))
  {
    hide ShouldReplenish, Replenished;
  }

  lemma ReleaseFrame(s: Session, id: StreamId)
    ensures SameLogs(s, MaybeRelease(s, id))
  {
  }

  lemma AfterChunkInv(s: Session, id: StreamId, fin: bool)
    requires Inv(s) && !s.terminated && ReceivableDataCapsule(id, s.cfg.isServer) && Heard(s, id).begun
    ensures Inv(AfterChunk(s, id, fin)) && SameLogs(s, AfterChunk(s, id, fin))
  {
    hide Inv, StreamView, MaybeSendMaxData, MaybeSendMaxStreamData, MaybeRelease;
    var s1 := MaybeSendMaxData(s);
    var s2 := MaybeSendMaxStreamData(s1, id);
    MaxDataInv(s);
    CreditFrame(s, id);
    MaxStreamDataInv(s1, id);
    CreditFrame(s1, id);
    ReleaseFrame(s2, id);
    if fin { MaybeReleaseInv(s2, id); }
  }

  lemma AcceptsExpected(s: Session, p: Speaker, id: StreamId, data: seq<Byte>, fin: bool)
    requires Inv(s) && Expected(s, p, WtStream(id, data, fin)) && id !in s.freed && id !in s.released
    requires Heard(s, id).ending == Open
    ensures var s0 := Heed(s, WtStream(id, data, fin));
            HandleWtStream(s0, id, data, fin) == AfterChunk(RecvChunk(WithEntry(s0, id), id, data, fin), id, fin)
  {
    EntryFacts(s, id);
    EntrySaid(s, id);
    var s0 := Heed(s, WtStream(id, data, fin));
    assert ReceivableDataCapsule(id, s.cfg.isServer);
    assert id !in s.streams ==> !ExceedsStreamLimit(s0, id) by { assert RecvOk(s, id); }
    hide SendInv, RecvInv, Legal, MaybeSendMaxData, MaybeSendMaxStreamData, MaybeRelease, RecvChunk, StreamView, NewStream, ReportError;
    assert HandleWtStream(s0, id, data, fin) == AcceptWtStream(WithEntry(s0, id), id, data, fin);
  }

  lemma HearWtStream(s: Session, p: Speaker, id: StreamId, data: seq<Byte>, fin: bool)
    requires Inv(s) && !s.terminated && Expected(s, p, WtStream(id, data, fin))
    ensures Inv(Receive(s, WtStream(id, data, fin)))
    ensures !Receive(s, WtStream(id, data, fin)).terminated
  {
    var c := WtStream(id, data, fin);
    OpenIsNotFreed(s, p, id);
    ChunkHeard(s, p, id, data, fin);
    AcceptsExpected(s, p, id, data, fin);
    hide Inv, Legal, StreamView, HandleWtStream, AfterChunk, RecvChunk, WithEntry;
    AfterChunkInv(RecvChunk(WithEntry(Heed(s, c), id), id, data, fin), id, fin);
  }

  // ---------- WT_RESET_STREAM ----------

  lemma ResetShape(s: Session, id: StreamId, code: ErrorCode, size: nat)
    ensures var s2 := NoteReset(WithEntry(Heed(s, WtResetStream(id, code, size)), id), id, code);
      && SameMouth(s, s2) && SameRecords(s, s2)
      && s2.received == s.received + [WtResetStream(id, code, size)]
      && s2.streams == s.streams[id := WithEntry(s, id).streams[id].(recvState := ResetRecvd)]
      && s2.events == s.events + [StreamReset(id, code)]
  {
    hide NewStream;
    EntryOfHeed(s, WtResetStream(id, code, size), id);
  }

  lemma ResetEntryHeard(st: Stream, r: View, id: StreamId, code: ErrorCode, size: nat)
    requires EntryHears(st, r, st.isLocal)
    ensures EntryHeard(st.(recvState := ResetRecvd), StepView(r, WtResetStream(id, code, size), id))
  {
  }

  lemma ResetHeardOk(s: Session, id: StreamId, code: ErrorCode, size: nat)
    requires Inv(s) && id !in s.freed && Reachable(s, id)
    ensures RecvOk(NoteReset(WithEntry(Heed(s, WtResetStream(id, code, size)), id), id, code), id)
  {
    var c := WtResetStream(id, code, size);
    var s2 := NoteReset(WithEntry(Heed(s, c), id), id, code);
    EntryFacts(s, id);
    EntrySaid(s, id);
    ResetShape(s, id, code, size);
    assert RecvOk(s, id) && Delivered(s.events, id) == Heard(s, id).data;
    StreamViewSnoc(InitialSendCredit(s, id), s.received, c, id);
    DeliveredSnoc(s.events, StreamReset(id, code), id);
    hide SendInv, RecvInv, NoteReset, WithEntry, RecvOk, StreamView, Delivered;
    ResetEntryHeard(WithEntry(s, id).streams[id], Heard(s, id), id, code, size);
    DataHeardOk(s, s2, id);
  }

  lemma ResetHeardElsewhere(s: Session, id: StreamId, code: ErrorCode, size: nat, i: StreamId)
    requires i != id
    ensures SameStreamEars(s, NoteReset(WithEntry(Heed(s, WtResetStream(id, code, size)), id), id, code), i)
  {
    ResetShape(s, id, code, size);
    DeliveredSnoc(s.events, StreamReset(id, code), i);
    hide Delivered, NewStream, SameMouth;
  }

  lemma ResetHeardFrame(s: Session, id: StreamId, code: ErrorCode, size: nat)
    requires SessionRecvOk(s)
    ensures var s2 := NoteReset(WithEntry(Heed(s, WtResetStream(id, code, size)), id), id, code);
            SameMouth(s, s2) && s2.received == s.received + [WtResetStream(id, code, size)] && SessionRecvOk(s2)
  {
    hide NewStream, SessionTotals;
    HearSession(s, NoteReset(WithEntry(Heed(s, WtResetStream(id, code, size)), id), id, code), WtResetStream(id, code, size));
  }

  lemma ResetHeard(s: Session, id: StreamId, code: ErrorCode, size: nat)
    requires Inv(s) && id !in s.freed && Reachable(s, id)
    ensures Inv(NoteReset(WithEntry(Heed(s, WtResetStream(id, code, size)), id), id, code))
  {
    var c := WtResetStream(id, code, size);
    var s2 := NoteReset(WithEntry(Heed(s, c), id), id, code);
    ResetHeardOk(s, id, code, size);
    HeedKeeps(s, c);
    WithEntryKeeps(Heed(s, c), id);
    NoteResetKeeps(WithEntry(Heed(s, c), id), id, code);
    hide SendInv, RecvOk, SessionRecvOk, StreamView, NoteReset, WithEntry, SameStreamEars, SameMouth, Heed;
    ResetHeardFrame(s, id, code, size);
    forall i | !About(c, i) ensures SameStreamEars(s, s2, i) {
      ResetHeardElsewhere(s, id, code, size, i);
    }
    HearFrame(s, s2, c);
  }

  lemma ResetExpected(s: Session, p: Speaker, id: StreamId, code: ErrorCode, size: nat)
    requires Inv(s) && Expected(s, p, WtResetStream(id, code, size)) && id !in s.freed && id !in s.released
    requires Heard(s, id).ending == Open
    ensures var s0 := Heed(s, WtResetStream(id, code, size));
            HandleWtResetStream(s0, id, code, size) == MaybeRelease(NoteReset(WithEntry(s0, id), id, code), id)
  {
    EntryFacts(s, id);
    EntrySaid(s, id);
    HeardIsSpoken(s, p, id);
    var s0 := Heed(s, WtResetStream(id, code, size));
    assert ReceivableDataCapsule(id, s.cfg.isServer);
    assert id !in s.streams ==> !ExceedsStreamLimit(s0, id) && size == 0 by { assert RecvOk(s, id); }
    hide SendInv, RecvInv, Legal, MaybeRelease, StreamView, NewStream, ReportError;
    assert HandleWtResetStream(s0, id, code, size) == RecvReset(WithEntry(s0, id), id, code);
  }

  lemma HearWtResetStream(s: Session, p: Speaker, id: StreamId, code: ErrorCode, size: nat)
    requires Inv(s) && !s.terminated && Expected(s, p, WtResetStream(id, code, size))
    ensures Inv(Receive(s, WtResetStream(id, code, size)))
    ensures !Receive(s, WtResetStream(id, code, size)).terminated
  {
    var c := WtResetStream(id, code, size);
    var s2 := NoteReset(WithEntry(Heed(s, c), id), id, code);
    OpenIsNotFreed(s, p, id);
    ResetHeard(s, id, code, size);
    ResetExpected(s, p, id, code, size);
    hide Inv, Legal, StreamView, HandleWtResetStream, MaybeRelease;
    ReleaseFrame(s2, id);
    MaybeReleaseInv(s2, id);
  }

  // ---------- WT_STOP_SENDING ----------

  function HearStop(s: Session, id: StreamId, code: ErrorCode): Session {
    NoteStop(Heed(s, WtStopSending(id, code)), id, code)
  }

  lemma StopShape(s: Session, id: StreamId, code: ErrorCode)
    ensures var s2 := HearStop(s, id, code);
      && SameMouth(s, s2) && s2.receivedMaxStreamData == s.receivedMaxStreamData
      && s2.received == s.received + [WtStopSending(id, code)]
      && s2.terminated == s.terminated
      && (s2.receivedStops == s.receivedStops || s2.receivedStops == s.receivedStops + {id})
      && s2.streams.Keys == s.streams.Keys
      && (forall i :: i in s.streams ==>
            s2.streams[i] == if i == id then s.streams[id].(stopReceived := true) else s.streams[i])
      && (s2.events == s.events || s2.events == s.events + [StopSendingReceived(id, code)])
  {
  }

  lemma StopHeardOk(s: Session, s2: Session, id: StreamId, code: ErrorCode)
    requires RecvOk(s, id) && s2 == HearStop(s, id, code)
    requires !Heard(s, id).stopped && !Heard(s, id).early
    requires LocalTo(s.cfg.isServer, id) ==> Opened(s, id)
    requires id in s.streams ==> SendDone(s.streams[id])
    ensures RecvOk(s2, id)
  {
    StopShape(s, id, code);
    StreamViewSnoc(InitialSendCredit(s, id), s.received, WtStopSending(id, code), id);
    DeliveredSnoc(s.events, StopSendingReceived(id, code), id);
    hide HearStop, Delivered, StreamView, Mentions;
  }

  lemma StopHeardElsewhere(s: Session, id: StreamId, code: ErrorCode, i: StreamId)
    requires i != id
    ensures SameStreamEars(s, HearStop(s, id, code), i)
  {
    StopShape(s, id, code);
    DeliveredSnoc(s.events, StopSendingReceived(id, code), i);
    hide Delivered, HearStop, SameMouth;
  }

  lemma HearStopKeeps(s: Session, id: StreamId, code: ErrorCode)
    requires SendInv(s)
    ensures SendInv(HearStop(s, id, code))
  {
    hide SendInv, NoteStop;
    HeedKeeps(s, WtStopSending(id, code));
    NoteStopKeeps(Heed(s, WtStopSending(id, code)), id, code);
  }

  lemma HearStopSession(s: Session, id: StreamId, code: ErrorCode)
    requires SessionRecvOk(s)
    ensures SessionRecvOk(HearStop(s, id, code))
  {
    hide SessionRecvOk;
    HearSession(s, HearStop(s, id, code), WtStopSending(id, code));
  }

  lemma StopHeard(s: Session, id: StreamId, code: ErrorCode)
    requires Inv(s)
    requires !Heard(s, id).stopped && !Heard(s, id).early
    requires LocalTo(s.cfg.isServer, id) ==> Opened(s, id)
    requires id in s.streams ==> SendDone(s.streams[id])
    ensures Inv(HearStop(s, id, code))
  {
    hide SendInv, RecvOk, SessionRecvOk, StreamView, HearStop;
    var c := WtStopSending(id, code);
    var s2 := HearStop(s, id, code);
    HearStopKeeps(s, id, code);
    StopHeardOk(s, s2, id, code);
    HearStopSession(s, id, code);
    StopShape(s, id, code);
    forall i | !About(c, i) ensures SameStreamEars(s, s2, i) {
      StopHeardElsewhere(s, id, code, i);
    }
    HearFrame(s, s2, c);
  }

  /** Answering a stop and recording it commute. */
  lemma StopCommutes(s: Session, id: StreamId, code: ErrorCode)
    requires id in s.streams
    ensures MarkReset(HearStop(s, id, code), id, code) == HearStop(MarkReset(s, id, code), id, code)
  {
    var a := MarkReset(HearStop(s, id, code), id, code);
    var b := HearStop(MarkReset(s, id, code), id, code);
    assert a.streams == b.streams;
  }

  lemma MarkResetFrame(s: Session, id: StreamId, code: ErrorCode)
    requires id in s.streams
    ensures SameLogs(s, MarkReset(s, id, code)) && SendDone(MarkReset(s, id, code).streams[id])
    ensures Heard(MarkReset(s, id, code), id) == Heard(s, id)
    ensures Opened(s, id) ==> Opened(MarkReset(s, id, code), id)
  {
    hide StreamView;
  }

  lemma HearStopOpen(s: Session, id: StreamId, code: ErrorCode)
    requires Inv(s) && !s.terminated && id in s.streams && !SendDone(s.streams[id])
    requires ReceivableFlowCapsule(id, s.cfg.isServer)
    requires !Heard(s, id).stopped && !Heard(s, id).early
    requires LocalTo(s.cfg.isServer, id) ==> Opened(s, id)
    ensures Inv(MarkReset(HearStop(s, id, code), id, code))
  {
    hide Inv, MarkReset, NoteStop, StreamView;
    MarkResetInv(s, id, code);
    MarkResetFrame(s, id, code);
    StopHeard(MarkReset(s, id, code), id, code);
    StopCommutes(s, id, code);
  }

  lemma StopExpected(s: Session, p: Speaker, id: StreamId, code: ErrorCode)
    requires Inv(s) && Expected(s, p, WtStopSending(id, code))
    ensures !Heard(s, id).stopped && !Heard(s, id).early
    ensures ReceivableFlowCapsule(id, s.cfg.isServer)
    ensures !HasReceivedStop(Heed(s, WtStopSending(id, code)), id)
  {
    LegalViewShape(p, s.received, id);
    HeardIsSpoken(s, p, id);
    hide SendInv, Legal, StreamView, Delivered, Mentions;
    assert RecvOk(s, id);
  }

  lemma ResetIsMark(s: Session, id: StreamId, code: ErrorCode)
    requires !s.terminated && id in s.streams && !SendDone(s.streams[id])
    ensures ResetStream(s, id, code) == MaybeRelease(MarkReset(s, id, code), id)
  {
  }

  lemma HearWtStopSendingKnown(s: Session, id: StreamId, code: ErrorCode)
    requires Inv(s) && !s.terminated && id in s.streams && ReceivableFlowCapsule(id, s.cfg.isServer)
    requires !Heard(s, id).stopped && !Heard(s, id).early
    requires LocalTo(s.cfg.isServer, id) ==> Opened(s, id)
    ensures Inv(ResetStream(HearStop(s, id, code), id, code))
    ensures !ResetStream(HearStop(s, id, code), id, code).terminated
  {
    StopShape(s, id, code);
    hide Inv, StreamView, MaybeRelease, HearStop, MarkReset, SameMouth;
    var s1 := HearStop(s, id, code);
    if SendDone(s.streams[id]) {
      StopHeard(s, id, code);
    } else {
      var s2 := MarkReset(s1, id, code);
      HearStopOpen(s, id, code);
      MarkResetFrame(s1, id, code);
      ReleaseFrame(s2, id);
      ResetIsMark(s1, id, code);
      MaybeReleaseInv(s2, id);
    }
  }

  lemma HearWtStopSending(s: Session, p: Speaker, id: StreamId, code: ErrorCode)
    requires Inv(s) && !s.terminated && Expected(s, p, WtStopSending(id, code))
    ensures Inv(Receive(s, WtStopSending(id, code)))
    ensures !Receive(s, WtStopSending(id, code)).terminated
  {
    StopExpected(s, p, id, code);
    StopShape(s, id, code);
    hide Inv, Legal, StreamView, Allowed, NoteStop, ResetStream, SameMouth;
    if id in s.streams {
      HearWtStopSendingKnown(s, id, code);
    } else {
      StopHeard(s, id, code);
    }
  }

  // ---------- Draining changes no log of the receiving side ----------

  lemma DrainFrame(s: Session, id: StreamId)
    ensures SameLogs(s, Drain(s, id))
    decreases if id in s.streams then |s.streams[id].pending| else 0
  {
    hide MaybeRelease;
    if id in s.streams && s.streams[id].pending != [] {
      var p := s.streams[id].pending;
      var n := Sendable(s, s.streams[id], |p[0].data|);
      if n == |p[0].data| && n != 0 {
        var s' := SendChunk(SetPending(s, id, p[1..]), id, p[0].data, p[0].fin);
        if p[0].fin { ReleaseFrame(s', id); } else { DrainFrame(s', id); }
      }
    }
  }

  lemma {:induction false} FlushPassFrame(s: Session, ids: seq<StreamId>)
    ensures SameLogs(s, FlushPass(s, ids))
    decreases |ids|
  {
    hide Drain;
    if ids != [] {
      DrainFrame(s, ids[0]);
      FlushPassFrame(FlushOne(s, ids[0]), ids[1..]);
    }
  }

  lemma {:induction false} FlushFrame(s: Session)
    ensures SameLogs(s, FlushPending(s))
    decreases if s.bytesSent <= s.maxDataLocal then s.maxDataLocal - s.bytesSent else 0
  {
    hide FlushPass;
    var ids := SortedKeys(s.streams.Keys);
    FlushPassFrame(s, ids);
    FlushPassProgress(s, ids);
    var s' := FlushPass(s, ids);
    if !s.terminated && s'.bytesSent != s.bytesSent { FlushFrame(s'); }
  }

  // ---------- WT_MAX_DATA ----------

  function NoteMaxData(s: Session, max: nat): Session {
    s.(receivedMaxData := Some(max),
       maxDataLocal := Max(s.maxDataLocal, max),
       dataBlockedSent := if max > s.maxDataLocal then false else s.dataBlockedSent)
  }

  lemma MaxDataIsNoted(s: Session, max: nat)
    requires !(s.receivedMaxData.Some? && max < s.receivedMaxData.value)
    ensures HandleWtMaxData(s, max)
         == if max > s.maxDataLocal then FlushPending(NoteMaxData(s, max)) else NoteMaxData(s, max)
  {
    hide FlushPending;
  }

  lemma MaxDataHeard(s: Session, max: nat)
    requires Inv(s) && s.maxDataLocal <= max
    ensures Inv(NoteMaxData(Heed(s, WtMaxData(max)), max))
  {
    var c := WtMaxData(max);
    var s2 := NoteMaxData(Heed(s, c), max);
    hide SendOk, RecvOk, Legal, SessionTotals;
    HeedKeeps(s, c);
    QuietKeeps(Heed(s, c), s2);
    SessionTotalsSnoc(Limits(s.peer.data, s.peer.bidi, s.peer.uniStreams), s.received, c);
    HearFrame(s, s2, c);
  }

  lemma HearWtMaxData(s: Session, p: Speaker, max: nat)
    requires Inv(s) && !s.terminated && Expected(s, p, WtMaxData(max))
    ensures Inv(Receive(s, WtMaxData(max))) && !Receive(s, WtMaxData(max)).terminated
  {
    var s0 := Heed(s, WtMaxData(max));
    assert s.maxDataLocal <= max && !(s.receivedMaxData.Some? && max < s.receivedMaxData.value) by {
      hide SendInv, RecvOk, Legal, SessionTotals;
      HeardIsSpoken(s, p, StreamId(0, false, false));
    }
    hide Expected;
    MaxDataHeard(s, max);
    MaxDataIsNoted(s0, max);
    hide Inv, FlushPending, HandleWtMaxData;
    FlushInv(NoteMaxData(s0, max));
    FlushFrame(NoteMaxData(s0, max));
  }

  // ---------- WT_MAX_STREAM_DATA ----------

  predicate HasRoom(s: Session, id: StreamId) {
    id in s.receivedMaxStreamData || |s.receivedMaxStreamData| < MAX_RECEIVED_MAP_ENTRIES
  }

  function NoteMaxStreamData(s: Session, id: StreamId, max: nat): Session {
    s.(receivedMaxStreamData :=
         if HasRoom(s, id) then s.receivedMaxStreamData[id := max] else s.receivedMaxStreamData,
       streams :=
         if id in s.streams && max > s.streams[id].maxLocal
         then s.streams[id := s.streams[id].(maxLocal := max, dataBlockedSent := false)] else s.streams)
  }

  lemma MaxStreamDataIsNoted(s: Session, id: StreamId, max: nat)
    requires ReceivableFlowCapsule(id, s.cfg.isServer) && !HasReceivedStop(s, id)
    requires !(PreviousMaxStreamData(s, id).Some? && max < PreviousMaxStreamData(s, id).value)
    ensures HandleWtMaxStreamData(s, id, max)
         == if id in s.streams && max > s.streams[id].maxLocal
            then FlushPending(NoteMaxStreamData(s, id, max)) else NoteMaxStreamData(s, id, max)
  {
    hide FlushPending, ReportError, ReportLimitError, PreviousMaxStreamData, HasReceivedStop;
  }

  lemma NoteMaxStreamDataKeeps(s: Session, id: StreamId, max: nat)
    requires SendInv(s)
    ensures SendInv(NoteMaxStreamData(s, id, max))
  {
    hide Legal, StreamView, SessionTotals;
    var s2 := NoteMaxStreamData(s, id, max);
    if id in s.streams && max > s.streams[id].maxLocal {
      assert SendOk(s, id);
      PutKeeps(s, s2, id, s.streams[id].(maxLocal := max, dataBlockedSent := false));
    } else {
      QuietKeeps(s, s2);
    }
  }

  lemma MaxStreamDataHeardOk(s: Session, id: StreamId, max: nat)
    requires RecvOk(s, id) && Known(s, id) && Heard(s, id).max < max
    ensures RecvOk(NoteMaxStreamData(Heed(s, WtMaxStreamData(id, max)), id, max), id)
  {
    StreamViewSnoc(InitialSendCredit(s, id), s.received, WtMaxStreamData(id, max), id);
    hide Delivered, StreamView, Mentions, HasRoom;
  }

  lemma MaxStreamDataHeard(s: Session, id: StreamId, max: nat)
    requires Inv(s) && Known(s, id) && Heard(s, id).max < max
    ensures Inv(NoteMaxStreamData(Heed(s, WtMaxStreamData(id, max)), id, max))
  {
    var c := WtMaxStreamData(id, max);
    var s2 := NoteMaxStreamData(Heed(s, c), id, max);
    HeedKeeps(s, c);
    NoteMaxStreamDataKeeps(Heed(s, c), id, max);
    HearSession(s, s2, c);
    assert RecvOk(s, id);
    MaxStreamDataHeardOk(s, id, max);
    hide SendInv, RecvOk, SessionRecvOk, StreamView, Delivered, HasRoom;
    HearFrame(s, s2, c);
  }

  lemma MaxStreamDataExpected(s: Session, p: Speaker, id: StreamId, max: nat)
    requires Inv(s) && Expected(s, p, WtMaxStreamData(id, max))
    ensures var s0 := Heed(s, WtMaxStreamData(id, max));
      && ReceivableFlowCapsule(id, s.cfg.isServer) && !HasReceivedStop(s0, id)
      && !(PreviousMaxStreamData(s0, id).Some? && max < PreviousMaxStreamData(s0, id).value)
      && Heard(s, id).max < max && Known(s, id)
  {
    LegalViewShape(p, s.received, id);
    HeardIsSpoken(s, p, id);
    hide SendInv, Legal, StreamView, Delivered, Mentions, SessionTotals;
    assert RecvOk(s, id);
  }

  lemma HearWtMaxStreamData(s: Session, p: Speaker, id: StreamId, max: nat)
    requires Inv(s) && !s.terminated && Expected(s, p, WtMaxStreamData(id, max))
    ensures Inv(Receive(s, WtMaxStreamData(id, max))) && !Receive(s, WtMaxStreamData(id, max)).terminated
  {
    var s0 := Heed(s, WtMaxStreamData(id, max));
    MaxStreamDataExpected(s, p, id, max);
    hide Expected, StreamView, SendInv, RecvInv;
    MaxStreamDataHeard(s, id, max);
    MaxStreamDataIsNoted(s0, id, max);
    hide FlushPending, HandleWtMaxStreamData;
    FlushInv(NoteMaxStreamData(s0, id, max));
    FlushFrame(NoteMaxStreamData(s0, id, max));
  }

  // ---------- WT_MAX_STREAMS ----------

  lemma MaxStreamsHeard(s: Session, bidi: bool, max: nat)
    requires Inv(s) && Count(s, bidi).maxLocal <= max <= MAX_STREAMS
    ensures Inv(HandleWtMaxStreams(Heed(s, WtMaxStreams(bidi, max)), bidi, max))
    ensures HandleWtMaxStreams(Heed(s, WtMaxStreams(bidi, max)), bidi, max).terminated == s.terminated
  {
    var c := WtMaxStreams(bidi, max);
    var s2 := HandleWtMaxStreams(Heed(s, c), bidi, max);
    hide SendOk, RecvOk, Legal, SessionTotals;
    HeedKeeps(s, c);
    QuietKeeps(Heed(s, c), s2);
    SessionTotalsSnoc(Limits(s.peer.data, s.peer.bidi, s.peer.uniStreams), s.received, c);
    HearFrame(s, s2, c);
  }

  lemma HearWtMaxStreams(s: Session, p: Speaker, bidi: bool, max: nat)
    requires Inv(s) && !s.terminated && Expected(s, p, WtMaxStreams(bidi, max))
    ensures Inv(Receive(s, WtMaxStreams(bidi, max))) && !Receive(s, WtMaxStreams(bidi, max)).terminated
  {
    hide Inv, Expected, HandleWtMaxStreams;
    MaxStreamsExpected(s, p, bidi, max);
    MaxStreamsHeard(s, bidi, max);
  }

  lemma MaxStreamsExpected(s: Session, p: Speaker, bidi: bool, max: nat)
    requires Inv(s) && Expected(s, p, WtMaxStreams(bidi, max))
    ensures Count(s, bidi).maxLocal <= max <= MAX_STREAMS
  {
    hide SendInv, RecvOk, Legal, SessionTotals;
    HeardIsSpoken(s, p, StreamId(0, false, false));
  }

  // ---------- The rest ----------

  lemma HearWtStreamDataBlocked(s: Session, p: Speaker, id: StreamId, max: nat)
    requires Inv(s) && !s.terminated && Expected(s, p, WtStreamDataBlocked(id, max))
    ensures Inv(Receive(s, WtStreamDataBlocked(id, max)))
    ensures !Receive(s, WtStreamDataBlocked(id, max)).terminated
  {
    OpenIsNotFreed(s, p, id);
    assert id in s.streams ==> !RecvDone(s.streams[id]) by { assert RecvOk(s, id); }
    HearStreamBlocked(s, id, max);
    hide Inv, StreamView, ReportError;
  }

  lemma HearRest(s: Session, p: Speaker, c: Capsule)
    requires Inv(s) && !s.terminated && Expected(s, p, c)
    requires c.Datagram? || c.WtDataBlocked? || c.WtStreamsBlocked? || c.WtCloseSession? || c.WtDrainSession?
    ensures Inv(Receive(s, c)) && (Receive(s, c).terminated <==> c.WtCloseSession?)
  {
    hide SendOk, RecvOk, Legal, SessionTotals, SessionRecvOk;
    HeedKeeps(s, c);
    QuietKeeps(Heed(s, c), Receive(s, c));
    hide SendInv;
    HearNotice(s, Receive(s, c), c);
  }

  lemma HearAny(s: Session, p: Speaker, c: Capsule)
    requires Inv(s) && !s.terminated && Expected(s, p, c)
    ensures Inv(Receive(s, c)) && (Receive(s, c).terminated <==> c.WtCloseSession?)
  {
    hide Inv, Receive, Expected;
    match c
    case WtResetStream(id, code, size) => HearWtResetStream(s, p, id, code, size);
    case WtStopSending(id, code) => HearWtStopSending(s, p, id, code);
    case WtStream(id, data, fin) => HearWtStream(s, p, id, data, fin);
    case WtMaxData(max) => HearWtMaxData(s, p, max);
    case WtMaxStreamData(id, max) => HearWtMaxStreamData(s, p, id, max);
    case WtMaxStreams(bidi, max) => HearWtMaxStreams(s, p, bidi, max);
    case WtStreamDataBlocked(id, max) => HearWtStreamDataBlocked(s, p, id, max);
    case _ => HearRest(s, p, c);
  }
}
