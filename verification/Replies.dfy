/**
 * What each call of the application queues, stated on what both ends have said: which calls are
 * taken, with which code, how many bytes go out at once, and when the peer is told that it blocks.
 */
module Replies {
  import opened Capsules
  import Utf8
  import opened Engine
  import opened Trace
  import opened Sending
  import opened Conduct
  import opened Receiving
  import opened Endpoint
  import opened History
  import opened Runs
  import opened Rules

  // ---------- The replies ----------

  /** In use, and not over. */
  predicate Alive(s: Session, id: StreamId) { Touched(s, id) && !Over(s, id) }

  /** The highest offset the peer has allowed on a stream. */
  function Credit(s: Session, id: StreamId): nat {
    var last := LastCredit(s.received, id);
    if last.Some? then Max(FirstCredit(s, id), last.value) else FirstCredit(s, id)
  }

  function Left(limit: nat, sent: nat): nat { if sent <= limit then limit - sent else 0 }

  function SessionLeft(p: Config, s: Session): nat { Left(EarTotals(p, s).max.data, SaidTotals(s).data) }

  function StreamLeft(s: Session, id: StreamId): nat { Left(Credit(s, id), |Said(s, id).data|) }

  function Waiting(s: Session, id: StreamId): seq<PendingSend> { if id in s.streams then s.streams[id].pending else [] }

  /** Bytes are taken for a stream in use that may still grow in this direction and has no FIN waiting. */
  predicate Takes(s: Session, id: StreamId) {
    && Alive(s, id) && (LocalTo(s.cfg.isServer, id) || !id.uni) && Said(s, id).ending == Open
    && (Waiting(s, id) != [] ==> !Waiting(s, id)[|Waiting(s, id)| - 1].fin)
  }

  /** The tighter limit is named, or both if they are equal; each limit at most once. */
  function Complaint(p: Config, s: Session, id: StreamId): seq<Capsule> {
    var all, one := EarTotals(p, s).max.data, Credit(s, id);
    Notices(SessionLeft(p, s) <= StreamLeft(s, id) && ToldOf(s.emitted).data != Some(all), all,
            StreamLeft(s, id) <= SessionLeft(p, s) && ToldStream(s.emitted, id) != Some(one), id, one)
  }

  function Notices(session: bool, all: nat, stream: bool, id: StreamId, one: nat): seq<Capsule> {
    (if session then [WtDataBlocked(all)] else []) + (if stream then [WtStreamDataBlocked(id, one)] else [])
  }

  /** The first bytes, as far as both limits go, or everything at once. */
  function SendReply(p: Config, s: Session, id: StreamId, data: seq<Byte>, fin: bool): seq<Capsule> {
    var n := Min(SessionLeft(p, s), StreamLeft(s, id));
    if n >= |data| then [WtStream(id, data, fin)] + RoomForOneMore(s, id, fin && Ears(s, id).ending != Open)
    else (if n > 0 then [WtStream(id, data[..n], false)] else []) + Complaint(p, s, id)
  }

  function ToldStreams(s: Session, bidi: bool): Option<nat> {
    if bidi then ToldOf(s.emitted).bidi else ToldOf(s.emitted).uni
  }

  /** What a call of a live session queues. */
  function Reply(p: Config, s: Session, call: Call): seq<Capsule> {
    match call
    case OpenCall(uni) =>
      var limit := Toward(EarTotals(p, s).max, !uni);
      if s.established && Count(s, !uni).next >= limit && ToldStreams(s, !uni) != Some(limit) then [WtStreamsBlocked(!uni, limit)] else []
    case Send(id, data, fin) => if Takes(s, id) && Waiting(s, id) == [] then SendReply(p, s, id, data, fin) else []
    case Reset(id, code) =>
      if Alive(s, id) && Said(s, id).ending == Open
      then [WtResetStream(id, code, |Said(s, id).data|)] + RoomForOneMore(s, id, Ears(s, id).ending != Open) else []
    case Stop(id, code) => if Alive(s, id) && !Said(s, id).stopped then [WtStopSending(id, code)] else []
    case SendDgram(payload) => [Datagram(payload)]
    case DrainCall => [WtDrainSession]
    case Close(code, message) => [WtCloseSession(code, Utf8.Cut(message, MAX_MESSAGE))]
  }

  /** A stream is handed out iff the session is up, the peer's limit allows it and its ID is free. */
  function Granting(p: Config, s: Session, uni: bool): Option<StreamId> {
    if s.established && Count(s, !uni).next < Toward(EarTotals(p, s).max, !uni) && !Alive(s, NextId(s, uni))
    then Some(NextId(s, uni)) else None
  }

  // ---------- The calls ----------

  lemma OpenSays(s: Session, uni: bool)
    ensures var r := OpenStream(s, uni); var n := Count(s, !uni);
      && r.0.emitted == s.emitted + (if s.established && n.next >= n.maxLocal && !n.blockedSent then [WtStreamsBlocked(!uni, n.maxLocal)] else [])
      && r.1 == (if s.established && n.next < n.maxLocal && NextId(s, uni) !in s.streams then Some(NextId(s, uni)) else None)
  {
    hide NewStream;
  }

  /** The stream handed out counts as opened, and no other becomes so. */
  lemma OpenOpens(s: Session, uni: bool, i: StreamId)
    ensures var r := OpenStream(s, uni); Opened(r.0, i) <==> Opened(s, i) || r.1 == Some(i)
  {
    hide NewStream;
    var r := OpenStream(s, uni);
    assert Count(r.0, uni).next == Count(s, uni).next && r.0.cfg == s.cfg;
    assert Count(r.0, !uni).next == Count(s, !uni).next + (if r.1.Some? then 1 else 0);
    assert r.1.Some? ==> r.1.value == NextId(s, uni);
    hide OpenStream;
  }

  lemma OpenReplies(p: Config, s: Session, uni: bool)
    requires Knowing(p, s, None) && !s.terminated
    ensures var r := OpenStream(s, uni); r.0.emitted == s.emitted + Reply(p, s, OpenCall(uni)) && r.1 == Granting(p, s, uni)
  {
    hide Knowing, StreamView, Touched, Over, ToldStreams, SessionTotals, OpenStream;
    BoardReads(p, s);
    EntryIff(p, s, NextId(s, uni));
    CountReads(p, s, !uni);
    OpenSays(s, uni);
  }

  lemma CountReads(p: Config, s: Session, bidi: bool)
    requires Knowing(p, s, None)
    ensures Count(s, bidi).blockedSent <==> ToldStreams(s, bidi) == Some(Count(s, bidi).maxLocal)
  {
    hide Knowing, ToldOf, Most, SessionTotals;
    KnowsBoard(p, s, None);
  }

  lemma ResetReplies(p: Config, s: Session, id: StreamId, code: ErrorCode)
    requires Knowing(p, s, None) && !s.terminated
    ensures ResetStream(s, id, code).emitted == s.emitted + Reply(p, s, Reset(id, code))
  {
    hide Knowing, StreamView, Touched, Over, Grant, Granted, MaybeRelease;
    EntryIff(p, s, id);
    BoardReads(p, s);
    if id in s.streams {
      EntryReads(p, s, id);
      if !SendDone(s.streams[id]) { ResetSays(s, id, code); }
    }
  }

  lemma StopReplies(p: Config, s: Session, id: StreamId, code: ErrorCode)
    requires Knowing(p, s, None) && !s.terminated
    ensures StopSending(s, id, code).emitted == s.emitted + Reply(p, s, Stop(id, code))
  {
    hide Knowing, StreamView, Touched, Over;
    EntryIff(p, s, id);
  }

  /** What the state knows of the credit of a stream, and of what was told of it. */
  lemma CreditIs(p: Config, s: Session, id: StreamId)
    requires Knowing(p, s, None) && id in s.streams
    ensures s.streams[id].maxLocal == Credit(s, id)
    ensures s.streams[id].dataBlockedSent <==> ToldStream(s.emitted, id) == Some(Credit(s, id))
    ensures s.dataBlockedSent <==> ToldOf(s.emitted).data == Some(s.maxDataLocal)
    ensures s.maxDataLocal == EarTotals(p, s).max.data && s.bytesSent == SaidTotals(s).data
  {
    hide StreamView, ToldStream, LastCredit, ToldOf, Most, SessionTotals;
    KnowsSpot(p, s, None, id);
    KnowsBoard(p, s, None);
  }

  lemma BlockedSays(s: Session, id: StreamId, a: nat, b: nat)
    requires id in s.streams
    ensures var s', st := ReportBlocked(s, id, a, b), s.streams[id];
      && id in s'.streams
      && s'.emitted == s.emitted + Notices(a <= b && !s.dataBlockedSent, s.maxDataLocal, b <= a && !st.dataBlockedSent, id, st.maxLocal)
  {
    hide ReportSessionBlocked, ReportStreamBlocked;
    var s1 := if a <= b then ReportSessionBlocked(s) else s;
    SessionBlockedSays(s);
    StreamBlockedSays(s1, id);
  }

  lemma SessionBlockedSays(s: Session)
    ensures var s' := ReportSessionBlocked(s);
      s'.emitted == s.emitted + (if s.dataBlockedSent then [] else [WtDataBlocked(s.maxDataLocal)]) && s'.streams == s.streams
  {
  }

  lemma StreamBlockedSays(s: Session, id: StreamId)
    requires id in s.streams
    ensures var s', st := ReportStreamBlocked(s, id), s.streams[id];
      s'.emitted == s.emitted + (if st.dataBlockedSent then [] else [WtStreamDataBlocked(id, st.maxLocal)]) && id in s'.streams
  {
  }

  lemma ChunkSays(s: Session, id: StreamId, data: seq<Byte>, fin: bool)
    requires id in s.streams
    ensures var s', st := SendChunk(s, id, data, fin), s.streams[id];
      && s'.emitted == s.emitted + [WtStream(id, data, fin)]
      && id in s'.streams && s'.dataBlockedSent == s.dataBlockedSent && s'.maxDataLocal == s.maxDataLocal && s'.bidi == s.bidi && s'.uni == s.uni
      && s'.streams[id] == st.(bytesSent := st.bytesSent + |data|, sendState := if fin then DataSent else st.sendState)
  {
  }

  /** Bytes for a stream on which nothing waits: all of them. */
  lemma WholeSays(s: Session, id: StreamId, data: seq<Byte>, fin: bool)
    requires AcceptsSend(s, id) && s.streams[id].pending == [] && Sendable(s, s.streams[id], |data|) >= |data|
    ensures var s', st := SendStreamData(s, id, data, fin), s.streams[id];
            s'.emitted == s.emitted + ([WtStream(id, data, fin)] + Grant(!st.isUni, Count(s, !st.isUni).maxRemote, fin && !st.isLocal && RecvDone(st)))
  {
    hide SendChunk, ReportBlocked, MaybeRelease;
    ChunkSays(s, id, data, fin);
    if fin { ReleaseSays(SendChunk(s, id, data, fin), id); }
  }

  /** Or as many as both limits allow. */
  lemma PartSays(s: Session, id: StreamId, data: seq<Byte>, fin: bool)
    requires AcceptsSend(s, id) && s.streams[id].pending == [] && Sendable(s, s.streams[id], |data|) < |data|
    ensures var st, n := s.streams[id], Sendable(s, s.streams[id], |data|);
            var a, b := SessionAvail(s, |data|), StreamAvail(st, |data|);
            var s' := SendStreamData(s, id, data, fin);
            s'.emitted == s.emitted + ((if n > 0 then [WtStream(id, data[..n], false)] else [])
                         + Notices(a <= b && !s.dataBlockedSent, s.maxDataLocal, b <= a && !st.dataBlockedSent, id, st.maxLocal))
  {
    hide SendChunk, ReportBlocked, MaybeRelease, Notices, Sendable, SessionAvail, StreamAvail;
    var st, n := s.streams[id], Sendable(s, s.streams[id], |data|);
    ChunkSays(s, id, data[..n], false);
    var s1 := if n > 0 then SendChunk(s, id, data[..n], false) else s;
    BlockedSays(s1, id, SessionAvail(s, |data|), StreamAvail(st, |data|));
  }

  lemma TakesIs(p: Config, s: Session, id: StreamId)
    requires Knowing(p, s, None) && !s.terminated
    ensures AcceptsSend(s, id) <==> Takes(s, id)
    ensures Takes(s, id) ==> id in s.streams && Waiting(s, id) == s.streams[id].pending
  {
    hide Knowing, StreamView, Touched, Over;
    EntryIff(p, s, id);
    if id in s.streams { EntryReads(p, s, id); }
  }

  lemma LeftIs(p: Config, s: Session, id: StreamId, size: nat)
    requires Knowing(p, s, None) && id in s.streams
    ensures SessionAvail(s, size) == Min(SessionLeft(p, s), size) && StreamAvail(s.streams[id], size) == Min(StreamLeft(s, id), size)
    ensures Sendable(s, s.streams[id], size) == Min(Min(SessionLeft(p, s), StreamLeft(s, id)), size)
  {
    hide Knowing, StreamView, SessionTotals, LastCredit, Credit;
    CreditIs(p, s, id);
    EntryReads(p, s, id);
  }

  lemma SendReplies(p: Config, s: Session, id: StreamId, data: seq<Byte>, fin: bool)
    requires Knowing(p, s, None) && !s.terminated
    ensures SendStreamData(s, id, data, fin).emitted == s.emitted + Reply(p, s, Send(id, data, fin))
  {
    hide Knowing, StreamView, SessionTotals, LastCredit, Credit, Touched, Over, Takes, Granted, SessionLeft, StreamLeft, Sendable, SessionAvail,
      StreamAvail, ToldOf, ToldStream, EarTotals, Grant, Notices;
    TakesIs(p, s, id);
    if Takes(s, id) {
      if Waiting(s, id) == [] {
        LeftIs(p, s, id, |data|);
        CreditIs(p, s, id);
        EntryReads(p, s, id);
        BoardReads(p, s);
        if Sendable(s, s.streams[id], |data|) >= |data| { WholeSays(s, id, data, fin); } else { PartSays(s, id, data, fin); }
        hide SendStreamData;
      }
    }
  }

  /** Whatever application and peer did before, a call of a live session queues exactly its reply and reports nothing. */
  lemma CallsAnswered(cfg: Config, p: Config, header: bool, steps: seq<Step>, call: Call)
    requires var s := Play(NewSession(cfg, p, header), steps); TidyRun(NewSession(cfg, p, header), steps) && !s.terminated
    ensures var s := Play(NewSession(cfg, p, header), steps); var s' := Apply(s, call);
      && s'.emitted == s.emitted + Reply(p, s, call)
      && s'.events == s.events && s'.received == s.received
      && (s'.terminated <==> call.Close?)
      && (call.OpenCall? ==> OpenStream(s, call.uni).1 == Granting(p, s, call.uni))
  {
    hide Knowing, Play, TidyRun, Apply, OpenStream, Reply, Granting;
    var s := Play(NewSession(cfg, p, header), steps);
    NewKnows(cfg, p, header);
    PlayKnows(p, NewSession(cfg, p, header), steps);
    ApplyOnward(s, call);
    ApplyCloses(s, call);
    if call.OpenCall? { OpenReplies(p, s, call.uni); }
    ApplyReplies(p, s, call);
  }

  lemma ApplyReplies(p: Config, s: Session, call: Call)
    requires Knowing(p, s, None) && !s.terminated
    ensures Apply(s, call).emitted == s.emitted + Reply(p, s, call)
  {
    hide Knowing, OpenStream, SendStreamData, ResetStream, StopSending, Granting, Alive, Takes, SendReply;
    match call
    case OpenCall(uni) => OpenReplies(p, s, uni);
    case Send(id, data, fin) => SendReplies(p, s, id, data, fin);
    case Reset(id, code) => ResetReplies(p, s, id, code);
    case Stop(id, code) => StopReplies(p, s, id, code);
    case _ => hide Utf8.Cut;
  }
}
