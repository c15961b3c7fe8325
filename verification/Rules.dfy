/**
 * When a capsule is an error, and what it brings about when it is none. The rules are stated on
 * what was said before by either end; that the handlers decide by them is proved for any peer
 * and any application, over whole runs.
 */
module Rules {
  import opened Capsules
  import opened Engine
  import opened Trace
  import opened Sending
  import opened Conduct
  import opened Dialogue
  import opened Hearing
  import opened Endpoint
  import opened History
  import opened Runs

  // ---------- The rules ----------

  /** `told`: the application learns of it by an Error event. */
  datatype Fault = Fault(code: ErrorCode, told: bool)

  const BAD_STATE := Some(Fault(WT_STREAM_STATE_ERROR, true))
  const OVERRUN := Some(Fault(WT_FLOW_CONTROL_ERROR, true))
  const BAD_LIMIT := Some(Fault(WT_FLOW_CONTROL_ERROR, false))

  /** What a Limits value says of one direction. */
  function Toward(l: Limits, bidi: bool): nat { if bidi then l.bidi else l.uni }

  /** A stream nobody has used yet, beyond the highest number stated to the peer. */
  predicate BeyondLimit(s: Session, id: StreamId) {
    !Touched(s, id) && id.counter >= Toward(Granted(s), !id.uni)
  }

  /** More bytes than the peer was allowed, on the session or on the stream. */
  predicate Overruns(p: Config, s: Session, id: StreamId, size: nat) {
    || EarTotals(p, s).data + size > Granted(s).data
    || |Ears(s, id).data| + size > Said(s, id).max
  }

  /** The credit a stream starts with: the peer states one for each of the three kinds of stream this end may send on. */
  function FirstCredit(s: Session, id: StreamId): nat {
    if id.uni then s.peer.uni else if id.server == s.cfg.isServer then s.peer.bidiLocal else s.peer.bidiRemote
  }

  /** The same, if it was announced at all. */
  function AnnouncedFirst(s: Session, id: StreamId): Option<nat> {
    if id.uni then s.peer.announcedUni
    else if id.server == s.cfg.isServer then s.peer.announcedBidiLocal else s.peer.announcedBidiRemote
  }

  /** What WT_MAX_STREAM_DATA must not fall below: the last credit, or what the stream started with. */
  function Floor(s: Session, id: StreamId): nat {
    var last, announced := LastCredit(s.received, id), AnnouncedFirst(s, id);
    if last.Some? then last.value
    else if Touched(s, id) && !Over(s, id) then FirstCredit(s, id)
    else if announced.Some? then announced.value else 0
  }

  /** The rule that a capsule breaks, given all that was said before. */
  function Breaks(p: Config, s: Session, c: Capsule): Option<Fault> {
    match c
    case WtStream(id, data, _) =>
      if !ReceivableDataCapsule(id, s.cfg.isServer) || (data != [] && Ears(s, id).ending != Open) then BAD_STATE
      else if BeyondLimit(s, id) || Overruns(p, s, id, |data|) then OVERRUN else None
    case WtResetStream(id, _, size) =>
      if !ReceivableDataCapsule(id, s.cfg.isServer) || Ears(s, id).ending != Open || size != |Ears(s, id).data| then BAD_STATE
      else if BeyondLimit(s, id) then OVERRUN else None
    case WtStopSending(id, _) =>
      if !ReceivableFlowCapsule(id, s.cfg.isServer) || Ears(s, id).stopped then BAD_STATE else None
    case WtMaxStreamData(id, max) =>
      if !ReceivableFlowCapsule(id, s.cfg.isServer) || Ears(s, id).stopped then BAD_STATE
      else if max < Floor(s, id) then BAD_LIMIT else None
    case WtMaxData(max) => if max < EarTotals(p, s).max.data then BAD_LIMIT else None
    case WtMaxStreams(bidi, max) =>
      if max > MAX_STREAMS || max < Toward(EarTotals(p, s).max, bidi) then BAD_LIMIT else None
    case WtStreamDataBlocked(id, _) =>
      if !ReceivableDataCapsule(id, s.cfg.isServer) || Ears(s, id).ending != Open then BAD_STATE else None
    case WtStreamsBlocked(_, max) => if max > MAX_STREAMS then BAD_LIMIT else None
    case _ => None
  }

  // ---------- What follows ----------

  /** The events of a capsule that breaks no rule. */
  function Reports(s: Session, c: Capsule): seq<Event> {
    match c
    case Datagram(payload) => [DatagramReceived(payload)]
    case WtStream(id, data, fin) => if data != [] || (fin && !Over(s, id)) then [StreamData(id, data, fin)] else []
    case WtResetStream(id, code, _) => [StreamReset(id, code)]
    case WtStopSending(id, code) => [StopSendingReceived(id, code)]
    case WtCloseSession(code, message) => [SessionClosed(code, message)]
    case WtDrainSession => [SessionDraining]
    case _ => []
  }

  function Grant(bidi: bool, limit: nat, due: bool): seq<Capsule> {
    if due && limit < MAX_STREAMS then [WtMaxStreams(bidi, limit + 1)] else []
  }

  /** More than half of what was stated is used, and a whole window on top of it states more. */
  predicate Due(size: nat, limit: nat, init: nat) { init > 0 && 2 * size > limit && Min(size + init, MAX_VARINT) > limit }

  lemma DueIs(size: nat, limit: nat, init: nat)
    ensures Due(size, limit, init) <==> ShouldReplenish(size, limit, init)
  {
  }

  function SessionCredit(size: nat, limit: nat, init: nat): seq<Capsule> {
    if Due(size, limit, init) then [WtMaxData(Min(size + init, MAX_VARINT))] else []
  }

  function StreamCredit(id: StreamId, size: nat, limit: nat, init: nat, stopped: bool): seq<Capsule> {
    if !stopped && Due(size, limit, init) then [WtMaxStreamData(id, Min(size + init, MAX_VARINT))] else []
  }

  /** A stream of the peer that ends makes room for one more. */
  function RoomForOneMore(s: Session, id: StreamId, ends: bool): seq<Capsule> {
    Grant(!id.uni, Toward(Granted(s), !id.uni), ends && !LocalTo(s.cfg.isServer, id))
  }

  /** Credit goes back once more than half of what was granted is used, unless the stream was stopped. */
  function CreditBack(p: Config, s: Session, id: StreamId, size: nat): seq<Capsule> {
    SessionCredit(EarTotals(p, s).data + size, Granted(s).data, s.cfg.initData)
    + StreamCredit(id, |Ears(s, id).data| + size, Said(s, id).max, s.cfg.initStreamData, Said(s, id).stopped)
  }

  /** The direction towards the peer, if the stream has one, has ended. */
  predicate Spoken(s: Session, id: StreamId) { id.uni || Said(s, id).ending != Open }

  /** What is queued in answer to a capsule that breaks no rule; new credit also lets waiting bytes go. */
  function Answer(p: Config, s: Session, c: Capsule): seq<Capsule> {
    match c
    case WtStream(id, data, fin) =>
      if Over(s, id) then [] else CreditBack(p, s, id, |data|) + RoomForOneMore(s, id, fin && Spoken(s, id))
    case WtResetStream(id, _, _) => RoomForOneMore(s, id, Spoken(s, id))
    case WtStopSending(id, code) =>
      if !Touched(s, id) || Said(s, id).ending != Open then []
      else [WtResetStream(id, code, |Said(s, id).data|)] + RoomForOneMore(s, id, Ears(s, id).ending != Open)
    case _ => []
  }

  predicate NewCredit(c: Capsule) { c.WtMaxData? || c.WtMaxStreamData? }

  /** Nothing is queued but data, and room for one more stream where the data ends one. */
  predicate OnlySends(s: Session, s': Session) {
    && s.emitted <= s'.emitted
    && forall k :: |s.emitted| <= k < |s'.emitted| ==> s'.emitted[k].WtStream? || s'.emitted[k].WtMaxStreams?
  }

  /** An error is reported if it is to be told, and closes the session; nothing else is said. */
  predicate Punishes(s: Session, f: Fault, s': Session) {
    && s'.received == s.received
    && s'.events == (if f.told then s.events + [Error(f.code)] else s.events)
    && s'.emitted == s.emitted + [WtCloseSession(f.code, [])]
    && s'.terminated && !s'.established
  }

  ghost predicate Judges(p: Config, s: Session, c: Capsule, s': Session) {
    match Breaks(p, s, c)
    case Some(f) => Punishes(Heed(s, c), f, s')
    case None =>
      && s'.received == s.received + [c]
      && s'.events == s.events + Reports(s, c)
      && (if NewCredit(c) then OnlySends(s, s') else s'.emitted == s.emitted + Answer(p, s, c))
      && (s'.terminated <==> c.WtCloseSession?)
      && (!c.WtCloseSession? ==> Keeps(p, s, s'))
  }

  // ---------- What the state knows of the logs ----------

  lemma Punish(s: Session, t: Session, code: ErrorCode)
    requires !s.terminated && t == s.(streams := t.streams)
    ensures Punishes(s, Fault(code, true), ReportError(t, code))
    ensures Punishes(s, Fault(WT_FLOW_CONTROL_ERROR, false), ReportLimitError(t))
  {
  }

  /** An entry is there exactly while the stream is used and not over. */
  lemma EntryIff(p: Config, s: Session, id: StreamId)
    requires Knowing(p, s, None)
    ensures id in s.streams <==> Touched(s, id) && !Over(s, id)
    ensures id in s.released ==> Over(s, id)
    ensures Over(s, id) && ReceivableDataCapsule(id, s.cfg.isServer) ==> id in s.released && Ears(s, id).ending != Open
    ensures !Touched(s, id) ==> Ears(s, id).data == [] && Ears(s, id).ending == Open && Said(s, id).max == s.cfg.initStreamData
    ensures id in s.receivedStops <==> Ears(s, id).stopped
    ensures id in s.sentStops <==> Said(s, id).stopped
    ensures |Ears(s, id).data| <= Said(s, id).max
  {
    hide StreamView, ToldStream, LastCredit, SessionKnows;
    KnowsSpot(p, s, None, id);
  }

  lemma EntryReads(p: Config, s: Session, id: StreamId)
    requires Knowing(p, s, None) && id in s.streams
    ensures var st := s.streams[id];
      && st.isLocal == LocalTo(s.cfg.isServer, id) && st.isUni == id.uni
      && st.bytesReceived == |Ears(s, id).data| && (RecvDone(st) <==> Ears(s, id).ending != Open)
      && st.bytesSent == |Said(s, id).data| && (SendDone(st) <==> Said(s, id).ending != Open)
      && st.maxRemote == Said(s, id).max
      && (st.stopReceived ==> Ears(s, id).stopped)
      && (LastCredit(s.received, id).None? ==> st.maxLocal == FirstCredit(s, id))
  {
    hide StreamView, ToldStream, LastCredit, SessionKnows;
    KnowsSpot(p, s, None, id);
  }

  lemma BoardReads(p: Config, s: Session)
    requires Knowing(p, s, None)
    ensures s.bytesReceived == EarTotals(p, s).data <= s.maxDataRemote == Granted(s).data
    ensures forall bidi :: Count(s, bidi).maxRemote == Toward(Granted(s), bidi)
    ensures var max := EarTotals(p, s).max.data; if s.receivedMaxData.Some? then s.receivedMaxData.value == max else max == 0
    ensures forall bidi :: var max := Toward(EarTotals(p, s).max, bidi);
                           if Count(s, bidi).received.Some? then Count(s, bidi).received.value == max else max == 0
    ensures forall bidi :: Count(s, bidi).maxLocal == Toward(EarTotals(p, s).max, bidi)
  {
    hide Knowing, ToldOf, Most, SessionTotals;
    KnowsBoard(p, s, None);
  }

  /** The entry a capsule about an unused or living stream lands on. */
  lemma LandsOn(p: Config, s: Session, c: Capsule, id: StreamId)
    requires Knowing(p, s, None) && !Over(s, id)
    ensures var st := WithEntry(Heed(s, c), id).streams[id];
      && st.isLocal == LocalTo(s.cfg.isServer, id) && st.isUni == id.uni
      && st.bytesReceived == |Ears(s, id).data| && (RecvDone(st) <==> Ears(s, id).ending != Open)
      && (SendDone(st) <==> Said(s, id).ending != Open)
      && st.maxRemote == Said(s, id).max
  {
    hide Knowing, StreamView, LastCredit, Over;
    EntryIff(p, s, id);
    if id in s.streams { EntryReads(p, s, id); } else { Fresh(p, s, id); }
  }

  lemma Fresh(p: Config, s: Session, id: StreamId)
    requires Knowing(p, s, None) && !Touched(s, id)
    ensures Said(s, id).ending == Open
  {
    hide StreamView, ToldStream, LastCredit, SessionKnows;
    KnowsSpot(p, s, None, id);
  }

  // ---------- What the steps after a data capsule queue ----------

  lemma MaxDataSays(s: Session)
    requires !s.terminated
    ensures var s' := MaybeSendMaxData(s);
      && s'.emitted == s.emitted + SessionCredit(s.bytesReceived, s.maxDataRemote, s.cfg.initData)
      && s'.streams == s.streams && s'.sentStops == s.sentStops && s'.terminated == s.terminated && s'.cfg == s.cfg
      && s'.bidi == s.bidi && s'.uni == s.uni && s'.events == s.events && s'.received == s.received
  {
    DueIs(s.bytesReceived, s.maxDataRemote, s.cfg.initData);
  }

  lemma MaxStreamDataSays(s: Session, id: StreamId)
    requires !s.terminated && id in s.streams
    ensures var s' := MaybeSendMaxStreamData(s, id); var st := s.streams[id];
      && s'.emitted == s.emitted + StreamCredit(id, st.bytesReceived, st.maxRemote, s.cfg.initStreamData, id in s.sentStops)
      && id in s'.streams && s'.streams[id] == st.(maxRemote := s'.streams[id].maxRemote)
      && s'.bidi == s.bidi && s'.uni == s.uni && s'.events == s.events && s'.received == s.received && s'.terminated == s.terminated
  {
    DueIs(s.streams[id].bytesReceived, s.streams[id].maxRemote, s.cfg.initStreamData);
    hide ShouldReplenish, Due;
  }

  lemma ReleaseSays(s: Session, id: StreamId)
    requires id in s.streams
    ensures var s' := MaybeRelease(s, id); var st := s.streams[id];
      && s'.emitted == s.emitted + Grant(!st.isUni, Count(s, !st.isUni).maxRemote, Releasable(st) && !st.isLocal)
      && s'.events == s.events && s'.received == s.received && s'.terminated == s.terminated
  {
  }

  lemma AfterChunkSays(s: Session, id: StreamId, fin: bool)
    requires !s.terminated && id in s.streams
    ensures var s', st := AfterChunk(s, id, fin), s.streams[id];
      && s'.emitted == s.emitted
           + (SessionCredit(s.bytesReceived, s.maxDataRemote, s.cfg.initData)
              + StreamCredit(id, st.bytesReceived, st.maxRemote, s.cfg.initStreamData, id in s.sentStops))
           + Grant(!st.isUni, Count(s, !st.isUni).maxRemote, fin && Releasable(st) && !st.isLocal)
      && s'.events == s.events && s'.received == s.received && !s'.terminated
  {
    hide MaybeSendMaxData, MaybeSendMaxStreamData, MaybeRelease, SessionCredit, StreamCredit;
    var s1 := MaybeSendMaxData(s);
    MaxDataSays(s);
    MaxStreamDataSays(s1, id);
    ReleaseSays(MaybeSendMaxStreamData(s1, id), id);
  }

  // ---------- WT_STREAM ----------

  /** A stream that is not over is judged by the entry the capsule lands on. */
  lemma StreamLands(p: Config, s: Session, id: StreamId, data: seq<Byte>, fin: bool)
    requires Knowing(p, s, None) && ReceivableDataCapsule(id, s.cfg.isServer) && !Over(s, id) && !BeyondLimit(s, id)
    ensures var s0 := Heed(s, WtStream(id, data, fin));
            HandleWtStream(s0, id, data, fin) == AcceptWtStream(WithEntry(s0, id), id, data, fin)
  {
    hide Knowing, StreamView, Over, Touched, AcceptWtStream, NewStream, Granted, EarTotals;
    EntryIff(p, s, id);
    BoardReads(p, s);
  }

  lemma StreamBroken(p: Config, s: Session, id: StreamId, data: seq<Byte>, fin: bool)
    requires Knowing(p, s, None) && !s.terminated && Breaks(p, s, WtStream(id, data, fin)).Some?
    ensures var c := WtStream(id, data, fin);
            Punishes(Heed(s, c), Breaks(p, s, c).value, HandleWtStream(Heed(s, c), id, data, fin))
  {
    hide Knowing, StreamView, Over, Touched, ReportError, Punishes, RecvChunk, MaybeSendMaxData, MaybeSendMaxStreamData, MaybeRelease,
      NewStream, Granted, EarTotals;
    var c := WtStream(id, data, fin);
    var s0 := Heed(s, c);
    Punish(s0, s0, WT_STREAM_STATE_ERROR);
    Punish(s0, s0, WT_FLOW_CONTROL_ERROR);
    EntryIff(p, s, id);
    BoardReads(p, s);
    if ReceivableDataCapsule(id, s.cfg.isServer) && !Over(s, id) && !BeyondLimit(s, id) {
      StreamLands(p, s, id, data, fin);
      LandsOn(p, s, c, id);
      Punish(s0, WithEntry(s0, id), WT_STREAM_STATE_ERROR);
      Punish(s0, WithEntry(s0, id), WT_FLOW_CONTROL_ERROR);
    }
  }

  /** An empty capsule about a stream that is over is passed by. */
  lemma StreamIdle(p: Config, s: Session, id: StreamId, data: seq<Byte>, fin: bool)
    requires Knowing(p, s, None) && Over(s, id) && Breaks(p, s, WtStream(id, data, fin)).None?
    ensures var s0 := Heed(s, WtStream(id, data, fin)); HandleWtStream(s0, id, data, fin) == s0 && data == []
  {
    hide Knowing, StreamView, Over, Touched, AcceptWtStream, NewStream, Granted, EarTotals;
    EntryIff(p, s, id);
  }

  lemma StreamKept(p: Config, s: Session, id: StreamId, data: seq<Byte>, fin: bool)
    requires Knowing(p, s, None) && !Over(s, id) && Breaks(p, s, WtStream(id, data, fin)).None?
    ensures var s0 := Heed(s, WtStream(id, data, fin));
            HandleWtStream(s0, id, data, fin) == AfterChunk(RecvChunk(WithEntry(s0, id), id, data, fin), id, fin)
  {
    hide Knowing, StreamView, Over, Touched, ReportError, RecvChunk, MaybeSendMaxData, MaybeSendMaxStreamData, MaybeRelease,
      NewStream, Granted, EarTotals, WithEntry;
    StreamLands(p, s, id, data, fin);
    LandsOn(p, s, WtStream(id, data, fin), id);
    BoardReads(p, s);
    WithEntryFrame(Heed(s, WtStream(id, data, fin)), id);
  }

  lemma WithEntryFrame(s: Session, id: StreamId)
    ensures WithEntry(s, id) == s.(streams := WithEntry(s, id).streams)
  {
  }

  /** What the state reads once the bytes are in. */
  lemma ChunkReads(p: Config, s: Session, id: StreamId, data: seq<Byte>, fin: bool)
    requires Knowing(p, s, None) && !Over(s, id) && ReceivableDataCapsule(id, s.cfg.isServer)
    ensures var s2 := RecvChunk(WithEntry(Heed(s, WtStream(id, data, fin)), id), id, data, fin); var st := s2.streams[id];
      && id in s2.streams && s2.terminated == s.terminated && s2.cfg == s.cfg && s2.emitted == s.emitted && s2.received == s.received + [WtStream(id, data, fin)]
      && s2.events == s.events + (if data != [] || fin then [StreamData(id, data, fin)] else [])
      && s2.bytesReceived == EarTotals(p, s).data + |data| && s2.maxDataRemote == Granted(s).data
      && (id in s2.sentStops <==> Said(s, id).stopped)
      && st.bytesReceived == |Ears(s, id).data| + |data| && st.maxRemote == Said(s, id).max
      && st.isUni == id.uni && st.isLocal == LocalTo(s.cfg.isServer, id)
      && Count(s2, !id.uni).maxRemote == Toward(Granted(s), !id.uni)
      && (fin ==> (Releasable(st) <==> Spoken(s, id)))
  {
    hide Knowing, StreamView, Over, Touched, NewStream, Granted, EarTotals, WithEntry;
    var c := WtStream(id, data, fin);
    LandsOn(p, s, c, id);
    BoardReads(p, s);
    EntryIff(p, s, id);
    WithEntryFrame(Heed(s, c), id);
  }

  lemma ChunkKeeps(p: Config, s: Session, id: StreamId, fin: bool)
    requires Knowing(p, s, if fin then Some(id) else None)
    ensures Keeps(p, s, AfterChunk(s, id, fin))
  {
    hide Knowing, MaybeSendMaxData, MaybeSendMaxStreamData, MaybeRelease;
    var s1 := MaybeSendMaxData(s);
    MaxDataKnows(p, s, if fin then Some(id) else None);
    MaxStreamDataKnows(p, s1, id, fin);
    CreditTraces(s, id);
    if fin { ReleaseKeeps(p, MaybeSendMaxStreamData(s1, id), id); }
  }

  lemma CreditTraces(s: Session, id: StreamId)
    ensures var s1 := MaybeSendMaxData(s); var s2 := MaybeSendMaxStreamData(s1, id); s2.released == s.released && SameEnd(s, s2)
  {
    hide ShouldReplenish, Replenished;
  }

  /** What the accounting of the bytes brings about. */
  lemma StreamSays(p: Config, s: Session, id: StreamId, data: seq<Byte>, fin: bool)
    requires Knowing(p, s, None) && !s.terminated && !Over(s, id) && ReceivableDataCapsule(id, s.cfg.isServer)
    ensures var c := WtStream(id, data, fin);
            var s' := AfterChunk(RecvChunk(WithEntry(Heed(s, c), id), id, data, fin), id, fin);
      && s'.received == s.received + [c] && s'.events == s.events + Reports(s, c) && !s'.terminated
      && s'.emitted == s.emitted + Answer(p, s, c)
  {
    hide Knowing, StreamView, Over, Touched, RecvChunk, WithEntry, AfterChunk, Granted, EarTotals, Spoken, Releasable,
      SessionCredit, StreamCredit;
    var s2 := RecvChunk(WithEntry(Heed(s, WtStream(id, data, fin)), id), id, data, fin);
    ChunkReads(p, s, id, data, fin);
    AfterChunkSays(s2, id, fin);
    var st := s2.streams[id];
    assert Grant(!st.isUni, Count(s2, !st.isUni).maxRemote, fin && Releasable(st) && !st.isLocal)
        == RoomForOneMore(s, id, fin && Spoken(s, id));
    assert SessionCredit(s2.bytesReceived, s2.maxDataRemote, s2.cfg.initData)
           + StreamCredit(id, st.bytesReceived, st.maxRemote, s2.cfg.initStreamData, id in s2.sentStops)
        == CreditBack(p, s, id, |data|);
    hide RoomForOneMore, CreditBack, Grant;
  }

  lemma JudgesStream(p: Config, s: Session, id: StreamId, data: seq<Byte>, fin: bool)
    requires Knowing(p, s, None) && !s.terminated
    ensures Judges(p, s, WtStream(id, data, fin), Receive(s, WtStream(id, data, fin)))
  {
    hide Knowing, StreamView, Over, Touched, RecvChunk, WithEntry, AfterChunk, HandleWtStream, Granted, EarTotals, BeyondLimit, Overruns,
      Punishes, Answer, Reports, Keeps;
    var c := WtStream(id, data, fin);
    if Breaks(p, s, c).Some? {
      StreamBroken(p, s, id, data, fin);
    } else if Over(s, id) {
      StreamIdle(p, s, id, data, fin);
      IdleKeeps(p, s, id, fin);
    } else {
      StreamKept(p, s, id, data, fin);
      StreamSays(p, s, id, data, fin);
      StreamKeeps(p, s, id, data, fin);
    }
  }

  lemma IdleKeeps(p: Config, s: Session, id: StreamId, fin: bool)
    requires Knowing(p, s, None) && Over(s, id) && ReceivableDataCapsule(id, s.cfg.isServer)
    ensures var c := WtStream(id, [], fin); Keeps(p, s, Heed(s, c)) && Reports(s, c) == [] && Answer(p, s, c) == []
  {
    hide Knowing, StreamView, Over, Touched, Granted, EarTotals;
    EntryIff(p, s, id);
    EmptyLearned(p, s, id, fin);
  }

  lemma StreamKeeps(p: Config, s: Session, id: StreamId, data: seq<Byte>, fin: bool)
    requires Knowing(p, s, None) && !Over(s, id) && Breaks(p, s, WtStream(id, data, fin)).None?
    ensures Keeps(p, s, AfterChunk(RecvChunk(WithEntry(Heed(s, WtStream(id, data, fin)), id), id, data, fin), id, fin))
  {
    hide Knowing, StreamView, Over, Touched, RecvChunk, WithEntry, AfterChunk, Granted, EarTotals, BeyondLimit;
    var s2 := RecvChunk(WithEntry(Heed(s, WtStream(id, data, fin)), id), id, data, fin);
    EntryIff(p, s, id);
    BoardReads(p, s);
    ChunkLearned(p, s, id, data, fin);
    ChunkKeeps(p, s2, id, fin);
    ChunkFrame(s, WtStream(id, data, fin), id, data, fin);
  }

  lemma ChunkFrame(s: Session, c: Capsule, id: StreamId, data: seq<Byte>, fin: bool)
    ensures var s2 := RecvChunk(WithEntry(Heed(s, c), id), id, data, fin); s2.released == s.released && SameEnd(s, s2)
  {
    hide NewStream;
  }

  // ---------- WT_RESET_STREAM ----------

  lemma ResetBroken(p: Config, s: Session, id: StreamId, code: ErrorCode, size: nat)
    requires Knowing(p, s, None) && !s.terminated && Breaks(p, s, WtResetStream(id, code, size)).Some?
    ensures var c := WtResetStream(id, code, size);
            Punishes(Heed(s, c), Breaks(p, s, c).value, HandleWtResetStream(Heed(s, c), id, code, size))
  {
    hide Knowing, StreamView, Over, Touched, ReportError, Punishes, MaybeRelease, NewStream, Granted;
    var s0 := Heed(s, WtResetStream(id, code, size));
    Punish(s0, s0, WT_STREAM_STATE_ERROR);
    Punish(s0, s0, WT_FLOW_CONTROL_ERROR);
    EntryIff(p, s, id);
    BoardReads(p, s);
    if id in s.streams { EntryReads(p, s, id); }
  }

  lemma ResetKept(p: Config, s: Session, id: StreamId, code: ErrorCode, size: nat)
    requires Knowing(p, s, None) && Breaks(p, s, WtResetStream(id, code, size)).None?
    ensures var s0 := Heed(s, WtResetStream(id, code, size));
            HandleWtResetStream(s0, id, code, size) == MaybeRelease(NoteReset(WithEntry(s0, id), id, code), id)
    ensures !Over(s, id) && id !in s.released
  {
    hide Knowing, StreamView, Over, Touched, ReportError, MaybeRelease, NewStream, Granted;
    EntryIff(p, s, id);
    BoardReads(p, s);
    if id in s.streams { EntryReads(p, s, id); }
  }

  lemma ResetReads(p: Config, s: Session, c: Capsule, id: StreamId, code: ErrorCode)
    requires Knowing(p, s, None) && !Over(s, id) && ReceivableDataCapsule(id, s.cfg.isServer)
    ensures var s2 := NoteReset(WithEntry(Heed(s, c), id), id, code);
      && id in s2.streams && s2.terminated == s.terminated && s2.emitted == s.emitted && s2.received == s.received + [c]
      && s2.events == s.events + [StreamReset(id, code)]
      && s2.streams[id].isUni == id.uni && s2.streams[id].isLocal == LocalTo(s.cfg.isServer, id)
      && Count(s2, !id.uni).maxRemote == Toward(Granted(s), !id.uni)
      && (Releasable(s2.streams[id]) <==> Spoken(s, id))
      && s2.released == s.released && SameEnd(s, s2)
  {
    hide Knowing, StreamView, Over, Touched, NewStream, Granted, WithEntry;
    LandsOn(p, s, c, id);
    BoardReads(p, s);
    WithEntryFrame(Heed(s, c), id);
  }

  lemma JudgesReset(p: Config, s: Session, id: StreamId, code: ErrorCode, size: nat)
    requires Knowing(p, s, None) && !s.terminated
    ensures Judges(p, s, WtResetStream(id, code, size), Receive(s, WtResetStream(id, code, size)))
  {
    hide Knowing, StreamView, Over, Touched, NoteReset, WithEntry, MaybeRelease, HandleWtResetStream, Granted, BeyondLimit, Punishes, Spoken,
      Releasable, Grant;
    var c := WtResetStream(id, code, size);
    if Breaks(p, s, c).Some? {
      ResetBroken(p, s, id, code, size);
    } else {
      var s2 := NoteReset(WithEntry(Heed(s, c), id), id, code);
      ResetKept(p, s, id, code, size);
      ResetReads(p, s, c, id, code);
      ReleaseSays(s2, id);
      ResetLearned(p, s, id, code, size);
      ReleaseKeeps(p, s2, id);
    }
  }

  // ---------- WT_STOP_SENDING ----------

  lemma StopBroken(p: Config, s: Session, id: StreamId, code: ErrorCode)
    requires Knowing(p, s, None) && !s.terminated && Breaks(p, s, WtStopSending(id, code)).Some?
    ensures var c := WtStopSending(id, code);
            Punishes(Heed(s, c), Breaks(p, s, c).value, HandleWtStopSending(Heed(s, c), id, code))
  {
    hide Knowing, StreamView, Over, Touched, ReportError, Punishes, ResetStream, NoteStop;
    var s0 := Heed(s, WtStopSending(id, code));
    Punish(s0, s0, WT_STREAM_STATE_ERROR);
    EntryIff(p, s, id);
  }

  lemma StopKept(p: Config, s: Session, id: StreamId, code: ErrorCode)
    requires Knowing(p, s, None) && Breaks(p, s, WtStopSending(id, code)).None?
    ensures var t := NoteStop(Heed(s, WtStopSending(id, code)), id, code);
            HandleWtStopSending(Heed(s, WtStopSending(id, code)), id, code) == if id in s.streams then ResetStream(t, id, code) else t
  {
    hide Knowing, StreamView, Over, Touched, ReportError, ResetStream, NoteStop;
    EntryIff(p, s, id);
    if id in s.streams { EntryReads(p, s, id); }
  }

  lemma StopReads(p: Config, s: Session, c: Capsule, id: StreamId, code: ErrorCode)
    requires Knowing(p, s, None) && |s.receivedStops| < MAX_RECEIVED_MAP_ENTRIES
    ensures var t := NoteStop(Heed(s, c), id, code);
      && t.terminated == s.terminated && t.emitted == s.emitted && t.received == s.received + [c]
      && t.events == s.events + [StopSendingReceived(id, code)]
      && t.released == s.released && SameEnd(s, t) && t.bidi == s.bidi && t.uni == s.uni
      && (id in t.streams <==> id in s.streams)
      && (id in s.streams ==> t.streams[id] == s.streams[id].(stopReceived := true))
  {
  }

  /** A reset, and what it releases. */
  lemma ResetSays(s: Session, id: StreamId, code: ErrorCode)
    requires !s.terminated && id in s.streams && !SendDone(s.streams[id])
    ensures var s', st := ResetStream(s, id, code), s.streams[id];
      && s'.emitted == s.emitted + ([WtResetStream(id, code, st.bytesSent)]
                                    + Grant(!st.isUni, Count(s, !st.isUni).maxRemote, !st.isLocal && RecvDone(st)))
      && s'.events == s.events && s'.received == s.received && s'.terminated == s.terminated
  {
    hide MaybeRelease;
    ReleaseSays(MarkReset(s, id, code), id);
  }

  lemma StopSays(p: Config, s: Session, id: StreamId, code: ErrorCode)
    requires Knowing(p, s, None) && !s.terminated && |s.receivedStops| < MAX_RECEIVED_MAP_ENTRIES
    requires ReceivableFlowCapsule(id, s.cfg.isServer)
    ensures var c := WtStopSending(id, code); var t := NoteStop(Heed(s, c), id, code);
            var s' := if id in s.streams then ResetStream(t, id, code) else t;
      && s'.received == s.received + [c] && s'.events == s.events + Reports(s, c) && !s'.terminated
      && s'.emitted == s.emitted + Answer(p, s, c)
  {
    hide Knowing, StreamView, NoteStop, Granted, MaybeRelease, Grant, MarkReset;
    var c := WtStopSending(id, code);
    var t := NoteStop(Heed(s, c), id, code);
    EntryIff(p, s, id);
    StopReads(p, s, c, id, code);
    BoardReads(p, s);
    if id in s.streams {
      EntryReads(p, s, id);
      hide Over, Touched, LastCredit;
      if !SendDone(s.streams[id]) {
        ResetSays(t, id, code);
        assert Grant(!id.uni, Count(t, !id.uni).maxRemote, !LocalTo(s.cfg.isServer, id) && RecvDone(t.streams[id]))
            == RoomForOneMore(s, id, Ears(s, id).ending != Open) by { hide ResetStream, SendDone; }
      }
    }
  }

  lemma StopKeeps(p: Config, s: Session, id: StreamId, code: ErrorCode)
    requires Knowing(p, s, None) && |s.receivedStops| < MAX_RECEIVED_MAP_ENTRIES
    ensures var t := NoteStop(Heed(s, WtStopSending(id, code)), id, code);
            Keeps(p, s, if id in s.streams then ResetStream(t, id, code) else t)
  {
    hide Knowing, NoteStop, ResetStream;
    var t := NoteStop(Heed(s, WtStopSending(id, code)), id, code);
    StopReads(p, s, WtStopSending(id, code), id, code);
    StopLearned(p, s, id, code);
    ResetKnows(p, t, id, code);
  }

  lemma JudgesStop(p: Config, s: Session, id: StreamId, code: ErrorCode)
    requires Knowing(p, s, None) && !s.terminated && |s.receivedStops| < MAX_RECEIVED_MAP_ENTRIES
    ensures Judges(p, s, WtStopSending(id, code), Receive(s, WtStopSending(id, code)))
  {
    hide Knowing, StreamView, HandleWtStopSending, NoteStop, ResetStream, Punishes, Answer, Reports, Keeps;
    var c := WtStopSending(id, code);
    if Breaks(p, s, c).Some? {
      StopBroken(p, s, id, code);
    } else {
      StopKept(p, s, id, code);
      StopSays(p, s, id, code);
      StopKeeps(p, s, id, code);
    }
  }

  // ---------- Credit, and what it lets go ----------

  lemma OnlySendsThen(s: Session, t: Session, u: Session)
    requires OnlySends(s, t) && OnlySends(t, u)
    ensures OnlySends(s, u)
  {
  }

  lemma ReleaseSends(s: Session, id: StreamId)
    ensures OnlySends(s, MaybeRelease(s, id))
  {
    hide Releasable, Forget, GrantStream;
    if id in s.streams { ReleaseSays(s, id); }
  }

  lemma DrainSends(s: Session, id: StreamId)
    ensures OnlySends(s, Drain(s, id))
    decreases if id in s.streams then |s.streams[id].pending| else 0
  {
    hide MaybeRelease, Sendable;
    if id in s.streams && s.streams[id].pending != [] {
      var p := s.streams[id].pending;
      var n := Sendable(s, s.streams[id], |p[0].data|);
      if n != 0 && n >= |p[0].data| {
        var s' := SendChunk(SetPending(s, id, p[1..]), id, p[0].data, p[0].fin);
        assert OnlySends(s, s');
        hide OnlySends, SendChunk, SetPending;
        if p[0].fin { ReleaseSends(s', id); } else { DrainSends(s', id); }
        OnlySendsThen(s, s', Drain(s, id));
      }
    }
  }

  lemma {:induction false} FlushPassSends(s: Session, ids: seq<StreamId>)
    ensures OnlySends(s, FlushPass(s, ids))
    decreases |ids|
  {
    hide Drain;
    if ids != [] {
      DrainSends(s, ids[0]);
      FlushPassSends(FlushOne(s, ids[0]), ids[1..]);
      hide OnlySends;
      OnlySendsThen(s, FlushOne(s, ids[0]), FlushPass(s, ids));
    }
  }

  lemma {:induction false} FlushSends(s: Session)
    ensures OnlySends(s, FlushPending(s))
    decreases if s.bytesSent <= s.maxDataLocal then s.maxDataLocal - s.bytesSent else 0
  {
    hide FlushPass;
    if !s.terminated {
      var ids := SortedKeys(s.streams.Keys);
      FlushPassProgress(s, ids);
      FlushPassSends(s, ids);
      if FlushPass(s, ids).bytesSent != s.bytesSent {
        FlushSends(FlushPass(s, ids));
        hide OnlySends;
        OnlySendsThen(s, FlushPass(s, ids), FlushPending(s));
      }
    }
  }

  /** Credit that is noted, and then perhaps a flush. */
  lemma CreditSays(p: Config, s: Session, t: Session, c: Capsule, s': Session)
    requires t.received == s.received + [c] && t.events == s.events && t.emitted == s.emitted && t.terminated == s.terminated
    requires t.released == s.released && SameEnd(s, t) && Knowing(p, t, None) && !s.terminated
    requires s' == t || s' == FlushPending(t)
    ensures s'.received == s.received + [c] && s'.events == s.events && !s'.terminated && OnlySends(s, s') && Keeps(p, s, s')
  {
    hide Knowing, FlushPending;
    FlushSends(t);
    FlushFrame(t);
    FlushKnows(p, t);
  }

  lemma MaxDataFrame(s: Session, c: Capsule, max: nat)
    ensures var t := NoteMaxData(Heed(s, c), max);
      && t.received == s.received + [c] && t.events == s.events && t.emitted == s.emitted && t.terminated == s.terminated
      && t.released == s.released && SameEnd(s, t)
  {
  }

  lemma JudgesMaxData(p: Config, s: Session, max: nat)
    requires Knowing(p, s, None) && !s.terminated
    ensures Judges(p, s, WtMaxData(max), Receive(s, WtMaxData(max)))
  {
    hide Knowing, FlushPending, Punishes, EarTotals, NoteMaxData, OnlySends, ReportLimitError, Keeps;
    var c := WtMaxData(max);
    var s0 := Heed(s, c);
    BoardReads(p, s);
    if Breaks(p, s, c).Some? {
      Punish(s0, s0, WT_FLOW_CONTROL_ERROR);
    } else {
      MaxDataLearned(p, s, max);
      MaxDataIsNoted(s0, max);
      hide HandleWtMaxData;
      MaxDataFrame(s, c, max);
      CreditSays(p, s, NoteMaxData(s0, max), c, Receive(s, c));
    }
  }

  lemma FloorIs(p: Config, s: Session, c: Capsule, id: StreamId, max: nat)
    requires Knowing(p, s, None)
    ensures var previous := PreviousMaxStreamData(Heed(s, c), id);
            (previous.Some? && max < previous.value) <==> max < Floor(s, id)
  {
    EntryIff(p, s, id);
    if id in s.streams { EntryReads(p, s, id); }
    CreditReads(p, s, id);
    hide Knowing, StreamView, LastCredit, Touched, Over;
  }

  lemma CreditReads(p: Config, s: Session, id: StreamId)
    requires Knowing(p, s, None)
    ensures LastCredit(s.received, id) == if id in s.receivedMaxStreamData then Some(s.receivedMaxStreamData[id]) else None
  {
    hide StreamView, ToldStream, LastCredit, SessionKnows;
    KnowsSpot(p, s, None, id);
  }

  lemma MaxStreamDataFrame(s: Session, c: Capsule, id: StreamId, max: nat)
    ensures var t := NoteMaxStreamData(Heed(s, c), id, max);
      && t.received == s.received + [c] && t.events == s.events && t.emitted == s.emitted && t.terminated == s.terminated
      && t.released == s.released && SameEnd(s, t)
  {
  }

  lemma MaxStreamDataBroken(p: Config, s: Session, id: StreamId, max: nat)
    requires Knowing(p, s, None) && !s.terminated && Breaks(p, s, WtMaxStreamData(id, max)).Some?
    ensures var c := WtMaxStreamData(id, max);
            Punishes(Heed(s, c), Breaks(p, s, c).value, HandleWtMaxStreamData(Heed(s, c), id, max))
  {
    hide Knowing, FlushPending, Punishes, ReportError, ReportLimitError, PreviousMaxStreamData, Floor, StreamView, Touched, Over;
    var s0 := Heed(s, WtMaxStreamData(id, max));
    Punish(s0, s0, WT_STREAM_STATE_ERROR);
    EntryIff(p, s, id);
    if id in s.streams { EntryReads(p, s, id); }
    FloorIs(p, s, WtMaxStreamData(id, max), id, max);
  }

  lemma MaxStreamDataKept(p: Config, s: Session, id: StreamId, max: nat)
    requires Knowing(p, s, None) && !s.terminated && Breaks(p, s, WtMaxStreamData(id, max)).None?
    requires |s.receivedMaxStreamData| < MAX_RECEIVED_MAP_ENTRIES
    ensures var s0 := Heed(s, WtMaxStreamData(id, max)); var t := NoteMaxStreamData(s0, id, max);
      && Knowing(p, t, None)
      && (HandleWtMaxStreamData(s0, id, max) == t || HandleWtMaxStreamData(s0, id, max) == FlushPending(t))
  {
    hide Knowing, FlushPending, PreviousMaxStreamData, NoteMaxStreamData, HandleWtMaxStreamData, StreamView, Touched, Over, LastCredit;
    var c := WtMaxStreamData(id, max);
    EntryIff(p, s, id);
    if id in s.streams { EntryReads(p, s, id); }
    FloorIs(p, s, c, id, max);
    MaxStreamDataLearned(p, s, id, max);
    MaxStreamDataIsNoted(Heed(s, c), id, max);
  }

  lemma JudgesMaxStreamData(p: Config, s: Session, id: StreamId, max: nat)
    requires Knowing(p, s, None) && !s.terminated && |s.receivedMaxStreamData| < MAX_RECEIVED_MAP_ENTRIES
    ensures Judges(p, s, WtMaxStreamData(id, max), Receive(s, WtMaxStreamData(id, max)))
  {
    hide Knowing, FlushPending, Punishes, NoteMaxStreamData, HandleWtMaxStreamData, OnlySends, Keeps, Floor, StreamView;
    var c := WtMaxStreamData(id, max);
    if Breaks(p, s, c).Some? {
      MaxStreamDataBroken(p, s, id, max);
    } else {
      MaxStreamDataKept(p, s, id, max);
      MaxStreamDataFrame(s, c, id, max);
      CreditSays(p, s, NoteMaxStreamData(Heed(s, c), id, max), c, Receive(s, c));
    }
  }

  // ---------- The rest ----------

  lemma JudgesMaxStreams(p: Config, s: Session, bidi: bool, max: nat)
    requires Knowing(p, s, None) && !s.terminated
    ensures Judges(p, s, WtMaxStreams(bidi, max), Receive(s, WtMaxStreams(bidi, max)))
  {
    hide Knowing, Punishes, EarTotals, ReportLimitError;
    var c := WtMaxStreams(bidi, max);
    BoardReads(p, s);
    Punish(Heed(s, c), Heed(s, c), WT_FLOW_CONTROL_ERROR);
    if Breaks(p, s, c).None? { MaxStreamsLearned(p, s, bidi, max); }
  }

  lemma JudgesBlocked(p: Config, s: Session, id: StreamId, max: nat)
    requires Knowing(p, s, None) && !s.terminated
    ensures Judges(p, s, WtStreamDataBlocked(id, max), Receive(s, WtStreamDataBlocked(id, max)))
  {
    hide Knowing, Punishes, ReportError, StreamView, Touched, Over;
    var c := WtStreamDataBlocked(id, max);
    Punish(Heed(s, c), Heed(s, c), WT_STREAM_STATE_ERROR);
    EntryIff(p, s, id);
    if id in s.streams { EntryReads(p, s, id); }
    BlockedLearned(p, s, id, max);
  }

  lemma JudgesNotice(p: Config, s: Session, c: Capsule)
    requires Knowing(p, s, None) && !s.terminated
    requires c.Datagram? || c.WtDataBlocked? || c.WtStreamsBlocked? || c.WtDrainSession? || c.WtCloseSession?
    ensures Judges(p, s, c, Receive(s, c))
  {
    hide Knowing, Punishes, ReportLimitError;
    Punish(Heed(s, c), Heed(s, c), WT_FLOW_CONTROL_ERROR);
    if !c.WtCloseSession? && Breaks(p, s, c).None? { NoticeLearned(p, s, Receive(s, c), c); }
  }

  /** The verdict on any capsule: an error exactly where a rule is broken, and else what the rules say. */
  lemma Judged(p: Config, s: Session, c: Capsule)
    requires Knowing(p, s, None) && !s.terminated && Room(s)
    ensures Judges(p, s, c, Receive(s, c))
  {
    hide Knowing, Judges, Receive;
    match c
    case WtStream(id, data, fin) => JudgesStream(p, s, id, data, fin);
    case WtResetStream(id, code, size) => JudgesReset(p, s, id, code, size);
    case WtStopSending(id, code) => JudgesStop(p, s, id, code);
    case WtMaxData(max) => JudgesMaxData(p, s, max);
    case WtMaxStreamData(id, max) => JudgesMaxStreamData(p, s, id, max);
    case WtMaxStreams(bidi, max) => JudgesMaxStreams(p, s, bidi, max);
    case WtStreamDataBlocked(id, max) => JudgesBlocked(p, s, id, max);
    case _ => JudgesNotice(p, s, c);
  }

  // ---------- Runs ----------

  /**
   * No stream is opened under an ID that the peer has already used and seen out, and the 2xx
   * comes before anything is dispatched or opened.
   */
  predicate Tidy(s: Session, step: Step) {
    match step
    case Do(call) => call.OpenCall? ==> !Over(s, NextId(s, call.uni))
    case Confirmation(_) => s.received == [] && s.bidi.next == 0 && s.uni.next == 0
    case _ => true
  }

  /** A tidy run during which no capped record is full; nothing is asked once the session is over. */
  predicate TidyRun(s: Session, steps: seq<Step>)
    decreases |steps|
  {
    s.terminated || (Room(s) && (steps != [] ==> Tidy(s, steps[0]) && TidyRun(Advance(s, steps[0]), steps[1..])))
  }

  lemma FreedIsOver(p: Config, s: Session, id: StreamId)
    requires Knowing(p, s, None) && id in s.freed
    ensures Over(s, id)
  {
    hide StreamView, ToldStream, LastCredit, SessionKnows;
    KnowsSpot(p, s, None, id);
  }

  lemma NothingYet(p: Config, s: Session)
    requires Knowing(p, s, None) && s.received == [] && s.bidi.next == 0 && s.uni.next == 0
    ensures s.streams == map[]
  {
    hide Knowing, Over;
    forall id ensures id !in s.streams { EntryIff(p, s, id); }
  }

  lemma AdvanceKnows(p: Config, s: Session, step: Step)
    requires Knowing(p, s, None) && !s.terminated && Room(s) && Tidy(s, step)
    ensures var s' := Advance(s, step); s'.terminated || |s'.released| >= MAX_RECEIVED_MAP_ENTRIES || Knowing(p, s', None)
  {
    hide Knowing, Apply, Receive, Over, Breaks, Reports, Answer, OnlySends;
    match step
    case Do(call) =>
      if call.OpenCall? && NextId(s, call.uni) in s.freed { FreedIsOver(p, s, NextId(s, call.uni)); }
      ApplyKnows(p, s, call);
      ApplyCloses(s, call);
    case Take(c) => Judged(p, s, c);
    case Confirmation(peer) =>
      NothingYet(p, s);
      ConfirmKnows(p, s, peer);
    case Announcement => AnnounceKnows(p, s);
  }

  lemma ApplyCloses(s: Session, call: Call)
    ensures call.Close? ==> Apply(s, call).terminated
  {
    hide OpenStream, SendStreamData, ResetStream, StopSending;
  }

  lemma {:induction false} PlayKnows(p: Config, s: Session, steps: seq<Step>)
    requires Knowing(p, s, None) && TidyRun(s, steps) && !Play(s, steps).terminated
    ensures Knowing(p, Play(s, steps), None) && Room(Play(s, steps))
    decreases |steps|
  {
    hide Knowing, Advance, Tidy, Over;
    if s.terminated {
      StaysTerminated(s, steps);
    } else if steps != [] {
      var s1 := Advance(s, steps[0]);
      AdvanceKnows(p, s, steps[0]);
      if s1.terminated { StaysTerminated(s1, steps[1..]); }
      PlayKnows(p, s1, steps[1..]);
    }
  }

  lemma {:induction false} StaysTerminated(s: Session, steps: seq<Step>)
    requires s.terminated
    ensures Play(s, steps).terminated && Play(s, steps).events == s.events
    decreases |steps|
  {
    hide Apply;
    if steps != [] {
      if steps[0].Do? { ApplyOnward(s, steps[0].call); }
      StaysTerminated(Advance(s, steps[0]), steps[1..]);
    }
  }

  /**
   * Whatever application and peer did before: a capsule closes the session with an error exactly
   * if it breaks a rule, with the code of that rule, and has exactly the consequences listed if
   * it breaks none.
   */
  lemma Verdict(cfg: Config, p: Config, header: bool, steps: seq<Step>, c: Capsule)
    requires var s := Play(NewSession(cfg, p, header), steps); TidyRun(NewSession(cfg, p, header), steps) && !s.terminated
    ensures var s := Play(NewSession(cfg, p, header), steps); var s' := Receive(s, c);
      && Judges(p, s, c, s')
      && (Breaks(p, s, c).Some? <==> s'.terminated && !c.WtCloseSession?)
      && (Breaks(p, s, c).Some? && Breaks(p, s, c).value.told <==> s'.events != s.events && s'.events[|s'.events| - 1].Error?)
  {
    hide Knowing, Breaks, Receive, Play, TidyRun, Keeps, OnlySends, Answer, Reports;
    NewKnows(cfg, p, header);
    PlayKnows(p, NewSession(cfg, p, header), steps);
    var s := Play(NewSession(cfg, p, header), steps);
    Judged(p, s, c);
    ReportsNoError(p, s, c);
  }

  lemma ReportsNoError(p: Config, s: Session, c: Capsule)
    ensures var events := s.events + Reports(s, c); events == s.events || (events != [] && !events[|events| - 1].Error?)
    ensures c.WtCloseSession? ==> Breaks(p, s, c).None?
  {
    hide Over;
  }

  // ---------- Nothing follows the end of a stream ----------

  predicate EndsStream(e: Event, id: StreamId) { (e.StreamData? && e.id == id && e.fin) || (e.StreamReset? && e.id == id) }

  /** Of two events of a stream the second carries no data if the first ends the stream. */
  ghost predicate Orderly(events: seq<Event>) {
    forall j, k :: 0 <= j < k < |events| && events[k].StreamData? && events[k].data != [] ==> !EndsStream(events[j], events[k].id)
  }

  /** What the events say to have ended, the peer has ended. */
  ghost predicate EndsHeard(s: Session) {
    forall j, id :: 0 <= j < |s.events| && EndsStream(s.events[j], id) ==> Ears(s, id).ending != Open
  }

  lemma OrderlySnoc(events: seq<Event>, e: Event)
    requires Orderly(events)
    requires e.StreamData? && e.data != [] ==> forall j :: 0 <= j < |events| ==> !EndsStream(events[j], e.id)
    ensures Orderly(events + [e])
  {
    hide EndsStream;
  }

  lemma ReportIsOrderly(p: Config, s: Session, c: Capsule)
    requires Orderly(s.events) && EndsHeard(s) && Breaks(p, s, c).None?
    ensures Orderly(s.events + Reports(s, c))
  {
    hide Over, StreamView, EarTotals, Granted, Touched, Floor;
    if Reports(s, c) == [] {
      assert s.events + Reports(s, c) == s.events;
    } else {
      OrderlySnoc(s.events, Reports(s, c)[0]);
      assert Reports(s, c) == [Reports(s, c)[0]];
    }
  }

  lemma EndsStayHeard(s: Session, c: Capsule, s': Session)
    requires EndsHeard(s) && s'.received == s.received + [c] && s'.events == s.events + Reports(s, c)
    ensures EndsHeard(s')
  {
    forall j, id | 0 <= j < |s'.events| && EndsStream(s'.events[j], id) ensures Ears(s', id).ending != Open {
      StreamViewSnoc(0, s.received, c, id);
      hide StreamView, Over;
      if j < |s.events| {
        assert EndsStream(s.events[j], id) && Ears(s, id).ending != Open;
      } else {
        assert s'.events[j] == Reports(s, c)[j - |s.events|];
      }
    }
  }

  lemma TakeIsOrderly(p: Config, s: Session, c: Capsule)
    requires Knowing(p, s, None) && !s.terminated && Room(s) && Orderly(s.events) && EndsHeard(s)
    ensures var s' := Receive(s, c); Orderly(s'.events) && (!s'.terminated ==> EndsHeard(s'))
  {
    hide Knowing, Receive, Keeps, OnlySends, Answer, Breaks, Reports, Orderly, EndsHeard;
    Judged(p, s, c);
    if Breaks(p, s, c).None? {
      ReportIsOrderly(p, s, c);
      EndsStayHeard(s, c, Receive(s, c));
    } else {
      OrderlySnoc(s.events, Error(Breaks(p, s, c).value.code));
    }
  }

  lemma {:induction false} PlayIsOrderly(p: Config, s: Session, steps: seq<Step>)
    requires !s.terminated ==> Knowing(p, s, None) && EndsHeard(s)
    requires TidyRun(s, steps) && Orderly(s.events)
    ensures var s' := Play(s, steps); Orderly(s'.events) && (!s'.terminated ==> EndsHeard(s'))
    decreases |steps|
  {
    hide Knowing, Orderly, EndsHeard, Tidy, Apply, Receive;
    if s.terminated {
      StaysTerminated(s, steps);
    } else if steps != [] {
      var s1 := Advance(s, steps[0]);
      AdvanceKnows(p, s, steps[0]);
      match steps[0] {
        case Take(c) => TakeIsOrderly(p, s, c);
        case Do(call) =>
          ApplyOnward(s, call);
          SameEnds(s, s1);
        case _ => SameEnds(s, s1);
      }
      PlayIsOrderly(p, s1, steps[1..]);
    }
  }

  lemma SameEnds(s: Session, s': Session)
    requires s'.received == s.received && s'.events == s.events && EndsHeard(s)
    ensures EndsHeard(s')
  {
    hide StreamView, EndsStream;
    forall j, id | 0 <= j < |s'.events| && EndsStream(s'.events[j], id) ensures Ears(s', id).ending != Open {
      assert EndsStream(s.events[j], id) && Ears(s, id).ending != Open;
    }
  }

  /** Whatever the peer sends, no data is reported of a stream after its FIN or its reset was. */
  lemma NothingAfterEnd(cfg: Config, p: Config, header: bool, steps: seq<Step>, j: nat, k: nat)
    requires TidyRun(NewSession(cfg, p, header), steps)
    requires var events := Play(NewSession(cfg, p, header), steps).events;
             j < k < |events| && events[k].StreamData? && EndsStream(events[j], events[k].id)
    ensures Play(NewSession(cfg, p, header), steps).events[k].data == []
  {
    hide Knowing, Play, TidyRun;
    NewKnows(cfg, p, header);
    PlayIsOrderly(p, NewSession(cfg, p, header), steps);
  }

  /** And data that comes all the same is reported as a stream state error and closes the session. */
  lemma LateDataIsRefused(cfg: Config, p: Config, header: bool, steps: seq<Step>, j: nat, id: StreamId, data: seq<Byte>, fin: bool)
    requires TidyRun(NewSession(cfg, p, header), steps)
    requires var s := Play(NewSession(cfg, p, header), steps); !s.terminated && j < |s.events| && EndsStream(s.events[j], id) && data != []
    ensures var s := Play(NewSession(cfg, p, header), steps); var s' := Receive(s, WtStream(id, data, fin));
      && s'.events == s.events + [Error(WT_STREAM_STATE_ERROR)]
      && s'.emitted == s.emitted + [WtCloseSession(WT_STREAM_STATE_ERROR, [])]
      && s'.terminated
  {
    hide Knowing, Play, TidyRun, Receive;
    NewKnows(cfg, p, header);
    PlayIsOrderly(p, NewSession(cfg, p, header), steps);
    Verdict(cfg, p, header, steps, WtStream(id, data, fin));
  }
}
