/**
 * What the entries, counters and flags of an endpoint are: a memory of its own words and of its
 * peer's. Whatever application and peer do, every field that a later decision looks at is a
 * function of the two logs, as long as no capped record is full and no stream ID is used twice.
 */
module History {
  import opened Capsules
  import opened Engine
  import opened Trace
  import opened Sending
  import opened Conduct
  import opened Receiving
  import opened Dialogue
  import opened Hearing
  import opened Endpoint

  // ---------- What a log says besides ----------

  /** The last credit that a log gives one stream. */
  function LastCredit(log: seq<Capsule>, id: StreamId): Option<nat> {
    if log == [] then None
    else
      var c := log[|log| - 1];
      if c.WtMaxStreamData? && c.id == id then Some(c.max) else LastCredit(log[..|log| - 1], id)
  }

  /** The last offset at which a stream was said to be blocked. */
  function ToldStream(log: seq<Capsule>, id: StreamId): Option<nat> {
    if log == [] then None
    else
      var c := log[|log| - 1];
      if c.WtStreamDataBlocked? && c.id == id then Some(c.max) else ToldStream(log[..|log| - 1], id)
  }

  /** The same for the session and for the streams of one direction. */
  datatype Told = Told(data: Option<nat>, bidi: Option<nat>, uni: Option<nat>)

  function StepTold(t: Told, c: Capsule): Told {
    match c
    case WtDataBlocked(max) => t.(data := Some(max))
    case WtStreamsBlocked(bidi, max) => if bidi then t.(bidi := Some(max)) else t.(uni := Some(max))
    case _ => t
  }

  function ToldOf(log: seq<Capsule>): Told {
    if log == [] then Told(None, None, None) else StepTold(ToldOf(log[..|log| - 1]), log[|log| - 1])
  }

  /** The highest limits that a log states; limits that are only repeated change nothing. */
  function StepMost(l: Limits, c: Capsule): Limits {
    match c
    case WtMaxData(max) => l.(data := Max(l.data, max))
    case WtMaxStreams(bidi, max) => if bidi then l.(bidi := Max(l.bidi, max)) else l.(uni := Max(l.uni, max))
    case _ => l
  }

  function Most(init: Limits, log: seq<Capsule>): Limits {
    if log == [] then init else StepMost(Most(init, log[..|log| - 1]), log[|log| - 1])
  }

  /** One more capsule. */
  lemma LogsSnoc(init: nat, limits: Limits, log: seq<Capsule>, c: Capsule, id: StreamId)
    ensures StreamView(init, log + [c], id) == StepView(StreamView(init, log, id), c, id)
    ensures LastCredit(log + [c], id) == if c.WtMaxStreamData? && c.id == id then Some(c.max) else LastCredit(log, id)
    ensures ToldStream(log + [c], id) == if c.WtStreamDataBlocked? && c.id == id then Some(c.max) else ToldStream(log, id)
    ensures ToldOf(log + [c]) == StepTold(ToldOf(log), c)
    ensures Most(limits, log + [c]) == StepMost(Most(limits, log), c)
    ensures SessionTotals(limits, log + [c]) == StepTotals(SessionTotals(limits, log), c)
  {
    assert (log + [c])[..|log|] == log;
  }

  // ---------- One stream, as the logs and as the state have it ----------

  /** What the peer has said of a stream, its credit aside. */
  function Ears(s: Session, id: StreamId): View { StreamView(0, s.received, id) }

  /** Used by the peer, or opened by this end. */
  predicate Touched(s: Session, id: StreamId) { Opened(s, id) || Ears(s, id).begun }

  /** Ended in each direction that it has. */
  predicate Over(s: Session, id: StreamId) {
    Touched(s, id) && Ended(Said(s, id), Ears(s, id), id, s.cfg.isServer)
  }

  /** Everything there is about one stream. `base`: the credit it starts with. */
  datatype Spot = Spot(
    entry: Option<Stream>, freed: bool, released: bool, stop: bool, stopSent: bool, credit: Option<nat>,
    own: bool, said: View, told: Option<nat>, heard: View, last: Option<nat>, base: nat)

  function SpotOf(s: Session, id: StreamId): Spot {
    Spot(if id in s.streams then Some(s.streams[id]) else None,
         id in s.freed, id in s.released, id in s.receivedStops, id in s.sentStops,
         if id in s.receivedMaxStreamData then Some(s.receivedMaxStreamData[id]) else None,
         Opened(s, id), Said(s, id), ToldStream(s.emitted, id), Ears(s, id), LastCredit(s.received, id),
         InitialSendCredit(s, id))
  }

  predicate Reached(v: Spot) { v.own || v.heard.begun }

  /** An entry is what was said and heard; `loose`: it may be about to be released. */
  predicate EntryKnows(v: Spot, st: Stream, id: StreamId, isServer: bool, loose: bool) {
    && st.isLocal == LocalTo(isServer, id) && st.isUni == id.uni
    && st.bytesSent == |v.said.data| && (SendDone(st) <==> v.said.ending != Open)
    && st.bytesReceived == |v.heard.data| && (RecvDone(st) <==> v.heard.ending != Open)
    && st.maxRemote == v.said.max
    && st.maxLocal == (if v.last.Some? then Max(v.base, v.last.value) else v.base)
    && (st.stopReceived ==> v.heard.stopped)
    && (st.dataBlockedSent <==> v.told == Some(st.maxLocal))
    && (v.told.Some? ==> v.told.value <= st.maxLocal)
    && (!loose ==> !Releasable(st))
  }

  /** Released streams are over and on record, untouched ones without a trace. */
  predicate Remembers(v: Spot, id: StreamId, isServer: bool, init: nat, loose: bool) {
    && (v.entry.Some? ==> !v.freed && Reached(v) && EntryKnows(v, v.entry.value, id, isServer, loose))
    && (v.entry.None? && Reached(v) ==> v.freed && Ended(v.said, v.heard, id, isServer))
    && (v.entry.None? && !Reached(v) ==>
          !v.freed && v.said.data == [] && v.said.ending == Open && v.said.max == init && v.told.None?
          && v.heard.data == [] && v.heard.ending == Open)
    && (v.released ==> v.freed)
    && (v.freed && ReceivableDataCapsule(id, isServer) ==> v.released)
    && (v.stop <==> v.heard.stopped)
    && (v.stopSent <==> v.said.stopped)
    && v.credit == v.last
    && |v.heard.data| <= v.said.max
  }

  // ---------- The session ----------

  function PeerLimits(p: Config): Limits { Limits(p.initData, p.initBidi, p.initUni) }

  /** What the peer, configured as `p`, has said of the session. */
  function EarTotals(p: Config, s: Session): Totals { SessionTotals(PeerLimits(p), s.received) }

  /** The highest limits that this end has stated. */
  function Granted(s: Session): Limits { Most(SpeakerOf(s).limits, s.emitted) }

  /** Everything there is about the session as a whole. */
  datatype Board = Board(
    bytesReceived: nat, maxDataRemote: nat, bytesSent: nat, maxDataLocal: nat, receivedMaxData: Option<nat>,
    dataBlockedSent: bool, bidi: StreamCount, uni: StreamCount,
    heard: Totals, said: Totals, granted: Limits, told: Told)

  function BoardOf(p: Config, s: Session): Board {
    Board(s.bytesReceived, s.maxDataRemote, s.bytesSent, s.maxDataLocal, s.receivedMaxData, s.dataBlockedSent, s.bidi, s.uni,
          EarTotals(p, s), SaidTotals(s), Granted(s), ToldOf(s.emitted))
  }

  predicate CountKnows(n: StreamCount, granted: nat, allowed: nat, told: Option<nat>) {
    && n.maxRemote == granted && n.maxLocal == allowed
    && (if n.received.Some? then n.received.value == allowed else allowed == 0)
    && (n.blockedSent <==> told == Some(n.maxLocal)) && (told.Some? ==> told.value <= n.maxLocal)
  }

  predicate BoardKnows(b: Board) {
    && b.bytesReceived == b.heard.data <= b.maxDataRemote == b.granted.data
    && b.maxDataLocal == b.heard.max.data
    && (if b.receivedMaxData.Some? then b.receivedMaxData.value == b.heard.max.data else b.heard.max.data == 0)
    && b.bytesSent == b.said.data
    && (b.dataBlockedSent <==> b.told.data == Some(b.maxDataLocal)) && (b.told.data.Some? ==> b.told.data.value <= b.maxDataLocal)
    && CountKnows(b.bidi, b.granted.bidi, b.heard.max.bidi, b.told.bidi)
    && CountKnows(b.uni, b.granted.uni, b.heard.max.uni, b.told.uni)
  }

  predicate SessionKnows(p: Config, s: Session) { BoardKnows(BoardOf(p, s)) }

  /** No capped record is full. */
  predicate Room(s: Session) {
    && |s.released| < MAX_RECEIVED_MAP_ENTRIES
    && |s.receivedStops| < MAX_RECEIVED_MAP_ENTRIES
    && |s.receivedMaxStreamData| < MAX_RECEIVED_MAP_ENTRIES
  }

  /** `loose`: the one stream that may be about to be released. */
  ghost predicate Knowing(p: Config, s: Session, loose: Option<StreamId>) {
    && SessionKnows(p, s)
    && forall id :: Remembers(SpotOf(s, id), id, s.cfg.isServer, s.cfg.initStreamData, loose == Some(id))
  }

  // ---------- Steps, one stream at a time ----------

  /** The state keeps of stream `i` what it kept before. */
  predicate SameTraces(s: Session, s': Session, i: StreamId) {
    && (i in s'.streams <==> i in s.streams) && (i in s.streams ==> s'.streams[i] == s.streams[i])
    && (i in s'.freed <==> i in s.freed) && (i in s'.released <==> i in s.released)
    && (i in s'.receivedStops <==> i in s.receivedStops) && (i in s'.sentStops <==> i in s.sentStops)
    && (i in s'.receivedMaxStreamData <==> i in s.receivedMaxStreamData)
    && (i in s.receivedMaxStreamData ==> s'.receivedMaxStreamData[i] == s.receivedMaxStreamData[i])
    && (Opened(s', i) <==> Opened(s, i))
  }

  predicate SameEnd(s: Session, s': Session) { s'.cfg == s.cfg && s'.peer == s.peer }

  lemma SilentSpot(s: Session, s': Session, i: StreamId)
    requires SameEnd(s, s') && s'.emitted == s.emitted && s'.received == s.received && SameTraces(s, s', i)
    ensures SpotOf(s', i) == SpotOf(s, i)
  {
  }

  lemma SaySpot(s: Session, s': Session, c: Capsule, i: StreamId)
    requires SameEnd(s, s') && s'.emitted == s.emitted + [c] && s'.received == s.received && SameTraces(s, s', i) && !About(c, i)
    ensures SpotOf(s', i) == SpotOf(s, i)
  {
    LogsSnoc(s.cfg.initStreamData, Limits(0, 0, 0), s.emitted, c, i);
    hide StreamView, ToldStream, LastCredit;
  }

  lemma HearSpot(s: Session, s': Session, c: Capsule, i: StreamId)
    requires SameEnd(s, s') && s'.received == s.received + [c] && s'.emitted == s.emitted && SameTraces(s, s', i) && !About(c, i)
    ensures SpotOf(s', i) == SpotOf(s, i)
  {
    LogsSnoc(0, Limits(0, 0, 0), s.received, c, i);
    hide StreamView, ToldStream, LastCredit;
  }

  /** A step that concerns one stream. */
  lemma OneSpot(p: Config, s: Session, s': Session, id: StreamId, loose: bool, loose': bool)
    requires Knowing(p, s, if loose then Some(id) else None) && SessionKnows(p, s') && SameEnd(s, s')
    requires forall i :: i != id ==> SpotOf(s', i) == SpotOf(s, i)
    requires Remembers(SpotOf(s', id), id, s.cfg.isServer, s.cfg.initStreamData, loose')
    ensures Knowing(p, s', if loose' then Some(id) else None)
  {
    hide SpotOf, Remembers, SessionKnows;
  }

  /** A step that concerns no stream. */
  lemma NoSpot(p: Config, s: Session, s': Session, loose: Option<StreamId>)
    requires Knowing(p, s, loose) && SessionKnows(p, s') && SameEnd(s, s')
    requires forall i :: SpotOf(s', i) == SpotOf(s, i)
    ensures Knowing(p, s', loose)
  {
    hide SpotOf, Remembers, SessionKnows;
  }

  lemma KnowsSpot(p: Config, s: Session, loose: Option<StreamId>, id: StreamId)
    requires Knowing(p, s, loose)
    ensures Remembers(SpotOf(s, id), id, s.cfg.isServer, s.cfg.initStreamData, loose == Some(id))
  {
  }

  /** One capsule about no stream is queued. */
  lemma SayKnows(p: Config, s: Session, s': Session, c: Capsule, loose: Option<StreamId>)
    requires Knowing(p, s, loose) && SessionKnows(p, s') && SameEnd(s, s')
    requires s'.emitted == s.emitted + [c] && s'.received == s.received
    requires forall i :: !About(c, i) && SameTraces(s, s', i)
    ensures Knowing(p, s', loose)
  {
    hide Knowing, SpotOf, SessionKnows, SameTraces, About;
    forall i ensures SpotOf(s', i) == SpotOf(s, i) { SaySpot(s, s', c, i); }
    NoSpot(p, s, s', loose);
  }

  /** One capsule about one stream is queued. */
  lemma SayOneKnows(p: Config, s: Session, s': Session, c: Capsule, id: StreamId, loose: bool, loose': bool)
    requires Knowing(p, s, if loose then Some(id) else None) && SessionKnows(p, s') && SameEnd(s, s')
    requires s'.emitted == s.emitted + [c] && s'.received == s.received
    requires forall i :: i != id ==> !About(c, i) && SameTraces(s, s', i)
    requires Remembers(SpotOf(s', id), id, s.cfg.isServer, s.cfg.initStreamData, loose')
    ensures Knowing(p, s', if loose' then Some(id) else None)
  {
    hide Knowing, SpotOf, SessionKnows, SameTraces, About, Remembers;
    forall i | i != id ensures SpotOf(s', i) == SpotOf(s, i) { SaySpot(s, s', c, i); }
    OneSpot(p, s, s', id, loose, loose');
  }

  // ---------- Saying and hearing, on values ----------

  function SayBoard(b: Board, c: Capsule): Board {
    b.(said := StepTotals(b.said, c), granted := StepMost(b.granted, c), told := StepTold(b.told, c))
  }

  function SayTo(v: Spot, c: Capsule, id: StreamId): Spot {
    v.(said := StepView(v.said, c, id), told := if c.WtStreamDataBlocked? && c.id == id then Some(c.max) else v.told)
  }

  function HearFrom(v: Spot, c: Capsule, id: StreamId): Spot {
    v.(heard := StepView(v.heard, c, id), last := if c.WtMaxStreamData? && c.id == id then Some(c.max) else v.last)
  }

  lemma SaidBoard(p: Config, s: Session, c: Capsule)
    ensures BoardOf(p, s.(emitted := s.emitted + [c])) == SayBoard(BoardOf(p, s), c)
  {
    LogsSnoc(0, SpeakerOf(s).limits, s.emitted, c, StreamId(0, false, false));
  }

  lemma HeardBoard(p: Config, s: Session, c: Capsule)
    ensures BoardOf(p, s.(received := s.received + [c])) == BoardOf(p, s).(heard := StepTotals(EarTotals(p, s), c))
  {
    LogsSnoc(0, PeerLimits(p), s.received, c, StreamId(0, false, false));
  }

  lemma SaidSpot(s: Session, c: Capsule, id: StreamId)
    ensures SpotOf(s.(emitted := s.emitted + [c]), id) == SayTo(SpotOf(s, id), c, id)
  {
    LogsSnoc(s.cfg.initStreamData, Limits(0, 0, 0), s.emitted, c, id);
  }

  lemma HeardSpot(s: Session, c: Capsule, id: StreamId)
    ensures SpotOf(s.(received := s.received + [c]), id) == HearFrom(SpotOf(s, id), c, id)
  {
    LogsSnoc(0, Limits(0, 0, 0), s.received, c, id);
  }

  /** A spot with what `t` holds of the stream. */
  function Seen(v: Spot, t: Session, id: StreamId): Spot {
    v.(entry := if id in t.streams then Some(t.streams[id]) else None,
       freed := id in t.freed, released := id in t.released, stop := id in t.receivedStops, stopSent := id in t.sentStops,
       credit := if id in t.receivedMaxStreamData then Some(t.receivedMaxStreamData[id]) else None, own := Opened(t, id))
  }

  /** A board with what `t` holds of the session. */
  function Shown(b: Board, t: Session): Board {
    b.(bytesReceived := t.bytesReceived, maxDataRemote := t.maxDataRemote, bytesSent := t.bytesSent,
       maxDataLocal := t.maxDataLocal, receivedMaxData := t.receivedMaxData, dataBlockedSent := t.dataBlockedSent,
       bidi := t.bidi, uni := t.uni)
  }

  /** Saying changes the logs alone; what else a step changes is seen directly. */
  lemma SpotAfter(s: Session, t: Session, id: StreamId)
    requires t.emitted == s.emitted && t.received == s.received && SameEnd(s, t)
    ensures SpotOf(t, id) == Seen(SpotOf(s, id), t, id)
  {
    hide StreamView, ToldStream, LastCredit;
  }

  lemma BoardAfter(p: Config, s: Session, t: Session)
    requires t.emitted == s.emitted && t.received == s.received && SameEnd(s, t)
    ensures BoardOf(p, t) == Shown(BoardOf(p, s), t)
  {
    hide ToldOf, Most, SessionTotals;
  }

  function Spoken(s: Session, c: Capsule): Session { s.(emitted := s.emitted + [c]) }

  /** A capsule about no stream is queued, and `s'` differs further only in what the board shows. */
  lemma SaySession(p: Config, s: Session, s': Session, c: Capsule, loose: Option<StreamId>)
    requires Knowing(p, s, loose) && SameEnd(s, s')
    requires s'.emitted == s.emitted + [c] && s'.received == s.received
    requires forall i :: !About(c, i) && SameTraces(s, s', i)
    requires BoardKnows(Shown(SayBoard(BoardOf(p, s), c), s'))
    ensures Knowing(p, s', loose)
  {
    hide BoardOf, BoardKnows, Knowing, About, SameTraces;
    SaidBoard(p, s, c);
    BoardAfter(p, Spoken(s, c), s');
    SayKnows(p, s, s', c, loose);
  }

  /** A capsule about stream `id` is queued, and its entry becomes `st`. */
  lemma SayStream(p: Config, s: Session, s': Session, c: Capsule, id: StreamId, st: Stream, before: bool, loose: bool)
    requires Knowing(p, s, if before then Some(id) else None) && SameEnd(s, s') && id in s.streams
    requires s'.emitted == s.emitted + [c] && s'.received == s.received && s'.streams == s.streams[id := st]
    requires s'.freed == s.freed && s'.released == s.released && s'.receivedStops == s.receivedStops
    requires s'.receivedMaxStreamData == s.receivedMaxStreamData && s'.bidi == s.bidi && s'.uni == s.uni
    requires forall i :: i != id ==> !About(c, i) && (i in s'.sentStops <==> i in s.sentStops)
    requires Remembers(SayTo(SpotOf(s, id), c, id).(entry := Some(st), stopSent := id in s'.sentStops),
                       id, s.cfg.isServer, s.cfg.initStreamData, loose)
    requires BoardKnows(Shown(SayBoard(BoardOf(p, s), c), s'))
    ensures Knowing(p, s', if loose then Some(id) else None)
  {
    hide BoardOf, BoardKnows, Knowing, About, Remembers, SpotOf, SayTo, SayBoard;
    SaidBoard(p, s, c);
    BoardAfter(p, Spoken(s, c), s');
    assert BoardOf(p, s).bidi == s.bidi && BoardOf(p, s).uni == s.uni by { BoardAfter(p, s, s); }
    assert SayBoard(BoardOf(p, s), c).bidi == s.bidi && SayBoard(BoardOf(p, s), c).uni == s.uni by { BoardAfter(p, Spoken(s, c), Spoken(s, c)); }
    SaidSpot(s, c, id);
    SpotAfter(Spoken(s, c), s', id);
    SpotAfter(Spoken(s, c), Spoken(s, c), id);
    SayOneKnows(p, s, s', c, id, before, loose);
  }

  lemma KnowsBoard(p: Config, s: Session, loose: Option<StreamId>)
    requires Knowing(p, s, loose)
    ensures BoardKnows(BoardOf(p, s))
  {
    hide BoardOf, BoardKnows, Remembers, SpotOf;
  }

  /** Nothing is queued, and only the entry of `id` changes. */
  lemma EntryStep(p: Config, s: Session, s': Session, id: StreamId, st: Stream, loose: bool)
    requires Knowing(p, s, None) && id in s.streams
    requires s' == s.(streams := s.streams[id := st], events := s'.events)
    requires Remembers(SpotOf(s, id).(entry := Some(st)), id, s.cfg.isServer, s.cfg.initStreamData, loose)
    ensures Knowing(p, s', if loose then Some(id) else None)
  {
    hide BoardOf, BoardKnows, Knowing, Remembers, SpotOf;
    KnowsBoard(p, s, None);
    BoardAfter(p, s, s');
    BoardAfter(p, s, s);
    SpotAfter(s, s', id);
    SpotAfter(s, s, id);
    forall i | i != id ensures SpotOf(s', i) == SpotOf(s, i) { SilentSpot(s, s', i); }
    OneSpot(p, s, s', id, false, loose);
  }

  // ---------- Queueing ----------

  lemma MaxDataKnows(p: Config, s: Session, loose: Option<StreamId>)
    requires Knowing(p, s, loose)
    ensures Knowing(p, MaybeSendMaxData(s), loose)
  {
    hide Knowing, ToldOf, Most, SessionTotals;
    var s' := MaybeSendMaxData(s);
    if s' != s {
      KnowsBoard(p, s, loose);
      SaySession(p, s, s', WtMaxData(s'.maxDataRemote), loose);
    }
  }

  lemma MaxStreamDataKnows(p: Config, s: Session, id: StreamId, loose: bool)
    requires Knowing(p, s, if loose then Some(id) else None)
    ensures Knowing(p, MaybeSendMaxStreamData(s, id), if loose then Some(id) else None)
  {
    hide Knowing, ToldOf, Most, SessionTotals, StreamView, ToldStream, LastCredit;
    var s' := MaybeSendMaxStreamData(s, id);
    if s' != s {
      KnowsBoard(p, s, if loose then Some(id) else None);
      KnowsSpot(p, s, if loose then Some(id) else None, id);
      SayStream(p, s, s', WtMaxStreamData(id, s'.streams[id].maxRemote), id, s'.streams[id], loose, loose);
    }
  }

  lemma GrantKnows(p: Config, s: Session, bidi: bool, loose: Option<StreamId>)
    requires Knowing(p, s, loose)
    ensures Knowing(p, GrantStream(s, bidi), loose)
  {
    hide Knowing, ToldOf, Most, SessionTotals;
    var s' := GrantStream(s, bidi);
    if s' != s {
      KnowsBoard(p, s, loose);
      SaySession(p, s, s', WtMaxStreams(bidi, Count(s', bidi).maxRemote), loose);
    }
  }

  lemma ForgetKnows(p: Config, s: Session, id: StreamId)
    requires Knowing(p, s, Some(id)) && id in s.streams && Releasable(s.streams[id]) && |s.released| < MAX_RECEIVED_MAP_ENTRIES
    ensures Knowing(p, Forget(s, id), None)
  {
    hide Knowing, BoardOf, BoardKnows, StreamView, ToldStream, LastCredit;
    var s' := Forget(s, id);
    KnowsBoard(p, s, Some(id));
    BoardAfter(p, s, s');
    BoardAfter(p, s, s);
    KnowsSpot(p, s, Some(id), id);
    assert Remembers(SpotOf(s', id), id, s.cfg.isServer, s.cfg.initStreamData, false);
    hide Remembers, SpotOf;
    forall i | i != id ensures SpotOf(s', i) == SpotOf(s, i) { SilentSpot(s, s', i); }
    OneSpot(p, s, s', id, true, false);
  }

  /** A stream that is not finished need not be released. */
  lemma NotLoose(p: Config, s: Session, id: StreamId)
    requires Knowing(p, s, Some(id)) && (id in s.streams ==> !Releasable(s.streams[id]))
    ensures Knowing(p, s, None)
  {
    hide SessionKnows, StreamView, ToldStream, LastCredit;
    forall i ensures Remembers(SpotOf(s, i), i, s.cfg.isServer, s.cfg.initStreamData, false) {
      KnowsSpot(p, s, Some(id), i);
    }
  }

  lemma ReleaseKnows(p: Config, s: Session, id: StreamId)
    requires Knowing(p, s, Some(id)) && |s.released| < MAX_RECEIVED_MAP_ENTRIES
    ensures Knowing(p, MaybeRelease(s, id), None)
  {
    hide Knowing, GrantStream, Forget;
    if id in s.streams && Releasable(s.streams[id]) {
      ForgetKnows(p, s, id);
      if !s.streams[id].isLocal { GrantKnows(p, Forget(s, id), !s.streams[id].isUni, None); }
    } else {
      NotLoose(p, s, id);
    }
  }

  lemma SetPendingKnows(p: Config, s: Session, id: StreamId, q: seq<PendingSend>)
    requires Knowing(p, s, None) && id in s.streams
    ensures Knowing(p, SetPending(s, id, q), None)
  {
    hide Knowing, StreamView, ToldStream, LastCredit;
    KnowsSpot(p, s, None, id);
    EntryStep(p, s, SetPending(s, id, q), id, s.streams[id].(pending := q), false);
  }

  lemma ChunkKnows(p: Config, s: Session, id: StreamId, data: seq<Byte>, fin: bool)
    requires Knowing(p, s, None) && id in s.streams && !SendDone(s.streams[id])
    ensures Knowing(p, SendChunk(s, id, data, fin), if fin then Some(id) else None)
  {
    hide Knowing, ToldOf, Most, SessionTotals, StreamView, ToldStream, LastCredit;
    var s' := SendChunk(s, id, data, fin);
    KnowsBoard(p, s, None);
    KnowsSpot(p, s, None, id);
    SayStream(p, s, s', WtStream(id, data, fin), id, s'.streams[id], false, fin);
  }

  lemma MarkResetKnows(p: Config, s: Session, id: StreamId, code: ErrorCode)
    requires Knowing(p, s, None) && id in s.streams && !SendDone(s.streams[id])
    ensures Knowing(p, MarkReset(s, id, code), Some(id))
  {
    hide Knowing, ToldOf, Most, SessionTotals, StreamView, ToldStream, LastCredit;
    var s' := MarkReset(s, id, code);
    KnowsBoard(p, s, None);
    KnowsSpot(p, s, None, id);
    SayStream(p, s, s', WtResetStream(id, code, s.streams[id].bytesSent), id, s'.streams[id], false, true);
  }

  lemma StopKnows(p: Config, s: Session, id: StreamId, code: ErrorCode)
    requires Knowing(p, s, None)
    ensures Knowing(p, StopSending(s, id, code), None)
  {
    hide Knowing, ToldOf, Most, SessionTotals, StreamView, ToldStream, LastCredit;
    var s' := StopSending(s, id, code);
    if s' != s {
      KnowsBoard(p, s, None);
      KnowsSpot(p, s, None, id);
      SayStream(p, s, s', WtStopSending(id, code), id, s.streams[id], false, false);
    }
  }

  lemma StreamBlockedKnows(p: Config, s: Session, id: StreamId)
    requires Knowing(p, s, None) && id in s.streams
    ensures Knowing(p, ReportStreamBlocked(s, id), None)
  {
    hide Knowing, ToldOf, Most, SessionTotals, StreamView, ToldStream, LastCredit;
    var s' := ReportStreamBlocked(s, id);
    if s' != s {
      KnowsBoard(p, s, None);
      KnowsSpot(p, s, None, id);
      SayStream(p, s, s', WtStreamDataBlocked(id, s.streams[id].maxLocal), id, s'.streams[id], false, false);
    }
  }

  lemma SessionBlockedKnows(p: Config, s: Session)
    requires Knowing(p, s, None)
    ensures Knowing(p, ReportSessionBlocked(s), None)
  {
    hide Knowing, ToldOf, Most, SessionTotals;
    var s' := ReportSessionBlocked(s);
    if s' != s {
      KnowsBoard(p, s, None);
      SaySession(p, s, s', WtDataBlocked(s.maxDataLocal), None);
    }
  }

  /** Datagrams and the wish to drain leave nothing behind. */
  lemma NoticeKnows(p: Config, s: Session, c: Capsule)
    requires Knowing(p, s, None) && (c.Datagram? || c.WtDrainSession?)
    ensures Knowing(p, Emit(s, c), None)
  {
    hide Knowing, ToldOf, Most, SessionTotals;
    KnowsBoard(p, s, None);
    SaySession(p, s, Emit(s, c), c, None);
  }

  /** Repeating the configured limits states nothing higher. */
  lemma AnnounceKnows(p: Config, s: Session)
    requires Knowing(p, s, None)
    ensures Knowing(p, Announce(s), None)
  {
    hide Knowing, ToldOf, Most, SessionTotals;
    var a, b, c := WtMaxData(s.cfg.initData), WtMaxStreams(true, s.cfg.initBidi), WtMaxStreams(false, s.cfg.initUni);
    MostAtLeast(SpeakerOf(s).limits, s.emitted);
    KnowsBoard(p, s, None);
    var s1 := Emit(s, a);
    SaySession(p, s, s1, a, None);
    MostAtLeast(SpeakerOf(s).limits, s1.emitted);
    KnowsBoard(p, s1, None);
    var s2 := Emit(s1, b);
    SaySession(p, s1, s2, b, None);
    MostAtLeast(SpeakerOf(s).limits, s2.emitted);
    KnowsBoard(p, s2, None);
    SaySession(p, s2, Announce(s), c, None);
  }

  lemma {:induction false} MostAtLeast(init: Limits, log: seq<Capsule>)
    ensures var m := Most(init, log); init.data <= m.data && init.bidi <= m.bidi && init.uni <= m.uni
    decreases |log|
  {
    if log != [] { MostAtLeast(init, log[..|log| - 1]); }
  }

  // ---------- Sending ----------

  lemma FewerThan<T>(a: set<T>, b: set<T>)
    requires a <= b
    ensures |a| <= |b|
  {
    if a != b {
      assert b == a + (b - a);
      assert |b| == |a| + |b - a|;
    }
  }

  /** What is on record as released is never taken off, and while it is not full a step of any kind was remembered. */
  ghost predicate Keeps(p: Config, s: Session, s': Session) {
    && s.released <= s'.released
    && SameEnd(s, s')
    && (|s'.released| < MAX_RECEIVED_MAP_ENTRIES ==> Knowing(p, s', None))
  }

  lemma KeepsThen(p: Config, s: Session, t: Session, u: Session)
    requires s.released <= t.released && SameEnd(s, t)
    requires |t.released| < MAX_RECEIVED_MAP_ENTRIES ==> Knowing(p, t, None)
    requires Knowing(p, t, None) ==> Keeps(p, t, u)
    requires t.released <= u.released && SameEnd(t, u)
    ensures Keeps(p, s, u)
  {
    hide Knowing;
    FewerThan(t.released, u.released);
  }

  lemma ReleaseGrows(s: Session, id: StreamId)
    ensures s.released <= MaybeRelease(s, id).released && SameEnd(s, MaybeRelease(s, id))
  {
  }

  lemma ReleaseKeeps(p: Config, s: Session, id: StreamId)
    requires Knowing(p, s, Some(id))
    ensures Keeps(p, s, MaybeRelease(s, id))
  {
    hide Knowing, MaybeRelease;
    ReleaseGrows(s, id);
    FewerThan(s.released, MaybeRelease(s, id).released);
    if |s.released| < MAX_RECEIVED_MAP_ENTRIES { ReleaseKnows(p, s, id); }
  }

  lemma DrainGrows(s: Session, id: StreamId)
    ensures s.released <= Drain(s, id).released && SameEnd(s, Drain(s, id))
    decreases if id in s.streams then |s.streams[id].pending| else 0
  {
    if id in s.streams && s.streams[id].pending != [] {
      var p := s.streams[id].pending;
      var n := Sendable(s, s.streams[id], |p[0].data|);
      if n == |p[0].data| && n != 0 {
        var s' := SendChunk(SetPending(s, id, p[1..]), id, p[0].data, p[0].fin);
        hide MaybeRelease;
        if p[0].fin { ReleaseGrows(s', id); } else { DrainGrows(s', id); }
      }
    }
  }

  /** One entry sent whole, or part of it. */
  lemma SentKnows(p: Config, s: Session, id: StreamId, q: seq<PendingSend>, data: seq<Byte>, fin: bool)
    requires Knowing(p, s, None) && id in s.streams && !SendDone(s.streams[id])
    ensures Knowing(p, SendChunk(SetPending(s, id, q), id, data, fin), if fin then Some(id) else None)
  {
    hide Knowing;
    SetPendingKnows(p, s, id, q);
    ChunkKnows(p, SetPending(s, id, q), id, data, fin);
  }

  lemma SentStays(s: Session, id: StreamId, q: seq<PendingSend>, data: seq<Byte>)
    requires id in s.streams && !SendDone(s.streams[id])
    ensures var s' := SendChunk(SetPending(s, id, q), id, data, false);
            id in s'.streams && !SendDone(s'.streams[id]) && s'.released == s.released && SameEnd(s, s')
            && s'.streams[id].pending == q
  {
  }

  lemma {:induction false} DrainKnows(p: Config, s: Session, id: StreamId)
    requires Knowing(p, s, None) && (id in s.streams ==> !SendDone(s.streams[id]))
    ensures Keeps(p, s, Drain(s, id))
    decreases if id in s.streams then |s.streams[id].pending| else 0
  {
    hide Knowing, MaybeRelease, SendChunk, Sendable;
    DrainGrows(s, id);
    if id in s.streams && s.streams[id].pending != [] {
      var q := s.streams[id].pending;
      var n := Sendable(s, s.streams[id], |q[0].data|);
      if 0 < n < |q[0].data| {
        SentKnows(p, s, id, [PendingSend(q[0].data[n..], q[0].fin)] + q[1..], q[0].data[..n], false);
      } else if 0 < n {
        SentKnows(p, s, id, q[1..], q[0].data, q[0].fin);
        var s' := SendChunk(SetPending(s, id, q[1..]), id, q[0].data, q[0].fin);
        if q[0].fin {
          ReleaseKeeps(p, s', id);
          FewerThan(s'.released, MaybeRelease(s', id).released);
        } else {
          SentStays(s, id, q[1..], q[0].data);
          DrainKnows(p, s', id);
        }
      }
    }
  }

  lemma FlushOneKnows(p: Config, s: Session, id: StreamId)
    requires Knowing(p, s, None)
    ensures Keeps(p, s, FlushOne(s, id))
  {
    if id in s.streams && SendDone(s.streams[id]) {
      SetPendingKnows(p, s, id, []);
    } else {
      DrainKnows(p, s, id);
    }
    hide Knowing, Drain;
  }

  lemma {:induction false} FlushPassKnows(p: Config, s: Session, ids: seq<StreamId>)
    requires Knowing(p, s, None)
    ensures Keeps(p, s, FlushPass(s, ids))
    decreases |ids|
  {
    hide Knowing, FlushOne;
    if ids != [] {
      var s1 := FlushOne(s, ids[0]);
      FlushOneKnows(p, s, ids[0]);
      FlushPassGrows(s1, ids[1..]);
      if Knowing(p, s1, None) { FlushPassKnows(p, s1, ids[1..]); }
      KeepsThen(p, s, s1, FlushPass(s, ids));
    }
  }

  lemma {:induction false} FlushPassGrows(s: Session, ids: seq<StreamId>)
    ensures s.released <= FlushPass(s, ids).released && SameEnd(s, FlushPass(s, ids))
    decreases |ids|
  {
    if ids != [] {
      DrainGrows(s, ids[0]);
      hide Drain;
      FlushPassGrows(FlushOne(s, ids[0]), ids[1..]);
    }
  }

  lemma {:induction false} FlushGrows(s: Session)
    ensures s.released <= FlushPending(s).released && SameEnd(s, FlushPending(s))
    decreases if s.bytesSent <= s.maxDataLocal then s.maxDataLocal - s.bytesSent else 0
  {
    hide FlushPass;
    if !s.terminated {
      var ids := SortedKeys(s.streams.Keys);
      FlushPassProgress(s, ids);
      FlushPassGrows(s, ids);
      if FlushPass(s, ids).bytesSent != s.bytesSent { FlushGrows(FlushPass(s, ids)); }
    }
  }

  lemma {:induction false} FlushKnows(p: Config, s: Session)
    requires Knowing(p, s, None)
    ensures Keeps(p, s, FlushPending(s))
    decreases if s.bytesSent <= s.maxDataLocal then s.maxDataLocal - s.bytesSent else 0
  {
    hide Knowing, FlushPass;
    if !s.terminated {
      var ids := SortedKeys(s.streams.Keys);
      var s1 := FlushPass(s, ids);
      FlushPassProgress(s, ids);
      FlushPassKnows(p, s, ids);
      if s1.bytesSent != s.bytesSent {
        FlushGrows(s1);
        if Knowing(p, s1, None) { FlushKnows(p, s1); }
        KeepsThen(p, s, s1, FlushPending(s1));
      }
    }
  }

  // ---------- Calls ----------

  lemma BlockedKnows(p: Config, s: Session, id: StreamId, a: nat, b: nat)
    requires Knowing(p, s, None) && id in s.streams
    ensures Knowing(p, ReportBlocked(s, id, a, b), None)
  {
    hide Knowing, ReportSessionBlocked, ReportStreamBlocked;
    SessionBlockedFrame(s);
    SessionBlockedKnows(p, s);
    StreamBlockedKnows(p, s, id);
    StreamBlockedKnows(p, ReportSessionBlocked(s), id);
  }

  lemma SessionBlockedTraces(s: Session)
    ensures var s' := ReportSessionBlocked(s); s'.streams == s.streams && s'.released == s.released && SameEnd(s, s')
  {
  }

  lemma StreamBlockedTraces(s: Session, id: StreamId)
    requires id in s.streams
    ensures var s' := ReportStreamBlocked(s, id); id in s'.streams && s'.released == s.released && SameEnd(s, s')
  {
  }

  lemma BlockedTraces(s: Session, id: StreamId, a: nat, b: nat)
    requires id in s.streams
    ensures var s' := ReportBlocked(s, id, a, b); id in s'.streams && s'.released == s.released && SameEnd(s, s')
  {
    hide ReportSessionBlocked, ReportStreamBlocked;
    SessionBlockedTraces(s);
    StreamBlockedTraces(if a <= b then ReportSessionBlocked(s) else s, id);
  }

  lemma ChunkTraces(s: Session, id: StreamId, data: seq<Byte>, fin: bool)
    requires id in s.streams
    ensures var s' := SendChunk(s, id, data, fin); id in s'.streams && s'.released == s.released && SameEnd(s, s')
  {
  }

  lemma SendKnows(p: Config, s: Session, id: StreamId, data: seq<Byte>, fin: bool)
    requires Knowing(p, s, None)
    ensures Keeps(p, s, SendStreamData(s, id, data, fin))
  {
    hide Knowing, SendChunk, ReportBlocked, MaybeRelease, SetPending;
    if AcceptsSend(s, id) {
      var st := s.streams[id];
      var n := Sendable(s, st, |data|);
      if st.pending != [] {
        SetPendingKnows(p, s, id, st.pending + [PendingSend(data, fin)]);
        SetPendingTraces(s, id, st.pending + [PendingSend(data, fin)]);
      } else if n < |data| {
        var s1 := if n > 0 then SendChunk(s, id, data[..n], false) else s;
        ChunkKnows(p, s, id, data[..n], false);
        ChunkTraces(s, id, data[..n], false);
        var a, b := SessionAvail(s, |data|), StreamAvail(st, |data|);
        BlockedKnows(p, s1, id, a, b);
        BlockedTraces(s1, id, a, b);
        SetPendingKnows(p, ReportBlocked(s1, id, a, b), id, [PendingSend(data[n..], fin)]);
        SetPendingTraces(ReportBlocked(s1, id, a, b), id, [PendingSend(data[n..], fin)]);
      } else {
        ChunkKnows(p, s, id, data, fin);
        ChunkTraces(s, id, data, fin);
        if fin { ReleaseKeeps(p, SendChunk(s, id, data, fin), id); }
      }
    }
  }

  lemma SetPendingTraces(s: Session, id: StreamId, q: seq<PendingSend>)
    requires id in s.streams
    ensures SetPending(s, id, q).released == s.released && SameEnd(s, SetPending(s, id, q))
  {
  }

  lemma ResetKnows(p: Config, s: Session, id: StreamId, code: ErrorCode)
    requires Knowing(p, s, None)
    ensures Keeps(p, s, ResetStream(s, id, code))
  {
    hide Knowing, MaybeRelease;
    if !s.terminated && id in s.streams && !SendDone(s.streams[id]) {
      MarkResetKnows(p, s, id, code);
      ReleaseKeeps(p, MarkReset(s, id, code), id);
    }
  }

  /** A stream that this end opens under an ID that was not used before. */
  lemma OpenKnows(p: Config, s: Session, uni: bool)
    requires Knowing(p, s, None) && NextId(s, uni) !in s.freed
    ensures Keeps(p, s, OpenStream(s, uni).0)
  {
    hide Knowing, ToldOf, Most, SessionTotals, StreamView, ToldStream, LastCredit;
    hide NewStream, BoardOf, BoardKnows, SayBoard;
    var n := Count(s, !uni);
    var id := NextId(s, uni);
    if s.established && n.next >= n.maxLocal && !n.blockedSent {
      TellLimit(p, s, uni);
      SaySession(p, s, OpenStream(s, uni).0, WtStreamsBlocked(!uni, n.maxLocal), None);
    } else if s.established && n.next < n.maxLocal && id !in s.streams {
      CreateKnows(p, s, uni);
    }
  }

  lemma TellLimit(p: Config, s: Session, uni: bool)
    requires Knowing(p, s, None)
    ensures var n := Count(s, !uni); var s' := WithCount(s, !uni, n.(blockedSent := true));
            BoardKnows(Shown(SayBoard(BoardOf(p, s), WtStreamsBlocked(!uni, n.maxLocal)), s'))
  {
    hide Knowing, ToldOf, Most, SessionTotals;
    KnowsBoard(p, s, None);
  }

  lemma CreateKnows(p: Config, s: Session, uni: bool)
    requires Knowing(p, s, None) && NextId(s, uni) !in s.freed && NextId(s, uni) !in s.streams
    ensures var n := Count(s, !uni);
            Knowing(p, Put(WithCount(s, !uni, n.(next := n.next + 1)), NextId(s, uni), NewStream(s, NextId(s, uni))), None)
  {
    hide Knowing, ToldOf, Most, SessionTotals, StreamView, ToldStream, LastCredit;
    var n, id := Count(s, !uni), NextId(s, uni);
    var s' := Put(WithCount(s, !uni, n.(next := n.next + 1)), id, NewStream(s, id));
    KnowsBoard(p, s, None);
    KnowsSpot(p, s, None, id);
    BoardAfter(p, s, s');
    BoardAfter(p, s, s);
    SpotAfter(s, s', id);
    SpotAfter(s, s, id);
    assert Remembers(SpotOf(s', id), id, s.cfg.isServer, s.cfg.initStreamData, false);
    assert SessionKnows(p, s');
    forall i | i != id ensures SpotOf(s', i) == SpotOf(s, i) {
      hide SpotOf;
      SilentSpot(s, s', i);
    }
    hide Remembers, SpotOf, SessionKnows;
    OneSpot(p, s, s', id, false, false);
  }

  /** What a call leaves a live session with is again a memory of the logs. */
  lemma ApplyKnows(p: Config, s: Session, call: Call)
    requires Knowing(p, s, None) && !s.terminated
    requires call.OpenCall? ==> NextId(s, call.uni) !in s.freed
    ensures !call.Close? ==> Keeps(p, s, Apply(s, call))
  {
    hide Knowing, OpenStream, SendStreamData, ResetStream;
    match call
    case OpenCall(uni) => OpenKnows(p, s, uni);
    case Send(id, data, fin) => SendKnows(p, s, id, data, fin);
    case Reset(id, code) => ResetKnows(p, s, id, code);
    case Stop(id, code) => StopKnows(p, s, id, code);
    case SendDgram(payload) => NoticeKnows(p, s, Datagram(payload));
    case DrainCall => NoticeKnows(p, s, WtDrainSession);
    case Close(_, _) =>
  }

  // ---------- Hearing ----------

  /** One capsule is heard; what changes besides concerns stream `id` and the board. */
  lemma HearOne(p: Config, s: Session, s': Session, c: Capsule, id: StreamId, loose: bool)
    requires Knowing(p, s, None) && SameEnd(s, s') && s'.emitted == s.emitted && s'.received == s.received + [c]
    requires forall i :: i != id ==> !About(c, i) && SameTraces(s, s', i)
    requires Remembers(Seen(HearFrom(SpotOf(s, id), c, id), s', id), id, s.cfg.isServer, s.cfg.initStreamData, loose)
    requires BoardKnows(Shown(BoardOf(p, s).(heard := StepTotals(EarTotals(p, s), c)), s'))
    ensures Knowing(p, s', if loose then Some(id) else None)
  {
    hide BoardOf, BoardKnows, Knowing, About, Remembers, SpotOf, HearFrom, SameTraces, EarTotals;
    HeardBoard(p, s, c);
    BoardAfter(p, Heed(s, c), s');
    HeardSpot(s, c, id);
    SpotAfter(Heed(s, c), s', id);
    forall i | i != id ensures SpotOf(s', i) == SpotOf(s, i) { HearSpot(s, s', c, i); }
    OneSpot(p, s, s', id, false, loose);
  }

  /** One capsule about no stream is heard. */
  lemma HearNone(p: Config, s: Session, s': Session, c: Capsule)
    requires Knowing(p, s, None) && SameEnd(s, s') && s'.emitted == s.emitted && s'.received == s.received + [c]
    requires forall i :: !About(c, i) && SameTraces(s, s', i)
    requires BoardKnows(Shown(BoardOf(p, s).(heard := StepTotals(EarTotals(p, s), c)), s'))
    ensures Knowing(p, s', None)
  {
    hide BoardOf, BoardKnows, Knowing, About, SpotOf, SameTraces, EarTotals;
    HeardBoard(p, s, c);
    BoardAfter(p, Heed(s, c), s');
    forall i ensures SpotOf(s', i) == SpotOf(s, i) { HearSpot(s, s', c, i); }
    NoSpot(p, s, s', None);
  }

  /** The entry a capsule lands on. */
  function EntryOf(v: Spot, id: StreamId, isServer: bool, init: nat): Stream {
    if v.entry.Some? then v.entry.value
    else Stream(LocalTo(isServer, id), id.uni, Ready, 0, Max(v.base, if v.credit.Some? then v.credit.value else 0),
                Recv, 0, init, [], false, false)
  }

  lemma EntryIs(s: Session, c: Capsule, id: StreamId)
    ensures WithEntry(Heed(s, c), id).streams
         == s.streams[id := EntryOf(SpotOf(s, id), id, s.cfg.isServer, s.cfg.initStreamData)]
    ensures WithEntry(Heed(s, c), id) == Heed(s, c).(streams := WithEntry(Heed(s, c), id).streams)
  {
    hide StreamView, ToldStream, LastCredit;
    if id in s.streams { assert s.streams[id := s.streams[id]] == s.streams; }
  }

  lemma ChunkSpot(v: Spot, id: StreamId, isServer: bool, init: nat, data: seq<Byte>, fin: bool)
    requires Remembers(v, id, isServer, init, false) && ReceivableDataCapsule(id, isServer) && !v.released
    requires data != [] ==> v.heard.ending == Open
    requires |v.heard.data| + |data| <= v.said.max
    ensures var st := EntryOf(v, id, isServer, init);
            Remembers(HearFrom(v, WtStream(id, data, fin), id).(
              entry := Some(st.(bytesReceived := st.bytesReceived + |data|, recvState := if fin then DataRecvd else st.recvState))),
              id, isServer, init, fin)
  {
  }

  lemma ChunkBoard(b: Board, id: StreamId, data: seq<Byte>, fin: bool)
    requires BoardKnows(b) && b.bytesReceived + |data| <= b.maxDataRemote
    ensures BoardKnows(b.(heard := StepTotals(b.heard, WtStream(id, data, fin)), bytesReceived := b.bytesReceived + |data|))
  {
  }

  /** One entry is put, and the board may change. */
  lemma HearEntry(p: Config, s: Session, s': Session, c: Capsule, id: StreamId, st: Stream, loose: bool)
    requires Knowing(p, s, None) && SameEnd(s, s') && s'.emitted == s.emitted && s'.received == s.received + [c]
    requires s'.streams == s.streams[id := st] && OtherwiseSame(s, s')
    requires forall i :: i != id ==> !About(c, i)
    requires Remembers(HearFrom(SpotOf(s, id), c, id).(entry := Some(st)), id, s.cfg.isServer, s.cfg.initStreamData, loose)
    requires BoardKnows(Shown(BoardOf(p, s).(heard := StepTotals(EarTotals(p, s), c)), s'))
    ensures Knowing(p, s', if loose then Some(id) else None)
  {
    hide Knowing, About, Remembers, BoardKnows, BoardOf, Shown, EarTotals;
    SpotShape(s, c, id);
    assert Seen(HearFrom(SpotOf(s, id), c, id), s', id) == HearFrom(SpotOf(s, id), c, id).(entry := Some(st)) by { hide SpotOf, HearFrom; }
    forall i | i != id ensures SameTraces(s, s', i) { hide SpotOf, HearFrom, Seen; }
    hide SpotOf, HearFrom, Seen, SameTraces;
    HearOne(p, s, s', c, id, loose);
  }

  predicate OtherwiseSame(s: Session, s': Session) {
    && s'.freed == s.freed && s'.released == s.released && s'.receivedStops == s.receivedStops && s'.sentStops == s.sentStops
    && s'.receivedMaxStreamData == s.receivedMaxStreamData && s'.bidi == s.bidi && s'.uni == s.uni
  }

  lemma ChunkEntry(s: Session, c: Capsule, id: StreamId, data: seq<Byte>, fin: bool)
    ensures var s' := RecvChunk(WithEntry(Heed(s, c), id), id, data, fin);
            var st := EntryOf(SpotOf(s, id), id, s.cfg.isServer, s.cfg.initStreamData);
      && SameEnd(s, s') && s'.emitted == s.emitted && s'.received == s.received + [c] && OtherwiseSame(s, s')
      && s'.streams == s.streams[id := st.(bytesReceived := st.bytesReceived + |data|,
                                           recvState := if fin then DataRecvd else st.recvState)]
  {
    EntryIs(s, c, id);
    hide EntryOf, SpotOf, WithEntry;
  }

  lemma ChunkShown(p: Config, s: Session, c: Capsule, id: StreamId, data: seq<Byte>, fin: bool)
    requires c == WtStream(id, data, fin)
    ensures Shown(BoardOf(p, s).(heard := StepTotals(EarTotals(p, s), c)), RecvChunk(WithEntry(Heed(s, c), id), id, data, fin))
         == BoardOf(p, s).(heard := StepTotals(EarTotals(p, s), c), bytesReceived := s.bytesReceived + |data|)
  {
    hide ToldOf, Most, SessionTotals, NewStream;
  }

  /** The bytes of a WT_STREAM are taken in. */
  lemma ChunkLearned(p: Config, s: Session, id: StreamId, data: seq<Byte>, fin: bool)
    requires Knowing(p, s, None) && ReceivableDataCapsule(id, s.cfg.isServer) && id !in s.released
    requires data != [] ==> Ears(s, id).ending == Open
    requires s.bytesReceived + |data| <= s.maxDataRemote && |Ears(s, id).data| + |data| <= Said(s, id).max
    ensures Knowing(p, RecvChunk(WithEntry(Heed(s, WtStream(id, data, fin)), id), id, data, fin), if fin then Some(id) else None)
  {
    hide Knowing, ToldOf, Most, SessionTotals, StreamView, ToldStream, LastCredit, Remembers, BoardKnows, WithEntry, HearFrom, EntryOf,
      RecvChunk, Shown, OtherwiseSame, Heed, StepTotals;
    var c := WtStream(id, data, fin);
    KnowsBoard(p, s, None);
    KnowsSpot(p, s, None, id);
    ChunkSpot(SpotOf(s, id), id, s.cfg.isServer, s.cfg.initStreamData, data, fin);
    ChunkBoard(BoardOf(p, s), id, data, fin);
    ChunkShown(p, s, c, id, data, fin);
    ChunkEntry(s, c, id, data, fin);
    hide SpotOf, BoardOf;
    var st := EntryOf(SpotOf(s, id), id, s.cfg.isServer, s.cfg.initStreamData);
    HearEntry(p, s, RecvChunk(WithEntry(Heed(s, c), id), id, data, fin), c, id,
              st.(bytesReceived := st.bytesReceived + |data|, recvState := if fin then DataRecvd else st.recvState), fin);
  }

  lemma SpotShape(s: Session, c: Capsule, id: StreamId)
    ensures var v := SpotOf(s, id); var h := HearFrom(v, c, id);
      && h == v.(heard := h.heard, last := h.last)
      && v.freed == (id in s.freed) && v.released == (id in s.released) && v.stop == (id in s.receivedStops)
      && v.stopSent == (id in s.sentStops) && v.own == Opened(s, id)
      && v.credit == (if id in s.receivedMaxStreamData then Some(s.receivedMaxStreamData[id]) else None)
      && v.entry == (if id in s.streams then Some(s.streams[id]) else None)
  {
    hide StreamView, ToldStream, LastCredit;
  }

  /** An empty WT_STREAM on a released stream leaves no trace. */
  lemma EmptyLearned(p: Config, s: Session, id: StreamId, fin: bool)
    requires Knowing(p, s, None) && id in s.released && id !in s.streams && ReceivableDataCapsule(id, s.cfg.isServer)
    ensures Knowing(p, Heed(s, WtStream(id, [], fin)), None)
  {
    hide Knowing, ToldOf, Most, SessionTotals, StreamView, ToldStream, LastCredit;
    var c := WtStream(id, [], fin);
    KnowsBoard(p, s, None);
    KnowsSpot(p, s, None, id);
    HearOne(p, s, Heed(s, c), c, id, false);
  }

  lemma ResetSpot(v: Spot, id: StreamId, isServer: bool, init: nat, code: ErrorCode, size: nat)
    requires Remembers(v, id, isServer, init, false) && ReceivableDataCapsule(id, isServer) && !v.released
    ensures Remembers(HearFrom(v, WtResetStream(id, code, size), id).(
              entry := Some(EntryOf(v, id, isServer, init).(recvState := ResetRecvd))), id, isServer, init, true)
  {
  }

  lemma ResetEntry(s: Session, c: Capsule, id: StreamId, code: ErrorCode)
    ensures var s' := NoteReset(WithEntry(Heed(s, c), id), id, code);
            var st := EntryOf(SpotOf(s, id), id, s.cfg.isServer, s.cfg.initStreamData);
      && SameEnd(s, s') && s'.emitted == s.emitted && s'.received == s.received + [c] && OtherwiseSame(s, s')
      && s'.streams == s.streams[id := st.(recvState := ResetRecvd)]
  {
    EntryIs(s, c, id);
    hide EntryOf, SpotOf, WithEntry;
  }

  /** A board that nothing has changed. */
  lemma SameBoard(p: Config, s: Session, s': Session, h: Totals)
    requires s'.bytesReceived == s.bytesReceived && s'.maxDataRemote == s.maxDataRemote && s'.bytesSent == s.bytesSent
    requires s'.maxDataLocal == s.maxDataLocal && s'.receivedMaxData == s.receivedMaxData && s'.dataBlockedSent == s.dataBlockedSent
    requires s'.bidi == s.bidi && s'.uni == s.uni
    ensures Shown(BoardOf(p, s).(heard := h), s') == BoardOf(p, s).(heard := h)
  {
    hide ToldOf, Most, SessionTotals;
  }

  lemma ResetShown(p: Config, s: Session, c: Capsule, id: StreamId, code: ErrorCode, h: Totals)
    ensures Shown(BoardOf(p, s).(heard := h), NoteReset(WithEntry(Heed(s, c), id), id, code)) == BoardOf(p, s).(heard := h)
  {
    hide BoardOf, Shown, NewStream;
    SameBoard(p, s, NoteReset(WithEntry(Heed(s, c), id), id, code), h);
  }

  lemma HeardIsEarTotals(p: Config, s: Session)
    ensures BoardOf(p, s).heard == EarTotals(p, s) && BoardOf(p, s).(heard := EarTotals(p, s)) == BoardOf(p, s)
  {
    hide ToldOf, Most, SessionTotals;
  }

  lemma ResetLearned(p: Config, s: Session, id: StreamId, code: ErrorCode, size: nat)
    requires Knowing(p, s, None) && ReceivableDataCapsule(id, s.cfg.isServer) && id !in s.released
    ensures Knowing(p, NoteReset(WithEntry(Heed(s, WtResetStream(id, code, size)), id), id, code), Some(id))
  {
    hide Knowing, ToldOf, Most, SessionTotals, StreamView, ToldStream, LastCredit, Remembers, BoardKnows, WithEntry, HearFrom, EntryOf,
      NoteReset, Shown, OtherwiseSame, Heed, BoardOf, EarTotals;
    var c := WtResetStream(id, code, size);
    KnowsBoard(p, s, None);
    KnowsSpot(p, s, None, id);
    ResetSpot(SpotOf(s, id), id, s.cfg.isServer, s.cfg.initStreamData, code, size);
    HeardIsEarTotals(p, s);
    ResetShown(p, s, c, id, code, EarTotals(p, s));
    ResetEntry(s, c, id, code);
    hide SpotOf;
    HearEntry(p, s, NoteReset(WithEntry(Heed(s, c), id), id, code), c, id,
              EntryOf(SpotOf(s, id), id, s.cfg.isServer, s.cfg.initStreamData).(recvState := ResetRecvd), true);
  }

  lemma StopSpot(v: Spot, id: StreamId, isServer: bool, init: nat, code: ErrorCode)
    requires Remembers(v, id, isServer, init, false)
    ensures Remembers(HearFrom(v, WtStopSending(id, code), id).(
              entry := if v.entry.Some? then Some(v.entry.value.(stopReceived := true)) else None, stop := true),
              id, isServer, init, false)
  {
  }

  lemma StopSeen(s: Session, c: Capsule, id: StreamId, code: ErrorCode)
    requires |s.receivedStops| < MAX_RECEIVED_MAP_ENTRIES
    ensures var s' := NoteStop(Heed(s, c), id, code); var v := HearFrom(SpotOf(s, id), c, id);
      && SameEnd(s, s') && s'.emitted == s.emitted && s'.received == s.received + [c]
      && Seen(v, s', id) == v.(entry := if v.entry.Some? then Some(v.entry.value.(stopReceived := true)) else None, stop := true)
      && forall i :: i != id ==> SameTraces(s, s', i)
  {
    SpotShape(s, c, id);
    hide SpotOf, HearFrom;
  }

  lemma StopShown(p: Config, s: Session, c: Capsule, id: StreamId, code: ErrorCode, h: Totals)
    ensures Shown(BoardOf(p, s).(heard := h), NoteStop(Heed(s, c), id, code)) == BoardOf(p, s).(heard := h)
  {
    hide BoardOf, Shown;
    SameBoard(p, s, NoteStop(Heed(s, c), id, code), h);
  }

  lemma StopLearned(p: Config, s: Session, id: StreamId, code: ErrorCode)
    requires Knowing(p, s, None) && |s.receivedStops| < MAX_RECEIVED_MAP_ENTRIES
    ensures Knowing(p, NoteStop(Heed(s, WtStopSending(id, code)), id, code), None)
  {
    hide Knowing, ToldOf, Most, SessionTotals, StreamView, ToldStream, LastCredit, Remembers, BoardKnows, HearFrom, NoteStop, Heed,
      Shown, Seen, SameTraces, BoardOf, EarTotals;
    var c := WtStopSending(id, code);
    KnowsBoard(p, s, None);
    KnowsSpot(p, s, None, id);
    StopSpot(SpotOf(s, id), id, s.cfg.isServer, s.cfg.initStreamData, code);
    SpotShape(s, c, id);
    HeardIsEarTotals(p, s);
    hide SpotOf;
    StopShown(p, s, c, id, code, EarTotals(p, s));
    StopSeen(s, c, id, code);
    HearOne(p, s, NoteStop(Heed(s, c), id, code), c, id, false);
  }

  lemma BlockedLearned(p: Config, s: Session, id: StreamId, max: nat)
    requires Knowing(p, s, None)
    ensures Knowing(p, Heed(s, WtStreamDataBlocked(id, max)), None)
  {
    hide Knowing, ToldOf, Most, SessionTotals, StreamView, ToldStream, LastCredit;
    var c := WtStreamDataBlocked(id, max);
    KnowsBoard(p, s, None);
    KnowsSpot(p, s, None, id);
    HearOne(p, s, Heed(s, c), c, id, false);
  }

  lemma MaxDataLearned(p: Config, s: Session, max: nat)
    requires Knowing(p, s, None) && EarTotals(p, s).max.data <= max
    ensures Knowing(p, NoteMaxData(Heed(s, WtMaxData(max)), max), None)
  {
    hide Knowing, ToldOf, Most, SessionTotals;
    var c := WtMaxData(max);
    KnowsBoard(p, s, None);
    HearNone(p, s, NoteMaxData(Heed(s, c), max), c);
  }

  /** Any notice: it moves no limit, carries no data and is about no stream. */
  lemma NoticeLearned(p: Config, s: Session, s': Session, c: Capsule)
    requires Knowing(p, s, None)
    requires c.Datagram? || c.WtDataBlocked? || c.WtStreamsBlocked? || c.WtDrainSession?
    requires s' == Heed(s, c).(events := s'.events)
    ensures Knowing(p, s', None)
  {
    hide Knowing, ToldOf, Most, SessionTotals;
    KnowsBoard(p, s, None);
    HearNone(p, s, s', c);
  }

  lemma CreditSpot(v: Spot, id: StreamId, isServer: bool, init: nat, max: nat)
    requires Remembers(v, id, isServer, init, false)
    requires v.last.Some? ==> v.last.value <= max
    requires v.last.None? && v.entry.Some? ==> v.entry.value.maxLocal <= max
    ensures Remembers(HearFrom(v, WtMaxStreamData(id, max), id).(
              entry := if v.entry.Some? && max > v.entry.value.maxLocal
                       then Some(v.entry.value.(maxLocal := max, dataBlockedSent := false)) else v.entry,
              credit := Some(max)), id, isServer, init, false)
  {
  }

  lemma CreditSeen(s: Session, c: Capsule, id: StreamId, max: nat)
    requires |s.receivedMaxStreamData| < MAX_RECEIVED_MAP_ENTRIES
    ensures var s' := NoteMaxStreamData(Heed(s, c), id, max); var v := HearFrom(SpotOf(s, id), c, id);
      && SameEnd(s, s') && s'.emitted == s.emitted && s'.received == s.received + [c]
      && Seen(v, s', id) == v.(
           entry := if v.entry.Some? && max > v.entry.value.maxLocal
                    then Some(v.entry.value.(maxLocal := max, dataBlockedSent := false)) else v.entry,
           credit := Some(max))
      && forall i :: i != id ==> SameTraces(s, s', i)
  {
    SpotShape(s, c, id);
    hide SpotOf, HearFrom;
  }

  lemma CreditShown(p: Config, s: Session, c: Capsule, id: StreamId, max: nat, h: Totals)
    ensures Shown(BoardOf(p, s).(heard := h), NoteMaxStreamData(Heed(s, c), id, max)) == BoardOf(p, s).(heard := h)
  {
    hide BoardOf, Shown, HasRoom;
    SameBoard(p, s, NoteMaxStreamData(Heed(s, c), id, max), h);
  }

  lemma MaxStreamDataLearned(p: Config, s: Session, id: StreamId, max: nat)
    requires Knowing(p, s, None) && |s.receivedMaxStreamData| < MAX_RECEIVED_MAP_ENTRIES
    requires LastCredit(s.received, id).Some? ==> LastCredit(s.received, id).value <= max
    requires LastCredit(s.received, id).None? && id in s.streams ==> s.streams[id].maxLocal <= max
    ensures Knowing(p, NoteMaxStreamData(Heed(s, WtMaxStreamData(id, max)), id, max), None)
  {
    hide Knowing, ToldOf, Most, SessionTotals, StreamView, ToldStream, LastCredit, Remembers, BoardKnows, HearFrom, NoteMaxStreamData, Heed,
      Shown, Seen, SameTraces, BoardOf, EarTotals;
    var c := WtMaxStreamData(id, max);
    KnowsBoard(p, s, None);
    KnowsSpot(p, s, None, id);
    CreditSpot(SpotOf(s, id), id, s.cfg.isServer, s.cfg.initStreamData, max);
    SpotShape(s, c, id);
    HeardIsEarTotals(p, s);
    hide SpotOf;
    CreditShown(p, s, c, id, max, EarTotals(p, s));
    CreditSeen(s, c, id, max);
    HearOne(p, s, NoteMaxStreamData(Heed(s, c), id, max), c, id, false);
  }

  /** The record of limits after WT_MAX_STREAMS. */
  function Raised(n: StreamCount, max: nat): StreamCount {
    n.(received := Some(max), maxLocal := Max(n.maxLocal, max), blockedSent := n.blockedSent && max <= n.maxLocal)
  }

  lemma RaisedBoard(b: Board, bidi: bool, max: nat)
    requires BoardKnows(b) && (if bidi then b.heard.max.bidi else b.heard.max.uni) <= max
    ensures BoardKnows(b.(heard := StepTotals(b.heard, WtMaxStreams(bidi, max)),
                          bidi := if bidi then Raised(b.bidi, max) else b.bidi, uni := if bidi then b.uni else Raised(b.uni, max)))
  {
  }

  lemma MaxStreamsLearned(p: Config, s: Session, bidi: bool, max: nat)
    requires Knowing(p, s, None)
    requires (if bidi then EarTotals(p, s).max.bidi else EarTotals(p, s).max.uni) <= max
    ensures Knowing(p, WithCount(Heed(s, WtMaxStreams(bidi, max)), bidi, Raised(Count(s, bidi), max)), None)
  {
    hide Knowing, ToldOf, Most, SessionTotals, BoardKnows;
    var c := WtMaxStreams(bidi, max);
    KnowsBoard(p, s, None);
    RaisedBoard(BoardOf(p, s), bidi, max);
    HearNone(p, s, WithCount(Heed(s, c), bidi, Raised(Count(s, bidi), max)), c);
  }

  // ---------- From the start ----------

  lemma NewKnows(cfg: Config, peer: Config, header: bool)
    ensures Knowing(peer, NewSession(cfg, peer, header), None)
  {
    var s := NewSession(cfg, peer, header);
    forall id ensures Remembers(SpotOf(s, id), id, s.cfg.isServer, s.cfg.initStreamData, false) { }
  }

  /** The response finds no stream and no capsule yet: it settles the credits that streams will start with. */
  lemma ConfirmKnows(p: Config, s: Session, peer: PeerCredit)
    requires Knowing(p, s, None) && s.received == [] && s.streams == map[]
    ensures Knowing(p, Confirm(s, peer), None)
  {
    hide StreamView, ToldStream;
    var s' := Confirm(s, peer);
    KnowsBoard(p, s, None);
    assert SessionKnows(p, s') by { hide Remembers, SpotOf, ToldOf, Most, SessionTotals; }
    hide SessionKnows;
    forall id ensures Remembers(SpotOf(s', id), id, s.cfg.isServer, s.cfg.initStreamData, false) {
      KnowsSpot(p, s, None, id);
      assert SpotOf(s', id) == SpotOf(s, id).(base := InitialSendCredit(s', id));
    }
  }
}