/**
 * What one end does in so many words, and what the other is told: every reset, stop, datagram,
 * drain and close that is queued stands for one call of the application or one answer to a stop,
 * with its code and message, in order; and every one dispatched is told once, as it was said.
 */
module Deeds {
  import opened Capsules
  import Utf8
  import opened Engine
  import opened Trace
  import opened Sending
  import opened Receiving
  import opened Dialogue
  import opened Endpoint
  import opened Network
  import opened Delivery

  // ---------- In logs ----------

  predicate IsWord(c: Capsule) {
    c.Datagram? || c.WtResetStream? || c.WtStopSending? || c.WtCloseSession? || c.WtDrainSession?
  }

  predicate IsTelling(e: Event) {
    e.DatagramReceived? || e.StreamReset? || e.StopSendingReceived? || e.SessionClosed? || e.SessionDraining?
  }

  /** What the application is told of a word. */
  function Telling(c: Capsule): seq<Event> {
    match c
    case Datagram(payload) => [DatagramReceived(payload)]
    case WtResetStream(id, code, _) => [StreamReset(id, code)]
    case WtStopSending(id, code) => [StopSendingReceived(id, code)]
    case WtCloseSession(code, message) => [SessionClosed(code, message)]
    case WtDrainSession => [SessionDraining]
    case _ => []
  }

  function WordsOf(log: seq<Capsule>): seq<Capsule> {
    if log == [] then []
    else
      var c := log[|log| - 1];
      WordsOf(log[..|log| - 1]) + (if IsWord(c) then [c] else [])
  }

  function Tellings(events: seq<Event>): seq<Event> {
    if events == [] then []
    else
      var e := events[|events| - 1];
      Tellings(events[..|events| - 1]) + (if IsTelling(e) then [e] else [])
  }

  /** Everything an application should be told of a log. */
  function TellAll(log: seq<Capsule>): seq<Event> {
    if log == [] then [] else TellAll(log[..|log| - 1]) + Telling(log[|log| - 1])
  }

  lemma WordsSnoc(log: seq<Capsule>, c: Capsule)
    ensures WordsOf(log + [c]) == WordsOf(log) + (if IsWord(c) then [c] else [])
    ensures TellAll(log + [c]) == TellAll(log) + Telling(c)
  {
    assert (log + [c])[..|log|] == log;
  }

  lemma TellingsSnoc(events: seq<Event>, e: Event)
    ensures Tellings(events + [e]) == Tellings(events) + (if IsTelling(e) then [e] else [])
  {
    assert (events + [e])[..|events|] == events;
  }

  // ---------- Steps that add no word and no telling ----------

  predicate Same(s: Session, s': Session) {
    WordsOf(s'.emitted) == WordsOf(s.emitted) && Tellings(s'.events) == Tellings(s.events)
  }

  predicate Adds(s: Session, s': Session, words: seq<Capsule>, news: seq<Event>) {
    WordsOf(s'.emitted) == WordsOf(s.emitted) + words && Tellings(s'.events) == Tellings(s.events) + news
  }

  lemma EmitOther(s: Session, s': Session, c: Capsule)
    requires s'.emitted == s.emitted + [c] && s'.events == s.events && !IsWord(c)
    ensures Same(s, s')
  {
    WordsSnoc(s.emitted, c);
  }

  lemma PushOther(s: Session, s': Session, e: Event)
    requires s'.emitted == s.emitted && s'.events == s.events + [e] && !IsTelling(e)
    ensures Same(s, s')
  {
    TellingsSnoc(s.events, e);
  }

  lemma EmitWord(s: Session, s': Session, c: Capsule)
    requires s'.emitted == s.emitted + [c] && s'.events == s.events && IsWord(c)
    ensures Adds(s, s', [c], [])
  {
    WordsSnoc(s.emitted, c);
  }

  lemma PushNews(s: Session, s': Session, e: Event)
    requires s'.emitted == s.emitted && s'.events == s.events + [e] && IsTelling(e)
    ensures Adds(s, s', [], [e])
  {
    TellingsSnoc(s.events, e);
  }

  lemma CreditOther(s: Session, id: StreamId)
    ensures Same(s, MaybeSendMaxData(s)) && Same(s, MaybeSendMaxStreamData(s, id))
  {
    hide WordsOf, Tellings, ShouldReplenish, Replenished;
    var s1 := MaybeSendMaxData(s);
    if s1 != s { EmitOther(s, s1, WtMaxData(s1.maxDataRemote)); }
    var s2 := MaybeSendMaxStreamData(s, id);
    if s2 != s { EmitOther(s, s2, WtMaxStreamData(id, s2.streams[id].maxRemote)); }
  }

  lemma ReleaseOther(s: Session, id: StreamId)
    ensures Same(s, MaybeRelease(s, id))
  {
    hide WordsOf, Tellings;
    if id in s.streams && Releasable(s.streams[id]) {
      var bidi := !s.streams[id].isUni;
      var g := GrantStream(Forget(s, id), bidi);
      if g != Forget(s, id) { EmitOther(s, g, WtMaxStreams(bidi, Count(s, bidi).maxRemote + 1)); }
    }
  }

  lemma ChunkOther(s: Session, id: StreamId, p: seq<PendingSend>, data: seq<Byte>, fin: bool)
    requires id in s.streams
    ensures Same(s, SendChunk(s, id, data, fin)) && Same(s, SendChunk(SetPending(s, id, p), id, data, fin))
  {
    hide WordsOf, Tellings;
    EmitOther(s, SendChunk(s, id, data, fin), WtStream(id, data, fin));
    EmitOther(s, SendChunk(SetPending(s, id, p), id, data, fin), WtStream(id, data, fin));
  }

  lemma {:induction false} DrainOther(s: Session, id: StreamId)
    ensures Same(s, Drain(s, id))
    decreases if id in s.streams then |s.streams[id].pending| else 0
  {
    hide WordsOf, Tellings, MaybeRelease;
    if id in s.streams && s.streams[id].pending != [] {
      var p := s.streams[id].pending;
      var n := Sendable(s, s.streams[id], |p[0].data|);
      if 0 < n < |p[0].data| {
        ChunkOther(s, id, [PendingSend(p[0].data[n..], p[0].fin)] + p[1..], p[0].data[..n], false);
      } else if 0 < n {
        ChunkOther(s, id, p[1..], p[0].data, p[0].fin);
        var s' := SendChunk(SetPending(s, id, p[1..]), id, p[0].data, p[0].fin);
        if p[0].fin { ReleaseOther(s', id); } else { DrainOther(s', id); }
      }
    }
  }

  lemma {:induction false} FlushPassOther(s: Session, ids: seq<StreamId>)
    ensures Same(s, FlushPass(s, ids))
    decreases |ids|
  {
    hide WordsOf, Tellings, Drain;
    if ids != [] {
      DrainOther(s, ids[0]);
      FlushPassOther(FlushOne(s, ids[0]), ids[1..]);
    }
  }

  lemma {:induction false} FlushOther(s: Session)
    ensures Same(s, FlushPending(s))
    decreases if s.bytesSent <= s.maxDataLocal then s.maxDataLocal - s.bytesSent else 0
  {
    hide WordsOf, Tellings, FlushPass;
    if !s.terminated {
      var ids := SortedKeys(s.streams.Keys);
      FlushPassProgress(s, ids);
      FlushPassOther(s, ids);
      if FlushPass(s, ids).bytesSent != s.bytesSent { FlushOther(FlushPass(s, ids)); }
    }
  }

  lemma BlockedOther(s: Session, id: StreamId, a: nat, b: nat)
    requires id in s.streams
    ensures Same(s, ReportBlocked(s, id, a, b))
  {
    hide WordsOf, Tellings;
    var s1 := if a <= b then ReportSessionBlocked(s) else s;
    if s1 != s { EmitOther(s, s1, WtDataBlocked(s.maxDataLocal)); }
    var s2 := if b <= a then ReportStreamBlocked(s1, id) else s1;
    if s2 != s1 { EmitOther(s1, s2, WtStreamDataBlocked(id, s1.streams[id].maxLocal)); }
  }

  lemma SendOther(s: Session, id: StreamId, data: seq<Byte>, fin: bool)
    ensures Same(s, SendStreamData(s, id, data, fin))
  {
    hide WordsOf, Tellings, MaybeRelease, ReportBlocked, SendChunk;
    if AcceptsSend(s, id) {
      var st := s.streams[id];
      var n := Sendable(s, st, |data|);
      if n < |data| {
        var s1 := if n > 0 then SendChunk(s, id, data[..n], false) else s;
        ChunkOther(s, id, [], data[..n], false);
        assert id in s1.streams by { ChunkStays(s, id, data[..n]); }
        BlockedOther(s1, id, SessionAvail(s, |data|), StreamAvail(st, |data|));
      } else {
        ChunkOther(s, id, [], data, fin);
        ReleaseOther(SendChunk(s, id, data, fin), id);
      }
    }
  }

  lemma ChunkStays(s: Session, id: StreamId, data: seq<Byte>)
    requires id in s.streams
    ensures id in SendChunk(s, id, data, false).streams
  {
  }

  // ---------- Calls ----------

  lemma CloseWord(s: Session, code: ErrorCode, message: seq<Byte>)
    ensures Adds(s, CloseSession(s, code, message),
                 if s.terminated then [] else [WtCloseSession(code, Utf8.Cut(message, MAX_MESSAGE))], [])
  {
    hide WordsOf, Tellings, Utf8.Cut;
    if !s.terminated { EmitWord(s, CloseSession(s, code, message), WtCloseSession(code, Utf8.Cut(message, MAX_MESSAGE))); }
  }

  /** A reset adds its one word, whatever it releases. */
  lemma ResetWord(s: Session, id: StreamId, code: ErrorCode)
    ensures Adds(s, ResetStream(s, id, code), ResetBy(s, id, code), [])
  {
    hide WordsOf, Tellings, MaybeRelease;
    if !s.terminated && id in s.streams && !SendDone(s.streams[id]) {
      EmitWord(s, MarkReset(s, id, code), WtResetStream(id, code, s.streams[id].bytesSent));
      ReleaseOther(MarkReset(s, id, code), id);
    }
  }

  /** The reset of a stream on which the sending side is open: its code, and the bytes sent so far. */
  function ResetBy(s: Session, id: StreamId, code: ErrorCode): seq<Capsule> {
    if !s.terminated && id in s.streams && !SendDone(s.streams[id]) then [WtResetStream(id, code, s.streams[id].bytesSent)] else []
  }

  lemma OpenOther(s: Session, uni: bool)
    ensures Same(s, OpenStream(s, uni).0)
  {
    hide WordsOf, Tellings, NewStream;
    var s' := OpenStream(s, uni).0;
    if s'.emitted != s.emitted { EmitOther(s, s', WtStreamsBlocked(!uni, Count(s, !uni).maxLocal)); }
  }

  /** The word a call is for. */
  function WordOf(s: Session, call: Call): seq<Capsule> {
    if s.terminated then []
    else
      match call
      case Reset(id, code) => ResetBy(s, id, code)
      case Stop(id, code) => if id in s.streams && id !in s.sentStops then [WtStopSending(id, code)] else []
      case SendDgram(payload) => [Datagram(payload)]
      case DrainCall => [WtDrainSession]
      case Close(code, message) => [WtCloseSession(code, Utf8.Cut(message, MAX_MESSAGE))]
      case _ => []
  }

  /** A call queues the word it is for, with its own code, and no other. */
  lemma ApplyWords(s: Session, call: Call)
    ensures Adds(s, Apply(s, call), WordOf(s, call), [])
  {
    hide WordsOf, Tellings, OpenStream, SendStreamData, ResetStream, CloseSession, ResetBy;
    match call
    case OpenCall(uni) => OpenOther(s, uni);
    case Send(id, data, fin) => SendOther(s, id, data, fin);
    case Reset(id, code) =>
      ResetWord(s, id, code);
      NoReset(s, id, code);
    case Stop(id, code) => if StopSending(s, id, code) != s { EmitWord(s, StopSending(s, id, code), WtStopSending(id, code)); }
    case SendDgram(payload) => if !s.terminated { EmitWord(s, SendDatagram(s, payload), Datagram(payload)); }
    case DrainCall => if !s.terminated { EmitWord(s, DrainSession(s), WtDrainSession); }
    case Close(code, message) => CloseWord(s, code, message);
  }

  lemma NoReset(s: Session, id: StreamId, code: ErrorCode)
    ensures s.terminated ==> ResetBy(s, id, code) == []
  {
  }

  // ---------- Handlers ----------

  /** The word with which a capsule is answered. */
  function AnswerWord(s: Session, c: Capsule): seq<Capsule> {
    if c.WtStopSending? then ResetBy(s, c.id, c.code) else []
  }

  /** What is told of a capsule: of a stop of an unknown stream nothing once the record is full. */
  function News(s: Session, c: Capsule): seq<Event> {
    if c.WtStopSending? && c.id !in s.streams && |s.receivedStops| >= MAX_RECEIVED_MAP_ENTRIES then [] else Telling(c)
  }

  predicate CanFail(c: Capsule) { !c.Datagram? && !c.WtDataBlocked? && !c.WtCloseSession? && !c.WtDrainSession? }

  /** Either a capsule is an error, and the session is closed, or it is answered and told. */
  ghost predicate Responds(s: Session, c: Capsule, s': Session) {
    || (s'.terminated && CanFail(c) && exists code :: Adds(s, s', [WtCloseSession(code, [])], []))
    || Adds(s, s', AnswerWord(s, c), News(s, c))
  }

  lemma Reported(s: Session, t: Session, c: Capsule)
    requires !s.terminated && CanFail(c) && t.terminated == s.terminated && Same(s, t)
    ensures forall code :: Responds(s, c, ReportError(t, code))
    ensures Responds(s, c, ReportLimitError(t))
  {
    hide WordsOf, Tellings, CloseSession, AnswerWord, News;
    forall code ensures Responds(s, c, ReportError(t, code)) {
      PushOther(t, Push(t, Error(code)), Error(code));
      CloseWord(Push(t, Error(code)), code, []);
      Closes(Push(t, Error(code)), code);
      assert Adds(s, ReportError(t, code), [WtCloseSession(code, [])], []);
    }
    CloseWord(t, WT_FLOW_CONTROL_ERROR, []);
    Closes(t, WT_FLOW_CONTROL_ERROR);
    assert Adds(s, ReportLimitError(t), [WtCloseSession(WT_FLOW_CONTROL_ERROR, [])], []);
  }

  lemma Closes(s: Session, code: ErrorCode)
    ensures CloseSession(s, code, []).terminated && Utf8.Cut([], MAX_MESSAGE) == []
  {
  }

  lemma AcceptWords(s: Session, t: Session, id: StreamId, data: seq<Byte>, fin: bool)
    requires !s.terminated && id in t.streams && t.terminated == s.terminated && Same(s, t)
    ensures Responds(s, WtStream(id, data, fin), AcceptWtStream(t, id, data, fin))
  {
    hide WordsOf, Tellings, MaybeSendMaxData, MaybeSendMaxStreamData, MaybeRelease, ReportError, ShouldReplenish;
    Reported(s, t, WtStream(id, data, fin));
    var s1 := RecvChunk(t, id, data, fin);
    if s1.events != t.events { PushOther(t, s1, StreamData(id, data, fin)); }
    CreditOther(s1, id);
    CreditOther(MaybeSendMaxData(s1), id);
    ReleaseOther(MaybeSendMaxStreamData(MaybeSendMaxData(s1), id), id);
  }

  lemma StreamWords(s: Session, id: StreamId, data: seq<Byte>, fin: bool)
    requires !s.terminated
    ensures Responds(s, WtStream(id, data, fin), HandleWtStream(s, id, data, fin))
  {
    hide WordsOf, Tellings, AcceptWtStream, ReportError, NewStream;
    Reported(s, s, WtStream(id, data, fin));
    if id in s.streams { AcceptWords(s, s, id, data, fin); } else { AcceptWords(s, Put(s, id, NewStream(s, id)), id, data, fin); }
  }

  lemma NoteResetWords(s: Session, t: Session, id: StreamId, code: ErrorCode, size: nat)
    requires id in t.streams && Same(s, t)
    ensures Responds(s, WtResetStream(id, code, size), RecvReset(t, id, code))
  {
    hide WordsOf, Tellings, MaybeRelease;
    PushNews(t, NoteReset(t, id, code), StreamReset(id, code));
    ReleaseOther(NoteReset(t, id, code), id);
  }

  lemma PeerResetWords(s: Session, id: StreamId, code: ErrorCode, size: nat)
    requires !s.terminated
    ensures Responds(s, WtResetStream(id, code, size), HandleWtResetStream(s, id, code, size))
  {
    hide WordsOf, Tellings, RecvReset, ReportError, NewStream;
    Reported(s, s, WtResetStream(id, code, size));
    if id in s.streams { NoteResetWords(s, s, id, code, size); } else { NoteResetWords(s, Put(s, id, NewStream(s, id)), id, code, size); }
  }

  lemma NoteStopWords(s: Session, id: StreamId, code: ErrorCode)
    ensures var t := NoteStop(s, id, code);
      && Adds(s, t, [], News(s, WtStopSending(id, code))) && t.terminated == s.terminated
      && ResetBy(t, id, code) == ResetBy(s, id, code)
  {
    hide WordsOf, Tellings;
    var t := NoteStop(s, id, code);
    if t.events != s.events { PushNews(s, t, StopSendingReceived(id, code)); }
  }

  /** A stop is answered by a reset with its own code. */
  lemma PeerStopWords(s: Session, id: StreamId, code: ErrorCode)
    requires !s.terminated
    ensures Responds(s, WtStopSending(id, code), HandleWtStopSending(s, id, code))
  {
    hide WordsOf, Tellings, ResetStream, ReportError, NoteStop, News, ResetBy;
    Reported(s, s, WtStopSending(id, code));
    NoteStopWords(s, id, code);
    ResetWord(NoteStop(s, id, code), id, code);
    UnknownIsNotReset(s, id, code);
  }

  lemma UnknownIsNotReset(s: Session, id: StreamId, code: ErrorCode)
    ensures id !in s.streams ==> ResetBy(s, id, code) == []
  {
  }

  lemma PeerMaxDataWords(s: Session, max: nat)
    requires !s.terminated
    ensures Responds(s, WtMaxData(max), HandleWtMaxData(s, max))
  {
    hide WordsOf, Tellings, FlushPending, ReportLimitError;
    Reported(s, s, WtMaxData(max));
    FlushOther(s.(receivedMaxData := Some(max), maxDataLocal := max, dataBlockedSent := false));
  }

  lemma PeerLimitsWords(s: Session, id: StreamId, bidi: bool, max: nat)
    requires !s.terminated
    ensures Responds(s, WtMaxStreams(bidi, max), HandleWtMaxStreams(s, bidi, max))
    ensures Responds(s, WtStreamDataBlocked(id, max), HandleWtStreamDataBlocked(s, id))
    ensures Responds(s, WtStreamsBlocked(bidi, max), HandleWtStreamsBlocked(s, max))
  {
    hide WordsOf, Tellings, ReportError, ReportLimitError;
    Reported(s, s, WtMaxStreams(bidi, max));
    Reported(s, s, WtStreamDataBlocked(id, max));
    Reported(s, s, WtStreamsBlocked(bidi, max));
  }

  lemma PeerCreditWords(s: Session, id: StreamId, max: nat)
    requires !s.terminated
    ensures Responds(s, WtMaxStreamData(id, max), HandleWtMaxStreamData(s, id, max))
  {
    hide WordsOf, Tellings, FlushPending, ReportError, ReportLimitError;
    Reported(s, s, WtMaxStreamData(id, max));
    if id in s.streams {
      var st := s.streams[id].(maxLocal := max, dataBlockedSent := false);
      FlushOther(Put(s, id, st));
      FlushOther(Put(s.(receivedMaxStreamData := s.receivedMaxStreamData[id := max]), id, st));
    }
  }

  lemma DispatchWords(s: Session, c: Capsule)
    requires !s.terminated
    ensures Responds(s, c, Dispatch(s, c))
  {
    hide WordsOf, Tellings, HandleWtStream, HandleWtResetStream, HandleWtStopSending, HandleWtMaxData, HandleWtMaxStreamData,
         HandleWtMaxStreams, HandleWtStreamDataBlocked, HandleWtStreamsBlocked, Responds;
    match c
    case WtStream(id, data, fin) => StreamWords(s, id, data, fin);
    case WtResetStream(id, code, size) => PeerResetWords(s, id, code, size);
    case WtStopSending(id, code) => PeerStopWords(s, id, code);
    case WtMaxStreamData(id, max) => PeerCreditWords(s, id, max);
    case WtMaxData(max) => PeerMaxDataWords(s, max);
    case WtMaxStreams(bidi, max) => PeerLimitsWords(s, StreamId(0, false, false), bidi, max);
    case WtStreamDataBlocked(id, max) => PeerLimitsWords(s, id, false, max);
    case WtStreamsBlocked(bidi, max) => PeerLimitsWords(s, StreamId(0, false, false), bidi, max);
    case _ => NoticeWords(s, c);
  }

  lemma NoticeWords(s: Session, c: Capsule)
    requires c.Datagram? || c.WtDataBlocked? || c.WtCloseSession? || c.WtDrainSession?
    ensures Responds(s, c, Dispatch(s, c))
  {
    hide WordsOf, Tellings;
    if IsWord(c) { PushNews(s, Dispatch(s, c), Telling(c)[0]); }
  }

  /**
   * What a capsule from whatever peer is answered with and what is told of it, in words: a stop of an
   * open stream is answered by a reset with its code, an error by a close, and nothing else by anything.
   */
  lemma ReceiveWords(s: Session, c: Capsule)
    requires !s.terminated
    ensures Responds(s, c, Receive(s, c))
  {
    hide WordsOf, Tellings, Dispatch;
    DispatchWords(Heed(s, c), c);
    assert forall words, news :: Adds(Heed(s, c), Receive(s, c), words, news) ==> Adds(s, Receive(s, c), words, news);
  }

  // ---------- Two ends ----------

  /** The words that one action makes one end say. */
  function Deed(n: Net, a: Action, server: bool): seq<Capsule>
    requires Enabled(n, a)
  {
    match a
    case ClientCall(call) => if server then [] else WordOf(n.client, call)
    case ServerCall(call) => if server then WordOf(n.server, call) else []
    case ToClient => if server then [] else AnswerWord(n.client, n.server.emitted[|n.client.received|])
    case ToServer => if server then AnswerWord(n.server, n.client.emitted[|n.server.received|]) else []
    case ClientAccepted => []
  }

  /** All the words of a run: those of the calls, and the answers to stops, in order. */
  function Handed(n: Net, actions: seq<Action>, server: bool): seq<Capsule>
    decreases |actions|
  {
    if actions == [] || !Enabled(n, actions[0]) then []
    else Deed(n, actions[0], server) + Handed(StepNet(n, actions[0]), actions[1..], server)
  }

  lemma AnnounceOther(s: Session, peer: PeerCredit)
    ensures Same(s, Establish(s, peer)) && Establish(s, peer).received == s.received
  {
    var a, b, c := WtMaxData(s.cfg.initData), WtMaxStreams(true, s.cfg.initBidi), WtMaxStreams(false, s.cfg.initUni);
    WordsSnoc(s.emitted, a);
    WordsSnoc(s.emitted + [a], b);
    WordsSnoc(s.emitted + [a] + [b], c);
  }

  function StopCount(log: seq<Capsule>): nat {
    if log == [] then 0 else StopCount(log[..|log| - 1]) + (if log[|log| - 1].WtStopSending? then 1 else 0)
  }

  function Stopped(log: seq<Capsule>): set<StreamId> {
    if log == [] then {}
    else
      var c := log[|log| - 1];
      Stopped(log[..|log| - 1]) + (if c.WtStopSending? then {c.id} else {})
  }

  lemma {:induction false} StoppedAreFew(init: nat, log: seq<Capsule>, id: StreamId)
    ensures |Stopped(log)| <= StopCount(log)
    ensures StreamView(init, log, id).stopped ==> id in Stopped(log)
    decreases |log|
  {
    if log != [] { StoppedAreFew(init, log[..|log| - 1], id); }
  }

  /** The record of stops holds no more than were dispatched. */
  lemma RecordIsSmall(s: Session)
    requires Inv(s)
    ensures |s.receivedStops| <= StopCount(s.received)
  {
    hide SendInv, SessionRecvOk, Delivered, Mentions, StreamView;
    forall id | id in s.receivedStops ensures id in Stopped(s.received) {
      assert RecvOk(s, id);
      StoppedAreFew(InitialSendCredit(s, id), s.received, id);
    }
    assert s.receivedStops <= Stopped(s.received);
    Smaller(s.receivedStops, Stopped(s.received));
    StoppedAreFew(0, s.received, StreamId(0, false, false));
  }

  lemma Smaller<T>(a: set<T>, b: set<T>)
    requires a <= b
    ensures |a| <= |b|
  {
    assert b == a + (b - a);
  }

  /** Everything dispatched has been told, once each and in order, while the record of stops has room. */
  predicate AllTold(s: Session) {
    StopCount(s.received) <= MAX_RECEIVED_MAP_ENTRIES ==> Tellings(s.events) == TellAll(s.received)
  }

  /** Nothing is told but what was dispatched. */
  ghost predicate OnlyTold(s: Session) { Told(Tellings(s.events), s.received) }

  ghost predicate Told(news: seq<Event>, log: seq<Capsule>) {
    forall k :: 0 <= k < |news| ==> exists j :: 0 <= j < |log| && Telling(log[j]) == [news[k]]
  }

  lemma HearTold(s: Session, c: Capsule, s': Session)
    requires Inv(s) && AllTold(s) && OnlyTold(s)
    requires s'.received == s.received + [c] && Tellings(s'.events) == Tellings(s.events) + News(s, c)
    ensures AllTold(s') && OnlyTold(s')
  {
    hide Inv, Tellings, TellAll;
    RecordIsSmall(s);
    WordsSnoc(s.received, c);
    assert (s.received + [c])[..|s.received|] == s.received;
    forall k | 0 <= k < |Tellings(s'.events)| ensures exists j :: 0 <= j < |s'.received| && Telling(s'.received[j]) == [Tellings(s'.events)[k]] {
      if k < |Tellings(s.events)| {
        var j :| 0 <= j < |s.received| && Telling(s.received[j]) == [Tellings(s.events)[k]];
        assert s'.received[j] == s.received[j];
      } else {
        assert s'.received[|s.received|] == c && Telling(c) == [Tellings(s'.events)[k]];
      }
    }
  }

  lemma CallTold(s: Session, s': Session)
    requires s'.received == s.received && Tellings(s'.events) == Tellings(s.events)
    ensures AllTold(s) ==> AllTold(s')
    ensures OnlyTold(s) ==> OnlyTold(s')
  {
    hide Tellings, TellAll, StopCount, Telling;
  }

  lemma DeliverWords(x: Session, y: Session)
    requires Inv(x) && Inv(y) && Hears(x, y) && Hears(y, x)
    requires !y.terminated && |y.received| < |x.emitted| && NoErrors(y.events)
    ensures var c := x.emitted[|y.received|]; var y' := Receive(y, c);
            Adds(y, y', AnswerWord(y, c), News(y, c)) && y'.received == y.received + [c]
  {
    hide Inv, Receive, WordsOf, Tellings, AnswerWord, News, NoErrors;
    var c := x.emitted[|y.received|];
    DeliverInv(x, y);
    ReceiveWords(y, c);
    ReceiveOnward(y, c);
  }

  lemma StepWords(n: Net, a: Action, server: bool)
    requires NetInv(n) && Enabled(n, a)
    ensures WordsOf(End(StepNet(n, a), server).emitted) == WordsOf(End(n, server).emitted) + Deed(n, a, server)
    ensures AllTold(End(n, server)) && OnlyTold(End(n, server)) ==>
              AllTold(End(StepNet(n, a), server)) && OnlyTold(End(StepNet(n, a), server))
  {
    hide Inv, NoErrors, WordsOf, Tellings, Apply, Receive, AllTold, OnlyTold, WordOf, AnswerWord, News, Establish;
    match a
    case ClientCall(call) =>
      ApplyWords(n.client, call);
      ApplyOnward(n.client, call);
      CallTold(n.client, Apply(n.client, call));
    case ServerCall(call) =>
      ApplyWords(n.server, call);
      ApplyOnward(n.server, call);
      CallTold(n.server, Apply(n.server, call));
    case ClientAccepted =>
      AnnounceOther(n.client, CreditFrom(n.server.cfg, true));
      CallTold(n.client, Establish(n.client, CreditFrom(n.server.cfg, true)));
    case ToClient =>
      DeliverWords(n.server, n.client);
      if AllTold(n.client) && OnlyTold(n.client) { HearTold(n.client, n.server.emitted[|n.client.received|], End(StepNet(n, a), false)); }
    case ToServer =>
      DeliverWords(n.client, n.server);
      if AllTold(n.server) && OnlyTold(n.server) { HearTold(n.server, n.client.emitted[|n.server.received|], End(StepNet(n, a), true)); }
  }

  lemma {:induction false} RunWords(n0: Net, actions: seq<Action>, n: Net, server: bool)
    requires NetInv(n0) && Run(n0, actions, n) && AllTold(End(n0, server)) && OnlyTold(End(n0, server))
    ensures WordsOf(End(n, server).emitted) == WordsOf(End(n0, server).emitted) + Handed(n0, actions, server)
    ensures AllTold(End(n, server)) && OnlyTold(End(n, server))
    decreases |actions|
  {
    hide NetInv, StepNet, Enabled, Deed, WordsOf, AllTold, OnlyTold;
    if actions != [] {
      StepNetInv(n0, actions[0]);
      StepWords(n0, actions[0], server);
      RunWords(StepNet(n0, actions[0]), actions[1..], n, server);
    }
  }

  lemma StartWords(c: Config, s: Config, server: bool)
    ensures var e := End(InitialNet(c, s), server); WordsOf(e.emitted) == [] && AllTold(e) && OnlyTold(e)
  {
    var n0 := InitialNet(c, s);
    AnnounceOther(NewSession(s, c, true), NewSession(s, c, true).peer);
  }

  lemma {:induction false} TellAllGrows(log: seq<Capsule>, more: seq<Capsule>)
    requires log <= more
    ensures TellAll(log) <= TellAll(more)
    decreases |more|
  {
    if |log| == |more| {
      assert log == more;
    } else {
      TellAllGrows(log, more[..|more| - 1]);
    }
  }

  lemma {:induction false} OnlyWordsTell(log: seq<Capsule>)
    ensures TellAll(WordsOf(log)) == TellAll(log)
    decreases |log|
  {
    if log != [] {
      var init, c := log[..|log| - 1], log[|log| - 1];
      OnlyWordsTell(init);
      assert init + [c] == log;
      WordsSnoc(init, c);
      WordsSnoc(WordsOf(init), c);
      hide WordsOf, TellAll;
      assert WordsOf(log) == if IsWord(c) then WordsOf(init) + [c] else WordsOf(init);
      assert !IsWord(c) ==> Telling(c) == [];
    }
  }

  /**
   * What an end says in words is what its application called for and what it answered stops with, in that
   * order; the other end is told exactly that, as far as it has dispatched it: unless 4096 stops overflow its record.
   */
  lemma WordsInOrder(c: Config, s: Config, actions: seq<Action>, n: Net, from: bool)
    requires ValidConfig(c) && ValidConfig(s) && !c.isServer && s.isServer
    requires Run(InitialNet(c, s), actions, n)
    ensures var x, y := End(n, from), End(n, !from); var said := Handed(InitialNet(c, s), actions, from);
      && WordsOf(x.emitted) == said
      && (StopCount(y.received) <= MAX_RECEIVED_MAP_ENTRIES ==>
            Tellings(y.events) <= TellAll(said) && (y.received == x.emitted ==> Tellings(y.events) == TellAll(said)))
  {
    hide Run, Handed, WordsOf, Tellings, TellAll, StopCount, OnlyTold;
    var n0 := InitialNet(c, s);
    InitialNetInv(c, s);
    RunKeepsInv(n0, actions, n);
    StartWords(c, s, from);
    StartWords(c, s, !from);
    hide InitialNet, Inv, NoErrors;
    RunWords(n0, actions, n, from);
    RunWords(n0, actions, n, !from);
    TellAllGrows(End(n, !from).received, End(n, from).emitted);
    OnlyWordsTell(End(n, from).emitted);
  }

  // ---------- Where a word comes from ----------

  /** The call that a word stands for. */
  predicate Means(call: Call, w: Capsule) {
    match w
    case WtResetStream(id, code, _) => call == Reset(id, code)
    case WtStopSending(id, code) => call == Stop(id, code)
    case Datagram(payload) => call == SendDgram(payload)
    case WtDrainSession => call == DrainCall
    case WtCloseSession(code, message) => call.Close? && call.code == code && Utf8.Cut(call.message, MAX_MESSAGE) == message
    case _ => false
  }

  predicate CallsFor(a: Action, server: bool, w: Capsule) {
    if server then a.ServerCall? && Means(a.call, w) else a.ClientCall? && Means(a.call, w)
  }

  /** One call of the run at this end has it, or it is a reset with the code of a stop that was dispatched. */
  ghost predicate Meant(actions: seq<Action>, server: bool, heard: seq<Capsule>, w: Capsule) {
    || (exists i :: 0 <= i < |actions| && CallsFor(actions[i], server, w))
    || (w.WtResetStream? && WtStopSending(w.id, w.code) in heard)
  }

  lemma StepGrows(n: Net, a: Action, server: bool)
    requires Enabled(n, a)
    ensures End(n, server).received <= End(StepNet(n, a), server).received
  {
    hide Apply, Receive;
    match a
    case ClientCall(call) => ApplyOnward(n.client, call);
    case ServerCall(call) => ApplyOnward(n.server, call);
    case ClientAccepted =>
    case ToClient => ReceiveOnward(n.client, n.server.emitted[|n.client.received|]);
    case ToServer => ReceiveOnward(n.server, n.client.emitted[|n.server.received|]);
  }

  lemma {:induction false} RunGrows(n0: Net, actions: seq<Action>, n: Net, server: bool)
    requires Run(n0, actions, n)
    ensures End(n0, server).received <= End(n, server).received
    decreases |actions|
  {
    hide StepNet, Enabled;
    if actions != [] {
      StepGrows(n0, actions[0], server);
      RunGrows(StepNet(n0, actions[0]), actions[1..], n, server);
    }
  }

  lemma DeedIsMeant(n: Net, a: Action, server: bool, w: Capsule)
    requires Enabled(n, a) && w in Deed(n, a, server)
    ensures CallsFor(a, server, w) || (w.WtResetStream? && WtStopSending(w.id, w.code) in End(StepNet(n, a), server).received)
  {
    hide Apply, Receive, Utf8.Cut;
    match a
    case ClientCall(call) =>
    case ServerCall(call) =>
    case ToClient => ReceiveOnward(n.client, n.server.emitted[|n.client.received|]);
    case ToServer => ReceiveOnward(n.server, n.client.emitted[|n.server.received|]);
  }

  lemma {:induction false} HandedIsMeant(n0: Net, actions: seq<Action>, n: Net, server: bool, w: Capsule)
    requires Run(n0, actions, n) && w in Handed(n0, actions, server)
    ensures Meant(actions, server, End(n, server).received, w)
    decreases |actions|
  {
    hide StepNet, Enabled, Deed, CallsFor;
    var n1, rest := StepNet(n0, actions[0]), actions[1..];
    if w in Deed(n0, actions[0], server) {
      DeedIsMeant(n0, actions[0], server, w);
      RunGrows(n1, rest, n, server);
    } else {
      HandedIsMeant(n1, rest, n, server, w);
      if i :| 0 <= i < |rest| && CallsFor(rest[i], server, w) { assert actions[i + 1] == rest[i]; }
    }
  }

  lemma {:induction false} WordIsIn(log: seq<Capsule>, j: nat)
    requires j < |log| && IsWord(log[j])
    ensures log[j] in WordsOf(log)
    decreases |log|
  {
    if j < |log| - 1 { WordIsIn(log[..|log| - 1], j); }
  }

  lemma {:induction false} TellingIsIn(events: seq<Event>, k: nat)
    requires k < |events| && IsTelling(events[k])
    ensures events[k] in Tellings(events)
    decreases |events|
  {
    if k < |events| - 1 { TellingIsIn(events[..|events| - 1], k); }
  }

  /**
   * Every StreamReset, StopSendingReceived, DatagramReceived, SessionDraining and SessionClosed that one end reports
   * carries the stream, code and payload of a call at the other end, or is a reset with the code of a stop answered there.
   */
  lemma EveryNewsIsMeant(c: Config, s: Config, actions: seq<Action>, n: Net, from: bool, k: nat)
    requires ValidConfig(c) && ValidConfig(s) && !c.isServer && s.isServer
    requires Run(InitialNet(c, s), actions, n)
    requires k < |End(n, !from).events| && IsTelling(End(n, !from).events[k])
    ensures exists w :: w in End(n, !from).received && Telling(w) == [End(n, !from).events[k]]
                        && Meant(actions, from, End(n, from).received, w)
  {
    hide Run, Handed, WordsOf, Tellings, TellAll, AllTold, Meant;
    var n0, x, y := InitialNet(c, s), End(n, from), End(n, !from);
    InitialNetInv(c, s);
    RunKeepsInv(n0, actions, n);
    StartWords(c, s, from);
    StartWords(c, s, !from);
    hide InitialNet, Inv, NoErrors;
    RunWords(n0, actions, n, from);
    RunWords(n0, actions, n, !from);
    TellingIsIn(y.events, k);
    var i :| 0 <= i < |Tellings(y.events)| && Tellings(y.events)[i] == y.events[k];
    var j :| 0 <= j < |y.received| && Telling(y.received[j]) == [Tellings(y.events)[i]];
    assert y.received[j] == x.emitted[j];
    WordIsIn(x.emitted, j);
    HandedIsMeant(n0, actions, n, from, y.received[j]);
  }
}
