/**
 * Whole runs of one endpoint: any API calls of its application, interleaved with any
 * capsules of its peer.
 */
module Runs {
  import opened Capsules
  import opened Engine
  import opened Trace
  import opened Sending
  import opened Conduct
  import opened Hearing
  import opened Endpoint
  import opened Queues
  import opened Bounds
  import opened Conservation

  datatype Step =
    | Do(call: Call)
    | Take(c: Capsule)
    | Confirmation(peer: PeerCredit)
    | Announcement

  /** A server whose session ended while it went through the early capsules announces nothing. */
  function Advance(s: Session, step: Step): Session {
    match step
    case Do(call) => Apply(s, call)
    case Take(c) => Receive(s, c)
    case Confirmation(peer) => Confirm(s, peer)
    case Announcement => if s.cfg.isServer && s.terminated then s else Announce(s)
  }

  function Play(s: Session, steps: seq<Step>): Session
    decreases |steps|
  {
    if steps == [] then s else Play(Advance(s, steps[0]), steps[1..])
  }

  // ---------- The bound on concurrent streams needs no hypothesis on application or peer ----------

  lemma AdvanceBounds(s: Session, step: Step)
    ensures Sustains(s, Advance(s, step), false)
  {
    hide Sustains, Apply, Receive;
    match step
    case Do(call) => ApplyBounds(s, call, false);
    case Take(c) => ReceiveBounds(s, c, false);
    case _ => SameFieldsKeep(s, Advance(s, step), false);
  }

  lemma {:induction false} PlayBounds(s: Session, steps: seq<Step>)
    requires RosterInv(s) && BandInv(s)
    ensures RosterInv(Play(s, steps)) && BandInv(Play(s, steps)) && Play(s, steps).cfg == s.cfg
    decreases |steps|
  {
    if steps != [] {
      hide RosterInv, BandInv, Advance;
      AdvanceBounds(s, steps[0]);
      PlayBounds(Advance(s, steps[0]), steps[1..]);
    }
  }

  lemma NewSessionBounds(cfg: Config, peer: Config, header: bool)
    requires ValidConfig(cfg)
    ensures RosterInv(NewSession(cfg, peer, header)) && BandInv(NewSession(cfg, peer, header))
    ensures OwnOpened(RollOf(NewSession(cfg, peer, header)))
  {
    var r := RollOf(NewSession(cfg, peer, header));
    assert PeerStreams(cfg, true, r.released) == {} && PeerStreams(cfg, false, r.released) == {};
  }

  /**
   * Whatever the application does and whatever the peer sends, and although every release
   * raises the advertised limit: as long as the released record is not full, no more streams
   * of the peer are alive at a time than the configured limit.
   */
  lemma ConcurrencyBounded(cfg: Config, peer: Config, header: bool, steps: seq<Step>, bidi: bool)
    requires ValidConfig(cfg)
    requires |Play(NewSession(cfg, peer, header), steps).released| < MAX_RECEIVED_MAP_ENTRIES
    ensures var s := Play(NewSession(cfg, peer, header), steps);
      && |PeerStreams(cfg, bidi, s.streams.Keys)| <= InitLimit(cfg, bidi)
      && Count(s, bidi).maxRemote == Min(InitLimit(cfg, bidi) + |PeerStreams(cfg, bidi, s.released)|, MAX_STREAMS)
  {
    hide Play;
    NewSessionBounds(cfg, peer, header);
    PlayBounds(NewSession(cfg, peer, header), steps);
    ConcurrencyBound(Play(NewSession(cfg, peer, header), steps), bidi);
  }

  /**
   * Whatever the application does and whatever the peer sends, the credit outstanding for the
   * session, and for every stream this end has not stopped, is between half the configured
   * window and the whole of it, until the window meets the ceiling of a varint.
   */
  lemma CreditBanded(cfg: Config, peer: Config, header: bool, steps: seq<Step>, id: StreamId)
    requires ValidConfig(cfg)
    ensures var s := Play(NewSession(cfg, peer, header), steps);
      && (s.bytesReceived + cfg.initData <= MAX_VARINT ==>
            (cfg.initData + 1) / 2 <= s.maxDataRemote - s.bytesReceived <= cfg.initData)
      && (id in s.streams && id !in s.sentStops && s.streams[id].bytesReceived + cfg.initStreamData <= MAX_VARINT ==>
            (cfg.initStreamData + 1) / 2 <= s.streams[id].maxRemote - s.streams[id].bytesReceived <= cfg.initStreamData)
  {
    hide Play, RosterInv, Band;
    NewSessionBounds(cfg, peer, header);
    PlayBounds(NewSession(cfg, peer, header), steps);
    var s := Play(NewSession(cfg, peer, header), steps);
    BandBounds(s.bytesReceived, s.maxDataRemote, cfg.initData);
    if id in s.streams && id !in s.sentStops {
      BandBounds(s.streams[id].bytesReceived, s.streams[id].maxRemote, cfg.initStreamData);
    }
  }

  // ---------- What is asked of application and peer for the rest ----------

  /**
   * The application resets only streams it may send on and stops only streams it may receive
   * on; the peer does not use streams of ours that we have not opened; the released record
   * is not full; and the limits announced at establishment have not been raised before.
   */
  predicate Fair(s: Session, step: Step) {
    match step
    case Do(call) => Proper(s, call)
    case Take(c) => |s.released| < MAX_RECEIVED_MAP_ENTRIES && (Creates(c) ==> Mannerly(s, c.id))
    case Confirmation(_) => !s.terminated
    case Announcement => !s.terminated && FreshLimits(s)
  }

  predicate FairRun(s: Session, steps: seq<Step>)
    decreases |steps|
  {
    steps != [] ==> Fair(s, steps[0]) && FairRun(Advance(s, steps[0]), steps[1..])
  }

  ghost predicate EndpointInv(s: Session) {
    SendInv(s) && RosterInv(s) && OwnOpened(RollOf(s)) && ValidConfig(s.cfg)
  }

  lemma OwnNextIsFresh(s: Session, uni: bool)
    requires OwnOpened(RollOf(s))
    ensures NextId(s, uni) !in s.freed
  {
  }

  lemma FreedIsRecalled(s: Session, id: StreamId)
    requires RosterInv(s) && |s.released| < MAX_RECEIVED_MAP_ENTRIES && ReceivableDataCapsule(id, s.cfg.isServer)
    ensures Recalls(s, id)
  {
    assert Recalled(RollOf(s), id);
    hide InRange, Advertised, Labelled;
  }

  lemma ApplyKeeps(s: Session, call: Call)
    requires EndpointInv(s) && Proper(s, call)
    ensures SendInv(Apply(s, call))
  {
    hide SendInv, RosterInv, OpenStream, SendStreamData, ResetStream, StopSending, SendDatagram, DrainSession, CloseSession;
    match call
    case OpenCall(uni) =>
      OwnNextIsFresh(s, uni);
      OpenStreamKeeps(s, uni);
    case Send(id, data, fin) => SendStreamDataKeeps(s, id, data, fin);
    case Reset(id, code) => ResetStreamKeeps(s, id, code);
    case Stop(id, code) => StopSendingKeeps(s, id, code);
    case SendDgram(payload) => NoticesKeep(s, payload);
    case DrainCall => NoticesKeep(s, []);
    case Close(code, message) => CloseKeeps(s, code, message);
  }

  lemma ConfirmKeeps(s: Session, peer: PeerCredit)
    requires SendInv(s) && !s.terminated
    ensures SendInv(Confirm(s, peer))
  {
    hide SendOk, SessionTotals, Legal;
    QuietKeeps(s, Confirm(s, peer));
  }

  /** What a step hands over for stream `id`. */
  function Handed(s: Session, step: Step, id: StreamId): Extra {
    match step case Do(call) => Accepted(s, call, id) case _ => NoExtra
  }

  lemma AnnounceCalm(s: Session, i: StreamId)
    ensures Calm(QueueOf(s, i), QueueOf(Announce(s), i))
  {
    hide Calm, QueueOf;
    var s1 := s.(emitted := s.emitted + [WtMaxData(s.cfg.initData)]);
    var s2 := s1.(emitted := s1.emitted + [WtMaxStreams(true, s.cfg.initBidi)]);
    EmitCalm(s, s1, WtMaxData(s.cfg.initData), i);
    EmitCalm(s1, s2, WtMaxStreams(true, s.cfg.initBidi), i);
    EmitCalm(s2, Announce(s), WtMaxStreams(false, s.cfg.initUni), i);
    CalmTransitive(QueueOf(s, i), QueueOf(s1, i), QueueOf(s2, i));
    CalmTransitive(QueueOf(s, i), QueueOf(s2, i), QueueOf(Announce(s), i));
  }

  /** A fair step keeps the endpoint sound and serves every queue. */
  lemma AdvanceKeeps(s: Session, step: Step, i: StreamId)
    requires EndpointInv(s) && Fair(s, step)
    ensures EndpointInv(Advance(s, step))
    ensures Serves(QueueOf(s, i), QueueOf(Advance(s, step), i), Handed(s, step, i))
  {
    AdvanceFair(s, step);
    hide SendInv, RosterInv, OwnOpened, Serves, Calm, QueueOf, Apply, Receive, Announce;
    match step
    case Do(call) =>
      ApplyServes(s, call, i);
      ApplyKeeps(s, call);
    case Take(c) =>
      if Creates(c) && ReceivableDataCapsule(c.id, s.cfg.isServer) { FreedIsRecalled(s, c.id); }
      ReceiveServes(s, c, i);
      ReceiveKeepsSending(s, c);
    case Confirmation(peer) =>
      ConfirmKeeps(s, peer);
      SilentCalm(s, Confirm(s, peer), i);
      CalmServes(QueueOf(s, i), QueueOf(Confirm(s, peer), i));
    case Announcement =>
      AnnounceKeeps(s);
      AnnounceCalm(s, i);
      CalmServes(QueueOf(s, i), QueueOf(Announce(s), i));
  }

  lemma AdvanceFair(s: Session, step: Step)
    requires RosterInv(s) && OwnOpened(RollOf(s)) && Fair(s, step)
    ensures RosterInv(Advance(s, step)) && OwnOpened(RollOf(Advance(s, step))) && Advance(s, step).cfg == s.cfg
  {
    assert Sustains(s, Advance(s, step), true) by {
      hide Sustains, Apply, Receive, RosterInv, OwnOpened;
      match step
      case Do(call) => ApplyBounds(s, call, true);
      case Take(c) => ReceiveBounds(s, c, true);
      case _ => SameFieldsKeep(s, Advance(s, step), true);
    }
    hide RosterInv, OwnOpened, Advance;
  }

  /** What a run handed over for stream `id`, in order. */
  function Submitted(s: Session, steps: seq<Step>, id: StreamId): Extra
    decreases |steps|
  {
    if steps == [] then NoExtra
    else Then(Handed(s, steps[0], id), Submitted(Advance(s, steps[0]), steps[1..], id))
  }

  lemma {:induction false} PlayKeeps(s: Session, steps: seq<Step>, i: StreamId)
    requires EndpointInv(s) && FairRun(s, steps)
    ensures EndpointInv(Play(s, steps))
    ensures Serves(QueueOf(s, i), QueueOf(Play(s, steps), i), Submitted(s, steps, i))
    decreases |steps|
  {
    hide EndpointInv, Serves, QueueOf, Advance, Handed, Fair;
    if steps == [] {
      ServesSelf(QueueOf(s, i));
    } else {
      var s' := Advance(s, steps[0]);
      AdvanceKeeps(s, steps[0], i);
      PlayKeeps(s', steps[1..], i);
      ServesThen(QueueOf(s, i), QueueOf(s', i), QueueOf(Play(s', steps[1..]), i),
                 Handed(s, steps[0], i), Submitted(s', steps[1..], i));
    }
  }

  // ---------- Main results about one endpoint ----------

  lemma NewSessionIsSound(cfg: Config, peer: Config, header: bool, i: StreamId)
    requires ValidConfig(cfg) && ValidConfig(peer)
    ensures EndpointInv(NewSession(cfg, peer, header))
    ensures QueueOf(NewSession(cfg, peer, header), i) == Queue([], Open, [], true)
  {
    NewSessionInv(cfg, peer, header);
    NewSessionBounds(cfg, peer, header);
  }

  /** What an endpoint queues is in the language of the draft, whatever the peer sends. */
  lemma SpeaksTheLanguage(cfg: Config, peer: Config, header: bool, steps: seq<Step>)
    requires ValidConfig(cfg) && ValidConfig(peer) && FairRun(NewSession(cfg, peer, header), steps)
    ensures Legal(SpeakerOf(Play(NewSession(cfg, peer, header), steps)), Play(NewSession(cfg, peer, header), steps).emitted)
  {
    hide Play, FairRun, NewSession;
    NewSessionIsSound(cfg, peer, header, StreamId(0, false, false));
    PlayKeeps(NewSession(cfg, peer, header), steps, StreamId(0, false, false));
  }

  /**
   * Bytes go out in the order they were handed over, each once, and the FIN after the last
   * of them; what is not out yet waits in its queue. A reset cuts the stream off after a prefix.
   */
  lemma SendsInOrder(cfg: Config, peer: Config, header: bool, steps: seq<Step>, id: StreamId)
    requires ValidConfig(cfg) && ValidConfig(peer) && FairRun(NewSession(cfg, peer, header), steps)
    ensures var s := Play(NewSession(cfg, peer, header), steps);
            var e := Submitted(NewSession(cfg, peer, header), steps, id);
      && Carried(s.emitted, id) <= e.data
      && (Said(s, id).ending != WasReset ==>
            && Carried(s.emitted, id) + Bytes(Unsent(s, id)) == e.data
            && (e.fin <==> Said(s, id).ending == Finished || HasFin(Unsent(s, id)))
            && (e.zero <==> HasEmpty(Unsent(s, id))))
      && (Said(s, id).ending == Finished ==> Unsent(s, id) == [] && Carried(s.emitted, id) == e.data)
  {
    hide Play, FairRun, NewSession, Submitted, RosterInv;
    var s0 := NewSession(cfg, peer, header);
    var s := Play(s0, steps);
    NewSessionIsSound(cfg, peer, header, id);
    PlayKeeps(s0, steps, id);
    ViewIsCarried(s.cfg.initStreamData, s.emitted, id);
    if Said(s, id).ending != Open { EndedHasNoQueue(s, id); }
    hide SendInv, StreamView, HasFin;
  }

  lemma EndedHasNoQueue(s: Session, id: StreamId)
    requires SendInv(s) && Said(s, id).ending != Open
    ensures Unsent(s, id) == []
  {
    hide Legal, StreamView, SessionTotals;
    assert SendOk(s, id);
  }

  /** If the front entry of a queue is not empty, session credit or stream credit is used up. */
  lemma BlockedMeansNoCredit(cfg: Config, peer: Config, header: bool, steps: seq<Step>, id: StreamId)
    requires ValidConfig(cfg) && ValidConfig(peer) && FairRun(NewSession(cfg, peer, header), steps)
    ensures var s := Play(NewSession(cfg, peer, header), steps);
            id in s.streams && s.streams[id].pending != [] && s.streams[id].pending[0].data != [] ==>
              s.bytesSent == s.maxDataLocal || s.streams[id].bytesSent == s.streams[id].maxLocal
  {
    hide Play, FairRun, NewSession, Submitted, RosterInv;
    var s0 := NewSession(cfg, peer, header);
    var s := Play(s0, steps);
    NewSessionIsSound(cfg, peer, header, id);
    PlayKeeps(s0, steps, id);
    hide Legal, StreamView, SessionTotals, Committed, FinCommitted, HasEmpty;
    assert SendOk(s, id) && SessionSendOk(s);
  }

  /** open_stream asks only whether the session is established, and reports a limit it meets once. */
  predicate ReportsLimit(s: Session, uni: bool) {
    s.established && Count(s, !uni).next >= Count(s, !uni).maxLocal && !Count(s, !uni).blockedSent
  }

  /** What a session that is over may still queue. */
  function LastNotices(s: Session): nat {
    if !s.established then 0 else (if s.bidi.blockedSent then 0 else 1) + (if s.uni.blockedSent then 0 else 1)
  }

  /** No call and no capsule moves a session that is over, but open_stream if it counts as established. */
  lemma OverStep(s: Session, step: Step)
    requires s.terminated && (step.Do? || step.Take?)
    ensures var s' := Advance(s, step);
      && s'.terminated && s'.established == s.established && s'.events == s.events
      && (if step.Do? && step.call.OpenCall? && ReportsLimit(s, step.call.uni)
          then s'.emitted == s.emitted + [WtStreamsBlocked(!step.call.uni, Count(s, !step.call.uni).maxLocal)]
               && LastNotices(s') + 1 == LastNotices(s)
          else s'.emitted == s.emitted && LastNotices(s') == LastNotices(s))
    ensures !s.established ==> Advance(s, step) == s
  {
    if step.Do? && step.call.OpenCall? {
      OverOpens(s, step.call.uni);
    } else {
      OverElse(s, step);
    }
    hide Apply, Receive, LastNotices;
  }

  lemma OverOpens(s: Session, uni: bool)
    requires s.terminated
    ensures var s' := OpenStream(s, uni).0;
      && s'.terminated && s'.established == s.established && s'.events == s.events
      && (if ReportsLimit(s, uni)
          then s'.emitted == s.emitted + [WtStreamsBlocked(!uni, Count(s, !uni).maxLocal)]
               && LastNotices(s') + 1 == LastNotices(s)
          else s'.emitted == s.emitted && LastNotices(s') == LastNotices(s))
      && (!s.established ==> s' == s)
  {
    hide NewStream;
  }

  lemma OverElse(s: Session, step: Step)
    requires s.terminated && (step.Take? || (step.Do? && !step.call.OpenCall?))
    ensures Advance(s, step) == s
  {
    hide OpenStream, NewStream, Dispatch;
  }

  /**
   * Once a session is over no call and no capsule reports anything any more, and none queues anything;
   * but where it still counts as established, as `CloseBeforeResponse` leaves it, open_stream may yet
   * queue one WT_STREAMS_BLOCKED for each direction.
   */
  lemma {:induction false} OverIsQuiet(s: Session, steps: seq<Step>)
    requires s.terminated
    requires forall k :: 0 <= k < |steps| ==> steps[k].Do? || steps[k].Take?
    ensures var s' := Play(s, steps);
      && s'.events == s.events && s.emitted <= s'.emitted
      && |s'.emitted| <= |s.emitted| + LastNotices(s)
      && (forall k :: |s.emitted| <= k < |s'.emitted| ==> s'.emitted[k].WtStreamsBlocked?)
      && (!s.established ==> s' == s)
    decreases |steps|
  {
    if steps != [] {
      OverStep(s, steps[0]);
      hide Advance, LastNotices;
      OverIsQuiet(Advance(s, steps[0]), steps[1..]);
    }
  }

  // ---------- The hypotheses are exact ----------

  /** On a stream one may only receive on, a reset puts a capsule on the wire that the draft forbids. */
  lemma ResetMustFaceForward(s: Session, id: StreamId, code: ErrorCode)
    requires SendInv(s) && !s.terminated && id in s.streams && !SendDone(s.streams[id])
    ensures SendInv(ResetStream(s, id, code)) <==> ReceivableDataCapsule(id, !s.cfg.isServer)
    ensures !ReceivableDataCapsule(id, !s.cfg.isServer) ==>
              !Legal(SpeakerOf(s), MarkReset(s, id, code).emitted)
  {
    if ReceivableDataCapsule(id, !s.cfg.isServer) {
      hide SendInv;
      ResetStreamKeeps(s, id, code);
    } else {
      hide SendOk, SessionSendOk, StreamView, SessionTotals;
      var s1 := MarkReset(s, id, code);
      LegalSnoc(SpeakerOf(s), s.emitted, WtResetStream(id, code, s.streams[id].bytesSent));
      ReleaseFrame(s1, id);
      var e := MaybeRelease(s1, id).emitted;
      assert e[..|s1.emitted|] == s1.emitted;
      if Legal(SpeakerOf(s), e) { LegalPrefix(SpeakerOf(s), e, |s1.emitted|); }
    }
  }

  /** On a stream one may only send on, a stop puts a capsule on the wire that the draft forbids. */
  lemma StopMustFaceBack(s: Session, id: StreamId, code: ErrorCode)
    requires SendInv(s) && !s.terminated && id in s.streams && id !in s.sentStops
    ensures SendInv(StopSending(s, id, code)) <==> ReceivableFlowCapsule(id, !s.cfg.isServer)
    ensures !ReceivableFlowCapsule(id, !s.cfg.isServer) ==>
              !Legal(SpeakerOf(s), StopSending(s, id, code).emitted)
  {
    if ReceivableFlowCapsule(id, !s.cfg.isServer) {
      hide SendInv;
      StopSendingKeeps(s, id, code);
    } else {
      hide SendOk, SessionSendOk, StreamView, SessionTotals;
      LegalSnoc(SpeakerOf(s), s.emitted, WtStopSending(id, code));
    }
  }

  /**
   * Repeating the configured limits puts something on the wire that the draft forbids iff a limit
   * was raised before or WT_CLOSE_SESSION was queued before.
   */
  lemma AnnounceMustComeFirst(s: Session)
    requires SendInv(s) && ValidConfig(s.cfg)
    requires s.cfg.initData <= s.maxDataRemote
    requires s.cfg.initBidi <= s.bidi.maxRemote && s.cfg.initUni <= s.uni.maxRemote
    ensures Legal(SpeakerOf(s), Announce(s).emitted) <==> FreshLimits(s) && !SaidTotals(s).closed
  {
    hide SendOk, StreamView, Legal, SessionTotals;
    LimitsOnlyRise(SpeakerOf(s), s.emitted, SpeakerOf(s).limits);
  }

  /**
   * A client may close before the 2xx arrives. The response establishes the session all the
   * same, and what is announced then follows WT_CLOSE_SESSION; so does what open_stream reports when
   * the peer allows no stream.
   */
  lemma CloseBeforeResponse(cfg: Config, peer: Config, credit: PeerCredit, code: ErrorCode, message: seq<Byte>)
    requires ValidConfig(cfg) && ValidConfig(peer) && !cfg.isServer
    ensures var s := Play(NewSession(cfg, peer, false), [Do(Close(code, message)), Confirmation(credit), Announcement]);
      && s.established && s.terminated
      && |s.emitted| == 4 && s.emitted[0].WtCloseSession? && s.emitted[1] == WtMaxData(cfg.initData)
      && !Legal(SpeakerOf(s), s.emitted)
      && (peer.initBidi == 0 ==> OpenStream(s, false).0.emitted == s.emitted + [WtStreamsBlocked(true, 0)])
  {
    var s0 := NewSession(cfg, peer, false);
    var steps := [Do(Close(code, message)), Confirmation(credit), Announcement];
    var s1 := Advance(s0, steps[0]);
    var s2 := Advance(s1, Confirmation(credit));
    var s3 := Advance(s2, Announcement);
    assert steps[1..] == [Confirmation(credit), Announcement] && steps[1..][1..] == [Announcement];
    assert Play(s3, []) == s3;
    assert Play(s2, [Announcement]) == Play(s3, [Announcement][1..]);
    assert Play(s1, steps[1..]) == Play(s2, steps[1..][1..]);
    assert Play(s0, steps) == Play(s1, steps[1..]);
    assert s3.established && s3.bidi == s0.bidi;
    hide Play, Legal;
    if Legal(SpeakerOf(s3), s3.emitted) { CloseIsLast(SpeakerOf(s3), s3.emitted, 0); }
  }

  /** A stream ID of ours that the peer used first, finished on both sides, is handed out again by open_stream. */
  lemma MannersNeeded(s: Session, uni: bool)
    requires SendInv(s) && s.established && Count(s, !uni).next < Count(s, !uni).maxLocal
    requires NextId(s, uni) !in s.streams
    ensures OpenStream(s, uni).1 == Some(NextId(s, uni))
    ensures SendInv(OpenStream(s, uni).0) <==> NextId(s, uni) !in s.freed
  {
    var id := NextId(s, uni);
    if id in s.freed {
      assert !SendOk(OpenStream(s, uni).0, id) by { hide SendInv, StreamView; }
    } else {
      OpenStreamKeeps(s, uni);
    }
  }

  /** An empty send behind waiting data is queued, and it never leaves the queue again but by a reset. */
  lemma EmptyEntryNeverLeaves(s: Session, id: StreamId, fin: bool, steps: seq<Step>)
    requires EndpointInv(s) && AcceptsSend(s, id) && s.streams[id].pending != []
    requires FairRun(SendStreamData(s, id, [], fin), steps)
    ensures var s' := Play(SendStreamData(s, id, [], fin), steps);
            Said(s', id).ending != WasReset ==> HasEmpty(Unsent(s', id)) && Said(s', id).ending != Finished
  {
    hide Play, FairRun, Submitted, RosterInv, SendInv, SendStreamData;
    var s1 := SendStreamData(s, id, [], fin);
    var s' := Play(s1, steps);
    assert s1 == Apply(s, Send(id, [], fin));
    AdvanceKeeps(s, Do(Send(id, [], fin)), id);
    PlayKeeps(s1, steps, id);
    SendServes(s, id, [], fin, id);
    ReadyIsOpen(s, id);
    if Said(s1, id).ending == WasReset { NoResetBySend(s, id, fin); }
    if Said(s', id).ending != Open { EndedHasNoQueue(s', id); }
    hide StreamView, HasFin, EndpointInv;
  }

  lemma NoResetBySend(s: Session, id: StreamId, fin: bool)
    requires AcceptsSend(s, id) && s.streams[id].pending != []
    ensures Said(SendStreamData(s, id, [], fin), id) == Said(s, id)
  {
    hide StreamView;
  }

  lemma AdvanceGrows(s: Session, step: Step)
    ensures s.emitted <= Advance(s, step).emitted && Advance(s, step).cfg == s.cfg
  {
    hide Apply, Receive;
    match step
    case Do(call) => ApplyOnward(s, call);
    case Take(c) => ReceiveOnward(s, c);
    case _ =>
  }

  lemma {:induction false} PlayGrows(s: Session, steps: seq<Step>)
    ensures s.emitted <= Play(s, steps).emitted && Play(s, steps).cfg == s.cfg
    decreases |steps|
  {
    if steps != [] {
      AdvanceGrows(s, steps[0]);
      hide Advance;
      PlayGrows(Advance(s, steps[0]), steps[1..]);
    }
  }

  /** Once a stream was stopped, no later run of this end raises its credit again. */
  lemma StopFreezesCredit(s: Session, id: StreamId, steps: seq<Step>)
    requires EndpointInv(s) && FairRun(s, steps) && id in s.sentStops
    ensures Said(Play(s, steps), id).max == Said(s, id).max && Said(Play(s, steps), id).stopped
  {
    var s' := Play(s, steps);
    PlayKeeps(s, steps, id);
    PlayGrows(s, steps);
    assert SendOk(s, id);
    hide Play, FairRun, Submitted, SendOk, StreamView, SessionSendOk;
    assert s'.emitted[..|s.emitted|] == s.emitted;
    StreamGrows(SpeakerOf(s'), s'.emitted, |s.emitted|, id);
  }

  /**
   * Stopping a stream before anything was put on it is recorded as early, and whatever happens
   * later its credit stays what it was when it was opened.
   */
  lemma EarlyStop(s: Session, id: StreamId, code: ErrorCode, steps: seq<Step>)
    requires EndpointInv(s) && Proper(s, Stop(id, code)) && !s.terminated && id in s.streams && id !in s.sentStops
    requires !Said(s, id).begun && Said(s, id).max == s.cfg.initStreamData
    requires FairRun(StopSending(s, id, code), steps)
    ensures var s' := Play(StopSending(s, id, code), steps);
            Said(StopSending(s, id, code), id).early && Said(s', id).stopped && Said(s', id).max == s.cfg.initStreamData
  {
    hide Play, FairRun, EndpointInv, StreamView;
    var s1 := StopSending(s, id, code);
    StreamViewSnoc(s.cfg.initStreamData, s.emitted, WtStopSending(id, code), id);
    assert Advance(s, Do(Stop(id, code))) == s1;
    AdvanceKeeps(s, Do(Stop(id, code)), id);
    StopFreezesCredit(s1, id, steps);
  }
}
