/**
 * Answers die out. Every capsule is given a weight and every waiting byte a price, so that an
 * endpoint never pays more for a capsule it receives than that capsule weighed. Hence two
 * endpoints left to themselves come to rest, and all that was handed over has then arrived.
 */
module Settling {
  import opened Capsules
  import Utf8
  import opened Engine
  import opened Trace
  import opened Sending
  import opened Receiving
  import opened Dialogue
  import opened Endpoint
  import opened Queues
  import opened Conservation
  import opened Network
  import opened Delivery

  /** More than the answers that a capsule may draw, an error included. */
  function Weight(c: Capsule): nat {
    match c
    case WtStream(_, _, _) => 7
    case WtStopSending(_, _) => 6
    case WtResetStream(_, _, _) => 3
    case WtCloseSession(_, _) => 1
    case _ => 2
  }

  /** A byte that waits will be sent in a WT_STREAM, perhaps alone, and may finish its stream. */
  const PRICE: nat := 9

  function LogWeight(log: seq<Capsule>): nat {
    if log == [] then 0 else LogWeight(log[..|log| - 1]) + Weight(log[|log| - 1])
  }

  lemma LogWeightSnoc(log: seq<Capsule>, c: Capsule)
    ensures LogWeight(log + [c]) == LogWeight(log) + Weight(c)
  {
    assert (log + [c])[..|log|] == log;
  }

  lemma {:induction false} LogWeightGrows(part: seq<Capsule>, full: seq<Capsule>)
    requires part <= full
    ensures LogWeight(full) >= LogWeight(part) + (|full| - |part|)
    decreases |full|
  {
    if |part| < |full| { LogWeightGrows(part, full[..|full| - 1]); } else { assert part == full; }
  }

  // ---------- Bytes that wait ----------

  ghost function Backlog(m: map<StreamId, Stream>): nat
    decreases |m|
  {
    if forall id :: id !in m then 0
    else
      var id: StreamId :| id in m;
      |Bytes(m[id].pending)| + Backlog(m - {id})
  }

  function WaitingAt(m: map<StreamId, Stream>, id: StreamId): nat { if id in m then |Bytes(m[id].pending)| else 0 }

  lemma {:induction false} BacklogWithout(m: map<StreamId, Stream>, id: StreamId)
    requires id in m
    ensures Backlog(m) == |Bytes(m[id].pending)| + Backlog(m - {id})
    decreases |m|
  {
    var k: StreamId :| k in m && Backlog(m) == |Bytes(m[k].pending)| + Backlog(m - {k});
    if k != id {
      BacklogWithout(m - {k}, id);
      assert m - {k} - {id} == m - {id} - {k};
      BacklogWithout(m - {id}, k);
    }
  }

  lemma BacklogOf(m: map<StreamId, Stream>, id: StreamId)
    ensures Backlog(m) == WaitingAt(m, id) + Backlog(m - {id})
  {
    if id in m { BacklogWithout(m, id); } else { assert m - {id} == m; }
  }

  /** Changing one entry changes the backlog by as much. */
  lemma BacklogUpdate(m: map<StreamId, Stream>, m': map<StreamId, Stream>, id: StreamId)
    requires m' - {id} == m - {id}
    ensures Backlog(m') + WaitingAt(m, id) == Backlog(m) + WaitingAt(m', id)
  {
    BacklogOf(m, id);
    BacklogOf(m', id);
  }

  /** What the endpoint has caused and may still cause of its own. */
  ghost function Potential(s: Session): nat { LogWeight(s.emitted) + PRICE * Backlog(s.streams) }

  // ---------- Steps ----------

  /** A step that touches at most one entry, and queues at most one capsule. */
  lemma SilentCost(s: Session, s': Session, id: StreamId)
    requires s'.emitted == s.emitted && s'.streams - {id} == s.streams - {id}
    requires WaitingAt(s'.streams, id) <= WaitingAt(s.streams, id)
    ensures Potential(s') <= Potential(s)
  {
    BacklogUpdate(s.streams, s'.streams, id);
  }

  lemma EmitCost(s: Session, s': Session, c: Capsule, id: StreamId)
    requires s'.emitted == s.emitted + [c] && s'.streams - {id} == s.streams - {id}
    requires WaitingAt(s'.streams, id) <= WaitingAt(s.streams, id)
    ensures Potential(s') <= Potential(s) + Weight(c)
  {
    LogWeightSnoc(s.emitted, c);
    BacklogUpdate(s.streams, s'.streams, id);
  }

  const Nowhere := StreamId(0, false, false)

  lemma CloseCost(s: Session, code: ErrorCode, message: seq<Byte>)
    ensures Potential(CloseSession(s, code, message)) <= Potential(s) + 1
  {
    hide Potential;
    var s' := CloseSession(s, code, message);
    if s' != s { EmitCost(s, s', WtCloseSession(code, Utf8.Cut(message, MAX_MESSAGE)), Nowhere); }
  }

  lemma ReportCost(s: Session, code: ErrorCode)
    ensures Potential(ReportError(s, code)) <= Potential(s) + 1
    ensures Potential(ReportLimitError(s)) <= Potential(s) + 1
  {
    CloseCost(Push(s, Error(code)), code, []);
    CloseCost(s, WT_FLOW_CONTROL_ERROR, []);
  }

  lemma CreditCost(s: Session, id: StreamId)
    ensures Potential(MaybeSendMaxData(s)) <= Potential(s) + 2
    ensures Potential(MaybeSendMaxStreamData(s, id)) <= Potential(s) + 2
  {
    hide Potential, ShouldReplenish, Replenished;
    var s1 := MaybeSendMaxData(s);
    if s1 != s { EmitCost(s, s1, WtMaxData(s1.maxDataRemote), Nowhere); }
    var s2 := MaybeSendMaxStreamData(s, id);
    if s2 != s {
      assert s2.streams - {id} == s.streams - {id};
      EmitCost(s, s2, WtMaxStreamData(id, s2.streams[id].maxRemote), id);
    }
  }

  lemma ReleaseCost(s: Session, id: StreamId)
    ensures Potential(MaybeRelease(s, id)) <= Potential(s) + 2
  {
    hide Potential;
    if id in s.streams && Releasable(s.streams[id]) {
      var f := Forget(s, id);
      assert f.streams - {id} == s.streams - {id};
      SilentCost(s, f, id);
      var g := GrantStream(f, !s.streams[id].isUni);
      if g != f { EmitCost(f, g, WtMaxStreams(!s.streams[id].isUni, Count(f, !s.streams[id].isUni).maxRemote + 1), id); }
    }
  }

  /** Sending takes `n` bytes off the backlog for one WT_STREAM. */
  lemma SendCost(s: Session, s': Session, c: Capsule, id: StreamId, n: nat)
    requires s'.emitted == s.emitted + [c] && c.WtStream? && s'.streams - {id} == s.streams - {id}
    requires WaitingAt(s.streams, id) == n + WaitingAt(s'.streams, id) && n > 0
    ensures Potential(s') + 2 <= Potential(s)
  {
    LogWeightSnoc(s.emitted, c);
    BacklogUpdate(s.streams, s'.streams, id);
    hide LogWeight, Backlog, WaitingAt;
  }

  /** A chunk from the queue is paid for by its bytes. */
  lemma ChunkCost(s: Session, id: StreamId, data: seq<Byte>, fin: bool, rest: seq<PendingSend>)
    requires id in s.streams && data != []
    requires |Bytes(s.streams[id].pending)| == |data| + |Bytes(rest)|
    ensures Potential(SendChunk(SetPending(s, id, rest), id, data, fin)) + 2 <= Potential(s)
  {
    hide Potential, Bytes;
    var s' := SendChunk(SetPending(s, id, rest), id, data, fin);
    assert s'.streams - {id} == s.streams - {id};
    SendCost(s, s', WtStream(id, data, fin), id, |data|);
  }

  lemma {:induction false} DrainCost(s: Session, id: StreamId)
    ensures Potential(Drain(s, id)) <= Potential(s)
    decreases if id in s.streams then |s.streams[id].pending| else 0
  {
    if id in s.streams && s.streams[id].pending != [] {
      hide Potential, MaybeRelease, SendChunk;
      var p := s.streams[id].pending;
      var n := Sendable(s, s.streams[id], |p[0].data|);
      if 0 < n < |p[0].data| {
        var rest := [PendingSend(p[0].data[n..], p[0].fin)] + p[1..];
        SplitFront(p, n, rest);
        ChunkCost(s, id, p[0].data[..n], false, rest);
      } else if 0 < n {
        var s' := SendChunk(SetPending(s, id, p[1..]), id, p[0].data, p[0].fin);
        ChunkCost(s, id, p[0].data, p[0].fin, p[1..]);
        ReleaseCost(s', id);
        if !p[0].fin {
          WholeShape(s, id);
          DrainCost(s', id);
        }
      }
    }
  }

  lemma FlushOneCost(s: Session, id: StreamId)
    ensures Potential(FlushOne(s, id)) <= Potential(s)
  {
    if id in s.streams && SendDone(s.streams[id]) {
      assert SetPending(s, id, []).streams - {id} == s.streams - {id};
      SilentCost(s, SetPending(s, id, []), id);
    } else {
      DrainCost(s, id);
    }
    hide Potential;
  }

  lemma {:induction false} FlushPassCost(s: Session, ids: seq<StreamId>)
    ensures Potential(FlushPass(s, ids)) <= Potential(s)
    decreases |ids|
  {
    hide Potential, FlushOne;
    if ids != [] {
      FlushOneCost(s, ids[0]);
      FlushPassCost(FlushOne(s, ids[0]), ids[1..]);
    }
  }

  /** Flushing pays for itself. */
  lemma {:induction false} FlushCost(s: Session)
    ensures Potential(FlushPending(s)) <= Potential(s)
    decreases if s.bytesSent <= s.maxDataLocal then s.maxDataLocal - s.bytesSent else 0
  {
    hide Potential, FlushPass;
    if !s.terminated {
      var ids := SortedKeys(s.streams.Keys);
      FlushPassProgress(s, ids);
      FlushPassCost(s, ids);
      var s' := FlushPass(s, ids);
      if s'.bytesSent != s.bytesSent { FlushCost(s'); }
    }
  }

  lemma ResetCost(s: Session, id: StreamId, code: ErrorCode)
    ensures Potential(ResetStream(s, id, code)) <= Potential(s) + 5
  {
    hide Potential, MaybeRelease;
    if !s.terminated && id in s.streams && !SendDone(s.streams[id]) {
      var s1 := MarkReset(s, id, code);
      assert s1.streams - {id} == s.streams - {id};
      EmitCost(s, s1, WtResetStream(id, code, s.streams[id].bytesSent), id);
      ReleaseCost(s1, id);
    }
  }

  // ---------- Receiving ----------

  lemma CreateCost(s: Session, id: StreamId)
    requires id !in s.streams
    ensures Potential(Put(s, id, NewStream(s, id))) <= Potential(s)
  {
    hide Potential;
    assert Put(s, id, NewStream(s, id)).streams - {id} == s.streams - {id};
    SilentCost(s, Put(s, id, NewStream(s, id)), id);
  }

  lemma AcceptCost(s: Session, id: StreamId, data: seq<Byte>, fin: bool)
    requires id in s.streams
    ensures Potential(AcceptWtStream(s, id, data, fin)) <= Potential(s) + 6
  {
    hide Potential, MaybeRelease, MaybeSendMaxData, MaybeSendMaxStreamData, ReportError;
    ReportCost(s, WT_STREAM_STATE_ERROR);
    ReportCost(s, WT_FLOW_CONTROL_ERROR);
    var s1 := RecvChunk(s, id, data, fin);
    assert s1.streams - {id} == s.streams - {id};
    SilentCost(s, s1, id);
    CreditCost(s1, id);
    CreditCost(MaybeSendMaxData(s1), id);
    ReleaseCost(MaybeSendMaxStreamData(MaybeSendMaxData(s1), id), id);
  }

  lemma HandleWtStreamCost(s: Session, id: StreamId, data: seq<Byte>, fin: bool)
    ensures Potential(HandleWtStream(s, id, data, fin)) <= Potential(s) + 6
  {
    hide Potential, AcceptWtStream, ReportError, NewStream;
    ReportCost(s, WT_STREAM_STATE_ERROR);
    ReportCost(s, WT_FLOW_CONTROL_ERROR);
    if id in s.streams { AcceptCost(s, id, data, fin); }
    else {
      CreateCost(s, id);
      AcceptCost(Put(s, id, NewStream(s, id)), id, data, fin);
    }
  }

  lemma RecvResetCost(s: Session, id: StreamId, code: ErrorCode)
    requires id in s.streams
    ensures Potential(RecvReset(s, id, code)) <= Potential(s) + 2
  {
    hide Potential, MaybeRelease;
    var s1 := NoteReset(s, id, code);
    assert s1.streams - {id} == s.streams - {id};
    SilentCost(s, s1, id);
    ReleaseCost(s1, id);
  }

  lemma HandleWtResetStreamCost(s: Session, id: StreamId, code: ErrorCode, size: nat)
    ensures Potential(HandleWtResetStream(s, id, code, size)) <= Potential(s) + 2
  {
    hide Potential, RecvReset, ReportError, NewStream;
    ReportCost(s, WT_STREAM_STATE_ERROR);
    ReportCost(s, WT_FLOW_CONTROL_ERROR);
    if id in s.streams { RecvResetCost(s, id, code); }
    else {
      CreateCost(s, id);
      RecvResetCost(Put(s, id, NewStream(s, id)), id, code);
    }
  }

  lemma HandleWtStopSendingCost(s: Session, id: StreamId, code: ErrorCode)
    ensures Potential(HandleWtStopSending(s, id, code)) <= Potential(s) + 5
  {
    hide Potential, ResetStream, ReportError;
    ReportCost(s, WT_STREAM_STATE_ERROR);
    var s1 := NoteStop(s, id, code);
    assert s1.streams - {id} == s.streams - {id};
    SilentCost(s, s1, id);
    ResetCost(s1, id, code);
  }

  lemma HandleWtMaxDataCost(s: Session, max: nat)
    ensures Potential(HandleWtMaxData(s, max)) <= Potential(s) + 1
  {
    var s1 := s.(receivedMaxData := Some(max), maxDataLocal := max, dataBlockedSent := false);
    assert Potential(s1) == Potential(s) == Potential(s.(receivedMaxData := Some(max)));
    hide Potential, ReportLimitError, FlushPending;
    ReportCost(s, WT_FLOW_CONTROL_ERROR);
    FlushCost(s1);
  }

  lemma RaiseCost(s: Session, id: StreamId, max: nat)
    requires id in s.streams
    ensures Potential(FlushPending(Put(s, id, s.streams[id].(maxLocal := max, dataBlockedSent := false)))) <= Potential(s)
  {
    hide Potential, FlushPending;
    var s' := Put(s, id, s.streams[id].(maxLocal := max, dataBlockedSent := false));
    assert s'.streams - {id} == s.streams - {id};
    SilentCost(s, s', id);
    FlushCost(s');
  }

  lemma HandleWtMaxStreamDataCost(s: Session, id: StreamId, max: nat)
    ensures Potential(HandleWtMaxStreamData(s, id, max)) <= Potential(s) + 1
  {
    hide Potential, ReportError, ReportLimitError, FlushPending, PreviousMaxStreamData, HasReceivedStop, ReceivableFlowCapsule;
    var s1 := s.(receivedMaxStreamData := s.receivedMaxStreamData[id := max]);
    SameCost(s, s1);
    ReportCost(s, WT_STREAM_STATE_ERROR);
    if id in s.streams {
      RaiseCost(s, id, max);
      RaiseCost(s1, id, max);
    }
  }

  lemma SameCost(s: Session, s': Session)
    requires s'.emitted == s.emitted && s'.streams == s.streams
    ensures Potential(s') == Potential(s)
  {
  }

  lemma HandleRestCost(s: Session, c: Capsule)
    requires c.Datagram? || c.WtMaxStreams? || c.WtDataBlocked? || c.WtStreamDataBlocked? || c.WtStreamsBlocked?
          || c.WtCloseSession? || c.WtDrainSession?
    ensures Potential(Dispatch(s, c)) <= Potential(s) + (if c.WtCloseSession? then 0 else 1)
  {
    hide ReportError, ReportLimitError, LogWeight, Backlog;
    ReportCost(s, WT_STREAM_STATE_ERROR);
  }

  /** What an endpoint does about a capsule, from whatever peer, weighs less than the capsule. */
  lemma ReceiveCost(s: Session, c: Capsule)
    requires !s.terminated
    ensures Potential(Receive(s, c)) < Potential(s) + Weight(c)
  {
    var s1 := Heed(s, c);
    assert Potential(s1) == Potential(s);
    hide Potential, HandleWtStream, HandleWtResetStream, HandleWtStopSending, HandleWtMaxData, HandleWtMaxStreamData;
    match c
    case WtStream(id, data, fin) => HandleWtStreamCost(s1, id, data, fin);
    case WtResetStream(id, code, size) => HandleWtResetStreamCost(s1, id, code, size);
    case WtStopSending(id, code) => HandleWtStopSendingCost(s1, id, code);
    case WtMaxData(max) => HandleWtMaxDataCost(s1, max);
    case WtMaxStreamData(id, max) => HandleWtMaxStreamDataCost(s1, id, max);
    case _ => HandleRestCost(s1, c);
  }

  // ---------- Two ends left to themselves ----------

  /** What is under way and what may still be caused by it. */
  ghost function Unrest(n: Net): int {
    Potential(n.client) + Potential(n.server) - LogWeight(n.client.received) - LogWeight(n.server.received)
  }

  predicate IsDelivery(a: Action) { a.ToClient? || a.ToServer? }

  lemma DeliveryCalms(n: Net, a: Action)
    requires Enabled(n, a) && IsDelivery(a)
    ensures Unrest(StepNet(n, a)) < Unrest(n)
  {
    hide Potential, Receive;
    match a
    case ToClient =>
      var c := n.server.emitted[|n.client.received|];
      ReceiveCost(n.client, c);
      ReceiveOnward(n.client, c);
      LogWeightSnoc(n.client.received, c);
    case ToServer =>
      var c := n.client.emitted[|n.server.received|];
      ReceiveCost(n.server, c);
      ReceiveOnward(n.server, c);
      LogWeightSnoc(n.server.received, c);
  }

  lemma UnrestIsNatural(n: Net)
    requires Coherent(n)
    ensures Unrest(n) >= 0
  {
    LogWeightGrows(n.client.received, n.server.emitted);
    LogWeightGrows(n.server.received, n.client.emitted);
    hide Inv, LogWeight, Backlog;
  }

  lemma UnrestIsPositive(n: Net)
    requires NetInv(n)
    ensures Unrest(n) >= 0
  {
    hide Coherent, NoErrors, Unrest;
    UnrestIsNatural(n);
  }

  predicate Deliveries(actions: seq<Action>) { forall k :: 0 <= k < |actions| ==> IsDelivery(actions[k]) }

  /** However deliveries are interleaved, they come to an end. */
  lemma {:induction false} DeliveriesEnd(n0: Net, actions: seq<Action>, n: Net)
    requires NetInv(n0) && Run(n0, actions, n) && Deliveries(actions)
    ensures |actions| <= Unrest(n0)
    decreases |actions|
  {
    hide NetInv, StepNet, Enabled, Unrest;
    UnrestIsPositive(n0);
    if actions != [] {
      DeliveryCalms(n0, actions[0]);
      StepNetInv(n0, actions[0]);
      DeliveriesEnd(StepNet(n0, actions[0]), actions[1..], n);
    }
  }

  predicate Up(n: Net) { n.accepted && !n.client.terminated && !n.server.terminated }

  lemma DeliveryKeepsUp(n: Net, a: Action)
    requires NetInv(n) && Up(n) && Enabled(n, a) && IsDelivery(a)
    ensures Up(StepNet(n, a)) && NetInv(StepNet(n, a))
  {
    StepEnds(n, a);
    StepNetInv(n, a);
    hide NetInv, Receive;
  }

  /** Deliveries alone bring the network to rest. */
  lemma {:induction false} ComesToRest(n: Net) returns (actions: seq<Action>, rest: Net)
    requires NetInv(n) && Up(n)
    ensures Deliveries(actions) && Run(n, actions, rest) && Quiescent(rest)
    decreases Unrest(n)
  {
    UnrestIsPositive(n);
    if |n.client.received| < |n.server.emitted| {
      actions, rest := AfterDelivery(n, ToClient);
    } else if |n.server.received| < |n.client.emitted| {
      actions, rest := AfterDelivery(n, ToServer);
    } else {
      actions, rest := [], n;
    }
  }

  lemma {:induction false} AfterDelivery(n: Net, a: Action) returns (actions: seq<Action>, rest: Net)
    requires NetInv(n) && Up(n) && Enabled(n, a) && IsDelivery(a)
    ensures Deliveries(actions) && Run(n, actions, rest) && Quiescent(rest)
    decreases Unrest(n), 0
  {
    hide NetInv, StepNet, Enabled, Unrest, Up, Quiescent;
    UnrestIsPositive(n);
    DeliveryCalms(n, a);
    DeliveryKeepsUp(n, a);
    UnrestIsPositive(StepNet(n, a));
    var more, r := ComesToRest(StepNet(n, a));
    actions, rest := [a] + more, r;
    assert actions[1..] == more;
  }

  // ---------- Everything gets through ----------

  /** Deliveries hand nothing over. */
  lemma {:induction false} DeliveriesHandNothing(n0: Net, a: seq<Action>, n: Net, b: seq<Action>, n': Net, server: bool, id: StreamId)
    requires Run(n0, a, n) && Run(n, b, n') && Deliveries(b)
    ensures HandedInAll(n0, a + b, server, id) == HandedInAll(n0, a, server, id)
    decreases |a| + |b|
  {
    hide StepNet, Enabled, Accepted;
    if a != [] {
      assert (a + b)[1..] == a[1..] + b;
      DeliveriesHandNothing(StepNet(n0, a[0]), a[1..], n, b, n', server, id);
    } else if b != [] {
      assert a + b == b && [] + b[1..] == b[1..];
      DeliveriesHandNothing(StepNet(n, b[0]), [], StepNet(n, b[0]), b[1..], n', server, id);
      NoExtraIsNeutral(NoExtra);
    } else {
      assert a + b == [];
    }
  }

  lemma {:induction false} DeliveriesKeepUp(n: Net, more: seq<Action>, rest: Net)
    requires NetInv(n) && Up(n) && Run(n, more, rest) && Deliveries(more)
    ensures Up(rest)
    decreases |more|
  {
    hide NetInv, StepNet, Enabled, Up;
    if more != [] {
      DeliveryKeepsUp(n, more[0]);
      DeliveriesKeepUp(StepNet(n, more[0]), more[1..], rest);
    }
  }

  /** Nothing can be delivered any more: then there is nothing left to deliver. */
  lemma Exhausted(rest: Net)
    requires NetInv(rest) && Up(rest) && !Enabled(rest, ToClient) && !Enabled(rest, ToServer)
    ensures Quiescent(rest)
  {
    hide Inv, NoErrors;
  }

  /**
   * Liveness. Take any run in which both ends are up, and from there on any deliveries, in any
   * order, until none is possible any more. There are at most `Unrest(n)` of them; and then every
   * stream that was not reset has delivered all that had been handed over, and its FIN, iff no
   * empty send had been queued behind waiting data and a stream stopped before its use fits its
   * first window.
   */
  lemma EverythingGetsThrough(c: Config, s: Config, actions: seq<Action>, n: Net, more: seq<Action>, rest: Net, from: bool, id: StreamId)
    requires ValidConfig(c) && ValidConfig(s) && !c.isServer && s.isServer
    requires Run(InitialNet(c, s), actions, n) && Up(n)
    requires Deliveries(more) && Run(n, more, rest) && !Enabled(rest, ToClient) && !Enabled(rest, ToServer)
    ensures |more| <= Unrest(n) && Quiescent(rest)
    ensures var x := End(rest, from); var y := End(rest, !from); var e := HandedInAll(InitialNet(c, s), actions, from, id);
      y.cfg.initData > 0 && y.cfg.initStreamData > 0 && y.bytesReceived < MAX_VARINT && Said(x, id).ending != WasReset ==>
        && (Unsent(x, id) == [] <==> Flows(e, y, id))
        && (Flows(e, y, id) ==> Delivered(y.events, id) == e.data && (e.fin <==> Heard(y, id).ending == Finished))
  {
    hide NetInv, Run, InitialNet, Unrest, Deliveries, Quiescent, HandedInAll, Flows, Up, QueueOf, Enabled;
    InitialNetInv(c, s);
    RunKeepsInv(InitialNet(c, s), actions, n);
    RunKeepsInv(n, more, rest);
    DeliveriesEnd(n, more, rest);
    DeliveriesKeepUp(n, more, rest);
    Exhausted(rest);
    RunsJoin(InitialNet(c, s), actions, n, more, rest);
    DeliveriesHandNothing(InitialNet(c, s), actions, n, more, rest, from, id);
    var x, y := End(rest, from), End(rest, !from);
    if y.cfg.initData > 0 && y.cfg.initStreamData > 0 && y.bytesReceived < MAX_VARINT && Said(x, id).ending != WasReset {
      EverythingArrives(c, s, actions + more, rest, from, id);
    }
  }
}
