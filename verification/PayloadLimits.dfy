/**
 * When two endpoints joined by bytes raise no error: the exact condition on what they queue,
 * and a condition on configuration and calls, every part of which is needed.
 */
module PayloadLimits {
  import opened Capsules
  import Utf8
  import opened Codec
  import opened Channel
  import opened Engine
  import opened Trace
  import opened Sending
  import opened Receiving
  import opened Endpoint
  import opened Queues
  import opened Bounds
  import opened Network
  import opened Delivery
  import opened Inputs
  import opened Reader
  import opened Settling
  import opened ByteNetwork

  // ---------- When no payload is too long ----------

  /** One end does not close the session itself. */
  predicate LeavesOpen(moves: seq<Move>, server: bool) {
    forall k :: 0 <= k < |moves| ==> !(moves[k].Makes? && moves[k].server == server && moves[k].call.Close?)
  }

  /** Then it is over only after an error, or because the other end closed it. */
  ghost predicate EndedByOther(y: Session) { y.terminated && NoErrors(y.events) ==> WasClosed(y) }

  lemma MoveLeavesOpen(w: Wired, m: Move, server: bool)
    requires ByteInv(w) && CanMove(w, m) && !(m.Makes? && m.server == server && m.call.Close?)
    requires EndedByOther(End(w.net, server))
    ensures EndedByOther(End(MoveOn(w, m).net, server))
  {
    hide ByteInv, NoErrors, Apply, Enabled, ReadOnce, Wires;
    match m
    case Makes(at, call) => ApplyOnward(End(w.net, at), call);
    case Accepts =>
    case Reads(at, count) =>
      var actions, rest := ReadsRun(w, at, count);
      ReadOnceIs(w, at, count);
  }

  lemma {:induction false} MovesLeaveOpen(w0: Wired, moves: seq<Move>, w: Wired, server: bool)
    requires ByteInv(w0) && Moves(w0, moves, w) && LeavesOpen(moves, server) && EndedByOther(End(w0.net, server))
    ensures EndedByOther(End(w.net, server))
    decreases |moves|
  {
    hide ByteInv, MoveOn, CanMove, EndedByOther;
    if moves != [] {
      MoveLeavesOpen(w0, moves[0], server);
      MoveKeeps(w0, moves[0]);
      MovesLeaveOpen(MoveOn(w0, moves[0]), moves[1..], w, server);
    }
  }

  /** The end, if it is up, has read all there is to read. */
  predicate ReadAll(w: Wired, server: bool) {
    !End(w.net, server).terminated ==>
      var log := End(w.net, !server).emitted;
      AllWritable(log) && PortAt(w, server).fed == |Wires(log)|
  }

  /** Everything queued for `y` is within the payload limit. */
  predicate AllWithin(log: seq<Capsule>, limit: nat) { forall k :: 0 <= k < |log| ==> Fits(log[k], limit) }

  /** An end that is up and has read everything has dispatched everything. */
  lemma ReadIsDispatched(x: Session, y: Session, p: Port)
    requires PortOk(x, y, p) && !y.terminated && y.received <= x.emitted && p.fed == |Wires(x.emitted)|
    ensures y.received == x.emitted && AllWithin(x.emitted, p.limit)
  {
    hide Unpack, Wires, Fits, Writable, Overrun, NoErrors, Header;
    FrontOfWire(x, y, p.buffer, p.limit);
    if |y.received| < |x.emitted| {
      var c := x.emitted[|y.received|];
      NextOnWire(y.received, x.emitted);
      WholeIsRead(Wires(y.received), Wires(x.emitted), c, p.buffer, p.limit);
    }
  }

  lemma WholeIsRead(w: seq<Byte>, whole: seq<Byte>, c: Capsule, b: seq<Byte>, limit: nat)
    requires Writable(c) && w + Wire(c) <= whole && w + b == whole
    ensures !Unpack(b, limit).Incomplete?
  {
    var tail := whole[|w| + |Wire(c)|..];
    assert b == whole[|w|..] && whole[|w|..] == Wire(c) + tail;
    UnpackInverts(TypeCode(c), Payload(c), tail, limit);
  }

  /** A session that the other end closed was read to the end. */
  lemma ClosedIsRead(x: Session, y: Session, p: Port)
    requires PortOk(x, y, p) && y.received == x.emitted
    ensures AllWithin(x.emitted, p.limit)
  {
    hide Fits, Overrun, NoErrors;
  }

  /**
   * Once an end has read all there is to read it has raised no error iff every capsule queued for
   * it is within its payload limit; a call of close_session at this end aside, which may end the
   * session with the capsule unread.
   */
  lemma ErrorFree(c: Config, s: Config, clientLimit: nat, serverLimit: nat, moves: seq<Move>, w: Wired, server: bool)
    requires ValidConfig(c) && ValidConfig(s) && !c.isServer && s.isServer
    requires Moves(InitialWired(c, s, clientLimit, serverLimit), moves, w) && LeavesOpen(moves, server) && ReadAll(w, server)
    ensures NoErrors(End(w.net, server).events)
       <==> AllWithin(End(w.net, !server).emitted, PortAt(w, server).limit)
  {
    var w0 := InitialWired(c, s, clientLimit, serverLimit);
    InitialByteInv(c, s, clientLimit, serverLimit);
    assert !End(w0.net, server).terminated;
    hide ByteInv, Sound, NoErrors, Moves, Fits, Writable, InitialWired, AllWithin, PortOk, LeavesOpen, WasClosed;
    MovesKeep(w0, moves, w);
    MovesLeaveOpen(w0, moves, w, server);
    AtPort(w, server);
    ErrorFreeAt(w.net, server, PortAt(w, server));
  }

  lemma ErrorFreeAt(n: Net, server: bool, p: Port)
    requires Sound(n) && PortOk(End(n, !server), End(n, server), p) && EndedByOther(End(n, server))
    requires !End(n, server).terminated ==> AllWritable(End(n, !server).emitted) && p.fed == |Wires(End(n, !server).emitted)|
    ensures NoErrors(End(n, server).events) <==> AllWithin(End(n, !server).emitted, p.limit)
  {
    hide Sound, Inv, NoErrors, AllWithin, PortOk, WasClosed, Wires, Hears, Modest, AllFit, BandInv;
    var x, y := End(n, !server), End(n, server);
    if NoErrors(y.events) {
      if y.terminated {
        Ends(n, server);
        CloseWasLast(x, y);
        ClosedIsRead(x, y, p);
      } else {
        HeardPrefix(n, server);
        ReadIsDispatched(x, y, p);
      }
    }
    if AllWithin(x.emitted, p.limit) { WithinIsNoError(x, y, p); }
  }

  lemma WithinIsNoError(x: Session, y: Session, p: Port)
    requires PortOk(x, y, p) && AllWithin(x.emitted, p.limit)
    ensures NoErrors(y.events)
  {
    hide NoErrors, Fits, Unpack, Wires, Header;
  }

  // ---------- Everything arrives, over bytes too ----------

  /** An end that is up has raised no error, and if it has read everything it has dispatched everything. */
  lemma UpAndRead(w: Wired, server: bool)
    requires ByteInv(w) && !End(w.net, server).terminated && ReadAll(w, server)
    ensures NoErrors(End(w.net, server).events) && End(w.net, server).received == End(w.net, !server).emitted
  {
    hide ByteInv, Sound, Overrun, Fits, Writable, NoErrors, Wires, Unpack;
    AtPort(w, server);
    HeardPrefix(w.net, server);
    ReadIsDispatched(End(w.net, !server), End(w.net, server), PortAt(w, server));
  }

  /** `Delivery.EverythingArrives` for ends that are up and have read all bytes, however these were cut. */
  lemma BytesArrive(c: Config, s: Config, clientLimit: nat, serverLimit: nat, moves: seq<Move>, w: Wired, from: bool, id: StreamId)
    returns (actions: seq<Action>)
    requires ValidConfig(c) && ValidConfig(s) && !c.isServer && s.isServer
    requires Moves(InitialWired(c, s, clientLimit, serverLimit), moves, w) && Up(w.net) && ReadAll(w, true) && ReadAll(w, false)
    requires End(w.net, !from).cfg.initData > 0 && End(w.net, !from).cfg.initStreamData > 0
    requires End(w.net, !from).bytesReceived < MAX_VARINT
    requires Said(End(w.net, from), id).ending != WasReset
    ensures Run(InitialNet(c, s), actions, w.net) && CallsIn(actions) == CallsMade(moves) && Quiescent(w.net)
    ensures var x := End(w.net, from); var y := End(w.net, !from); var e := HandedInAll(InitialNet(c, s), actions, from, id);
      && (Unsent(x, id) == [] <==> Flows(e, y, id))
      && (Flows(e, y, id) ==> Delivered(y.events, id) == e.data && (e.fin <==> Heard(y, id).ending == Finished))
  {
    hide ByteInv, Moves, NoErrors, Run, InitialNet, ReadAll, Flows, HandedInAll, StreamView, Delivered;
    var w0 := InitialWired(c, s, clientLimit, serverLimit);
    InitialByteInv(c, s, clientLimit, serverLimit);
    MovesKeep(w0, moves, w);
    UpAndRead(w, true);
    UpAndRead(w, false);
    assert forall server :: End(w.net, server) == if server then w.net.server else w.net.client;
    actions := RunsAlike(w0, moves, w);
    EverythingArrives(c, s, actions, w.net, from, id);
  }

  // ---------- A condition on configuration and calls ----------

  /** What one end may be asked to send to an end with these windows and this payload limit. */
  predicate CallWithin(call: Call, cfg: Config, limit: nat) {
    && (call.Send? ==> IdLength(call.id) + Min(|call.data|, Window(cfg)) <= limit)
    && (call.SendDgram? ==> |call.payload| <= limit)
    && (call.Close? ==> 4 + |Utf8.Cut(call.message, MAX_MESSAGE)| <= limit)
  }

  /** Every call of one end is within what the other end, configured like this, takes. */
  predicate CallsWithin(moves: seq<Move>, server: bool, cfg: Config, limit: nat) {
    forall k :: 0 <= k < |moves| && moves[k].Makes? && moves[k].server == server ==> CallWithin(moves[k].call, cfg, limit)
  }

  /** The capsules without data, text or datagram take no more. */
  const SMALLEST_LIMIT: nat := 24

  /** The sizes that such calls keep to. */
  function Share(cfg: Config, limit: nat): Sizes {
    Sizes(id => if IdLength(id) + Window(cfg) <= limit then MAX_INPUT else if IdLength(id) <= limit then limit - IdLength(id) else 0,
          limit, if 4 <= limit then limit - 4 else 0)
  }

  predicate MovesFit(moves: seq<Move>, server: bool, z: Sizes) {
    forall k :: 0 <= k < |moves| && moves[k].Makes? && moves[k].server == server ==> CallFits(moves[k].call, z)
  }

  lemma {:induction false} ProcessModest(r: Rx, limit: nat, z: Sizes)
    requires Modest(r.s, z)
    ensures Modest(Process(r, limit).s, z)
    decreases |r.buffer|
  {
    hide Modest, Receive, Unpack, ReportError, Codec.Read;
    ReportModest(r.s, WT_ERROR, z);
    if !r.s.terminated && Unpack(r.buffer, limit).Unit? {
      var u := Unpack(r.buffer, limit);
      if Codec.Read(u.t, u.payload).Got? { ReceiveModest(r.s, Codec.Read(u.t, u.payload).c, z); }
      SilentModest(r.s, Abort(r.s), z);
      ProcessModest(Rx(Obey(r.s, u.t, u.payload), u.rest), limit, z);
    }
  }

  lemma MoveModest(w: Wired, m: Move, server: bool, z: Sizes)
    requires CanMove(w, m) && (m.Makes? && m.server == server ==> CallFits(m.call, z)) && Modest(End(w.net, server), z)
    ensures Modest(End(MoveOn(w, m).net, server), z)
  {
    hide Modest, StepNet, Enabled, ReadOnce, Fresh, Ahead, Process;
    match m
    case Reads(at, count) =>
      ReadOnceIs(w, at, count);
      if at == server { ProcessModest(Rx(End(w.net, at), Fresh(w, at, count)), PortAt(w, at).limit, z); }
    case _ => StepModest(w.net, ActionOf(m), server, z);
  }

  lemma {:induction false} MovesModest(w0: Wired, moves: seq<Move>, w: Wired, server: bool, z: Sizes)
    requires Moves(w0, moves, w) && MovesFit(moves, server, z) && Modest(End(w0.net, server), z)
    ensures Modest(End(w.net, server), z)
    decreases |moves|
  {
    hide Modest, MoveOn, CanMove;
    if moves != [] {
      MoveModest(w0, moves[0], server, z);
      MovesModest(MoveOn(w0, moves[0]), moves[1..], w, server, z);
    }
  }

  /** Every call that is made is one that takes effect. */
  lemma {:induction false} MadeIsAccepted(w0: Wired, moves: seq<Move>, w: Wired, k: nat)
    requires Moves(w0, moves, w) && k < |moves| && moves[k].Makes?
    ensures CallFits(moves[k].call, Anything)
    decreases |moves|
  {
    hide MoveOn, CallFits;
    if k > 0 {
      hide CanMove;
      MadeIsAccepted(MoveOn(w0, moves[0]), moves[1..], w, k - 1);
    }
  }

  /** Calls within the limit keep to their share. */
  lemma WithinIsShare(w0: Wired, moves: seq<Move>, w: Wired, server: bool, cfg: Config, limit: nat)
    requires Moves(w0, moves, w) && CallsWithin(moves, server, cfg, limit)
    ensures MovesFit(moves, server, Share(cfg, limit))
  {
    hide Moves, IdLength, Window, Utf8.Cut;
    forall k | 0 <= k < |moves| && moves[k].Makes? && moves[k].server == server
      ensures CallFits(moves[k].call, Share(cfg, limit))
    {
      MadeIsAccepted(w0, moves, w, k);
      assert CallWithin(moves[k].call, cfg, limit);
    }
  }

  lemma ShareSuffices(x: Session, y: Session, limit: nat)
    requires Inv(x) && Inv(y) && Hears(x, y) && Hears(y, x)
    requires Modest(x, Anything) && Modest(x, Share(y.cfg, limit)) && AllFit(x.emitted, Window(y.cfg))
    requires SMALLEST_LIMIT <= limit
    ensures AllWithin(x.emitted, limit)
  {
    hide Inv, Hears, Payload, Encodable, IdLength, Window;
    forall k | 0 <= k < |x.emitted| ensures Fits(x.emitted[k], limit) {
      var c := x.emitted[k];
      QueuedIsWritable(x, y, k);
      PayloadLength(c);
      assert Small(c, Share(y.cfg, limit));
    }
  }

  lemma ShareAtEnd(c: Config, s: Config, clientLimit: nat, serverLimit: nat, moves: seq<Move>, w: Wired, server: bool)
    requires ValidConfig(c) && ValidConfig(s) && !c.isServer && s.isServer
    requires Moves(InitialWired(c, s, clientLimit, serverLimit), moves, w)
    requires SMALLEST_LIMIT <= PortAt(w, server).limit
    requires CallsWithin(moves, !server, End(w.net, server).cfg, PortAt(w, server).limit)
    ensures NoErrors(End(w.net, server).events)
  {
    var w0 := InitialWired(c, s, clientLimit, serverLimit);
    var x, y, p := End(w.net, !server), End(w.net, server), PortAt(w, server);
    StartModest(c, s, Share(y.cfg, p.limit));
    InitialByteInv(c, s, clientLimit, serverLimit);
    assert Modest(End(w0.net, !server), Share(y.cfg, p.limit));
    hide ByteInv, Sound, Moves, PortOk, NoErrors, Inv, Hears, BandInv, Modest, AllFit, AllWithin, InitialWired, Share, CallsWithin, MovesFit;
    MovesKeep(w0, moves, w);
    WithinIsShare(w0, moves, w, !server, y.cfg, p.limit);
    MovesModest(w0, moves, w, !server, Share(y.cfg, p.limit));
    AtPort(w, server);
    Ends(w.net, server);
    ShareSuffices(x, y, p.limit);
    WithinIsNoError(x, y, p);
  }

  /**
   * No false errors over bytes, on a condition to check before each call: the stream ID and the data,
   * of which no capsule carries more than the receiver's windows, the datagram, or the closing message
   * fit the receiver's payload limit, and that limit has room for the capsules that carry neither. Then
   * no run whatsoever raises an error, and what it does is what some run over capsules does with the
   * same calls. Everything proved of those holds of it.
   */
  lemma NoErrorWithin(c: Config, s: Config, clientLimit: nat, serverLimit: nat, moves: seq<Move>, w: Wired)
    returns (actions: seq<Action>)
    requires ValidConfig(c) && ValidConfig(s) && !c.isServer && s.isServer
    requires SMALLEST_LIMIT <= clientLimit && SMALLEST_LIMIT <= serverLimit
    requires Moves(InitialWired(c, s, clientLimit, serverLimit), moves, w)
    requires CallsWithin(moves, false, s, serverLimit) && CallsWithin(moves, true, c, clientLimit)
    ensures NoErrors(w.net.client.events) && NoErrors(w.net.server.events)
    ensures Run(InitialNet(c, s), actions, w.net) && CallsIn(actions) == CallsMade(moves)
  {
    var w0 := InitialWired(c, s, clientLimit, serverLimit);
    LimitsStay(w0, moves, w);
    ConfigsStay(w0, moves, w);
    InitialByteInv(c, s, clientLimit, serverLimit);
    assert w.net.client.cfg == c && w.net.server.cfg == s;
    hide ByteInv, Moves, NoErrors, CallsWithin;
    ShareAtEnd(c, s, clientLimit, serverLimit, moves, w, true);
    ShareAtEnd(c, s, clientLimit, serverLimit, moves, w, false);
    assert forall server :: End(w.net, server) == if server then w.net.server else w.net.client;
    actions := RunsAlike(w0, moves, w);
  }

  const DEFAULT_LIMIT: nat := 0x10_0000

  /** With the default payload limit, no application whatever makes windows below it fail. */
  lemma DefaultsSuffice(c: Config, s: Config, moves: seq<Move>, w: Wired)
    requires ValidConfig(c) && ValidConfig(s) && !c.isServer && s.isServer
    requires Window(c) <= DEFAULT_LIMIT - 8 && Window(s) <= DEFAULT_LIMIT - 8
    requires Moves(InitialWired(c, s, DEFAULT_LIMIT, DEFAULT_LIMIT), moves, w)
    ensures NoErrors(w.net.client.events) && NoErrors(w.net.server.events)
  {
    hide InitialWired, NoErrors;
    DefaultIsWithin(InitialWired(c, s, DEFAULT_LIMIT, DEFAULT_LIMIT), moves, w, false, s);
    DefaultIsWithin(InitialWired(c, s, DEFAULT_LIMIT, DEFAULT_LIMIT), moves, w, true, c);
    hide Moves, CallsWithin;
    var actions := NoErrorWithin(c, s, DEFAULT_LIMIT, DEFAULT_LIMIT, moves, w);
  }

  lemma DefaultIsWithin(w0: Wired, moves: seq<Move>, w: Wired, server: bool, cfg: Config)
    requires Moves(w0, moves, w) && Window(cfg) <= DEFAULT_LIMIT - 8
    ensures CallsWithin(moves, server, cfg, DEFAULT_LIMIT)
  {
    hide Moves, IdLength, Window, Utf8.Cut;
    forall k | 0 <= k < |moves| && moves[k].Makes? && moves[k].server == server
      ensures CallWithin(moves[k].call, cfg, DEFAULT_LIMIT)
    {
      MadeIsAccepted(w0, moves, w, k);
    }
  }

  lemma MoveConfigs(w: Wired, m: Move, server: bool)
    requires CanMove(w, m)
    ensures End(MoveOn(w, m).net, server).cfg == End(w.net, server).cfg
  {
    hide Apply, ReadOnce, Fresh, Ahead, Process;
    match m
    case Makes(at, call) => ApplyOnward(End(w.net, at), call);
    case Accepts =>
    case Reads(at, count) =>
      ReadOnceIs(w, at, count);
      ProcessOnward(Rx(End(w.net, at), Fresh(w, at, count)), PortAt(w, at).limit);
  }

  lemma {:induction false} ConfigsStay(w0: Wired, moves: seq<Move>, w: Wired)
    requires Moves(w0, moves, w)
    ensures w.net.client.cfg == w0.net.client.cfg && w.net.server.cfg == w0.net.server.cfg
    decreases |moves|
  {
    hide MoveOn, CanMove;
    if moves != [] {
      MoveConfigs(w0, moves[0], false);
      MoveConfigs(w0, moves[0], true);
      ConfigsStay(MoveOn(w0, moves[0]), moves[1..], w);
    }
  }

  // ---------- Each part of the condition is needed ----------

  lemma {:induction false} MovesSnoc(w0: Wired, moves: seq<Move>, w: Wired, m: Move)
    requires Moves(w0, moves, w) && CanMove(w, m)
    ensures Moves(w0, moves + [m], MoveOn(w, m))
    decreases |moves|
  {
    hide CanMove, MoveOn;
    if moves == [] {
      assert Moves(MoveOn(w, m), [m][1..], MoveOn(w, m));
    } else {
      assert (moves + [m])[1..] == moves[1..] + [m];
      MovesSnoc(MoveOn(w0, moves[0]), moves[1..], w, m);
    }
  }

  /** The server reads whatever there is. */
  lemma ServerReads(w: Wired) returns (m: Move)
    requires ByteInv(w) && !w.net.server.terminated
    ensures CanMove(w, m) && m.Reads? && ReadAll(MoveOn(w, m), true)
    ensures MoveOn(w, m).net.client == w.net.client
  {
    hide ByteInv, Sound, ReadOnce, Fresh, Ahead, Process, Wires, PortOk;
    AtPort(w, true);
    NowWritable(w.net, false);
    PortIsBehind(w.net.client, w.net.server, w.server);
    m := Reads(true, |Wires(w.net.client.emitted)| - w.server.fed);
    ReadOnceIs(w, true, m.count);
  }

  lemma PortIsBehind(x: Session, y: Session, p: Port)
    requires PortOk(x, y, p)
    ensures AllWritable(x.emitted) && p.fed <= |Wires(x.emitted)|
  {
    hide Overrun, Fits, Writable, NoErrors;
  }

  /** Whatever the client has queued over the server's limit makes the server raise an error once it reads it. */
  lemma ReadingFails(c: Config, s: Config, clientLimit: nat, serverLimit: nat, before: seq<Move>, v: Wired, k: nat)
    returns (moves: seq<Move>, w: Wired)
    requires ValidConfig(c) && ValidConfig(s) && !c.isServer && s.isServer
    requires Moves(InitialWired(c, s, clientLimit, serverLimit), before, v) && LeavesOpen(before, true)
    requires !v.net.server.terminated
    requires k < |v.net.client.emitted| && !Fits(v.net.client.emitted[k], serverLimit)
    ensures Moves(InitialWired(c, s, clientLimit, serverLimit), moves, w)
    ensures !NoErrors(w.net.server.events) && w.net.client == v.net.client
  {
    var w0 := InitialWired(c, s, clientLimit, serverLimit);
    InitialByteInv(c, s, clientLimit, serverLimit);
    MovesKeep(w0, before, v);
    hide ByteInv, Moves, MoveOn, CanMove, NoErrors, ReadAll, Fits, InitialWired;
    var last := ServerReads(v);
    MovesSnoc(w0, before, v, last);
    moves, w := before + [last], MoveOn(v, last);
    OpenSnoc(before, last);
    ReadIsFailure(c, s, clientLimit, serverLimit, moves, w, k);
  }

  lemma OpenSnoc(moves: seq<Move>, m: Move)
    requires LeavesOpen(moves, true) && m.Reads?
    ensures LeavesOpen(moves + [m], true)
  {
  }

  lemma ReadIsFailure(c: Config, s: Config, clientLimit: nat, serverLimit: nat, moves: seq<Move>, w: Wired, k: nat)
    requires ValidConfig(c) && ValidConfig(s) && !c.isServer && s.isServer
    requires Moves(InitialWired(c, s, clientLimit, serverLimit), moves, w) && LeavesOpen(moves, true) && ReadAll(w, true)
    requires k < |w.net.client.emitted| && !Fits(w.net.client.emitted[k], serverLimit)
    ensures !NoErrors(w.net.server.events)
  {
    hide Moves, NoErrors, ReadAll, Fits, LeavesOpen;
    LimitsStay(InitialWired(c, s, clientLimit, serverLimit), moves, w);
    ErrorFree(c, s, clientLimit, serverLimit, moves, w, true);
  }

  /** Any datagram longer than the payload limit of the receiver makes it raise an error and end the session. */
  lemma LongDatagramFails(c: Config, s: Config, clientLimit: nat, serverLimit: nat, payload: seq<Byte>)
    returns (moves: seq<Move>, w: Wired)
    requires ValidConfig(c) && ValidConfig(s) && !c.isServer && s.isServer
    requires serverLimit < |payload| <= MAX_INPUT
    ensures Moves(InitialWired(c, s, clientLimit, serverLimit), moves, w)
    ensures !NoErrors(w.net.server.events) && w.net.client.emitted == [Datagram(payload)]
  {
    var w0 := InitialWired(c, s, clientLimit, serverLimit);
    var m := Makes(false, SendDgram(payload));
    assert Moves(w0, [], w0) && CanMove(w0, m);
    MovesSnoc(w0, [], w0, m);
    assert [] + [m] == [m];
    var w1 := MoveOn(w0, m);
    assert w1.net.client.emitted == [Datagram(payload)] && !w1.net.server.terminated;
    hide InitialWired, Moves, MoveOn, CanMove, NoErrors;
    PayloadLength(Datagram(payload));
    moves, w := ReadingFails(c, s, clientLimit, serverLimit, [m], w1, 0);
  }

  const FirstStream := StreamId(0, false, false)

  /** What of `data` goes out at once if nothing has been sent before. */
  function FirstPart(data: seq<Byte>, cfg: Config): seq<Byte> { data[..Min(|data|, Window(cfg))] }

  lemma SendsFirstPart(o: Session, data: seq<Byte>, cfg: Config)
    requires !o.terminated && FirstStream in o.streams && o.streams[FirstStream].isLocal
    requires o.streams[FirstStream].pending == [] && o.streams[FirstStream].sendState == Ready
    requires o.streams[FirstStream].maxLocal == cfg.initStreamData && o.streams[FirstStream].bytesSent == 0
    requires o.maxDataLocal == cfg.initData && o.bytesSent == 0
    requires Window(cfg) > 0
    ensures o.emitted + [WtStream(FirstStream, FirstPart(data, cfg), false)] <= SendStreamData(o, FirstStream, data, false).emitted
  {
    var n := Min(|data|, Window(cfg));
    assert Sendable(o, o.streams[FirstStream], |data|) == n;
    if n < |data| {
      var s1 := SendChunk(o, FirstStream, data[..n], false);
      BlockedOnward(s1, FirstStream, SessionAvail(o, |data|), StreamAvail(o.streams[FirstStream], |data|));
      hide ReportBlocked;
    } else {
      assert data[..n] == data;
    }
  }

  /** The client opens its first stream and sends `data`. */
  lemma FirstSend(c: Config, s: Config, data: seq<Byte>)
    requires !c.isServer && s.isServer && s.initBidi > 0 && Window(s) > 0
    ensures var y := Establish(NewSession(c, s, false), CreditFrom(s, true));
            var z := Apply(Apply(y, OpenCall(false)), Send(FirstStream, data, false));
      y.emitted + [WtStream(FirstStream, FirstPart(data, s), false)] <= z.emitted && |y.emitted| == 3
  {
    var y := Establish(NewSession(c, s, false), CreditFrom(s, true));
    var o := Apply(y, OpenCall(false));
    assert FirstStream in o.streams && o.streams[FirstStream].pending == [] && o.streams[FirstStream].sendState == Ready;
    assert o.streams[FirstStream].maxLocal == s.initStreamData && o.streams[FirstStream].bytesSent == 0;
    assert o.maxDataLocal == s.initData && o.bytesSent == 0 && !o.terminated;
    assert o.emitted == y.emitted && o.streams[FirstStream].isLocal;
    hide NewSession, Establish, OpenStream, SendStreamData;
    SendsFirstPart(o, data, s);
  }

  /** Three moves of the client, before the server reads any of it. */
  lemma FirstMoves(c: Config, s: Config, clientLimit: nat, serverLimit: nat, data: seq<Byte>)
    returns (moves: seq<Move>, w: Wired)
    requires ValidConfig(c) && ValidConfig(s) && !c.isServer && s.isServer && s.initBidi > 0 && Window(s) > 0
    requires |data| <= MAX_INPUT
    ensures Moves(InitialWired(c, s, clientLimit, serverLimit), moves, w) && LeavesOpen(moves, true)
    ensures !w.net.server.terminated && |w.net.client.emitted| >= 4
    ensures w.net.client.emitted[3] == WtStream(FirstStream, FirstPart(data, s), false)
  {
    var w0 := InitialWired(c, s, clientLimit, serverLimit);
    var m2, m3 := Makes(false, OpenCall(false)), Makes(false, Send(FirstStream, data, false));
    FirstSend(c, s, data);
    assert !w0.net.accepted && !w0.net.client.terminated && !w0.net.server.terminated
        && w0.net.client == NewSession(c, s, false) && w0.net.server.cfg == s;
    assert Moves(w0, [], w0);
    hide NewSession, Establish, OpenStream, SendStreamData, CreditFrom, InitialWired, Moves, FirstPart;
    var w1 := MoveOn(w0, Accepts);
    MovesSnoc(w0, [], w0, Accepts);
    var w2 := MoveOn(w1, m2);
    MovesSnoc(w0, [] + [Accepts], w1, m2);
    MovesSnoc(w0, [] + [Accepts] + [m2], w2, m3);
    moves, w := [] + [Accepts] + [m2] + [m3], MoveOn(w2, m3);
  }

  /**
   * The first send on the first stream fails if it violates the condition: the stream ID and as much
   * of the data as goes out at once exceed the payload limit of the receiver.
   */
  lemma LongSendFails(c: Config, s: Config, clientLimit: nat, serverLimit: nat, data: seq<Byte>)
    returns (moves: seq<Move>, w: Wired)
    requires ValidConfig(c) && ValidConfig(s) && !c.isServer && s.isServer && s.initBidi > 0 && Window(s) > 0
    requires |data| <= MAX_INPUT && !CallWithin(Send(FirstStream, data, false), s, serverLimit)
    ensures Moves(InitialWired(c, s, clientLimit, serverLimit), moves, w)
    ensures !NoErrors(w.net.server.events) && |w.net.client.emitted| >= 4
    ensures w.net.client.emitted[3] == WtStream(FirstStream, FirstPart(data, s), false)
  {
    var before, v := FirstMoves(c, s, clientLimit, serverLimit, data);
    hide InitialWired, Moves, NoErrors;
    PayloadLength(WtStream(FirstStream, FirstPart(data, s), false));
    moves, w := ReadingFails(c, s, clientLimit, serverLimit, before, v, 3);
  }

  /** A closing message that is too long, cut as it is, is an error where it should have been the end. */
  lemma LongCloseFails(c: Config, s: Config, clientLimit: nat, serverLimit: nat, code: ErrorCode, message: seq<Byte>)
    returns (moves: seq<Move>, w: Wired)
    requires ValidConfig(c) && ValidConfig(s) && !c.isServer && s.isServer
    requires serverLimit < 4 + |Utf8.Cut(message, MAX_MESSAGE)|
    ensures Moves(InitialWired(c, s, clientLimit, serverLimit), moves, w)
    ensures !NoErrors(w.net.server.events) && |w.net.client.emitted| == 4
    ensures w.net.client.emitted[3] == WtCloseSession(code, Utf8.Cut(message, MAX_MESSAGE))
  {
    var w0 := InitialWired(c, s, clientLimit, serverLimit);
    var m := Makes(false, Close(code, message));
    var y := Establish(NewSession(c, s, false), CreditFrom(s, true));
    assert |y.emitted| == 3 && !y.terminated && !w0.net.accepted && !w0.net.server.terminated;
    assert w0.net.client == NewSession(c, s, false) && w0.net.server.cfg == s;
    assert Moves(w0, [], w0);
    hide NewSession, Establish, CreditFrom, InitialWired, Moves, Utf8.Cut;
    var w1 := MoveOn(w0, Accepts);
    MovesSnoc(w0, [], w0, Accepts);
    var w2 := MoveOn(w1, m);
    MovesSnoc(w0, [] + [Accepts], w1, m);
    var last := WtCloseSession(code, Utf8.Cut(message, MAX_MESSAGE));
    assert w2.net.client.emitted == y.emitted + [last];
    hide MoveOn, CanMove, NoErrors;
    PayloadLength(last);
    moves, w := ReadingFails(c, s, clientLimit, serverLimit, [] + [Accepts] + [m], w2, 3);
  }
}
