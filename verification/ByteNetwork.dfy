/**
 * The two endpoints of `Network`, but joined by bytes: each end reads what the other has
 * written in pieces of any size, and refuses a capsule longer than its own payload limit as
 * soon as it has read the header.
 */
module ByteNetwork {
  import opened Capsules
  import opened Codec
  import opened Channel
  import opened Engine
  import opened Trace
  import opened Sending
  import opened Receiving
  import opened Endpoint
  import opened Bounds
  import opened Network
  import opened Delivery
  import opened Inputs
  import opened Reader

  /** One call takes at most this many bytes; a longer input is refused before it has any effect. */
  const MAX_INPUT: nat := 0x10_0000

  /** Sizes that every call keeps to. */
  const Anything: Sizes := Sizes(_ => MAX_INPUT, MAX_INPUT, MAX_MESSAGE)

  /** Where one end reads: what it has not dispatched, how much it has read in all, and its payload limit. */
  datatype Port = Port(buffer: seq<Byte>, fed: nat, limit: nat)

  datatype Wired = Wired(net: Net, client: Port, server: Port)

  function PortAt(w: Wired, server: bool): Port { if server then w.server else w.client }

  function WithEnd(n: Net, server: bool, s: Session): Net { if server then n.(server := s) else n.(client := s) }

  function WithPort(w: Wired, server: bool, s: Session, p: Port): Wired {
    Wired(WithEnd(w.net, server, s), if server then w.client else p, if server then p else w.server)
  }

  datatype Move =
    | Makes(server: bool, call: Call)
    | Accepts
    | Reads(server: bool, count: nat)

  function ActionOf(m: Move): Action
    requires !m.Reads?
  {
    match m case Makes(server, call) => (if server then ServerCall(call) else ClientCall(call)) case Accepts => ClientAccepted
  }

  /** An end that is over throws away whatever still arrives, so its reading stops there. */
  predicate CanMove(w: Wired, m: Move) {
    match m
    case Makes(server, call) => Enabled(w.net, ActionOf(m)) && CallFits(call, Anything)
    case Accepts => Enabled(w.net, ClientAccepted)
    case Reads(server, count) =>
      var x := End(w.net, !server);
      && (server || w.net.accepted) && !End(w.net, server).terminated
      && AllWritable(x.emitted) && PortAt(w, server).fed + count <= |Wires(x.emitted)|
  }

  function ReadOnce(w: Wired, server: bool, count: nat): Wired
    requires CanMove(w, Reads(server, count))
  {
    var p := PortAt(w, server);
    var r := Feed(Rx(End(w.net, server), p.buffer),
                  Wires(End(w.net, !server).emitted)[p.fed..p.fed + count], p.limit);
    WithPort(w, server, r.s, p.(buffer := r.buffer, fed := p.fed + count))
  }

  function MoveOn(w: Wired, m: Move): Wired
    requires CanMove(w, m)
  {
    match m
    case Reads(server, count) => ReadOnce(w, server, count)
    case _ => w.(net := StepNet(w.net, ActionOf(m)))
  }

  ghost predicate Moves(w0: Wired, moves: seq<Move>, w: Wired)
    decreases |moves|
  {
    if moves == [] then w == w0
    else CanMove(w0, moves[0]) && Moves(MoveOn(w0, moves[0]), moves[1..], w)
  }

  function InitialWired(c: Config, s: Config, clientLimit: nat, serverLimit: nat): Wired {
    Wired(InitialNet(c, s), Port([], 0, clientLimit), Port([], 0, serverLimit))
  }

  // ---------- What holds of a port ----------

  /** `y` has read the whole header of a capsule longer than its limit. */
  predicate Overrun(x: Session, y: Session, p: Port) {
    && AllWritable(x.emitted) && y.received <= x.emitted && AllWritable(y.received)
    && |y.received| < |x.emitted|
    && !Fits(x.emitted[|y.received|], p.limit)
    && Writable(x.emitted[|y.received|])
    && |Wires(y.received)| + |Header(x.emitted[|y.received|])| <= p.fed
  }

  /** What `y` has read is what it has dispatched and the front of one capsule. */
  predicate Caught(x: Session, y: Session, p: Port)
    requires AllWritable(x.emitted) && AllWritable(y.received)
  {
    && Unpack(p.buffer, p.limit).Incomplete?
    && p.fed == |Wires(y.received)| + |p.buffer|
    && Wires(y.received) + p.buffer <= Wires(x.emitted)
  }

  ghost predicate PortOk(x: Session, y: Session, p: Port) {
    && AllWritable(x.emitted) && AllWritable(y.received)
    && p.fed <= |Wires(x.emitted)|
    && (forall k :: 0 <= k < |y.received| ==> Fits(y.received[k], p.limit))
    && (!y.terminated ==> NoErrors(y.events) && Caught(x, y, p))
    && (NoErrors(y.events) <==> !Overrun(x, y, p))
  }

  /** What one end needs of itself for the other to be able to read it. */
  ghost predicate EndOk(n: Net, server: bool) {
    && BandInv(End(n, server))
    && Modest(End(n, server), Anything)
    && AllFit(End(n, server).emitted, Window(End(n, !server).cfg))
  }

  ghost predicate Sound(n: Net) { Coherent(n) && EndOk(n, true) && EndOk(n, false) }

  /** The port at which `server` reads. */
  ghost predicate ReaderOk(w: Wired, server: bool) { PortOk(End(w.net, !server), End(w.net, server), PortAt(w, server)) }

  ghost predicate ByteInv(w: Wired) { Sound(w.net) && ReaderOk(w, true) && ReaderOk(w, false) }

  lemma AtPort(w: Wired, server: bool)
    requires ByteInv(w)
    ensures Sound(w.net) && PortOk(End(w.net, !server), End(w.net, server), PortAt(w, server))
  {
    hide Sound, PortOk;
    assert ReaderOk(w, server);
  }

  // ---------- Everything queued can be written ----------

  lemma SaidFitsVarint(x: Session, y: Session)
    requires Inv(x) && Inv(y) && Hears(x, y)
    ensures SaidTotals(x).data <= MAX_VARINT
  {
    HeardFromSaid(x, y, StreamId(0, false, false));
    hide SendOk, RecvOk, Legal, StreamView, SessionTotals;
  }

  lemma IdFits(x: Session, y: Session, id: StreamId)
    requires Inv(x) && Inv(y) && Hears(x, y) && Hears(y, x) && Mentions(x.emitted, id)
    ensures FitsId(id)
  {
    MentionedIsReachable(x, y, id);
    hide SendOk, RecvOk, Legal, StreamView, SessionTotals, Mentions;
  }

  lemma QueuedIsEncodable(x: Session, y: Session, k: nat)
    requires Inv(x) && Inv(y) && Hears(x, y) && Hears(y, x) && k < |x.emitted|
    ensures Encodable(x.emitted[k])
  {
    var c, p, part := x.emitted[k], SpeakerOf(x), x.emitted[..k];
    assert Legal(p, x.emitted) by { hide SendOk, RecvOk; }
    LegalPrefix(p, x.emitted, k);
    SessionGrows(p, x.emitted, k);
    SaidFitsVarint(x, y);
    assert SessionTotals(p.limits, part).data <= MAX_VARINT;
    if c.WtResetStream? || c.WtStopSending? || c.WtStream? || c.WtMaxStreamData? || c.WtStreamDataBlocked? {
      assert About(c, c.id);
      IdFits(x, y, c.id);
      StreamWithinSession(p.limits, p.streamData, part, c.id);
    }
    hide Inv, Hears, Legal, StreamView, SessionTotals, WireId;
  }

  lemma QueuedIsWritable(x: Session, y: Session, k: nat)
    requires Inv(x) && Inv(y) && Hears(x, y) && Hears(y, x) && Modest(x, Anything) && k < |x.emitted|
    ensures Writable(x.emitted[k])
  {
    QueuedIsEncodable(x, y, k);
    PayloadLength(x.emitted[k]);
    hide Inv, Hears, Payload;
    assert Small(x.emitted[k], Anything);
  }

  lemma AllIsWritable(n: Net, server: bool)
    requires Coherent(n) && Modest(End(n, server), Anything)
    ensures AllWritable(End(n, server).emitted)
  {
    hide Inv, Hears, Modest, Writable;
    var x := End(n, server);
    forall k | 0 <= k < |x.emitted| ensures Writable(x.emitted[k]) { QueuedIsWritable(x, End(n, !server), k); }
  }

  // ---------- Reading ----------

  function ToEnd(server: bool): Action { if server then ToServer else ToClient }

  predicate OnlyTo(actions: seq<Action>, server: bool) { forall k :: 0 <= k < |actions| ==> actions[k] == ToEnd(server) }

  /** One end may still read, and has not gone wrong. */
  ghost predicate Listening(n: Net, to: bool) {
    (to || n.accepted) && !End(n, to).terminated && NoErrors(End(n, to).events)
  }

  lemma Ends(n: Net, to: bool)
    requires Sound(n)
    ensures var x := End(n, !to); var y := End(n, to);
      && Inv(x) && Inv(y) && Hears(x, y) && Hears(y, x) && BandInv(x) && BandInv(y)
      && Modest(x, Anything) && Modest(y, Anything)
      && AllFit(x.emitted, Window(y.cfg)) && AllFit(y.emitted, Window(x.cfg))
  {
    hide Inv, Hears, BandInv, Modest, AllFit;
  }

  /** An end changes without touching what it has said or heard before. */
  lemma Changes(n: Net, to: bool, y': Session)
    requires Sound(n) && (!to && !n.accepted && !y'.terminated ==> Waiting(y'))
    requires Inv(y') && Hears(y', End(n, !to)) && Hears(End(n, !to), y') && y'.cfg == End(n, to).cfg
    requires BandInv(y') && Modest(y', Anything) && End(n, to).emitted <= y'.emitted
    ensures Sound(WithEnd(n, to, y'))
  {
    Ends(n, to);
    hide Inv, Hears, BandInv, Modest, AllFit;
    var x, y := End(n, !to), End(n, to);
    assert x.received <= y.emitted by { HearsPrefix(x, y); }
    StaysFit(y, x, y', x);
  }

  lemma HearsPrefix(x: Session, y: Session)
    requires Hears(x, y)
    ensures x.received <= y.emitted
  {
  }

  lemma StepIsReceive(n: Net, to: bool)
    requires Listening(n, to) && |End(n, to).received| < |End(n, !to).emitted|
    ensures Enabled(n, ToEnd(to))
    ensures StepNet(n, ToEnd(to)) == WithEnd(n, to, Receive(End(n, to), End(n, !to).emitted[|End(n, to).received|]))
  {
    hide Receive, NoErrors;
  }

  lemma StepReceive(n: Net, to: bool)
    requires Sound(n) && Listening(n, to) && |End(n, to).received| < |End(n, !to).emitted|
    ensures Enabled(n, ToEnd(to))
    ensures var c := End(n, !to).emitted[|End(n, to).received|]; var y' := Receive(End(n, to), c);
      && StepNet(n, ToEnd(to)) == WithEnd(n, to, y') && Sound(WithEnd(n, to, y'))
      && NoErrors(y'.events) && (y'.terminated <==> c.WtCloseSession?)
      && y'.received == End(n, to).received + [c]
  {
    Ends(n, to);
    var x, y := End(n, !to), End(n, to);
    var c := x.emitted[|y.received|];
    StepIsReceive(n, to);
    hide Inv, Hears, BandInv, Modest, Receive, NoErrors, EndOk, KeepsRoster, Coherent, StepNet, Enabled, AllFit;
    DeliverInv(x, y);
    ReceiveOnward(y, c);
    ReceiveModest(y, c, Anything);
    ReceiveBounds(y, c, false);
    Changes(n, to, Receive(y, c));
  }

  /** Refusing a capsule is an error of one's own, and the end of the session. */
  lemma StepRefuse(n: Net, to: bool)
    requires Sound(n) && (to || n.accepted) && !End(n, to).terminated
    ensures var y' := ReportError(End(n, to), WT_ERROR);
      && Sound(WithEnd(n, to, y')) && !NoErrors(y'.events) && y'.terminated
      && y'.received == End(n, to).received
  {
    Ends(n, to);
    var x, y := End(n, !to), End(n, to);
    var y' := ReportError(y, WT_ERROR);
    RefusalInv(y);
    ReportBounds(y, WT_ERROR, false);
    ReportModest(y, WT_ERROR, Anything);
    assert y'.events[|y.events|] == Error(WT_ERROR);
    assert Hears(y', x) && Hears(x, y');
    hide Inv, Hears, BandInv, Modest, EndOk, KeepsRoster, Coherent;
    Changes(n, to, y');
  }

  lemma RefusalInv(y: Session)
    requires Inv(y)
    ensures Inv(ReportError(y, WT_ERROR))
  {
    hide SendOk, Legal, StreamView, SessionTotals, Mentions;
    var s := Push(y, Error(WT_ERROR));
    PushKeeps(y, Error(WT_ERROR));
    forall id ensures RecvOk(s, id) {
      assert RecvOk(y, id);
      DeliveredSnoc(y.events, Error(WT_ERROR), id);
    }
    hide RecvInv;
    CloseInv(s, WT_ERROR, []);
  }

  /** What the front of the wire tells a listening end that has dispatched `y.received`. */
  lemma FrontOfWire(x: Session, y: Session, b: seq<Byte>, limit: nat)
    requires AllWritable(x.emitted) && y.received <= x.emitted && AllWritable(y.received)
    requires Wires(y.received) + b <= Wires(x.emitted)
    ensures var u := Unpack(b, limit);
      if |y.received| == |x.emitted| then b == [] && u.Incomplete?
      else
        var c := x.emitted[|y.received|];
        && Writable(c)
        && (Fits(c, limit) ==> !u.TooLong?)
        && (!Fits(c, limit) ==> if |Header(c)| <= |b| then u.TooLong? else u.Incomplete?)
        && (u.Unit? ==> u == Unit(TypeCode(c), Payload(c), u.rest) && Fits(c, limit)
                        && AllWritable(y.received + [c]) && Wires(y.received + [c]) + u.rest == Wires(y.received) + b)
  {
    hide Unpack, Wires, Header, Fits, Wire, Payload, Encodable;
    if |y.received| == |x.emitted| {
      assert y.received == x.emitted;
      EmptyIsIncomplete(limit);
    } else {
      var c := x.emitted[|y.received|];
      NextOnWire(y.received, x.emitted);
      FrontDecides(Wires(y.received), Wires(x.emitted), c, b, limit);
      assert y.received + [c] == x.emitted[..|y.received| + 1];
      WiresSnoc(y.received, c);
    }
  }

  /** What has been read of the wire but not dispatched. */
  ghost predicate Unread(x: Session, y: Session, b: seq<Byte>, limit: nat) {
    && AllWritable(x.emitted) && y.received <= x.emitted && AllWritable(y.received)
    && Wires(y.received) + b <= Wires(x.emitted)
    && forall k :: 0 <= k < |y.received| ==> Fits(y.received[k], limit)
  }

  function ReadIn(y: Session, b: seq<Byte>): nat
    requires AllWritable(y.received)
  {
    |Wires(y.received)| + |b|
  }

  /** Nothing to dispatch: the end is caught up. */
  lemma Pauses(n: Net, to: bool, b: seq<Byte>, limit: nat)
    requires Listening(n, to) && Unread(End(n, !to), End(n, to), b, limit) && Unpack(b, limit).Incomplete?
    ensures PortOk(End(n, !to), End(n, to), Port(b, ReadIn(End(n, to), b), limit))
  {
    hide Unpack, Wires, Header, Writable, Fits, NoErrors;
    FrontOfWire(End(n, !to), End(n, to), b, limit);
  }

  /** A header announces too much: the session ends with an error. */
  lemma Refuses(n: Net, to: bool, b: seq<Byte>, limit: nat)
    requires Sound(n) && Listening(n, to) && Unread(End(n, !to), End(n, to), b, limit) && Unpack(b, limit).TooLong?
    ensures var y' := ReportError(End(n, to), WT_ERROR);
      Sound(WithEnd(n, to, y')) && PortOk(End(n, !to), y', Port([], ReadIn(End(n, to), b), limit))
      && !NoErrors(y'.events)
  {
    hide Unpack, Wires, Header, Writable, Fits, NoErrors, ReportError, Coherent, EndOk;
    FrontOfWire(End(n, !to), End(n, to), b, limit);
    StepRefuse(n, to);
  }

  /** WT_CLOSE_SESSION was the last capsule, so nothing longer can follow. */
  lemma Ceases(n: Net, to: bool, b: seq<Byte>, limit: nat)
    requires Sound(n) && Unread(End(n, !to), End(n, to), b, limit) && NoErrors(End(n, to).events) && End(n, to).terminated
    requires WasClosed(End(n, to))
    ensures PortOk(End(n, !to), End(n, to), Port([], ReadIn(End(n, to), b), limit))
  {
    hide Sound, Wires, Fits, Writable, NoErrors, Inv, Hears, BandInv, Modest, AllFit, PortOk;
    assert End(n, to).received == End(n, !to).emitted by {
      Ends(n, to);
      CloseWasLast(End(n, !to), End(n, to));
    }
    AllReadFits(End(n, !to), End(n, to), b, limit);
  }

  lemma AllReadFits(x: Session, y: Session, b: seq<Byte>, limit: nat)
    requires AllWritable(x.emitted) && y.received == x.emitted && y.terminated && NoErrors(y.events)
    requires Wires(y.received) + b <= Wires(x.emitted)
    requires forall k :: 0 <= k < |y.received| ==> Fits(y.received[k], limit)
    ensures PortOk(x, y, Port([], |Wires(y.received)| + |b|, limit))
  {
    hide Unpack, Wires, Header, Writable, Fits, NoErrors;
  }

  lemma CloseWasLast(x: Session, y: Session)
    requires Inv(x) && Hears(y, x) && WasClosed(y)
    ensures y.received == x.emitted
  {
    hide SendOk, RecvInv, SessionSendOk;
    CloseIsLast(SpeakerOf(x), x.emitted, |y.received| - 1);
  }

  /** The end after it has dispatched the next capsule. */
  function Taken(n: Net, to: bool): Session
    requires |End(n, to).received| < |End(n, !to).emitted|
  {
    Receive(End(n, to), End(n, !to).emitted[|End(n, to).received|])
  }

  /** One whole capsule is dispatched. */
  lemma Dispatches(n: Net, to: bool, b: seq<Byte>, limit: nat)
    requires Sound(n) && Listening(n, to) && Unread(End(n, !to), End(n, to), b, limit) && Unpack(b, limit).Unit?
    ensures |End(n, to).received| < |End(n, !to).emitted| && Enabled(n, ToEnd(to))
    ensures var y' := Taken(n, to); var u := Unpack(b, limit);
      && y' == Obey(End(n, to), u.t, u.payload)
      && StepNet(n, ToEnd(to)) == WithEnd(n, to, y') && Sound(WithEnd(n, to, y')) && NoErrors(y'.events)
      && Unread(End(n, !to), y', u.rest, limit) && ReadIn(y', u.rest) == ReadIn(End(n, to), b)
      && (y'.terminated ==> WasClosed(y'))
  {
    var x, y := End(n, !to), End(n, to);
    hide Unpack, Wires, Header, NoErrors, Receive, Coherent, EndOk, StepNet, Enabled, Codec.Read;
    FrontOfWire(x, y, b, limit);
    var c := x.emitted[|y.received|];
    ReadInverts(c);
    hide Payload, Encodable;
    StepReceive(n, to);
  }

  /** The last capsule dispatched was WT_CLOSE_SESSION. */
  predicate WasClosed(y: Session) { y.received != [] && y.received[|y.received| - 1].WtCloseSession? }

  lemma SameEnds(n: Net, to: bool, s: Session, t: Session)
    ensures End(WithEnd(n, to, s), to) == s && End(WithEnd(n, to, s), !to) == End(n, !to)
    ensures WithEnd(WithEnd(n, to, s), to, t) == WithEnd(n, to, t) && WithEnd(n, to, End(n, to)) == n
    ensures WithEnd(n, to, s).accepted == n.accepted
  {
  }

  /** A reading ends where `Network` gets by dispatching the capsules that were in it, unless it meets a refusal. */
  lemma {:induction false} ReadsOn(n: Net, to: bool, b: seq<Byte>, limit: nat) returns (actions: seq<Action>, rest: Net)
    requires Sound(n) && Listening(n, to) && Unread(End(n, !to), End(n, to), b, limit)
    ensures OnlyTo(actions, to) && Run(n, actions, rest)
    ensures var r := Process(Rx(End(n, to), b), limit);
      && Sound(WithEnd(n, to, r.s))
      && PortOk(End(n, !to), r.s, Port(r.buffer, ReadIn(End(n, to), b), limit))
      && (NoErrors(r.s.events) ==> rest == WithEnd(n, to, r.s))
      && (NoErrors(r.s.events) && r.s.terminated ==> WasClosed(r.s))
    decreases |b|
  {
    hide Sound, Unpack, NoErrors, Receive, StepNet, Enabled, PortOk, Unread, ReportError, Obey, WithEnd;
    actions, rest := [], n;
    SameEnds(n, to, End(n, to), End(n, to));
    var u := Unpack(b, limit);
    match u
    case Incomplete => Pauses(n, to, b, limit);
    case TooLong => Refuses(n, to, b, limit);
    case Unit(t, p, tail) =>
      Dispatches(n, to, b, limit);
      var n1 := StepNet(n, ToEnd(to));
      var y := Taken(n, to);
      SameEnds(n, to, y, Process(Rx(y, tail), limit).s);
      if y.terminated {
        Ceases(n1, to, tail, limit);
        actions, rest := [ToEnd(to)], n1;
      } else {
        var more, r := ReadsOn(n1, to, tail, limit);
        actions, rest := [ToEnd(to)] + more, r;
        assert actions[1..] == more;
      }
  }

  lemma {:induction false} ProcessOnward(r: Rx, limit: nat)
    ensures Onward(r.s, Process(r, limit).s)
    decreases |r.buffer|
  {
    hide Receive, Unpack, ReportError, Codec.Read, Answers;
    ReportAnswersOnward(r.s);
    if !r.s.terminated && Unpack(r.buffer, limit).Unit? {
      var u := Unpack(r.buffer, limit);
      if Codec.Read(u.t, u.payload).Got? { ReceiveOnward(r.s, Codec.Read(u.t, u.payload).c); }
      ProcessOnward(Rx(Obey(r.s, u.t, u.payload), u.rest), limit);
    }
  }

  lemma ReportAnswersOnward(s: Session)
    ensures Onward(s, ReportError(s, WT_ERROR))
  {
    ReportAnswers(s, WT_ERROR);
  }

  lemma SenderGrows(x: Session, x': Session, y: Session, p: Port)
    requires PortOk(x, y, p) && x.emitted <= x'.emitted && AllWritable(x'.emitted) && y.received <= x.emitted
    ensures PortOk(x', y, p)
  {
    WiresGrow(x.emitted, x'.emitted);
    OverrunStays(x, x', y, p);
    hide Unpack, Wires, Writable, Fits, NoErrors, Overrun;
  }

  lemma OverrunStays(x: Session, x': Session, y: Session, p: Port)
    requires AllWritable(x.emitted) && AllWritable(x'.emitted) && x.emitted <= x'.emitted
    requires y.received <= x.emitted && p.fed <= |Wires(x.emitted)|
    ensures Overrun(x', y, p) <==> Overrun(x, y, p)
  {
    hide Unpack, Wires, Header, Writable, Fits;
    if |y.received| == |x.emitted| {
      assert y.received == x.emitted;
    } else {
      assert x'.emitted[|y.received|] == x.emitted[|y.received|];
    }
  }

  lemma ReaderActs(x: Session, y: Session, y': Session, p: Port)
    requires PortOk(x, y, p) && y'.received == y.received && y'.events == y.events
    requires y.terminated ==> y'.terminated
    ensures PortOk(x, y', p)
  {
    hide Unpack, Wires, Header, Writable, Fits, NoErrors;
  }

  /** One end acts on its own. */
  lemma Acts(w: Wired, server: bool, y': Session, n': Net)
    requires ByteInv(w) && Sound(n') && n' == WithEnd(w.net, server, y').(accepted := n'.accepted)
    requires End(w.net, server).emitted <= y'.emitted && (End(w.net, server).terminated ==> y'.terminated)
    requires y'.received == End(w.net, server).received && y'.events == End(w.net, server).events
    ensures ByteInv(w.(net := n'))
  {
    var w' := w.(net := n');
    var x, y := End(w.net, !server), End(w.net, server);
    Ends(w.net, server);
    Ends(n', server);
    HearsPrefix(x, y);
    assert Sound(n') && Coherent(n') && Modest(y', Anything);
    AllIsWritable(n', server);
    hide Sound, Coherent, Inv, Hears, BandInv, Modest, AllFit, PortOk;
    SenderGrows(y, y', x, PortAt(w, !server));
    ReaderActs(x, y, y', PortAt(w, server));
    assert ReaderOk(w', server) && ReaderOk(w', !server);
  }

  lemma MakesKeeps(w: Wired, server: bool, call: Call)
    requires ByteInv(w) && CanMove(w, Makes(server, call))
    ensures ByteInv(MoveOn(w, Makes(server, call)))
  {
    var x, y := End(w.net, !server), End(w.net, server);
    var y' := Apply(y, call);
    Ends(w.net, server);
    if !server && !w.net.accepted && !y.terminated {
      assert Waiting(y) by { hide Inv; }
      WaitingCall(y, call);
    }
    hide Inv, Hears, BandInv, Modest, AllFit, Apply, Coherent, EndOk, ReaderOk, KeepsRoster, Waiting;
    CallInv(x, y, call);
    ApplyOnward(y, call);
    ApplyBounds(y, call, false);
    ApplyModest(y, call, Anything);
    Changes(w.net, server, y');
    hide Sound;
    Acts(w, server, y', WithEnd(w.net, server, y'));
  }

  lemma AcceptsKeeps(w: Wired)
    requires ByteInv(w) && CanMove(w, Accepts)
    ensures ByteInv(MoveOn(w, Accepts))
  {
    var peer := CreditFrom(w.net.server.cfg, true);
    var y, y' := w.net.client, Establish(w.net.client, peer);
    assert MoveOn(w, Accepts) == w.(net := w.net.(client := y', accepted := true));
    assert !w.net.accepted && !w.net.client.terminated;
    hide MoveOn, CanMove, Inv, Hears, BandInv, Modest, AllFit, PortOk, Establish;
    ClientIsWaiting(w.net);
    EstablishedEnd(w.net);
    hide Sound, ClientWaits, CreditFrom;
    AcceptedIsSound(w.net, y');
    Acts(w, false, y', w.net.(client := y', accepted := true));
  }

  ghost predicate ClientWaits(n: Net) {
    && Inv(n.client) && Waiting(n.client) && ValidConfig(n.client.cfg) && ValidConfig(n.server.cfg)
    && Hears(n.client, n.server) && Hears(n.server, n.client)
    && BandInv(n.client) && Modest(n.client, Anything)
  }

  lemma ClientIsWaiting(n: Net)
    requires Sound(n) && !n.accepted && !n.client.terminated
    ensures ClientWaits(n)
  {
    hide Inv, Hears, BandInv, Modest, AllFit;
  }

  lemma EstablishedEnd(n: Net)
    requires ClientWaits(n)
    ensures var y' := Establish(n.client, CreditFrom(n.server.cfg, true));
      && Inv(y') && Hears(y', n.server) && Hears(n.server, y') && BandInv(y') && Modest(y', Anything)
      && n.client.emitted <= y'.emitted && y'.cfg == n.client.cfg
      && y'.terminated == n.client.terminated && y'.received == n.client.received && y'.events == n.client.events
  {
    SameFieldsKeep(n.client, Establish(n.client, CreditFrom(n.server.cfg, true)), false);
    hide Inv, Modest, KeepsRoster, Band;
    EstablishInv(n.client, CreditFrom(n.server.cfg, true));
    EstablishModest(n.client, CreditFrom(n.server.cfg, true), Anything);
  }

  lemma AcceptedIsSound(n: Net, y': Session)
    requires Sound(n) && Inv(y') && Hears(y', n.server) && Hears(n.server, y') && y'.cfg == n.client.cfg
    requires BandInv(y') && Modest(y', Anything) && n.client.emitted <= y'.emitted
    ensures Sound(n.(client := y', accepted := true))
  {
    var n1 := n.(accepted := true);
    assert Sound(n1);
    hide Inv, Hears, Modest, AllFit, BandInv, Sound;
    Changes(n1, false, y');
  }

  lemma ReadsKeeps(w: Wired, server: bool, count: nat)
    requires ByteInv(w) && CanMove(w, Reads(server, count))
    ensures ByteInv(MoveOn(w, Reads(server, count)))
  {
    var actions, rest := ReadsRun(w, server, count);
  }

  /** What one reading has before it: what was left over, and the next bytes of the wire. */
  function Fresh(w: Wired, server: bool, count: nat): seq<Byte>
    requires CanMove(w, Reads(server, count))
  {
    Ahead(PortAt(w, server), Wires(End(w.net, !server).emitted), count)
  }

  function Ahead(p: Port, wire: seq<Byte>, count: nat): seq<Byte>
    requires p.fed + count <= |wire|
  {
    p.buffer + wire[p.fed..p.fed + count]
  }

  function Digested(w: Wired, server: bool, count: nat): Rx
    requires CanMove(w, Reads(server, count))
  {
    Process(Rx(End(w.net, server), Fresh(w, server, count)), PortAt(w, server).limit)
  }

  lemma ReadOnceIs(w: Wired, server: bool, count: nat)
    requires CanMove(w, Reads(server, count))
    ensures var r := Digested(w, server, count); var p := PortAt(w, server);
      && ReadOnce(w, server, count) == WithPort(w, server, r.s, Port(r.buffer, p.fed + count, p.limit))
      && ReadOnce(w, server, count).net == WithEnd(w.net, server, r.s)
      && End(WithEnd(w.net, server, r.s), server) == r.s
  {
    hide Process, Wires;
  }

  /** Reading at one end, as deliveries. */
  lemma ReadsRun(w: Wired, server: bool, count: nat) returns (actions: seq<Action>, rest: Net)
    requires ByteInv(w) && CanMove(w, Reads(server, count))
    ensures ByteInv(ReadOnce(w, server, count))
    ensures OnlyTo(actions, server) && Run(w.net, actions, rest)
    ensures NoErrors(End(ReadOnce(w, server, count).net, server).events) ==> rest == ReadOnce(w, server, count).net
    ensures var y := End(ReadOnce(w, server, count).net, server);
            NoErrors(y.events) && y.terminated ==> WasClosed(y)
  {
    hide ByteInv, ReadOnce, CanMove, Fresh, Digested, WithPort, WithEnd, Unread, NoErrors, ReadIn, Listening, Process, Run, OnlyTo,
         WasClosed;
    ReadOnceIs(w, server, count);
    PortReads(w, server, count);
    DigestedIs(w, server, count);
    actions, rest := ReadsAll(w, server, Fresh(w, server, count));
  }

  lemma ReadsAll(w: Wired, server: bool, b: seq<Byte>) returns (actions: seq<Action>, rest: Net)
    requires ByteInv(w) && Listening(w.net, server)
    requires Unread(End(w.net, !server), End(w.net, server), b, PortAt(w, server).limit)
    ensures var p := PortAt(w, server); var r := Process(Rx(End(w.net, server), b), p.limit);
      && ByteInv(WithPort(w, server, r.s, Port(r.buffer, ReadIn(End(w.net, server), b), p.limit)))
      && (NoErrors(r.s.events) ==> rest == WithEnd(w.net, server, r.s))
      && (NoErrors(r.s.events) && r.s.terminated ==> WasClosed(r.s))
    ensures OnlyTo(actions, server) && Run(w.net, actions, rest)
  {
    var y, limit := End(w.net, server), PortAt(w, server).limit;
    var r := Process(Rx(y, b), limit);
    AtPort(w, server);
    hide ByteInv, Sound, PortOk, Process, Unread, WithPort, WithEnd, NoErrors, ReadIn, Onward, Run, OnlyTo, Listening;
    actions, rest := ReadsOn(w.net, server, b, limit);
    ProcessOnward(Rx(y, b), limit);
    PortsAfter(w, server, r.s, Port(r.buffer, ReadIn(y, b), limit));
  }

  lemma DigestedIs(w: Wired, server: bool, count: nat)
    requires CanMove(w, Reads(server, count))
    ensures Digested(w, server, count) == Process(Rx(End(w.net, server), Fresh(w, server, count)), PortAt(w, server).limit)
  {
  }

  lemma MayRead(w: Wired, server: bool, count: nat)
    requires CanMove(w, Reads(server, count))
    ensures (server || w.net.accepted) && !End(w.net, server).terminated && AllWritable(End(w.net, !server).emitted)
    ensures PortAt(w, server).fed + count <= |Wires(End(w.net, !server).emitted)|
  {
  }

  lemma PortReads(w: Wired, server: bool, count: nat)
    requires ByteInv(w) && CanMove(w, Reads(server, count))
    ensures Listening(w.net, server)
    ensures Unread(End(w.net, !server), End(w.net, server), Fresh(w, server, count), PortAt(w, server).limit)
    ensures ReadIn(End(w.net, server), Fresh(w, server, count)) == PortAt(w, server).fed + count
  {
    AtPort(w, server);
    MayRead(w, server, count);
    HeardPrefix(w.net, server);
    hide ByteInv, Sound, PortOk, Wires, Unread, NoErrors, CanMove, Ahead;
    PortListens(End(w.net, !server), End(w.net, server), PortAt(w, server), count);
  }

  /** What is next to be read follows what has been. */
  lemma PortListens(x: Session, y: Session, p: Port, count: nat)
    requires PortOk(x, y, p) && !y.terminated && y.received <= x.emitted && p.fed + count <= |Wires(x.emitted)|
    ensures var b := Ahead(p, Wires(x.emitted), count);
      NoErrors(y.events) && Unread(x, y, b, p.limit) && ReadIn(y, b) == p.fed + count
  {
    hide Wires, Unpack, Writable, Fits, NoErrors;
    BufferIsUnread(Wires(y.received), p.buffer, Wires(x.emitted), p.fed, count);
  }

  lemma HeardPrefix(n: Net, server: bool)
    requires Sound(n)
    ensures End(n, server).received <= End(n, !server).emitted
  {
    Ends(n, server);
    HearsPrefix(End(n, server), End(n, !server));
  }

  lemma PortsAfter(w: Wired, server: bool, y': Session, p': Port)
    requires ByteInv(w) && Sound(WithEnd(w.net, server, y')) && Onward(End(w.net, server), y')
    requires PortOk(End(w.net, !server), y', p')
    ensures ByteInv(WithPort(w, server, y', p'))
  {
    var n' := WithEnd(w.net, server, y');
    NowWritable(n', server);
    HeardPrefix(w.net, !server);
    hide Sound, PortOk;
    SenderGrows(End(w.net, server), y', End(w.net, !server), PortAt(w, !server));
    assert ReaderOk(WithPort(w, server, y', p'), server) && ReaderOk(WithPort(w, server, y', p'), !server);
  }

  lemma NowWritable(n: Net, server: bool)
    requires Sound(n)
    ensures AllWritable(End(n, server).emitted)
  {
    hide Inv, Hears, BandInv, Modest, AllFit;
    AllIsWritable(n, server);
  }

  lemma BufferIsUnread(done: seq<Byte>, buffer: seq<Byte>, wire: seq<Byte>, fed: nat, count: nat)
    requires done + buffer <= wire && |done| + |buffer| == fed && fed + count <= |wire|
    ensures done + (buffer + wire[fed..fed + count]) <= wire
  {
    assert done + (buffer + wire[fed..fed + count]) == wire[..fed] + wire[fed..fed + count];
  }

  lemma MoveKeeps(w: Wired, m: Move)
    requires ByteInv(w) && CanMove(w, m)
    ensures ByteInv(MoveOn(w, m))
  {
    hide ByteInv, CanMove, MoveOn;
    match m
    case Makes(server, call) => MakesKeeps(w, server, call);
    case Accepts => AcceptsKeeps(w);
    case Reads(server, count) => ReadsKeeps(w, server, count);
  }

  // ---------- Runs over bytes ----------

  lemma InitialByteInv(c: Config, s: Config, clientLimit: nat, serverLimit: nat)
    requires ValidConfig(c) && ValidConfig(s) && !c.isServer && s.isServer
    ensures ByteInv(InitialWired(c, s, clientLimit, serverLimit))
  {
    var w := InitialWired(c, s, clientLimit, serverLimit);
    InitialNetInv(c, s);
    NewEnd(c, s, false);
    NewEnd(s, c, true);
    StartModest(c, s, Anything);
    EmptyIsIncomplete(clientLimit);
    EmptyIsIncomplete(serverLimit);
    assert AllFit(w.net.client.emitted, Window(s)) && AllFit(w.net.server.emitted, Window(c));
    hide Inv, Hears, BandInv, Modest, NoErrors, AllFit;
    assert Sound(w.net);
    NowWritable(w.net, true);
    NowWritable(w.net, false);
    hide Sound, Unpack, NewSession, Establish;
    StartPort(w.net.client, w.net.server, serverLimit);
    StartPort(w.net.server, w.net.client, clientLimit);
  }

  lemma StartPort(x: Session, y: Session, limit: nat)
    requires AllWritable(x.emitted) && y.received == [] && y.events == []
    ensures PortOk(x, y, Port([], 0, limit))
  {
    EmptyIsIncomplete(limit);
    hide Unpack, Writable, Header, Fits;
  }

  lemma StartModest(c: Config, s: Config, z: Sizes)
    ensures Modest(InitialNet(c, s).client, z) && Modest(InitialNet(c, s).server, z)
  {
    EstablishModest(NewSession(s, c, true), NewSession(s, c, true).peer, z);
  }

  lemma {:induction false} MovesKeep(w0: Wired, moves: seq<Move>, w: Wired)
    requires ByteInv(w0) && Moves(w0, moves, w)
    ensures ByteInv(w)
    decreases |moves|
  {
    hide ByteInv, MoveOn, CanMove;
    if moves != [] {
      MoveKeeps(w0, moves[0]);
      MovesKeep(MoveOn(w0, moves[0]), moves[1..], w);
    }
  }

  lemma {:induction false} LimitsStay(w0: Wired, moves: seq<Move>, w: Wired)
    requires Moves(w0, moves, w)
    ensures w.client.limit == w0.client.limit && w.server.limit == w0.server.limit
    decreases |moves|
  {
    if moves != [] {
      assert MoveOn(w0, moves[0]).client.limit == w0.client.limit && MoveOn(w0, moves[0]).server.limit == w0.server.limit;
      hide MoveOn, CanMove;
      LimitsStay(MoveOn(w0, moves[0]), moves[1..], w);
    }
  }

  /**
   * An Error event is pushed exactly when an end that is still up has read the whole header of a
   * capsule longer than its payload limit. Nothing else that the other end writes is an error.
   */
  lemma ErrorsExactly(c: Config, s: Config, clientLimit: nat, serverLimit: nat, moves: seq<Move>, w: Wired, server: bool)
    requires ValidConfig(c) && ValidConfig(s) && !c.isServer && s.isServer
    requires Moves(InitialWired(c, s, clientLimit, serverLimit), moves, w)
    ensures NoErrors(End(w.net, server).events) <==> !Overrun(End(w.net, !server), End(w.net, server), PortAt(w, server))
  {
    InitialByteInv(c, s, clientLimit, serverLimit);
    MovesKeep(InitialWired(c, s, clientLimit, serverLimit), moves, w);
    hide ByteInv, Sound, Overrun, NoErrors, Moves;
    AtPort(w, server);
  }

  // ---------- Without an overrun, bytes do what capsules do ----------

  /** The calls among the actions of a run, in order. */
  function CallsIn(actions: seq<Action>): seq<Action> {
    if actions == [] then []
    else (if actions[0].ToClient? || actions[0].ToServer? then [] else [actions[0]]) + CallsIn(actions[1..])
  }

  function CallsMade(moves: seq<Move>): seq<Action> {
    if moves == [] then [] else (if moves[0].Reads? then [] else [ActionOf(moves[0])]) + CallsMade(moves[1..])
  }

  lemma {:induction false} CallsJoin(a: seq<Action>, b: seq<Action>)
    ensures CallsIn(a + b) == CallsIn(a) + CallsIn(b)
    decreases |a|
  {
    if a == [] {
      assert a + b == b;
    } else {
      assert (a + b)[1..] == a[1..] + b;
      CallsJoin(a[1..], b);
    }
  }

  lemma {:induction false} DeliveriesCallNothing(actions: seq<Action>, server: bool)
    requires OnlyTo(actions, server)
    ensures CallsIn(actions) == []
    decreases |actions|
  {
    if actions != [] { DeliveriesCallNothing(actions[1..], server); }
  }

  /** An error is never taken back. */
  lemma ErrorStays(w: Wired, m: Move, server: bool)
    requires ByteInv(w) && CanMove(w, m) && !NoErrors(End(w.net, server).events)
    ensures !NoErrors(End(MoveOn(w, m).net, server).events)
  {
    hide ByteInv, Sound, NoErrors, Overrun, Fits, Feed, PortOk, Apply, Enabled, Wires;
    AtPort(w, server);
    match m
    case Makes(at, call) => ApplyOnward(End(w.net, at), call);
    case Accepts =>
    case Reads(at, count) => ErrorStopsReading(End(w.net, !server), End(w.net, server), PortAt(w, server));
  }

  lemma ErrorStopsReading(x: Session, y: Session, p: Port)
    requires PortOk(x, y, p) && !NoErrors(y.events)
    ensures y.terminated
  {
    hide Overrun, Fits;
  }

  lemma MoveProjects(w: Wired, m: Move) returns (actions: seq<Action>)
    requires ByteInv(w) && CanMove(w, m)
    requires forall server :: NoErrors(End(MoveOn(w, m).net, server).events)
    ensures Run(w.net, actions, MoveOn(w, m).net)
    ensures CallsIn(actions) == if m.Reads? then [] else [ActionOf(m)]
  {
    hide ByteInv, NoErrors, StepNet, Enabled, Feed;
    if m.Reads? {
      var rest;
      actions, rest := ReadsRun(w, m.server, m.count);
      DeliveriesCallNothing(actions, m.server);
    } else {
      actions := [ActionOf(m)];
      assert Run(StepNet(w.net, actions[0]), actions[1..], MoveOn(w, m).net);
    }
  }

  /** A run over bytes that raised no error is a run over capsules, with the same calls in the same order. */
  lemma {:induction false} RunsAlike(w0: Wired, moves: seq<Move>, w: Wired) returns (actions: seq<Action>)
    requires ByteInv(w0) && Moves(w0, moves, w)
    requires forall server :: NoErrors(End(w.net, server).events)
    ensures Run(w0.net, actions, w.net) && CallsIn(actions) == CallsMade(moves)
    ensures forall server :: NoErrors(End(w0.net, server).events)
    decreases |moves|
  {
    hide ByteInv, MoveOn, CanMove, NoErrors, StepNet, Enabled;
    actions := [];
    if moves != [] {
      var w1 := MoveOn(w0, moves[0]);
      MoveKeeps(w0, moves[0]);
      var more := RunsAlike(w1, moves[1..], w);
      var first := MoveProjects(w0, moves[0]);
      forall server ensures NoErrors(End(w0.net, server).events) {
        if !NoErrors(End(w0.net, server).events) { ErrorStays(w0, moves[0], server); }
      }
      RunsJoin(w0.net, first, w1.net, more, w.net);
      CallsJoin(first, more);
      actions := first + more;
    }
  }
}
