/**
 * The two endpoints of `ByteNetwork` over one HTTP/2 connection: a peer may send only what the
 * connection receive window allows, and that window opens again only as `RecvLedger` gives back
 * the bytes of the capsules that were really dispatched. It never keeps a session from finishing.
 */
module WindowedNetwork {
  import opened Capsules
  import opened Codec
  import opened Channel
  import opened Engine
  import opened Trace
  import opened Sending
  import opened Receiving
  import opened Endpoint
  import opened Queues
  import opened Network
  import opened Delivery
  import opened Settling
  import opened Reader
  import opened ByteNetwork
  import opened PayloadLimits
  import RecvLedger

  /** The CONNECT stream of the one session. */
  const Connect: int := 1

  const PRE_ACCEPT_LIMIT: nat := 65536

  // ---------- What a reading gives back ----------

  /** How a capsule that ends the session ends it. */
  function EndedBy(t: nat, p: seq<Byte>): RecvLedger.Fate {
    match Codec.Read(t, p)
    case Got(c) => if c.WtCloseSession? then RecvLedger.Removed else RecvLedger.Closed
    case Malformed => RecvLedger.Malformed
    case _ => RecvLedger.Closed
  }

  /** The pass over the capsule buffer, as the ledger sees it: the lengths of the capsules dispatched. */
  function PassOf(r: Rx, limit: nat): RecvLedger.Pass
    decreases |r.buffer|
  {
    hide Unpack, Obey;
    match Unpack(r.buffer, limit)
    case Incomplete => RecvLedger.Pass([], RecvLedger.Live)
    case TooLong => RecvLedger.Pass([], RecvLedger.Closed)
    case Unit(t, p, rest) =>
      var s := Obey(r.s, t, p);
      var wire := |r.buffer| - |rest|;
      if s.terminated then RecvLedger.Pass([wire], EndedBy(t, p))
      else
        var q := PassOf(Rx(s, rest), limit);
        q.(wires := [wire] + q.wires)
  }

  /** A pass dispatches no more than there is, and all of it but what stays in the buffer if the session lives on. */
  lemma {:induction false} PassIsDispatch(r: Rx, limit: nat)
    requires !r.s.terminated
    ensures var q := PassOf(r, limit); var after := Process(r, limit);
      && RecvLedger.Total(q.wires) <= |r.buffer|
      && (q.fate.Live? <==> !after.s.terminated)
      && (q.fate.Live? ==> RecvLedger.Total(q.wires) + |after.buffer| == |r.buffer|)
    decreases |r.buffer|
  {
    hide Unpack, Obey, ReportError;
    ReportsEnd(r.s);
    var u := Unpack(r.buffer, limit);
    if u.Unit? {
      var s := Obey(r.s, u.t, u.payload);
      assert [|r.buffer| - |u.rest|][1..] == [];
      if s.terminated {
        assert Process(Rx(s, u.rest), limit) == Rx(s, []);
      } else {
        PassIsDispatch(Rx(s, u.rest), limit);
        var q := PassOf(Rx(s, u.rest), limit);
        assert ([|r.buffer| - |u.rest|] + q.wires)[1..] == q.wires;
      }
    }
  }

  lemma ReportsEnd(s: Session)
    ensures ReportError(s, WT_ERROR).terminated
  {
  }

  // ---------- Two ends with their ledgers ----------

  datatype Windowed = Windowed(w: Wired, client: RecvLedger.Rcv, server: RecvLedger.Rcv)

  function LedgerAt(g: Windowed, server: bool): RecvLedger.Rcv { if server then g.server else g.client }

  function WithLedger(g: Windowed, server: bool, l: RecvLedger.Rcv): Windowed {
    if server then g.(server := l) else g.(client := l)
  }

  /** A reading is one DATA event of the ledger. */
  function DataOf(w: Wired, server: bool, count: nat): RecvLedger.Event
    requires CanMove(w, Reads(server, count))
  {
    RecvLedger.Data(Connect, count, PassOf(Rx(End(w.net, server), Fresh(w, server, count)), PortAt(w, server).limit))
  }

  /** A peer sends at least a byte and no more than the window; a pass dispatches no more than has come, as `ReadableIff` shows. */
  predicate CanGo(g: Windowed, m: Move) {
    && CanMove(g.w, m)
    && (m.Reads? ==>
          0 < m.count <= RecvLedger.PeerWindow(LedgerAt(g, m.server).l)
          && RecvLedger.Allowed(LedgerAt(g, m.server), DataOf(g.w, m.server, m.count)))
  }

  /** Closing a session gives back what is on record for it. */
  function GoOn(g: Windowed, m: Move): Windowed
    requires CanGo(g, m)
  {
    match m
    case Reads(server, count) =>
      WithLedger(g.(w := MoveOn(g.w, m)), server,
                 RecvLedger.Apply(LedgerAt(g, server), server, PRE_ACCEPT_LIMIT, DataOf(g.w, server, count)))
    case Makes(server, call) =>
      var l := LedgerAt(g, server);
      var g' := g.(w := MoveOn(g.w, m));
      if call.Close? && !End(g.w.net, server).terminated && Connect in l.gates
      then WithLedger(g', server, RecvLedger.Apply(l, server, PRE_ACCEPT_LIMIT, RecvLedger.CloseLocally(Connect)))
      else g'
    case Accepts => g.(w := MoveOn(g.w, m))
  }

  /** The session was asked for and accepted, and nothing of it has been read. */
  function OpenLedger(server: bool): RecvLedger.Rcv {
    RecvLedger.Rcv(RecvLedger.Ledger(0, 0, map[], 0, 0), map[Connect := RecvLedger.Gate(true, false, 0)])
  }

  function InitialWindowed(c: Config, s: Config, clientLimit: nat, serverLimit: nat): Windowed {
    Windowed(InitialWired(c, s, clientLimit, serverLimit), OpenLedger(false), OpenLedger(true))
  }

  ghost predicate Goes(g0: Windowed, moves: seq<Move>, g: Windowed)
    decreases |moves|
  {
    if moves == [] then g == g0
    else CanGo(g0, moves[0]) && Goes(GoOn(g0, moves[0]), moves[1..], g)
  }

  /** The window only says when a move may happen. */
  lemma {:induction false} GoesMoves(g0: Windowed, moves: seq<Move>, g: Windowed)
    requires Goes(g0, moves, g)
    ensures Moves(g0.w, moves, g.w)
    decreases |moves|
  {
    if moves != [] {
      assert GoOn(g0, moves[0]).w == MoveOn(g0.w, moves[0]) && CanMove(g0.w, moves[0]);
      hide GoOn, MoveOn, CanGo, CanMove;
      GoesMoves(GoOn(g0, moves[0]), moves[1..], g);
    }
  }

  // ---------- The ledger agrees with the buffer ----------

  /** While an end is up its ledger has one session on record, with as many bytes waiting as its buffer holds. */
  ghost predicate LedgerOk(y: Session, p: Port, l: RecvLedger.Rcv) {
    !y.terminated ==> RecvLedger.OneSession(l, Connect) && l.gates[Connect].buffered == |p.buffer|
  }

  ghost predicate WindowInv(g: Windowed) {
    && ByteInv(g.w)
    && LedgerOk(g.w.net.client, g.w.client, g.client) && LedgerOk(g.w.net.server, g.w.server, g.server)
  }

  lemma LedgerAgrees(g: Windowed, server: bool)
    requires WindowInv(g)
    ensures LedgerOk(End(g.w.net, server), PortAt(g.w, server), LedgerAt(g, server))
  {
    hide ByteInv, LedgerOk;
  }

  /** DATA of the session that leaves it alive. */
  lemma LiveData(l: RecvLedger.Rcv, isServer: bool, preAccept: nat, size: nat, pass: RecvLedger.Pass, left: nat)
    requires RecvLedger.OneSession(l, Connect) && size > 0 && pass.fate.Live?
    requires RecvLedger.Total(pass.wires) + left == l.gates[Connect].buffered + size
    ensures RecvLedger.Allowed(l, RecvLedger.Data(Connect, size, pass))
    ensures var l' := RecvLedger.Apply(l, isServer, preAccept, RecvLedger.Data(Connect, size, pass));
            RecvLedger.OneSession(l', Connect) && l'.gates[Connect].buffered == left
  {
    RecvLedger.StaysOne(l, isServer, preAccept, RecvLedger.Data(Connect, size, pass), Connect);
    hide RecvLedger.Balanced;
    var r1 := RecvLedger.Stored(l, Connect, size);
    RecvLedger.RecordBalances(l.l, Connect, size);
    RecvLedger.FinishBalances(r1, Connect, pass);
    RecvLedger.RelieveBalances(RecvLedger.Finish(r1, Connect, pass), Connect);
  }

  // ---------- Every move keeps it ----------

  lemma FreshLength(w: Wired, server: bool, count: nat)
    requires CanMove(w, Reads(server, count))
    ensures |Fresh(w, server, count)| == |PortAt(w, server).buffer| + count
    ensures !End(w.net, server).terminated
  {
    hide Wires;
  }

  /** A session that lives on after a reading has its ledger in step; and every reading within the window is a DATA event. */
  lemma ReadingAgrees(w: Wired, server: bool, count: nat, l: RecvLedger.Rcv)
    requires CanMove(w, Reads(server, count)) && count > 0
    requires LedgerOk(End(w.net, server), PortAt(w, server), l)
    ensures RecvLedger.Allowed(l, DataOf(w, server, count))
    ensures var r := Digested(w, server, count);
            LedgerOk(r.s, Port(r.buffer, PortAt(w, server).fed + count, PortAt(w, server).limit),
                     RecvLedger.Apply(l, server, PRE_ACCEPT_LIMIT, DataOf(w, server, count)))
  {
    hide Fresh, Process, PassOf, RecvLedger.OneSession, RecvLedger.Apply;
    var y, limit, b := End(w.net, server), PortAt(w, server).limit, Fresh(w, server, count);
    FreshLength(w, server, count);
    PassIsDispatch(Rx(y, b), limit);
    var q, r := PassOf(Rx(y, b), limit), Process(Rx(y, b), limit);
    OpenGate(l);
    if q.fate.Live? { LiveData(l, server, PRE_ACCEPT_LIMIT, count, q, |r.buffer|); }
  }

  lemma OpenGate(l: RecvLedger.Rcv)
    requires RecvLedger.OneSession(l, Connect)
    ensures RecvLedger.Parses(l, Connect)
  {
  }

  lemma ReadsInStep(g: Windowed, server: bool, count: nat)
    requires WindowInv(g) && CanGo(g, Reads(server, count))
    ensures WindowInv(GoOn(g, Reads(server, count)))
  {
    hide ByteInv, LedgerOk, CanMove, ReadOnce, Digested, DataOf, RecvLedger.Apply, RecvLedger.Allowed;
    MoveKeeps(g.w, Reads(server, count));
    LedgerAgrees(g, server);
    LedgerAgrees(g, !server);
    ReadingAgrees(g.w, server, count, LedgerAt(g, server));
    ReadOnceIs(g.w, server, count);
  }

  lemma CallInStep(g: Windowed, server: bool, call: Call)
    requires WindowInv(g) && CanGo(g, Makes(server, call))
    ensures WindowInv(GoOn(g, Makes(server, call)))
  {
    hide ByteInv, CanMove, MoveOn, Enabled, Apply, RecvLedger.OneSession, RecvLedger.Apply;
    MoveKeeps(g.w, Makes(server, call));
    LedgerAgrees(g, server);
    LedgerAgrees(g, !server);
    MakesIs(g.w, server, call);
    ApplyOnward(End(g.w.net, server), call);
    if call.Close? { CloseEnds(End(g.w.net, server), call); }
  }

  lemma MakesIs(w: Wired, server: bool, call: Call)
    requires CanMove(w, Makes(server, call))
    ensures var w' := MoveOn(w, Makes(server, call));
      && w'.client == w.client && w'.server == w.server
      && w'.net == WithEnd(w.net, server, Apply(End(w.net, server), call))
  {
    hide Apply;
  }

  lemma CloseEnds(s: Session, call: Call)
    requires call.Close?
    ensures Apply(s, call).terminated
  {
  }

  lemma AcceptInStep(g: Windowed)
    requires WindowInv(g) && CanGo(g, Accepts)
    ensures WindowInv(GoOn(g, Accepts))
  {
    hide ByteInv, RecvLedger.OneSession, Establish, CreditFrom;
    MoveKeeps(g.w, Accepts);
  }

  lemma GoKeeps(g: Windowed, m: Move)
    requires WindowInv(g) && CanGo(g, m)
    ensures WindowInv(GoOn(g, m))
  {
    hide WindowInv, CanGo, GoOn;
    match m
    case Reads(server, count) => ReadsInStep(g, server, count);
    case Makes(server, call) => CallInStep(g, server, call);
    case Accepts => AcceptInStep(g);
  }

  lemma {:induction false} GoesKeep(g0: Windowed, moves: seq<Move>, g: Windowed)
    requires WindowInv(g0) && Goes(g0, moves, g)
    ensures WindowInv(g)
    decreases |moves|
  {
    hide WindowInv, CanGo, GoOn;
    if moves != [] {
      GoKeeps(g0, moves[0]);
      GoesKeep(GoOn(g0, moves[0]), moves[1..], g);
    }
  }

  /** The ledger that two ends start with is that of a session which was asked for and accepted. */
  lemma OpenLedgerIsReached(server: bool)
    ensures RecvLedger.OneSession(OpenLedger(server), Connect)
    ensures RecvLedger.Run(RecvLedger.Empty(), server, PRE_ACCEPT_LIMIT,
              [RecvLedger.Begin(Connect)] + [] + [RecvLedger.Accept(Connect, RecvLedger.Pass([], RecvLedger.Live))], OpenLedger(server))
  {
    var r := RecvLedger.OneSessionOpens(Connect, server, PRE_ACCEPT_LIMIT, [], RecvLedger.Pass([], RecvLedger.Live));
    OpenIs(server, r);
    hide RecvLedger.Run, RecvLedger.OneSession;
  }

  lemma OpenIs(server: bool, r: RecvLedger.Rcv)
    requires RecvLedger.Run(RecvLedger.Empty(), server, PRE_ACCEPT_LIMIT,
               [RecvLedger.Begin(Connect)] + [] + [RecvLedger.Accept(Connect, RecvLedger.Pass([], RecvLedger.Live))], r)
    ensures r == OpenLedger(server)
  {
    var a, b := RecvLedger.Begin(Connect), RecvLedger.Accept(Connect, RecvLedger.Pass([], RecvLedger.Live));
    assert [a] + [] + [b] == [a, b] && [a, b][1..] == [b] && [b][1..] == [];
    var r1 := RecvLedger.Apply(RecvLedger.Empty(), server, PRE_ACCEPT_LIMIT, a);
    assert RecvLedger.Run(r1, server, PRE_ACCEPT_LIMIT, [b], r);
    var r2 := RecvLedger.Apply(r1, server, PRE_ACCEPT_LIMIT, b);
    assert RecvLedger.Run(r2, server, PRE_ACCEPT_LIMIT, [], r);
    assert r2 == OpenLedger(server);
  }

  lemma InitialWindowInv(c: Config, s: Config, clientLimit: nat, serverLimit: nat)
    requires ValidConfig(c) && ValidConfig(s) && !c.isServer && s.isServer
    ensures WindowInv(InitialWindowed(c, s, clientLimit, serverLimit))
  {
    hide ByteInv, InitialNet, RecvLedger.OneSession, RecvLedger.Run;
    InitialByteInv(c, s, clientLimit, serverLimit);
    OpenLedgerIsReached(false);
    OpenLedgerIsReached(true);
  }

  // ---------- The window never keeps an end from reading ----------

  /** What an end may be sent is decided by the window and by what has been written, by nothing else. */
  lemma ReadableIff(g: Windowed, server: bool, count: nat)
    requires WindowInv(g) && count > 0
    ensures CanGo(g, Reads(server, count))
       <==> CanMove(g.w, Reads(server, count)) && count <= RecvLedger.PeerWindow(LedgerAt(g, server).l)
  {
    hide ByteInv, CanMove, DataOf, RecvLedger.Allowed;
    LedgerAgrees(g, server);
    if CanMove(g.w, Reads(server, count)) { ReadingAgrees(g.w, server, count, LedgerAt(g, server)); }
  }

  /** As long as an end that is up has not read everything, at least one byte may be sent to it. */
  lemma NeverStuck(g: Windowed, server: bool)
    requires WindowInv(g) && (server || g.w.net.accepted)
    ensures CanGo(g, Reads(server, 1)) <==> !End(g.w.net, server).terminated && !ReadAll(g.w, server)
  {
    hide ByteInv, DataOf, RecvLedger.OneSession, CanGo;
    LedgerAgrees(g, server);
    ReadableIff(g, server, 1);
    BehindOk(g.w, server);
    if !End(g.w.net, server).terminated { RecvLedger.OneSessionWindow(LedgerAt(g, server), Connect); }
  }

  lemma BehindOk(w: Wired, server: bool)
    requires ByteInv(w)
    ensures AllWritable(End(w.net, !server).emitted) && PortAt(w, server).fed <= |Wires(End(w.net, !server).emitted)|
  {
    hide ByteInv, PortOk, Sound;
    AtPort(w, server);
    PortIsBehind(End(w.net, !server), End(w.net, server), PortAt(w, server));
  }

  /**
   * A session gets everything through, whatever the window does meanwhile: if both ends are up and to
   * neither a single byte may be sent, then all bytes have been read, nothing is under way, and every
   * stream that was not reset has delivered all that was handed over under the condition of
   * `Delivery.EverythingArrives`.
   */
  lemma WindowedArrives(c: Config, s: Config, clientLimit: nat, serverLimit: nat, moves: seq<Move>, g: Windowed, from: bool, id: StreamId)
    returns (actions: seq<Action>)
    requires ValidConfig(c) && ValidConfig(s) && !c.isServer && s.isServer
    requires Goes(InitialWindowed(c, s, clientLimit, serverLimit), moves, g) && Up(g.w.net)
    requires !CanGo(g, Reads(true, 1)) && !CanGo(g, Reads(false, 1))
    requires End(g.w.net, !from).cfg.initData > 0 && End(g.w.net, !from).cfg.initStreamData > 0
    requires End(g.w.net, !from).bytesReceived < MAX_VARINT
    requires Said(End(g.w.net, from), id).ending != WasReset
    ensures Run(InitialNet(c, s), actions, g.w.net) && CallsIn(actions) == CallsMade(moves) && Quiescent(g.w.net)
    ensures var x := End(g.w.net, from); var y := End(g.w.net, !from); var e := HandedInAll(InitialNet(c, s), actions, from, id);
      && (Unsent(x, id) == [] <==> Flows(e, y, id))
      && (Flows(e, y, id) ==> Delivered(y.events, id) == e.data && (e.fin <==> Heard(y, id).ending == Finished))
  {
    hide Goes, Moves, CanGo, ReadAll, Run, InitialWired, InitialWindowed, InitialNet, HandedInAll, Flows, Delivered, StreamView, Quiescent;
    StuckIsRead(c, s, clientLimit, serverLimit, moves, g);
    actions := BytesArrive(c, s, clientLimit, serverLimit, moves, g.w, from, id);
  }

  lemma StuckIsRead(c: Config, s: Config, clientLimit: nat, serverLimit: nat, moves: seq<Move>, g: Windowed)
    requires ValidConfig(c) && ValidConfig(s) && !c.isServer && s.isServer
    requires Goes(InitialWindowed(c, s, clientLimit, serverLimit), moves, g) && Up(g.w.net)
    requires !CanGo(g, Reads(true, 1)) && !CanGo(g, Reads(false, 1))
    ensures Moves(InitialWired(c, s, clientLimit, serverLimit), moves, g.w) && ReadAll(g.w, true) && ReadAll(g.w, false)
  {
    hide WindowInv, Goes, Moves, CanGo, ReadAll, InitialWired;
    var g0 := InitialWindowed(c, s, clientLimit, serverLimit);
    InitialWindowInv(c, s, clientLimit, serverLimit);
    GoesKeep(g0, moves, g);
    GoesMoves(g0, moves, g);
    NeverStuck(g, true);
    NeverStuck(g, false);
  }

  // ---------- And reading comes to an end ----------

  function Alive(n: Net): nat { (if n.client.terminated then 0 else 1) + (if n.server.terminated then 0 else 1) }

  /** Bytes written to an end that it has not read. */
  function BehindAt(w: Wired, server: bool): int
    requires AllWritable(End(w.net, !server).emitted)
  {
    |Wires(End(w.net, !server).emitted)| - PortAt(w, server).fed
  }

  ghost function Behind(w: Wired): (n: nat)
    requires ByteInv(w)
  {
    BehindOk(w, true);
    BehindOk(w, false);
    BehindAt(w, true) + BehindAt(w, false)
  }

  lemma {:induction false} RunCalms(n0: Net, actions: seq<Action>, n: Net, to: bool)
    requires Run(n0, actions, n) && OnlyTo(actions, to)
    ensures Unrest(n) + |actions| <= Unrest(n0)
    decreases |actions|
  {
    hide StepNet, Enabled, Unrest;
    if actions != [] {
      DeliveryCalms(n0, actions[0]);
      RunCalms(StepNet(n0, actions[0]), actions[1..], n, to);
    }
  }

  /** Ends that are up, then what is under way and may be caused by it, then bytes not yet read. */
  ghost predicate Lower(w': Wired, w: Wired)
    requires ByteInv(w) && ByteInv(w')
  {
    || Alive(w'.net) < Alive(w.net)
    || (Alive(w'.net) == Alive(w.net) && Unrest(w'.net) < Unrest(w.net))
    || (w'.net == w.net && Behind(w') < Behind(w))
  }

  /** Every reading, of whatever size and at whatever end, brings both ends nearer to rest. */
  lemma ReadingLowers(w: Wired, server: bool, count: nat)
    requires ByteInv(w) && CanMove(w, Reads(server, count)) && count > 0
    ensures ByteInv(ReadOnce(w, server, count)) && Lower(ReadOnce(w, server, count), w)
  {
    var w' := ReadOnce(w, server, count);
    var actions, rest := ReadsRun(w, server, count);
    ReadOnceIs(w, server, count);
    FreshLength(w, server, count);
    hide ByteInv, CanMove, ReadOnce, NoErrors, Run, Unrest, Digested;
    if !End(w'.net, server).terminated {
      UpIsErrorFree(w', server);
      RunCalms(w.net, actions, rest, server);
      if actions == [] { assert rest == w.net by { assert Run(w.net, [], rest); NoActions(w.net, rest); } }
    }
  }

  lemma NoActions(n: Net, n': Net)
    requires Run(n, [], n')
    ensures n' == n
  {
  }

  lemma UpIsErrorFree(w: Wired, server: bool)
    requires ByteInv(w) && !End(w.net, server).terminated
    ensures NoErrors(End(w.net, server).events)
  {
    hide ByteInv, Sound, NoErrors, Overrun, Fits, Caught;
    AtPort(w, server);
  }

  lemma CoherentInside(w: Wired)
    requires ByteInv(w)
    ensures Coherent(w.net)
  {
    hide Coherent, EndOk, ReaderOk;
  }

  /** From any state the peers can go on until nothing may be sent any more. */
  lemma {:induction false} ReadOut(g: Windowed) returns (moves: seq<Move>, rest: Windowed)
    requires WindowInv(g)
    ensures Goes(g, moves, rest) && WindowInv(rest) && forall k :: 0 <= k < |moves| ==> moves[k].Reads?
    ensures !CanGo(rest, Reads(true, 1)) && !CanGo(rest, Reads(false, 1))
    decreases Alive(g.w.net), Unrest(g.w.net), Behind(g.w), 1
  {
    hide ByteInv, CanGo, LedgerOk;
    if CanGo(g, Reads(true, 1)) {
      moves, rest := ReadOutAfter(g, true);
    } else if CanGo(g, Reads(false, 1)) {
      moves, rest := ReadOutAfter(g, false);
    } else {
      moves, rest := [], g;
    }
  }

  lemma {:induction false} ReadOutAfter(g: Windowed, server: bool) returns (moves: seq<Move>, rest: Windowed)
    requires WindowInv(g) && CanGo(g, Reads(server, 1))
    ensures Goes(g, moves, rest) && WindowInv(rest) && forall k :: 0 <= k < |moves| ==> moves[k].Reads?
    ensures !CanGo(rest, Reads(true, 1)) && !CanGo(rest, Reads(false, 1))
    decreases Alive(g.w.net), Unrest(g.w.net), Behind(g.w), 0
  {
    hide ByteInv, CanGo, GoOn, CanMove, ReadOnce, LedgerOk, Unrest, Behind, Alive;
    var m := Reads(server, 1);
    var g1 := GoOn(g, m);
    GoReads(g, server);
    GoKeeps(g, m);
    ReadingLowers(g.w, server, 1);
    CoherentInside(g.w);
    UnrestIsNatural(g.w.net);
    CoherentInside(g1.w);
    UnrestIsNatural(g1.w.net);
    var more, r := ReadOut(g1);
    moves, rest := [m] + more, r;
    GoesFirst(g, m, more, rest);
  }

  lemma GoReads(g: Windowed, server: bool)
    requires CanGo(g, Reads(server, 1))
    ensures CanMove(g.w, Reads(server, 1)) && GoOn(g, Reads(server, 1)).w == ReadOnce(g.w, server, 1)
  {
    hide CanMove, ReadOnce, DataOf, RecvLedger.Apply, RecvLedger.Allowed;
  }

  lemma GoesFirst(g: Windowed, m: Move, more: seq<Move>, rest: Windowed)
    requires CanGo(g, m) && m.Reads? && Goes(GoOn(g, m), more, rest)
    requires forall k :: 0 <= k < |more| ==> more[k].Reads?
    ensures Goes(g, [m] + more, rest) && forall k :: 0 <= k < |[m] + more| ==> ([m] + more)[k].Reads?
  {
    hide CanGo, GoOn;
    assert ([m] + more)[1..] == more;
  }
}
