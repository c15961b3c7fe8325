/**
 * The HTTP/2 connection-level receive window: bytes are counted when DATA arrives and given
 * back when the capsules they belong to have been dispatched, or thrown away.
 */
module RecvLedger {
  import opened Capsules

  /** The connection's receive window; nghttp2 starts every connection with it. */
  const LOCAL_WINDOW: nat := 65535

  /** Bytes of an unfinished capsule that may stay unconsumed. */
  const MAX_UNFINISHED: nat := 32768

  /**
   * `recvWindow` is what was received and not given back, `consumed` the part of it that only
   * waits to be given back; `received` and `returned` are the totals.
   */
  datatype Ledger = Ledger(recvWindow: nat, consumed: nat, unconsumed: map<int, nat>, received: nat, returned: nat)

  function Of(m: map<int, nat>, id: int): nat { if id in m then m[id] else 0 }

  ghost function Sum(m: map<int, nat>): nat
    decreases |m|
  {
    if forall id :: id !in m then 0
    else
      var id: int :| id in m;
      m[id] + Sum(m - {id})
  }

  lemma {:induction false} SumWithout(m: map<int, nat>, id: int)
    requires id in m
    ensures Sum(m) == m[id] + Sum(m - {id})
    decreases |m|
  {
    var k: int :| k in m && Sum(m) == m[k] + Sum(m - {k});
    if k != id {
      SumWithout(m - {k}, id);
      assert m - {k} - {id} == m - {id} - {k};
      SumWithout(m - {id}, k);
    }
  }

  lemma SumOf(m: map<int, nat>, id: int)
    ensures Sum(m) == Of(m, id) + Sum(m - {id})
  {
    if id in m { SumWithout(m, id); } else { assert m - {id} == m; }
  }

  /** Changing one entry changes the sum by as much. */
  lemma SumUpdate(m: map<int, nat>, id: int, m': map<int, nat>)
    requires m' - {id} == m - {id}
    ensures Sum(m') + Of(m, id) == Sum(m) + Of(m', id)
  {
    SumOf(m, id);
    SumOf(m', id);
  }

  // ---------- The operations ----------

  /** Once half the window has been consumed it is given back. */
  function ConsumeConnection(l: Ledger, size: nat): Ledger {
    if size == 0 then l
    else
      var consumed := l.consumed + size;
      var back := Min(consumed, l.recvWindow);
      if back > 0 && back >= LOCAL_WINDOW / 2
      then l.(recvWindow := l.recvWindow - back, consumed := consumed - back, returned := l.returned + back)
      else l.(consumed := consumed)
  }

  /** At most what is on record for the stream. */
  function Consume(l: Ledger, id: int, size: nat): Ledger {
    var k := Min(size, Of(l.unconsumed, id));
    if k == 0 then l
    else ConsumeConnection(l, k).(unconsumed :=
           if k == l.unconsumed[id] then l.unconsumed - {id} else l.unconsumed[id := l.unconsumed[id] - k])
  }

  function Discard(l: Ledger, id: int): Ledger {
    ConsumeConnection(l, Of(l.unconsumed, id)).(unconsumed := l.unconsumed - {id})
  }

  function Arrive(l: Ledger, size: nat): Ledger {
    l.(recvWindow := l.recvWindow + size, received := l.received + size)
  }

  function Record(l: Ledger, id: int, size: nat): Ledger {
    l.(unconsumed := l.unconsumed[id := Of(l.unconsumed, id) + size])
  }

  function ConsumeAll(l: Ledger, id: int, wires: seq<nat>): Ledger
    decreases |wires|
  {
    if wires == [] then l else ConsumeAll(Consume(l, id, wires[0]), id, wires[1..])
  }

  // ---------- Sessions ----------

  /** What gates the bytes of a session, and how many of them wait in its capsule buffer. */
  datatype Gate = Gate(established: bool, terminated: bool, buffered: nat)

  datatype Rcv = Rcv(l: Ledger, gates: map<int, Gate>)

  /** How a pass over the capsule buffer ended. Closing discards what is on record, a malformed capsule does not. */
  datatype Fate = Live | Closed | Malformed | Removed

  /** The capsules a pass dispatched, by their length on the wire, and how it ended. */
  datatype Pass = Pass(wires: seq<nat>, fate: Fate)

  function Total(wires: seq<nat>): nat { if wires == [] then 0 else wires[0] + Total(wires[1..]) }

  function Finish(r: Rcv, id: int, pass: Pass): Rcv
    requires id in r.gates && Total(pass.wires) <= r.gates[id].buffered
  {
    var l := ConsumeAll(r.l, id, pass.wires);
    var g := r.gates[id];
    match pass.fate
    case Live => Rcv(l, r.gates[id := g.(buffered := g.buffered - Total(pass.wires))])
    case Closed => Rcv(Discard(l, id), r.gates[id := Gate(false, true, 0)])
    case Malformed => Rcv(l, r.gates[id := Gate(false, true, 0)])
    case Removed => Rcv(Discard(l, id), r.gates - {id})
  }

  /** Bytes of an unfinished capsule beyond the limit are given back early. */
  function Relieve(r: Rcv, id: int): Rcv {
    if id in r.gates && !r.gates[id].terminated && r.gates[id].buffered > MAX_UNFINISHED
    then r.(l := Consume(r.l, id, r.gates[id].buffered - MAX_UNFINISHED))
    else r
  }

  function Forget(r: Rcv, id: int): Rcv { Rcv(Discard(r.l, id), r.gates - {id}) }

  /** Whether DATA for the session goes on to its capsule parser. */
  predicate Parses(r: Rcv, id: int) { id in r.gates && !r.gates[id].terminated && r.gates[id].established }

  /** A pass can only dispatch what has arrived. */
  predicate Possible(r: Rcv, id: int, size: nat, pass: Pass) {
    Parses(r, id) ==> Total(pass.wires) <= r.gates[id].buffered + size
  }

  function OnData(r: Rcv, isServer: bool, preAccept: nat, id: int, size: nat, pass: Pass): Rcv
    requires Possible(r, id, size, pass)
  {
    var l := Arrive(r.l, size);
    if id !in r.gates || r.gates[id].terminated then r.(l := ConsumeConnection(l, size))
    else if size == 0 then r.(l := l)
    else
      var g := r.gates[id];
      var r1 := Rcv(Record(l, id, size), r.gates[id := g.(buffered := g.buffered + size)]);
      if g.established then Relieve(Finish(r1, id, pass), id)
      else if !isServer then r.(l := r1.l)
      else if g.buffered + size > preAccept then Forget(r.(l := r1.l), id)
      else r1
  }

  /** Everything else that touches the ledger or the gates. */
  datatype Event =
    | Data(id: int, size: nat, pass: Pass)
    | Begin(id: int)
    | Accept(id: int, pass: Pass)
    | CloseLocally(id: int)
    | Gone(id: int)

  predicate Allowed(r: Rcv, e: Event) {
    match e
    case Data(id, size, pass) => Possible(r, id, size, pass)
    case Begin(id) => id !in r.gates && id !in r.l.unconsumed
    case Accept(id, pass) =>
      id in r.gates && !r.gates[id].terminated && !r.gates[id].established && Total(pass.wires) <= r.gates[id].buffered
    case CloseLocally(id) => id in r.gates
    case Gone(_) => true
  }

  function Apply(r: Rcv, isServer: bool, preAccept: nat, e: Event): Rcv
    requires Allowed(r, e)
  {
    match e
    case Data(id, size, pass) => OnData(r, isServer, preAccept, id, size, pass)
    case Begin(id) => r.(gates := r.gates[id := Gate(false, false, 0)])
    case Accept(id, pass) => Finish(r.(gates := r.gates[id := r.gates[id].(established := true)]), id, pass)
    case CloseLocally(id) => Rcv(Discard(r.l, id), r.gates[id := Gate(false, true, 0)])
    case Gone(id) => Forget(r, id)
  }

  // ---------- Nothing leaks ----------

  /** Every byte received is given back, waits to be, or is on record for a stream. */
  ghost predicate Balanced(l: Ledger, pending: nat) {
    && l.recvWindow == l.consumed + Sum(l.unconsumed) + pending
    && l.received == l.returned + l.recvWindow
    && l.consumed < LOCAL_WINDOW / 2
  }

  lemma ConsumeConnectionBalances(l: Ledger, size: nat)
    requires Balanced(l, size)
    ensures Balanced(ConsumeConnection(l, size), 0)
    ensures ConsumeConnection(l, size).unconsumed == l.unconsumed
  {
  }

  /** The clamp in `ConsumeConnection` never bites: everything consumed had been received. */
  lemma ClampNeverBites(l: Ledger, size: nat)
    requires Balanced(l, size)
    ensures l.consumed + size <= l.recvWindow
  {
  }

  lemma ConsumeBalances(l: Ledger, id: int, size: nat)
    requires Balanced(l, 0)
    ensures Balanced(Consume(l, id, size), 0)
    ensures Of(Consume(l, id, size).unconsumed, id) == Of(l.unconsumed, id) - Min(size, Of(l.unconsumed, id))
    ensures Consume(l, id, size).unconsumed - {id} == l.unconsumed - {id}
  {
    var k := Min(size, Of(l.unconsumed, id));
    if k > 0 {
      var m := if k == l.unconsumed[id] then l.unconsumed - {id} else l.unconsumed[id := l.unconsumed[id] - k];
      assert m - {id} == l.unconsumed - {id};
      SumUpdate(l.unconsumed, id, m);
      ConsumeConnectionBalances(l.(unconsumed := m), k);
      assert Consume(l, id, size) == ConsumeConnection(l.(unconsumed := m), k);
    }
  }

  lemma DiscardBalances(l: Ledger, id: int)
    requires Balanced(l, 0)
    ensures Balanced(Discard(l, id), 0)
    ensures Discard(l, id).unconsumed == l.unconsumed - {id}
  {
    SumOf(l.unconsumed, id);
    var l1 := l.(unconsumed := l.unconsumed - {id});
    ConsumeConnectionBalances(l1, Of(l.unconsumed, id));
    assert Discard(l, id) == ConsumeConnection(l1, Of(l.unconsumed, id));
  }

  lemma RecordBalances(l: Ledger, id: int, size: nat)
    requires Balanced(l, 0)
    ensures Balanced(Record(Arrive(l, size), id, size), 0)
    ensures Record(Arrive(l, size), id, size).unconsumed - {id} == l.unconsumed - {id}
  {
    var m := l.unconsumed[id := Of(l.unconsumed, id) + size];
    assert m - {id} == l.unconsumed - {id};
    SumUpdate(l.unconsumed, id, m);
  }

  lemma {:induction false} ConsumeAllBalances(l: Ledger, id: int, wires: seq<nat>)
    requires Balanced(l, 0)
    ensures Balanced(ConsumeAll(l, id, wires), 0)
    ensures ConsumeAll(l, id, wires).unconsumed - {id} == l.unconsumed - {id}
    ensures Of(ConsumeAll(l, id, wires).unconsumed, id)
         == Of(l.unconsumed, id) - Min(Total(wires), Of(l.unconsumed, id))
    decreases |wires|
  {
    if wires != [] {
      ConsumeBalances(l, id, wires[0]);
      ConsumeAllBalances(Consume(l, id, wires[0]), id, wires[1..]);
      hide Balanced;
    }
  }

  /** The unfinished part of a session's capsules covers what is on record for it. */
  ghost predicate Covered(r: Rcv, id: int) {
    id in r.gates && !r.gates[id].terminated ==> Of(r.l.unconsumed, id) <= r.gates[id].buffered
  }

  lemma FinishBalances(r: Rcv, id: int, pass: Pass)
    requires Balanced(r.l, 0) && id in r.gates && Total(pass.wires) <= r.gates[id].buffered
    ensures Balanced(Finish(r, id, pass).l, 0)
    ensures Finish(r, id, pass).l.unconsumed - {id} == r.l.unconsumed - {id}
    ensures Covered(r, id) && !r.gates[id].terminated ==> Covered(Finish(r, id, pass), id)
  {
    ConsumeAllBalances(r.l, id, pass.wires);
    var l := ConsumeAll(r.l, id, pass.wires);
    DiscardBalances(l, id);
    assert l.unconsumed - {id} - {id} == l.unconsumed - {id};
  }

  lemma RelieveBalances(r: Rcv, id: int)
    requires Balanced(r.l, 0)
    ensures Balanced(Relieve(r, id).l, 0) && Relieve(r, id).gates == r.gates
    ensures Relieve(r, id).l.unconsumed - {id} == r.l.unconsumed - {id}
    ensures Covered(r, id) ==> Covered(Relieve(r, id), id)
    ensures Covered(r, id) && id in r.gates && !r.gates[id].terminated ==>
              Of(Relieve(r, id).l.unconsumed, id) <= MAX_UNFINISHED
  {
    if id in r.gates && r.gates[id].buffered > MAX_UNFINISHED { ConsumeBalances(r.l, id, r.gates[id].buffered - MAX_UNFINISHED); }
  }

  lemma ArriveBalances(l: Ledger, size: nat)
    requires Balanced(l, 0)
    ensures Balanced(Arrive(l, size), size)
  {
  }

  /** The bytes are on record and in the capsule buffer. */
  function Stored(r: Rcv, id: int, size: nat): Rcv
    requires id in r.gates
  {
    Rcv(Record(Arrive(r.l, size), id, size), r.gates[id := r.gates[id].(buffered := r.gates[id].buffered + size)])
  }

  lemma OnDataBalances(r: Rcv, isServer: bool, preAccept: nat, id: int, size: nat, pass: Pass)
    requires Balanced(r.l, 0) && Possible(r, id, size, pass)
    ensures Balanced(OnData(r, isServer, preAccept, id, size, pass).l, 0)
  {
    hide Balanced, Relieve, Finish, Record, Arrive, Discard, ConsumeConnection;
    ArriveBalances(r.l, size);
    if id !in r.gates || r.gates[id].terminated {
      ConsumeConnectionBalances(Arrive(r.l, size), size);
    } else if size > 0 {
      RecordBalances(r.l, id, size);
      if r.gates[id].established {
        FinishBalances(Stored(r, id, size), id, pass);
        RelieveBalances(Finish(Stored(r, id, size), id, pass), id);
      } else {
        DiscardBalances(Record(Arrive(r.l, size), id, size), id);
      }
    }
  }

  lemma ApplyBalances(r: Rcv, isServer: bool, preAccept: nat, e: Event)
    requires Balanced(r.l, 0) && Allowed(r, e)
    ensures Balanced(Apply(r, isServer, preAccept, e).l, 0)
  {
    hide Balanced, Finish, OnData;
    match e
    case Data(id, size, pass) => OnDataBalances(r, isServer, preAccept, id, size, pass);
    case Begin(id) =>
    case Accept(id, pass) => FinishBalances(r.(gates := r.gates[id := r.gates[id].(established := true)]), id, pass);
    case CloseLocally(id) => DiscardBalances(r.l, id);
    case Gone(id) => DiscardBalances(r.l, id);
  }

  ghost predicate Run(r: Rcv, isServer: bool, preAccept: nat, events: seq<Event>, r': Rcv)
    decreases |events|
  {
    if events == [] then r' == r
    else Allowed(r, events[0]) && Run(Apply(r, isServer, preAccept, events[0]), isServer, preAccept, events[1..], r')
  }

  function Empty(): Rcv { Rcv(Ledger(0, 0, map[], 0, 0), map[]) }

  lemma EmptyBalances()
    ensures Balanced(Empty().l, 0)
  {
  }

  lemma {:induction false} RunBalances(r: Rcv, isServer: bool, preAccept: nat, events: seq<Event>, r': Rcv)
    requires Balanced(r.l, 0) && Run(r, isServer, preAccept, events, r')
    ensures Balanced(r'.l, 0)
    decreases |events|
  {
    if events != [] {
      hide Balanced, Apply, Allowed;
      ApplyBalances(r, isServer, preAccept, events[0]);
      RunBalances(Apply(r, isServer, preAccept, events[0]), isServer, preAccept, events[1..], r');
    }
  }

  /** No byte of the connection window is lost or given back twice, however sessions come and go. */
  lemma NothingLeaks(isServer: bool, preAccept: nat, events: seq<Event>, r: Rcv)
    requires Run(Empty(), isServer, preAccept, events, r)
    ensures r.l.recvWindow == r.l.consumed + Sum(r.l.unconsumed)
    ensures r.l.received == r.l.returned + r.l.recvWindow
    ensures r.l.consumed < LOCAL_WINDOW / 2
  {
    EmptyBalances();
    hide Run, Empty;
    RunBalances(Empty(), isServer, preAccept, events, r);
  }

  // ---------- One session by itself ----------

  /** What is on record for a session, and its gate while it is known. */
  datatype Seat = Seat(record: nat, gate: Option<Gate>)

  function SeatOf(r: Rcv, id: int): Seat { Seat(Of(r.l.unconsumed, id), if id in r.gates then Some(r.gates[id]) else None) }

  function Less(a: nat, b: nat): nat { if a <= b then 0 else a - b }

  /** A pass takes off what it dispatched; an end by WT_CLOSE_SESSION clears the record, a malformed capsule leaves it. */
  function Passed(v: Seat, pass: Pass): Seat
    requires v.gate.Some? && Total(pass.wires) <= v.gate.value.buffered
  {
    var left := Less(v.record, Total(pass.wires));
    match pass.fate
    case Live => Seat(left, Some(v.gate.value.(buffered := v.gate.value.buffered - Total(pass.wires))))
    case Closed => Seat(0, Some(Gate(false, true, 0)))
    case Malformed => Seat(left, Some(Gate(false, true, 0)))
    case Removed => Seat(0, None)
  }

  function Relieved(v: Seat): Seat {
    if v.gate.Some? && !v.gate.value.terminated && v.gate.value.buffered > MAX_UNFINISHED
    then v.(record := Less(v.record, v.gate.value.buffered - MAX_UNFINISHED)) else v
  }

  /** What an event may be for a session that sits so. */
  predicate Fitting(v: Seat, e: Event) {
    match e
    case Data(_, size, pass) =>
      v.gate.Some? && !v.gate.value.terminated && v.gate.value.established ==> Total(pass.wires) <= v.gate.value.buffered + size
    case Begin(_) => v.gate.None?
    case Accept(_, pass) => v.gate.Some? && Total(pass.wires) <= v.gate.value.buffered
    case CloseLocally(_) => v.gate.Some?
    case Gone(_) => true
  }

  function NextSeat(v: Seat, isServer: bool, preAccept: nat, e: Event): Seat
    requires Fitting(v, e)
  {
    match e
    case Data(_, size, pass) =>
      if v.gate.None? || v.gate.value.terminated || size == 0 then v
      else
        var g := v.gate.value.(buffered := v.gate.value.buffered + size);
        if g.established then Relieved(Passed(Seat(v.record + size, Some(g)), pass))
        else if !isServer then v.(record := v.record + size)
        else if g.buffered > preAccept then Seat(0, None)
        else Seat(v.record + size, Some(g))
    case Begin(_) => v.(gate := Some(Gate(false, false, 0)))
    case Accept(_, pass) => Passed(v.(gate := Some(v.gate.value.(established := true))), pass)
    case CloseLocally(_) => Seat(0, Some(Gate(false, true, 0)))
    case Gone(_) => Seat(0, None)
  }

  lemma PassSeat(r: Rcv, id: int, pass: Pass, i: int)
    requires Balanced(r.l, 0) && id in r.gates && Total(pass.wires) <= r.gates[id].buffered
    ensures SeatOf(Finish(r, id, pass), i) == if i == id then Passed(SeatOf(r, id), pass) else SeatOf(r, i)
  {
    hide Balanced, ConsumeAll, Discard;
    FinishBalances(r, id, pass);
    ConsumeAllBalances(r.l, id, pass.wires);
    var l := ConsumeAll(r.l, id, pass.wires);
    DiscardBalances(l, id);
    ElsewhereOf(r.l.unconsumed, l.unconsumed, id, i);
    ElsewhereOf(r.l.unconsumed, Finish(r, id, pass).l.unconsumed, id, i);
  }

  lemma ElsewhereOf(m: map<int, nat>, m': map<int, nat>, id: int, i: int)
    requires m' - {id} == m - {id}
    ensures i != id ==> Of(m', i) == Of(m, i)
  {
    if i != id {
      assert i in m <==> i in m - {id};
      assert i in m' <==> i in m' - {id};
      assert i in m ==> (m - {id})[i] == m[i];
      assert i in m' ==> (m' - {id})[i] == m'[i];
    }
  }

  lemma RelieveSeat(r: Rcv, id: int, i: int)
    requires Balanced(r.l, 0)
    ensures SeatOf(Relieve(r, id), i) == if i == id then Relieved(SeatOf(r, id)) else SeatOf(r, i)
  {
    hide Balanced, Consume;
    if id in r.gates && r.gates[id].buffered > MAX_UNFINISHED {
      var l := Consume(r.l, id, r.gates[id].buffered - MAX_UNFINISHED);
      ConsumeBalances(r.l, id, r.gates[id].buffered - MAX_UNFINISHED);
      ElsewhereOf(r.l.unconsumed, l.unconsumed, id, i);
    }
  }

  lemma DiscardSeat(l: Ledger, id: int, i: int)
    requires Balanced(l, 0)
    ensures Of(Discard(l, id).unconsumed, i) == if i == id then 0 else Of(l.unconsumed, i)
  {
    hide Balanced, Discard;
    DiscardBalances(l, id);
  }

  lemma DataSeat(r: Rcv, isServer: bool, preAccept: nat, id: int, size: nat, pass: Pass, i: int)
    requires Balanced(r.l, 0) && Possible(r, id, size, pass)
    ensures var e := Data(id, size, pass);
            Fitting(SeatOf(r, id), e)
            && SeatOf(OnData(r, isServer, preAccept, id, size, pass), i)
               == if i == id then NextSeat(SeatOf(r, id), isServer, preAccept, e) else SeatOf(r, i)
  {
    hide Balanced, Relieve, Finish, Discard, ConsumeConnection;
    ArriveBalances(r.l, size);
    ConsumeConnectionUnconsumed(Arrive(r.l, size), size);
    if id in r.gates && !r.gates[id].terminated && size > 0 {
      RecordBalances(r.l, id, size);
      if r.gates[id].established {
        var r1 := Stored(r, id, size);
        FinishBalances(r1, id, pass);
        PassSeat(r1, id, pass, i);
        RelieveSeat(Finish(r1, id, pass), id, i);
        PassSeat(r1, id, pass, id);
      } else {
        DiscardSeat(Record(Arrive(r.l, size), id, size), id, i);
      }
    }
  }

  lemma ConsumeConnectionUnconsumed(l: Ledger, size: nat)
    ensures ConsumeConnection(l, size).unconsumed == l.unconsumed
  {
  }

  lemma ApplySeat(r: Rcv, isServer: bool, preAccept: nat, e: Event, i: int)
    requires Balanced(r.l, 0) && Allowed(r, e)
    ensures Fitting(SeatOf(r, e.id), e)
    ensures SeatOf(Apply(r, isServer, preAccept, e), i)
         == if i == e.id then NextSeat(SeatOf(r, e.id), isServer, preAccept, e) else SeatOf(r, i)
  {
    hide Balanced, Finish, OnData, Discard;
    match e
    case Data(id, size, pass) => DataSeat(r, isServer, preAccept, id, size, pass, i);
    case Begin(id) =>
    case Accept(id, pass) => PassSeat(r.(gates := r.gates[id := r.gates[id].(established := true)]), id, pass, i);
    case CloseLocally(id) => DiscardSeat(r.l, id, i);
    case Gone(id) => DiscardSeat(r.l, id, i);
  }

  /** A session after a run, by its own events; `Fitting` says that each of them may happen. */
  function Seats(v: Seat, isServer: bool, preAccept: nat, events: seq<Event>, id: int): Seat
    decreases |events|
  {
    if events == [] then v
    else
      Seats(if events[0].id == id && Fitting(v, events[0]) then NextSeat(v, isServer, preAccept, events[0]) else v,
            isServer, preAccept, events[1..], id)
  }

  /**
   * What is on record for a session, what of it waits to be parsed and whether it is up depend on its own
   * events alone, and are in every run what these make of it.
   */
  lemma {:induction false} SeatsFollow(r: Rcv, isServer: bool, preAccept: nat, events: seq<Event>, r': Rcv, id: int)
    requires Balanced(r.l, 0) && Run(r, isServer, preAccept, events, r')
    ensures SeatOf(r', id) == Seats(SeatOf(r, id), isServer, preAccept, events, id)
    decreases |events|
  {
    if events != [] {
      hide Balanced, Apply, Allowed, NextSeat, Fitting, SeatOf;
      ApplyBalances(r, isServer, preAccept, events[0]);
      ApplySeat(r, isServer, preAccept, events[0], id);
      SeatsFollow(Apply(r, isServer, preAccept, events[0]), isServer, preAccept, events[1..], r', id);
    }
  }

  /** The same from the start of a connection. */
  lemma EachByItself(isServer: bool, preAccept: nat, events: seq<Event>, r: Rcv, id: int)
    requires Run(Empty(), isServer, preAccept, events, r)
    ensures SeatOf(r, id) == Seats(Seat(0, None), isServer, preAccept, events, id)
  {
    hide Run, Seats, Balanced;
    EmptyBalances();
    SeatsFollow(Empty(), isServer, preAccept, events, r, id);
  }

  /** Bytes are given back when half the window is consumed, not before, and then all of them. */
  lemma GivesAllBack(l: Ledger, size: nat)
    requires Balanced(l, size)
    ensures var l' := ConsumeConnection(l, size);
            if l.consumed + size >= LOCAL_WINDOW / 2 then l'.returned == l.returned + l.consumed + size && l'.consumed == 0
            else l'.returned == l.returned && l'.consumed == l.consumed + size
  {
    ClampNeverBites(l, size);
  }

  // ---------- The window stays open ----------

  /** The bytes the peer may still send on the connection. */
  function PeerWindow(l: Ledger): int { LOCAL_WINDOW + l.returned - l.received }

  /** `id` is the one session with bytes on record, it is established, and no more than the limit is on record. */
  ghost predicate OneSession(r: Rcv, id: int) {
    && Balanced(r.l, 0) && Parses(r, id)
    && Of(r.l.unconsumed, id) <= MAX_UNFINISHED
    && Covered(r, id)
    && forall i :: i in r.l.unconsumed ==> i == id
  }

  lemma OneSessionWindow(r: Rcv, id: int)
    requires OneSession(r, id)
    ensures PeerWindow(r.l) >= 1
  {
    SumOf(r.l.unconsumed, id);
    assert Sum(r.l.unconsumed - {id}) == 0;
  }

  /** DATA for the session that leaves it alive, or for a stream that is no longer listened to. */
  predicate Harmless(r: Rcv, e: Event, id: int) {
    e.Data? && if e.id == id then e.pass.fate == Live else e.id !in r.gates || r.gates[e.id].terminated
  }

  lemma OnlyOne(m: map<int, nat>, m': map<int, nat>, id: int)
    requires m' - {id} == m - {id} && forall i :: i in m ==> i == id
    ensures forall i :: i in m' ==> i == id
  {
    forall i | i in m' ensures i == id {
      assert i != id ==> i in m' - {id};
    }
  }

  lemma StaysOne(r: Rcv, isServer: bool, preAccept: nat, e: Event, id: int)
    requires OneSession(r, id) && Allowed(r, e) && Harmless(r, e, id)
    ensures OneSession(Apply(r, isServer, preAccept, e), id)
  {
    ApplyBalances(r, isServer, preAccept, e);
    hide Balanced, Relieve, Finish, ConsumeConnection;
    ArriveBalances(r.l, e.size);
    if e.id != id {
      ConsumeConnectionBalances(Arrive(r.l, e.size), e.size);
    } else if e.size > 0 {
      var r1 := Stored(r, id, e.size);
      var r2 := Finish(r1, id, e.pass);
      RecordBalances(r.l, id, e.size);
      FinishBalances(r1, id, e.pass);
      RelieveBalances(r2, id);
      FinishParses(r1, id, e.pass);
      OnlyOne(r.l.unconsumed, Relieve(r2, id).l.unconsumed, id);
    }
  }

  lemma FinishParses(r: Rcv, id: int, pass: Pass)
    requires Parses(r, id) && Total(pass.wires) <= r.gates[id].buffered && pass.fate == Live
    ensures Parses(Finish(r, id, pass), id)
  {
  }

  /**
   * With one session, which had at most 32768 bytes on record to begin with, the peer may send
   * at least one more byte after every DATA, although early relief counts bytes twice.
   */
  lemma {:induction false} WindowNeverCloses(r: Rcv, isServer: bool, preAccept: nat, events: seq<Event>, r': Rcv, id: int)
    requires OneSession(r, id) && Run(r, isServer, preAccept, events, r')
    requires HarmlessAll(r, isServer, preAccept, events, id)
    ensures OneSession(r', id) && PeerWindow(r'.l) >= 1
    decreases |events|
  {
    OneSessionWindow(r, id);
    if events != [] {
      hide OneSession, Apply, Allowed, Harmless;
      StaysOne(r, isServer, preAccept, events[0], id);
      WindowNeverCloses(Apply(r, isServer, preAccept, events[0]), isServer, preAccept, events[1..], r', id);
    }
  }

  predicate HarmlessAll(r: Rcv, isServer: bool, preAccept: nat, events: seq<Event>, id: int)
    decreases |events|
  {
    events != [] ==>
      Allowed(r, events[0]) && Harmless(r, events[0], id)
      && HarmlessAll(Apply(r, isServer, preAccept, events[0]), isServer, preAccept, events[1..], id)
  }

  // ---------- A session from its request on ----------

  /** DATA that came before acceptance, and how much. */
  predicate Early(events: seq<Event>, id: int) { forall k :: 0 <= k < |events| ==> events[k].Data? && events[k].id == id }

  function Sizes(events: seq<Event>): nat {
    if events == [] then 0 else (if events[0].Data? then events[0].size else 0) + Sizes(events[1..])
  }

  /** `id` has asked for a session and sent `n` bytes for it. */
  ghost predicate Asked(r: Rcv, id: int, n: nat) {
    && Balanced(r.l, 0) && id in r.gates && r.gates[id] == Gate(false, false, n)
    && Of(r.l.unconsumed, id) == n && forall i :: i in r.l.unconsumed ==> i == id
  }

  lemma EarlyStep(r: Rcv, preAccept: nat, e: Event, id: int, n: nat)
    requires Asked(r, id, n) && e.Data? && e.id == id && n + e.size <= preAccept
    ensures Allowed(r, e) && Asked(Apply(r, true, preAccept, e), id, n + e.size)
  {
    ApplyBalances(r, true, preAccept, e);
    hide Balanced;
  }

  lemma {:induction false} EarlyRun(r: Rcv, preAccept: nat, early: seq<Event>, id: int, n: nat) returns (r': Rcv)
    requires Asked(r, id, n) && Early(early, id) && n + Sizes(early) <= preAccept
    ensures Run(r, true, preAccept, early, r') && Asked(r', id, n + Sizes(early))
    decreases |early|
  {
    hide Asked, Apply, Allowed;
    r' := r;
    if early != [] {
      EarlyStep(r, preAccept, early[0], id, n);
      r' := EarlyRun(Apply(r, true, preAccept, early[0]), preAccept, early[1..], id, n + early[0].size);
    }
  }

  lemma AcceptOpens(r: Rcv, isServer: bool, preAccept: nat, id: int, n: nat, pass: Pass)
    requires Asked(r, id, n) && n <= MAX_UNFINISHED && Total(pass.wires) <= n && pass.fate == Live
    ensures Allowed(r, Accept(id, pass)) && OneSession(Apply(r, isServer, preAccept, Accept(id, pass)), id)
  {
    var r1 := r.(gates := r.gates[id := r.gates[id].(established := true)]);
    FinishBalances(r1, id, pass);
    FinishParses(r1, id, pass);
    ConsumeAllBalances(r1.l, id, pass.wires);
    OnlyOne(r.l.unconsumed, Finish(r1, id, pass).l.unconsumed, id);
    hide Balanced;
  }

  lemma {:induction false} RunsJoin(r0: Rcv, isServer: bool, preAccept: nat, a: seq<Event>, r: Rcv, b: seq<Event>, r': Rcv)
    requires Run(r0, isServer, preAccept, a, r) && Run(r, isServer, preAccept, b, r')
    ensures Run(r0, isServer, preAccept, a + b, r')
    decreases |a|
  {
    hide Apply, Allowed;
    if a == [] {
      assert a + b == b;
    } else {
      assert (a + b)[1..] == a[1..] + b;
      RunsJoin(Apply(r0, isServer, preAccept, a[0]), isServer, preAccept, a[1..], r, b, r');
    }
  }

  lemma RunOne(r: Rcv, isServer: bool, preAccept: nat, e: Event)
    requires Allowed(r, e)
    ensures Run(r, isServer, preAccept, [e], Apply(r, isServer, preAccept, e))
  {
    assert [e][1..] == [];
    assert Run(Apply(r, isServer, preAccept, e), isServer, preAccept, [], Apply(r, isServer, preAccept, e));
  }

  /**
   * From the start of a connection: one session that is asked for, sends at most 32768 bytes before
   * it is accepted and lives on leaves the peer at least one byte to send, for ever.
   */
  lemma OneSessionStaysOpen(id: int, isServer: bool, preAccept: nat, early: seq<Event>, pass: Pass) returns (r: Rcv)
    requires Early(early, id) && (isServer || early == [])
    requires Sizes(early) <= preAccept && Sizes(early) <= MAX_UNFINISHED
    requires Total(pass.wires) <= Sizes(early) && pass.fate == Live
    ensures Run(Empty(), isServer, preAccept, [Begin(id)] + early + [Accept(id, pass)], r) && OneSession(r, id)
    ensures forall events, r' :: Run(r, isServer, preAccept, events, r') && HarmlessAll(r, isServer, preAccept, events, id) ==>
              PeerWindow(r'.l) >= 1
  {
    hide OneSession, PeerWindow, HarmlessAll, Run, Empty;
    r := OneSessionOpens(id, isServer, preAccept, early, pass);
    forall events, r' | Run(r, isServer, preAccept, events, r') && HarmlessAll(r, isServer, preAccept, events, id)
      ensures PeerWindow(r'.l) >= 1
    {
      WindowNeverCloses(r, isServer, preAccept, events, r', id);
    }
  }

  lemma OneSessionOpens(id: int, isServer: bool, preAccept: nat, early: seq<Event>, pass: Pass) returns (r: Rcv)
    requires Early(early, id) && (isServer || early == [])
    requires Sizes(early) <= preAccept && Sizes(early) <= MAX_UNFINISHED
    requires Total(pass.wires) <= Sizes(early) && pass.fate == Live
    ensures Run(Empty(), isServer, preAccept, [Begin(id)] + early + [Accept(id, pass)], r) && OneSession(r, id)
  {
    hide Run, Asked, OneSession, Apply, Allowed, Empty, Sizes, Total, Early;
    var r2 := AskedEarly(id, isServer, preAccept, early);
    AcceptOpens(r2, isServer, preAccept, id, Sizes(early), pass);
    r := Apply(r2, isServer, preAccept, Accept(id, pass));
    RunOne(r2, isServer, preAccept, Accept(id, pass));
    RunsJoin(Empty(), isServer, preAccept, [Begin(id)] + early, r2, [Accept(id, pass)], r);
  }

  lemma AskedEarly(id: int, isServer: bool, preAccept: nat, early: seq<Event>) returns (r: Rcv)
    requires Early(early, id) && (isServer || early == []) && Sizes(early) <= preAccept
    ensures Run(Empty(), isServer, preAccept, [Begin(id)] + early, r) && Asked(r, id, Sizes(early))
  {
    hide Run, Asked, Apply, Empty, Early;
    var r1 := BeginAsks(id, isServer, preAccept);
    if early == [] {
      r := r1;
      NoEvents(r1, isServer, preAccept);
    } else {
      r := EarlyRun(r1, preAccept, early, id, 0);
    }
    RunsJoin(Empty(), isServer, preAccept, [Begin(id)], r1, early, r);
  }

  lemma BeginAsks(id: int, isServer: bool, preAccept: nat) returns (r: Rcv)
    ensures Run(Empty(), isServer, preAccept, [Begin(id)], r) && Asked(r, id, 0)
  {
    hide Run, Asked, Balanced, Sum;
    EmptyBalances();
    r := Apply(Empty(), isServer, preAccept, Begin(id));
    RunOne(Empty(), isServer, preAccept, Begin(id));
    BegunIsAsked(r, id);
  }

  lemma BegunIsAsked(r: Rcv, id: int)
    requires r == Rcv(Ledger(0, 0, map[], 0, 0), map[id := Gate(false, false, 0)])
    ensures Asked(r, id, 0)
  {
  }

  lemma NoEvents(r: Rcv, isServer: bool, preAccept: nat)
    ensures Run(r, isServer, preAccept, [], r)
  {
  }

  // ---------- Any number of sessions ----------

  /** The peer sends no more than the window allows it. */
  predicate Lawful(r: Rcv, e: Event) { e.Data? ==> e.size <= PeerWindow(r.l) }

  predicate LawfulAll(r: Rcv, isServer: bool, preAccept: nat, events: seq<Event>)
    decreases |events|
  {
    events != [] ==>
      Allowed(r, events[0]) && Lawful(r, events[0])
      && LawfulAll(Apply(r, isServer, preAccept, events[0]), isServer, preAccept, events[1..])
  }

  lemma {:induction false} ConsumeAllReturns(l: Ledger, id: int, wires: seq<nat>)
    ensures ConsumeAll(l, id, wires).received == l.received && ConsumeAll(l, id, wires).returned >= l.returned
    decreases |wires|
  {
    if wires != [] { ConsumeAllReturns(Consume(l, id, wires[0]), id, wires[1..]); }
  }

  lemma FinishReturns(r: Rcv, id: int, pass: Pass)
    requires id in r.gates && Total(pass.wires) <= r.gates[id].buffered
    ensures Finish(r, id, pass).l.received == r.l.received && Finish(r, id, pass).l.returned >= r.l.returned
  {
    ConsumeAllReturns(r.l, id, pass.wires);
  }

  /** What is given back is never taken again. */
  lemma ApplyReturns(r: Rcv, isServer: bool, preAccept: nat, e: Event)
    requires Allowed(r, e)
    ensures var l := Apply(r, isServer, preAccept, e).l;
            l.returned >= r.l.returned && l.received == r.l.received + (if e.Data? then e.size else 0)
  {
    match e
    case Data(id, size, pass) =>
      if Parses(r, id) && size > 0 { FinishReturns(Stored(r, id, size), id, pass); }
      hide Finish;
    case Accept(id, pass) =>
      FinishReturns(r.(gates := r.gates[id := r.gates[id].(established := true)]), id, pass);
      hide Finish;
    case _ =>
  }

  lemma {:induction false} LawfulKeeps(r: Rcv, isServer: bool, preAccept: nat, events: seq<Event>, r': Rcv)
    requires Run(r, isServer, preAccept, events, r') && LawfulAll(r, isServer, preAccept, events) && PeerWindow(r.l) >= 0
    ensures PeerWindow(r'.l) >= 0
    decreases |events|
  {
    if events != [] {
      ApplyReturns(r, isServer, preAccept, events[0]);
      hide Apply, Allowed;
      LawfulKeeps(Apply(r, isServer, preAccept, events[0]), isServer, preAccept, events[1..], r');
    }
  }

  /**
   * For any number of sessions that come and go, against a peer that keeps to the window: what it
   * may still send is exactly the window less what is on record and what waits to be given back.
   * So it may go on iff these do not fill the window, and 32768 bytes on record never do.
   */
  lemma OpenIff(isServer: bool, preAccept: nat, events: seq<Event>, r: Rcv)
    requires Run(Empty(), isServer, preAccept, events, r) && LawfulAll(Empty(), isServer, preAccept, events)
    ensures 0 <= PeerWindow(r.l) <= LOCAL_WINDOW
    ensures PeerWindow(r.l) >= 1 <==> r.l.consumed + Sum(r.l.unconsumed) < LOCAL_WINDOW
    ensures Sum(r.l.unconsumed) <= MAX_UNFINISHED ==> PeerWindow(r.l) >= 1
  {
    NothingLeaks(isServer, preAccept, events, r);
    assert PeerWindow(Empty().l) >= 0;
    hide Run, LawfulAll, Empty, Sum;
    LawfulKeeps(Empty(), isServer, preAccept, events, r);
  }

  /** Two requests, both accepted, and a capsule of each half received. */
  function TwoHalves(): seq<Event> {
    var none := Pass([], Live);
    [Begin(1), Begin(3), Accept(1, none), Accept(3, none),
     Data(1, 16384, none), Data(1, 16384, none), Data(3, 16384, none), Data(3, 16383, none)]
  }

  /** Both sessions up, with `one` and `three` bytes on record. */
  function Holding(one: nat, three: nat): Rcv {
    Rcv(Ledger(one + three, 0, OnRecord(one, three), one + three, 0),
        map[1 := Gate(true, false, one), 3 := Gate(true, false, three)])
  }

  function OnRecord(one: nat, three: nat): map<int, nat> {
    if one == 0 then map[] else if three == 0 then map[1 := one] else map[1 := one, 3 := three]
  }

  /** After `n` of these events. */
  function Halves(n: nat): Rcv
    requires n <= 8
  {
    var asked := Gate(false, false, 0);
    if n == 0 then Empty()
    else if n == 1 then Empty().(gates := map[1 := asked])
    else if n == 2 then Empty().(gates := map[1 := asked, 3 := asked])
    else if n == 3 then Empty().(gates := map[1 := Gate(true, false, 0), 3 := asked])
    else Holding(if n == 4 then 0 else if n == 5 then 16384 else 32768, if n <= 6 then 0 else if n == 7 then 16384 else 32767)
  }

  /** DATA that completes no capsule and stays below the limit is only put on record. */
  lemma OnlyStored(r: Rcv, isServer: bool, preAccept: nat, id: int, size: nat)
    requires Parses(r, id) && size > 0 && r.gates[id].buffered + size <= MAX_UNFINISHED
    ensures Possible(r, id, size, Pass([], Live))
    ensures OnData(r, isServer, preAccept, id, size, Pass([], Live)) == Stored(r, id, size)
  {
    var r1 := Stored(r, id, size);
    assert Finish(r1, id, Pass([], Live)).gates == r1.gates;
  }

  lemma HoldMore(one: nat, three: nat, size: nat)
    requires size > 0
    ensures three == 0 ==> Stored(Holding(one, three), 1, size) == Holding(one + size, three)
    ensures one > 0 ==> Stored(Holding(one, three), 3, size) == Holding(one, three + size)
  {
    assert three == 0 ==> OnRecord(one, three)[1 := Of(OnRecord(one, three), 1) + size] == OnRecord(one + size, three);
    assert one > 0 ==> OnRecord(one, three)[3 := Of(OnRecord(one, three), 3) + size] == OnRecord(one, three + size);
  }

  lemma HoldData(one: nat, three: nat, id: int, size: nat)
    requires size > 0 && one + three + size <= LOCAL_WINDOW
    requires (id == 1 && one + size <= MAX_UNFINISHED && three == 0) || (id == 3 && three + size <= MAX_UNFINISHED && one > 0)
    ensures var e := Data(id, size, Pass([], Live)); var r := Holding(one, three);
      && Allowed(r, e) && Lawful(r, e)
      && Apply(r, true, 65536, e) == if id == 1 then Holding(one + size, three) else Holding(one, three + size)
  {
    assert Parses(Holding(one, three), id) && Lawful(Holding(one, three), Data(id, size, Pass([], Live)));
    hide OnData, OnRecord, Stored;
    OnlyStored(Holding(one, three), true, 65536, id, size);
    HoldMore(one, three, size);
  }

  lemma HalvesStep(n: nat)
    requires n < 8
    ensures Allowed(Halves(n), TwoHalves()[n]) && Lawful(Halves(n), TwoHalves()[n])
    ensures Apply(Halves(n), true, 65536, TwoHalves()[n]) == Halves(n + 1)
  {
    if n >= 4 {
      hide Holding, Allowed, Apply, Lawful;
      HoldData(if n == 4 then 0 else if n == 5 then 16384 else 32768, if n <= 6 then 0 else 16384,
               if n <= 5 then 1 else 3, if n == 7 then 16383 else 16384);
    }
  }

  lemma {:induction false} HalvesRun(n: nat)
    requires n <= 8
    ensures Run(Halves(n), true, 65536, TwoHalves()[n..], Halves(8))
    ensures LawfulAll(Halves(n), true, 65536, TwoHalves()[n..])
    decreases 8 - n
  {
    if n < 8 {
      HalvesStep(n);
      HalvesRun(n + 1);
      hide Apply, Allowed, Halves, TwoHalves;
      assert |TwoHalves()| == 8 by { EightEvents(); }
      assert TwoHalves()[n..][1..] == TwoHalves()[n + 1..];
    }
  }

  lemma EightEvents()
    ensures |TwoHalves()| == 8
  {
  }

  /**
   * Two sessions can hold the whole window: the peer has kept to it, both sessions are up, each
   * waits for the rest of one capsule, and the peer may not send another byte.
   */
  lemma TwoSessionsCanCloseIt()
    ensures Run(Empty(), true, 65536, TwoHalves(), Halves(8)) && LawfulAll(Empty(), true, 65536, TwoHalves())
    ensures PeerWindow(Halves(8).l) == 0 && Parses(Halves(8), 1) && Parses(Halves(8), 3)
  {
    HalvesRun(0);
    assert TwoHalves()[0..] == TwoHalves();
    assert Halves(0) == Empty();
    hide Run, LawfulAll;
  }

  // ---------- The object ----------

  class ReceiveWindow {
    const isServer: bool
    const preAcceptLimit: nat
    var recvWindow: nat
    var consumed: nat
    var unconsumed: map<int, nat>
    var gates: map<int, Gate>
    ghost var received: nat
    ghost var returned: nat

    ghost function Account(): Ledger
      reads this
    {
      Ledger(recvWindow, consumed, unconsumed, received, returned)
    }

    ghost function State(): Rcv
      reads this
    {
      Rcv(Account(), gates)
    }

    constructor (isServer: bool, preAcceptLimit: nat)
      ensures State() == Empty() && this.isServer == isServer && this.preAcceptLimit == preAcceptLimit
    {
      this.isServer, this.preAcceptLimit := isServer, preAcceptLimit;
      recvWindow, consumed, unconsumed, gates := 0, 0, map[], map[];
      received, returned := 0, 0;
    }

    method ConsumeConnectionRecvBytes(size: nat)
      modifies this`recvWindow, this`consumed, this`returned
      ensures Account() == ConsumeConnection(old(Account()), size)
    {
      if size == 0 {
        return;
      }
      consumed := consumed + size;
      var recvSize := if consumed < recvWindow then consumed else recvWindow;
      if recvSize > 0 && recvSize >= LOCAL_WINDOW / 2 {
        returned := returned + recvSize;
        recvWindow := recvWindow - recvSize;
        consumed := consumed - recvSize;
      }
    }

    method ConsumeRecvBytes(id: int, size: nat)
      modifies this`recvWindow, this`consumed, this`returned, this`unconsumed
      ensures Account() == Consume(old(Account()), id, size)
    {
      if size == 0 || id !in unconsumed {
        return;
      }
      var recorded := unconsumed[id];
      var consumeSize := if size < recorded then size else recorded;
      if consumeSize == 0 {
        return;
      }
      ConsumeConnectionRecvBytes(consumeSize);
      if consumeSize == recorded {
        unconsumed := unconsumed - {id};
      } else {
        unconsumed := unconsumed[id := recorded - consumeSize];
      }
    }

    method DiscardStreamRecvBytes(id: int)
      modifies this`recvWindow, this`consumed, this`returned, this`unconsumed
      ensures Account() == Discard(old(Account()), id)
    {
      if id !in unconsumed {
        assert unconsumed - {id} == unconsumed;
        return;
      }
      var remaining := unconsumed[id];
      unconsumed := unconsumed - {id};
      ConsumeConnectionRecvBytes(remaining);
    }

    /** The loop of the capsule parser, as far as it concerns the ledger. */
    method RunPass(id: int, pass: Pass)
      requires id in gates && Total(pass.wires) <= gates[id].buffered
      modifies this
      ensures State() == Finish(old(State()), id, pass)
    {
      ghost var l := Account();
      var i := 0;
      assert pass.wires[0..] == pass.wires;
      while i < |pass.wires|
        invariant 0 <= i <= |pass.wires| && gates == old(gates)
        invariant ConsumeAll(Account(), id, pass.wires[i..]) == ConsumeAll(l, id, pass.wires)
      {
        assert pass.wires[i..][1..] == pass.wires[i + 1..];
        ConsumeRecvBytes(id, pass.wires[i]);
        i := i + 1;
      }
      match pass.fate {
        case Live => gates := gates[id := gates[id].(buffered := gates[id].buffered - Total(pass.wires))];
        case Closed =>
          DiscardStreamRecvBytes(id);
          gates := gates[id := Gate(false, true, 0)];
        case Malformed => gates := gates[id := Gate(false, true, 0)];
        case Removed =>
          gates := gates - {id};
          DiscardStreamRecvBytes(id);
      }
    }

    method OnRecvData(id: int, size: nat, pass: Pass)
      requires Possible(State(), id, size, pass)
      modifies this
      ensures State() == OnData(old(State()), isServer, preAcceptLimit, id, size, pass)
    {
      hide Finish, ConsumeConnection, Consume, Discard;
      recvWindow := recvWindow + size;
      received := received + size;
      if id !in gates || gates[id].terminated {
        ConsumeConnectionRecvBytes(size);
        return;
      }
      if size == 0 {
        return;
      }
      unconsumed := unconsumed[id := (if id in unconsumed then unconsumed[id] else 0) + size];
      if gates[id].established {
        gates := gates[id := gates[id].(buffered := gates[id].buffered + size)];
        RunPass(id, pass);
        if id in gates && !gates[id].terminated && gates[id].buffered > MAX_UNFINISHED {
          ConsumeRecvBytes(id, gates[id].buffered - MAX_UNFINISHED);
        }
        return;
      }
      if !isServer {
        return;
      }
      if gates[id].buffered + size > preAcceptLimit {
        gates := gates - {id};
        DiscardStreamRecvBytes(id);
        return;
      }
      gates := gates[id := gates[id].(buffered := gates[id].buffered + size)];
    }
  }
}
