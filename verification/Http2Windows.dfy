/**
 * The shadow windows of the HTTP/2 binding (section 6.9 of RFC 9113): since the library leaves
 * window management to its user, every window is kept as a size, the bytes received under it
 * and a reduction the peer does not know of.
 */
module Http2Windows {
  const MAX_WINDOW: int := 0x7FFF_FFFF

  /** The connection's window before any WINDOW_UPDATE. */
  const INITIAL_CONNECTION_WINDOW: int := 65535

  datatype Window = Window(local: int, recv: int, reduction: int)

  function NewWindow(size: int): Window { Window(size, 0, 0) }

  /** DATA arrives; the second component is the WINDOW_UPDATE that goes out, or 0. */
  function Receive(w: Window, size: nat): (Window, int) {
    var recv := w.recv + size;
    if recv > 0 && recv >= w.local / 2 then (w.(recv := 0), recv) else (w.(recv := recv), 0)
  }

  /**
   * A smaller size is kept from the peer and made up for by counting bytes as not received; a
   * larger one takes such a reduction back before the peer is told of the rest.
   */
  function Resize(w: Window, size: int): (Window, int) {
    var delta := size - w.local;
    if delta <= 0 then (Window(size, w.recv + delta, w.reduction - delta), 0)
    else
      var take := if w.reduction < delta then w.reduction else delta;
      (Window(size, w.recv + take, w.reduction - take), delta - take)
  }

  // ---------- Runs of one window ----------

  datatype Op = Data(size: nat) | SetSize(window: int)

  function Step(w: Window, op: Op): (Window, int) {
    match op
    case Data(size) => Receive(w, size)
    case SetSize(size) => Resize(w, size)
  }

  function Run(w: Window, ops: seq<Op>): Window
    decreases |ops|
  {
    if ops == [] then w else Run(Step(w, ops[0]).0, ops[1..])
  }

  /** What the peer may send: its credit at first, less the DATA, plus the WINDOW_UPDATEs. */
  function Credit(credit: int, w: Window, ops: seq<Op>): int
    decreases |ops|
  {
    if ops == [] then credit
    else
      var (w', update) := Step(w, ops[0]);
      Credit(credit + update - (if ops[0].Data? then ops[0].size else 0), w', ops[1..])
  }

  /** Sizes are those set_local_window_size accepts, and the peer stays within its window. */
  predicate Fair(credit: int, w: Window, ops: seq<Op>)
    decreases |ops|
  {
    ops != [] ==>
      (match ops[0] case Data(size) => size <= credit case SetSize(size) => 0 <= size <= MAX_WINDOW)
      && var (w', update) := Step(w, ops[0]);
         Fair(credit + update - (if ops[0].Data? then ops[0].size else 0), w', ops[1..])
  }

  /** The shadow is exact, and the peer's window never exceeds what the protocol allows. */
  predicate Exact(w: Window, credit: int) {
    && w.local - w.recv == credit
    && 0 <= w.local && 0 <= w.reduction
    && -w.reduction <= w.recv
    && w.local + w.reduction <= MAX_WINDOW
    && 0 <= credit <= MAX_WINDOW
  }

  lemma StepExact(w: Window, credit: int, op: Op)
    requires Exact(w, credit)
    requires match op case Data(size) => size <= credit case SetSize(size) => 0 <= size <= MAX_WINDOW
    ensures var (w', update) := Step(w, op);
      && Exact(w', credit + update - (if op.Data? then op.size else 0))
      && 0 <= update
      && (op.Data? ==> w'.recv <= 0 || w'.recv < w'.local / 2)
      && (op.SetSize? ==> w'.local == op.window)
  {
  }

  lemma {:induction false} RunExact(w: Window, credit: int, ops: seq<Op>)
    requires Exact(w, credit) && Fair(credit, w, ops)
    ensures Exact(Run(w, ops), Credit(credit, w, ops))
    decreases |ops|
  {
    if ops != [] {
      StepExact(w, credit, ops[0]);
      var (w', update) := Step(w, ops[0]);
      RunExact(w', credit + update - (if ops[0].Data? then ops[0].size else 0), ops[1..]);
    }
  }

  /**
   * After any run the window size less the bytes counted against it is exactly what the peer
   * may send, and a number that a 32-bit integer holds.
   */
  lemma ShadowIsExact(size: int, ops: seq<Op>)
    requires 0 <= size <= MAX_WINDOW && Fair(size, NewWindow(size), ops)
    ensures var w := Run(NewWindow(size), ops);
      && w.local - w.recv == Credit(size, NewWindow(size), ops)
      && 0 <= w.local - w.recv <= MAX_WINDOW
      && w.local + w.reduction <= MAX_WINDOW && w.recv >= -w.reduction
  {
    RunExact(NewWindow(size), size, ops);
  }

  lemma {:induction false} RunSnoc(w: Window, ops: seq<Op>, op: Op)
    ensures Run(w, ops + [op]) == Step(Run(w, ops), op).0
    decreases |ops|
  {
    if ops == [] {
      assert (ops + [op])[1..] == [];
    } else {
      assert (ops + [op])[1..] == ops[1..] + [op];
      RunSnoc(Step(w, ops[0]).0, ops[1..], op);
    }
  }

  lemma {:induction false} CreditSnoc(credit: int, w: Window, ops: seq<Op>, op: Op)
    requires Fair(credit, w, ops + [op])
    ensures Fair(credit, w, ops)
    ensures match op case Data(size) => size <= Credit(credit, w, ops) case SetSize(size) => 0 <= size <= MAX_WINDOW
    decreases |ops|
  {
    if ops == [] {
      assert (ops + [op])[0] == op;
    } else {
      assert (ops + [op])[1..] == ops[1..] + [op] && (ops + [op])[0] == ops[0];
      var (w', update) := Step(w, ops[0]);
      CreditSnoc(credit + update - (if ops[0].Data? then ops[0].size else 0), w', ops[1..], op);
    }
  }

  /** A peer that stays within its window is not kept waiting: after every DATA the window is half open or more. */
  lemma HalfOpenAfterData(size: int, ops: seq<Op>, n: nat)
    requires 0 <= size <= MAX_WINDOW && Fair(size, NewWindow(size), ops + [Data(n)])
    ensures var w := Run(NewWindow(size), ops + [Data(n)]);
            w.recv <= 0 || w.recv < w.local / 2
  {
    CreditSnoc(size, NewWindow(size), ops, Data(n));
    RunExact(NewWindow(size), size, ops);
    RunSnoc(NewWindow(size), ops, Data(n));
    StepExact(Run(NewWindow(size), ops), Credit(size, NewWindow(size), ops), Data(n));
  }

  // ---------- What the application is promised ----------

  function Received(ops: seq<Op>): nat {
    if ops == [] then 0 else (if ops[0].Data? then ops[0].size else 0) + Received(ops[1..])
  }

  /** What DATA has made go out in WINDOW_UPDATEs; those of a larger size do not count. */
  function Returned(w: Window, ops: seq<Op>): int
    decreases |ops|
  {
    if ops == [] then 0
    else (if ops[0].Data? then Step(w, ops[0]).1 else 0) + Returned(Step(w, ops[0]).0, ops[1..])
  }

  /** A window as its application sees it: the size it asked for, the peer's credit, and the DATA not yet given back. */
  datatype Ledger = Ledger(size: int, credit: int, unreturned: int)

  /**
   * DATA uses credit up, and once half of the size is missing the peer is topped up to the size. A new size
   * takes nothing back, and raises the credit to all of it but for the DATA not yet given back.
   */
  function Enter(l: Ledger, op: Op): Ledger {
    match op
    case Data(size) =>
      var credit := l.credit - size;
      if l.size > credit && l.size - credit >= l.size / 2 then Ledger(l.size, l.size, l.unreturned + size - (l.size - credit))
      else Ledger(l.size, credit, l.unreturned + size)
    case SetSize(size) => Ledger(size, if l.credit < size - l.unreturned then size - l.unreturned else l.credit, l.unreturned)
  }

  function EnterAll(l: Ledger, ops: seq<Op>): Ledger
    decreases |ops|
  {
    if ops == [] then l else EnterAll(Enter(l, ops[0]), ops[1..])
  }

  /** A window with its credit, as the application sees it. */
  function LedgerOf(w: Window, credit: int): Ledger { Ledger(w.local, credit, w.recv + w.reduction) }

  /** The credit after one step. */
  function CreditAfter(credit: int, w: Window, op: Op): int { credit + Step(w, op).1 - (if op.Data? then op.size else 0) }

  lemma StepEnters(w: Window, credit: int, op: Op)
    requires Exact(w, credit)
    ensures var (w', update) := Step(w, op);
      && LedgerOf(w', CreditAfter(credit, w, op)) == Enter(LedgerOf(w, credit), op)
      && w'.recv + w'.reduction == w.recv + w.reduction + (if op.Data? then op.size - update else 0)
  {
  }

  lemma CreditUnfolds(credit: int, w: Window, ops: seq<Op>)
    requires ops != [] && Fair(credit, w, ops)
    ensures Credit(credit, w, ops) == Credit(CreditAfter(credit, w, ops[0]), Step(w, ops[0]).0, ops[1..])
    ensures Fair(CreditAfter(credit, w, ops[0]), Step(w, ops[0]).0, ops[1..])
    ensures match ops[0] case Data(size) => size <= credit case SetSize(size) => 0 <= size <= MAX_WINDOW
  {
    hide Step;
  }

  lemma {:induction false} RunEnters(w: Window, credit: int, ops: seq<Op>)
    requires Exact(w, credit) && Fair(credit, w, ops)
    ensures LedgerOf(Run(w, ops), Credit(credit, w, ops)) == EnterAll(LedgerOf(w, credit), ops)
    decreases |ops|
  {
    if ops != [] {
      CreditUnfolds(credit, w, ops);
      StepExact(w, credit, ops[0]);
      StepEnters(w, credit, ops[0]);
      hide Step, Enter, Exact, LedgerOf, Credit, Fair;
      RunEnters(Step(w, ops[0]).0, CreditAfter(credit, w, ops[0]), ops[1..]);
    }
  }

  lemma {:induction false} RunAccounts(w: Window, credit: int, ops: seq<Op>)
    requires Exact(w, credit) && Fair(credit, w, ops)
    ensures Run(w, ops).recv + Run(w, ops).reduction == w.recv + w.reduction + Received(ops) - Returned(w, ops)
    decreases |ops|
  {
    if ops != [] {
      CreditUnfolds(credit, w, ops);
      StepExact(w, credit, ops[0]);
      StepEnters(w, credit, ops[0]);
      hide Step, Enter, Exact, LedgerOf, Credit, Fair;
      RunAccounts(Step(w, ops[0]).0, CreditAfter(credit, w, ops[0]), ops[1..]);
    }
  }

  /**
   * After any run size, credit and the DATA not yet given back are what the ledger says: no change of size
   * touches what is not yet given back, and every growth is told to the peer as far as it can be.
   */
  lemma PromisesAreKept(size: int, ops: seq<Op>)
    requires 0 <= size <= MAX_WINDOW && Fair(size, NewWindow(size), ops)
    ensures var w := Run(NewWindow(size), ops); var l := EnterAll(Ledger(size, size, 0), ops);
      && w.local == l.size && Credit(size, NewWindow(size), ops) == l.credit
      && w.recv + w.reduction == l.unreturned == Received(ops) - Returned(NewWindow(size), ops)
  {
    RunEnters(NewWindow(size), size, ops);
    RunAccounts(NewWindow(size), size, ops);
  }

  /** A size set when nothing is owed leaves the peer exactly that credit, unless it already holds more. */
  lemma SizeBecomesCredit(size: int, ops: seq<Op>, n: int)
    requires 0 <= size <= MAX_WINDOW && 0 <= n <= MAX_WINDOW && Fair(size, NewWindow(size), ops + [SetSize(n)])
    requires Received(ops) == Returned(NewWindow(size), ops)
    ensures var before := Credit(size, NewWindow(size), ops);
            Credit(size, NewWindow(size), ops + [SetSize(n)]) == (if before <= n then n else before)
  {
    CreditSnoc(size, NewWindow(size), ops, SetSize(n));
    PromisesAreKept(size, ops);
    PromisesAreKept(size, ops + [SetSize(n)]);
    EnterSnoc(Ledger(size, size, 0), ops, SetSize(n));
  }

  lemma {:induction false} EnterSnoc(l: Ledger, ops: seq<Op>, op: Op)
    ensures EnterAll(l, ops + [op]) == Enter(EnterAll(l, ops), op)
    decreases |ops|
  {
    if ops == [] {
      assert (ops + [op])[0] == op && (ops + [op])[1..] == [];
    } else {
      assert (ops + [op])[1..] == ops[1..] + [op] && (ops + [op])[0] == ops[0];
      EnterSnoc(Enter(l, ops[0]), ops[1..], op);
    }
  }

  // ---------- The object ----------

  class Http2Connection {
    const initialWindowSize: int
    var connLocal: int
    var connRecv: int
    var connReduction: int
    var streams: set<int>
    var streamLocal: map<int, int>
    var streamRecv: map<int, int>
    var streamReduction: map<int, int>
    /** What the peer may send, on the connection and on each stream. */
    ghost var connCredit: int
    ghost var streamCredit: map<int, int>

    ghost function Connection(): Window
      reads this
    {
      Window(connLocal, connRecv, connReduction)
    }

    function Entry(m: map<int, int>, id: int, default: int): int { if id in m then m[id] else default }

    ghost function Stream(id: int): Window
      reads this
    {
      Window(Entry(streamLocal, id, initialWindowSize), Entry(streamRecv, id, 0), Entry(streamReduction, id, 0))
    }

    ghost function StreamCredit(id: int): int
      reads this
    {
      Entry(streamCredit, id, initialWindowSize)
    }

    ghost predicate Valid()
      reads this
    {
      && 0 <= initialWindowSize <= MAX_WINDOW
      && Exact(Connection(), connCredit)
      && (forall id :: Exact(Stream(id), StreamCredit(id)))
      && (forall id :: id in streams ==> id in streamLocal)
    }

    constructor (initialWindowSize: int)
      requires 0 <= initialWindowSize <= MAX_WINDOW
      ensures Valid() && Connection() == NewWindow(INITIAL_CONNECTION_WINDOW) && streams == {}
      ensures forall id :: Stream(id) == NewWindow(initialWindowSize)
    {
      this.initialWindowSize := initialWindowSize;
      connLocal, connRecv, connReduction, connCredit := INITIAL_CONNECTION_WINDOW, 0, 0, INITIAL_CONNECTION_WINDOW;
      streams, streamLocal, streamRecv, streamReduction, streamCredit := {}, map[], map[], map[], map[];
    }

    method RegisterStream(id: int)
      requires Valid()
      modifies this
      ensures Valid() && streams == old(streams) + {id} && Connection() == old(Connection()) && connCredit == old(connCredit)
      ensures forall i :: Stream(i) == old(Stream(i)) && StreamCredit(i) == old(StreamCredit(i))
    {
      streams := streams + {id};
      if id !in streamLocal {
        streamLocal := streamLocal[id := initialWindowSize];
      }
      assert forall i :: Stream(i) == old(Stream(i)) && StreamCredit(i) == old(StreamCredit(i));
    }

    method UnregisterStream(id: int)
      requires Valid()
      modifies this
      ensures Valid() && streams == old(streams) - {id} && Connection() == old(Connection()) && connCredit == old(connCredit)
      ensures forall i :: i != id ==> Stream(i) == old(Stream(i)) && StreamCredit(i) == old(StreamCredit(i))
    {
      streams := streams - {id};
      streamLocal := streamLocal - {id};
      streamRecv := streamRecv - {id};
      streamReduction := streamReduction - {id};
      streamCredit := streamCredit - {id};
      assert forall i :: i != id ==> Stream(i) == old(Stream(i)) && StreamCredit(i) == old(StreamCredit(i));
      assert Stream(id) == NewWindow(initialWindowSize) && StreamCredit(id) == initialWindowSize;
    }

    method ExtendRecvConnectionWindow(size: nat)
      requires Valid() && size <= connCredit
      modifies this`connRecv, this`connCredit
      ensures Valid()
      ensures var (w, update) := Receive(old(Connection()), size);
              Connection() == w && connCredit == old(connCredit) - size + update
      ensures connRecv <= 0 || connRecv < connLocal / 2
    {
      StepExact(Connection(), connCredit, Data(size));
      connRecv := connRecv + size;
      connCredit := connCredit - size;
      if connRecv > 0 && connRecv >= connLocal / 2 {
        var amount := connRecv;
        connRecv := 0;
        connCredit := connCredit + amount;
      }
      assert forall i :: Stream(i) == old(Stream(i)) && StreamCredit(i) == old(StreamCredit(i));
    }

    method ExtendRecvStreamWindow(id: int, size: nat)
      requires Valid() && size <= StreamCredit(id)
      modifies this`streamLocal, this`streamRecv, this`streamReduction, this`streamCredit
      ensures Valid()
      ensures var (w, update) := Receive(old(Stream(id)), size);
              Stream(id) == w && StreamCredit(id) == old(StreamCredit(id)) - size + update
      ensures forall i :: i != id ==> Stream(i) == old(Stream(i)) && StreamCredit(i) == old(StreamCredit(i))
    {
      StepExact(Stream(id), StreamCredit(id), Data(size));
      hide Exact;
      var local := if id in streamLocal then streamLocal[id] else initialWindowSize;
      var recv := (if id in streamRecv then streamRecv[id] else 0) + size;
      ghost var credit := StreamCredit(id) - size;
      if recv > 0 && recv >= local / 2 {
        credit := credit + recv;
        recv := 0;
      }
      SetStream(id, local, recv, if id in streamReduction then streamReduction[id] else 0, credit);
    }

    method OnRecvData(id: int, size: nat)
      requires Valid() && size <= StreamCredit(id) && size <= connCredit
      modifies this
      ensures Valid()
      ensures Stream(id) == Receive(old(Stream(id)), size).0 && Connection() == Receive(old(Connection()), size).0
      ensures forall i :: i != id ==> Stream(i) == old(Stream(i))
    {
      ExtendRecvStreamWindow(id, size);
      ExtendRecvConnectionWindow(size);
    }

    /** Negative sizes are refused; an unknown stream is no error. */
    method SetLocalWindowSize(id: int, size: int) returns (ok: bool)
      requires Valid() && size <= MAX_WINDOW
      modifies this
      ensures Valid() && ok == (size >= 0)
      ensures ok && id == 0 ==>
                var (w, update) := Resize(old(Connection()), size);
                Connection() == w && connCredit == old(connCredit) + update && w.local == size
      ensures ok && id != 0 && id in old(streams) ==>
                var (w, update) := Resize(old(Stream(id)), size);
                Stream(id) == w && StreamCredit(id) == old(StreamCredit(id)) + update && w.local == size
      ensures !ok || id != 0 ==> Connection() == old(Connection())
      ensures forall i :: i != id || !ok || id == 0 || id !in old(streams) ==> Stream(i) == old(Stream(i))
    {
      if size < 0 {
        return false;
      }
      if id == 0 {
        ResizeConnection(size);
      } else if id in streams {
        ResizeStream(id, size);
      }
      return true;
    }

    method ResizeConnection(size: int)
      requires Valid() && 0 <= size <= MAX_WINDOW
      modifies this`connLocal, this`connRecv, this`connReduction, this`connCredit
      ensures Valid()
      ensures var (w, update) := Resize(old(Connection()), size);
              Connection() == w && connCredit == old(connCredit) + update && w.local == size
    {
      StepExact(Connection(), connCredit, SetSize(size));
      hide Exact;
      var delta := size - connLocal;
      if delta < 0 {
        connLocal := connLocal + delta;
        connRecv := connRecv + delta;
        connReduction := connReduction - delta;
      } else if delta > 0 {
        connLocal := connLocal + delta;
        var take := if connReduction < delta then connReduction else delta;
        connReduction := connReduction - take;
        connRecv := connRecv + take;
        delta := delta - take;
        if delta > 0 {
          connCredit := connCredit + delta;
        }
      }
      assert forall i :: Stream(i) == old(Stream(i)) && StreamCredit(i) == old(StreamCredit(i));
    }

    method ResizeStream(id: int, size: int)
      requires Valid() && 0 <= size <= MAX_WINDOW && id in streams
      modifies this`streamLocal, this`streamRecv, this`streamReduction, this`streamCredit
      ensures Valid()
      ensures var (w, update) := Resize(old(Stream(id)), size);
              Stream(id) == w && StreamCredit(id) == old(StreamCredit(id)) + update && w.local == size
      ensures forall i :: i != id ==> Stream(i) == old(Stream(i))
    {
      StepExact(Stream(id), StreamCredit(id), SetSize(size));
      hide Exact;
      var local := streamLocal[id];
      var recv := if id in streamRecv then streamRecv[id] else 0;
      var reduction := if id in streamReduction then streamReduction[id] else 0;
      ghost var credit := StreamCredit(id);
      var delta := size - local;
      if delta < 0 {
        recv := recv + delta;
        reduction := reduction - delta;
      } else if delta > 0 {
        var take := if reduction < delta then reduction else delta;
        reduction := reduction - take;
        recv := recv + take;
        credit := credit + (delta - take);
      }
      SetStream(id, local + delta, recv, reduction, credit);
    }

    method SetStream(id: int, local: int, recv: int, reduction: int, ghost credit: int)
      modifies this`streamLocal, this`streamRecv, this`streamReduction, this`streamCredit
      ensures Stream(id) == Window(local, recv, reduction) && StreamCredit(id) == credit
      ensures forall i :: i != id ==> Stream(i) == old(Stream(i)) && StreamCredit(i) == old(StreamCredit(i))
      ensures streamLocal.Keys == old(streamLocal).Keys + {id}
    {
      streamLocal := streamLocal[id := local];
      streamRecv := streamRecv[id := recv];
      streamReduction := streamReduction[id := reduction];
      streamCredit := streamCredit[id := credit];
    }

    /** The value a caller reads fits the 32-bit type it is returned as. */
    method LocalWindowSize() returns (size: int)
      requires Valid()
      ensures size == connCredit && 0 <= size <= MAX_WINDOW
    {
      size := connLocal - connRecv;
    }
  }
}
