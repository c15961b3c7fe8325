/**
 * The boundary guard of WebTransport over HTTP/3: no byte behind the HEADERS frame of a
 * request stream reaches the HTTP/3 library while the header block is still undecoded, and
 * no byte is lost or reordered on the way.
 *
 * The library is an oracle: which header blocks are undecoded is a function of the reads it
 * has been given.
 */
module HeadersGuard {
  import opened Capsules
  import opened Varint

  const HEADERS: nat := 0x01

  /** Type, payload length and length of a frame header (section 7.1 of RFC 9114). */
  function FrameHeader(b: seq<Byte>): (r: Option<(nat, nat, nat)>)
    ensures r.Some? ==> r.value.2 <= |b| && r.value.2 <= 16
  {
    match Decoded(b)
    case None => None
    case Some((t, n)) =>
      match Decoded(b[n..])
      case None => None
      case Some((length, m)) => Some((t, length, n + m))
  }

  lemma FrameHeaderIsStable(b: seq<Byte>, more: seq<Byte>)
    requires FrameHeader(b).Some?
    ensures FrameHeader(b + more) == FrameHeader(b)
  {
    DecodedIsStable(b, more);
    var n := Decoded(b).value.1;
    DecodedIsStable(b[n..], more);
    assert (b + more)[n..] == b[n..] + more;
  }

  /** Sixteen bytes always hold a frame header. */
  lemma SixteenSuffice(b: seq<Byte>)
    ensures |b| >= 16 ==> FrameHeader(b).Some?
    ensures FrameHeader(b[..Min(16, |b|)]) == FrameHeader(b)
  {
    if |b| >= 16 {
      var p := b[..16];
      assert FrameHeader(p).Some?;
      FrameHeaderIsStable(p, b[16..]);
      assert b == p + b[16..];
    } else {
      assert b[..Min(16, |b|)] == b;
    }
  }

  // ---------- State ----------

  datatype Guard = Guard(
    parsed: bool,
    isHeaders: bool,
    total: nat,
    forwarded: nat,
    prefix: seq<Byte>,
    held: seq<Byte>,
    heldFin: bool)

  const NewGuard := Guard(false, false, 0, 0, [], [], false)

  /** One read the library was given. */
  datatype Call = Call(id: nat, bytes: seq<Byte>, fin: bool)

  /**
   * History: the bytes received per stream, the streams whose FIN was received, those of which an
   * empty FIN was received while bytes were waiting, and those whose first bytes went straight to
   * the library, as on the data streams this end has opened itself.
   */
  datatype Conn = Conn(
    guards: map<nat, Guard>,
    calls: seq<Call>,
    received: map<nat, seq<Byte>>,
    ended: set<nat>,
    overtaken: set<nat>,
    own: set<nat>)

  /** Which streams have an undecoded header block once these reads were made. */
  type Oracle = seq<Call> -> set<nat>

  /** Client-initiated bidirectional streams. */
  predicate Guarded(id: nat) { id % 4 == 0 }

  /** A read of a request stream touches its own entry only; any other read only unblocks. */
  ghost predicate Contract(o: Oracle) {
    forall calls: seq<Call>, c: Call, i: nat ::
      if Guarded(c.id) then i != c.id ==> (i in o(calls + [c]) <==> i in o(calls))
      else i in o(calls + [c]) ==> i in o(calls)
  }

  function GuardOf(c: Conn, id: nat): Guard { if id in c.guards then c.guards[id] else NewGuard }

  function ReceivedOf(c: Conn, id: nat): seq<Byte> { if id in c.received then c.received[id] else [] }

  // ---------- One read ----------

  /** What the guard makes of `data`: its next state, and what goes to the library now. */
  function Split(g: Guard, data: seq<Byte>, fin: bool, blocked: bool): (Guard, Option<(seq<Byte>, bool)>) {
    if !g.parsed then SplitFirst(g, g.prefix + data, fin)
    else if !g.isHeaders then (g, Some((data, fin)))
    else if g.forwarded < g.total then SplitHeaders(g, data, fin)
    else if blocked then (g.(held := g.held + data, heldFin := g.heldFin || fin), None)
    else (g, Some((data, fin)))
  }

  /** `all` is everything of the stream so far. */
  function SplitFirst(g: Guard, all: seq<Byte>, fin: bool): (Guard, Option<(seq<Byte>, bool)>) {
    match FrameHeader(all)
    case None =>
      if fin then (g.(prefix := []), Some((all, true))) else (g.(prefix := all), None)
    case Some((t, length, header)) =>
      if t != HEADERS then (g.(parsed := true, isHeaders := false, prefix := []), Some((all, fin)))
      else SplitHeaders(g.(parsed := true, isHeaders := true, total := header + length, prefix := [], forwarded := 0), all, fin)
  }

  /** Bytes up to the end of the HEADERS frame go on, the rest is held, with the FIN. */
  function SplitHeaders(g: Guard, data: seq<Byte>, fin: bool): (Guard, Option<(seq<Byte>, bool)>)
    requires g.forwarded <= g.total
  {
    var remaining := g.total - g.forwarded;
    if |data| <= remaining then (g.(forwarded := g.forwarded + |data|), Some((data, fin)))
    else (g.(forwarded := g.total, held := data[remaining..], heldFin := fin), Some((data[..remaining], false)))
  }

  function Forward(c: Conn, id: nat, bytes: seq<Byte>, fin: bool): Conn {
    c.(calls := c.calls + [Call(id, bytes, fin)])
  }

  /** Whether held bytes may go now. */
  predicate Unblocked(c: Conn, o: Oracle, id: nat) {
    id in c.guards && c.guards[id].held != [] && c.guards[id].parsed && c.guards[id].isHeaders
    && c.guards[id].forwarded == c.guards[id].total && id !in o(c.calls)
  }

  function Release(c: Conn, id: nat): Conn
    requires id in c.guards
  {
    var g := c.guards[id];
    Forward(c.(guards := c.guards[id := g.(held := [], heldFin := false)]), id, g.held, g.heldFin)
  }

  function FlushEach(c: Conn, o: Oracle, ids: seq<nat>): Conn
    decreases |ids|
  {
    if ids == [] then c
    else FlushEach(if Unblocked(c, o, ids[0]) then Release(c, ids[0]) else c, o, ids[1..])
  }

  function UnblockedIds(c: Conn, o: Oracle): set<nat> { set id | id in c.guards && Unblocked(c, o, id) }

  function Flush(c: Conn, o: Oracle): Conn {
    FlushEach(c, o, Ascending(UnblockedIds(c, o)))
  }

  predicate IsLeast(k: nat, s: set<nat>) { k in s && forall i :: i in s ==> k <= i }

  lemma LeastBelow(s: set<nat>, n: nat)
    requires n in s
    ensures exists k :: IsLeast(k, s)
    decreases n
  {
    if m: nat :| m in s && m < n { LeastBelow(s, m); } else { assert IsLeast(n, s); }
  }

  function Ascending(s: set<nat>): (ids: seq<nat>)
    ensures forall i :: i in ids <==> i in s
    decreases s
  {
    if s == {} then []
    else
      ghost var n :| n in s;
      LeastBelow(s, n);
      var k :| IsLeast(k, s);
      [k] + Ascending(s - {k})
  }

  /** An empty read goes past the bytes that wait. */
  predicate Overtakes(g: Guard, data: seq<Byte>) { data == [] && (g.prefix != [] || g.held != []) }

  /** History of what came in. */
  function Note(c: Conn, id: nat, data: seq<Byte>, fin: bool): Conn {
    c.(received := c.received[id := ReceivedOf(c, id) + data],
       ended := if fin then c.ended + {id} else c.ended,
       overtaken := if fin && Overtakes(GuardOf(c, id), data) then c.overtaken + {id} else c.overtaken)
  }

  /** A read that goes straight to the library. */
  function Straight(c: Conn, id: nat, data: seq<Byte>, fin: bool): Conn {
    Forward(Note(c, id, data, fin).(own := if data != [] && !GuardOf(c, id).parsed then c.own + {id} else c.own),
            id, data, fin)
  }

  /** `bypass`: an empty read, another kind of stream, or an established WebTransport data stream. */
  function Receive(c: Conn, o: Oracle, bypass: bool, id: nat, data: seq<Byte>, fin: bool): Conn {
    var c0 := Note(c, id, data, fin);
    if bypass then Flush(Straight(c, id, data, fin), o)
    else
      var g := GuardOf(c, id);
      var (g', out) := Split(g, data, fin, id in o(c.calls));
      var c1 := c0.(guards := c.guards[id := g']);
      match out
      case None => if g.parsed then Flush(c1, o) else c1
      case Some((bytes, f)) => Flush(if bytes != [] || f then Forward(c1, id, bytes, f) else c1, o)
  }

  // ---------- What holds between reads ----------

  function Fed(calls: seq<Call>, id: nat): seq<Byte> {
    if calls == [] then []
    else
      var c := calls[|calls| - 1];
      Fed(calls[..|calls| - 1], id) + (if c.id == id then c.bytes else [])
  }

  predicate FinFed(calls: seq<Call>, id: nat) { exists k :: 0 <= k < |calls| && calls[k].id == id && calls[k].fin }

  /** A read stays on one side of the boundary, and behind it only once the header block is decoded. */
  predicate CleanRead(start: nat, bytes: seq<Byte>, total: nat, blocked: bool) {
    bytes != [] ==> start + |bytes| <= total || (total <= start && !blocked)
  }

  predicate Clean(o: Oracle, before: seq<Call>, c: Call, id: nat, total: nat) {
    c.id == id ==> CleanRead(|Fed(before, id)|, c.bytes, total, id in o(before))
  }

  predicate AllClean(o: Oracle, calls: seq<Call>, id: nat, total: nat) {
    calls == []
    || (AllClean(o, calls[..|calls| - 1], id, total) && Clean(o, calls[..|calls| - 1], calls[|calls| - 1], id, total))
  }

  /** Where the HEADERS frame ends, if the stream begins with one. */
  function Boundary(b: seq<Byte>): Option<nat> {
    match FrameHeader(b)
    case None => None
    case Some((t, length, header)) => if t == HEADERS then Some(header + length) else None
  }

  /** What there is to know about one stream: its guard, its bytes, and those the library has. */
  datatype Flow = Flow(g: Guard, all: seq<Byte>, fed: seq<Byte>, finFed: bool, ended: bool, overtaken: bool, own: bool)

  function FlowOf(c: Conn, id: nat): Flow {
    Flow(GuardOf(c, id), ReceivedOf(c, id), Fed(c.calls, id), FinFed(c.calls, id), id in c.ended, id in c.overtaken, id in c.own)
  }

  /** Passed on, then waiting to be parsed, then held: nothing is lost, added or moved. */
  predicate Conserved(v: Flow) { v.fed + v.g.prefix + v.g.held == v.all }

  /** The guard knows where the HEADERS frame ends and how much of it has gone. */
  predicate Tracks(v: Flow) {
    if v.own then !v.g.parsed && v.g.prefix == [] && v.g.held == []
    else if !v.g.parsed then v.g.held == [] && FrameHeader(v.all).None? && (!v.ended ==> v.fed == [])
    else if !v.g.isHeaders then v.g.held == [] && v.g.prefix == [] && FrameHeader(v.all).Some? && Boundary(v.all).None?
    else
      && v.g.prefix == [] && Boundary(v.all) == Some(v.g.total)
      && v.g.forwarded == Min(|v.fed|, v.g.total)
      && (v.g.held != [] ==> v.g.forwarded == v.g.total)
  }

  /** The FIN is on its way behind the held bytes, or it has been passed on. */
  predicate FinOk(v: Flow) {
    && (v.ended <==> v.g.heldFin || v.finFed)
    && !(v.g.heldFin && v.finFed)
    && (v.g.heldFin ==> v.g.held != [])
    && (v.finFed && !v.overtaken ==> v.g.prefix == [] && v.g.held == [])
    && (v.overtaken ==> v.finFed)
  }

  predicate Good(v: Flow) { Conserved(v) && Tracks(v) && FinOk(v) }

  predicate HeldIsBlocked(c: Conn, o: Oracle, id: nat) { GuardOf(c, id).held != [] ==> id in o(c.calls) }

  predicate GuardOk(c: Conn, o: Oracle, id: nat) {
    && Good(FlowOf(c, id))
    && (GuardOf(c, id).parsed && GuardOf(c, id).isHeaders ==> AllClean(o, c.calls, id, GuardOf(c, id).total))
  }

  ghost predicate Sound(c: Conn, o: Oracle) {
    && (forall id :: id in c.guards ==> Guarded(id))
    && (forall id: nat :: Guarded(id) ==> GuardOk(c, o, id) && HeldIsBlocked(c, o, id))
  }

  // ---------- Steps ----------

  lemma FedSnoc(calls: seq<Call>, c: Call, id: nat)
    ensures Fed(calls + [c], id) == Fed(calls, id) + (if c.id == id then c.bytes else [])
    ensures FinFed(calls + [c], id) <==> FinFed(calls, id) || (c.id == id && c.fin)
  {
    var l := calls + [c];
    assert l[..|calls|] == calls;
    if FinFed(calls, id) { var k :| 0 <= k < |calls| && calls[k].id == id && calls[k].fin; assert l[k] == calls[k]; }
    if c.id == id && c.fin { assert l[|calls|] == c; }
    if FinFed(l, id) && !(c.id == id && c.fin) {
      var k :| 0 <= k < |l| && l[k].id == id && l[k].fin;
      assert calls[k] == l[k];
    }
  }

  lemma CleanSnoc(o: Oracle, calls: seq<Call>, c: Call, id: nat, total: nat)
    ensures AllClean(o, calls + [c], id, total) <==> AllClean(o, calls, id, total) && Clean(o, calls, c, id, total)
  {
    assert (calls + [c])[..|calls|] == calls;
  }

  /** A read for another stream leaves this one alone. */
  lemma OtherCall(c: Conn, c': Conn, o: Oracle, call: Call, id: nat)
    requires GuardOk(c, o, id) && call.id != id && c'.calls == c.calls + [call]
    requires GuardOf(c', id) == GuardOf(c, id) && ReceivedOf(c', id) == ReceivedOf(c, id)
    requires (id in c'.ended <==> id in c.ended) && (id in c'.overtaken <==> id in c.overtaken)
    requires id in c'.own <==> id in c.own
    ensures GuardOk(c', o, id)
  {
    FedSnoc(c.calls, call, id);
    CleanSnoc(o, c.calls, call, id, GuardOf(c, id).total);
    hide Fed, FinFed, AllClean, Good;
    assert Fed(c.calls, id) + [] == Fed(c.calls, id);
    assert FlowOf(c', id) == FlowOf(c, id);
  }

  lemma ReleaseFlow(v: Flow)
    requires Good(v) && v.g.held != []
    ensures Good(Flow(v.g.(held := [], heldFin := false), v.all, v.fed + v.g.held, v.finFed || v.g.heldFin, v.ended, v.overtaken, v.own))
    ensures v.g.parsed && v.g.isHeaders && |v.fed| >= v.g.total
  {
    hide FrameHeader, Boundary;
    assert v.g.prefix == [];
    assert v.fed + [] == v.fed && v.fed + v.g.held + [] + [] == v.fed + v.g.held;
  }

  lemma ReleaseOwn(c: Conn, o: Oracle, id: nat)
    requires GuardOk(c, o, id) && Unblocked(c, o, id)
    ensures GuardOk(Release(c, id), o, id) && GuardOf(Release(c, id), id).held == []
  {
    var g := c.guards[id];
    var call := Call(id, g.held, g.heldFin);
    FedSnoc(c.calls, call, id);
    CleanSnoc(o, c.calls, call, id, g.total);
    ReleaseFlow(FlowOf(c, id));
    hide Fed, FinFed, AllClean, Good;
  }

  /** Between a read and the end of the flush only the listed streams may hold unblocked bytes. */
  ghost predicate Settling(c: Conn, o: Oracle, todo: set<nat>) {
    && (forall id :: id in c.guards ==> Guarded(id))
    && (forall id: nat :: Guarded(id) ==> GuardOk(c, o, id))
    && (forall id: nat :: Guarded(id) && id !in todo ==> HeldIsBlocked(c, o, id))
  }

  lemma ReleaseElsewhere(c: Conn, o: Oracle, id: nat, i: nat)
    requires Contract(o) && id in c.guards && Guarded(id) && i != id
    ensures HeldIsBlocked(Release(c, id), o, i) <==> HeldIsBlocked(c, o, i)
  {
    var call := Call(id, c.guards[id].held, c.guards[id].heldFin);
    assert i in o(c.calls + [call]) <==> i in o(c.calls);
  }

  lemma ReleaseEmpties(c: Conn, o: Oracle, id: nat)
    requires id in c.guards
    ensures HeldIsBlocked(Release(c, id), o, id)
    ensures Release(c, id).guards.Keys == c.guards.Keys
  {
  }

  /** A release serves its own stream and leaves the others alone. */
  lemma ReleaseStream(c: Conn, o: Oracle, id: nat, i: nat)
    requires Contract(o) && Unblocked(c, o, id) && Guarded(id) && GuardOk(c, o, id) && GuardOk(c, o, i)
    ensures GuardOk(Release(c, id), o, i)
    ensures i == id || HeldIsBlocked(c, o, i) ==> HeldIsBlocked(Release(c, id), o, i)
  {
    hide GuardOk, Contract;
    if i == id {
      ReleaseOwn(c, o, id);
      ReleaseEmpties(c, o, id);
    } else {
      ReleaseElsewhere(c, o, id, i);
      OtherCall(c, Release(c, id), o, Call(id, c.guards[id].held, c.guards[id].heldFin), i);
    }
  }

  lemma ReleaseSettlesAt(c: Conn, o: Oracle, todo: set<nat>, id: nat, i: nat)
    requires Contract(o) && Settling(c, o, todo) && Unblocked(c, o, id) && Guarded(i)
    ensures GuardOk(Release(c, id), o, i)
    ensures i !in todo - {id} ==> HeldIsBlocked(Release(c, id), o, i)
  {
    assert id in c.guards && Guarded(id) && GuardOk(c, o, id) && GuardOk(c, o, i);
    assert i !in todo ==> HeldIsBlocked(c, o, i);
    hide Settling, Guarded, GuardOk, Contract, HeldIsBlocked, Release;
    ReleaseStream(c, o, id, i);
  }

  lemma ReleaseSettles(c: Conn, o: Oracle, todo: set<nat>, id: nat)
    requires Contract(o) && Settling(c, o, todo) && Unblocked(c, o, id)
    ensures Settling(Release(c, id), o, todo - {id})
  {
    ReleaseEmpties(c, o, id);
    assert forall i :: i in Release(c, id).guards ==> Guarded(i);
    hide Guarded, GuardOk, Contract, HeldIsBlocked, Release, Unblocked;
    forall i: nat | Guarded(i)
      ensures GuardOk(Release(c, id), o, i) && (i !in todo - {id} ==> HeldIsBlocked(Release(c, id), o, i))
    {
      ReleaseSettlesAt(c, o, todo, id, i);
    }
  }

  lemma SkipSettles(c: Conn, o: Oracle, todo: set<nat>, id: nat)
    requires Settling(c, o, todo) && !Unblocked(c, o, id)
    ensures Settling(c, o, todo - {id})
  {
    hide GuardOk, HeldIsBlocked, Unblocked;
    if Guarded(id) {
      assert GuardOk(c, o, id);
      BlockedIfNot(c, o, id);
    }
  }

  lemma BlockedIfNot(c: Conn, o: Oracle, id: nat)
    requires GuardOk(c, o, id) && !Unblocked(c, o, id)
    ensures HeldIsBlocked(c, o, id)
  {
    hide Fed, AllClean, FrameHeader, Boundary;
  }

  lemma {:induction false} FlushEachSettles(c: Conn, o: Oracle, ids: seq<nat>, todo: set<nat>)
    requires Contract(o) && Settling(c, o, todo) && forall i :: i in todo ==> i in ids
    ensures Settling(FlushEach(c, o, ids), o, {})
    ensures FlushEach(c, o, ids).received == c.received
    ensures FlushEach(c, o, ids).ended == c.ended && FlushEach(c, o, ids).overtaken == c.overtaken
    ensures FlushEach(c, o, ids).own == c.own
    decreases |ids|
  {
    hide Contract, Settling;
    if ids == [] {
      assert todo == {};
    } else {
      var id := ids[0];
      if Unblocked(c, o, id) { ReleaseSettles(c, o, todo, id); } else { SkipSettles(c, o, todo, id); }
      assert forall i :: i in todo && i != id ==> i in ids[1..];
      FlushEachSettles(if Unblocked(c, o, id) then Release(c, id) else c, o, ids[1..], todo - {id});
    }
  }

  /** Once unblocked bytes have been handed on, whatever is still held is blocked. */
  lemma FlushSettles(c: Conn, o: Oracle)
    requires Contract(o) && forall id :: id in c.guards ==> Guarded(id)
    requires forall id: nat :: Guarded(id) ==> GuardOk(c, o, id)
    ensures Sound(Flush(c, o), o)
    ensures Flush(c, o).received == c.received && Flush(c, o).ended == c.ended && Flush(c, o).overtaken == c.overtaken
    ensures Flush(c, o).own == c.own
  {
    var todo := UnblockedIds(c, o);
    hide GuardOk, Contract, HeldIsBlocked;
    forall id: nat | Guarded(id) && id !in todo ensures HeldIsBlocked(c, o, id) {
      assert GuardOk(c, o, id) && !Unblocked(c, o, id);
      BlockedIfNot(c, o, id);
    }
    FlushEachSettles(c, o, Ascending(todo), todo);
  }

  predicate Sorted(ids: seq<nat>) { forall j, k :: 0 <= j < k < |ids| ==> ids[j] < ids[k] }

  lemma {:induction false} AscendingIsSorted(s: set<nat>)
    ensures Sorted(Ascending(s))
    decreases s
  {
    if s != {} {
      var ids := Ascending(s);
      var k := ids[0];
      assert IsLeast(k, s) && ids == [k] + Ascending(s - {k});
      AscendingIsSorted(s - {k});
      hide Ascending;
      assert forall j :: 0 < j < |ids| ==> ids[j] == Ascending(s - {k})[j - 1];
    }
  }

  /** The reads that hand held bytes on. */
  function Handovers(c: Conn, ids: seq<nat>): seq<Call>
    requires forall k :: 0 <= k < |ids| ==> ids[k] in c.guards
  {
    if ids == [] then [] else [Call(ids[0], c.guards[ids[0]].held, c.guards[ids[0]].heldFin)] + Handovers(c, ids[1..])
  }

  /** Releasing one stream blocks or unblocks no other. */
  lemma ReleaseLeaves(c: Conn, o: Oracle, id: nat, i: nat)
    requires Contract(o) && id in c.guards && Guarded(id) && i != id && Unblocked(c, o, i)
    ensures Unblocked(Release(c, id), o, i) && Release(c, id).guards[i] == c.guards[i]
  {
    var call := Call(id, c.guards[id].held, c.guards[id].heldFin);
    assert i in o(c.calls + [call]) <==> i in o(c.calls);
  }

  lemma {:induction false} SameHandovers(c: Conn, c': Conn, ids: seq<nat>)
    requires forall k :: 0 <= k < |ids| ==> ids[k] in c.guards && ids[k] in c'.guards && c'.guards[ids[k]] == c.guards[ids[k]]
    ensures Handovers(c', ids) == Handovers(c, ids)
    decreases |ids|
  {
    if ids != [] {
      assert c'.guards[ids[0]] == c.guards[ids[0]];
      SameHandovers(c, c', ids[1..]);
    }
  }

  lemma {:induction false} FlushEachCalls(c: Conn, o: Oracle, ids: seq<nat>)
    requires Contract(o) && forall k :: 0 <= k < |ids| ==> ids[k] in c.guards && Guarded(ids[k]) && Unblocked(c, o, ids[k])
    requires Sorted(ids)
    ensures FlushEach(c, o, ids).calls == c.calls + Handovers(c, ids)
    decreases |ids|
  {
    hide Contract, Unblocked, Guarded;
    if ids != [] {
      var c', rest := Release(c, ids[0]), ids[1..];
      forall k | 0 <= k < |rest|
        ensures rest[k] in c'.guards && Guarded(rest[k]) && Unblocked(c', o, rest[k]) && c'.guards[rest[k]] == c.guards[rest[k]]
      {
        assert rest[k] == ids[k + 1] && ids[0] < ids[k + 1];
        ReleaseLeaves(c, o, ids[0], ids[k + 1]);
      }
      hide Release;
      FlushEachCalls(c', o, rest);
      SameHandovers(c, c', rest);
      assert c'.calls == c.calls + [Call(ids[0], c.guards[ids[0]].held, c.guards[ids[0]].heldFin)] by { ReleaseCalls(c, ids[0]); }
    }
  }

  lemma ReleaseCalls(c: Conn, id: nat)
    requires id in c.guards
    ensures Release(c, id).calls == c.calls + [Call(id, c.guards[id].held, c.guards[id].heldFin)]
  {
  }

  /** A flush hands on, in ascending order, what each stream holds whose header block was decoded when it began. */
  lemma FlushInOrder(c: Conn, o: Oracle)
    requires Contract(o) && forall id :: id in c.guards ==> Guarded(id)
    ensures var ids := Ascending(UnblockedIds(c, o));
      && (forall k :: 0 <= k < |ids| ==> ids[k] in c.guards)
      && Sorted(ids)
      && Flush(c, o).calls == c.calls + Handovers(c, ids)
  {
    hide Contract, Guarded, Unblocked;
    var ids := Ascending(UnblockedIds(c, o));
    AscendingIsSorted(UnblockedIds(c, o));
    forall k | 0 <= k < |ids| ensures ids[k] in c.guards && Guarded(ids[k]) && Unblocked(c, o, ids[k]) { assert ids[k] in UnblockedIds(c, o); }
    hide Ascending, UnblockedIds;
    FlushEachCalls(c, o, ids);
  }

  /**
   * No byte follows a FIN. A data stream is established before its first byte, as one that this
   * end opened is, or once its first frame has shown that it is no request; and so it stays.
   */
  predicate Expected(c: Conn, bypass: bool, id: nat, data: seq<Byte>) {
    && id !in c.ended
    && (data == [] || !Guarded(id) ==> bypass)
    && (bypass && Guarded(id) && data != [] ==>
          if GuardOf(c, id).parsed then !GuardOf(c, id).isHeaders else GuardOf(c, id).prefix == [])
    && (!bypass ==> id !in c.own)
  }

  lemma BoundaryIsStable(b: seq<Byte>, more: seq<Byte>)
    requires FrameHeader(b).Some?
    ensures FrameHeader(b + more).Some? && Boundary(b + more) == Boundary(b)
  {
    FrameHeaderIsStable(b, more);
    hide FrameHeader;
  }

  /** Passing data straight on is right where nothing is waiting: an empty read never disturbs anything but a FIN. */
  lemma BypassFlow(v: Flow, data: seq<Byte>, fin: bool)
    requires Good(v) && !v.ended && (data != [] ==> if v.g.parsed then !v.g.isHeaders else v.g.prefix == [])
    ensures Good(Flow(v.g, v.all + data, v.fed + data, v.finFed || fin, fin, v.overtaken || (fin && Overtakes(v.g, data)),
                      v.own || (data != [] && !v.g.parsed)))
  {
    if FrameHeader(v.all).Some? { BoundaryIsStable(v.all, data); }
    hide FrameHeader, Boundary;
    assert v.all + [] == v.all && v.fed + [] == v.fed;
    if data != [] { assert v.all + data == v.fed + data + [] + []; }
  }

  lemma BypassOwn(c: Conn, o: Oracle, id: nat, data: seq<Byte>, fin: bool)
    requires GuardOk(c, o, id) && Expected(c, true, id, data) && Guarded(id)
    ensures GuardOk(Straight(c, id, data, fin), o, id)
  {
    var call := Call(id, data, fin);
    FedSnoc(c.calls, call, id);
    CleanSnoc(o, c.calls, call, id, GuardOf(c, id).total);
    BypassFlow(FlowOf(c, id), data, fin);
    hide Fed, FinFed, AllClean, Good;
  }

  // ---------- What the guard does to one stream ----------

  /** The stream after a read that its guard splits. */
  function Taken(v: Flow, data: seq<Byte>, fin: bool, blocked: bool): Flow {
    var (g', out) := Split(v.g, data, fin, blocked);
    match out
    case None => Flow(g', v.all + data, v.fed, v.finFed, v.ended || fin, v.overtaken, v.own)
    case Some((bytes, f)) => Flow(g', v.all + data, v.fed + bytes, v.finFed || f, v.ended || fin, v.overtaken, v.own)
  }

  /** The read the guard passes on is clean. */
  predicate TakenClean(v: Flow, data: seq<Byte>, fin: bool, blocked: bool) {
    var (g', out) := Split(v.g, data, fin, blocked);
    out.Some? && g'.parsed && g'.isHeaders ==> CleanRead(|v.fed|, out.value.0, g'.total, blocked)
  }

  /** The first frame header is not complete yet. */
  lemma TakeIncomplete(v: Flow, data: seq<Byte>, fin: bool, blocked: bool)
    requires Good(v) && !v.ended && !v.own && !v.g.parsed && FrameHeader(v.g.prefix + data).None?
    ensures Good(Taken(v, data, fin, blocked))
  {
    var all := v.g.prefix + data;
    assert v.all == v.g.prefix by { assert [] + v.g.prefix + [] == v.g.prefix; }
    assert [] + all == all && all + [] + [] == all;
    hide FrameHeader, Boundary;
  }

  /** Within HEADERS, or across its end. */
  lemma TakeHeaders(v: Flow, data: seq<Byte>, fin: bool, blocked: bool)
    requires v.g.parsed && v.g.isHeaders && v.g.prefix == [] && v.g.held == [] && !v.g.heldFin && !v.finFed && !v.ended && !v.overtaken && !v.own
    requires v.g.forwarded == |v.fed| <= v.g.total && v.fed == v.all && data != []
    requires Boundary(v.all + data) == Some(v.g.total)
    ensures var (g', out) := SplitHeaders(v.g, data, fin);
      && out.Some? && g'.total == v.g.total && g'.parsed && g'.isHeaders
      && CleanRead(|v.fed|, out.value.0, v.g.total, blocked)
      && Good(Flow(g', v.all + data, v.fed + out.value.0, out.value.1, fin, false, false))
  {
    hide Boundary, FrameHeader;
    var r := v.g.total - v.g.forwarded;
    if |data| <= r {
      assert v.fed + data + [] + [] == v.all + data;
    } else {
      assert v.fed + data[..r] + [] + data[r..] == v.all + data;
    }
  }

  /** The frame header is complete. */
  lemma TakeFirst(v: Flow, data: seq<Byte>, fin: bool, blocked: bool)
    requires Good(v) && !v.ended && !v.own && !v.g.parsed && data != [] && FrameHeader(v.g.prefix + data).Some?
    ensures Good(Taken(v, data, fin, blocked)) && TakenClean(v, data, fin, blocked)
  {
    var all := v.g.prefix + data;
    assert v.all == v.g.prefix && v.fed == [] by { assert [] + v.g.prefix + [] == v.g.prefix; }
    assert !v.finFed && !v.overtaken && v.g.held == [] && !v.g.heldFin;
    if FrameHeader(all).value.0 == HEADERS { TakeFirstHeaders(v, all, fin, blocked); } else { TakeFirstOther(v, all, fin); }
    hide FrameHeader, Boundary, SplitFirst, Good;
    assert [] + SplitFirst(v.g, all, fin).1.value.0 == SplitFirst(v.g, all, fin).1.value.0;
  }

  lemma TakeFirstHeaders(v: Flow, all: seq<Byte>, fin: bool, blocked: bool)
    requires all != [] && FrameHeader(all).Some? && FrameHeader(all).value.0 == HEADERS
    requires v.g.held == [] && !v.g.heldFin
    ensures var (g', out) := SplitFirst(v.g, all, fin);
      && out.Some? && CleanRead(0, out.value.0, g'.total, blocked)
      && Good(Flow(g', all, out.value.0, out.value.1, fin, false, false))
  {
    var (t, length, header) := FrameHeader(all).value;
    assert Boundary(all) == Some(header + length);
    hide FrameHeader, Boundary;
    var g1 := v.g.(parsed := true, isHeaders := true, total := header + length, prefix := [], forwarded := 0);
    assert [] + all == all;
    TakeHeaders(Flow(g1, [], [], false, false, false, false), all, fin, blocked);
    hide SplitHeaders, Good;
    assert [] + SplitHeaders(g1, all, fin).1.value.0 == SplitHeaders(g1, all, fin).1.value.0;
  }

  lemma TakeFirstOther(v: Flow, all: seq<Byte>, fin: bool)
    requires FrameHeader(all).Some? && FrameHeader(all).value.0 != HEADERS
    requires v.g.held == [] && !v.g.heldFin
    ensures var (g', out) := SplitFirst(v.g, all, fin);
      && out == Some((all, fin)) && g'.parsed && !g'.isHeaders && Good(Flow(g', all, all, fin, fin, false, false))
  {
    assert Boundary(all).None?;
    hide FrameHeader, Boundary;
    assert all + [] + [] == all;
  }

  lemma TakeHeld(v: Flow, data: seq<Byte>, fin: bool)
    requires Good(v) && !v.ended && v.g.parsed && v.g.isHeaders && v.g.forwarded >= v.g.total && data != []
    ensures Good(Taken(v, data, fin, true)) && TakenClean(v, data, fin, true)
  {
    BoundaryIsStable(v.all, data);
    hide FrameHeader, Boundary, SplitFirst, SplitHeaders;
    assert v.fed + [] + v.g.held == v.fed + v.g.held;
    assert v.fed + v.g.held + data == v.fed + [] + (v.g.held + data);
  }

  lemma TakeStraight(v: Flow, data: seq<Byte>, fin: bool)
    requires Good(v) && !v.ended && v.g.parsed && v.g.held == [] && data != []
    requires v.g.isHeaders ==> v.g.forwarded >= v.g.total
    ensures Good(Taken(v, data, fin, false)) && TakenClean(v, data, fin, false)
    ensures !v.g.isHeaders ==> Good(Taken(v, data, fin, true)) && TakenClean(v, data, fin, true)
  {
    BoundaryIsStable(v.all, data);
    hide FrameHeader, Boundary, SplitFirst, SplitHeaders;
    assert v.fed + [] + [] == v.fed;
    assert v.fed + data == v.fed + data + [] + [];
  }

  /** After the frame header: within HEADERS, at its end, or behind it. */
  lemma TakeLater(v: Flow, data: seq<Byte>, fin: bool, blocked: bool)
    requires Good(v) && !v.ended && v.g.parsed && (v.g.held != [] ==> blocked) && data != []
    ensures Good(Taken(v, data, fin, blocked)) && TakenClean(v, data, fin, blocked)
  {
    if v.g.isHeaders && v.g.forwarded < v.g.total {
      BoundaryIsStable(v.all, data);
      hide FrameHeader, Boundary;
      assert v.g.held == [] && v.fed + [] + [] == v.fed;
      TakeHeaders(v, data, fin, blocked);
      hide SplitHeaders, Good;
    } else if v.g.isHeaders && blocked {
      TakeHeld(v, data, fin);
    } else {
      TakeStraight(v, data, fin) by { hide FrameHeader, Boundary; }
    }
  }

  // ---------- Whole reads ----------

  lemma OtherStream(c: Conn, c': Conn, o: Oracle, id: nat, i: nat)
    requires GuardOk(c, o, i) && i != id
    requires c'.guards - {id} == c.guards - {id} && ReceivedOf(c', i) == ReceivedOf(c, i)
    requires (i in c'.ended <==> i in c.ended) && (i in c'.overtaken <==> i in c.overtaken)
    requires i in c'.own <==> i in c.own
    requires c'.calls == c.calls || exists call :: c'.calls == c.calls + [call] && call.id == id
    ensures GuardOk(c', o, i)
  {
    assert i in c.guards <==> i in c.guards - {id};
    assert i in c'.guards <==> i in c'.guards - {id};
    assert i in c.guards ==> (c.guards - {id})[i] == c.guards[i];
    assert i in c'.guards ==> (c'.guards - {id})[i] == c'.guards[i];
    assert GuardOf(c', i) == GuardOf(c, i);
    if c'.calls != c.calls {
      var call :| c'.calls == c.calls + [call] && call.id == id;
      OtherCall(c, c', o, call, i);
    }
  }

  /** The connection after a read that the guard splits, before any flush. */
  function AfterSplit(c: Conn, o: Oracle, id: nat, data: seq<Byte>, fin: bool): Conn {
    var (g', out) := Split(GuardOf(c, id), data, fin, id in o(c.calls));
    var c1 := Note(c, id, data, fin).(guards := c.guards[id := g']);
    match out
    case None => c1
    case Some((bytes, f)) => if bytes != [] || f then Forward(c1, id, bytes, f) else c1
  }

  /** The connection's view of the stream is what the guard makes of it. */
  lemma AfterSplitFlow(c: Conn, o: Oracle, id: nat, data: seq<Byte>, fin: bool)
    requires data != []
    ensures FlowOf(AfterSplit(c, o, id, data, fin), id) == Taken(FlowOf(c, id), data, fin, id in o(c.calls))
  {
    hide Split, Fed, FinFed;
    var (g', out) := Split(GuardOf(c, id), data, fin, id in o(c.calls));
    assert Fed(c.calls, id) + [] == Fed(c.calls, id);
    if out.Some? { FedSnoc(c.calls, Call(id, out.value.0, out.value.1), id); }
  }

  lemma {:induction false} NothingFedIsClean(o: Oracle, calls: seq<Call>, id: nat, total: nat)
    requires Fed(calls, id) == []
    ensures AllClean(o, calls, id, total)
    decreases |calls|
  {
    if calls != [] {
      assert Fed(calls[..|calls| - 1], id) == [];
      NothingFedIsClean(o, calls[..|calls| - 1], id, total);
    }
  }

  lemma AfterSplitClean(c: Conn, o: Oracle, id: nat, data: seq<Byte>, fin: bool)
    requires GuardOk(c, o, id) && TakenClean(FlowOf(c, id), data, fin, id in o(c.calls))
    requires !GuardOf(c, id).parsed ==> Fed(c.calls, id) == []
    ensures var c' := AfterSplit(c, o, id, data, fin);
            GuardOf(c', id).parsed && GuardOf(c', id).isHeaders ==> AllClean(o, c'.calls, id, GuardOf(c', id).total)
  {
    if GuardOf(c, id).parsed { SplitKeepsKind(GuardOf(c, id), data, fin, id in o(c.calls)); }
    hide AllClean, Fed, Good, Split, CleanRead;
    var (g', out) := Split(GuardOf(c, id), data, fin, id in o(c.calls));
    if !GuardOf(c, id).parsed { NothingFedIsClean(o, c.calls, id, g'.total); }
    if out.Some? { CleanSnoc(o, c.calls, Call(id, out.value.0, out.value.1), id, g'.total); }
  }

  lemma SplitKeepsKind(g: Guard, data: seq<Byte>, fin: bool, blocked: bool)
    requires g.parsed
    ensures var g' := Split(g, data, fin, blocked).0; g'.parsed && g'.isHeaders == g.isHeaders && g'.total == g.total
  {
  }

  lemma AfterSplitOk(c: Conn, o: Oracle, id: nat, data: seq<Byte>, fin: bool)
    requires Sound(c, o) && Expected(c, false, id, data)
    ensures GuardOk(AfterSplit(c, o, id, data, fin), o, id)
  {
    assert GuardOk(c, o, id) && HeldIsBlocked(c, o, id);
    var v := FlowOf(c, id);
    var blocked := id in o(c.calls);
    AfterSplitFlow(c, o, id, data, fin);
    if v.g.parsed { TakeLater(v, data, fin, blocked); }
    else if FrameHeader(v.g.prefix + data).None? { TakeIncomplete(v, data, fin, blocked); }
    else { TakeFirst(v, data, fin, blocked); }
    assert TakenClean(v, data, fin, blocked);
    AfterSplitClean(c, o, id, data, fin);
    hide AllClean, Fed, FrameHeader, Boundary, Split, Taken, TakenClean, AfterSplit, Conserved, Tracks, FinOk;
  }

  lemma AfterSplitFrame(c: Conn, o: Oracle, id: nat, data: seq<Byte>, fin: bool, i: nat)
    requires i != id
    ensures var c' := AfterSplit(c, o, id, data, fin);
      && c'.guards - {id} == c.guards - {id} && ReceivedOf(c', i) == ReceivedOf(c, i)
      && (i in c'.ended <==> i in c.ended) && (i in c'.overtaken <==> i in c.overtaken) && id in c'.guards
      && c'.own == c.own
      && (c'.calls == c.calls || exists call :: c'.calls == c.calls + [call] && call.id == id)
  {
    hide Split;
    var (g', out) := Split(GuardOf(c, id), data, fin, id in o(c.calls));
    assert c.guards[id := g'] - {id} == c.guards - {id};
    if out.Some? { assert Call(id, out.value.0, out.value.1).id == id; }
  }

  lemma SplitKeys(c: Conn, o: Oracle, id: nat, data: seq<Byte>, fin: bool)
    ensures forall i :: i in AfterSplit(c, o, id, data, fin).guards ==> i in c.guards || i == id
  {
    hide Split;
  }

  /** While the first frame header is incomplete nothing is passed on, so nothing can be unblocked. */
  lemma WaitingSound(c: Conn, o: Oracle, id: nat, data: seq<Byte>)
    requires Sound(c, o) && !GuardOf(c, id).parsed
    requires FrameHeader(GuardOf(c, id).prefix + data).None?
    ensures forall i: nat :: Guarded(i) ==> HeldIsBlocked(AfterSplit(c, o, id, data, false), o, i)
    ensures AfterSplit(c, o, id, data, false).calls == c.calls
  {
    hide FrameHeader, Fed, AllClean;
    forall i: nat | Guarded(i) ensures HeldIsBlocked(AfterSplit(c, o, id, data, false), o, i) {
      assert GuardOk(c, o, i) && HeldIsBlocked(c, o, i);
    }
  }

  lemma BypassSound(c: Conn, o: Oracle, id: nat, data: seq<Byte>, fin: bool)
    requires Contract(o) && Sound(c, o) && Expected(c, true, id, data)
    ensures Sound(Receive(c, o, true, id, data, fin), o)
  {
    hide Contract, GuardOk, HeldIsBlocked;
    var c' := Straight(c, id, data, fin);
    forall i: nat | Guarded(i) ensures GuardOk(c', o, i) {
      assert GuardOk(c, o, i);
      if i == id { BypassOwn(c, o, id, data, fin); } else { OtherCall(c, c', o, Call(id, data, fin), i); }
    }
    FlushSettles(c', o);
  }

  lemma SplitAllOk(c: Conn, o: Oracle, id: nat, data: seq<Byte>, fin: bool)
    requires Sound(c, o) && Expected(c, false, id, data)
    ensures forall i: nat :: Guarded(i) ==> GuardOk(AfterSplit(c, o, id, data, fin), o, i)
    ensures forall i :: i in AfterSplit(c, o, id, data, fin).guards ==> Guarded(i)
  {
    AfterSplitOk(c, o, id, data, fin);
    SplitKeys(c, o, id, data, fin);
    hide GuardOk, HeldIsBlocked, AfterSplit;
    forall i: nat | Guarded(i) ensures GuardOk(AfterSplit(c, o, id, data, fin), o, i) {
      assert GuardOk(c, o, i);
      if i != id {
        AfterSplitFrame(c, o, id, data, fin, i);
        OtherStream(c, AfterSplit(c, o, id, data, fin), o, id, i);
      }
    }
  }

  lemma SplitSound(c: Conn, o: Oracle, id: nat, data: seq<Byte>, fin: bool)
    requires Contract(o) && Sound(c, o) && Expected(c, false, id, data)
    ensures Sound(Receive(c, o, false, id, data, fin), o)
  {
    hide Contract, GuardOk, HeldIsBlocked, AfterSplit, Flush, Receive, FrameHeader;
    SplitAllOk(c, o, id, data, fin);
    SplitReceives(c, o, id, data, fin);
    if !GuardOf(c, id).parsed && FrameHeader(GuardOf(c, id).prefix + data).None? && !fin {
      WaitingSound(c, o, id, data);
    } else {
      FlushSettles(AfterSplit(c, o, id, data, fin), o);
    }
  }

  lemma SplitReceives(c: Conn, o: Oracle, id: nat, data: seq<Byte>, fin: bool)
    ensures var c' := AfterSplit(c, o, id, data, fin);
            Receive(c, o, false, id, data, fin)
            == if !GuardOf(c, id).parsed && FrameHeader(GuardOf(c, id).prefix + data).None? && !fin then c' else Flush(c', o)
  {
    hide Flush, FrameHeader;
  }

  /** A read keeps every stream's bytes, order, boundary and FIN. */
  lemma ReceiveSound(c: Conn, o: Oracle, bypass: bool, id: nat, data: seq<Byte>, fin: bool)
    requires Contract(o) && Sound(c, o) && Expected(c, bypass, id, data)
    ensures Sound(Receive(c, o, bypass, id, data, fin), o)
  {
    hide Contract, Sound, Receive;
    if bypass { BypassSound(c, o, id, data, fin); } else { SplitSound(c, o, id, data, fin); }
  }

  // ---------- Whole runs ----------

  datatype Read = Read(bypass: bool, id: nat, data: seq<Byte>, fin: bool)

  function Play(c: Conn, o: Oracle, input: seq<Read>): Conn
    decreases |input|
  {
    if input == [] then c
    else Play(Receive(c, o, input[0].bypass, input[0].id, input[0].data, input[0].fin), o, input[1..])
  }

  predicate AllExpected(c: Conn, o: Oracle, input: seq<Read>)
    decreases |input|
  {
    input != [] ==>
      Expected(c, input[0].bypass, input[0].id, input[0].data)
      && AllExpected(Receive(c, o, input[0].bypass, input[0].id, input[0].data, input[0].fin), o, input[1..])
  }

  const NewConn := Conn(map[], [], map[], {}, {}, {})

  lemma {:induction false} PlaySound(c: Conn, o: Oracle, input: seq<Read>)
    requires Contract(o) && Sound(c, o) && AllExpected(c, o, input)
    ensures Sound(Play(c, o, input), o)
    decreases |input|
  {
    hide Contract, Sound, Receive, Expected;
    if input != [] {
      var r := input[0];
      ReceiveSound(c, o, r.bypass, r.id, r.data, r.fin);
      PlaySound(Receive(c, o, r.bypass, r.id, r.data, r.fin), o, input[1..]);
    }
  }

  lemma {:induction false} CleanAt(o: Oracle, calls: seq<Call>, id: nat, total: nat, k: nat)
    requires AllClean(o, calls, id, total) && k < |calls|
    ensures Clean(o, calls[..k], calls[k], id, total)
    decreases |calls|
  {
    if k < |calls| - 1 {
      var init := calls[..|calls| - 1];
      CleanAt(o, init, id, total, k);
      assert init[..k] == calls[..k] && init[k] == calls[k];
    }
  }

  lemma NewConnSound(o: Oracle)
    ensures Sound(NewConn, o)
  {
  }

  /**
   * However the bytes of a stream are cut and whatever else is read in between: the library gets
   * them all, in order, but for those still waiting; what waits in front waits for the rest of a frame
   * header, and what waits behind the HEADERS frame for its header block; no read crosses the end of
   * that frame, and none goes behind it while the header block is undecoded. On a data stream of this
   * end's own nothing ever waits, whatever its bytes look like.
   */
  lemma NothingLostNothingEarly(o: Oracle, input: seq<Read>, id: nat, k: nat)
    requires Contract(o) && AllExpected(NewConn, o, input) && Guarded(id)
    ensures var c := Play(NewConn, o, input);
      && Fed(c.calls, id) + GuardOf(c, id).prefix + GuardOf(c, id).held == ReceivedOf(c, id)
      && (GuardOf(c, id).prefix != [] ==> FrameHeader(ReceivedOf(c, id)).None?)
      && (GuardOf(c, id).held != [] ==> id in o(c.calls) && Boundary(ReceivedOf(c, id)).Some?
                                        && |Fed(c.calls, id)| >= Boundary(ReceivedOf(c, id)).value)
      && (id in c.own ==> Fed(c.calls, id) == ReceivedOf(c, id))
      && (k < |c.calls| && c.calls[k].id == id && id !in c.own && Boundary(ReceivedOf(c, id)).Some? ==>
            CleanRead(|Fed(c.calls[..k], id)|, c.calls[k].bytes, Boundary(ReceivedOf(c, id)).value, id in o(c.calls[..k])))
  {
    var c := Play(NewConn, o, input);
    NewConnSound(o);
    PlaySound(NewConn, o, input);
    assert GuardOk(c, o, id) && HeldIsBlocked(c, o, id);
    hide Contract, Play, Fed, FrameHeader, FinFed, AllExpected, Sound, CleanRead;
    assert Fed(c.calls, id) + [] + [] == Fed(c.calls, id);
    if k < |c.calls| && id !in c.own && Boundary(ReceivedOf(c, id)).Some? {
      CleanAt(o, c.calls, id, GuardOf(c, id).total, k);
    }
  }

  /**
   * A FIN that was received is held behind the held bytes or has been passed on, and then it
   * came behind all bytes, unless an empty FIN was received while bytes were waiting.
   */
  lemma FinComesLast(o: Oracle, input: seq<Read>, id: nat)
    requires Contract(o) && AllExpected(NewConn, o, input) && Guarded(id)
    ensures var c := Play(NewConn, o, input);
      && (id in c.ended <==> GuardOf(c, id).heldFin || FinFed(c.calls, id))
      && !(GuardOf(c, id).heldFin && FinFed(c.calls, id))
      && (FinFed(c.calls, id) && id !in c.overtaken ==> Fed(c.calls, id) == ReceivedOf(c, id))
  {
    var c := Play(NewConn, o, input);
    NewConnSound(o);
    PlaySound(NewConn, o, input);
    assert GuardOk(c, o, id);
    hide Contract, Play, Fed, FrameHeader, FinFed, AllExpected, Sound, AllClean, Tracks;
    assert Fed(c.calls, id) + [] + [] == Fed(c.calls, id);
  }

  /** An empty FIN goes past whatever is waiting. */
  lemma EmptyFinOvertakes(c: Conn, o: Oracle, id: nat)
    requires Contract(o) && Sound(c, o) && Guarded(id) && id !in c.ended
    ensures var c' := Straight(c, id, [], true);
            FinFed(c'.calls, id) && (Fed(c'.calls, id) == ReceivedOf(c', id) <==> !Overtakes(GuardOf(c, id), []))
  {
    assert GuardOk(c, o, id);
    FedSnoc(c.calls, Call(id, [], true), id);
    hide Guarded, Fed, FinFed, AllClean, FrameHeader, Boundary, Contract, Sound;
    var f, p, h := Fed(c.calls, id), GuardOf(c, id).prefix, GuardOf(c, id).held;
    assert |f + p + h| == |f| + |p| + |h|;
  }

  lemma DecodesOne()
    ensures Decoded([0x01]) == Some((1, 1))
  {
    RoundTrip(1, []);
    assert Encoded(1) == [0x01];
    assert Encoded(1) + [] == [0x01];
  }

  const FirstHalf: Read := Read(false, 0, [0x01], false)
  const BareFin: Read := Read(true, 0, [], true)

  /** The first byte of a frame header, then an empty FIN: the library is told that the stream is over and empty. */
  lemma HalfHeaderIsOvertaken(o: Oracle)
    ensures AllExpected(NewConn, o, [FirstHalf, BareFin])
    ensures var c := Play(NewConn, o, [FirstHalf, BareFin]);
      c.calls == [Call(0, [], true)] && GuardOf(c, 0).prefix == [0x01] && ReceivedOf(c, 0) == [0x01] && 0 in c.overtaken
  {
    var c1 := Receive(NewConn, o, false, 0, [0x01], false);
    assert [] + [0x01] == [0x01] && [0x01][1..] == [];
    assert Decoded([0x01]) == Some((1, 1)) && Decoded([]).None? by { DecodesOne(); }
    assert FrameHeader([] + [0x01]).None?;
    assert Split(NewGuard, [0x01], false, 0 in o([])) == (NewGuard.(prefix := [0x01]), None);
    assert c1.guards == map[0 := NewGuard.(prefix := [0x01])] && c1.calls == [] && c1.ended == {} && c1.own == {};
    var c0 := Straight(c1, 0, [], true);
    assert UnblockedIds(c0, o) == {};
    assert Ascending(UnblockedIds(c0, o)) == [];
    assert Receive(c1, o, true, 0, [], true) == c0;
    assert [FirstHalf, BareFin][1..] == [BareFin] && [BareFin][1..] == [];
    hide Receive, Expected;
    assert Play(c0, o, []) == c0;
    assert Play(c1, o, [BareFin]) == Play(c0, o, []);
    assert AllExpected(c0, o, []);
    assert AllExpected(c1, o, [BareFin]);
  }

  // ---------- The object ----------

  class StreamReader {
    const o: Oracle
    var guards: map<nat, Guard>
    var calls: seq<Call>
    ghost var received: map<nat, seq<Byte>>
    ghost var ended: set<nat>
    ghost var overtaken: set<nat>
    ghost var own: set<nat>

    ghost function State(): Conn
      reads this
    {
      Conn(guards, calls, received, ended, overtaken, own)
    }

    constructor (o: Oracle)
      ensures State() == NewConn && this.o == o
    {
      this.o := o;
      guards, calls := map[], [];
      received, ended, overtaken, own := map[], {}, {}, {};
    }

    method ReadFromNghttp3(id: nat, bytes: seq<Byte>, fin: bool)
      modifies this`calls
      ensures State() == Forward(old(State()), id, bytes, fin)
    {
      calls := calls + [Call(id, bytes, fin)];
    }

    /** The streams to release are settled before any is released. */
    method UnblockedTargets() returns (targets: seq<nat>)
      ensures targets == Ascending(UnblockedIds(State(), o))
      ensures forall id :: id in targets ==> id in guards && guards[id].parsed && guards[id].isHeaders
                                             && guards[id].forwarded == guards[id].total
    {
      var ids := set id | id in guards && guards[id].held != [] && guards[id].parsed && guards[id].isHeaders
                          && guards[id].forwarded == guards[id].total && id !in o(calls);
      assert ids == UnblockedIds(State(), o);
      targets := Ascending(ids);
    }

    method FlushUnblockedHeldData()
      modifies this`guards, this`calls
      ensures State() == Flush(old(State()), o)
    {
      hide UnblockedIds, Ascending;
      ghost var c := State();
      var targets := UnblockedTargets();
      var i := 0;
      assert targets[0..] == targets;
      while i < |targets|
        invariant 0 <= i <= |targets|
        invariant FlushEach(State(), o, targets[i..]) == FlushEach(c, o, targets)
        invariant forall id :: id in targets ==> id in guards && guards[id].parsed && guards[id].isHeaders
                                                 && guards[id].forwarded == guards[id].total
      {
        var id := targets[i];
        assert targets[i..][0] == id && targets[i..][1..] == targets[i + 1..];
        if guards[id].held != [] && id !in o(calls) {
          ReleaseHeld(id);
        }
        i := i + 1;
      }
      assert targets[i..] == [];
    }

    method ReleaseHeld(id: nat)
      requires id in guards
      modifies this`guards, this`calls
      ensures State() == Release(old(State()), id)
      ensures guards == old(guards)[id := old(guards)[id].(held := [], heldFin := false)]
    {
      var held, heldFin := guards[id].held, guards[id].heldFin;
      guards := guards[id := guards[id].(held := [], heldFin := false)];
      ReadFromNghttp3(id, held, heldFin);
    }

    method ParseFrameHeader(b: seq<Byte>) returns (r: Option<(nat, nat, nat)>)
      ensures r == FrameHeader(b)
    {
      var t := Varint.Decode(b);
      if t.None? {
        return None;
      }
      var n := Varint.Decode(b[t.value.1..]);
      if n.None? {
        return None;
      }
      return Some((t.value.0, n.value.0, t.value.1 + n.value.1));
    }

    /** The first frame header: parsed from the front of what has come so far. */
    method SplitUnparsed(g: Guard, data: seq<Byte>, fin: bool, ghost blocked: bool) returns (g': Guard, out: Option<(seq<Byte>, bool)>)
      requires !g.parsed
      ensures (g', out) == Split(g, data, fin, blocked)
    {
      hide FrameHeader;
      var combined := if |g.prefix| < 16 then g.prefix + data[..Min(|data|, 16 - |g.prefix|)] else g.prefix;
      var front := combined[..Min(16, |combined|)];
      SixteenSuffice(g.prefix + data);
      assert front == (g.prefix + data)[..Min(16, |g.prefix + data|)];
      var header := ParseFrameHeader(front);
      var all := g.prefix + data;
      if header.None? {
        if fin {
          return g.(prefix := []), Some((all, true));
        }
        return g.(prefix := all), None;
      }
      var (frameType, length, headerLength) := header.value;
      if frameType != HEADERS {
        return g.(parsed := true, isHeaders := false, prefix := []), Some((all, fin));
      }
      var total := headerLength + length;
      g' := g.(parsed := true, isHeaders := true, total := total, prefix := []);
      if |all| <= total {
        return g'.(forwarded := |all|), Some((all, fin));
      }
      return g'.(forwarded := total, held := all[total..], heldFin := fin), Some((all[..total], false));
    }

    /** Behind the first frame header: within HEADERS, or past it and perhaps held. */
    method SplitParsed(g: Guard, data: seq<Byte>, fin: bool, blocked: bool) returns (g': Guard, out: Option<(seq<Byte>, bool)>)
      requires g.parsed
      ensures (g', out) == Split(g, data, fin, blocked)
    {
      if !g.isHeaders {
        return g, Some((data, fin));
      }
      if g.forwarded < g.total {
        var remaining := g.total - g.forwarded;
        if |data| <= remaining {
          return g.(forwarded := g.forwarded + |data|), Some((data, fin));
        }
        return g.(forwarded := g.total, held := data[remaining..], heldFin := fin), Some((data[..remaining], false));
      }
      if blocked {
        return g.(held := g.held + data, heldFin := g.heldFin || fin), None;
      }
      return g, Some((data, fin));
    }

    method ReceiveStreamData(established: bool, id: nat, data: seq<Byte>, fin: bool)
      modifies this
      ensures State() == Receive(old(State()), o, data == [] || !Guarded(id) || established, id, data, fin)
    {
      hide Flush, Split;
      received, ended, overtaken := Note(State(), id, data, fin).received, Note(State(), id, data, fin).ended,
                                    Note(State(), id, data, fin).overtaken;
      if data == [] || id % 4 != 0 || established {
        own := if data != [] && !GuardOf(old(State()), id).parsed then own + {id} else own;
        ReadFromNghttp3(id, data, fin);
        FlushUnblockedHeldData();
        return;
      }
      var g := if id in guards then guards[id] else NewGuard;
      var out: Option<(seq<Byte>, bool)>;
      var wasParsed := g.parsed;
      if !g.parsed {
        g, out := SplitUnparsed(g, data, fin, id in o(calls));
      } else {
        g, out := SplitParsed(g, data, fin, id in o(calls));
      }
      guards := guards[id := g];
      if out.None? {
        if wasParsed { FlushUnblockedHeldData(); }
        return;
      }
      var (bytes, f) := out.value;
      if bytes != [] || f {
        ReadFromNghttp3(id, bytes, f);
      }
      FlushUnblockedHeldData();
    }
  }
}
