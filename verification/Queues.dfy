/**
 * The send queues: no byte handed over is lost, duplicated or reordered, the FIN stays
 * at the end, and a queue waits only for credit or behind an entry of length zero.
 */
module Queues {
  import opened Capsules
  import Utf8
  import opened Engine
  import opened Trace
  import opened Sending

  // ---------- One stream's queue ----------

  /** What was queued for the peer, what still waits, and whether credit is used up. */
  datatype Queue = Queue(said: seq<Byte>, ending: Ending, unsent: seq<PendingSend>, starved: bool)

  function Unsent(s: Session, id: StreamId): seq<PendingSend> {
    if id in s.streams then s.streams[id].pending else []
  }

  /** Session credit or stream credit is exhausted. */
  predicate Starved(s: Session, id: StreamId) {
    id in s.streams ==>
      s.bytesSent >= s.maxDataLocal || s.streams[id].bytesSent >= s.streams[id].maxLocal
  }

  function QueueOf(s: Session, id: StreamId): Queue {
    Queue(Said(s, id).data, Said(s, id).ending, Unsent(s, id), Starved(s, id))
  }

  function Bytes(p: seq<PendingSend>): seq<Byte> {
    if p == [] then [] else p[0].data + Bytes(p[1..])
  }

  predicate HasFin(p: seq<PendingSend>) { p != [] && p[|p| - 1].fin }

  predicate HasEmpty(p: seq<PendingSend>) { exists k :: 0 <= k < |p| && p[k].data == [] }

  /** The bytes accepted and not thrown away. */
  function Committed(q: Queue): seq<Byte> { q.said + Bytes(q.unsent) }

  predicate FinCommitted(q: Queue) { q.ending == Finished || HasFin(q.unsent) }

  /** Nothing but credit keeps the front entry waiting, unless it is empty. */
  predicate WaitsForCredit(q: Queue) {
    q.unsent != [] && q.unsent[0].data != [] ==> q.starved
  }

  /** What one step accepted: bytes, a FIN, an empty entry behind waiting ones. */
  datatype Extra = Extra(data: seq<Byte>, fin: bool, zero: bool)

  const NoExtra := Extra([], false, false)

  function Then(e: Extra, f: Extra): Extra { Extra(e.data + f.data, e.fin || f.fin, e.zero || f.zero) }

  /** A step keeps what was committed and adds `e`. A reset, and only a reset, drops what waits. */
  predicate Serves(q: Queue, r: Queue, e: Extra) {
    && (q.ending == WasReset ==> r.ending == WasReset && r.said == q.said)
    && (r.ending != WasReset ==>
          Committed(r) == Committed(q) + e.data
          && (FinCommitted(r) <==> FinCommitted(q) || e.fin)
          && (HasEmpty(r.unsent) <==> HasEmpty(q.unsent) || e.zero))
    && q.said <= r.said <= Committed(q) + e.data
    && (WaitsForCredit(q) ==> WaitsForCredit(r))
  }

  lemma ServesThen(q: Queue, r: Queue, t: Queue, e: Extra, f: Extra)
    requires Serves(q, r, e) && Serves(r, t, f)
    ensures Serves(q, t, Then(e, f))
  {
    hide Bytes, HasEmpty, HasFin;
    assert Committed(q) + e.data + f.data == Committed(q) + (e.data + f.data);
    assert Committed(r) + f.data <= Committed(q) + Then(e, f).data || r.ending == WasReset;
  }

  lemma NoExtraIsNeutral(e: Extra)
    ensures Then(NoExtra, e) == e && Then(e, NoExtra) == e
  {
  }

  lemma ServesSelf(q: Queue)
    ensures Serves(q, q, NoExtra)
  {
    assert Committed(q) + [] == Committed(q);
  }

  /** The queue is left alone, and so is the credit it waits for. */
  predicate Calm(q: Queue, r: Queue) {
    r.said == q.said && r.ending == q.ending && r.unsent == q.unsent
    && (q.starved && q.unsent != [] ==> r.starved)
  }

  lemma CalmServes(q: Queue, r: Queue)
    requires Calm(q, r)
    ensures Serves(q, r, NoExtra)
  {
    assert Committed(q) + [] == Committed(q);
  }

  lemma CalmThen(q: Queue, r: Queue, t: Queue, e: Extra)
    requires Calm(q, r) && Serves(r, t, e)
    ensures Serves(q, t, e)
  {
    CalmServes(q, r);
    ServesThen(q, r, t, NoExtra, e);
    NoExtraIsNeutral(e);
  }

  lemma ThenCalm(q: Queue, r: Queue, t: Queue, e: Extra)
    requires Serves(q, r, e) && Calm(r, t)
    ensures Serves(q, t, e)
  {
    CalmServes(r, t);
    ServesThen(q, r, t, e, NoExtra);
    NoExtraIsNeutral(e);
  }

  // ---------- Steps that do not touch the queue of `i` ----------

  predicate SameCredit(s: Session, s': Session, i: StreamId) {
    && s'.cfg == s.cfg
    && s'.maxDataLocal == s.maxDataLocal && s'.bytesSent >= s.bytesSent
    && Unsent(s', i) == Unsent(s, i)
    && (i in s.streams && i in s'.streams ==>
          s'.streams[i].bytesSent == s.streams[i].bytesSent
          && s'.streams[i].maxLocal == s.streams[i].maxLocal)
  }

  lemma SilentCalm(s: Session, s': Session, i: StreamId)
    requires s'.emitted == s.emitted && SameCredit(s, s', i)
    ensures Calm(QueueOf(s, i), QueueOf(s', i))
  {
    hide StreamView;
  }

  predicate Quiet(c: Capsule, i: StreamId) {
    (c.WtStream? || c.WtResetStream?) ==> c.id != i
  }

  lemma EmitCalm(s: Session, s': Session, c: Capsule, i: StreamId)
    requires OneMore(s, s', c) && Quiet(c, i) && SameCredit(s, s', i)
    ensures Calm(QueueOf(s, i), QueueOf(s', i))
  {
    StreamViewSnoc(s.cfg.initStreamData, s.emitted, c, i);
    hide StreamView;
  }

  lemma MaxDataCalm(s: Session, i: StreamId)
    ensures Calm(QueueOf(s, i), QueueOf(MaybeSendMaxData(s), i))
  {
    hide ShouldReplenish, Replenished, QueueOf, Calm;
    var s1 := MaybeSendMaxData(s);
    SilentCalm(s, s, i);
    if s1 != s { EmitCalm(s, s1, WtMaxData(s1.maxDataRemote), i); }
  }

  lemma MaxStreamDataCalm(s: Session, id: StreamId, i: StreamId)
    ensures Calm(QueueOf(s, i), QueueOf(MaybeSendMaxStreamData(s, id), i))
  {
    hide ShouldReplenish, Replenished, QueueOf, Calm;
    var s1 := MaybeSendMaxStreamData(s, id);
    SilentCalm(s, s, i);
    if s1 != s { EmitCalm(s, s1, WtMaxStreamData(id, s1.streams[id].maxRemote), i); }
  }

  lemma ReleaseCalm(s: Session, id: StreamId, i: StreamId)
    requires SendInv(s)
    ensures Calm(QueueOf(s, i), QueueOf(MaybeRelease(s, id), i))
  {
    if id in s.streams && Releasable(s.streams[id]) {
      var st := s.streams[id];
      assert st.pending == [] by {
        hide Legal, StreamView, SessionTotals;
        assert SendOk(s, id);
      }
      hide SendInv, StreamView;
      SilentCalm(s, Forget(s, id), i);
      GrantCalm(Forget(s, id), !st.isUni, i);
    }
  }

  lemma GrantCalm(s: Session, bidi: bool, i: StreamId)
    ensures Calm(QueueOf(s, i), QueueOf(GrantStream(s, bidi), i))
  {
    hide QueueOf, Calm;
    var s' := GrantStream(s, bidi);
    SilentCalm(s, s, i);
    if s' != s { EmitCalm(s, s', WtMaxStreams(bidi, Count(s, bidi).maxRemote + 1), i); }
  }

  lemma CloseCalm(s: Session, code: ErrorCode, message: seq<Byte>, i: StreamId)
    ensures Calm(QueueOf(s, i), QueueOf(CloseSession(s, code, message), i))
  {
    hide QueueOf, Calm;
    var s' := CloseSession(s, code, message);
    SilentCalm(s, s, i);
    if s' != s { EmitCalm(s, s', WtCloseSession(code, Utf8.Cut(message, MAX_MESSAGE)), i); }
  }

  lemma ReportCalm(s: Session, code: ErrorCode, i: StreamId)
    ensures Calm(QueueOf(s, i), QueueOf(ReportError(s, code), i))
    ensures Calm(QueueOf(s, i), QueueOf(ReportLimitError(s), i))
  {
    hide StreamView;
    SilentCalm(s, Push(s, Error(code)), i);
    CloseCalm(Push(s, Error(code)), code, [], i);
    CloseCalm(s, WT_FLOW_CONTROL_ERROR, [], i);
  }

  lemma BlockedCalm(s: Session, id: StreamId, a: nat, b: nat, i: StreamId)
    requires id in s.streams
    ensures Calm(QueueOf(s, i), QueueOf(ReportBlocked(s, id, a, b), i))
  {
    var s1 := if a <= b then ReportSessionBlocked(s) else s;
    var s2 := if b <= a then ReportStreamBlocked(s1, id) else s1;
    hide StreamView;
    SilentCalm(s, s, i);
    if s1 != s { EmitCalm(s, s1, WtDataBlocked(s.maxDataLocal), i); }
    if s2 != s1 { EmitCalm(s1, s2, WtStreamDataBlocked(id, s1.streams[id].maxLocal), i); }
  }

  /** Sending on one stream only takes credit from the others. */
  lemma ChunkCalm(s: Session, id: StreamId, data: seq<Byte>, fin: bool, rest: seq<PendingSend>, i: StreamId)
    requires id in s.streams && i != id
    ensures Calm(QueueOf(s, i), QueueOf(SendChunk(SetPending(s, id, rest), id, data, fin), i))
  {
    hide QueueOf, Calm;
    EmitCalm(s, SendChunk(SetPending(s, id, rest), id, data, fin), WtStream(id, data, fin), i);
  }

  // ---------- Sending from the front of a queue ----------

  /** `q` sends `data` from its front and is left with `rest`. */
  lemma SentServes(q: Queue, r: Queue, data: seq<Byte>, fin: bool, rest: seq<PendingSend>)
    requires q.ending == Open && r.said == q.said + data && r.unsent == rest
    requires r.ending == if fin then Finished else Open
    requires Bytes(q.unsent) == data + Bytes(rest)
    requires HasEmpty(rest) <==> HasEmpty(q.unsent)
    requires HasFin(q.unsent) <==> HasFin(rest) || fin
    requires WaitsForCredit(q) ==> WaitsForCredit(r)
    ensures Serves(q, r, NoExtra)
  {
    hide Bytes, HasEmpty, HasFin;
    assert Committed(q) + [] == Committed(q);
    assert q.said + data + Bytes(rest) == q.said + (data + Bytes(rest));
  }

  lemma HasEmptyTail(p: seq<PendingSend>)
    requires p != [] && p[0].data != []
    ensures HasEmpty(p[1..]) <==> HasEmpty(p)
  {
    if HasEmpty(p) {
      var k :| 0 <= k < |p| && p[k].data == [];
      assert p[1..][k - 1] == p[k];
    }
    if HasEmpty(p[1..]) {
      var k :| 0 <= k < |p| - 1 && p[1..][k].data == [];
      assert p[k + 1] == p[1..][k];
    }
  }

  lemma SplitFront(p: seq<PendingSend>, n: nat, rest: seq<PendingSend>)
    requires p != [] && n < |p[0].data| && rest == [PendingSend(p[0].data[n..], p[0].fin)] + p[1..]
    ensures Bytes(p) == p[0].data[..n] + Bytes(rest)
    ensures HasEmpty(rest) <==> HasEmpty(p)
    ensures HasFin(rest) <==> HasFin(p)
  {
    assert rest[1..] == p[1..] && rest[0].data == p[0].data[n..];
    assert p[0].data == p[0].data[..n] + p[0].data[n..];
    HasEmptyTail(p);
    HasEmptyTail(rest);
    assert |rest| == |p| && rest[|p| - 1].fin == p[|p| - 1].fin;
    hide HasEmpty;
    assert p[0].data + Bytes(p[1..]) == p[0].data[..n] + (p[0].data[n..] + Bytes(p[1..]));
  }

  lemma WaitingIsOpen(s: Session, id: StreamId)
    requires SendInv(s) && id in s.streams && s.streams[id].pending != []
    ensures Said(s, id).ending == Open && !SendDone(s.streams[id]) && SendableStream(s.streams[id])
    ensures FinOnlyLast(s.streams[id].pending)
  {
    hide Legal, StreamView, SessionTotals;
    assert SendOk(s, id);
  }

  lemma ChunkQueue(s: Session, id: StreamId, data: seq<Byte>, fin: bool, rest: seq<PendingSend>)
    requires id in s.streams
    ensures var r := QueueOf(SendChunk(SetPending(s, id, rest), id, data, fin), id); var q := QueueOf(s, id);
      && r.said == q.said + data && r.unsent == rest
      && r.ending == (if fin then Finished else q.ending)
      && r.starved == (s.bytesSent + |data| >= s.maxDataLocal
                       || s.streams[id].bytesSent + |data| >= s.streams[id].maxLocal)
  {
    var c := WtStream(id, data, fin);
    StreamViewSnoc(s.cfg.initStreamData, s.emitted, c, id);
    hide StreamView;
  }

  /** One entry sent whole. */
  function SendWhole(s: Session, id: StreamId): Session
    requires id in s.streams && s.streams[id].pending != []
  {
    var p := s.streams[id].pending;
    SendChunk(SetPending(s, id, p[1..]), id, p[0].data, p[0].fin)
  }

  lemma WholeShape(s: Session, id: StreamId)
    requires id in s.streams && s.streams[id].pending != []
    ensures id in SendWhole(s, id).streams
    ensures SendWhole(s, id).streams[id].pending == s.streams[id].pending[1..]
    ensures SendWhole(s, id).terminated == s.terminated
    ensures SendWhole(s, id).cfg == s.cfg
  {
  }

  lemma WholeKeeps(s: Session, id: StreamId)
    requires SendInv(s) && !s.terminated && id in s.streams && s.streams[id].pending != []
    requires Sendable(s, s.streams[id], |s.streams[id].pending[0].data|) == |s.streams[id].pending[0].data|
    ensures SendInv(SendWhole(s, id))
  {
    hide SendInv;
    var p := s.streams[id].pending;
    WaitingIsOpen(s, id);
    SetPendingKeeps(s, id, p[1..]);
    ChunkKeeps(SetPending(s, id, p[1..]), id, p[0].data, p[0].fin);
  }

  /** The entry was sendable, so `s` was not waiting for credit; `Drain` says what follows. */
  lemma WholeServes(s: Session, id: StreamId, i: StreamId)
    requires SendInv(s) && id in s.streams && s.streams[id].pending != []
    requires s.streams[id].pending[0].data != []
    requires Sendable(s, s.streams[id], |s.streams[id].pending[0].data|) == |s.streams[id].pending[0].data|
    ensures Serves(QueueOf(s, i), QueueOf(SendWhole(s, id), i), NoExtra)
  {
    hide SendInv, StreamView;
    var p := s.streams[id].pending;
    if i == id {
      WaitingIsOpen(s, id);
      HasEmptyTail(p);
      assert !Starved(s, id);
      assert HasFin(p) <==> HasFin(p[1..]) || p[0].fin;
      ChunkQueue(s, id, p[0].data, p[0].fin, p[1..]);
      hide QueueOf, Bytes, HasEmpty, HasFin, SendWhole;
      assert QueueOf(s, id).starved == Starved(s, id) by { hide Starved; }
      SentServes(QueueOf(s, id), QueueOf(SendWhole(s, id), id), p[0].data, p[0].fin, p[1..]);
    } else {
      ChunkCalm(s, id, p[0].data, p[0].fin, p[1..], i);
      hide QueueOf;
      CalmServes(QueueOf(s, i), QueueOf(SendWhole(s, id), i));
    }
  }

  lemma PartServes(s: Session, id: StreamId, n: nat, i: StreamId)
    requires SendInv(s) && id in s.streams && s.streams[id].pending != []
    requires 0 < n == Sendable(s, s.streams[id], |s.streams[id].pending[0].data|) < |s.streams[id].pending[0].data|
    ensures Serves(QueueOf(s, i), QueueOf(Drain(s, id), i), NoExtra)
    ensures Starved(Drain(s, id), id)
  {
    hide SendInv, StreamView;
    var p := s.streams[id].pending;
    var rest := [PendingSend(p[0].data[n..], p[0].fin)] + p[1..];
    ChunkQueue(s, id, p[0].data[..n], false, rest);
    if i == id {
      WaitingIsOpen(s, id);
      SplitFront(p, n, rest);
      hide Bytes, HasEmpty, HasFin;
      SentServes(QueueOf(s, id), QueueOf(Drain(s, id), id), p[0].data[..n], false, rest);
    } else {
      ChunkCalm(s, id, p[0].data[..n], false, rest, i);
      hide QueueOf;
      CalmServes(QueueOf(s, i), QueueOf(Drain(s, id), i));
    }
  }

  // ---------- Draining ----------

  lemma NothingSendable(s: Session, id: StreamId)
    requires id in s.streams && s.streams[id].pending != [] && !s.terminated
    requires Sendable(s, s.streams[id], |s.streams[id].pending[0].data|) == 0
    ensures WaitsForCredit(QueueOf(s, id))
  {
    hide StreamView;
  }

  lemma ReleasedWaits(s: Session, id: StreamId)
    requires id in s.streams && s.streams[id].pending == []
    ensures Unsent(MaybeRelease(s, id), id) == []
  {
  }

  /** Draining serves every queue, and leaves nothing behind that credit would still carry. */
  lemma {:induction false} DrainServes(s: Session, id: StreamId, i: StreamId)
    requires SendInv(s) && !s.terminated
    ensures Serves(QueueOf(s, i), QueueOf(Drain(s, id), i), NoExtra)
    ensures WaitsForCredit(QueueOf(Drain(s, id), id))
    decreases if id in s.streams then |s.streams[id].pending| else 0
  {
    ServesSelf(QueueOf(s, i));
    if id in s.streams && s.streams[id].pending != [] {
      var p := s.streams[id].pending;
      var n := Sendable(s, s.streams[id], |p[0].data|);
      hide SendInv, StreamView, Serves, MaybeRelease, SendChunk, Calm, Sendable;
      if n == 0 {
        NothingSendable(s, id);
      } else if n < |p[0].data| {
        PartServes(s, id, n, i);
      } else {
        var s' := SendWhole(s, id);
        assert n == |p[0].data| by { assert n <= |p[0].data| by { SendableAtMost(s, s.streams[id], |p[0].data|); } }
        WholeServes(s, id, i);
        WholeKeeps(s, id);
        WholeShape(s, id);
        if p[0].fin {
          WaitingIsOpen(s, id);
          ReleaseCalm(s', id, i);
          ReleasedWaits(s', id);
          ThenCalm(QueueOf(s, i), QueueOf(s', i), QueueOf(MaybeRelease(s', id), i), NoExtra);
        } else {
          DrainServes(s', id, i);
          ServesThen(QueueOf(s, i), QueueOf(s', i), QueueOf(Drain(s', id), i), NoExtra, NoExtra);
          NoExtraIsNeutral(NoExtra);
        }
      }
    }
  }

  lemma SendableAtMost(s: Session, st: Stream, size: nat)
    ensures Sendable(s, st, size) <= size
  {
  }

  lemma ClearedCalm(s: Session, id: StreamId, i: StreamId)
    requires id in s.streams && s.streams[id].pending == []
    ensures Calm(QueueOf(s, i), QueueOf(SetPending(s, id, []), i))
  {
    hide StreamView;
  }

  lemma FlushOneServes(s: Session, id: StreamId, i: StreamId)
    requires SendInv(s) && !s.terminated
    ensures Serves(QueueOf(s, i), QueueOf(FlushOne(s, id), i), NoExtra)
    ensures WaitsForCredit(QueueOf(FlushOne(s, id), id))
    ensures SendInv(FlushOne(s, id)) && !FlushOne(s, id).terminated
  {
    if id in s.streams && SendDone(s.streams[id]) {
      assert s.streams[id].pending == [] by {
        hide Legal, StreamView, SessionTotals;
        assert SendOk(s, id);
      }
      hide SendInv, StreamView, Serves, Calm;
      SetPendingKeeps(s, id, []);
      ClearedCalm(s, id, i);
      CalmServes(QueueOf(s, i), QueueOf(FlushOne(s, id), i));
    } else if id in s.streams {
      hide SendInv, Serves, QueueOf;
      DrainKeeps(s, id);
      DrainProgress(s, id);
      DrainServes(s, id, i);
    } else {
      hide SendInv, Serves, StreamView;
      ServesSelf(QueueOf(s, i));
    }
  }

  lemma {:induction false} FlushPassServes(s: Session, ids: seq<StreamId>, i: StreamId)
    requires SendInv(s) && !s.terminated
    ensures Serves(QueueOf(s, i), QueueOf(FlushPass(s, ids), i), NoExtra)
    ensures i in ids ==> WaitsForCredit(QueueOf(FlushPass(s, ids), i))
    decreases |ids|
  {
    hide SendInv, QueueOf, FlushOne, WaitsForCredit, Committed, FinCommitted, HasEmpty;
    if ids == [] {
      ServesSelf(QueueOf(s, i));
    } else {
      var s' := FlushOne(s, ids[0]);
      FlushOneServes(s, ids[0], i);
      FlushPassServes(s', ids[1..], i);
      assert i in ids ==> i == ids[0] || i in ids[1..];
      ServesThen(QueueOf(s, i), QueueOf(s', i), QueueOf(FlushPass(s', ids[1..]), i), NoExtra, NoExtra);
      NoExtraIsNeutral(NoExtra);
    }
  }

  /** After a flush no queue waits that credit would still carry. */
  lemma {:induction false} FlushServes(s: Session, i: StreamId)
    requires SendInv(s) && !s.terminated
    ensures Serves(QueueOf(s, i), QueueOf(FlushPending(s), i), NoExtra)
    ensures WaitsForCredit(QueueOf(FlushPending(s), i))
    decreases if s.bytesSent <= s.maxDataLocal then s.maxDataLocal - s.bytesSent else 0
  {
    hide SendInv, FlushPass, StreamView, Committed, FinCommitted, HasEmpty;
    var ids := SortedKeys(s.streams.Keys);
    var s' := FlushPass(s, ids);
    FlushPassProgress(s, ids);
    FlushPassKeeps(s, ids);
    FlushPassServes(s, ids, i);
    assert i !in ids ==> WaitsForCredit(QueueOf(s, i));
    hide QueueOf, WaitsForCredit;
    if s'.bytesSent != s.bytesSent {
      FlushServes(s', i);
      ServesThen(QueueOf(s, i), QueueOf(s', i), QueueOf(FlushPending(s'), i), NoExtra, NoExtra);
      NoExtraIsNeutral(NoExtra);
    }
  }
}
