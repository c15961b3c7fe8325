/**
 * What a flush queues, to the capsule: one walk over the streams in ascending order of their IDs,
 * each sending from the front of its queue what both limits leave it, an entry to a capsule.
 */
module Flushing {
  import opened Capsules
  import opened Engine
  import opened Trace
  import opened Sending
  import opened Dialogue
  import opened Bounds
  import opened Hearing
  import opened Endpoint
  import opened Queues
  import opened Runs
  import opened Rules

  // ---------- The walk, on values ----------

  /** What `room` bytes carry of a queue: entries from the front, the last one perhaps in part, and nothing from an empty one on. */
  function Fits(q: seq<PendingSend>, room: nat): seq<PendingSend>
    decreases |q|
  {
    if q == [] || room == 0 || q[0].data == [] then []
    else if room < |q[0].data| then [PendingSend(q[0].data[..room], false)]
    else [q[0]] + (if q[0].fin then [] else Fits(q[1..], room - |q[0].data|))
  }

  function Framed(id: StreamId, q: seq<PendingSend>): seq<Capsule> {
    if q == [] then [] else [WtStream(id, q[0].data, q[0].fin)] + Framed(id, q[1..])
  }

  function Rest(limit: nat, sent: nat): nat { if sent <= limit then limit - sent else 0 }

  /** What stream `id` sends when the session has `left` bytes of credit. */
  function Share(s: Session, id: StreamId, left: nat): seq<PendingSend> {
    if id !in s.streams || SendDone(s.streams[id]) then []
    else Fits(s.streams[id].pending, Min(left, Rest(s.streams[id].maxLocal, s.streams[id].bytesSent)))
  }

  predicate Finishes(q: seq<PendingSend>) { q != [] && q[|q| - 1].fin }

  /** A peer's stream that thereby ends makes room for one more. */
  predicate Frees(s: Session, id: StreamId, q: seq<PendingSend>) {
    id in s.streams && Finishes(q) && !s.streams[id].isLocal && RecvDone(s.streams[id])
  }

  function Raised(l: Limits, bidi: bool): Limits {
    if bidi then l.(bidi := if l.bidi < MAX_STREAMS then l.bidi + 1 else l.bidi)
    else l.(uni := if l.uni < MAX_STREAMS then l.uni + 1 else l.uni)
  }

  /** The streams `ids` in turn; `granted` are the limits the peer has been given. */
  function Walk(s: Session, ids: seq<StreamId>, left: nat, granted: Limits): seq<Capsule>
    decreases |ids|
  {
    if ids == [] then []
    else
      var id := ids[0];
      var q := Share(s, id, left);
      var frees := Frees(s, id, q);
      Framed(id, q) + Grant(!id.uni, Toward(granted, !id.uni), frees)
      + Walk(s, ids[1..], Rest(left, |Bytes(q)|), if frees then Raised(granted, !id.uni) else granted)
  }

  function GrantedBy(s: Session): Limits { Limits(s.maxDataRemote, s.bidi.maxRemote, s.uni.maxRemote) }

  // ---------- One stream ----------

  predicate SameElsewhere(s: Session, s': Session, id: StreamId) { s'.streams - {id} == s.streams - {id} && s'.cfg == s.cfg }

  /** What sending `q` on one stream does. */
  predicate Did(s: Session, s': Session, id: StreamId, q: seq<PendingSend>, frees: bool) {
    && s'.emitted == s.emitted + (Framed(id, q) + Grant(!id.uni, Toward(GrantedBy(s), !id.uni), frees))
    && s'.bytesSent == s.bytesSent + |Bytes(q)| && s'.maxDataLocal == s.maxDataLocal && s'.terminated == s.terminated
    && GrantedBy(s') == (if frees then Raised(GrantedBy(s), !id.uni) else GrantedBy(s))
    && SameElsewhere(s, s', id)
  }

  lemma DidNothing(s: Session, id: StreamId)
    ensures Did(s, s, id, [], false)
  {
    assert s.emitted + ([] + []) == s.emitted;
  }

  function Room(s: Session, id: StreamId): nat
    requires id in s.streams
  {
    Min(Rest(s.maxDataLocal, s.bytesSent), Rest(s.streams[id].maxLocal, s.streams[id].bytesSent))
  }

  lemma SendableIsRoom(s: Session, id: StreamId, size: nat)
    requires id in s.streams
    ensures Sendable(s, s.streams[id], size) == Min(Room(s, id), size)
  {
  }

  lemma ChunkDid(s: Session, id: StreamId, p: seq<PendingSend>, e: PendingSend)
    requires id in s.streams
    ensures var s' := SendChunk(SetPending(s, id, p), id, e.data, e.fin);
      && Did(s, s', id, [e], false)
      && id in s'.streams && s'.streams[id].pending == p
      && s'.streams[id].isLocal == s.streams[id].isLocal && s'.streams[id].isUni == s.streams[id].isUni
      && RecvDone(s'.streams[id]) == RecvDone(s.streams[id])
      && (SendDone(s'.streams[id]) <==> SendDone(s.streams[id]) || e.fin)
      && (|e.data| <= Room(s, id) ==> Room(s', id) == Room(s, id) - |e.data|)
  {
    assert Framed(id, [e]) == [WtStream(id, e.data, e.fin)] by { assert Framed(id, [e][1..]) == []; }
    assert Bytes([e]) == e.data by { assert Bytes([e][1..]) == [] && e.data + [] == e.data; }
    assert [WtStream(id, e.data, e.fin)] + [] == [WtStream(id, e.data, e.fin)];
    hide Framed, Bytes;
  }

  lemma ReleaseMoves(s: Session, id: StreamId)
    requires id in s.streams && s.streams[id].isUni == id.uni && SendDone(s.streams[id])
    ensures var s' := MaybeRelease(s, id); var frees := !s.streams[id].isLocal && RecvDone(s.streams[id]);
      && s'.bytesSent == s.bytesSent && s'.maxDataLocal == s.maxDataLocal && s'.terminated == s.terminated && s'.cfg == s.cfg
      && GrantedBy(s') == (if frees then Raised(GrantedBy(s), !id.uni) else GrantedBy(s))
  {
  }

  lemma ReleaseElsewhere(s: Session, id: StreamId)
    ensures SameElsewhere(s, MaybeRelease(s, id), id)
  {
    var s' := MaybeRelease(s, id);
    if id in s.streams && Releasable(s.streams[id]) {
      assert s'.streams == s.streams - {id};
      assert s.streams - {id} - {id} == s.streams - {id};
    }
  }

  lemma ReleaseDid(s: Session, id: StreamId)
    requires id in s.streams && s.streams[id].isUni == id.uni && SendDone(s.streams[id])
    ensures Did(s, MaybeRelease(s, id), id, [], !s.streams[id].isLocal && RecvDone(s.streams[id]))
  {
    ReleaseSays(s, id);
    ReleaseMoves(s, id);
    ReleaseElsewhere(s, id);
    hide MaybeRelease, SameElsewhere, Raised;
    assert Bytes([]) == [] && Framed(id, []) == [];
    hide Grant;
    var g := Grant(!id.uni, Toward(GrantedBy(s), !id.uni), !s.streams[id].isLocal && RecvDone(s.streams[id]));
    assert [] + g == g;
  }

  lemma {:induction false} FramedJoin(id: StreamId, a: seq<PendingSend>, b: seq<PendingSend>)
    ensures Framed(id, a + b) == Framed(id, a) + Framed(id, b) && Bytes(a + b) == Bytes(a) + Bytes(b)
    decreases |a|
  {
    if a == [] {
      assert a + b == b;
    } else {
      assert (a + b)[1..] == a[1..] + b && (a + b)[0] == a[0];
      FramedJoin(id, a[1..], b);
    }
  }

  /** First without freeing the stream, then perhaps freeing it. */
  lemma DidThen(s: Session, t: Session, u: Session, id: StreamId, a: seq<PendingSend>, b: seq<PendingSend>, frees: bool)
    requires Did(s, t, id, a, false) && Did(t, u, id, b, frees)
    ensures Did(s, u, id, a + b, frees)
  {
    hide Framed, Bytes;
    FramedJoin(id, a, b);
    var g := Grant(!id.uni, Toward(GrantedBy(s), !id.uni), frees);
    assert s.emitted + (Framed(id, a) + []) + (Framed(id, b) + g) == s.emitted + (Framed(id, a) + Framed(id, b) + g);
  }

  /** Draining one stream sends its share. */
  lemma {:induction false} DrainDid(s: Session, id: StreamId)
    requires id in s.streams && s.streams[id].isUni == id.uni && !SendDone(s.streams[id])
    ensures var q := Fits(s.streams[id].pending, Room(s, id)); Did(s, Drain(s, id), id, q, Frees(s, id, q))
    decreases |s.streams[id].pending|
  {
    hide Did, SendChunk, MaybeRelease, Sendable, Room;
    DidNothing(s, id);
    var p := s.streams[id].pending;
    if p != [] {
      var n := Sendable(s, s.streams[id], |p[0].data|);
      SendableIsRoom(s, id, |p[0].data|);
      if 0 < n < |p[0].data| {
        ChunkDid(s, id, [PendingSend(p[0].data[n..], p[0].fin)] + p[1..], PendingSend(p[0].data[..n], false));
      } else if 0 < n {
        ChunkDid(s, id, p[1..], p[0]);
        var t := SendChunk(SetPending(s, id, p[1..]), id, p[0].data, p[0].fin);
        if p[0].fin {
          ReleaseDid(t, id);
          DidThen(s, t, MaybeRelease(t, id), id, [p[0]], [], !s.streams[id].isLocal && RecvDone(s.streams[id]));
          assert [p[0]] + [] == [p[0]];
        } else {
          DrainDid(t, id);
          var q := Fits(p[1..], Room(t, id));
          DidThen(s, t, Drain(t, id), id, [p[0]], q, Frees(t, id, q));
          assert Finishes([p[0]] + q) <==> Finishes(q);
        }
      }
    }
  }

  // ---------- The walk ----------

  lemma {:induction false} FitsWithin(q: seq<PendingSend>, room: nat)
    ensures |Bytes(Fits(q, room))| <= room
    decreases |q|
  {
    if q != [] && room != 0 && q[0].data != [] {
      if room < |q[0].data| {
        assert Fits(q, room)[1..] == [];
      } else if q[0].fin {
        assert Fits(q, room)[1..] == [];
      } else {
        FitsWithin(q[1..], room - |q[0].data|);
        assert Fits(q, room)[1..] == Fits(q[1..], room - |q[0].data|);
      }
    }
  }

  lemma UniIsUni(s: Session, id: StreamId)
    requires SendInv(s) && id in s.streams
    ensures s.streams[id].isUni == id.uni
  {
    hide SessionSendOk, Legal, StreamView;
    assert SendOk(s, id);
  }

  function Left(s: Session): nat { Rest(s.maxDataLocal, s.bytesSent) }

  lemma FlushOneDid(s: Session, id: StreamId)
    requires SendInv(s)
    ensures var q := Share(s, id, Left(s)); Did(s, FlushOne(s, id), id, q, Frees(s, id, q))
  {
    hide SendInv, Did, Drain, Fits;
    DidNothing(s, id);
    if id in s.streams {
      UniIsUni(s, id);
      if SendDone(s.streams[id]) { ClearedDid(s, id); } else { DrainDid(s, id); }
    }
  }

  lemma ClearedDid(s: Session, id: StreamId)
    requires id in s.streams
    ensures Did(s, SetPending(s, id, []), id, [], false)
  {
    assert s.emitted + ([] + []) == s.emitted;
  }

  predicate Distinct(ids: seq<StreamId>) { forall j, k :: 0 <= j < k < |ids| ==> ids[j] != ids[k] }

  /** The same streams, as far as the walk looks at them. */
  predicate SameFor(s: Session, t: Session, ids: seq<StreamId>) {
    forall k :: 0 <= k < |ids| ==> (ids[k] in t.streams <==> ids[k] in s.streams) && (ids[k] in s.streams ==> t.streams[ids[k]] == s.streams[ids[k]])
  }

  lemma {:induction false} WalkSame(s: Session, t: Session, ids: seq<StreamId>, left: nat, granted: Limits)
    requires SameFor(s, t, ids)
    ensures Walk(t, ids, left, granted) == Walk(s, ids, left, granted)
    decreases |ids|
  {
    if ids != [] {
      var id := ids[0];
      assert (id in t.streams <==> id in s.streams) && (id in s.streams ==> t.streams[id] == s.streams[id]);
      assert Share(t, id, left) == Share(s, id, left);
      var q := Share(s, id, left);
      assert Frees(t, id, q) == Frees(s, id, q);
      assert SameFor(s, t, ids[1..]);
      hide SameFor, Share, Frees, Framed, Grant, Bytes;
      WalkSame(s, t, ids[1..], Rest(left, |Bytes(q)|), if Frees(s, id, q) then Raised(granted, !id.uni) else granted);
    }
  }

  lemma ElsewhereIsSame(s: Session, t: Session, ids: seq<StreamId>)
    requires ids != [] && Distinct(ids) && SameElsewhere(s, t, ids[0])
    ensures SameFor(s, t, ids[1..]) && Distinct(ids[1..])
  {
    forall k | 0 <= k < |ids[1..]|
      ensures (ids[1..][k] in t.streams <==> ids[1..][k] in s.streams) && (ids[1..][k] in s.streams ==> t.streams[ids[1..][k]] == s.streams[ids[1..][k]])
    {
      var i := ids[k + 1];
      assert i in t.streams <==> i in t.streams - {ids[0]};
      assert i in s.streams <==> i in s.streams - {ids[0]};
      assert i in s.streams ==> (t.streams - {ids[0]})[i] == (s.streams - {ids[0]})[i];
    }
  }

  lemma DidLeaves(s: Session, t: Session, id: StreamId)
    requires var q := Share(s, id, Left(s)); Did(s, t, id, q, Frees(s, id, q))
    ensures Left(t) == Rest(Left(s), |Bytes(Share(s, id, Left(s)))|)
  {
    if id in s.streams {
      FitsWithin(s.streams[id].pending, Min(Left(s), Rest(s.streams[id].maxLocal, s.streams[id].bytesSent)));
    }
    hide Fits, Framed, SameElsewhere;
    assert Bytes([]) == [];
  }

  lemma {:induction false} FlushPassIsWalk(s: Session, ids: seq<StreamId>)
    requires SendInv(s) && !s.terminated && Distinct(ids)
    ensures FlushPass(s, ids).emitted == s.emitted + Walk(s, ids, Left(s), GrantedBy(s))
    decreases |ids|
  {
    hide SendInv, FlushOne, Share, Frees, Framed, Grant, Bytes, SameElsewhere, SameFor, Distinct, Left, GrantedBy;
    if ids == [] {
      assert s.emitted + [] == s.emitted;
    } else {
      var t := FlushOne(s, ids[0]);
      var q := Share(s, ids[0], Left(s));
      FlushOneServes(s, ids[0], ids[0]);
      FlushOneDid(s, ids[0]);
      DidLeaves(s, t, ids[0]);
      ElsewhereIsSame(s, t, ids);
      FlushPassIsWalk(t, ids[1..]);
      WalkSame(s, t, ids[1..], Left(t), GrantedBy(t));
      var a, b := Framed(ids[0], q) + Grant(!ids[0].uni, Toward(GrantedBy(s), !ids[0].uni), Frees(s, ids[0], q)),
                  Walk(s, ids[1..], Left(t), GrantedBy(t));
      assert s.emitted + a + b == s.emitted + (a + b);
    }
  }

  // ---------- The flush ----------

  lemma StarvedHasNoRoom(q: seq<PendingSend>)
    ensures q == [] || q[0].data == [] ==> forall room :: Fits(q, room) == []
    ensures Fits(q, 0) == []
  {
  }

  /** A stream that waits for credit has no share. */
  lemma NoShare(s: Session, id: StreamId)
    requires WaitsForCredit(QueueOf(s, id))
    ensures Share(s, id, Left(s)) == []
  {
    hide StreamView;
    StarvedHasNoRoom(Unsent(s, id));
  }

  lemma {:induction false} NothingToWalk(s: Session, ids: seq<StreamId>, granted: Limits)
    requires forall k :: 0 <= k < |ids| ==> Share(s, ids[k], Left(s)) == []
    ensures Walk(s, ids, Left(s), granted) == []
    decreases |ids|
  {
    hide Share, Left;
    if ids != [] {
      forall k | 0 <= k < |ids[1..]| ensures Share(s, ids[1..][k], Left(s)) == [] { assert ids[1..][k] == ids[k + 1]; }
      NothingToWalk(s, ids[1..], granted);
      assert Bytes([]) == [];
    }
  }

  lemma SentIsSaid(s: Session)
    requires SendInv(s)
    ensures s.bytesSent == SaidTotals(s).data
  {
    hide SendOk, Legal, SessionTotals;
  }

  /** A walk that finds every stream waiting for credit queues nothing, and so no other walk follows it. */
  lemma SettledFlush(s: Session)
    requires SendInv(s) && !s.terminated && forall i :: WaitsForCredit(QueueOf(s, i))
    ensures FlushPending(s).emitted == s.emitted
  {
    hide SendInv, QueueOf, WaitsForCredit, FlushPass, Share, Walk;
    var ids := SortedKeys(s.streams.Keys);
    forall k | 0 <= k < |ids| ensures Share(s, ids[k], Left(s)) == [] { NoShare(s, ids[k]); }
    NothingToWalk(s, ids, GrantedBy(s));
    KeysAreDistinct(ids);
    FlushPassIsWalk(s, ids);
    FlushPassFrame(s, ids);
    FlushPassKeeps(s, ids);
    FlushPassProgress(s, ids);
    SentIsSaid(s);
    SentIsSaid(FlushPass(s, ids));
    assert s.emitted + [] == s.emitted;
  }

  /** After one walk every stream waits for credit. */
  lemma WalkSettles(s: Session)
    requires SendInv(s) && !s.terminated
    ensures var t := FlushPass(s, SortedKeys(s.streams.Keys)); SendInv(t) && !t.terminated && forall i :: WaitsForCredit(QueueOf(t, i))
  {
    hide SendInv, FlushPass, StreamView, Committed, FinCommitted, HasEmpty;
    var ids := SortedKeys(s.streams.Keys);
    FlushPassKeeps(s, ids);
    FlushPassProgress(s, ids);
    forall i ensures WaitsForCredit(QueueOf(FlushPass(s, ids), i)) {
      FlushPassServes(s, ids, i);
      if i !in ids { assert WaitsForCredit(QueueOf(s, i)); }
    }
  }

  /** A flush is one walk: over the streams in ascending order of their IDs, with the credit there is. */
  lemma FlushIsOneWalk(s: Session)
    requires SendInv(s) && !s.terminated
    ensures FlushPending(s).emitted == s.emitted + Walk(s, SortedKeys(s.streams.Keys), Left(s), GrantedBy(s))
  {
    hide SendInv, QueueOf, WaitsForCredit, FlushPass, Walk;
    var ids := SortedKeys(s.streams.Keys);
    WalkSettles(s);
    KeysAreDistinct(ids);
    FlushPassIsWalk(s, ids);
    FlushPassProgress(s, ids);
    if FlushPass(s, ids).bytesSent != s.bytesSent { SettledFlush(FlushPass(s, ids)); }
  }

  lemma KeysAreDistinct(ids: seq<StreamId>)
    requires forall j, k :: 0 <= j < k < |ids| ==> WireId(ids[j]) < WireId(ids[k])
    ensures Distinct(ids)
  {
  }

  /**
   * When the peer raises the session's limit, what goes out is that walk with the new credit, and nothing else;
   * when it raises a stream's limit, the walk with the stream's new limit.
   */
  lemma CreditIsSpent(cfg: Config, p: Config, header: bool, steps: seq<Step>, id: StreamId, max: nat)
    requires ValidConfig(cfg) && ValidConfig(p) && FairRun(NewSession(cfg, p, header), steps)
    requires !Play(NewSession(cfg, p, header), steps).terminated
    ensures var s := Play(NewSession(cfg, p, header), steps); var s' := Receive(s, WtMaxData(max));
            max > s.maxDataLocal && !s'.terminated ==>
              s'.emitted == s.emitted + Walk(s, SortedKeys(s.streams.Keys), Rest(max, s.bytesSent), GrantedBy(s))
    ensures var s := Play(NewSession(cfg, p, header), steps); var s' := Receive(s, WtMaxStreamData(id, max));
            id in s.streams && max > s.streams[id].maxLocal && !s'.terminated ==>
              s'.emitted == s.emitted + Walk(NoteMaxStreamData(s, id, max), SortedKeys(s.streams.Keys), Left(s), GrantedBy(s))
  {
    hide Play, FairRun, SendInv, Receive, Walk, Left, GrantedBy, RosterInv, OwnOpened, Serves;
    var s := Play(NewSession(cfg, p, header), steps);
    NewSessionIsSound(cfg, p, header, id);
    PlayKeeps(NewSession(cfg, p, header), steps, id);
    if max > s.maxDataLocal && !Receive(s, WtMaxData(max)).terminated { SessionCreditIsSpent(s, max); }
    if id in s.streams && max > s.streams[id].maxLocal && !Receive(s, WtMaxStreamData(id, max)).terminated { StreamCreditIsSpent(s, id, max); }
  }

  lemma SessionCreditIsSpent(s: Session, max: nat)
    requires SendInv(s) && !s.terminated && max > s.maxDataLocal && !Receive(s, WtMaxData(max)).terminated
    ensures Receive(s, WtMaxData(max)).emitted
         == s.emitted + Walk(s, SortedKeys(s.streams.Keys), Rest(max, s.bytesSent), GrantedBy(s))
  {
    hide FlushPending, Walk, SortedKeys;
    var t := NoteMaxData(Heed(s, WtMaxData(max)), max);
    assert SendInv(t) by {
      hide SendOk, Legal, SessionTotals;
      HeedKeeps(s, WtMaxData(max));
      QuietKeeps(Heed(s, WtMaxData(max)), t);
    }
    hide SendInv;
    FlushIsOneWalk(t);
    WalkSame(s, t, SortedKeys(s.streams.Keys), Left(t), GrantedBy(s));
  }

  lemma StreamCreditIsSpent(s: Session, id: StreamId, max: nat)
    requires SendInv(s) && !s.terminated && id in s.streams && max > s.streams[id].maxLocal && !Receive(s, WtMaxStreamData(id, max)).terminated
    ensures Receive(s, WtMaxStreamData(id, max)).emitted
         == s.emitted + Walk(NoteMaxStreamData(s, id, max), SortedKeys(s.streams.Keys), Left(s), GrantedBy(s))
  {
    hide FlushPending, Walk, SortedKeys, SendInv;
    var s0 := Heed(s, WtMaxStreamData(id, max));
    var t := NoteMaxStreamData(s0, id, max);
    HeedKeeps(s, WtMaxStreamData(id, max));
    NoteMaxStreamDataKeeps(s0, id, max);
    FlushIsOneWalk(t);
    WalkSame(NoteMaxStreamData(s, id, max), t, SortedKeys(s.streams.Keys), Left(s), GrantedBy(s));
    assert t.streams.Keys == s.streams.Keys;
  }
}
