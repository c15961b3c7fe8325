/**
 * What an endpoint allows its peer, which is arbitrary here: how many streams, and how many
 * bytes. Up to the cap on the released record, the advertised stream limit grows by one per
 * release, and yet the streams alive at one time never outnumber the configured limit. The
 * byte credit outstanding at any time lies between half of the configured window and all of it.
 */
module Bounds {
  import opened Capsules
  import opened Engine
  import opened Conduct
  import opened Endpoint

  datatype Roll = Roll(
    cfg: Config,
    live: set<StreamId>,
    freed: set<StreamId>,
    released: set<StreamId>,
    bidi: Range,
    uni: Range)

  /** Counters of own streams lie below `next`, those of the peer below `max`. */
  datatype Range = Range(next: nat, max: nat)

  function RangeOf(n: StreamCount): Range { Range(n.next, n.maxRemote) }

  function RollOf(s: Session): Roll {
    Roll(s.cfg, s.streams.Keys, s.freed, s.released, RangeOf(s.bidi), RangeOf(s.uni))
  }

  function Limit(r: Roll, id: StreamId): Range { if id.uni then r.uni else r.bidi }

  function InitLimit(cfg: Config, bidi: bool): nat { if bidi then cfg.initBidi else cfg.initUni }

  predicate FromPeer(cfg: Config, bidi: bool, id: StreamId) {
    !LocalTo(cfg.isServer, id) && id.uni == !bidi
  }

  function PeerStreams(cfg: Config, bidi: bool, ids: set<StreamId>): set<StreamId> {
    set id | id in ids && FromPeer(cfg, bidi, id)
  }

  predicate Recalled(r: Roll, id: StreamId) {
    id in r.freed && !(id.uni && LocalTo(r.cfg.isServer, id)) ==> id in r.released
  }

  /** The advertised limit is the configured one plus one per stream of the peer released. */
  predicate Advertised(r: Roll, bidi: bool) {
    (if bidi then r.bidi.max else r.uni.max)
    == Min(InitLimit(r.cfg, bidi) + |PeerStreams(r.cfg, bidi, r.released)|, MAX_STREAMS)
  }

  /** Everything the peer named stays within the limit it was given. */
  ghost predicate InRange(r: Roll) {
    && (forall id :: id in r.live && !LocalTo(r.cfg.isServer, id) ==>
          id !in r.released && id.counter < Limit(r, id).max)
    && (forall id :: id in r.released && !LocalTo(r.cfg.isServer, id) ==> id.counter < Limit(r, id).max)
  }

  ghost predicate RollInv(r: Roll) {
    && InRange(r)
    && (|r.released| < MAX_RECEIVED_MAP_ENTRIES ==>
          Advertised(r, true) && Advertised(r, false) && forall id :: Recalled(r, id))
  }

  /** Every stream of one's own that has or had an entry was opened. */
  predicate OwnOpened(r: Roll) {
    forall id :: id in r.live + r.freed && LocalTo(r.cfg.isServer, id) ==> id.counter < Limit(r, id).next
  }

  ghost predicate Labelled(s: Session) {
    forall id :: id in s.streams ==>
      s.streams[id].isLocal == LocalTo(s.cfg.isServer, id) && s.streams[id].isUni == id.uni
  }

  ghost predicate RosterInv(s: Session) { Labelled(s) && RollInv(RollOf(s)) }

  // ---------- The bound ----------

  /** A set of streams of one kind whose counters lie below `n` has at most `n` members. */
  lemma {:induction false} Pigeonhole(ids: set<StreamId>, n: nat, uni: bool, server: bool)
    requires forall id :: id in ids ==> id.counter < n && id.uni == uni && id.server == server
    ensures |ids| <= n
  {
    if n == 0 {
      if id :| id in ids { assert false; }
    } else {
      var last := StreamId(n - 1, uni, server);
      var rest := ids - {last};
      forall id | id in rest ensures id.counter < n - 1 {
        assert id != last;
      }
      Pigeonhole(rest, n - 1, uni, server);
      assert ids <= rest + {last};
      SubsetCount(ids, rest + {last});
    }
  }

  lemma SubsetCount<T>(a: set<T>, b: set<T>)
    requires a <= b
    ensures |a| <= |b|
  {
    assert b == a + (b - a);
  }

  /** Whatever the peer sends, no more of its streams are alive than were configured. */
  lemma ConcurrencyBound(s: Session, bidi: bool)
    requires RosterInv(s) && |s.released| < MAX_RECEIVED_MAP_ENTRIES
    ensures |PeerStreams(s.cfg, bidi, s.streams.Keys)| <= InitLimit(s.cfg, bidi)
  {
    var r := RollOf(s);
    var live := PeerStreams(s.cfg, bidi, r.live);
    var gone := PeerStreams(s.cfg, bidi, r.released);
    assert live !! gone;
    Pigeonhole(live + gone, if bidi then r.bidi.max else r.uni.max, !bidi, !s.cfg.isServer);
    assert |live + gone| == |live| + |gone|;
  }

  // ---------- Steps ----------

  /** What a step does to the roster; `mannerly` if the peer names no stream that is still ours to open. */
  ghost predicate KeepsRoster(s: Session, s': Session, mannerly: bool) {
    && s'.cfg == s.cfg
    && (RosterInv(s) ==> RosterInv(s'))
    && (RosterInv(s) && mannerly && OwnOpened(RollOf(s)) ==> OwnOpened(RollOf(s')))
  }

  ghost predicate Sustains(s: Session, s': Session, mannerly: bool) {
    KeepsRoster(s, s', mannerly) && (BandInv(s) ==> BandInv(s'))
  }

  /** Every step but stop_sending itself. */
  ghost predicate KeepsBounds(s: Session, s': Session, mannerly: bool) {
    Sustains(s, s', mannerly) && s'.sentStops == s.sentStops
  }

  lemma RosterThen(s: Session, s': Session, s'': Session, m: bool)
    requires KeepsRoster(s, s', m) && KeepsRoster(s', s'', m)
    ensures KeepsRoster(s, s'', m)
  {
    hide RosterInv, OwnOpened;
  }

  lemma KeepsThen(s: Session, s': Session, s'': Session, m: bool)
    requires KeepsBounds(s, s', m) && KeepsBounds(s', s'', m)
    ensures KeepsBounds(s, s'', m)
  {
    RosterThen(s, s', s'', m);
    hide KeepsRoster, BandInv;
  }

  /** Entries may change, but not which streams have one nor what they are called. */
  predicate SameRoll(s: Session, s': Session) {
    && RollOf(s') == RollOf(s)
    && forall id :: id in s.streams && id in s'.streams ==>
         s'.streams[id].isLocal == s.streams[id].isLocal && s'.streams[id].isUni == s.streams[id].isUni
  }

  lemma SameRollKeeps(s: Session, s': Session, m: bool)
    requires SameRoll(s, s')
    ensures KeepsRoster(s, s', m)
  {
    hide RollInv, OwnOpened;
    assert s'.streams.Keys == s.streams.Keys by { assert RollOf(s').live == RollOf(s).live; }
  }

  // ---------- Byte credit ----------

  /**
   * The advertised limit is never below the configured window nor more than the window above
   * what was received, and it is raised once more than half of it has been received.
   */
  predicate Band(received: nat, limit: nat, init: nat) {
    && init <= limit <= received + init
    && (received <= limit / 2 || limit >= Replenished(received, init))
  }

  /** Credit goes on for every stream but those this end has stopped. */
  ghost predicate BandInv(s: Session) {
    && Band(s.bytesReceived, s.maxDataRemote, s.cfg.initData)
    && forall id :: id in s.streams ==> StreamBand(s.streams[id], id in s.sentStops, s.cfg.initStreamData)
  }

  predicate StreamBand(st: Stream, stopped: bool, init: nat) {
    && st.maxRemote <= st.bytesReceived + init
    && (!stopped ==> Band(st.bytesReceived, st.maxRemote, init))
  }

  /** Outstanding credit is at least half the window, until the window meets the varint ceiling. */
  lemma BandBounds(received: nat, limit: nat, init: nat)
    requires Band(received, limit, init)
    ensures received + init <= MAX_VARINT ==> (init + 1) / 2 <= limit - received <= init
    ensures init > 0 && received < MAX_VARINT ==> received < limit
  {
  }

  lemma Replenishes(received: nat, limit: nat, init: nat, n: nat)
    requires Band(received, limit, init) && received + n <= limit
    ensures var r := received + n;
            Band(r, if ShouldReplenish(r, limit, init) then Replenished(r, init) else limit, init)
  {
  }

  predicate SameBand(s: Session, s': Session) {
    && s'.cfg == s.cfg && s'.sentStops == s.sentStops
    && s'.bytesReceived == s.bytesReceived && s'.maxDataRemote == s.maxDataRemote
    && forall id :: id in s'.streams ==>
         id in s.streams
         && s'.streams[id].bytesReceived == s.streams[id].bytesReceived
         && s'.streams[id].maxRemote == s.streams[id].maxRemote
  }

  lemma SameBandKeeps(s: Session, s': Session)
    requires SameBand(s, s') && BandInv(s)
    ensures BandInv(s')
  {
    hide Band;
  }

  function Topped(received: nat, limit: nat, init: nat): nat {
    if ShouldReplenish(received, limit, init) then Replenished(received, init) else limit
  }

  lemma MaxDataTops(s: Session)
    requires !s.terminated
    ensures var r := MaybeSendMaxData(s);
      && r.cfg == s.cfg && r.terminated == s.terminated && r.streams == s.streams && r.sentStops == s.sentStops
      && r.bytesReceived == s.bytesReceived
      && r.maxDataRemote == Topped(s.bytesReceived, s.maxDataRemote, s.cfg.initData)
  {
    hide ShouldReplenish, Replenished;
  }

  lemma MaxStreamDataTops(s: Session, id: StreamId)
    requires !s.terminated && id in s.streams
    ensures var r := MaybeSendMaxStreamData(s, id);
      && r.cfg == s.cfg && r.sentStops == s.sentStops
      && r.bytesReceived == s.bytesReceived && r.maxDataRemote == s.maxDataRemote
      && r.streams == s.streams[id := r.streams[id]]
      && r.streams[id].bytesReceived == s.streams[id].bytesReceived
      && (id !in s.sentStops ==>
            r.streams[id].maxRemote
            == Topped(s.streams[id].bytesReceived, s.streams[id].maxRemote, s.cfg.initStreamData))
      && (id in s.sentStops ==> r.streams[id] == s.streams[id])
  {
    hide ShouldReplenish, Replenished;
  }

  /** Accounting for received bytes and returning credit restore the band. */
  lemma CreditRestoresBand(s: Session, id: StreamId, data: seq<Byte>, fin: bool)
    requires BandInv(s) && !s.terminated && id in s.streams
    requires s.bytesReceived + |data| <= s.maxDataRemote
    requires s.streams[id].bytesReceived + |data| <= s.streams[id].maxRemote
    ensures BandInv(MaybeSendMaxStreamData(MaybeSendMaxData(RecvChunk(s, id, data, fin)), id))
  {
    var s1 := RecvChunk(s, id, data, fin);
    var s2 := MaybeSendMaxData(s1);
    var st := s.streams[id];
    Replenishes(s.bytesReceived, s.maxDataRemote, s.cfg.initData, |data|);
    if id !in s.sentStops { Replenishes(st.bytesReceived, st.maxRemote, s.cfg.initStreamData, |data|); }
    MaxDataTops(s1);
    MaxStreamDataTops(s2, id);
    hide Band, ShouldReplenish, Replenished, MaybeSendMaxData, MaybeSendMaxStreamData;
  }

  // ---------- Creating and releasing ----------

  /** Taking a stream off the live ones. */
  function Retire(r: Roll, id: StreamId): Roll {
    var remember := !(LocalTo(r.cfg.isServer, id) && id.uni) && |r.released| < MAX_RECEIVED_MAP_ENTRIES;
    var grant := !LocalTo(r.cfg.isServer, id);
    r.(live := r.live - {id}, freed := r.freed + {id},
       released := if remember then r.released + {id} else r.released,
       bidi := if grant && !id.uni then Grown(r.bidi) else r.bidi,
       uni := if grant && id.uni then Grown(r.uni) else r.uni)
  }

  function Grown(n: Range): Range { n.(max := if n.max < MAX_STREAMS then n.max + 1 else n.max) }

  lemma RetireCounts(r: Roll, id: StreamId, bidi: bool)
    requires RollInv(r) && id in r.live && |r.released| < MAX_RECEIVED_MAP_ENTRIES
    ensures Advertised(Retire(r, id), bidi)
  {
    var r' := Retire(r, id);
    if FromPeer(r.cfg, bidi, id) {
      assert PeerStreams(r.cfg, bidi, r'.released) == PeerStreams(r.cfg, bidi, r.released) + {id};
    } else {
      assert PeerStreams(r.cfg, bidi, r'.released) == PeerStreams(r.cfg, bidi, r.released);
    }
  }

  lemma RetireInRange(r: Roll, id: StreamId)
    requires InRange(r) && id in r.live
    ensures InRange(Retire(r, id))
    ensures OwnOpened(r) ==> OwnOpened(Retire(r, id))
  {
    var r' := Retire(r, id);
    assert forall i :: Limit(r, i).max <= Limit(r', i).max && Limit(r, i).next == Limit(r', i).next;
    assert r'.released <= r.released + {id} && r'.live == r.live - {id} && r'.freed == r.freed + {id};
    hide Limit, Retire;
  }

  lemma RetireRecalls(r: Roll, id: StreamId, i: StreamId)
    requires |r.released| < MAX_RECEIVED_MAP_ENTRIES && Recalled(r, i)
    ensures Recalled(Retire(r, id), i)
  {
  }

  lemma RetireKeeps(r: Roll, id: StreamId)
    requires RollInv(r) && id in r.live
    ensures RollInv(Retire(r, id))
    ensures OwnOpened(r) ==> OwnOpened(Retire(r, id))
  {
    var r' := Retire(r, id);
    RetireInRange(r, id);
    if |r'.released| < MAX_RECEIVED_MAP_ENTRIES {
      SubsetCount(r.released, r'.released);
      RetireCounts(r, id, true);
      RetireCounts(r, id, false);
      hide Advertised, Recalled, Retire, InRange;
      forall i ensures Recalled(r', i) { RetireRecalls(r, id, i); }
    }
  }

  lemma GrantRolls(s: Session, bidi: bool)
    ensures var r := RollOf(s);
            RollOf(GrantStream(s, bidi)) == r.(bidi := if bidi then Grown(r.bidi) else r.bidi,
                                               uni := if bidi then r.uni else Grown(r.uni))
    ensures GrantStream(s, bidi).streams == s.streams && GrantStream(s, bidi).cfg == s.cfg
  {
  }

  lemma ReleaseRolls(s: Session, id: StreamId)
    requires Labelled(s) && id in s.streams && Releasable(s.streams[id])
    ensures RollOf(MaybeRelease(s, id)) == Retire(RollOf(s), id)
    ensures Labelled(MaybeRelease(s, id))
  {
    var f := Forget(s, id);
    assert f.streams.Keys == s.streams.Keys - {id};
    assert MaybeRelease(s, id).streams == f.streams;
    GrantRolls(f, !s.streams[id].isUni);
    hide GrantStream, Grown;
  }

  lemma ReleaseBand(s: Session, id: StreamId)
    ensures BandInv(s) ==> BandInv(MaybeRelease(s, id))
    ensures MaybeRelease(s, id).cfg == s.cfg
  {
    hide BandInv, GrantStream, Forget, SameBand;
    SameBandSelf(s);
    if id in s.streams {
      ForgetBand(s, id);
      GrantBand(s, Forget(s, id), !s.streams[id].isUni);
    }
    assert SameBand(s, MaybeRelease(s, id)) && MaybeRelease(s, id).cfg == s.cfg;
    if BandInv(s) { SameBandKeeps(s, MaybeRelease(s, id)); }
  }

  lemma SameBandSelf(s: Session)
    ensures SameBand(s, s)
  {
  }

  lemma ForgetBand(s: Session, id: StreamId)
    requires id in s.streams
    ensures SameBand(s, Forget(s, id)) && Forget(s, id).cfg == s.cfg
  {
  }

  lemma GrantBand(s: Session, f: Session, bidi: bool)
    requires SameBand(s, f)
    ensures SameBand(s, GrantStream(f, bidi)) && GrantStream(f, bidi).cfg == f.cfg
  {
  }

  lemma ReleaseKeeps(s: Session, id: StreamId, m: bool)
    ensures KeepsBounds(s, MaybeRelease(s, id), m)
  {
    hide BandInv, RollInv, OwnOpened;
    ReleaseBand(s, id);
    if RosterInv(s) && id in s.streams && Releasable(s.streams[id]) {
      ReleaseRolls(s, id);
      RetireKeeps(RollOf(s), id);
    }
  }

  predicate Mannerly(s: Session, id: StreamId) {
    LocalTo(s.cfg.isServer, id) ==> id.counter < Count(s, !id.uni).next
  }

  lemma AdmitKeeps(r: Roll, id: StreamId)
    requires LocalTo(r.cfg.isServer, id) || (id !in r.released && id.counter < Limit(r, id).max)
    ensures RollInv(r) ==> RollInv(r.(live := r.live + {id}))
    ensures (LocalTo(r.cfg.isServer, id) ==> id.counter < Limit(r, id).next) && OwnOpened(r) ==>
            OwnOpened(r.(live := r.live + {id}))
  {
    var r' := r.(live := r.live + {id});
    assert forall i :: Recalled(r, i) ==> Recalled(r', i);
    assert InRange(r) ==> InRange(r');
    hide InRange, Recalled;
  }

  /** An entry for a stream that the limits admit and that was not released. */
  lemma CreateKeepsBounds(s: Session, id: StreamId)
    requires LocalTo(s.cfg.isServer, id) || (id !in s.released && !ExceedsStreamLimit(s, id))
    ensures KeepsBounds(s, Put(s, id, NewStream(s, id)), Mannerly(s, id))
  {
    assert BandInv(s) ==> BandInv(Put(s, id, NewStream(s, id)));
    hide BandInv, Band, RollInv, OwnOpened;
    assert RollOf(Put(s, id, NewStream(s, id))) == RollOf(s).(live := RollOf(s).live + {id});
    AdmitKeeps(RollOf(s), id);
    assert Labelled(s) ==> Labelled(Put(s, id, NewStream(s, id)));
    hide Labelled;
  }

  // ---------- API calls ----------

  lemma SetPendingSame(s: Session, id: StreamId, rest: seq<PendingSend>, m: bool)
    requires id in s.streams
    ensures KeepsBounds(s, SetPending(s, id, rest), m)
  {
    hide KeepsBounds;
    EntryKeeps(s, SetPending(s, id, rest), id, m);
  }

  lemma ChunkSame(s: Session, id: StreamId, data: seq<Byte>, fin: bool, m: bool)
    requires id in s.streams
    ensures KeepsBounds(s, SendChunk(s, id, data, fin), m)
  {
    hide KeepsBounds;
    EntryKeeps(s, SendChunk(s, id, data, fin), id, m);
  }

  lemma SendChunkSame(s: Session, id: StreamId, data: seq<Byte>, fin: bool, rest: seq<PendingSend>, m: bool)
    requires id in s.streams
    ensures KeepsBounds(s, SendChunk(SetPending(s, id, rest), id, data, fin), m)
  {
    hide KeepsBounds, SendChunk;
    SetPendingSame(s, id, rest, m);
    ChunkSame(SetPending(s, id, rest), id, data, fin, m);
    KeepsThen(s, SetPending(s, id, rest), SendChunk(SetPending(s, id, rest), id, data, fin), m);
  }

  lemma {:induction false} DrainBounds(s: Session, id: StreamId, m: bool)
    ensures KeepsBounds(s, Drain(s, id), m)
    decreases if id in s.streams then |s.streams[id].pending| else 0
  {
    hide KeepsBounds, MaybeRelease, SendChunk;
    SelfKeeps(s, m);
    if id in s.streams && s.streams[id].pending != [] {
      var p := s.streams[id].pending;
      var n := Sendable(s, s.streams[id], |p[0].data|);
      if n < |p[0].data| {
        SendChunkSame(s, id, p[0].data[..n], false, [PendingSend(p[0].data[n..], p[0].fin)] + p[1..], m);
      } else {
        SendChunkSame(s, id, p[0].data, p[0].fin, p[1..], m);
        var s' := SendChunk(SetPending(s, id, p[1..]), id, p[0].data, p[0].fin);
        if p[0].fin {
          ReleaseKeeps(s', id, m);
          KeepsThen(s, s', MaybeRelease(s', id), m);
        } else {
          ChunkShrinks(s, id, p[0].data, p[0].fin, p[1..]);
          DrainBounds(s', id, m);
          KeepsThen(s, s', Drain(s', id), m);
        }
      }
    }
  }

  lemma ChunkShrinks(s: Session, id: StreamId, data: seq<Byte>, fin: bool, rest: seq<PendingSend>)
    requires id in s.streams
    ensures var s' := SendChunk(SetPending(s, id, rest), id, data, fin);
            id in s'.streams && s'.streams[id].pending == rest
  {
  }

  lemma SelfKeeps(s: Session, m: bool)
    ensures KeepsBounds(s, s, m)
  {
  }

  lemma FlushOneBounds(s: Session, id: StreamId, m: bool)
    ensures KeepsBounds(s, FlushOne(s, id), m)
  {
    hide KeepsBounds, Drain, SetPending;
    SelfKeeps(s, m);
    DrainBounds(s, id, m);
    if id in s.streams { SetPendingSame(s, id, [], m); }
  }

  lemma {:induction false} FlushPassBounds(s: Session, ids: seq<StreamId>, m: bool)
    ensures KeepsBounds(s, FlushPass(s, ids), m)
    decreases |ids|
  {
    hide KeepsBounds, FlushOne;
    if ids == [] {
      SelfKeeps(s, m);
    } else {
      var s' := FlushOne(s, ids[0]);
      FlushOneBounds(s, ids[0], m);
      FlushPassBounds(s', ids[1..], m);
      KeepsThen(s, s', FlushPass(s', ids[1..]), m);
    }
  }

  lemma {:induction false} FlushBounds(s: Session, m: bool)
    ensures KeepsBounds(s, FlushPending(s), m)
    decreases if s.bytesSent <= s.maxDataLocal then s.maxDataLocal - s.bytesSent else 0
  {
    hide KeepsBounds, FlushPass;
    SelfKeeps(s, m);
    if !s.terminated {
      var ids := SortedKeys(s.streams.Keys);
      var s' := FlushPass(s, ids);
      FlushPassProgress(s, ids);
      FlushPassBounds(s, ids, m);
      if s'.bytesSent != s.bytesSent {
        FlushBounds(s', m);
        KeepsThen(s, s', FlushPending(s'), m);
      }
    }
  }

  predicate SameRosterFields(s: Session, s': Session) {
    && s'.cfg == s.cfg && s'.streams == s.streams && s'.freed == s.freed && s'.released == s.released
    && RangeOf(s'.bidi) == RangeOf(s.bidi) && RangeOf(s'.uni) == RangeOf(s.uni)
  }

  /** `s'` differs from `s` in nothing the bounds look at. */
  predicate SameFields(s: Session, s': Session) {
    && SameRosterFields(s, s')
    && s'.sentStops == s.sentStops
    && s'.bytesReceived == s.bytesReceived && s'.maxDataRemote == s.maxDataRemote
  }

  lemma SameFieldsKeep(s: Session, s': Session, m: bool)
    requires SameFields(s, s')
    ensures KeepsBounds(s, s', m)
  {
    SameRollKeeps(s, s', m);
    hide KeepsRoster, Band;
  }

  /** A change of one entry that leaves its labels alone. */
  lemma LabelsKeep(s: Session, s': Session, id: StreamId, m: bool)
    requires id in s.streams && id in s'.streams
    requires s'.streams[id].isLocal == s.streams[id].isLocal && s'.streams[id].isUni == s.streams[id].isUni
    requires SameRosterFields(s, s'.(streams := s.streams)) && s'.streams == s.streams[id := s'.streams[id]]
    ensures KeepsRoster(s, s', m)
  {
    hide KeepsRoster;
    assert s'.streams.Keys == s.streams.Keys;
    SameRollKeeps(s, s', m);
  }

  /** A change of one entry that leaves its labels and its receive window alone. */
  lemma EntryKeeps(s: Session, s': Session, id: StreamId, m: bool)
    requires id in s.streams && id in s'.streams
    requires s'.streams[id].isLocal == s.streams[id].isLocal && s'.streams[id].isUni == s.streams[id].isUni
    requires SameFields(s, s'.(streams := s.streams)) && s'.streams == s.streams[id := s'.streams[id]]
    requires s'.streams[id].bytesReceived == s.streams[id].bytesReceived
    requires s'.streams[id].maxRemote == s.streams[id].maxRemote
    ensures KeepsBounds(s, s', m)
  {
    LabelsKeep(s, s', id, m);
    hide KeepsRoster, Band;
  }

  lemma OpenNewBounds(s: Session, uni: bool, m: bool)
    requires s.established && Count(s, !uni).next < Count(s, !uni).maxLocal && NextId(s, uni) !in s.streams
    ensures KeepsBounds(s, OpenStream(s, uni).0, m)
  {
    var n := Count(s, !uni);
    var s1 := WithCount(s, !uni, n.(next := n.next + 1));
    var s2 := Put(s1, NextId(s, uni), NewStream(s1, NextId(s, uni)));
    assert s2 == OpenStream(s, uni).0;
    hide KeepsBounds, NewStream, OpenStream;
    NextKeeps(s, s1, m);
    CreateKeepsBounds(s1, NextId(s, uni));
    MannerlyEnough(s1, s2, m);
    KeepsThen(s, s1, s2, m);
  }

  lemma OpenBounds(s: Session, uni: bool, m: bool)
    ensures KeepsBounds(s, OpenStream(s, uni).0, m)
  {
    hide KeepsBounds, NewStream;
    var n := Count(s, !uni);
    if s.established && n.next < n.maxLocal && NextId(s, uni) !in s.streams {
      OpenNewBounds(s, uni, m);
    } else {
      SameFieldsKeep(s, OpenStream(s, uni).0, m);
    }
  }

  lemma MannerlyEnough(s: Session, s': Session, m: bool)
    requires KeepsBounds(s, s', true)
    ensures KeepsBounds(s, s', m)
  {
    hide BandInv;
  }

  lemma NextKeeps(s: Session, s': Session, m: bool)
    requires RollOf(s') == RollOf(s).(bidi := RollOf(s').bidi, uni := RollOf(s').uni)
    requires s.bidi.next <= s'.bidi.next && s.uni.next <= s'.uni.next
    requires s.bidi.maxRemote == s'.bidi.maxRemote && s.uni.maxRemote == s'.uni.maxRemote
    requires SameBand(s, s') && s'.streams == s.streams
    ensures KeepsBounds(s, s', m)
  {
    assert forall id :: Recalled(RollOf(s), id) ==> Recalled(RollOf(s'), id);
    hide Recalled, Band;
  }

  lemma SessionBlockedBounds(s: Session, m: bool)
    ensures KeepsBounds(s, ReportSessionBlocked(s), m) && ReportSessionBlocked(s).streams == s.streams
  {
    hide KeepsBounds;
    SameFieldsKeep(s, ReportSessionBlocked(s), m);
  }

  lemma StreamBlockedBounds(s: Session, id: StreamId, m: bool)
    requires id in s.streams
    ensures KeepsBounds(s, ReportStreamBlocked(s, id), m) && id in ReportStreamBlocked(s, id).streams
  {
    hide KeepsBounds;
    var s1 := ReportStreamBlocked(s, id);
    SelfKeeps(s, m);
    if s1 != s { EntryKeeps(s, s1, id, m); }
  }

  lemma BlockedBounds(s: Session, id: StreamId, a: nat, b: nat, m: bool)
    requires id in s.streams
    ensures KeepsBounds(s, ReportBlocked(s, id, a, b), m)
    ensures id in ReportBlocked(s, id, a, b).streams
  {
    hide KeepsBounds, ReportSessionBlocked, ReportStreamBlocked;
    var s1 := if a <= b then ReportSessionBlocked(s) else s;
    SelfKeeps(s, m);
    SessionBlockedBounds(s, m);
    StreamBlockedBounds(s1, id, m);
    KeepsThen(s, s1, ReportStreamBlocked(s1, id), m);
  }

  lemma SendBounds(s: Session, id: StreamId, data: seq<Byte>, fin: bool, m: bool)
    ensures KeepsBounds(s, SendStreamData(s, id, data, fin), m)
  {
    hide KeepsBounds, MaybeRelease, ReportBlocked, SendChunk, SetPending;
    SelfKeeps(s, m);
    if AcceptsSend(s, id) {
      var st := s.streams[id];
      var n := Sendable(s, st, |data|);
      if st.pending != [] {
        SetPendingSame(s, id, st.pending + [PendingSend(data, fin)], m);
      } else if n < |data| {
        var s1 := if n > 0 then SendChunk(s, id, data[..n], false) else s;
        if n > 0 { ChunkSame(s, id, data[..n], false, m); }
        assert id in s1.streams by { ChunkShape(s, id, data[..n], false); }
        var s2 := ReportBlocked(s1, id, SessionAvail(s, |data|), StreamAvail(st, |data|));
        BlockedBounds(s1, id, SessionAvail(s, |data|), StreamAvail(st, |data|), m);
        KeepsThen(s, s1, s2, m);
        SetPendingSame(s2, id, [PendingSend(data[n..], fin)], m);
        KeepsThen(s, s2, SetPending(s2, id, [PendingSend(data[n..], fin)]), m);
      } else {
        var s1 := SendChunk(s, id, data, fin);
        ChunkSame(s, id, data, fin, m);
        ReleaseKeeps(s1, id, m);
        KeepsThen(s, s1, MaybeRelease(s1, id), m);
      }
    }
  }

  lemma ChunkShape(s: Session, id: StreamId, data: seq<Byte>, fin: bool)
    requires id in s.streams
    ensures id in SendChunk(s, id, data, fin).streams
  {
  }

  lemma ResetBounds(s: Session, id: StreamId, code: ErrorCode, m: bool)
    ensures KeepsBounds(s, ResetStream(s, id, code), m)
  {
    hide KeepsBounds, MaybeRelease;
    SelfKeeps(s, m);
    if !s.terminated && id in s.streams && !SendDone(s.streams[id]) {
      var s1 := MarkReset(s, id, code);
      EntryKeeps(s, s1, id, m);
      ReleaseKeeps(s1, id, m);
      KeepsThen(s, s1, MaybeRelease(s1, id), m);
    }
  }

  lemma StopSustains(s: Session, id: StreamId, code: ErrorCode, m: bool)
    ensures Sustains(s, StopSending(s, id, code), m)
  {
    SameRollKeeps(s, StopSending(s, id, code), m);
    hide KeepsRoster, Band;
  }

  lemma ApplyBounds(s: Session, call: Call, m: bool)
    ensures Sustains(s, Apply(s, call), m)
    ensures !call.Stop? ==> Apply(s, call).sentStops == s.sentStops
  {
    if call.Stop? { StopSustains(s, call.id, call.code, m); } else { ApplyKeepsBounds(s, call, m); }
    hide Sustains, Apply;
  }

  lemma ApplyKeepsBounds(s: Session, call: Call, m: bool)
    requires !call.Stop?
    ensures KeepsBounds(s, Apply(s, call), m)
  {
    hide KeepsBounds, OpenStream, SendStreamData, ResetStream;
    match call
    case OpenCall(uni) => OpenBounds(s, uni, m);
    case Send(id, data, fin) => SendBounds(s, id, data, fin, m);
    case Reset(id, code) => ResetBounds(s, id, code, m);
    case _ => SameFieldsKeep(s, Apply(s, call), m);
  }

  // ---------- Handlers ----------

  lemma ReportBounds(s: Session, code: ErrorCode, m: bool)
    ensures KeepsBounds(s, ReportError(s, code), m) && KeepsBounds(s, ReportLimitError(s), m)
  {
    hide KeepsBounds;
    SameFieldsKeep(s, ReportError(s, code), m);
    SameFieldsKeep(s, ReportLimitError(s), m);
  }

  lemma CreditRoster(s: Session, id: StreamId, m: bool)
    ensures KeepsRoster(s, MaybeSendMaxData(s), m) && KeepsRoster(s, MaybeSendMaxStreamData(s, id), m)
  {
    hide KeepsRoster, ShouldReplenish, Replenished;
    SameRollKeeps(s, s, m);
    SameRollKeeps(s, MaybeSendMaxData(s), m);
    var s1 := MaybeSendMaxStreamData(s, id);
    if s1 != s { LabelsKeep(s, s1, id, m); }
  }

  lemma AcceptBounds(s: Session, id: StreamId, data: seq<Byte>, fin: bool, m: bool)
    requires id in s.streams && !s.terminated
    ensures KeepsBounds(s, AcceptWtStream(s, id, data, fin), m)
  {
    ReportBounds(s, WT_STREAM_STATE_ERROR, m);
    ReportBounds(s, WT_FLOW_CONTROL_ERROR, m);
    var st := s.streams[id];
    if !(data != [] && RecvDone(st)) && s.bytesReceived + |data| <= s.maxDataRemote
       && st.bytesReceived + |data| <= st.maxRemote {
      AfterChunkBounds(s, id, data, fin, m);
      ReleaseKeeps(MaybeSendMaxStreamData(MaybeSendMaxData(RecvChunk(s, id, data, fin)), id), id, m);
      KeepsThen(s, MaybeSendMaxStreamData(MaybeSendMaxData(RecvChunk(s, id, data, fin)), id),
                MaybeRelease(MaybeSendMaxStreamData(MaybeSendMaxData(RecvChunk(s, id, data, fin)), id), id), m);
    }
    hide KeepsBounds, MaybeRelease, MaybeSendMaxData, MaybeSendMaxStreamData, ReportError;
  }

  lemma AfterChunkBounds(s: Session, id: StreamId, data: seq<Byte>, fin: bool, m: bool)
    requires id in s.streams && !s.terminated
    requires s.bytesReceived + |data| <= s.maxDataRemote
    requires s.streams[id].bytesReceived + |data| <= s.streams[id].maxRemote
    ensures KeepsBounds(s, MaybeSendMaxStreamData(MaybeSendMaxData(RecvChunk(s, id, data, fin)), id), m)
  {
    hide KeepsRoster, BandInv, MaybeSendMaxData, MaybeSendMaxStreamData;
    if BandInv(s) { CreditRestoresBand(s, id, data, fin); }
    var s1 := RecvChunk(s, id, data, fin);
    var s2 := MaybeSendMaxData(s1);
    MaxDataTops(s1);
    MaxStreamDataTops(s2, id);
    LabelsKeep(s, s1, id, m);
    CreditRoster(s1, id, m);
    CreditRoster(s2, id, m);
    RosterThen(s, s1, s2, m);
    RosterThen(s, s2, MaybeSendMaxStreamData(s2, id), m);
  }

  lemma CreateMannerly(s: Session, id: StreamId, m: bool)
    requires m ==> Mannerly(s, id)
    requires LocalTo(s.cfg.isServer, id) || (id !in s.released && !ExceedsStreamLimit(s, id))
    ensures KeepsBounds(s, Put(s, id, NewStream(s, id)), m)
  {
    CreateKeepsBounds(s, id);
    hide RosterInv, OwnOpened, NewStream, BandInv;
  }

  lemma HandleWtStreamBounds(s: Session, id: StreamId, data: seq<Byte>, fin: bool, m: bool)
    requires !s.terminated
    requires m ==> Mannerly(s, id)
    ensures KeepsBounds(s, HandleWtStream(s, id, data, fin), m)
  {
    hide KeepsBounds, ReportError, AcceptWtStream, NewStream;
    ReportBounds(s, WT_STREAM_STATE_ERROR, m);
    ReportBounds(s, WT_FLOW_CONTROL_ERROR, m);
    SelfKeeps(s, m);
    if id in s.streams {
      AcceptBounds(s, id, data, fin, m);
    } else if id !in s.released && !ExceedsStreamLimit(s, id) {
      var s1 := Put(s, id, NewStream(s, id));
      CreateMannerly(s, id, m);
      AcceptBounds(s1, id, data, fin, m);
      KeepsThen(s, s1, AcceptWtStream(s1, id, data, fin), m);
    }
  }

  lemma RecvResetBounds(s: Session, id: StreamId, code: ErrorCode, m: bool)
    requires id in s.streams
    ensures KeepsBounds(s, RecvReset(s, id, code), m)
  {
    hide KeepsBounds, MaybeRelease;
    var s1 := NoteReset(s, id, code);
    EntryKeeps(s, s1, id, m);
    ReleaseKeeps(s1, id, m);
    KeepsThen(s, s1, MaybeRelease(s1, id), m);
  }

  lemma HandleWtResetStreamBounds(s: Session, id: StreamId, code: ErrorCode, size: nat, m: bool)
    requires m ==> Mannerly(s, id)
    ensures KeepsBounds(s, HandleWtResetStream(s, id, code, size), m)
  {
    hide KeepsBounds, ReportError, RecvReset, NewStream;
    ReportBounds(s, WT_STREAM_STATE_ERROR, m);
    ReportBounds(s, WT_FLOW_CONTROL_ERROR, m);
    if id in s.streams {
      RecvResetBounds(s, id, code, m);
    } else if id !in s.released && !ExceedsStreamLimit(s, id) {
      var s1 := Put(s, id, NewStream(s, id));
      CreateMannerly(s, id, m);
      RecvResetBounds(s1, id, code, m);
      KeepsThen(s, s1, RecvReset(s1, id, code), m);
    }
  }

  lemma HandleWtStopSendingBounds(s: Session, id: StreamId, code: ErrorCode, m: bool)
    ensures KeepsBounds(s, HandleWtStopSending(s, id, code), m)
  {
    hide KeepsBounds, ReportError, ResetStream;
    ReportBounds(s, WT_STREAM_STATE_ERROR, m);
    var s1 := NoteStop(s, id, code);
    if id in s.streams { EntryKeeps(s, s1, id, m); } else { SameFieldsKeep(s, s1, m); }
    ResetBounds(s1, id, code, m);
    KeepsThen(s, s1, ResetStream(s1, id, code), m);
  }

  lemma HandleWtMaxDataBounds(s: Session, max: nat, m: bool)
    ensures KeepsBounds(s, HandleWtMaxData(s, max), m)
  {
    hide KeepsBounds, ReportLimitError, FlushPending;
    ReportBounds(s, WT_FLOW_CONTROL_ERROR, m);
    var s1 := s.(receivedMaxData := Some(max));
    var s2 := s1.(maxDataLocal := max, dataBlockedSent := false);
    SameFieldsKeep(s, s1, m);
    SameFieldsKeep(s, s2, m);
    FlushBounds(s2, m);
    KeepsThen(s, s2, FlushPending(s2), m);
  }

  lemma HandleWtMaxStreamDataBounds(s: Session, id: StreamId, max: nat, m: bool)
    ensures KeepsBounds(s, HandleWtMaxStreamData(s, id, max), m)
  {
    hide KeepsBounds, ReportLimitError, FlushPending, ReportError, PreviousMaxStreamData, HasReceivedStop;
    ReportBounds(s, WT_STREAM_STATE_ERROR, m);
    var keep := id in s.receivedMaxStreamData || |s.receivedMaxStreamData| < MAX_RECEIVED_MAP_ENTRIES;
    var s1 := if keep then s.(receivedMaxStreamData := s.receivedMaxStreamData[id := max]) else s;
    SameFieldsKeep(s, s1, m);
    if id in s.streams && max > s.streams[id].maxLocal {
      var s2 := Put(s1, id, s.streams[id].(maxLocal := max, dataBlockedSent := false));
      EntryKeeps(s, s2, id, m);
      FlushBounds(s2, m);
      KeepsThen(s, s2, FlushPending(s2), m);
    }
  }

  lemma HandleRestBounds(s: Session, c: Capsule, m: bool)
    requires c.Datagram? || c.WtMaxStreams? || c.WtDataBlocked? || c.WtStreamDataBlocked? || c.WtStreamsBlocked?
          || c.WtCloseSession? || c.WtDrainSession?
    ensures KeepsBounds(s, Dispatch(s, c), m)
  {
    hide KeepsBounds, ReportError, ReportLimitError;
    SelfKeeps(s, m);
    ReportBounds(s, WT_STREAM_STATE_ERROR, m);
    if Dispatch(s, c) != ReportError(s, WT_STREAM_STATE_ERROR) && Dispatch(s, c) != ReportLimitError(s) {
      SameFieldsKeep(s, Dispatch(s, c), m);
    }
  }

  lemma DispatchBounds(s: Session, c: Capsule, m: bool)
    requires !s.terminated
    requires m && Creates(c) ==> Mannerly(s, c.id)
    ensures KeepsBounds(s, Dispatch(s, c), m)
  {
    hide KeepsBounds, HandleWtStream, HandleWtResetStream, HandleWtStopSending, HandleWtMaxData, HandleWtMaxStreamData;
    match c
    case WtStream(id, data, fin) => HandleWtStreamBounds(s, id, data, fin, m);
    case WtResetStream(id, code, size) => HandleWtResetStreamBounds(s, id, code, size, m);
    case WtStopSending(id, code) => HandleWtStopSendingBounds(s, id, code, m);
    case WtMaxData(max) => HandleWtMaxDataBounds(s, max, m);
    case WtMaxStreamData(id, max) => HandleWtMaxStreamDataBounds(s, id, max, m);
    case _ => HandleRestBounds(s, c, m);
  }

  lemma ReceiveBounds(s: Session, c: Capsule, m: bool)
    requires m && Creates(c) ==> Mannerly(s, c.id)
    ensures KeepsBounds(s, Receive(s, c), m)
  {
    hide KeepsBounds, Dispatch;
    SelfKeeps(s, m);
    if !s.terminated {
      var s1 := s.(received := s.received + [c]);
      SameFieldsKeep(s, s1, m);
      DispatchBounds(s1, c, m);
      KeepsThen(s, s1, Dispatch(s1, c), m);
    }
  }
}
