/**
 * What a sequence of capsules says to the endpoint that reads it, and which
 * sequences draft-ietf-webtrans-http2-15 lets an endpoint write.
 *
 * Both ends of a session are compared through these folds: the fold over what one
 * end has queued against the fold over what the other end has dispatched.
 */
module Trace {
  import opened Capsules
  import Utf8

  // ---------- One stream ----------

  datatype Ending = Open | Finished | WasReset

  /**
   * `data`, `ending` and `begun` are said by the sender of the data; `max`, `stopped`
   * and `early` by its receiver. `early`: the stop came before anything that opens the
   * stream.
   */
  datatype View = View(data: seq<Byte>, ending: Ending, begun: bool, max: nat, stopped: bool, early: bool)

  function InitialView(init: nat): View { View([], Open, false, init, false, false) }

  function StepView(v: View, c: Capsule, id: StreamId): View {
    match c
    case WtStream(i, data, fin) =>
      if i != id then v
      else v.(data := v.data + data, begun := true, ending := if fin then Finished else v.ending)
    case WtResetStream(i, _, _) =>
      if i != id then v else v.(ending := WasReset, begun := true)
    case WtStopSending(i, _) =>
      if i != id then v else v.(stopped := true, early := v.early || !v.begun)
    case WtMaxStreamData(i, max) =>
      if i != id then v else v.(max := max)
    case _ => v
  }

  function StreamView(init: nat, log: seq<Capsule>, id: StreamId): View {
    if log == [] then InitialView(init)
    else StepView(StreamView(init, log[..|log| - 1], id), log[|log| - 1], id)
  }

  lemma StreamViewSnoc(init: nat, log: seq<Capsule>, c: Capsule, id: StreamId)
    ensures StreamView(init, log + [c], id) == StepView(StreamView(init, log, id), c, id)
  {
    assert (log + [c])[..|log|] == log;
  }

  // ---------- The session ----------

  datatype Limits = Limits(data: nat, bidi: nat, uni: nat)

  datatype Totals = Totals(data: nat, max: Limits, closed: bool)

  function StepTotals(t: Totals, c: Capsule): Totals {
    match c
    case WtStream(_, data, _) => t.(data := t.data + |data|)
    case WtMaxData(max) => t.(max := t.max.(data := max))
    case WtMaxStreams(bidi, max) => t.(max := if bidi then t.max.(bidi := max) else t.max.(uni := max))
    case WtCloseSession(_, _) => t.(closed := true)
    case _ => t
  }

  function SessionTotals(init: Limits, log: seq<Capsule>): Totals {
    if log == [] then Totals(0, init, false)
    else StepTotals(SessionTotals(init, log[..|log| - 1]), log[|log| - 1])
  }

  lemma SessionTotalsSnoc(init: Limits, log: seq<Capsule>, c: Capsule)
    ensures SessionTotals(init, log + [c]) == StepTotals(SessionTotals(init, log), c)
  {
    assert (log + [c])[..|log|] == log;
  }

  // ---------- The language an endpoint may speak ----------

  /** Who speaks, and the limits it announced before its first capsule. */
  datatype Speaker = Speaker(isServer: bool, limits: Limits, streamData: nat)

  /**
   * Whether `c` may follow `log`. Nothing follows WT_CLOSE_SESSION (section 6.12). Data and resets
   * go in the stream's direction and never after its end (6.2, 6.4), and a reset names
   * exactly the bytes sent (6.2). A stream is stopped at most once (6.3), no credit
   * follows the stop (6.6), and no limit ever decreases (6.5 to 6.7). A blocked endpoint names
   * the offset at which it is blocked (6.8, 6.9), and a closing message is short UTF-8 (6.12).
   */
  predicate Allowed(p: Speaker, log: seq<Capsule>, c: Capsule) {
    var t := SessionTotals(p.limits, log);
    !t.closed &&
    match c
    case WtStream(id, _, _) =>
      ReceivableDataCapsule(id, !p.isServer) && StreamView(p.streamData, log, id).ending == Open
    case WtResetStream(id, _, size) =>
      && ReceivableDataCapsule(id, !p.isServer)
      && StreamView(p.streamData, log, id).ending == Open
      && size == |StreamView(p.streamData, log, id).data|
    case WtStreamDataBlocked(id, max) =>
      && ReceivableDataCapsule(id, !p.isServer)
      && StreamView(p.streamData, log, id).ending == Open
      && max == |StreamView(p.streamData, log, id).data|
    case WtDataBlocked(max) => max == t.data
    case WtStopSending(id, _) =>
      ReceivableFlowCapsule(id, !p.isServer) && !StreamView(p.streamData, log, id).stopped
    case WtMaxStreamData(id, max) =>
      && ReceivableFlowCapsule(id, !p.isServer)
      && !StreamView(p.streamData, log, id).stopped
      && StreamView(p.streamData, log, id).max < max <= MAX_VARINT
    case WtMaxData(max) => t.max.data <= max <= MAX_VARINT
    case WtMaxStreams(bidi, max) => (if bidi then t.max.bidi else t.max.uni) <= max <= MAX_STREAMS
    case WtStreamsBlocked(_, max) => max <= MAX_STREAMS
    case WtCloseSession(_, message) => |message| <= MAX_MESSAGE && Utf8.WellFormed(message)
    case _ => true
  }

  predicate Legal(p: Speaker, log: seq<Capsule>) {
    log == [] || (Legal(p, log[..|log| - 1]) && Allowed(p, log[..|log| - 1], log[|log| - 1]))
  }

  lemma LegalSnoc(p: Speaker, log: seq<Capsule>, c: Capsule)
    ensures Legal(p, log + [c]) <==> Legal(p, log) && Allowed(p, log, c)
  {
    assert (log + [c])[..|log|] == log;
  }

  /** Every capsule of a legal log was allowed where it stands. */
  lemma {:induction false} LegalPrefix(p: Speaker, log: seq<Capsule>, k: nat)
    requires Legal(p, log) && k <= |log|
    ensures Legal(p, log[..k])
    ensures k < |log| ==> Allowed(p, log[..k], log[k])
    decreases |log|
  {
    if k == |log| {
      assert log[..k] == log;
    } else if k < |log| - 1 {
      var init := log[..|log| - 1];
      LegalPrefix(p, init, k);
      assert init[..k] == log[..k] && init[k] == log[k];
    }
  }

  /** What may still change about a stream once `v` has been said, and what may not. */
  predicate Extends(v: View, w: View) {
    && v.data <= w.data
    && v.max <= w.max
    && (v.begun ==> w.begun)
    && (v.stopped ==> w.stopped && w.max == v.max && w.early == v.early)
    && (v.ending != Open ==> w.ending == v.ending && w.data == v.data)
  }

  lemma ExtendsTransitive(u: View, v: View, w: View)
    requires Extends(u, v) && Extends(v, w)
    ensures Extends(u, w)
  {
  }

  lemma AllowedExtends(p: Speaker, log: seq<Capsule>, c: Capsule, id: StreamId)
    requires Allowed(p, log, c)
    ensures Extends(StreamView(p.streamData, log, id), StreamView(p.streamData, log + [c], id))
  {
    StreamViewSnoc(p.streamData, log, c, id);
  }

  /** In a legal log a stream only grows: bytes are appended, credit rises, an ending is final. */
  lemma {:induction false} StreamGrows(p: Speaker, log: seq<Capsule>, k: nat, id: StreamId)
    requires Legal(p, log) && k <= |log|
    ensures Extends(StreamView(p.streamData, log[..k], id), StreamView(p.streamData, log, id))
    decreases |log|
  {
    if k == |log| {
      assert log[..k] == log;
    } else {
      var init := log[..|log| - 1];
      StreamGrows(p, init, k, id);
      assert init[..k] == log[..k] && init + [log[|log| - 1]] == log;
      AllowedExtends(p, init, log[|log| - 1], id);
      ExtendsTransitive(StreamView(p.streamData, log[..k], id), StreamView(p.streamData, init, id),
                        StreamView(p.streamData, log, id));
    }
  }

  predicate TotalsGrow(t: Totals, u: Totals) {
    && t.data <= u.data
    && t.max.data <= u.max.data && t.max.bidi <= u.max.bidi && t.max.uni <= u.max.uni
    && (t.closed ==> u.closed)
  }

  lemma {:induction false} SessionGrows(p: Speaker, log: seq<Capsule>, k: nat)
    requires Legal(p, log) && k <= |log|
    ensures TotalsGrow(SessionTotals(p.limits, log[..k]), SessionTotals(p.limits, log))
    decreases |log|
  {
    if k == |log| {
      assert log[..k] == log;
    } else {
      var init := log[..|log| - 1];
      SessionGrows(p, init, k);
      assert init[..k] == log[..k] && init + [log[|log| - 1]] == log;
    }
  }

  /** A stream of which nothing was begun carries no bytes and has no end; a stop before that is early. */
  predicate ViewShape(v: View, init: nat) {
    && (!v.begun ==> v.data == [] && v.ending == Open)
    && (v.stopped && !v.begun ==> v.early)
    && (v.early ==> v.stopped)
    && init <= v.max
  }

  lemma {:induction false} LegalViewShape(p: Speaker, log: seq<Capsule>, id: StreamId)
    requires Legal(p, log)
    ensures ViewShape(StreamView(p.streamData, log, id), p.streamData)
    decreases |log|
  {
    if log != [] {
      LegalViewShape(p, log[..|log| - 1], id);
    }
  }

  // ---------- What the language means, capsule against capsule ----------

  predicate CarriesData(c: Capsule, id: StreamId) {
    (c.WtStream? || c.WtResetStream?) && c.id == id
  }

  /** The bytes a log carries for one stream. */
  function Carried(log: seq<Capsule>, id: StreamId): seq<Byte> {
    if log == [] then []
    else
      var c := log[|log| - 1];
      Carried(log[..|log| - 1], id) + (if c.WtStream? && c.id == id then c.data else [])
  }

  lemma {:induction false} ViewIsCarried(init: nat, log: seq<Capsule>, id: StreamId)
    ensures StreamView(init, log, id).data == Carried(log, id)
    decreases |log|
  {
    if log != [] { ViewIsCarried(init, log[..|log| - 1], id); }
  }

  lemma {:induction false} EndedByThen(p: Speaker, log: seq<Capsule>, j: nat, id: StreamId)
    requires Legal(p, log) && j < |log| && CarriesData(log[j], id)
    requires log[j].WtResetStream? || log[j].fin
    ensures StreamView(p.streamData, log, id).ending != Open
    decreases |log|
  {
    assert log[..j + 1] == log[..j] + [log[j]];
    StreamViewSnoc(p.streamData, log[..j], log[j], id);
    StreamGrows(p, log, j + 1, id);
  }

  /** Of two capsules with data of one stream the earlier is a WT_STREAM without FIN. */
  lemma OneEnding(p: Speaker, log: seq<Capsule>, j: nat, k: nat, id: StreamId)
    requires Legal(p, log) && j < k < |log| && CarriesData(log[j], id) && CarriesData(log[k], id)
    ensures log[j].WtStream? && !log[j].fin
  {
    LegalPrefix(p, log, k);
    assert log[..k][j] == log[j];
    if log[j].WtResetStream? || log[j].fin { EndedByThen(p, log[..k], j, id); }
  }

  /** A reset names exactly the bytes sent before it. */
  lemma ReliableSize(p: Speaker, log: seq<Capsule>, k: nat)
    requires Legal(p, log) && k < |log| && log[k].WtResetStream?
    ensures log[k].reliableSize == |Carried(log[..k], log[k].id)|
  {
    LegalPrefix(p, log, k);
    ViewIsCarried(p.streamData, log[..k], log[k].id);
  }

  /** WT_CLOSE_SESSION comes last, and so at most once. */
  lemma CloseIsLast(p: Speaker, log: seq<Capsule>, j: nat)
    requires Legal(p, log) && j < |log| && log[j].WtCloseSession?
    ensures j == |log| - 1
  {
    var next: nat := j + 1;
    assert log[..next] == log[..j] + [log[j]];
    SessionTotalsSnoc(p.limits, log[..j], log[j]);
    LegalPrefix(p, log, next);
  }

  /** Stating three session limits is legal iff none of them is thereby decreased and the session was not closed. */
  lemma LimitsOnlyRise(p: Speaker, log: seq<Capsule>, l: Limits)
    requires Legal(p, log)
    requires l.data <= MAX_VARINT && l.bidi <= MAX_STREAMS && l.uni <= MAX_STREAMS
    ensures var t := SessionTotals(p.limits, log);
            Legal(p, log + [WtMaxData(l.data)] + [WtMaxStreams(true, l.bidi)] + [WtMaxStreams(false, l.uni)])
            <==> !t.closed && t.max.data <= l.data && t.max.bidi <= l.bidi && t.max.uni <= l.uni
  {
    hide Legal, StreamView, SessionTotals;
    var a, b, c := WtMaxData(l.data), WtMaxStreams(true, l.bidi), WtMaxStreams(false, l.uni);
    SessionTotalsSnoc(p.limits, log, a);
    SessionTotalsSnoc(p.limits, log + [a], b);
    LegalSnoc(p, log, a);
    LegalSnoc(p, log + [a], b);
    LegalSnoc(p, log + [a] + [b], c);
  }

  // ---------- Which streams a log talks about ----------

  predicate About(c: Capsule, id: StreamId) {
    match c
    case WtStream(i, _, _) => i == id
    case WtResetStream(i, _, _) => i == id
    case WtStopSending(i, _) => i == id
    case WtMaxStreamData(i, _) => i == id
    case WtStreamDataBlocked(i, _) => i == id
    case _ => false
  }

  predicate Mentions(log: seq<Capsule>, id: StreamId) {
    exists k :: 0 <= k < |log| && About(log[k], id)
  }

  lemma MentionsSnoc(log: seq<Capsule>, c: Capsule, id: StreamId)
    ensures Mentions(log + [c], id) <==> Mentions(log, id) || About(c, id)
  {
    var l := log + [c];
    if Mentions(l, id) && !About(c, id) {
      var k :| 0 <= k < |l| && About(l[k], id);
      assert log[k] == l[k];
    }
    if Mentions(log, id) {
      var k :| 0 <= k < |log| && About(log[k], id);
      assert l[k] == log[k];
    }
    if About(c, id) {
      assert l[|log|] == c;
    }
  }
}
