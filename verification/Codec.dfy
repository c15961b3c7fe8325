/**
 * Capsules as bytes: the Capsule Protocol (section 3.2 of RFC 9297) around the payloads of
 * draft-ietf-webtrans-http2-15, section 6.
 */
module Codec {
  import opened Capsules
  import opened Varint
  import opened Utf8

  // ---------- Types ----------

  const DATAGRAM: nat := 0x00
  const WT_RESET_STREAM: nat := 0x190B4D39
  const WT_STOP_SENDING: nat := 0x190B4D3A
  const WT_STREAM_FIN: nat := 0x190B4D3B
  const WT_STREAM: nat := 0x190B4D3C
  const WT_MAX_DATA: nat := 0x190B4D3D
  const WT_MAX_STREAM_DATA: nat := 0x190B4D3E
  const WT_MAX_STREAMS_BIDI: nat := 0x190B4D3F
  const WT_MAX_STREAMS_UNI: nat := 0x190B4D40
  const WT_DATA_BLOCKED: nat := 0x190B4D41
  const WT_STREAM_DATA_BLOCKED: nat := 0x190B4D42
  const WT_STREAMS_BLOCKED_BIDI: nat := 0x190B4D43
  const WT_STREAMS_BLOCKED_UNI: nat := 0x190B4D44
  const WT_CLOSE_SESSION: nat := 0x2843
  const WT_DRAIN_SESSION: nat := 0x78ae

  function TypeCode(c: Capsule): (t: nat)
    ensures t <= MAX_VARINT
  {
    match c
    case Datagram(_) => DATAGRAM
    case WtResetStream(_, _, _) => WT_RESET_STREAM
    case WtStopSending(_, _) => WT_STOP_SENDING
    case WtStream(_, _, fin) => if fin then WT_STREAM_FIN else WT_STREAM
    case WtMaxData(_) => WT_MAX_DATA
    case WtMaxStreamData(_, _) => WT_MAX_STREAM_DATA
    case WtMaxStreams(bidi, _) => if bidi then WT_MAX_STREAMS_BIDI else WT_MAX_STREAMS_UNI
    case WtDataBlocked(_) => WT_DATA_BLOCKED
    case WtStreamDataBlocked(_, _) => WT_STREAM_DATA_BLOCKED
    case WtStreamsBlocked(bidi, _) => if bidi then WT_STREAMS_BLOCKED_BIDI else WT_STREAMS_BLOCKED_UNI
    case WtCloseSession(_, _) => WT_CLOSE_SESSION
    case WtDrainSession => WT_DRAIN_SESSION
  }

  predicate FitsId(id: StreamId) { WireId(id) <= MAX_VARINT }

  /** The fields fit their encodings. */
  predicate Encodable(c: Capsule) {
    match c
    case Datagram(payload) => true
    case WtResetStream(id, _, size) => FitsId(id) && size <= MAX_VARINT
    case WtStopSending(id, _) => FitsId(id)
    case WtStream(id, _, _) => FitsId(id)
    case WtMaxData(max) => max <= MAX_VARINT
    case WtMaxStreamData(id, max) => FitsId(id) && max <= MAX_VARINT
    case WtMaxStreams(_, max) => max <= MAX_VARINT
    case WtDataBlocked(max) => max <= MAX_VARINT
    case WtStreamDataBlocked(id, max) => FitsId(id) && max <= MAX_VARINT
    case WtStreamsBlocked(_, max) => max <= MAX_VARINT
    case WtCloseSession(_, message) => |message| <= MAX_MESSAGE && WellFormed(message)
    case WtDrainSession => true
  }

  function Payload(c: Capsule): seq<Byte>
    requires Encodable(c)
  {
    match c
    case Datagram(payload) => payload
    case WtResetStream(id, code, size) => Encoded(WireId(id)) + Encoded(code) + Encoded(size)
    case WtStopSending(id, code) => Encoded(WireId(id)) + Encoded(code)
    case WtStream(id, data, _) => Encoded(WireId(id)) + data
    case WtMaxData(max) => Encoded(max)
    case WtMaxStreamData(id, max) => Encoded(WireId(id)) + Encoded(max)
    case WtMaxStreams(_, max) => Encoded(max)
    case WtDataBlocked(max) => Encoded(max)
    case WtStreamDataBlocked(id, max) => Encoded(WireId(id)) + Encoded(max)
    case WtStreamsBlocked(_, max) => Encoded(max)
    case WtCloseSession(code, message) => Digits(code, 4) + message
    case WtDrainSession => []
  }

  // ---------- Reading payloads ----------

  /**
   * What a payload says: a capsule, nothing (padding and unknown types), a payload that ends
   * before or after its fields, or a value the draft forbids.
   */
  datatype Reading = Got(c: Capsule) | Ignored | Malformed | BadValue

  /** One integer and what follows it. */
  function Next(p: seq<Byte>): (r: Option<(nat, seq<Byte>)>)
    ensures r.Some? ==> r.value.0 <= MAX_VARINT
  {
    match Decoded(p)
    case None => None
    case Some((v, n)) => Some((v, p[n..]))
  }

  /** Exactly one integer. */
  function Only(p: seq<Byte>): (r: Option<nat>)
    ensures r.Some? ==> r.value <= MAX_VARINT
  {
    match Next(p)
    case None => None
    case Some((v, rest)) => if rest == [] then Some(v) else None
  }

  function ReadReset(p: seq<Byte>): Reading {
    match Next(p)
    case None => Malformed
    case Some((id, p1)) =>
      match Next(p1)
      case None => Malformed
      case Some((code, p2)) =>
        if code > MAX_ERROR_CODE then BadValue
        else match Only(p2)
             case None => Malformed
             case Some(size) => Got(WtResetStream(StreamIdOf(id), code, size))
  }

  function ReadStop(p: seq<Byte>): Reading {
    match Next(p)
    case None => Malformed
    case Some((id, p1)) =>
      match Only(p1)
      case None => Malformed
      case Some(code) => if code > MAX_ERROR_CODE then BadValue else Got(WtStopSending(StreamIdOf(id), code))
  }

  function ReadStream(p: seq<Byte>, fin: bool): Reading {
    match Next(p)
    case None => Malformed
    case Some((id, data)) => Got(WtStream(StreamIdOf(id), data, fin))
  }

  /** Types whose payload is one integer, and what they say with it. */
  predicate IsLimit(t: nat) {
    t == WT_MAX_DATA || t == WT_MAX_STREAMS_BIDI || t == WT_MAX_STREAMS_UNI
    || t == WT_DATA_BLOCKED || t == WT_STREAMS_BLOCKED_BIDI || t == WT_STREAMS_BLOCKED_UNI
  }

  function LimitCapsule(t: nat, max: nat): Capsule
    requires IsLimit(t)
  {
    if t == WT_MAX_DATA then WtMaxData(max)
    else if t == WT_MAX_STREAMS_BIDI then WtMaxStreams(true, max)
    else if t == WT_MAX_STREAMS_UNI then WtMaxStreams(false, max)
    else if t == WT_DATA_BLOCKED then WtDataBlocked(max)
    else if t == WT_STREAMS_BLOCKED_BIDI then WtStreamsBlocked(true, max)
    else WtStreamsBlocked(false, max)
  }

  function ReadLimit(t: nat, p: seq<Byte>): Reading
    requires IsLimit(t)
  {
    match Only(p)
    case None => Malformed
    case Some(max) => Got(LimitCapsule(t, max))
  }

  function ReadStreamLimit(p: seq<Byte>, blocked: bool): Reading {
    match Next(p)
    case None => Malformed
    case Some((id, p1)) =>
      match Only(p1)
      case None => Malformed
      case Some(max) =>
        Got(if blocked then WtStreamDataBlocked(StreamIdOf(id), max) else WtMaxStreamData(StreamIdOf(id), max))
  }

  function ReadClose(p: seq<Byte>): Reading {
    if |p| < 4 then Malformed
    else
      var message := p[4..];
      if |message| > MAX_MESSAGE || !WellFormed(message) then BadValue
      else
        Powers();
        NumberDigits(p[..4]);
        Got(WtCloseSession(Number(p[..4]), message))
  }

  function Read(t: nat, p: seq<Byte>): Reading {
    if t == WT_STREAM || t == WT_STREAM_FIN then ReadStream(p, t % 2 == 1)
    else if t == WT_RESET_STREAM then ReadReset(p)
    else if t == WT_STOP_SENDING then ReadStop(p)
    else if t == WT_MAX_STREAM_DATA || t == WT_STREAM_DATA_BLOCKED then ReadStreamLimit(p, t == WT_STREAM_DATA_BLOCKED)
    else if IsLimit(t) then ReadLimit(t, p)
    else if t == DATAGRAM then Got(Datagram(p))
    else if t == WT_CLOSE_SESSION then ReadClose(p)
    else if t == WT_DRAIN_SESSION then (if p == [] then Got(WtDrainSession) else Malformed)
    else Ignored
  }

  lemma NextInverts(v: nat, rest: seq<Byte>)
    requires v <= MAX_VARINT
    ensures Next(Encoded(v) + rest) == Some((v, rest))
    ensures Only(Encoded(v)) == Some(v)
  {
    RoundTrip(v, rest);
    RoundTrip(v, []);
    assert Encoded(v) + [] == Encoded(v);
  }

  lemma ReadInvertsReset(id: StreamId, code: ErrorCode, size: nat)
    requires FitsId(id) && size <= MAX_VARINT
    ensures ReadReset(Encoded(WireId(id)) + Encoded(code) + Encoded(size)) == Got(WtResetStream(id, code, size))
  {
    hide Encoded, Next, Only, WireId, StreamIdOf;
    StreamIdRoundTrip(id);
    var tail := Encoded(code) + Encoded(size);
    assert Encoded(WireId(id)) + Encoded(code) + Encoded(size) == Encoded(WireId(id)) + tail;
    NextInverts(WireId(id), tail);
    NextInverts(code, Encoded(size));
    NextInverts(size, []);
  }

  lemma ReadInvertsStop(id: StreamId, code: ErrorCode)
    requires FitsId(id)
    ensures ReadStop(Encoded(WireId(id)) + Encoded(code)) == Got(WtStopSending(id, code))
  {
    hide Encoded, Next, Only, WireId, StreamIdOf;
    StreamIdRoundTrip(id);
    NextInverts(WireId(id), Encoded(code));
    NextInverts(code, []);
  }

  lemma ReadInvertsStream(id: StreamId, data: seq<Byte>, fin: bool)
    requires FitsId(id)
    ensures ReadStream(Encoded(WireId(id)) + data, fin) == Got(WtStream(id, data, fin))
  {
    StreamIdRoundTrip(id);
    NextInverts(WireId(id), data);
  }

  lemma ReadInvertsStreamLimit(id: StreamId, max: nat, blocked: bool)
    requires FitsId(id) && max <= MAX_VARINT
    ensures ReadStreamLimit(Encoded(WireId(id)) + Encoded(max), blocked)
         == Got(if blocked then WtStreamDataBlocked(id, max) else WtMaxStreamData(id, max))
  {
    hide Encoded, Next, Only, WireId, StreamIdOf;
    StreamIdRoundTrip(id);
    NextInverts(WireId(id), Encoded(max));
    NextInverts(max, []);
  }

  lemma ReadInvertsClose(code: ErrorCode, message: seq<Byte>)
    requires |message| <= MAX_MESSAGE && WellFormed(message)
    ensures ReadClose(Digits(code, 4) + message) == Got(WtCloseSession(code, message))
  {
    Powers();
    DigitsNumber(code, 4);
    var p := Digits(code, 4) + message;
    assert p[..4] == Digits(code, 4) && p[4..] == message;
    hide WellFormed, Digits, Number;
  }

  lemma ReadInvertsLimit(t: nat, max: nat)
    requires IsLimit(t) && max <= MAX_VARINT
    ensures ReadLimit(t, Encoded(max)) == Got(LimitCapsule(t, max))
  {
    NextInverts(max, []);
    hide Encoded, Only;
  }

  /** Reading inverts writing. */
  lemma ReadInverts(c: Capsule)
    requires Encodable(c)
    ensures Read(TypeCode(c), Payload(c)) == Got(c)
  {
    hide Encoded, ReadReset, ReadStop, ReadStream, ReadStreamLimit, ReadClose, ReadLimit, Digits, WellFormed, WireId;
    match c
    case WtResetStream(id, code, size) => ReadInvertsReset(id, code, size);
    case WtStopSending(id, code) => ReadInvertsStop(id, code);
    case WtStream(id, data, fin) => ReadInvertsStream(id, data, fin);
    case WtMaxStreamData(id, max) => ReadInvertsStreamLimit(id, max, false);
    case WtStreamDataBlocked(id, max) => ReadInvertsStreamLimit(id, max, true);
    case WtMaxData(max) => ReadInvertsLimit(TypeCode(c), max);
    case WtMaxStreams(_, max) => ReadInvertsLimit(TypeCode(c), max);
    case WtDataBlocked(max) => ReadInvertsLimit(TypeCode(c), max);
    case WtStreamsBlocked(_, max) => ReadInvertsLimit(TypeCode(c), max);
    case WtCloseSession(code, message) => ReadInvertsClose(code, message);
    case _ =>
  }

  /** What one could have written for a payload: nothing longer, and the same if no shorter. */
  predicate Canonical(c: Capsule, t: nat, p: seq<Byte>) {
    Encodable(c) && TypeCode(c) == t && |Payload(c)| <= |p| && (|Payload(c)| == |p| ==> Payload(c) == p)
  }

  /** `a` spells the front of `p` no longer than `p` does, and exactly so if it leaves `rest` no shorter. */
  predicate Spells(p: seq<Byte>, a: seq<Byte>, rest: seq<Byte>) {
    |a| + |rest| <= |p| && (|a| + |rest| == |p| ==> p == a + rest)
  }

  lemma SpellsOn(p: seq<Byte>, a: seq<Byte>, p1: seq<Byte>, b: seq<Byte>, p2: seq<Byte>)
    requires Spells(p, a, p1) && Spells(p1, b, p2)
    ensures Spells(p, a + b, p2)
  {
    assert a + (b + p2) == a + b + p2;
  }

  lemma SpellsAll(p: seq<Byte>, a: seq<Byte>)
    requires Spells(p, a, [])
    ensures |a| <= |p| && (|a| == |p| ==> a == p)
  {
    assert a + [] == a;
  }

  lemma ResetIsWritten(p: seq<Byte>)
    requires ReadReset(p).Got?
    ensures Canonical(ReadReset(p).c, WT_RESET_STREAM, p)
  {
    var (id, p1) := Next(p).value;
    var (code, p2) := Next(p1).value;
    var size := Only(p2).value;
    NextIsWritten(p);
    NextIsWritten(p1);
    NextIsWritten(p2);
    WireIdRoundTrip(id);
    var c := WtResetStream(StreamIdOf(id), code, size);
    assert ReadReset(p) == Got(c) && Encodable(c);
    hide Next, Only, ReadReset, Encoded, WireId, StreamIdOf, Spells, Encodable;
    assert Payload(c) == Encoded(id) + Encoded(code) + Encoded(size) && TypeCode(c) == WT_RESET_STREAM;
    hide Payload, TypeCode;
    SpellsOn(p, Encoded(id), p1, Encoded(code), p2);
    SpellsOn(p, Encoded(id) + Encoded(code), p2, Encoded(size), []);
    SpellsAll(p, Encoded(id) + Encoded(code) + Encoded(size));
  }

  lemma StopIsWritten(p: seq<Byte>)
    requires ReadStop(p).Got?
    ensures Canonical(ReadStop(p).c, WT_STOP_SENDING, p)
  {
    var (id, p1) := Next(p).value;
    var code := Only(p1).value;
    NextIsWritten(p);
    NextIsWritten(p1);
    WireIdRoundTrip(id);
    var c := WtStopSending(StreamIdOf(id), code);
    assert ReadStop(p) == Got(c) && Encodable(c);
    hide Next, Only, ReadStop, Encoded, WireId, StreamIdOf, Spells, Encodable;
    assert Payload(c) == Encoded(id) + Encoded(code) && TypeCode(c) == WT_STOP_SENDING;
    hide Payload, TypeCode;
    SpellsOn(p, Encoded(id), p1, Encoded(code), []);
    SpellsAll(p, Encoded(id) + Encoded(code));
  }

  lemma StreamLimitIsWritten(p: seq<Byte>, blocked: bool)
    requires ReadStreamLimit(p, blocked).Got?
    ensures Canonical(ReadStreamLimit(p, blocked).c, if blocked then WT_STREAM_DATA_BLOCKED else WT_MAX_STREAM_DATA, p)
  {
    var (id, p1) := Next(p).value;
    var max := Only(p1).value;
    NextIsWritten(p);
    NextIsWritten(p1);
    WireIdRoundTrip(id);
    var c := if blocked then WtStreamDataBlocked(StreamIdOf(id), max) else WtMaxStreamData(StreamIdOf(id), max);
    assert ReadStreamLimit(p, blocked) == Got(c) && Encodable(c);
    hide Next, Only, ReadStreamLimit, Encoded, WireId, StreamIdOf, Spells, Encodable;
    assert Payload(c) == Encoded(id) + Encoded(max);
    assert TypeCode(c) == if blocked then WT_STREAM_DATA_BLOCKED else WT_MAX_STREAM_DATA;
    hide Payload, TypeCode;
    SpellsOn(p, Encoded(id), p1, Encoded(max), []);
    SpellsAll(p, Encoded(id) + Encoded(max));
  }

  lemma LimitIsWritten(t: nat, p: seq<Byte>)
    requires IsLimit(t) && ReadLimit(t, p).Got?
    ensures Canonical(ReadLimit(t, p).c, t, p)
  {
    NextIsWritten(p);
    hide Next, Encoded, Spells;
    SpellsAll(p, Encoded(Only(p).value));
  }

  lemma StreamIsWritten(p: seq<Byte>, fin: bool)
    requires ReadStream(p, fin).Got?
    ensures Canonical(ReadStream(p, fin).c, if fin then WT_STREAM_FIN else WT_STREAM, p)
  {
    NextIsWritten(p);
    WireIdRoundTrip(Next(p).value.0);
    hide Next, Encoded;
  }

  lemma CloseIsWritten(p: seq<Byte>)
    requires ReadClose(p).Got?
    ensures Canonical(ReadClose(p).c, WT_CLOSE_SESSION, p)
  {
    Powers();
    NumberDigits(p[..4]);
    assert p == p[..4] + p[4..];
    hide WellFormed;
  }

  /** Integers may be spelled at greater length than ours; nothing else is read that we could not have written. */
  lemma ReadIsWritten(t: nat, p: seq<Byte>)
    requires Read(t, p).Got?
    ensures Canonical(Read(t, p).c, t, p)
  {
    if t == WT_RESET_STREAM { ResetIsWritten(p); }
    else if t == WT_STOP_SENDING { StopIsWritten(p); }
    else if t == WT_MAX_STREAM_DATA || t == WT_STREAM_DATA_BLOCKED { StreamLimitIsWritten(p, t == WT_STREAM_DATA_BLOCKED); }
    else if t == WT_STREAM || t == WT_STREAM_FIN { StreamIsWritten(p, t % 2 == 1); }
    else if t == WT_CLOSE_SESSION { CloseIsWritten(p); }
    else if IsLimit(t) { LimitIsWritten(t, p); }
    else if t == DATAGRAM { assert Payload(Read(t, p).c) == p; }
    hide ReadReset, ReadStop, ReadStream, ReadStreamLimit, ReadClose, ReadLimit;
  }

  lemma NextIsWritten(p: seq<Byte>)
    requires Next(p).Some?
    ensures Spells(p, Encoded(Next(p).value.0), Next(p).value.1)
  {
    DecodeThenEncode(p);
    var n := Decoded(p).value.1;
    assert p == p[..n] + p[n..];
  }

  // ---------- The grammar of payloads ----------

  predicate Known(t: nat) {
    t == DATAGRAM || t == WT_RESET_STREAM || t == WT_STOP_SENDING || t == WT_STREAM || t == WT_STREAM_FIN
    || t == WT_MAX_STREAM_DATA || t == WT_STREAM_DATA_BLOCKED || t == WT_CLOSE_SESSION || t == WT_DRAIN_SESSION || IsLimit(t)
  }

  /** `p` is these integers one after the other, each spelled at any length, and nothing else. */
  predicate Integers(p: seq<Byte>, vs: seq<nat>) {
    if vs == [] then p == []
    else Next(p).Some? && Next(p).value.0 == vs[0] && Integers(Next(p).value.1, vs[1..])
  }

  /** `p` spells the fields of `c`. */
  predicate Spelled(c: Capsule, p: seq<Byte>) {
    match c
    case Datagram(payload) => p == payload
    case WtResetStream(id, code, size) => Integers(p, [WireId(id), code, size])
    case WtStopSending(id, code) => Integers(p, [WireId(id), code])
    case WtStream(id, data, _) => Next(p) == Some((WireId(id), data))
    case WtMaxData(max) => Integers(p, [max])
    case WtMaxStreamData(id, max) => Integers(p, [WireId(id), max])
    case WtMaxStreams(_, max) => Integers(p, [max])
    case WtDataBlocked(max) => Integers(p, [max])
    case WtStreamDataBlocked(id, max) => Integers(p, [WireId(id), max])
    case WtStreamsBlocked(_, max) => Integers(p, [max])
    case WtCloseSession(code, message) => p == Digits(code, 4) + message && |message| <= MAX_MESSAGE && WellFormed(message)
    case WtDrainSession => p == []
  }

  /** An error code of more than 32 bits, or a closing message that is too long or no text. */
  ghost predicate Forbidden(t: nat, p: seq<Byte>) {
    if t == WT_RESET_STREAM then Next(p).Some? && Next(Next(p).value.1).Some? && Next(Next(p).value.1).value.0 > MAX_ERROR_CODE
    else if t == WT_STOP_SENDING then exists id: nat, code: nat :: code > MAX_ERROR_CODE && Integers(p, [id, code])
    else t == WT_CLOSE_SESSION && |p| >= 4 && (|p| - 4 > MAX_MESSAGE || !WellFormed(p[4..]))
  }

  lemma OneInteger(p: seq<Byte>, v: nat)
    ensures Integers(p, [v]) <==> Only(p) == Some(v)
  {
    assert [v][1..] == [];
  }

  lemma TwoIntegers(p: seq<Byte>, v: nat, w: nat)
    ensures Integers(p, [v, w]) <==> Next(p).Some? && Next(p).value.0 == v && Only(Next(p).value.1) == Some(w)
  {
    assert [v, w][1..] == [w];
    hide Next, Only;
    if Next(p).Some? { OneInteger(Next(p).value.1, w); }
  }

  lemma ThreeIntegers(p: seq<Byte>, u: nat, v: nat, w: nat)
    ensures Integers(p, [u, v, w]) <==> Next(p).Some? && Next(p).value.0 == u && Integers(Next(p).value.1, [v, w])
  {
    assert [u, v, w][1..] == [v, w];
    hide Next;
  }

  lemma CloseIsSpelled(p: seq<Byte>, code: ErrorCode, message: seq<Byte>)
    ensures ReadClose(p) == Got(WtCloseSession(code, message)) <==> Spelled(WtCloseSession(code, message), p)
  {
    if Spelled(WtCloseSession(code, message), p) { ReadInvertsClose(code, message); }
    if ReadClose(p) == Got(WtCloseSession(code, message)) {
      Powers();
      NumberDigits(p[..4]);
      assert p == p[..4] + p[4..];
    }
  }

  lemma ResetIsSpelled(p: seq<Byte>, id: StreamId, code: ErrorCode, size: nat)
    ensures ReadReset(p) == Got(WtResetStream(id, code, size)) <==> Integers(p, [WireId(id), code, size])
  {
    hide Next, Only, Integers, WireId, StreamIdOf;
    StreamIdRoundTrip(id);
    ThreeIntegers(p, WireId(id), code, size);
    if Next(p).Some? {
      TwoIntegers(Next(p).value.1, code, size);
      WireIdRoundTrip(Next(p).value.0);
    }
  }

  lemma PairIsSpelled(p: seq<Byte>, id: StreamId, v: nat)
    ensures Integers(p, [WireId(id), v]) <==> Next(p).Some? && StreamIdOf(Next(p).value.0) == id && Only(Next(p).value.1) == Some(v)
  {
    hide Next, Only, Integers, WireId, StreamIdOf;
    StreamIdRoundTrip(id);
    TwoIntegers(p, WireId(id), v);
    if Next(p).Some? { WireIdRoundTrip(Next(p).value.0); }
  }

  lemma LimitIsSpelled(t: nat, p: seq<Byte>, c: Capsule)
    requires IsLimit(t)
    ensures ReadLimit(t, p) == Got(c) <==> TypeCode(c) == t && Spelled(c, p)
  {
    hide Next, Only, Integers;
    match c
    case WtMaxData(max) => OneInteger(p, max);
    case WtMaxStreams(_, max) => OneInteger(p, max);
    case WtDataBlocked(max) => OneInteger(p, max);
    case WtStreamsBlocked(_, max) => OneInteger(p, max);
    case _ => hide Spelled;
  }

  lemma StreamIsSpelled(p: seq<Byte>, fin: bool, id: StreamId, data: seq<Byte>)
    ensures ReadStream(p, fin) == Got(WtStream(id, data, fin)) <==> Next(p) == Some((WireId(id), data))
  {
    hide Next, WireId, StreamIdOf;
    StreamIdRoundTrip(id);
    if Next(p).Some? { WireIdRoundTrip(Next(p).value.0); }
  }

  lemma ReadsIff(t: nat, p: seq<Byte>, c: Capsule)
    ensures Read(t, p) == Got(c) <==> TypeCode(c) == t && Spelled(c, p)
  {
    hide Next, Only, Integers, WireId, StreamIdOf, ReadClose, ReadLimit, ReadReset, WellFormed, Digits;
    if IsLimit(t) {
      LimitIsSpelled(t, p, c);
      hide Spelled;
    } else {
      ResetGivesReset(p);
      CloseGivesClose(p);
      match c
      case WtResetStream(id, code, size) => ResetIsSpelled(p, id, code, size);
      case WtStopSending(id, code) => PairIsSpelled(p, id, code);
      case WtStream(id, data, fin) => StreamIsSpelled(p, fin, id, data);
      case WtMaxStreamData(id, max) => PairIsSpelled(p, id, max);
      case WtStreamDataBlocked(id, max) => PairIsSpelled(p, id, max);
      case WtCloseSession(code, message) => CloseIsSpelled(p, code, message);
      case _ =>
    }
  }

  lemma ResetGivesReset(p: seq<Byte>)
    ensures ReadReset(p).Got? ==> ReadReset(p).c.WtResetStream?
  {
  }

  lemma CloseGivesClose(p: seq<Byte>)
    ensures ReadClose(p).Got? ==> ReadClose(p).c.WtCloseSession?
  {
  }

  lemma BadIff(t: nat, p: seq<Byte>)
    ensures Read(t, p).BadValue? <==> Forbidden(t, p)
    ensures Read(t, p).Ignored? <==> !Known(t)
  {
    hide Next, Only, Integers, WireId, StreamIdOf, WellFormed, Digits, Number;
    if t == WT_STOP_SENDING && Next(p).Some? {
      forall id: nat, code: nat ensures Integers(p, [id, code]) <==> Next(p).value.0 == id && Only(Next(p).value.1) == Some(code) { TwoIntegers(p, id, code); }
      if Only(Next(p).value.1).Some? { assert Integers(p, [Next(p).value.0, Only(Next(p).value.1).value]); }
    } else if t == WT_STOP_SENDING {
      forall id: nat, code: nat ensures !Integers(p, [id, code]) { TwoIntegers(p, id, code); }
    }
  }

  /** What is read of any payload: the capsule whose fields it spells, nothing of an unknown type, and else one of two errors. */
  lemma ReadsExactly(t: nat, p: seq<Byte>)
    ensures forall c :: Read(t, p) == Got(c) <==> TypeCode(c) == t && Spelled(c, p)
    ensures Read(t, p).Ignored? <==> !Known(t)
    ensures Read(t, p).BadValue? <==> Forbidden(t, p)
    ensures Read(t, p).Malformed? <==> Known(t) && !Forbidden(t, p) && forall c :: TypeCode(c) == t ==> !Spelled(c, p)
  {
    hide Read, Spelled, Forbidden, Known, TypeCode;
    forall c ensures Read(t, p) == Got(c) <==> TypeCode(c) == t && Spelled(c, p) { ReadsIff(t, p, c); }
    BadIff(t, p);
  }

  // ---------- The Capsule Protocol ----------

  function Wrap(t: nat, p: seq<Byte>): seq<Byte>
    requires t <= MAX_VARINT && |p| <= MAX_VARINT
  {
    Encoded(t) + Encoded(|p|) + p
  }

  function Wire(c: Capsule): seq<Byte>
    requires Encodable(c) && |Payload(c)| <= MAX_VARINT
  {
    Wrap(TypeCode(c), Payload(c))
  }

  datatype Unpacked = Incomplete | TooLong | Unit(t: nat, payload: seq<Byte>, rest: seq<Byte>)

  /** The first capsule of a buffer. Its length is held against the limit before its payload has come. */
  function Unpack(buf: seq<Byte>, limit: nat): (u: Unpacked)
    ensures u.Unit? ==> |u.rest| < |buf|
  {
    match Next(buf)
    case None => Incomplete
    case Some((t, b1)) =>
      match Next(b1)
      case None => Incomplete
      case Some((length, b2)) =>
        if length > limit then TooLong
        else if |b2| < length then Incomplete
        else Unit(t, b2[..length], b2[length..])
  }

  lemma NextIsStable(p: seq<Byte>, q: seq<Byte>)
    requires Next(p).Some?
    ensures Next(p + q) == Some((Next(p).value.0, Next(p).value.1 + q))
  {
    DecodedIsStable(p, q);
    var n := Decoded(p).value.1;
    assert (p + q)[n..] == p[n..] + q;
  }

  /** More input never changes the first capsule. */
  lemma UnpackIsStable(buf: seq<Byte>, more: seq<Byte>, limit: nat)
    ensures Unpack(buf, limit).Unit? ==>
              Unpack(buf + more, limit) == Unpack(buf, limit).(rest := Unpack(buf, limit).rest + more)
    ensures Unpack(buf, limit).TooLong? ==> Unpack(buf + more, limit).TooLong?
  {
    hide Next;
    if Next(buf).Some? {
      NextIsStable(buf, more);
      var b1 := Next(buf).value.1;
      if Next(b1).Some? {
        NextIsStable(b1, more);
        var length, b2 := Next(b1).value.0, Next(b1).value.1;
        if length <= |b2| {
          assert (b2 + more)[..length] == b2[..length] && (b2 + more)[length..] == b2[length..] + more;
        }
      }
    }
  }

  lemma UnpackInverts(t: nat, p: seq<Byte>, rest: seq<Byte>, limit: nat)
    requires t <= MAX_VARINT && |p| <= MAX_VARINT
    ensures Unpack(Wrap(t, p) + rest, limit) == if |p| <= limit then Unit(t, p, rest) else TooLong
  {
    hide Next, Encoded;
    var tail := p + rest;
    assert Wrap(t, p) + rest == Encoded(t) + (Encoded(|p|) + tail);
    NextInverts(t, Encoded(|p|) + tail);
    NextInverts(|p|, tail);
    assert tail[..|p|] == p && tail[|p|..] == rest;
  }
}
