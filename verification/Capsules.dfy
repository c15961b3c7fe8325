/** The capsules of draft-ietf-webtrans-http2-15, section 6, as values. */
module Capsules {

  type Byte = x: int | 0 <= x < 0x100

  /** The largest QUIC variable-length integer (section 16 of RFC 9000). */
  const MAX_VARINT: nat := 0x3FFF_FFFF_FFFF_FFFF

  /** Maximum Streams must not exceed 2^60 (draft-15, sections 6.7 and 6.10). */
  const MAX_STREAMS: nat := 0x1000_0000_0000_0000

  /** Application error codes are unsigned 32-bit values. */
  const MAX_ERROR_CODE: nat := 0xFFFF_FFFF

  /** The longest message of WT_CLOSE_SESSION, in bytes (draft-15, section 6.12). */
  const MAX_MESSAGE: nat := 1024

  type ErrorCode = x: nat | x <= MAX_ERROR_CODE

  datatype Option<+T> = None | Some(value: T)

  datatype Capsule =
    | Datagram(payload: seq<Byte>)
    | WtResetStream(id: StreamId, code: ErrorCode, reliableSize: nat)
    | WtStopSending(id: StreamId, code: ErrorCode)
    | WtStream(id: StreamId, data: seq<Byte>, fin: bool)
    | WtMaxData(max: nat)
    | WtMaxStreamData(id: StreamId, max: nat)
    | WtMaxStreams(bidi: bool, max: nat)
    | WtDataBlocked(max: nat)
    | WtStreamDataBlocked(id: StreamId, max: nat)
    | WtStreamsBlocked(bidi: bool, max: nat)
    | WtCloseSession(code: ErrorCode, message: seq<Byte>)
    | WtDrainSession

  // ---------- QUIC-compatible stream IDs (draft-15, section 5.2) ----------

  /** A stream ID by its three fields: initiator (bit 0), direction (bit 1) and counter. */
  datatype StreamId = StreamId(counter: nat, uni: bool, server: bool)

  /** The 62-bit integer on the wire. */
  function WireId(id: StreamId): nat {
    id.counter * 4 + (if id.uni then 2 else 0) + (if id.server then 1 else 0)
  }

  function StreamIdOf(wire: nat): StreamId {
    StreamId(wire / 4, (wire / 2) % 2 == 1, wire % 2 == 1)
  }

  /** Building an ID from its fields and reading the fields back lose nothing. */
  lemma StreamIdRoundTrip(id: StreamId)
    ensures StreamIdOf(WireId(id)) == id
  {
    var w := WireId(id);
    assert w / 4 == id.counter;
    assert w / 2 == id.counter * 2 + (if id.uni then 1 else 0);
  }

  lemma WireIdRoundTrip(wire: nat)
    ensures WireId(StreamIdOf(wire)) == wire
  {
  }

  predicate LocalTo(isServer: bool, id: StreamId) { id.server == isServer }

  /** WT_STREAM, WT_RESET_STREAM and WT_STREAM_DATA_BLOCKED travel with the data. */
  predicate ReceivableDataCapsule(id: StreamId, isServer: bool) {
    !id.uni || !LocalTo(isServer, id)
  }

  /** WT_STOP_SENDING and WT_MAX_STREAM_DATA travel against the data. */
  predicate ReceivableFlowCapsule(id: StreamId, isServer: bool) {
    !id.uni || LocalTo(isServer, id)
  }

  function Min(a: nat, b: nat): nat { if a < b then a else b }
  function Max(a: nat, b: nat): nat { if a < b then b else a }
}
