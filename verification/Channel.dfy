/**
 * A log of capsules as the bytes it makes on the wire, and what a reader that knows only the
 * front of those bytes can tell about the next capsule.
 */
module Channel {
  import opened Capsules
  import Utf8
  import opened Varint
  import opened Codec

  /** What can be written at all. */
  predicate Writable(c: Capsule) { Encodable(c) && |Payload(c)| <= MAX_VARINT }

  predicate AllWritable(log: seq<Capsule>) { forall k :: 0 <= k < |log| ==> Writable(log[k]) }

  /** A reader with this payload limit takes the capsule. */
  predicate Fits(c: Capsule, limit: nat) { Writable(c) && |Payload(c)| <= limit }

  function Header(c: Capsule): (h: seq<Byte>)
    requires Writable(c)
    ensures h != []
  {
    Encoded(TypeCode(c)) + Encoded(|Payload(c)|)
  }

  function Wires(log: seq<Capsule>): seq<Byte>
    requires AllWritable(log)
  {
    if log == [] then [] else Wires(log[..|log| - 1]) + Wire(log[|log| - 1])
  }

  lemma WiresSnoc(log: seq<Capsule>, c: Capsule)
    requires AllWritable(log + [c])
    ensures AllWritable(log) && Writable(c) && Wires(log + [c]) == Wires(log) + Wire(c)
  {
    var l := log + [c];
    assert l[..|log|] == log && l[|log|] == c;
    assert forall k :: 0 <= k < |log| ==> log[k] == l[k];
  }

  /** What is queued later goes out behind what was queued before. */
  lemma {:induction false} WiresGrow(log: seq<Capsule>, more: seq<Capsule>)
    requires log <= more && AllWritable(more)
    ensures AllWritable(log) && Wires(log) <= Wires(more)
    decreases |more|
  {
    hide Writable;
    if |log| == |more| {
      assert log == more;
    } else {
      WiresGrow(log, more[..|more| - 1]);
    }
  }

  /** The next capsule's bytes come next. */
  lemma NextOnWire(log: seq<Capsule>, more: seq<Capsule>)
    requires log <= more && |log| < |more| && AllWritable(more)
    ensures AllWritable(log) && Writable(more[|log|])
    ensures Wires(log) + Wire(more[|log|]) <= Wires(more)
  {
    var c := more[|log|];
    assert log + [c] <= more;
    hide Writable, Wires;
    WiresGrow(log + [c], more);
    WiresSnoc(log, c);
  }

  /** The whole header suffices for a refusal, the whole capsule for dispatching it, and nothing less does. */
  lemma HeaderDecides(c: Capsule, b: seq<Byte>, more: seq<Byte>, tail: seq<Byte>, limit: nat)
    requires Writable(c) && b + more == Wire(c) + tail
    ensures Fits(c, limit) ==> !Unpack(b, limit).TooLong?
    ensures !Fits(c, limit) ==> if |Header(c)| <= |b| then Unpack(b, limit).TooLong? else Unpack(b, limit).Incomplete?
    ensures Fits(c, limit) && |Wire(c)| <= |b| ==> Unpack(b, limit).Unit?
    ensures Unpack(b, limit).Unit? ==>
              |Wire(c)| <= |b| && Unpack(b, limit) == Unit(TypeCode(c), Payload(c), b[|Wire(c)|..]) && Fits(c, limit)
  {
    var t, p := TypeCode(c), Payload(c);
    UnpackInverts(t, p, tail, limit);
    UnpackIsStable(b, more, limit);
    hide Encodable, Payload, Unpack, Encoded, Wire, TypeCode;
    assert Wire(c) == Wrap(t, p) by { WireIsWrapped(c); }
    assert Fits(c, limit) <==> |p| <= limit;
    if !Fits(c, limit) { OverlongHeader(t, p, b, more, tail, limit); }
    if Unpack(b, limit).Unit? { CancelTail(b, Wire(c), Unpack(b, limit).rest, more); }
    if Fits(c, limit) && |Wire(c)| <= |b| {
      FrontOf(b, more, Wire(c), tail);
      WholeIsTaken(c, b[|Wire(c)|..], limit);
    }
  }

  lemma FrontOf(b: seq<Byte>, more: seq<Byte>, v: seq<Byte>, tail: seq<Byte>)
    requires b + more == v + tail && |v| <= |b|
    ensures b == v + b[|v|..]
  {
    assert b[..|v|] == (b + more)[..|v|] == (v + tail)[..|v|] == v;
  }

  lemma WholeIsTaken(c: Capsule, rest: seq<Byte>, limit: nat)
    requires Fits(c, limit)
    ensures Unpack(Wire(c) + rest, limit) == Unit(TypeCode(c), Payload(c), rest)
  {
    UnpackInverts(TypeCode(c), Payload(c), rest, limit);
  }

  lemma WireIsWrapped(c: Capsule)
    requires Writable(c)
    ensures Wire(c) == Wrap(TypeCode(c), Payload(c))
  {
  }

  lemma CancelTail(b: seq<Byte>, v: seq<Byte>, rest: seq<Byte>, more: seq<Byte>)
    requires b + more == v + (rest + more)
    ensures |v| <= |b| && rest == b[|v|..]
  {
    assert |b| == |v| + |rest|;
    assert b == (b + more)[..|b|] && v + rest == (v + (rest + more))[..|b|];
  }

  /** The same behind what was read before: `w` has been taken in, `b` has come, and `c` is next on the wire. */
  lemma FrontDecides(w: seq<Byte>, whole: seq<Byte>, c: Capsule, b: seq<Byte>, limit: nat)
    requires Writable(c) && w + Wire(c) <= whole && w + b <= whole
    ensures var u := Unpack(b, limit);
      && (Fits(c, limit) ==> !u.TooLong?)
      && (!Fits(c, limit) ==> if |Header(c)| <= |b| then u.TooLong? else u.Incomplete?)
      && (u.Unit? ==> u == Unit(TypeCode(c), Payload(c), u.rest) && Fits(c, limit) && w + Wire(c) + u.rest == w + b)
  {
    var more, tail := Split(w, Wire(c), b, whole);
    HeaderDecides(c, b, more, tail, limit);
    hide Unpack, Header, Wire, Payload, Encodable, Fits;
  }

  /** What two overlapping fronts leave of the whole. */
  lemma Split(w: seq<Byte>, v: seq<Byte>, b: seq<Byte>, whole: seq<Byte>) returns (more: seq<Byte>, tail: seq<Byte>)
    requires w + v <= whole && w + b <= whole
    ensures b + more == v + tail
    ensures |v| <= |b| ==> w + v + b[|v|..] == w + b
  {
    more, tail := whole[|w| + |b|..], whole[|w| + |v|..];
    assert b + more == whole[|w|..] && v + tail == whole[|w|..];
    if |v| <= |b| {
      assert b[..|v|] == whole[|w|..][..|v|] == v;
      assert w + v + b[|v|..] == w + (b[..|v|] + b[|v|..]);
    }
  }

  lemma OverlongHeader(t: nat, p: seq<Byte>, b: seq<Byte>, more: seq<Byte>, tail: seq<Byte>, limit: nat)
    requires t <= MAX_VARINT && limit < |p| <= MAX_VARINT && b + more == Wrap(t, p) + tail
    ensures if |Encoded(t)| + |Encoded(|p|)| <= |b| then Unpack(b, limit).TooLong? else Unpack(b, limit).Incomplete?
  {
    hide Next, Encoded;
    var h1, h2 := Encoded(t), Encoded(|p|);
    var whole := h1 + (h2 + (p + tail));
    assert b + more == whole && |b| + |more| == |h1| + |h2| + |p| + |tail|;
    NextInverts(t, h2 + (p + tail));
    NextInverts(|p|, p + tail);
    if |h1| + |h2| <= |b| {
      var q := b[|h1| + |h2|..];
      assert b == whole[..|b|];
      assert b == h1 + (h2 + q);
      NextInverts(t, h2 + q);
      NextInverts(|p|, q);
    } else if Next(b).Some? {
      NextIsStable(b, more);
      var b1 := Next(b).value.1;
      assert b1 + more == h2 + (p + tail);
      if Next(b1).Some? { NextIsStable(b1, more); }
    }
  }

  lemma EmptyIsIncomplete(limit: nat)
    ensures Unpack([], limit).Incomplete?
  {
  }

  /** Bytes that a stream ID takes up in a payload. */
  function IdLength(id: StreamId): (n: nat)
    ensures 1 <= n <= 8
  {
    if FitsId(id) then |Encoded(WireId(id))| else 8
  }

  /** How long a payload can be. Identifiers, codes and limits take at most eight bytes each. */
  lemma PayloadLength(c: Capsule)
    requires Encodable(c)
    ensures |Payload(c)| <=
              match c
              case Datagram(payload) => |payload|
              case WtStream(id, data, _) => IdLength(id) + |data|
              case WtCloseSession(_, message) => 4 + |message|
              case _ => 24
    ensures c.Datagram? ==> |Payload(c)| == |c.payload|
    ensures c.WtStream? ==> |Payload(c)| == IdLength(c.id) + |c.data|
    ensures c.WtCloseSession? ==> |Payload(c)| == 4 + |c.message|
  {
    hide Encoded, Utf8.WellFormed;
  }
}
