/**
 * The incremental parser: DATA arrives in arbitrary pieces, capsules are dispatched as
 * soon as they are complete. How the bytes were cut makes no difference.
 */
module Reader {
  import opened Capsules
  import opened Codec
  import opened Engine
  import opened SessionObject

  /** The session and what of its stream has arrived but not been dispatched. */
  datatype Rx = Rx(s: Session, buffer: seq<Byte>)

  /** A malformed message resets the CONNECT stream: over, without a capsule or an event. */
  function Abort(s: Session): Session { s.(terminated := true, established := false) }

  function Obey(s: Session, t: nat, p: seq<Byte>): Session {
    match Read(t, p)
    case Got(c) => Receive(s, c)
    case Ignored => s
    case Malformed => Abort(s)
    case BadValue => ReportError(s, WT_ERROR)
  }

  function Process(r: Rx, limit: nat): Rx
    decreases |r.buffer|
  {
    if r.s.terminated then Rx(r.s, [])
    else
      match Unpack(r.buffer, limit)
      case Incomplete => r
      case TooLong => Rx(ReportError(r.s, WT_ERROR), [])
      case Unit(t, p, rest) => Process(Rx(Obey(r.s, t, p), rest), limit)
  }

  function Feed(r: Rx, data: seq<Byte>, limit: nat): Rx { Process(Rx(r.s, r.buffer + data), limit) }

  function FeedAll(r: Rx, chunks: seq<seq<Byte>>, limit: nat): Rx
    decreases |chunks|
  {
    if chunks == [] then r else FeedAll(Feed(r, chunks[0], limit), chunks[1..], limit)
  }

  function Flat(chunks: seq<seq<Byte>>): seq<Byte> {
    if chunks == [] then [] else chunks[0] + Flat(chunks[1..])
  }

  lemma {:induction false} ProcessAppend(r: Rx, more: seq<Byte>, limit: nat)
    ensures Feed(Process(r, limit), more, limit) == Feed(r, more, limit)
    decreases |r.buffer|
  {
    if !r.s.terminated {
      UnpackIsStable(r.buffer, more, limit);
      var u := Unpack(r.buffer, limit);
      hide Unpack, Obey;
      if u.Unit? { ProcessAppend(Rx(Obey(r.s, u.t, u.payload), u.rest), more, limit); }
    }
  }

  /** Two pieces make the same as one. */
  lemma FeedTwice(r: Rx, a: seq<Byte>, b: seq<Byte>, limit: nat)
    ensures Feed(Feed(r, a, limit), b, limit) == Feed(r, a + b, limit)
  {
    ProcessAppend(Rx(r.s, r.buffer + a), b, limit);
    assert r.buffer + a + b == r.buffer + (a + b);
  }

  /** However the bytes are cut, and also if some are held back before acceptance, the outcome is that of one piece. */
  lemma {:induction false} ChunkingIsIrrelevant(r: Rx, chunks: seq<seq<Byte>>, limit: nat)
    requires chunks != []
    ensures FeedAll(r, chunks, limit) == Feed(r, Flat(chunks), limit)
    decreases |chunks|
  {
    hide Feed;
    if |chunks| == 1 {
      assert Flat(chunks[1..]) == [];
      assert Flat(chunks) == chunks[0];
    } else {
      ChunkingIsIrrelevant(Feed(r, chunks[0], limit), chunks[1..], limit);
      FeedTwice(r, chunks[0], Flat(chunks[1..]), limit);
    }
  }

  // ---------- What is written is what is dispatched ----------

  predicate Carriable(cs: seq<Capsule>, limit: nat) {
    cs != [] ==> Encodable(cs[0]) && |Payload(cs[0])| <= limit && Carriable(cs[1..], limit)
  }

  function WireAll(cs: seq<Capsule>, limit: nat): seq<Byte>
    requires limit <= MAX_VARINT && Carriable(cs, limit)
  {
    if cs == [] then [] else Wire(cs[0]) + WireAll(cs[1..], limit)
  }

  function ReceiveAll(s: Session, cs: seq<Capsule>): Session
    decreases |cs|
  {
    if cs == [] then s else ReceiveAll(Receive(s, cs[0]), cs[1..])
  }

  lemma {:induction false} ReceiveAllOver(s: Session, cs: seq<Capsule>)
    requires s.terminated
    ensures ReceiveAll(s, cs) == s
    decreases |cs|
  {
    if cs != [] { ReceiveAllOver(s, cs[1..]); }
  }

  lemma {:induction false} ProcessWire(s: Session, cs: seq<Capsule>, tail: seq<Byte>, limit: nat)
    requires limit <= MAX_VARINT && Carriable(cs, limit)
    ensures Process(Rx(s, WireAll(cs, limit) + tail), limit) == Process(Rx(ReceiveAll(s, cs), tail), limit)
    decreases |cs|
  {
    if s.terminated {
      ReceiveAllOver(s, cs);
    } else if cs == [] {
      assert WireAll(cs, limit) + tail == tail;
    } else {
      var c := cs[0];
      var rest := WireAll(cs[1..], limit) + tail;
      assert WireAll(cs, limit) + tail == Wire(c) + rest;
      UnpackInverts(TypeCode(c), Payload(c), rest, limit);
      ReadInverts(c);
      hide Unpack, Wire, Payload, Codec.Read, Receive;
      ProcessWire(Receive(s, c), cs[1..], tail, limit);
    }
  }

  /** Any cutting of the bytes of capsules within the limit dispatches exactly those capsules. */
  lemma BytesCarryCapsules(s: Session, cs: seq<Capsule>, chunks: seq<seq<Byte>>, limit: nat)
    requires limit <= MAX_VARINT && Carriable(cs, limit)
    requires chunks != [] && Flat(chunks) == WireAll(cs, limit)
    ensures FeedAll(Rx(s, []), chunks, limit) == Rx(ReceiveAll(s, cs), [])
  {
    ChunkingIsIrrelevant(Rx(s, []), chunks, limit);
    assert [] + Flat(chunks) == WireAll(cs, limit) + [];
    ProcessWire(s, cs, [], limit);
  }

  /**
   * What the next capsule of an arbitrary peer comes to. One that spells `c` is dispatched, one of an unknown
   * type passed over; a forbidden value or too great a length is reported and closes the session, any other
   * misspelling ends it without a word, and after either what follows is thrown away.
   */
  lemma NextCapsule(s: Session, t: nat, p: seq<Byte>, rest: seq<Byte>, limit: nat)
    requires !s.terminated && t <= MAX_VARINT && |p| <= MAX_VARINT && limit <= MAX_VARINT
    ensures var r := Process(Rx(s, Wrap(t, p) + rest), limit);
      && (|p| <= limit ==>
            && (forall c :: TypeCode(c) == t && Spelled(c, p) ==> r == Process(Rx(Receive(s, c), rest), limit))
            && (!Known(t) ==> r == Process(Rx(s, rest), limit))
            && (Known(t) && !Forbidden(t, p) && (forall c :: TypeCode(c) == t ==> !Spelled(c, p)) ==>
                  r == Rx(s.(terminated := true, established := false), [])))
      && (|p| > limit || Forbidden(t, p) ==>
            r.buffer == [] && r.s == s.(events := s.events + [Error(WT_ERROR)], emitted := s.emitted + [WtCloseSession(WT_ERROR, [])],
                                        terminated := true, established := false))
  {
    hide Wrap, Codec.Read, Unpack, TypeCode, Spelled, Known, Forbidden, Receive;
    UnpackInverts(t, p, rest, limit);
    ReadsExactly(t, p);
    ForbiddenIsKnown(t, p);
    OverIsOver(Abort(s), rest, limit);
    OverIsOver(ReportError(s, WT_ERROR), rest, limit);
  }

  lemma OverIsOver(s: Session, rest: seq<Byte>, limit: nat)
    requires s.terminated
    ensures Process(Rx(s, rest), limit) == Rx(s, [])
  {
  }

  lemma ForbiddenIsKnown(t: nat, p: seq<Byte>)
    ensures Forbidden(t, p) ==> Known(t) && forall c :: TypeCode(c) == t ==> !Spelled(c, p)
  {
    hide Forbidden, Known, Spelled, TypeCode;
    ReadsExactly(t, p);
  }

  // ---------- The object ----------

  class CapsuleReader {
    const session: WtSession
    const limit: nat
    var buffer: seq<Byte>

    ghost function State(): Rx
      reads this, session
    {
      Rx(session.State(), buffer)
    }

    constructor (session: WtSession, limit: nat)
      ensures this.session == session && this.limit == limit && buffer == []
    {
      this.session := session;
      this.limit := limit;
      buffer := [];
    }

    method ProcessCapsules(data: seq<Byte>)
      modifies this, session
      ensures State() == Feed(old(State()), data, limit)
    {
      hide Receive, Engine.ReportError, Unpack;
      buffer := buffer + data;
      ghost var r := State();
      while true
        invariant Process(State(), limit) == Process(r, limit)
        decreases |buffer|
      {
        if session.isTerminated {
          buffer := [];
          break;
        }
        var u := Unpack(buffer, limit);
        match u {
          case Incomplete =>
            break;
          case TooLong =>
            session.ReportError(WT_ERROR);
            buffer := [];
            assert State() == Process(r, limit);
            return;
          case Unit(t, payload, rest) =>
            buffer := rest;
            ProcessCapsule(t, payload);
        }
      }
    }

    method ProcessCapsule(t: nat, payload: seq<Byte>)
      modifies session
      ensures session.State() == Obey(old(session.State()), t, payload)
    {
      hide Receive, Engine.ReportError;
      match Codec.Read(t, payload) {
        case Got(c) => session.HandleCapsule(c);
        case Ignored =>
        case Malformed =>
          session.isTerminated := true;
          session.isEstablished := false;
        case BadValue => session.ReportError(WT_ERROR);
      }
    }
  }
}
