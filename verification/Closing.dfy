/**
 * The closing period of a QUIC connection (section 10.2 of RFC 9000): one CONNECTION_CLOSE is
 * made, sent once however late that is, and repeated in answer to packets until three probe
 * timeouts have passed. Times are nanoseconds of a clock that never goes back. What the library
 * makes of a packet, and what it has to send while the connection runs, is part of the events.
 */
module Closing {
  import opened Capsules

  type Packet = seq<Byte>

  datatype State = State(
    closed: bool,
    packet: Option<Packet>,
    armed: bool,
    expiry: Option<nat>,
    delivered: bool)

  const Running := State(false, None, false, None, false)

  /** No CONNECTION_CLOSE can be made while the handshake has not got far enough. */
  function Shut(s: State, now: nat, packet: Option<Packet>, pto: nat): State {
    if s.closed then s
    else if packet.Some? then State(true, packet, true, Some(now + 3 * pto), false)
    else s.(closed := true)
  }

  predicate Expired(s: State, now: nat) { s.packet.Some? && s.expiry.Some? && now >= s.expiry.value }

  // ---------- Events ----------

  /** The library's verdict on a packet: processed, passed over, refused because this end is closing, or fatal. */
  datatype Verdict = Processed(counted: bool) | Ignored | WhileClosing | Fatal

  /** `offer`: what the library has to send on a connection that runs; `fatal`: the timer ends it. */
  datatype Event = Send(now: nat, offer: Option<Packet>) | Receive(now: nat, verdict: Verdict) | Timeout(now: nat, fatal: bool)

  /** Ended, and nothing is left to be sent. */
  predicate Over(s: State) { s.closed && s.packet.None? }

  /** The next state, and what goes out, if anything does. */
  function Step(s: State, e: Event): (State, Option<Packet>) {
    match e
    case Send(now, offer) =>
      if s.packet.None? then (s, if s.closed then None else offer)
      else if !s.delivered then (s.(delivered := true, armed := false), s.packet)
      else if Expired(s, now) || !s.armed then (s, None)
      else (s.(armed := false), s.packet)
    case Receive(now, verdict) =>
      if Over(s) || Expired(s, now) || verdict.Processed? || verdict.Ignored? then (s, None)
      else if verdict.WhileClosing? && s.packet.Some? then (s.(armed := true), None)
      else (s.(closed := true), None)
    case Timeout(now, fatal) =>
      if s.packet.Some? then
        (if Expired(s, now) && s.delivered then s.(packet := None, expiry := None, armed := false) else s, None)
      else (s.(closed := s.closed || fatal), None)
  }

  datatype ReceiveResult = Accepted | Discarded | ClosedResult

  /** What receive answers. */
  function Answer(s: State, now: nat, verdict: Verdict): ReceiveResult {
    if Over(s) || Expired(s, now) then ClosedResult
    else
      match verdict
      case Processed(counted) => if counted then Accepted else Discarded
      case Ignored => Discarded
      case WhileClosing => if s.packet.Some? then Discarded else ClosedResult
      case Fatal => ClosedResult
  }

  function Left(expiry: nat, now: nat): nat { if expiry <= now then 0 else expiry - now }

  /** What get_timeout_ns answers; `library` is the library's own expiry, if it has one. */
  function TimeLeft(s: State, now: nat, library: Option<nat>): Option<nat> {
    if s.packet.Some? && s.expiry.Some? then Some(Left(s.expiry.value, now))
    else if s.closed || library.None? then None
    else Some(Left(library.value, now))
  }

  function After(s: State, es: seq<Event>): State
    decreases |es|
  {
    if es == [] then s else After(Step(s, es[0]).0, es[1..])
  }

  /** What goes out in the course of a run. */
  function Copies(s: State, es: seq<Event>): seq<Packet>
    decreases |es|
  {
    if es == [] then []
    else
      var (s', out) := Step(s, es[0]);
      (if out.Some? then [out.value] else []) + Copies(s', es[1..])
  }

  predicate InOrder(es: seq<Event>, from: nat)
    decreases |es|
  {
    es != [] ==> from <= es[0].now && InOrder(es[1..], es[0].now)
  }

  /** Packets that the closing connection has to answer: those before the expiry. */
  function Answers(es: seq<Event>, expiry: nat): nat {
    if es == [] then 0
    else (if es[0].Receive? && es[0].verdict.WhileClosing? && es[0].now < expiry then 1 else 0) + Answers(es[1..], expiry)
  }

  /** The copies that may go out before another packet has been received. */
  function Due(s: State): nat {
    if s.packet.Some? && (!s.delivered || s.armed) then 1 else 0
  }

  /** What holds from close() on. */
  predicate Holds(s: State, packet: Packet, expiry: nat) {
    && s.closed
    && (s.packet == Some(packet) || (s.packet == None && s.delivered))
    && (s.packet.Some? ==> s.expiry == Some(expiry))
    && (s.packet.None? ==> s.expiry.None? && !s.armed)
  }

  lemma StepHolds(s: State, e: Event, packet: Packet, expiry: nat)
    requires Holds(s, packet, expiry)
    ensures var (s', out) := Step(s, e);
      && Holds(s', packet, expiry)
      && (out.Some? ==> out.value == packet && e.Send?)
      && (s.delivered ==> s'.delivered)
      && (if out.Some? then 1 else 0) + Due(s') <= Due(s) + Answers([e], expiry)
  {
    assert Answers([e], expiry) == (if e.Receive? && e.verdict.WhileClosing? && e.now < expiry then 1 else 0) + Answers([], expiry);
  }

  lemma {:induction false} RunHolds(s: State, es: seq<Event>, packet: Packet, expiry: nat)
    requires Holds(s, packet, expiry)
    ensures Holds(After(s, es), packet, expiry)
    ensures forall k :: 0 <= k < |Copies(s, es)| ==> Copies(s, es)[k] == packet
    ensures |Copies(s, es)| + Due(After(s, es)) <= Due(s) + Answers(es, expiry)
    decreases |es|
  {
    if es != [] {
      StepHolds(s, es[0], packet, expiry);
      assert Answers([es[0]], expiry) + Answers(es[1..], expiry) == Answers(es, expiry) by {
        assert Answers([es[0]][1..], expiry) == 0;
      }
      RunHolds(Step(s, es[0]).0, es[1..], packet, expiry);
    }
  }

  /** Whether a run asks to send at all. */
  predicate Asks(es: seq<Event>) { exists k :: 0 <= k < |es| && es[k].Send? }

  lemma {:induction false} KeptUntilSent(s: State, es: seq<Event>, packet: Packet, expiry: nat)
    requires Holds(s, packet, expiry) && !s.delivered
    ensures Asks(es) <==> After(s, es).delivered
    ensures Asks(es) ==> Copies(s, es) != []
    ensures !Asks(es) ==> After(s, es).packet == Some(packet) && Copies(s, es) == []
    decreases |es|
  {
    if es != [] {
      var s' := Step(s, es[0]).0;
      StepHolds(s, es[0], packet, expiry);
      if es[0].Send? {
        RunDelivered(s', es[1..], packet, expiry);
      } else {
        KeptUntilSent(s', es[1..], packet, expiry);
        if Asks(es) { var k :| 0 <= k < |es| && es[k].Send?; assert es[1..][k - 1].Send?; }
        if Asks(es[1..]) { var k :| 0 <= k < |es[1..]| && es[1..][k].Send?; assert es[k + 1].Send?; }
      }
    }
  }

  lemma {:induction false} RunDelivered(s: State, es: seq<Event>, packet: Packet, expiry: nat)
    requires Holds(s, packet, expiry) && s.delivered
    ensures After(s, es).delivered
    decreases |es|
  {
    if es != [] {
      StepHolds(s, es[0], packet, expiry);
      RunDelivered(Step(s, es[0]).0, es[1..], packet, expiry);
    }
  }

  lemma {:induction false} SilentOnceExpired(s: State, es: seq<Event>, packet: Packet, expiry: nat, from: nat)
    requires Holds(s, packet, expiry) && s.delivered && expiry <= from && InOrder(es, from)
    ensures Copies(s, es) == []
    decreases |es|
  {
    if es != [] {
      StepHolds(s, es[0], packet, expiry);
      SilentOnceExpired(Step(s, es[0]).0, es[1..], packet, expiry, es[0].now);
    }
  }

  /**
   * Whatever a connection has done before close(), as long as it still ran; from then on, in every
   * run, all that goes out are copies of the packet made then; there are at most as many as one and
   * the packets to be answered before the expiry; the first request to send gets one however late
   * it comes, and until then the packet is kept.
   */
  lemma ClosingIsSafe(before: seq<Event>, now: nat, packet: Packet, pto: nat, es: seq<Event>)
    requires !After(Running, before).closed
    ensures var s := Shut(After(Running, before), now, Some(packet), pto); var expiry := now + 3 * pto;
      && (forall k :: 0 <= k < |Copies(s, es)| ==> Copies(s, es)[k] == packet)
      && |Copies(s, es)| <= 1 + Answers(es, expiry)
      && (Asks(es) ==> Copies(s, es) != [])
      && (!Asks(es) ==> After(s, es).packet == Some(packet))
  {
    RunsOn(before);
    var s := Shut(Running, now, Some(packet), pto);
    RunHolds(s, es, packet, now + 3 * pto);
    KeptUntilSent(s, es, packet, now + 3 * pto);
  }

  /** A connection that nobody closes makes no CONNECTION_CLOSE; when the library ends it nothing goes out any more. */
  lemma {:induction false} RunsOn(es: seq<Event>)
    ensures After(Running, es) == Running.(closed := After(Running, es).closed)
    decreases |es|
  {
    if es != [] {
      var s := Step(Running, es[0]).0;
      if s.closed { StaysOver(s, es[1..]); } else { RunsOn(es[1..]); }
    }
  }

  lemma {:induction false} StaysOver(s: State, es: seq<Event>)
    requires Over(s)
    ensures After(s, es) == s && Copies(s, es) == []
    decreases |es|
  {
    if es != [] { StaysOver(s, es[1..]); }
  }

  /** close() does nothing where the library has ended the connection, and where no packet can be made nothing is sent. */
  lemma NothingToClose(before: seq<Event>, now: nat, packet: Option<Packet>, pto: nat, es: seq<Event>)
    requires After(Running, before).closed || packet.None?
    ensures Copies(Shut(After(Running, before), now, packet, pto), es) == []
  {
    RunsOn(before);
    StaysOver(Shut(After(Running, before), now, packet, pto), es);
  }

  lemma {:induction false} SplitRun(s: State, a: seq<Event>, b: seq<Event>)
    ensures After(s, a + b) == After(After(s, a), b)
    ensures Copies(s, a + b) == Copies(s, a) + Copies(After(s, a), b)
    decreases |a|
  {
    if a == [] {
      assert a + b == b;
    } else {
      assert (a + b)[1..] == a[1..] + b;
      SplitRun(Step(s, a[0]).0, a[1..], b);
    }
  }

  /** Once three probe timeouts have passed and one copy is out, nothing is sent any more. */
  lemma NothingAfterExpiry(now: nat, packet: Packet, pto: nat, before: seq<Event>, after: seq<Event>, from: nat)
    requires Asks(before) && now + 3 * pto <= from && InOrder(after, from)
    ensures var s := Shut(Running, now, Some(packet), pto);
            Copies(s, before + after) == Copies(s, before)
  {
    var s := Shut(Running, now, Some(packet), pto);
    SplitRun(s, before, after);
    KeptUntilSent(s, before, packet, now + 3 * pto);
    RunHolds(s, before, packet, now + 3 * pto);
    SilentOnceExpired(After(s, before), after, packet, now + 3 * pto, from);
  }

  /** The timer a caller is given is the time to the expiry, for as long as a packet is held. */
  lemma TimerMatchesExpiry(now: nat, packet: Packet, pto: nat, es: seq<Event>, later: nat, library: Option<nat>, fatal: bool)
    ensures var s := After(Shut(Running, now, Some(packet), pto), es); var expiry := now + 3 * pto;
      && (s.packet.Some? ==> TimeLeft(s, later, library) == Some(if later < expiry then expiry - later else 0))
      && (s.packet.None? ==> TimeLeft(s, later, library) == None && Asks(es))
      && (s.packet.Some? && s.delivered && TimeLeft(s, later, library) == Some(0) ==>
            Step(s, Timeout(later, fatal)).0.packet == None)
  {
    var s0 := Shut(Running, now, Some(packet), pto);
    RunHolds(s0, es, packet, now + 3 * pto);
    KeptUntilSent(s0, es, packet, now + 3 * pto);
  }

  // ---------- A connection that nobody closes ----------

  /** The library ends the connection: a fatal packet, one refused because it is closing, or a fatal timer. */
  predicate Ends(e: Event) {
    (e.Receive? && (e.verdict.Fatal? || e.verdict.WhileClosing?)) || (e.Timeout? && e.fatal)
  }

  predicate HasEnded(es: seq<Event>) { exists k :: 0 <= k < |es| && Ends(es[k]) }

  /** What the library had to send up to there. */
  function Offers(es: seq<Event>): seq<Packet> {
    if es == [] || Ends(es[0]) then []
    else (if es[0].Send? && es[0].offer.Some? then [es[0].offer.value] else []) + Offers(es[1..])
  }

  lemma {:induction false} RunningUntilEnded(es: seq<Event>)
    ensures After(Running, es).closed <==> HasEnded(es)
    ensures Copies(Running, es) == Offers(es)
    decreases |es|
  {
    if es != [] {
      var s, rest := Step(Running, es[0]).0, es[1..];
      if Ends(es[0]) {
        StaysOver(s, rest);
      } else {
        RunningUntilEnded(rest);
        if k :| 0 <= k < |rest| && Ends(rest[k]) { assert es[k + 1] == rest[k]; }
        if k :| 0 <= k < |es| && Ends(es[k]) { assert rest[k - 1] == es[k]; }
      }
    }
  }

  /** The answer to a packet as long as nothing else decides it. */
  function Plain(verdict: Verdict): ReceiveResult {
    match verdict
    case Processed(counted) => if counted then Accepted else Discarded
    case Ignored => Discarded
    case WhileClosing => ClosedResult
    case Fatal => ClosedResult
  }

  /**
   * A connection that nobody closes sends what the library offers, until the library ends it, and is then
   * closed: it sends nothing more, has no timer, and answers every packet as closed.
   */
  lemma UnclosedRuns(es: seq<Event>, later: nat, verdict: Verdict, library: Option<nat>)
    ensures var s := After(Running, es);
      && Copies(Running, es) == Offers(es)
      && (s.closed <==> HasEnded(es))
      && Answer(s, later, verdict) == (if HasEnded(es) then ClosedResult else Plain(verdict))
      && TimeLeft(s, later, library)
         == (if HasEnded(es) || library.None? then None else Some(if library.value <= later then 0 else library.value - later))
  {
    RunsOn(es);
    RunningUntilEnded(es);
  }

  /** After a fatal packet nothing is ever sent, whatever came before and comes after. */
  lemma FatalSilences(before: seq<Event>, now: nat, es: seq<Event>, later: nat, library: Option<nat>)
    ensures var s := After(Running, before + [Receive(now, Fatal)]);
            Copies(s, es) == [] && After(s, es) == s && TimeLeft(s, later, library) == None
  {
    var all := before + [Receive(now, Fatal)];
    assert Ends(all[|before|]);
    UnclosedRuns(all, later, Fatal, library);
    RunsOn(all);
    StaysOver(After(Running, all), es);
  }

  // ---------- Which requests get a copy ----------

  /** A packet that had to be refused came before the expiry, and nothing was asked for since. */
  predicate Owed(es: seq<Event>, expiry: nat) {
    es != [] &&
    var e := es[|es| - 1];
    !e.Send? && ((e.Receive? && e.verdict.WhileClosing? && e.now < expiry) || Owed(es[..|es| - 1], expiry))
  }

  function LastTime(es: seq<Event>, from: nat): nat { if es == [] then from else es[|es| - 1].now }

  lemma {:induction false} OrderSplits(es: seq<Event>, e: Event, from: nat)
    requires InOrder(es + [e], from)
    ensures InOrder(es, from) && LastTime(es, from) <= e.now
    decreases |es|
  {
    if es == [] {
      assert (es + [e])[0] == e;
    } else {
      assert (es + [e])[1..] == es[1..] + [e] && (es + [e])[0] == es[0];
      OrderSplits(es[1..], e, es[0].now);
    }
  }

  lemma AsksSnoc(es: seq<Event>, e: Event)
    ensures Asks(es + [e]) <==> Asks(es) || e.Send?
  {
    var l := es + [e];
    if k :| 0 <= k < |es| && es[k].Send? { assert l[k].Send?; }
    if e.Send? { assert l[|es|].Send?; }
    if k :| 0 <= k < |l| && l[k].Send? { if k < |es| { assert es[k].Send?; } }
  }

  /** The closing connection as its history has it. */
  predicate Recalls(s: State, es: seq<Event>, packet: Packet, expiry: nat, from: nat) {
    && Holds(s, packet, expiry)
    && (s.delivered <==> Asks(es))
    && (s.packet.None? ==> expiry <= LastTime(es, from))
    && (s.delivered && LastTime(es, from) < expiry ==> (s.armed <==> Owed(es, expiry)))
  }

  lemma StepRecalls(s: State, es: seq<Event>, e: Event, packet: Packet, expiry: nat, from: nat)
    requires Recalls(s, es, packet, expiry, from) && LastTime(es, from) <= e.now
    ensures Recalls(Step(s, e).0, es + [e], packet, expiry, from)
    ensures e.Send? ==> Step(s, e).1 == (if !Asks(es) || (e.now < expiry && Owed(es, expiry)) then Some(packet) else None)
  {
    AsksSnoc(es, e);
    StepHolds(s, e, packet, expiry);
    hide Asks;
    assert (es + [e])[..|es|] == es && (es + [e])[|es|] == e;
  }

  lemma {:induction false} RunRecalls(es: seq<Event>, packet: Packet, pto: nat, now: nat)
    requires InOrder(es, now)
    ensures Recalls(After(Shut(Running, now, Some(packet), pto), es), es, packet, now + 3 * pto, now)
    decreases |es|
  {
    if es != [] {
      var init, e := es[..|es| - 1], es[|es| - 1];
      assert es == init + [e];
      OrderSplits(init, e, now);
      RunRecalls(init, packet, pto, now);
      hide Recalls, Step;
      SplitRun(Shut(Running, now, Some(packet), pto), init, [e]);
      StepRecalls(After(Shut(Running, now, Some(packet), pto), init), init, e, packet, now + 3 * pto, now);
    }
  }

  /**
   * After close() a request to send gets the packet exactly if it is the first, or comes before the expiry
   * with a refused packet since the last request. A packet is answered as the library has it until the
   * expiry, a refused one as discarded, and all as closed from then on; and a second close() changes nothing.
   */
  lemma CopyExactly(es: seq<Event>, packet: Packet, pto: nat, now: nat, later: nat, offer: Option<Packet>, verdict: Verdict)
    requires InOrder(es, now) && LastTime(es, now) <= later
    ensures var s := After(Shut(Running, now, Some(packet), pto), es); var expiry := now + 3 * pto;
      && Step(s, Send(later, offer)).1 == (if !Asks(es) || (later < expiry && Owed(es, expiry)) then Some(packet) else None)
      && Answer(s, later, verdict) == (if later >= expiry then ClosedResult
                                       else if verdict.WhileClosing? then Discarded else Plain(verdict))
      && forall again, other, time :: Shut(s, again, other, time) == s
  {
    RunRecalls(es, packet, pto, now);
    StepRecalls(After(Shut(Running, now, Some(packet), pto), es), es, Send(later, offer), packet, now + 3 * pto, now);
  }

  // ---------- The object ----------

  class QuicConnection {
    var closed: bool
    var pendingClosePacket: Option<Packet>
    var closePacketArmed: bool
    var closingExpiry: Option<nat>
    var closePacketDeliveredOnce: bool

    ghost function View(): State
      reads this
    {
      State(closed, pendingClosePacket, closePacketArmed, closingExpiry, closePacketDeliveredOnce)
    }

    constructor ()
      ensures View() == Running
    {
      closed, pendingClosePacket, closePacketArmed, closingExpiry, closePacketDeliveredOnce := false, None, false, None, false;
    }

    method Close(now: nat, packet: Option<Packet>, pto: nat)
      modifies this
      ensures View() == Shut(old(View()), now, packet, pto)
    {
      if closed {
        return;
      }
      if packet.Some? {
        pendingClosePacket := packet;
        closePacketArmed := true;
        closingExpiry := Some(now + 3 * pto);
        closePacketDeliveredOnce := false;
      }
      closed := true;
    }

    function ClosingPeriodExpired(now: nat): (r: bool)
      reads this
      ensures r <==> Expired(View(), now)
    {
      if pendingClosePacket.None? || closingExpiry.None? then false else now >= closingExpiry.value
    }

    method Send(now: nat, offer: Option<Packet>) returns (out: Option<Packet>)
      modifies this
      ensures (View(), out) == Step(old(View()), Event.Send(now, offer))
    {
      if pendingClosePacket.Some? {
        if !closePacketDeliveredOnce {
          closePacketDeliveredOnce := true;
          closePacketArmed := false;
          return pendingClosePacket;
        }
        if ClosingPeriodExpired(now) {
          return None;
        }
        if closePacketArmed {
          closePacketArmed := false;
          return pendingClosePacket;
        }
        return None;
      }
      if closed {
        return None;
      }
      return offer;
    }

    method Receive(now: nat, verdict: Verdict) returns (result: ReceiveResult)
      modifies this
      ensures View() == Step(old(View()), Event.Receive(now, verdict)).0
      ensures result == Answer(old(View()), now, verdict)
    {
      if closed && pendingClosePacket.None? {
        return ClosedResult;
      }
      if ClosingPeriodExpired(now) {
        return ClosedResult;
      }
      match verdict {
        case Processed(counted) => return if counted then Accepted else Discarded;
        case Ignored => return Discarded;
        case WhileClosing =>
          if pendingClosePacket.Some? {
            closePacketArmed := true;
            return Discarded;
          }
          closed := true;
          return ClosedResult;
        case Fatal =>
          closed := true;
          return ClosedResult;
      }
    }

    method GetTimeoutNs(now: nat, library: Option<nat>) returns (left: Option<nat>)
      ensures left == TimeLeft(View(), now, library)
    {
      if pendingClosePacket.Some? && closingExpiry.Some? {
        if now >= closingExpiry.value {
          return Some(0);
        }
        return Some(closingExpiry.value - now);
      }
      if closed || library.None? {
        return None;
      }
      if library.value <= now {
        return Some(0);
      }
      return Some(library.value - now);
    }

    method HandleTimeout(now: nat, fatal: bool)
      modifies this
      ensures View() == Step(old(View()), Timeout(now, fatal)).0
    {
      if pendingClosePacket.Some? {
        if ClosingPeriodExpired(now) && closePacketDeliveredOnce {
          pendingClosePacket := None;
          closingExpiry := None;
          closePacketArmed := false;
        }
        return;
      }
      if closed {
        return;
      }
      if fatal {
        closed := true;
      }
    }
  }
}
