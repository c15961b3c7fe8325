/**
 * What a QUIC stream keeps for retransmission. The library re-reads bytes it has accepted
 * until they are acknowledged, so every accepted byte must still be held until then.
 */
module Retention {
  import opened Capsules

  datatype Buffer = Buffer(data: seq<Byte>, fin: bool)

  /**
   * One stream: what waits to be written, what was written and may be sent again, and the
   * offset at which that begins. History: what was submitted and written in all, how far the
   * peer has acknowledged, and whether the library dropped the stream.
   */
  datatype Lane = Lane(
    buffers: seq<Buffer>,
    unacked: seq<seq<Byte>>,
    ackedOffset: nat,
    submitted: seq<Byte>,
    written: seq<Byte>,
    acknowledged: nat,
    dropped: bool)

  const NewLane := Lane([], [], 0, [], [], 0, false)

  /**
   * What a call of ngtcp2_conn_writev_stream came to: room for more in the packet, a finished
   * packet, or nothing written, each with the bytes taken; a stream that is shut or unknown;
   * any other failure, flow control included.
   */
  datatype Outcome = WriteMore(n: int) | Packet(n: int) | Nothing(n: int) | Gone | Failed

  /** It takes at most what it was offered. */
  predicate Possible(l: Lane, o: Outcome) {
    l.buffers != [] && (o.WriteMore? || o.Packet? || o.Nothing? ==> o.n <= |l.buffers[0].data|)
  }

  function Submit(l: Lane, data: seq<Byte>, fin: bool): Lane {
    l.(buffers := l.buffers + [Buffer(data, fin)], submitted := l.submitted + data)
  }

  /** `n` bytes of the front buffer are accepted: they move from waiting to held. */
  function Take(l: Lane, n: int): Lane
    requires l.buffers != [] && n <= |l.buffers[0].data|
  {
    if n <= 0 then l
    else
      var front := l.buffers[0];
      l.(buffers := if n == |front.data| then l.buffers[1..] else [front.(data := front.data[n..])] + l.buffers[1..],
         unacked := l.unacked + [front.data[..n]],
         written := l.written + front.data[..n])
  }

  function Drop(l: Lane): Lane { l.(buffers := [], dropped := true) }

  /** One call, and whether the loop goes on. */
  function Attempt(l: Lane, o: Outcome): (Lane, bool)
    requires Possible(l, o)
  {
    match o
    case WriteMore(n) => (Take(l, n), n > 0)
    case Packet(n) => (Take(l, n), false)
    case Nothing(n) => (Take(l, n), false)
    case Gone => (Drop(l), false)
    case Failed => (l, false)
  }

  /** Whole chunks below the acknowledged offset are let go. */
  function Release(l: Lane, upTo: nat): Lane
    decreases |l.unacked|
  {
    if l.unacked == [] || l.ackedOffset + |l.unacked[0]| > upTo then l
    else Release(l.(ackedOffset := l.ackedOffset + |l.unacked[0]|, unacked := l.unacked[1..]), upTo)
  }

  function Acknowledge(l: Lane, offset: nat, length: nat): Lane {
    Release(l, offset + length).(acknowledged := Max(l.acknowledged, offset + length))
  }

  // ---------- What is kept ----------

  function Flat(chunks: seq<seq<Byte>>): seq<Byte> { if chunks == [] then [] else chunks[0] + Flat(chunks[1..]) }

  function Waiting(buffers: seq<Buffer>): seq<Byte> {
    if buffers == [] then [] else buffers[0].data + Waiting(buffers[1..])
  }

  ghost predicate Kept(l: Lane) {
    && l.ackedOffset <= l.acknowledged <= |l.written|
    && Flat(l.unacked) == l.written[l.ackedOffset..]
    && (forall k :: 0 <= k < |l.unacked| ==> l.unacked[k] != [])
    && (if l.unacked == [] then l.acknowledged == l.ackedOffset
        else l.acknowledged < l.ackedOffset + |l.unacked[0]|)
    && (if l.dropped then l.written <= l.submitted else l.written + Waiting(l.buffers) == l.submitted)
  }

  lemma FlatSnoc(chunks: seq<seq<Byte>>, c: seq<Byte>)
    ensures Flat(chunks + [c]) == Flat(chunks) + c
  {
    if chunks == [] {
      assert Flat([c]) == c + Flat([]);
    } else {
      assert (chunks + [c])[1..] == chunks[1..] + [c];
      FlatSnoc(chunks[1..], c);
    }
  }

  lemma WaitingSnoc(buffers: seq<Buffer>, b: Buffer)
    ensures Waiting(buffers + [b]) == Waiting(buffers) + b.data
  {
    if buffers == [] {
      assert Waiting([b]) == b.data + Waiting([]);
    } else {
      assert (buffers + [b])[1..] == buffers[1..] + [b];
      WaitingSnoc(buffers[1..], b);
    }
  }

  lemma SubmitKeeps(l: Lane, data: seq<Byte>, fin: bool)
    requires Kept(l)
    ensures Kept(Submit(l, data, fin))
  {
    WaitingSnoc(l.buffers, Buffer(data, fin));
    hide Flat, Waiting;
    assert l.written + (Waiting(l.buffers) + data) == l.written + Waiting(l.buffers) + data;
  }

  lemma TakeSplits(l: Lane, n: int)
    requires l.buffers != [] && 0 < n <= |l.buffers[0].data|
    ensures Waiting(l.buffers) == l.buffers[0].data[..n] + Waiting(Take(l, n).buffers)
  {
    var data := l.buffers[0].data;
    assert data == data[..n] + data[n..];
    if n < |data| {
      var rest := [l.buffers[0].(data := data[n..])] + l.buffers[1..];
      assert rest[1..] == l.buffers[1..] && rest[0].data == data[n..];
      assert Waiting(rest) == data[n..] + Waiting(l.buffers[1..]);
    }
  }

  lemma TakeKeeps(l: Lane, n: int)
    requires Kept(l) && l.buffers != [] && n <= |l.buffers[0].data| && !l.dropped
    ensures Kept(Take(l, n))
  {
    if n > 0 {
      var part := l.buffers[0].data[..n];
      TakeSplits(l, n);
      FlatSnoc(l.unacked, part);
      var l' := Take(l, n);
      hide Waiting;
      assert l'.written[l.ackedOffset..] == l.written[l.ackedOffset..] + part;
      assert l'.written + Waiting(l'.buffers) == l.written + (part + Waiting(l'.buffers));
      if l.unacked == [] {
        assert |l.written[l.ackedOffset..]| == 0;
      }
      hide Flat;
    }
  }

  lemma DropKeeps(l: Lane)
    requires Kept(l)
    ensures Kept(Drop(l))
  {
  }

  lemma AttemptKeeps(l: Lane, o: Outcome)
    requires Kept(l) && Possible(l, o) && (l.dropped ==> o.Gone? || o.Failed?)
    ensures Kept(Attempt(l, o).0)
  {
    match o
    case WriteMore(n) => TakeKeeps(l, n);
    case Packet(n) => TakeKeeps(l, n);
    case Nothing(n) => TakeKeeps(l, n);
    case Gone => DropKeeps(l);
    case Failed =>
  }

  /** The chunks let go end at or before the offset, the first one kept ends behind it. */
  lemma {:induction false} ReleaseKeeps(l: Lane, upTo: nat)
    requires l.ackedOffset <= upTo <= |l.written|
    requires Flat(l.unacked) == l.written[l.ackedOffset..]
    requires forall k :: 0 <= k < |l.unacked| ==> l.unacked[k] != []
    ensures var r := Release(l, upTo);
      && r == l.(unacked := r.unacked, ackedOffset := r.ackedOffset)
      && l.ackedOffset <= r.ackedOffset <= upTo
      && Flat(r.unacked) == r.written[r.ackedOffset..]
      && (forall k :: 0 <= k < |r.unacked| ==> r.unacked[k] != [])
      && (if r.unacked == [] then r.ackedOffset == |r.written| else upTo < r.ackedOffset + |r.unacked[0]|)
    decreases |l.unacked|
  {
    if l.unacked != [] && l.ackedOffset + |l.unacked[0]| <= upTo {
      var n := |l.unacked[0]|;
      assert Flat(l.unacked)[n..] == Flat(l.unacked[1..]);
      assert l.written[l.ackedOffset..][n..] == l.written[l.ackedOffset + n..];
      ReleaseKeeps(l.(ackedOffset := l.ackedOffset + n, unacked := l.unacked[1..]), upTo);
    }
  }

  /** Acknowledgements come in order and without gaps, for bytes that were written. */
  predicate Orderly(l: Lane, offset: nat, length: nat) {
    offset == l.acknowledged && offset + length <= |l.written|
  }

  lemma AcknowledgeKeeps(l: Lane, offset: nat, length: nat)
    requires Kept(l) && Orderly(l, offset, length)
    ensures Kept(Acknowledge(l, offset, length))
  {
    ReleaseKeeps(l, offset + length);
    hide Flat, Waiting, Release;
  }

  // ---------- Runs ----------

  /** `Abandon`: the application closes or resets the stream. */
  datatype Step = Queue(data: seq<Byte>, fin: bool) | Write(o: Outcome) | Ack(offset: nat, length: nat) | Abandon

  predicate Enabled(l: Lane, s: Step) {
    match s
    case Queue(_, _) => true
    case Write(o) => Possible(l, o) && (l.dropped ==> o.Gone? || o.Failed?)
    case Ack(offset, length) => Orderly(l, offset, length)
    case Abandon => true
  }

  function Apply(l: Lane, s: Step): Lane
    requires Enabled(l, s)
  {
    match s
    case Queue(data, fin) => Submit(l, data, fin)
    case Write(o) => Attempt(l, o).0
    case Ack(offset, length) => Acknowledge(l, offset, length)
    case Abandon => Drop(l)
  }

  ghost predicate Run(l: Lane, steps: seq<Step>, l': Lane)
    decreases |steps|
  {
    if steps == [] then l' == l else Enabled(l, steps[0]) && Run(Apply(l, steps[0]), steps[1..], l')
  }

  lemma {:induction false} RunKeeps(l: Lane, steps: seq<Step>, l': Lane)
    requires Kept(l) && Run(l, steps, l')
    ensures Kept(l')
    decreases |steps|
  {
    if steps != [] {
      match steps[0] {
        case Queue(data, fin) => SubmitKeeps(l, data, fin);
        case Write(o) => AttemptKeeps(l, o);
        case Ack(offset, length) => AcknowledgeKeeps(l, offset, length);
        case Abandon => DropKeeps(l);
      }
      hide Kept;
      RunKeeps(Apply(l, steps[0]), steps[1..], l');
    }
  }

  /**
   * Every byte that was written and not acknowledged is still held, in order and at its offset;
   * at most part of one acknowledged chunk is held on; and what was written is the front of
   * what was submitted, the rest of it waiting unless the library dropped the stream.
   */
  lemma UnackedIsHeld(steps: seq<Step>, l: Lane)
    requires Run(NewLane, steps, l)
    ensures l.ackedOffset <= l.acknowledged <= |l.written| && Flat(l.unacked) == l.written[l.ackedOffset..]
    ensures l.written[l.acknowledged..] == Flat(l.unacked)[l.acknowledged - l.ackedOffset..]
    ensures l.unacked == [] ==> l.acknowledged == l.ackedOffset
    ensures l.unacked != [] ==> l.acknowledged - l.ackedOffset < |l.unacked[0]|
    ensures if l.dropped then l.written <= l.submitted else l.written + Waiting(l.buffers) == l.submitted
  {
    assert Kept(NewLane);
    RunKeeps(NewLane, steps, l);
    hide Run, Flat, Waiting;
  }

  // ---------- What is let go, and when ----------

  /** The library does not know the stream any more, or the application gives it up. */
  predicate GivesUp(s: Step) { s == Write(Gone) || s == Abandon }

  lemma {:induction false} RunDrops(l: Lane, steps: seq<Step>, l': Lane)
    requires Run(l, steps, l')
    ensures l'.dropped <==> l.dropped || exists k :: 0 <= k < |steps| && GivesUp(steps[k])
    decreases |steps|
  {
    if steps != [] {
      var l1, rest := Apply(l, steps[0]), steps[1..];
      RunDrops(l1, rest, l');
      assert l1.dropped <==> l.dropped || GivesUp(steps[0]) by {
        if steps[0].Ack? { ReleaseFrame(l, steps[0].offset + steps[0].length); }
      }
      hide Run, Apply;
      if k :| 0 <= k < |rest| && GivesUp(rest[k]) { assert steps[k + 1] == rest[k]; }
      if k :| 0 < k < |steps| && GivesUp(steps[k]) { assert rest[k - 1] == steps[k]; }
    }
  }

  /** What the application submitted in the course of a run. */
  function Submissions(steps: seq<Step>): seq<Buffer> {
    if steps == [] then []
    else
      var s := steps[|steps| - 1];
      Submissions(steps[..|steps| - 1]) + (if s.Queue? then [Buffer(s.data, s.fin)] else [])
  }

  predicate EndOf(x: seq<Byte>, y: seq<Byte>) { |x| <= |y| && x == y[|y| - |x|..] }

  /** The last submissions, with their FINs, of which the first may have lost some of its first bytes. */
  predicate TailOf(buffers: seq<Buffer>, all: seq<Buffer>) {
    var k := |all| - |buffers|;
    buffers == [] || (k >= 0 && buffers[1..] == all[k + 1..] && buffers[0].fin == all[k].fin && EndOf(buffers[0].data, all[k].data))
  }

  lemma SubmitTail(buffers: seq<Buffer>, all: seq<Buffer>, b: Buffer)
    requires TailOf(buffers, all)
    ensures TailOf(buffers + [b], all + [b])
  {
    if buffers == [] {
      assert (all + [b])[|all| + 1..] == [];
    } else {
      var k := |all| - |buffers|;
      assert (buffers + [b])[1..] == buffers[1..] + [b];
      assert (all + [b])[k + 1..] == all[k + 1..] + [b];
    }
  }

  lemma TakeTail(l: Lane, n: int, all: seq<Buffer>)
    requires l.buffers != [] && n <= |l.buffers[0].data| && TailOf(l.buffers, all)
    ensures TailOf(Take(l, n).buffers, all)
  {
    var b, k := l.buffers, |all| - |l.buffers|;
    if 0 < n == |b[0].data| && |b| > 1 {
      assert b[1] == all[k + 1] && b[1..][1..] == all[k + 1..][1..];
    } else if 0 < n < |b[0].data| {
      assert ([b[0].(data := b[0].data[n..])] + b[1..])[1..] == b[1..];
    }
  }

  lemma StepTail(l: Lane, s: Step, all: seq<Buffer>)
    requires Enabled(l, s) && TailOf(l.buffers, all) && l.submitted == Waiting(all)
    ensures var l', all' := Apply(l, s), if s.Queue? then all + [Buffer(s.data, s.fin)] else all;
            TailOf(l'.buffers, all') && l'.submitted == Waiting(all')
  {
    hide TailOf, Waiting;
    match s
    case Queue(data, fin) =>
      SubmitTail(l.buffers, all, Buffer(data, fin));
      WaitingSnoc(all, Buffer(data, fin));
    case Ack(offset, length) => ReleaseFrame(l, offset + length);
    case Write(o) => if o.WriteMore? || o.Packet? || o.Nothing? { TakeTail(l, o.n, all); } else { NoTail(all); }
    case Abandon => NoTail(all);
  }

  lemma NoTail(all: seq<Buffer>)
    ensures TailOf([], all)
  {
  }

  lemma {:induction false} RunTail(steps: seq<Step>, l: Lane)
    requires Run(NewLane, steps, l)
    ensures TailOf(l.buffers, Submissions(steps)) && l.submitted == Waiting(Submissions(steps))
    decreases |steps|
  {
    hide TailOf, Apply, Enabled;
    if steps == [] {
      NoTail([]);
    } else {
      var init, s := steps[..|steps| - 1], steps[|steps| - 1];
      assert steps == init + [s];
      var l1 := RunSplits(NewLane, init, s, l);
      RunTail(init, l1);
      StepTail(l1, s, Submissions(init));
      assert Submissions(steps) == if s.Queue? then Submissions(init) + [Buffer(s.data, s.fin)] else Submissions(init);
      hide Submissions;
    }
  }

  lemma {:induction false} RunSplits(l: Lane, steps: seq<Step>, s: Step, l': Lane) returns (l1: Lane)
    requires Run(l, steps + [s], l')
    ensures Run(l, steps, l1) && Enabled(l1, s) && l' == Apply(l1, s)
    decreases |steps|
  {
    if steps == [] {
      l1 := l;
    } else {
      assert (steps + [s])[1..] == steps[1..] + [s] && (steps + [s])[0] == steps[0];
      hide Enabled, Apply;
      l1 := RunSplits(Apply(l, steps[0]), steps[1..], s, l');
    }
  }

  /**
   * A lane is dropped exactly where the library has lost the stream or the application gave it up: no
   * other failure of a write, flow control included, costs a byte. What waits is the end of what was
   * submitted, FINs included; and unless the lane was dropped, bytes written and bytes waiting are all of it.
   */
  lemma NothingIsLost(steps: seq<Step>, l: Lane)
    requires Run(NewLane, steps, l)
    ensures l.dropped <==> exists k :: 0 <= k < |steps| && GivesUp(steps[k])
    ensures TailOf(l.buffers, Submissions(steps))
    ensures (forall k :: 0 <= k < |steps| ==> !GivesUp(steps[k])) ==> l.written + Waiting(l.buffers) == Waiting(Submissions(steps))
  {
    hide Run, Flat, Waiting, Submissions, TailOf;
    RunDrops(NewLane, steps, l);
    RunTail(steps, l);
    UnackedIsHeld(steps, l);
  }

  // ---------- How far one loop goes ----------

  /** Room is left in the packet, and bytes were taken: the next buffer may follow. */
  predicate Lasting(o: Outcome) { o.WriteMore? && o.n > 0 }

  function Taken(o: Outcome): nat { if (o.WriteMore? || o.Packet? || o.Nothing?) && o.n > 0 then o.n else 0 }

  /** The bytes taken up to the first call after which no room is left. */
  function Progress(outcomes: seq<Outcome>): nat {
    if outcomes == [] then 0 else Taken(outcomes[0]) + (if Lasting(outcomes[0]) then Progress(outcomes[1..]) else 0)
  }

  /** The loop over one stream goes on until the packet is full, a call takes nothing, or nothing waits. */
  lemma {:induction false} LoopGoesOn(l: Lane, outcomes: seq<Outcome>)
    requires Feasible(l, outcomes)
    ensures var r := WriteAll(l, outcomes);
      && |r.written| <= |l.written| + Progress(outcomes)
      && (r.buffers != [] ==> |r.written| == |l.written| + Progress(outcomes))
    decreases |outcomes|
  {
    if l.buffers != [] && outcomes != [] && Attempt(l, outcomes[0]).1 {
      LoopGoesOn(Attempt(l, outcomes[0]).0, outcomes[1..]);
    }
  }

  // ---------- The object ----------

  class SendStream {
    var buffers: seq<Buffer>
    var unacked: seq<seq<Byte>>
    var ackedOffset: nat
    ghost var submitted: seq<Byte>
    ghost var written: seq<Byte>
    ghost var acknowledged: nat
    ghost var dropped: bool

    ghost function State(): Lane
      reads this
    {
      Lane(buffers, unacked, ackedOffset, submitted, written, acknowledged, dropped)
    }

    constructor ()
      ensures State() == NewLane
    {
      buffers, unacked, ackedOffset := [], [], 0;
      submitted, written, acknowledged, dropped := [], [], 0, false;
    }

    method SendStreamData(data: seq<Byte>, fin: bool)
      modifies this
      ensures State() == Submit(old(State()), data, fin)
    {
      buffers := buffers + [Buffer(data, fin)];
      submitted := submitted + data;
    }

    /** The bytes are held before the call and cut to what it took; what waits is cut afterwards. */
    method WriteFront(o: Outcome) returns (again: bool)
      requires Possible(State(), o)
      modifies this
      ensures (State(), again) == Attempt(old(State()), o)
    {
      var front := buffers[0];
      unacked := unacked + [front.data];
      var taken := if o.WriteMore? || o.Packet? || o.Nothing? then o.n else 0;
      if taken > 0 {
        unacked := unacked[..|unacked| - 1] + [front.data[..taken]];
      } else {
        unacked := unacked[..|unacked| - 1];
      }
      assert unacked == if taken > 0 then old(unacked) + [front.data[..taken]] else old(unacked);
      if o.Gone? {
        buffers := [];
        dropped := true;
        return false;
      }
      if taken > 0 {
        written := written + front.data[..taken];
        front := front.(data := front.data[taken..]);
        buffers := [front] + buffers[1..];
        if front.data == [] {
          buffers := buffers[1..];
        }
      }
      return o.WriteMore? && o.n > 0;
    }

    /** The loop over one stream's buffers, for a given sequence of outcomes. */
    method WriteStream(outcomes: seq<Outcome>) returns (calls: nat)
      requires Feasible(State(), outcomes)
      modifies this
      ensures State() == WriteAll(old(State()), outcomes)
      ensures calls <= |outcomes|
    {
      ghost var l := State();
      calls := 0;
      assert outcomes[0..] == outcomes;
      while buffers != [] && calls < |outcomes|
        invariant 0 <= calls <= |outcomes|
        invariant Feasible(State(), outcomes[calls..])
        invariant WriteAll(State(), outcomes[calls..]) == WriteAll(l, outcomes)
        decreases |outcomes| - calls
      {
        assert outcomes[calls..][1..] == outcomes[calls + 1..];
        var again := WriteFront(outcomes[calls]);
        calls := calls + 1;
        if !again {
          break;
        }
      }
    }

    method AckedStreamDataOffset(offset: nat, length: nat)
      modifies this
      ensures State() == Acknowledge(old(State()), offset, length)
    {
      var releaseUpTo := offset + length;
      ghost var l := State();
      while unacked != [] && ackedOffset + |unacked[0]| <= releaseUpTo
        invariant Release(State(), releaseUpTo) == Release(l, releaseUpTo)
        decreases |unacked|
      {
        ackedOffset := ackedOffset + |unacked[0]|;
        unacked := unacked[1..];
      }
      acknowledged := Max(acknowledged, releaseUpTo);
      ReleaseFrame(l, releaseUpTo);
    }
  }

  lemma ReleaseFrame(l: Lane, upTo: nat)
    ensures Release(l, upTo) == l.(unacked := Release(l, upTo).unacked, ackedOffset := Release(l, upTo).ackedOffset)
    decreases |l.unacked|
  {
    if l.unacked != [] && l.ackedOffset + |l.unacked[0]| <= upTo {
      ReleaseFrame(l.(ackedOffset := l.ackedOffset + |l.unacked[0]|, unacked := l.unacked[1..]), upTo);
    }
  }

  /** The outcomes of the calls the loop makes are possible ones. */
  predicate Feasible(l: Lane, outcomes: seq<Outcome>)
    decreases |outcomes|
  {
    l.buffers != [] && outcomes != [] ==>
      Possible(l, outcomes[0])
      && (Attempt(l, outcomes[0]).1 ==> Feasible(Attempt(l, outcomes[0]).0, outcomes[1..]))
  }

  function WriteAll(l: Lane, outcomes: seq<Outcome>): Lane
    requires Feasible(l, outcomes)
    decreases |outcomes|
  {
    if l.buffers == [] || outcomes == [] then l
    else
      var (l', again) := Attempt(l, outcomes[0]);
      if again then WriteAll(l', outcomes[1..]) else l'
  }
}
