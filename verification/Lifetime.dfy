/**
 * The table of sessions of an HTTP/2 connection. A session enters it once, with its CONNECT
 * stream, and leaves it once: reported closed, reported rejected, or dropped by the server
 * that refused it.
 */
module Lifetime {
  /** `preAcceptEnd`: the stream ended before the server answered. */
  datatype Entry = Entry(established: bool, terminated: bool, preAcceptEnd: bool)

  /** How a session left: with a SessionClosed or SessionRejected event, or without any. */
  datatype Ending = Closed(id: nat) | Rejected(id: nat) | Dropped(id: nat)

  /** History: the sessions that ever entered. */
  datatype Table = Table(isServer: bool, entries: map<nat, Entry>, endings: seq<Ending>, begun: set<nat>)

  function NewTable(isServer: bool): Table { Table(isServer, map[], [], {}) }

  /** What a pass over the capsules of a session does to it. */
  datatype Outcome = Fine | GotClose | Failed

  datatype Event =
    | Begin(id: nat)
    | Accept(id: nat, outcome: Outcome, complete: bool)
    | Reject(id: nat, status: nat)
    | Response(id: nat, status: nat)
    | Capsules(id: nat, outcome: Outcome)
    | CloseSession(id: nat)
    | EndStream(id: nat, complete: bool)
    | StreamClosed(id: nat)

  function Leave(t: Table, e: Ending): Table {
    t.(entries := t.entries - {e.id}, endings := t.endings + [e])
  }

  /** Over, but in the table until its stream is closed. */
  function Terminate(t: Table, id: nat): Table {
    t.(entries := t.entries[id := Entry(false, true, false)])
  }

  function Pass(t: Table, id: nat, outcome: Outcome): Table {
    match outcome
    case Fine => t
    case GotClose => Leave(t, Closed(id))
    case Failed => Terminate(t, id)
  }

  /** The stream has ended; mid-capsule that is an error. */
  function Ended(t: Table, id: nat, complete: bool): Table {
    if complete then Leave(t, Closed(id)) else Terminate(t, id)
  }

  function Step(t: Table, e: Event): Table {
    match e
    case Begin(id) => t.(entries := t.entries[id := Entry(false, false, false)], begun := t.begun + {id})
    case Accept(id, outcome, complete) =>
      if !t.isServer || id !in t.entries then t
      else
        var g := t.entries[id];
        var t1 := t.(entries := t.entries[id := g.(established := true)]);
        var t2 := if g.terminated then t1 else Pass(t1, id, outcome);
        if id !in t2.entries || t2.entries[id].terminated then t2
        else if g.preAcceptEnd then Ended(t2, id, complete)
        else t2
    case Reject(id, status) =>
      if !t.isServer || id !in t.entries then t
      else if status / 100 != 2 then Leave(t, Dropped(id))
      else t.(entries := t.entries[id := t.entries[id].(terminated := true, preAcceptEnd := false)])
    case Response(id, status) =>
      if t.isServer || id !in t.entries || status / 100 == 1 then t
      else if status / 100 == 2 then t.(entries := t.entries[id := t.entries[id].(established := true)])
      else Leave(t, Rejected(id))
    case Capsules(id, outcome) =>
      if id !in t.entries || t.entries[id].terminated || !t.entries[id].established then t else Pass(t, id, outcome)
    case CloseSession(id) =>
      if id !in t.entries || t.entries[id].terminated then t else Terminate(t, id)
    case EndStream(id, complete) =>
      if id !in t.entries then t
      else
        var g := t.entries[id];
        if g.established && !g.terminated then Ended(t, id, complete)
        else if t.isServer && !g.established && !g.terminated
             then t.(entries := t.entries[id := g.(preAcceptEnd := true)])
        else t
    case StreamClosed(id) =>
      if id !in t.entries then t else Leave(t, Closed(id))
  }

  // ---------- Conservation ----------

  function Endings(l: seq<Ending>, id: nat): nat {
    if l == [] then 0 else Endings(l[..|l| - 1], id) + (if l[|l| - 1].id == id then 1 else 0)
  }

  /** A session that entered is in the table or has left it once; another has done neither. */
  predicate Once(t: Table, id: nat) {
    Endings(t.endings, id) + (if id in t.entries then 1 else 0) == (if id in t.begun then 1 else 0)
  }

  ghost predicate Conserved(t: Table) {
    && (forall id :: Once(t, id))
    && |t.begun| == |t.entries| + |t.endings|
  }

  lemma EndingsSnoc(l: seq<Ending>, e: Ending, id: nat)
    ensures Endings(l + [e], id) == Endings(l, id) + (if e.id == id then 1 else 0)
  {
    assert (l + [e])[..|l|] == l;
  }

  lemma LeaveConserves(t: Table, e: Ending)
    requires Conserved(t) && e.id in t.entries
    ensures Conserved(Leave(t, e))
  {
    var t' := Leave(t, e);
    forall id ensures Once(t', id) {
      assert Once(t, id);
      EndingsSnoc(t.endings, e, id);
    }
    assert t'.entries.Keys == t.entries.Keys - {e.id};
    assert |t'.entries.Keys| == |t'.entries| && |t.entries.Keys| == |t.entries|;
  }

  /** Changing an entry changes nothing about who is in the table. */
  lemma UpdateConserves(t: Table, id: nat, g: Entry)
    requires Conserved(t) && id in t.entries
    ensures Conserved(t.(entries := t.entries[id := g]))
  {
    var t' := t.(entries := t.entries[id := g]);
    forall i ensures Once(t', i) { assert Once(t, i); }
    assert t'.entries.Keys == t.entries.Keys;
    assert |t'.entries.Keys| == |t'.entries| && |t.entries.Keys| == |t.entries|;
  }

  lemma BeginConserves(t: Table, id: nat)
    requires Conserved(t) && id !in t.begun
    ensures Conserved(Step(t, Begin(id)))
  {
    var t' := Step(t, Begin(id));
    forall i ensures Once(t', i) { assert Once(t, i); }
    assert Once(t, id);
    assert t'.entries.Keys == t.entries.Keys + {id};
    assert |t'.entries.Keys| == |t'.entries| && |t.entries.Keys| == |t.entries|;
  }

  lemma PassConserves(t: Table, id: nat, outcome: Outcome)
    requires Conserved(t) && id in t.entries
    ensures Conserved(Pass(t, id, outcome))
  {
    hide Conserved;
    match outcome
    case Fine =>
    case GotClose => LeaveConserves(t, Closed(id));
    case Failed => UpdateConserves(t, id, Entry(false, true, false));
  }

  lemma EndedConserves(t: Table, id: nat, complete: bool)
    requires Conserved(t) && id in t.entries
    ensures Conserved(Ended(t, id, complete))
  {
    hide Conserved;
    if complete { LeaveConserves(t, Closed(id)); } else { UpdateConserves(t, id, Entry(false, true, false)); }
  }

  lemma AcceptConserves(t: Table, id: nat, outcome: Outcome, complete: bool)
    requires Conserved(t) && id in t.entries && t.isServer
    ensures Conserved(Step(t, Accept(id, outcome, complete)))
  {
    hide Conserved, Pass, Ended;
    var g := t.entries[id];
    var t1 := t.(entries := t.entries[id := g.(established := true)]);
    UpdateConserves(t, id, g.(established := true));
    PassConserves(t1, id, outcome);
    var t2 := if g.terminated then t1 else Pass(t1, id, outcome);
    if id in t2.entries { EndedConserves(t2, id, complete); }
  }

  /** Stream IDs are never used twice. */
  predicate Fresh(t: Table, e: Event) { e.Begin? ==> e.id !in t.begun }

  lemma StepConserves(t: Table, e: Event)
    requires Conserved(t) && Fresh(t, e)
    ensures Conserved(Step(t, e))
  {
    hide Conserved, Leave, Pass, Ended, Terminate;
    if e.Begin? {
      BeginConserves(t, e.id);
    } else if e.id in t.entries {
      var g := t.entries[e.id];
      match e {
        case Accept(id, outcome, complete) => if t.isServer { AcceptConserves(t, id, outcome, complete); }
        case Reject(id, status) =>
          LeaveConserves(t, Dropped(id));
          UpdateConserves(t, id, g.(terminated := true, preAcceptEnd := false));
        case Response(id, status) =>
          LeaveConserves(t, Rejected(id));
          UpdateConserves(t, id, g.(established := true));
        case Capsules(id, outcome) => PassConserves(t, id, outcome);
        case CloseSession(id) => TerminateConserves(t, id);
        case EndStream(id, complete) =>
          EndedConserves(t, id, complete);
          UpdateConserves(t, id, g.(preAcceptEnd := true));
        case StreamClosed(id) => LeaveConserves(t, Closed(id));
        case Begin(_) =>
      }
    }
  }

  lemma TerminateConserves(t: Table, id: nat)
    requires Conserved(t) && id in t.entries
    ensures Conserved(Terminate(t, id))
  {
    hide Conserved;
    UpdateConserves(t, id, Entry(false, true, false));
  }

  function Run(t: Table, events: seq<Event>): Table
    decreases |events|
  {
    if events == [] then t else Run(Step(t, events[0]), events[1..])
  }

  predicate AllFresh(t: Table, events: seq<Event>)
    decreases |events|
  {
    events != [] ==> Fresh(t, events[0]) && AllFresh(Step(t, events[0]), events[1..])
  }

  lemma {:induction false} RunConserves(t: Table, events: seq<Event>)
    requires Conserved(t) && AllFresh(t, events)
    ensures Conserved(Run(t, events))
    decreases |events|
  {
    if events != [] {
      hide Conserved, Step, Fresh;
      StepConserves(t, events[0]);
      RunConserves(Step(t, events[0]), events[1..]);
    }
  }

  /**
   * In every run each session that entered the table is in it or has left it exactly once, and
   * no other is or has; so what entered is what is there, was closed, was rejected or was dropped.
   */
  lemma EachSessionEndsOnce(isServer: bool, events: seq<Event>, id: nat)
    requires AllFresh(NewTable(isServer), events)
    ensures var t := Run(NewTable(isServer), events);
      && Endings(t.endings, id) + (if id in t.entries then 1 else 0) == (if id in t.begun then 1 else 0)
      && |t.begun| == |t.entries| + |t.endings|
  {
    var t := NewTable(isServer);
    forall i ensures Once(t, i) { }
    RunConserves(t, events);
    assert Once(Run(t, events), id);
  }

  // ---------- A session that is over stays over ----------

  /** Nothing but its departure happens to a terminated session; only the 2xx is still taken in. */
  lemma TerminatedStays(t: Table, e: Event, id: nat)
    requires id in t.entries && t.entries[id].terminated && Fresh(t, e) && (id in t.begun)
    ensures var t' := Step(t, e);
            id in t'.entries ==> t'.entries[id].terminated
                                 && (t'.entries[id].established ==> t.entries[id].established || e.Response? || e.Accept?)
    ensures id !in Step(t, e).entries ==> e.id == id && (e.StreamClosed? || e.Reject? || e.Response?)
  {
  }

  /** Who is rejected was refused by the other side, and who is dropped by this one. */
  lemma EndingFits(t: Table, e: Event)
    requires Step(t, e).endings != t.endings
    ensures var l := Step(t, e).endings;
      && |l| == |t.endings| + 1 && l[..|t.endings|] == t.endings && l[|t.endings|].id == e.id
      && (l[|t.endings|].Rejected? <==> e.Response?)
      && (l[|t.endings|].Dropped? <==> e.Reject?)
      && (l[|t.endings|].Rejected? ==> !t.isServer) && (l[|t.endings|].Dropped? ==> t.isServer)
  {
  }

  // ---------- One session by itself ----------

  datatype How = AsClosed | AsRejected | AsDropped

  /** `Pending`: not answered yet, `ended` if its stream is over all the same; `Done`: over, but in the table. */
  datatype Phase = Absent | Pending(ended: bool) | Up | Done | Left(how: How)

  predicate Present(ph: Phase) { ph.Pending? || ph.Up? || ph.Done? }

  /** What a stream end amounts to: a close between capsules, an error within one. */
  function Cut(complete: bool): Phase { if complete then Left(AsClosed) else Done }

  /** What an event about a session means for it. */
  function Next(isServer: bool, ph: Phase, e: Event): Phase {
    if e.Begin? then Pending(false)
    else if !Present(ph) then ph
    else
      match e
      case Begin(_) => ph
      case Accept(_, outcome, complete) =>
        if !isServer || ph.Done? then ph
        else if outcome.GotClose? then Left(AsClosed)
        else if outcome.Failed? then Done
        else if ph == Pending(true) then Cut(complete)
        else Up
      case Reject(_, status) => if !isServer then ph else if status / 100 == 2 then Done else Left(AsDropped)
      case Response(_, status) =>
        if isServer || status / 100 == 1 then ph
        else if status / 100 != 2 then Left(AsRejected)
        else if ph.Pending? then Up else ph
      case Capsules(_, outcome) =>
        if !ph.Up? || outcome.Fine? then ph else if outcome.GotClose? then Left(AsClosed) else Done
      case CloseSession(_) => Done
      case EndStream(_, complete) => if ph.Up? then Cut(complete) else if ph.Pending? && isServer then Pending(true) else ph
      case StreamClosed(_) => Left(AsClosed)
  }

  function Fate(isServer: bool, events: seq<Event>, id: nat): Phase {
    if events == [] then Absent
    else
      var ph, e := Fate(isServer, events[..|events| - 1], id), events[|events| - 1];
      if e.id == id then Next(isServer, ph, e) else ph
  }

  function LastEnding(l: seq<Ending>, id: nat): Phase {
    if l == [] then Absent
    else
      var e := l[|l| - 1];
      if e.id != id then LastEnding(l[..|l| - 1], id)
      else Left(match e case Closed(_) => AsClosed case Rejected(_) => AsRejected case Dropped(_) => AsDropped)
  }

  function PhaseOf(t: Table, id: nat): Phase {
    if id !in t.entries then LastEnding(t.endings, id)
    else
      var g := t.entries[id];
      if g.terminated then Done else if g.established then Up else Pending(g.preAcceptEnd)
  }

  /** An end seen before the answer is acted upon with the answer; and nobody is in the table unannounced. */
  ghost predicate Tidy(t: Table) {
    && (forall id :: id in t.entries ==> id in t.begun)
    && (forall id :: id in t.entries && t.entries[id].preAcceptEnd ==>
          t.isServer && (!t.entries[id].established || t.entries[id].terminated))
  }

  lemma EndingSnoc(l: seq<Ending>, e: Ending, id: nat)
    ensures LastEnding(l + [e], id)
         == if e.id != id then LastEnding(l, id)
            else Left(match e case Closed(_) => AsClosed case Rejected(_) => AsRejected case Dropped(_) => AsDropped)
  {
    assert (l + [e])[..|l|] == l;
  }

  lemma StepKeepsTidy(t: Table, e: Event)
    requires Tidy(t)
    ensures Tidy(Step(t, e)) && Step(t, e).isServer == t.isServer
  {
  }

  lemma StepIsNext(t: Table, e: Event, id: nat)
    requires Tidy(t) && Fresh(t, e)
    ensures PhaseOf(Step(t, e), id) == if e.id == id then Next(t.isServer, PhaseOf(t, id), e) else PhaseOf(t, id)
  {
    EndingSnoc(t.endings, Closed(e.id), id);
    EndingSnoc(t.endings, Rejected(e.id), id);
    EndingSnoc(t.endings, Dropped(e.id), id);
    NotPresent(t.endings, id);
    hide LastEnding;
  }

  lemma NotPresent(l: seq<Ending>, id: nat)
    ensures !Present(LastEnding(l, id))
    decreases |l|
  {
    if l != [] { NotPresent(l[..|l| - 1], id); }
  }

  lemma {:induction false} RunSnoc(t: Table, events: seq<Event>, e: Event)
    requires AllFresh(t, events + [e])
    ensures Run(t, events + [e]) == Step(Run(t, events), e) && AllFresh(t, events) && Fresh(Run(t, events), e)
    decreases |events|
  {
    hide Step, Fresh;
    if events == [] {
      assert (events + [e])[0] == e && (events + [e])[1..] == [];
    } else {
      assert (events + [e])[1..] == events[1..] + [e] && (events + [e])[0] == events[0];
      RunSnoc(Step(t, events[0]), events[1..], e);
    }
  }

  /**
   * In every run each session fares as its own events say: it is reported closed when its stream ends between
   * two capsules and kept as an error when it ends within one; an end before the answer waits for it.
   */
  lemma {:induction false} FateIsKept(isServer: bool, events: seq<Event>, id: nat)
    requires AllFresh(NewTable(isServer), events)
    ensures var t := Run(NewTable(isServer), events); Tidy(t) && t.isServer == isServer && PhaseOf(t, id) == Fate(isServer, events, id)
    decreases |events|
  {
    if events != [] {
      var init, e := events[..|events| - 1], events[|events| - 1];
      assert events == init + [e];
      RunSnoc(NewTable(isServer), init, e);
      FateIsKept(isServer, init, id);
      hide Run, AllFresh, Step, Fresh, Tidy, PhaseOf;
      StepKeepsTidy(Run(NewTable(isServer), init), e);
      StepIsNext(Run(NewTable(isServer), init), e, id);
    }
  }

  // ---------- The object ----------

  class SessionTable {
    const isServer: bool
    var sessions: map<nat, Entry>
    var endings: seq<Ending>
    ghost var begun: set<nat>

    ghost function State(): Table
      reads this
    {
      Table(isServer, sessions, endings, begun)
    }

    constructor (isServer: bool)
      ensures State() == NewTable(isServer)
    {
      this.isServer := isServer;
      sessions, endings, begun := map[], [], {};
    }

    method Connect(id: nat)
      modifies this
      ensures State() == Step(old(State()), Begin(id))
    {
      sessions := sessions[id := Entry(false, false, false)];
      begun := begun + {id};
    }

    method Remove(e: Ending)
      modifies this
      ensures State() == Leave(old(State()), e)
    {
      endings := endings + [e];
      sessions := sessions - {e.id};
    }

    method HandleCapsules(id: nat, outcome: Outcome)
      modifies this
      ensures State() == Step(old(State()), Capsules(id, outcome))
    {
      if id !in sessions || sessions[id].terminated || !sessions[id].established {
        return;
      }
      match outcome {
        case Fine =>
        case GotClose => Remove(Closed(id));
        case Failed => sessions := sessions[id := Entry(false, true, false)];
      }
    }

    method AcceptSession(id: nat, outcome: Outcome, complete: bool)
      modifies this
      ensures State() == Step(old(State()), Accept(id, outcome, complete))
    {
      if !isServer || id !in sessions {
        return;
      }
      sessions := sessions[id := sessions[id].(established := true)];
      HandleCapsules(id, outcome);
      if id !in sessions || sessions[id].terminated {
        return;
      }
      if sessions[id].preAcceptEnd {
        if complete {
          Remove(Closed(id));
        } else {
          sessions := sessions[id := Entry(false, true, false)];
        }
      }
    }

    method RejectSession(id: nat, status: nat)
      modifies this
      ensures State() == Step(old(State()), Reject(id, status))
    {
      if !isServer || id !in sessions {
        return;
      }
      if status / 100 != 2 {
        Remove(Dropped(id));
      } else {
        sessions := sessions[id := sessions[id].(terminated := true, preAcceptEnd := false)];
      }
    }

    method OnResponse(id: nat, status: nat)
      modifies this
      ensures State() == Step(old(State()), Response(id, status))
    {
      if isServer || id !in sessions {
        return;
      }
      if status / 100 == 2 {
        sessions := sessions[id := sessions[id].(established := true)];
      } else if status / 100 != 1 {
        Remove(Rejected(id));
      }
    }

    method Close(id: nat)
      modifies this
      ensures State() == Step(old(State()), CloseSession(id))
    {
      if id in sessions && !sessions[id].terminated {
        sessions := sessions[id := Entry(false, true, false)];
      }
    }

    method HandleEndStream(id: nat, complete: bool)
      modifies this
      ensures State() == Step(old(State()), EndStream(id, complete))
    {
      if id !in sessions || !sessions[id].established || sessions[id].terminated {
        if isServer && id in sessions && !sessions[id].established && !sessions[id].terminated {
          sessions := sessions[id := sessions[id].(preAcceptEnd := true)];
        }
        return;
      }
      if !complete {
        sessions := sessions[id := Entry(false, true, false)];
        return;
      }
      Remove(Closed(id));
    }

    method OnStreamClose(id: nat)
      modifies this
      ensures State() == Step(old(State()), StreamClosed(id))
    {
      if id in sessions {
        Remove(Closed(id));
      }
    }
  }
}
