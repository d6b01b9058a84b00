/** Fragment streams do not disturb each other: what a connection emits for one stream is
    what it would emit if only that stream's frames arrived, at the same times. */
module ReassemblyStreams {
  import opened Collections
  import opened Reassembly

  predicate OnStream(a: Arrival, s: StreamId) {
    a.frame.Fragment? && a.frame.header.Some? && a.frame.header.value.stream == s
  }

  /** The arrivals that belong to stream `s`. */
  function Only(es: seq<Arrival>, s: StreamId): (r: seq<Arrival>)
    ensures forall i :: 0 <= i < |r| ==> OnStream(r[i], s)
  {
    if es == [] then []
    else Only(es[..|es| - 1], s) + (if OnStream(es[|es| - 1], s) then [es[|es| - 1]] else [])
  }

  /** The messages that were reassembled from stream `s`. */
  function EmittedFor(log: seq<Message>, s: StreamId): seq<Message> {
    if log == [] then []
    else EmittedFor(log[..|log| - 1], s) + (if log[|log| - 1].stream == Some(s) then [log[|log| - 1]] else [])
  }

  lemma EmittedSnoc(log: seq<Message>, m: Message, s: StreamId)
    ensures EmittedFor(log + [m], s) == EmittedFor(log, s) + (if m.stream == Some(s) then [m] else [])
  {
    assert (log + [m])[..|log + [m]| - 1] == log;
  }

  /** The clock does not run backwards from frame to frame. */
  ghost predicate Clock(es: seq<Arrival>) {
    forall i, j :: 0 <= i < j < |es| ==> es[i].at <= es[j].at
  }

  // ---------------------------------------------------------------------------
  // One stream on its own
  // ---------------------------------------------------------------------------

  /** A stream served alone: its open buffer and what it emitted. */
  datatype Lane = Lane(open: Option<Buf>, log: seq<Message>) | Broken

  function Refreshed(lim: Limits, open: Option<Buf>, now: nat): Option<Buf> {
    if open.Some? && Stale(lim, open.value, now) then None else open
  }

  /** Frames of other streams pass a lane by. */
  function LaneStep(lim: Limits, s: StreamId, l: Lane, a: Arrival): Lane {
    if l.Broken? || !OnStream(a, s) then l
    else
      var h := a.frame.header.value;
      if !ValidHeader(h) then Broken
      else
        match Absorb(lim, Refreshed(lim, l.open, a.at), h, a.frame.target, a.frame.data, a.openAt)
        case Refused => Broken
        case Kept(b) => Lane(Some(b), l.log)
        case Complete(msg) => if a.accepted then Lane(None, l.log + [msg]) else Broken
  }

  function LaneRun(lim: Limits, s: StreamId, es: seq<Arrival>): Lane {
    if es == [] then Lane(None, []) else LaneStep(lim, s, LaneRun(lim, s, es[..|es| - 1]), es[|es| - 1])
  }

  lemma {:induction false} LaneRunOnly(lim: Limits, s: StreamId, es: seq<Arrival>)
    ensures LaneRun(lim, s, Only(es, s)) == LaneRun(lim, s, es)
  {
    if es != [] {
      var before, a := es[..|es| - 1], es[|es| - 1];
      LaneRunOnly(lim, s, before);
      if OnStream(a, s) {
        assert Only(es, s)[..|Only(es, s)| - 1] == Only(before, s);
      } else {
        assert Only(es, s) == Only(before, s);
      }
    }
  }

  // ---------------------------------------------------------------------------
  // The connection projects onto each lane
  // ---------------------------------------------------------------------------

  /** The connection prunes on every frame, the lane only on its own: the lane may still hold
      a buffer the connection has dropped, but then the buffer is stale for good. */
  ghost predicate Tracks(lim: Limits, bufs: map<StreamId, Buf>, open: Option<Buf>, s: StreamId, now: nat) {
    && (s in bufs ==> open == Some(bufs[s]))
    && (s !in bufs && open.Some? ==> Stale(lim, open.value, now))
  }

  ghost predicate Projects(lim: Limits, c: Conn, l: Lane, s: StreamId, now: nat) {
    c.Alive? ==> l.Lane? && Tracks(lim, c.bufs, l.open, s, now) && l.log == EmittedFor(c.log, s)
  }

  lemma ProjectsOwn(lim: Limits, c: Conn, l: Lane, s: StreamId, now: nat, a: Arrival)
    requires Projects(lim, c, l, s, now) && now <= a.at && OnStream(a, s)
    ensures Projects(lim, Step(lim, c, a), LaneStep(lim, s, l, a), s, a.at)
  {
    hide Absorb, EmittedFor;
    if Step(lim, c, a).Alive? {
      var h, bufs := a.frame.header.value, Prune(lim, c.bufs, a.at);
      assert Lookup(bufs, s) == Refreshed(lim, l.open, a.at);
      var r := Absorb(lim, Lookup(bufs, s), h, a.frame.target, a.frame.data, a.openAt);
      if r.Complete? {
        EmittedSnoc(c.log, r.msg, s);
        CompleteIsTagged(lim, Lookup(bufs, s), h, a.frame.target, a.frame.data, a.openAt);
      }
    }
  }

  lemma CompleteIsTagged(lim: Limits, open: Option<Buf>, h: Header, target: Target, data: Bytes, openAt: nat)
    ensures var r := Absorb(lim, open, h, target, data, openAt); r.Complete? ==> r.msg.stream == Some(h.stream)
  {
  }

  lemma ProjectsOther(lim: Limits, c: Conn, l: Lane, s: StreamId, now: nat, a: Arrival)
    requires Projects(lim, c, l, s, now) && now <= a.at && !OnStream(a, s)
    ensures Projects(lim, Step(lim, c, a), l, s, a.at)
  {
    hide Absorb, EmittedFor;
    var d := Step(lim, c, a);
    if d.Alive? {
      var bufs := Prune(lim, c.bufs, a.at);
      assert Tracks(lim, bufs, l.open, s, a.at);
      if a.frame.Plain? {
        EmittedSnoc(c.log, Message(None, a.frame.target, a.frame.payload), s);
      } else {
        var h := a.frame.header.value;
        var r := Absorb(lim, Lookup(bufs, h.stream), h, a.frame.target, a.frame.data, a.openAt);
        CompleteIsTagged(lim, Lookup(bufs, h.stream), h, a.frame.target, a.frame.data, a.openAt);
        if r.Complete? {
          EmittedSnoc(c.log, r.msg, s);
        }
      }
    }
  }

  function LastTime(es: seq<Arrival>): nat {
    if es == [] then 0 else es[|es| - 1].at
  }

  lemma {:induction false} RunProjects(lim: Limits, es: seq<Arrival>, s: StreamId)
    requires Clock(es)
    ensures Projects(lim, Run(lim, es), LaneRun(lim, s, es), s, LastTime(es))
  {
    if es != [] {
      var before, a := es[..|es| - 1], es[|es| - 1];
      RunProjects(lim, before, s);
      assert LastTime(before) <= a.at;
      var c, l := Run(lim, before), LaneRun(lim, s, before);
      if OnStream(a, s) {
        ProjectsOwn(lim, c, l, s, LastTime(before), a);
      } else {
        ProjectsOther(lim, c, l, s, LastTime(before), a);
      }
    }
  }

  // ---------------------------------------------------------------------------
  // Serving a lane through the connection
  // ---------------------------------------------------------------------------

  function Holding(s: StreamId, open: Option<Buf>): map<StreamId, Buf> {
    if open.Some? then map[s := open.value] else map[]
  }

  function AsConn(s: StreamId, l: Lane): Conn {
    if l.Broken? then Gone else Alive(Holding(s, l.open), l.log)
  }

  lemma SoloPrune(lim: Limits, s: StreamId, open: Option<Buf>, now: nat)
    ensures Prune(lim, Holding(s, open), now) == Holding(s, Refreshed(lim, open, now))
  {
  }

  lemma HoldingUpdates(s: StreamId, open: Option<Buf>, b: Buf)
    ensures Lookup(Holding(s, open), s) == open
    ensures Holding(s, open)[s := b] == Holding(s, Some(b))
    ensures Holding(s, open) - {s} == Holding(s, None)
  {
  }

  lemma SoloStep(lim: Limits, s: StreamId, l: Lane, a: Arrival)
    requires OnStream(a, s) && lim.maxStreams > 0
    ensures Step(lim, AsConn(s, l), a) == AsConn(s, LaneStep(lim, s, l, a))
  {
    if l.Lane? {
      SoloPrune(lim, s, l.open, a.at);
      var now := Refreshed(lim, l.open, a.at);
      assert now.None? ==> |Holding(s, now)| == 0 && s !in Holding(s, now);
      assert now.Some? ==> s in Holding(s, now);
      var r := Absorb(lim, now, a.frame.header.value, a.frame.target, a.frame.data, a.openAt);
      HoldingUpdates(s, now, if r.Kept? then r.buf else Fresh(a.frame.header.value, a.frame.target, a.openAt));
      hide Absorb, Prune, Holding, Refreshed, Lookup;
    }
  }

  /** With room for a stream, the connection serves a lone lane faithfully. */
  lemma {:induction false} SoloRun(lim: Limits, s: StreamId, es: seq<Arrival>)
    requires forall i :: 0 <= i < |es| ==> OnStream(es[i], s)
    requires lim.maxStreams > 0
    ensures Run(lim, es) == AsConn(s, LaneRun(lim, s, es))
  {
    if es != [] {
      var before, a := es[..|es| - 1], es[|es| - 1];
      SoloRun(lim, s, before);
      SoloStep(lim, s, LaneRun(lim, s, before), a);
    }
  }

  /** Without room for any stream, a live connection has seen no valid fragment. */
  lemma {:induction false} NoRoomNoStreams(lim: Limits, s: StreamId, es: seq<Arrival>)
    requires lim.maxStreams == 0 && Run(lim, es).Alive?
    ensures Only(es, s) == [] && Run(lim, es).bufs == map[]
  {
    if es != [] {
      NoRoomNoStreams(lim, s, es[..|es| - 1]);
    }
  }

  /** As long as the connection lives, each stream is independent: the connection would also
      live if only this stream's frames arrived, and it would emit exactly the same messages
      for it. */
  lemma StreamsAreIndependent(lim: Limits, es: seq<Arrival>, s: StreamId)
    requires Clock(es) && Run(lim, es).Alive?
    ensures Run(lim, Only(es, s)).Alive?
    ensures Run(lim, Only(es, s)).log == EmittedFor(Run(lim, es).log, s)
  {
    RunProjects(lim, es, s);
    hide Run, LaneRun, Only, Clock, Tracks;
    if lim.maxStreams == 0 {
      NoRoomNoStreams(lim, s, es);
      LaneRunOnly(lim, s, es);
      NothingRun(lim, s);
    } else {
      SoloRun(lim, s, Only(es, s));
      LaneRunOnly(lim, s, es);
    }
  }

  lemma NothingRun(lim: Limits, s: StreamId)
    ensures Run(lim, []) == Alive(map[], []) && LaneRun(lim, s, []) == Lane(None, [])
  {
  }
}
