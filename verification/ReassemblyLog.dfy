/** Everything a connection emits, in order, and exactly which runs it survives. */
module ReassemblyLog {
  import opened Collections
  import opened Reassembly
  import opened ReassemblyExact
  import opened ReassemblyStreams

  // ---------------------------------------------------------------------------
  // The whole log
  // ---------------------------------------------------------------------------

  /** The message a stream completes with its frame `a`, if any, by the reference. */
  function Completed(lim: Limits, before: seq<Arrival>, a: Arrival, s: StreamId): seq<Message> {
    var was, now := RefRun(lim, s, before), RefRun(lim, s, before + [a]);
    if was.Ref? && now.Ref? && |now.log| > |was.log| then [now.log[|now.log| - 1]] else []
  }

  /** What one frame adds: itself when it is not a fragment, or the message it completes. */
  function Adds(lim: Limits, before: seq<Arrival>, a: Arrival): seq<Message> {
    match a.frame
    case Unreadable => []
    case Plain(target, payload) => [Message(None, target, payload)]
    case Fragment(header, _, _) => if header.Some? then Completed(lim, before, a, header.value.stream) else []
  }

  function RefLog(lim: Limits, es: seq<Arrival>): seq<Message> {
    if es == [] then [] else RefLog(lim, es[..|es| - 1]) + Adds(lim, es[..|es| - 1], es[|es| - 1])
  }

  predicate AllSized(es: seq<Arrival>) {
    forall i :: 0 <= i < |es| ==> Sized(es[i])
  }

  /** A step of a connection that survives it adds one message, or none. */
  lemma StepLog(lim: Limits, c: Conn, a: Arrival)
    requires Step(lim, c, a).Alive?
    ensures var d := Step(lim, c, a);
            match a.frame
            case Unreadable => false
            case Plain(target, payload) => a.accepted && d.log == c.log + [Message(None, target, payload)]
            case Fragment(header, _, _) =>
              header.Some?
              && (d.log == c.log
                  || (|d.log| == |c.log| + 1 && d.log[..|c.log|] == c.log && d.log[|c.log|].stream == Some(header.value.stream)))
  {
    hide Absorb, Prune;
    if a.frame.Fragment? {
      var h, bufs := a.frame.header.value, Prune(lim, c.bufs, a.at);
      CompleteIsTagged(lim, Lookup(bufs, h.stream), h, a.frame.target, a.frame.data, a.openAt);
    }
  }

  lemma FragmentAdds(lim: Limits, es: seq<Arrival>, s: StreamId)
    requires es != [] && Clock(es) && AllSized(es) && Run(lim, es).Alive? && OnStream(es[|es| - 1], s)
    requires Run(lim, es[..|es| - 1]).Alive? && Clock(es[..|es| - 1])
    ensures Run(lim, es).log == Run(lim, es[..|es| - 1]).log + Completed(lim, es[..|es| - 1], es[|es| - 1], s)
  {
    hide RefRun, Run, Clock, Step, LaneRun, LaneStep, EmittedFor;
    var before, a := es[..|es| - 1], es[|es| - 1];
    LastFrame(lim, s, es);
    StepLog(lim, Run(lim, before), a);
    EmissionsAreExact(lim, before, s);
    EmissionsAreExact(lim, es, s);
    assert before + [a] == es;
    var was, now := Run(lim, before).log, Run(lim, es).log;
    if now != was {
      assert now == was + [now[|was|]];
      EmittedSnoc(was, now[|was|], s);
    }
  }

  /** In every run that a connection survives, what it emits is, in arrival order, each plain frame
      as it came and each reassembled message at the frame that completes it. */
  lemma {:induction false} LogIsExact(lim: Limits, es: seq<Arrival>)
    requires Clock(es) && AllSized(es) && Run(lim, es).Alive?
    ensures Run(lim, es).log == RefLog(lim, es)
  {
    if es != [] {
      var before, a := es[..|es| - 1], es[|es| - 1];
      assert Clock(before);
      StepLog(lim, Run(lim, before), a);
      hide Completed;
      LogIsExact(lim, before);
      if a.frame.Fragment? {
        FragmentAdds(lim, es, a.frame.header.value.stream);
      }
    }
  }

  // ---------------------------------------------------------------------------
  // Plain frames
  // ---------------------------------------------------------------------------

  function PlainFrames(es: seq<Arrival>): seq<Message> {
    if es == [] then []
    else
      var f := es[|es| - 1].frame;
      PlainFrames(es[..|es| - 1]) + if f.Plain? then [Message(None, f.target, f.payload)] else []
  }

  function Unfragmented(log: seq<Message>): seq<Message> {
    if log == [] then []
    else Unfragmented(log[..|log| - 1]) + if log[|log| - 1].stream == None then [log[|log| - 1]] else []
  }

  lemma UnfragmentedSnoc(log: seq<Message>, m: Message)
    ensures Unfragmented(log + [m]) == Unfragmented(log) + if m.stream == None then [m] else []
  {
    assert (log + [m])[..|log + [m]| - 1] == log;
  }

  lemma PlainFrameAdds(lim: Limits, c: Conn, a: Arrival)
    requires Step(lim, c, a).Alive?
    ensures var was, now := c.log, Step(lim, c, a).log;
            Unfragmented(now) == Unfragmented(was) + if a.frame.Plain? then [Message(None, a.frame.target, a.frame.payload)] else []
    ensures a.frame.Plain? ==> a.accepted
  {
    StepLog(lim, c, a);
    var was, now := c.log, Step(lim, c, a).log;
    hide Step, Unfragmented;
    if now != was {
      assert now == was + [now[|was|]];
      UnfragmentedSnoc(was, now[|was|]);
    }
  }

  lemma {:induction false} PlainFramesTaken(lim: Limits, es: seq<Arrival>)
    requires Run(lim, es).Alive?
    ensures Unfragmented(Run(lim, es).log) == PlainFrames(es)
    ensures forall a :: a in es && a.frame.Plain? ==> a.accepted
  {
    hide Step, Unfragmented;
    if es == [] {
      NothingPlain();
    } else {
      var before, a := es[..|es| - 1], es[|es| - 1];
      AliveBefore(lim, Run(lim, before), a);
      PlainFramesTaken(lim, before);
      PlainFrameAdds(lim, Run(lim, before), a);
      assert es == before + [a];
      hide Run, PlainFrames;
    }
  }

  lemma NothingPlain()
    ensures Unfragmented([]) == []
  {
  }

  /** In every run that a connection survives, the plain frames come out unchanged, in order, each
      once, and the router took all of them. */
  lemma PlainFramesPass(lim: Limits, es: seq<Arrival>)
    requires Run(lim, es).Alive?
    ensures Unfragmented(Run(lim, es).log) == PlainFrames(es)
    ensures forall i :: 0 <= i < |es| && es[i].frame.Plain? ==> es[i].accepted
  {
    hide Run, PlainFrames, Unfragmented;
    PlainFramesTaken(lim, es);
  }

  lemma AliveBefore(lim: Limits, c: Conn, a: Arrival)
    requires Step(lim, c, a).Alive?
    ensures c.Alive?
  {
  }

  // ---------------------------------------------------------------------------
  // Survival
  // ---------------------------------------------------------------------------

  function Streams(es: seq<Arrival>): set<StreamId> {
    set a | a in es && a.frame.Fragment? && a.frame.header.Some? :: a.frame.header.value.stream
  }

  /** By the reference, the stream has a message under way that is not timed out at `at`. */
  predicate UnderWay(lim: Limits, es: seq<Arrival>, s: StreamId, at: nat) {
    var r := RefRun(lim, s, es);
    r.Ref? && r.open.Some? && !Expired(lim, r.open.value, at)
  }

  function StreamsUnderWay(lim: Limits, es: seq<Arrival>, at: nat): set<StreamId> {
    set s | s in Streams(es) && UnderWay(lim, es, s, at)
  }

  /** The frame does not end the connection: it can be read, the router takes what it brings, its
      stream accepts it, and there is room for its stream. */
  predicate Admissible(lim: Limits, before: seq<Arrival>, a: Arrival) {
    match a.frame
    case Unreadable => false
    case Plain(_, _) => a.accepted
    case Fragment(header, _, _) =>
      header.Some? &&
      var s := header.value.stream;
      RefRun(lim, s, before + [a]).Ref?
      && (UnderWay(lim, before, s, a.at) || |StreamsUnderWay(lim, before, a.at)| < lim.maxStreams)
  }

  predicate Survives(lim: Limits, es: seq<Arrival>) {
    es == [] || (Survives(lim, es[..|es| - 1]) && Admissible(lim, es[..|es| - 1], es[|es| - 1]))
  }

  lemma {:induction false} OpenIsKnown(lim: Limits, es: seq<Arrival>, s: StreamId)
    requires RefRun(lim, s, es).Ref? && RefRun(lim, s, es).open.Some?
    ensures s in Streams(es)
  {
    var before, a := es[..|es| - 1], es[|es| - 1];
    assert es == before + [a];
    if OnStream(a, s) {
      assert a in es;
    } else {
      OpenIsKnown(lim, before, s);
      assert forall x :: x in before ==> x in es;
    }
  }

  /** After pruning, the buffers of a live connection are those of the streams under way. */
  lemma BuffersAre(lim: Limits, es: seq<Arrival>, at: nat, s: StreamId)
    requires Clock(es) && AllSized(es) && Run(lim, es).Alive? && LastTime(es) <= at
    ensures s in Prune(lim, Run(lim, es).bufs, at) <==> UnderWay(lim, es, s, at)
    ensures LaneRun(lim, s, es).Lane?
    ensures Lookup(Prune(lim, Run(lim, es).bufs, at), s) == Refreshed(lim, LaneRun(lim, s, es).open, at)
  {
    RunProjects(lim, es, s);
    LaneAgreesRun(lim, s, es);
    hide Run, LaneRun, RefRun, Clock, BufOk, Table;
  }

  lemma BuffersCount(lim: Limits, es: seq<Arrival>, at: nat)
    requires Clock(es) && AllSized(es) && Run(lim, es).Alive? && LastTime(es) <= at
    ensures |Prune(lim, Run(lim, es).bufs, at)| == |StreamsUnderWay(lim, es, at)|
  {
    hide UnderWay, Prune, Run;
    var p := Prune(lim, Run(lim, es).bufs, at);
    forall s ensures s in p <==> s in StreamsUnderWay(lim, es, at) {
      BuffersAre(lim, es, at, s);
      if UnderWay(lim, es, s, at) {
        UnderWayIsKnown(lim, es, s, at);
      }
    }
    assert p.Keys == StreamsUnderWay(lim, es, at);
    assert |p| == |p.Keys|;
  }

  lemma UnderWayIsKnown(lim: Limits, es: seq<Arrival>, s: StreamId, at: nat)
    requires UnderWay(lim, es, s, at)
    ensures s in Streams(es)
  {
    OpenIsKnown(lim, es, s);
  }

  predicate Absorbs(r: Absorbed, accepted: bool) {
    !r.Refused? && (r.Complete? ==> accepted)
  }

  lemma StepSurvives(lim: Limits, c: Conn, a: Arrival, s: StreamId)
    requires c.Alive? && OnStream(a, s)
    ensures var h, bufs := a.frame.header.value, Prune(lim, c.bufs, a.at);
            Step(lim, c, a).Alive?
            <==>
            && ValidHeader(h) && (s in bufs || |bufs| < lim.maxStreams)
            && Absorbs(Absorb(lim, Lookup(bufs, s), h, a.frame.target, a.frame.data, a.openAt), a.accepted)
  {
    hide Prune, Absorb;
  }

  lemma LaneSurvives(lim: Limits, s: StreamId, l: Lane, a: Arrival)
    requires l.Lane? && OnStream(a, s)
    ensures var h := a.frame.header.value;
            LaneStep(lim, s, l, a).Lane?
            <==>
            && ValidHeader(h)
            && Absorbs(Absorb(lim, Refreshed(lim, l.open, a.at), h, a.frame.target, a.frame.data, a.openAt), a.accepted)
  {
    hide Absorb;
  }

  lemma LastFrame(lim: Limits, s: StreamId, es: seq<Arrival>)
    requires es != []
    ensures Run(lim, es) == Step(lim, Run(lim, es[..|es| - 1]), es[|es| - 1])
    ensures LaneRun(lim, s, es) == LaneStep(lim, s, LaneRun(lim, s, es[..|es| - 1]), es[|es| - 1])
  {
    hide Step, LaneStep;
  }

  lemma BrokenTogether(lim: Limits, s: StreamId, es: seq<Arrival>)
    requires AllSized(es)
    ensures LaneRun(lim, s, es).Lane? <==> RefRun(lim, s, es).Ref?
  {
    LaneAgreesRun(lim, s, es);
  }

  lemma FragmentSurvives(lim: Limits, es: seq<Arrival>, s: StreamId)
    requires es != [] && Clock(es[..|es| - 1]) && AllSized(es) && OnStream(es[|es| - 1], s)
    requires Run(lim, es[..|es| - 1]).Alive? && LastTime(es[..|es| - 1]) <= es[|es| - 1].at
    ensures Run(lim, es).Alive? <==> Admissible(lim, es[..|es| - 1], es[|es| - 1])
  {
    hide Run, LaneRun, RefRun, Step, LaneStep, Prune, Absorb, Absorbs, UnderWay, StreamsUnderWay, Clock, Refreshed, Lookup, ValidHeader;
    var before, a := es[..|es| - 1], es[|es| - 1];
    assert AllSized(before);
    LastFrame(lim, s, es);
    assert before + [a] == es;
    BuffersAre(lim, before, a.at, s);
    BuffersCount(lim, before, a.at);
    BrokenTogether(lim, s, es);
    StepSurvives(lim, Run(lim, before), a, s);
    LaneSurvives(lim, s, LaneRun(lim, s, before), a);
  }

  /** A connection survives a run if and only if every frame of it is admissible after those before:
      readable, taken by the router, accepted by its stream and within the stream cap. */
  lemma {:induction false} SurvivesIff(lim: Limits, es: seq<Arrival>)
    requires Clock(es) && AllSized(es)
    ensures Run(lim, es).Alive? <==> Survives(lim, es)
  {
    if es != [] {
      var before, a := es[..|es| - 1], es[|es| - 1];
      assert Clock(before) && LastTime(before) <= a.at;
      SurvivesIff(lim, before);
      if Run(lim, before).Alive? {
        hide Prune, Absorb, RefRun, Clock;
        if a.frame.Fragment? && a.frame.header.Some? {
          FragmentSurvives(lim, es, a.frame.header.value.stream);
        }
      }
    }
  }
}
