/** The supervisor's side tables told from the events: marks, recorded stops, queued exits and final
    counts. */
module SupervisorHistory {
  import opened Collections
  import opened SupervisorModel
  import opened SupervisorOrphans
  import opened SupervisorRespawn
  import opened SupervisorRuns

  // ---------------------------------------------------------------------------
  // Marks
  // ---------------------------------------------------------------------------

  predicate Takes(s: State, e: Event, id: Plugin) {
    e.Decide? && Enabled(s, e) && s.queue[0].id == id
  }

  /** Of the restarts and stops of the registered plugin and the exits of it that were taken up, the
      last is a restart. */
  predicate Asked(es: seq<Event>, id: Plugin) {
    es != [] &&
    var s, e := Run(es[..|es| - 1]), es[|es| - 1];
    if id in s.entries && e == Restart(id) then true
    else if (id in s.entries && e == Stop(id)) || Takes(s, e, id) then false
    else Asked(es[..|es| - 1], id)
  }

  lemma StepForced(s: State, e: Event, id: Plugin)
    ensures id in Step(s, e).forced <==>
      if id in s.entries && e == Restart(id) then true
      else if (id in s.entries && e == Stop(id)) || Takes(s, e, id) then false
      else id in s.forced
  {
    if e.Decide? && Enabled(s, e) {
      DecideMonitor(s);
    }
    hide OnDecide, StoppedAt;
  }

  /** In every run a plugin is marked for a restart if and only if one was asked for since it was last
      stopped and since an exit of it was last taken up. */
  lemma MarkedIffAsked(es: seq<Event>, id: Plugin)
    ensures id in Run(es).forced <==> Asked(es, id)
  {
    if es != [] {
      hide Step, Takes;
      MarkedIffAsked(es[..|es| - 1], id);
      StepForced(Run(es[..|es| - 1]), es[|es| - 1], id);
    }
  }

  // ---------------------------------------------------------------------------
  // Exits
  // ---------------------------------------------------------------------------

  /** The exits of the run, in order, with the plugin and the outcome. */
  function Exited(es: seq<Event>): seq<Exit> {
    if es == [] then []
    else
      var s, e := Run(es[..|es| - 1]), es[|es| - 1];
      Exited(es[..|es| - 1]) + if e.Exits? && e.epoch in s.live then [Exit(s.live[e.epoch], e.epoch, e.success)] else []
  }

  /** How many of them were taken up. */
  function TakenUp(es: seq<Event>): nat {
    if es == [] then 0
    else
      var s, e := Run(es[..|es| - 1]), es[|es| - 1];
      TakenUp(es[..|es| - 1]) + if e == Decide && s.monitor.Waiting? && s.queue != [] then 1 else 0
  }

  lemma StepQueue(s: State, e: Event)
    ensures Step(s, e).queue ==
      if e.Exits? && e.epoch in s.live then s.queue + [Exit(s.live[e.epoch], e.epoch, e.success)]
      else if e == Decide && s.monitor.Waiting? && s.queue != [] then s.queue[1..]
      else s.queue
  {
    if e.Decide? && Enabled(s, e) {
      DecideMonitor(s);
    }
    hide OnDecide, StoppedAt;
  }

  /** In every run the exits are taken up one by one in the order in which they happened, each with
      the outcome it had, and the rest is still queued. */
  lemma {:induction false} ExitsInOrder(es: seq<Event>)
    ensures TakenUp(es) <= |Exited(es)| && Run(es).queue == Exited(es)[TakenUp(es)..]
  {
    if es != [] {
      hide Step;
      ExitsInOrder(es[..|es| - 1]);
      StepQueue(Run(es[..|es| - 1]), es[|es| - 1]);
    }
  }

  // ---------------------------------------------------------------------------
  // Recorded stops and final counts
  // ---------------------------------------------------------------------------

  /** The instance that the last stop of the plugin took out. */
  function LastStopped(es: seq<Event>, id: Plugin): Option<nat> {
    if es == [] then None
    else
      var s, e := Run(es[..|es| - 1]), es[|es| - 1];
      if e == Stop(id) && id in s.entries then Some(s.entries[id].epoch) else LastStopped(es[..|es| - 1], id)
  }

  predicate Drops(s: State, e: Event, id: Plugin) {
    e == Drop && s.monitor.Dropping? && s.monitor.plugin == id
  }

  /** The restarts behind the instance that the last drop of the plugin took out, 0 if there was none
      to take out. */
  function LastDropped(es: seq<Event>, id: Plugin): Option<nat> {
    if es == [] then None
    else
      var s, e := Run(es[..|es| - 1]), es[|es| - 1];
      if Drops(s, e, id) then
        Some(if id in s.entries && 0 < s.entries[id].epoch <= |Launches(es[..|es| - 1])|
             then Restarts(Launches(es[..|es| - 1]), s.entries[id].epoch) else 0)
      else LastDropped(es[..|es| - 1], id)
  }

  lemma StepTables(s: State, e: Event, id: Plugin)
    ensures var t := Step(s, e);
            && (if e == Stop(id) && id in s.entries then id in t.stopped && t.stopped[id] == s.entries[id].epoch
                else (id in t.stopped <==> id in s.stopped) && (id in s.stopped ==> t.stopped[id] == s.stopped[id]))
            && (if Drops(s, e, id) then
                  id in t.finalCounts && t.finalCounts[id] == (if id in s.entries then s.entries[id].restarts else 0)
                else
                  (id in t.finalCounts <==> id in s.finalCounts)
                  && (id in s.finalCounts ==> t.finalCounts[id] == s.finalCounts[id]))
  {
    DecideSpawnsNothing(s);
    DecideCountsNothing(s);
    hide OnDecide, StoppedAt;
  }

  lemma DecideCountsNothing(s: State)
    ensures s.queue != [] ==> OnDecide(s).finalCounts == s.finalCounts
  {
    hide WantsRestart, Current, StoppedAt;
  }

  /** In every run the recorded stop of a plugin is the instance that its last stop took out. */
  lemma {:induction false} StopsAreRecorded(es: seq<Event>, id: Plugin)
    ensures id in Run(es).stopped <==> LastStopped(es, id).Some?
    ensures id in Run(es).stopped ==> Run(es).stopped[id] == LastStopped(es, id).value
  {
    if es != [] {
      hide Step, Drops;
      StopsAreRecorded(es[..|es| - 1], id);
      StepTables(Run(es[..|es| - 1]), es[|es| - 1], id);
    }
  }

  /** In every run the final count kept for a plugin is the number of restarts behind the instance
      that its last drop took out. */
  lemma {:induction false} FinalCountsAreRestarts(es: seq<Event>, id: Plugin)
    ensures id in Run(es).finalCounts <==> LastDropped(es, id).Some?
    ensures id in Run(es).finalCounts ==> Run(es).finalCounts[id] == LastDropped(es, id).value
  {
    if es != [] {
      hide Step, Drops, Launches, Restarts, PolicyRestarts;
      var before := es[..|es| - 1];
      FinalCountsAreRestarts(before, id);
      StepTables(Run(before), es[|es| - 1], id);
      if id in Run(before).entries {
        CountsAreRestarts(before, id);
      }
    }
  }
}
