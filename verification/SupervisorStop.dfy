/** When an explicit stop is terminal. */
module SupervisorStop {
  import opened SupervisorModel
  import opened SupervisorRuns

  predicate NoStart(es: seq<Event>, id: Plugin) {
    forall i :: 0 <= i < |es| && es[i].Start? ==> es[i].config.id != id
  }

  /** Something under way, the spawns in `own` apart, will register the plugin without a further
      start. */
  ghost predicate OthersReturning(s: State, id: Plugin, own: set<nat>) {
    || (exists x :: x in s.spawning && s.spawning[x].config.id == id && x !in own)
    || (s.monitor.Backoff? && s.monitor.launch.config.id == id && !StoppedAt(s, id, s.monitor.launch.parent))
  }

  ghost predicate Returning(s: State, id: Plugin) {
    OthersReturning(s, id, {})
  }

  predicate Keyed(s: State) {
    forall p :: p in s.entries ==> s.entries[p].config.id == p
  }

  lemma StepKeyed(s: State, e: Event)
    requires Keyed(s)
    ensures Keyed(Step(s, e))
  {
    hide WantsRestart, Current, StoppedAt;
  }

  lemma QuietDecide(s: State, id: Plugin, own: set<nat>)
    requires Keyed(s) && id !in s.entries && !OthersReturning(s, id, own) && s.queue != [] && s.monitor.Waiting?
    ensures id !in OnDecide(s).entries && !OthersReturning(OnDecide(s), id, own)
  {
    hide WantsRestart, StoppedAt;
    var t := OnDecide(s);
    assert t.spawning == s.spawning;
    assert t.monitor.Backoff? ==> t.monitor.launch.config.id == s.queue[0].id && s.queue[0].id in s.entries;
  }

  lemma QuietStep(s: State, e: Event, id: Plugin, own: set<nat>)
    requires Keyed(s) && id !in s.entries && !OthersReturning(s, id, own)
    requires e.Start? ==> e.config.id != id
    requires e.Spawned? ==> e.epoch !in own
    ensures id !in Step(s, e).entries && !OthersReturning(Step(s, e), id, own)
  {
    match e
    case Decide =>
      if Enabled(s, e) {
        hide OthersReturning, Keyed, OnDecide;
        QuietDecide(s, id, own);
      }
    case Wake =>
    case Spawned(_, _) =>
    case Stop(_) =>
    case _ =>
  }

  lemma QuietRun(s: State, es: seq<Event>, id: Plugin)
    requires Keyed(s) && id !in s.entries && !Returning(s, id) && NoStart(es, id)
    ensures Keyed(RunFrom(s, es)) && id !in RunFrom(s, es).entries && !Returning(RunFrom(s, es), id)
  {
    if es != [] {
      hide OthersReturning, Step, Keyed;
      var before, e := es[..|es| - 1], es[|es| - 1];
      QuietRun(s, before, id);
      StepKeyed(RunFrom(s, before), e);
      QuietStep(RunFrom(s, before), e, id, {});
    }
  }

  /** How the plugin comes back, as a live instance. */
  lemma Comeback(s: State, id: Plugin, own: set<nat>) returns (es: seq<Event>)
    requires OthersReturning(s, id, own) && s.lastEpoch + 1 !in own
    ensures NoStart(es, id) && id in RunFrom(s, es).entries && RunFrom(s, es).entries[id].epoch in RunFrom(s, es).live
    ensures forall x :: x in own && x in s.spawning ==> x in RunFrom(s, es).spawning
  {
    if x :| x in s.spawning && s.spawning[x].config.id == id && x !in own {
      es := [Spawned(x, true)];
      RunOne(s, Spawned(x, true));
    } else {
      es := [Wake, Spawned(s.lastEpoch + 1, true)];
      RunTwo(s, Wake, Spawned(s.lastEpoch + 1, true));
    }
  }

  /** After a plugin left the table it stays out of it, whatever happens short of a new start, if
      and only if no spawn of it is under way and no backoff of it goes uncancelled. */
  lemma StaysOutIff(s: State, id: Plugin)
    requires Keyed(s) && id !in s.entries
    ensures (forall es :: NoStart(es, id) ==> id !in RunFrom(s, es).entries) <==> !Returning(s, id)
  {
    if Returning(s, id) {
      var es := Comeback(s, id, {});
    } else {
      forall es | NoStart(es, id) ensures id !in RunFrom(s, es).entries {
        QuietRun(s, es, id);
      }
    }
  }

  /** In every run, a stop of a registered plugin is terminal if and only if, at that moment, no
      other spawn of the plugin is under way and the monitor is not in the backoff of another of
      its instances. */
  lemma StopIsTerminalIff(past: seq<Event>, id: Plugin)
    requires id in Run(past).entries
    ensures var s := Run(past);
            (forall es :: NoStart(es, id) ==> id !in RunFrom(Step(s, Stop(id)), es).entries)
            <==>
            && (forall x :: x in s.spawning ==> s.spawning[x].config.id != id)
            && (s.monitor.Backoff? && s.monitor.launch.config.id == id ==> s.monitor.launch.parent == s.entries[id].epoch)
  {
    RunMatches(past);
    StaysOutIff(Step(Run(past), Stop(id)), id);
  }

  // ---------------------------------------------------------------------------
  // Reachable runs in which a stopped plugin comes back
  // ---------------------------------------------------------------------------

  const C: Config := Config("p", Always, 3)

  /** The exit of instance 1 is decided on, then the plugin is stopped, started and stopped again
      during the backoff. The second stop overwrites the record of the first. */
  const TwoStops: seq<Event> :=
    [Start(C), Spawned(1, true), Exits(1, false), Decide, Stop("p"), Start(C), Spawned(2, true), Stop("p"), Wake, Spawned(3, true)]

  /** The state in the backoff after one more stop, of instance `n`. */
  function Asleep(n: nat): State {
    State(map[], {}, map["p" := n], map[], n, map[], map[], [], Backoff(Launch(C, 1, 1, false)))
  }

  lemma FirstExit()
    ensures Run(TwoStops[..3])
         == State(map["p" := Entry(C, 0, 1)], {}, map[], map[], 1, map[], map[], [Exit("p", 1, false)], Waiting)
  {
    var es := TwoStops;
    Prefix(es, 0);
    Prefix(es, 1);
    assert Run(es[..2]) == State(map["p" := Entry(C, 0, 1)], {}, map[], map[], 1, map[], map[1 := "p"], [], Waiting);
    Prefix(es, 2);
  }

  lemma FirstStop()
    ensures Run(TwoStops[..5]) == Asleep(1)
  {
    var es := TwoStops;
    FirstExit();
    Prefix(es, 3);
    Prefix(es, 4);
  }

  lemma SecondStop()
    ensures Run(TwoStops[..8]) == Asleep(2).(live := map[2 := "p"])
  {
    var es := TwoStops;
    FirstStop();
    Prefix(es, 5);
    assert Run(es[..6]) == Asleep(1).(lastEpoch := 2, spawning := map[2 := Launch(C, 0, 0, false)]);
    Prefix(es, 6);
    assert Run(es[..7]) == Asleep(1).(lastEpoch := 2, entries := map["p" := Entry(C, 0, 2)], live := map[2 := "p"]);
    Prefix(es, 7);
  }

  /** A run with two stops and no start after them that ends with the plugin registered again. */
  lemma SecondStopUndoesFirst()
    ensures TwoStops[4] == Stop("p") && "p" !in Run(TwoStops[..5]).entries
    ensures TwoStops[7] == Stop("p") && "p" !in Run(TwoStops[..8]).entries
    ensures NoStart(TwoStops[8..], "p")
    ensures "p" in Run(TwoStops).entries && Run(TwoStops).entries["p"] == Entry(C, 1, 3)
  {
    var es := TwoStops;
    FirstStop();
    SecondStop();
    Prefix(es, 8);
    Prefix(es, 9);
    assert es[..10] == es;
  }

  lemma Prefix(es: seq<Event>, i: nat)
    requires i < |es|
    ensures Run(es[..i + 1]) == Step(Run(es[..i]), es[i])
  {
    assert es[..i + 1] == es[..i] + [es[i]];
    RunSnoc(Init(), es[..i], es[i]);
  }
}
