/** Table and processes can part: a drop can hit an instance that did not exit, a start can
    overwrite a live one, and a failed respawn leaves an entry with nothing behind it. When exactly,
    and a run for each. */
module SupervisorOrphans {
  import opened SupervisorModel
  import opened SupervisorPlaces
  import opened SupervisorRuns
  import opened SupervisorStop

  // ---------------------------------------------------------------------------
  // Which instance is registered
  // ---------------------------------------------------------------------------

  predicate Registered(s: State, id: Plugin, x: nat) {
    id in s.entries && s.entries[id].epoch == x
  }

  predicate Inserts(s: State, e: Event, id: Plugin) {
    e.Spawned? && e.ok && e.epoch in s.spawning && s.spawning[e.epoch].config.id == id
  }

  predicate TakesAway(s: State, e: Event, id: Plugin) {
    e == Stop(id) || (e.Drop? && s.monitor.Dropping? && s.monitor.plugin == id)
  }

  /** The last event of the run that inserted or took away an entry of the plugin is the insertion
      of instance `x`. */
  predicate LastInserted(es: seq<Event>, id: Plugin, x: nat) {
    es != [] &&
    var s, e := Run(es[..|es| - 1]), es[|es| - 1];
    if Inserts(s, e, id) then e.epoch == x
    else !TakesAway(s, e, id) && LastInserted(es[..|es| - 1], id, x)
  }

  lemma StepRegisters(s: State, e: Event, id: Plugin, x: nat)
    ensures Registered(Step(s, e), id, x)
      <==> if Inserts(s, e, id) then e.epoch == x else !TakesAway(s, e, id) && Registered(s, id, x)
  {
    DecideSpawnsNothing(s);
    hide OnDecide, StoppedAt;
  }

  lemma RegisteredIffLastInserted(es: seq<Event>, id: Plugin, x: nat)
    ensures Registered(Run(es), id, x) <==> LastInserted(es, id, x)
  {
    if es != [] {
      hide Registered, Inserts, TakesAway, Step;
      RegisteredIffLastInserted(es[..|es| - 1], id, x);
      StepRegisters(Run(es[..|es| - 1]), es[|es| - 1], id, x);
    }
  }

  predicate InsertedAt(es: seq<Event>, i: nat, x: nat) {
    i < |es| && es[i] == Spawned(x, true) && x in Run(es[..i]).spawning
  }

  predicate Displaces(s: State, e: Event, id: Plugin) {
    TakesAway(s, e, id) || Inserts(s, e, id)
  }

  lemma LiveStep(s: State, e: Event, x: nat)
    requires x in Step(s, e).live
    ensures if e == Spawned(x, true) && x in s.spawning then Step(s, e).live[x] == s.spawning[x].config.id
            else x in s.live && s.live[x] == Step(s, e).live[x]
  {
    DecideSpawnsNothing(s);
    hide OnDecide, StoppedAt;
  }

  lemma {:induction false} InsertionOf(es: seq<Event>, x: nat) returns (i: nat)
    requires x in Run(es).live
    ensures InsertedAt(es, i, x) && Run(es[..i]).spawning[x].config.id == Run(es).live[x]
  {
    hide Step;
    var before, e := es[..|es| - 1], es[|es| - 1];
    LiveStep(Run(before), e, x);
    if e == Spawned(x, true) && x in Run(before).spawning {
      i := |before|;
    } else {
      i := InsertionOf(before, x);
      assert es[..i] == before[..i];
    }
  }

  /** Once inserted, an instance is not spawned again. */
  lemma {:induction false} InsertedOnce(es: seq<Event>, i: nat, x: nat)
    requires InsertedAt(es, i, x)
    ensures x !in Run(es).spawning && x <= Run(es).lastEpoch
  {
    var before, e := es[..|es| - 1], es[|es| - 1];
    if i == |before| {
      RunMatches(before);
    } else {
      hide Step;
      assert es[..i] == before[..i];
      InsertedOnce(before, i, x);
      EpochGrows(Run(before), e);
      if x in Step(Run(before), e).spawning {
        SpawnStays(Run(before), e, x);
      }
    }
  }

  lemma {:induction false} SeatedIff(es: seq<Event>, i: nat, x: nat, id: Plugin)
    requires InsertedAt(es, i, x) && Run(es[..i]).spawning[x].config.id == id
    ensures LastInserted(es, id, x) <==> forall j :: i < j < |es| ==> !Displaces(Run(es[..j]), es[j], id)
  {
    hide Step;
    var before, e := es[..|es| - 1], es[|es| - 1];
    if i < |before| {
      assert es[..i] == before[..i];
      SeatedIff(before, i, x, id);
      InsertedOnce(before, i, x);
      assert forall j :: i < j < |before| ==> es[..j] == before[..j];
    }
  }

  /** In every run a live instance is without its entry if and only if, after it was inserted, an
      event took an entry of the plugin away or inserted another. */
  lemma LiveWithoutEntryIff(es: seq<Event>, x: nat)
    requires x in Run(es).live
    ensures var id := Run(es).live[x];
            !Registered(Run(es), id, x)
            <==>
            exists i: nat, j: nat :: InsertedAt(es, i, x) && i < j < |es| && Displaces(Run(es[..j]), es[j], id)
  {
    hide Displaces, Registered, InsertedAt;
    var id := Run(es).live[x];
    RegisteredIffLastInserted(es, id, x);
    var i := InsertionOf(es, x);
    SeatedAt(es, i, x, id);
    forall k: nat, j: nat | InsertedAt(es, k, x) && k < j < |es| && Displaces(Run(es[..j]), es[j], id)
      ensures i < j
    {
      SameInsertion(es, i, k, x);
    }
  }

  lemma SeatedAt(es: seq<Event>, i: nat, x: nat, id: Plugin)
    requires InsertedAt(es, i, x) && Run(es[..i]).spawning[x].config.id == id
    ensures LastInserted(es, id, x) <==> forall j :: i < j < |es| ==> !Displaces(Run(es[..j]), es[j], id)
  {
    SeatedIff(es, i, x, id);
  }

  lemma SameInsertion(es: seq<Event>, i: nat, k: nat, x: nat)
    requires InsertedAt(es, i, x) && InsertedAt(es, k, x)
    ensures i == k
  {
    if i < k {
      assert es[..k][..i] == es[..i];
      InsertedOnce(es[..k], i, x);
    } else if k < i {
      assert es[..i][..k] == es[..k];
      InsertedOnce(es[..i], k, x);
    }
  }

  // ---------------------------------------------------------------------------
  // A drop that hits another instance
  // ---------------------------------------------------------------------------

  /** The plugin is registered, and not with the instance whose exit is being dealt with. */
  predicate Misses(s: State, id: Plugin, x: nat) {
    id in s.entries && s.entries[id].epoch != x
  }

  predicate NoDrop(es: seq<Event>) {
    forall i :: 0 <= i < |es| ==> es[i] != Drop
  }

  predicate Aimed(s: State, id: Plugin, x: nat) {
    && s.monitor == Dropping(id, x) && !Misses(s, id, x)
    && (forall y :: y in s.spawning ==> s.spawning[y].config.id != id)
  }

  lemma AimedStep(s: State, e: Event, id: Plugin, x: nat)
    requires Aimed(s, id, x) && e != Drop && (e.Start? ==> e.config.id != id)
    ensures Aimed(Step(s, e), id, x)
  {
  }

  lemma AimedRun(s: State, es: seq<Event>, id: Plugin, x: nat)
    requires Aimed(s, id, x) && NoDrop(es) && NoStart(es, id)
    ensures Aimed(RunFrom(s, es), id, x)
  {
    if es != [] {
      hide Aimed, Step;
      AimedRun(s, es[..|es| - 1], id, x);
      AimedStep(RunFrom(s, es[..|es| - 1]), es[|es| - 1], id, x);
    }
  }

  lemma AimedIff(s: State, id: Plugin, x: nat)
    requires s.monitor == Dropping(id, x) && x !in s.spawning
    ensures (forall es :: NoDrop(es) && NoStart(es, id) ==> !Misses(RunFrom(s, es), id, x)) <==> Aimed(s, id, x)
  {
    hide Step;
    if Aimed(s, id, x) {
      forall es | NoDrop(es) && NoStart(es, id) ensures !Misses(RunFrom(s, es), id, x) {
        AimedRun(s, es, id, x);
      }
    } else if Misses(s, id, x) {
      assert RunFrom(s, []) == s && NoDrop([]) && NoStart([], id);
    } else {
      var y :| y in s.spawning && s.spawning[y].config.id == id;
      InsertMisses(s, y, id, x);
    }
  }

  lemma InsertMisses(s: State, y: nat, id: Plugin, x: nat)
    requires y in s.spawning && s.spawning[y].config.id == id && y != x
    ensures NoDrop([Spawned(y, true)]) && NoStart([Spawned(y, true)], id)
    ensures Misses(RunFrom(s, [Spawned(y, true)]), id, x)
  {
    RunOne(s, Spawned(y, true));
  }

  /** In every run in which the monitor is about to drop a plugin: until it does, and without a new
      start, the drop can only hit the instance that exited, if and only if that is so now and no
      spawn of the plugin is under way. */
  lemma DropHitsTheExitedIff(past: seq<Event>)
    requires Run(past).monitor.Dropping?
    ensures var s := Run(past);
            var id, x := s.monitor.plugin, s.monitor.exited;
            (forall es :: NoDrop(es) && NoStart(es, id) ==> !Misses(RunFrom(s, es), id, x))
            <==>
            !Misses(s, id, x) && (forall y :: y in s.spawning ==> s.spawning[y].config.id != id)
  {
    hide Matches, Chained, Linked, RunFrom;
    var s := Run(past);
    RunPlaces(past);
    assert Apart(s, s.monitor.exited);
    AimedIff(s, s.monitor.plugin, s.monitor.exited);
  }

  /** With a stop and a start in the window every drop hits a new, live instance. */
  lemma DropCanAlwaysMiss(past: seq<Event>, config: Config)
    requires Run(past).monitor.Dropping? && Run(past).monitor.plugin == config.id
    ensures var s, id := Run(past), config.id;
            var es := [Stop(id), Start(config), Spawned(s.lastEpoch + 1, true)];
            && Misses(RunFrom(s, es), id, s.monitor.exited) && RunFrom(s, es).monitor == s.monitor
            && id !in RunFrom(s, es + [Drop]).entries && s.lastEpoch + 1 in RunFrom(s, es + [Drop]).live
  {
    hide Misses, Step;
    var s, id := Run(past), config.id;
    var back := Spawned(s.lastEpoch + 1, true);
    RunMatches(past);
    assert IsOf(Launches(past), s.monitor.exited, id);
    RunTwo(s, Stop(id), Start(config));
    RunSnoc(s, [Stop(id), Start(config)], back);
    assert [Stop(id), Start(config)] + [back] == [Stop(id), Start(config), back];
    RunSnoc(s, [Stop(id), Start(config), back], Drop);
    StopAndStart(s, config);
    DropMisses(Step(Step(Step(s, Stop(id)), Start(config)), back), s.lastEpoch + 1);
  }

  lemma StopAndStart(s: State, config: Config)
    requires s.monitor.Dropping? && s.monitor.exited <= s.lastEpoch
    ensures var t := Step(Step(Step(s, Stop(config.id)), Start(config)), Spawned(s.lastEpoch + 1, true));
            && t.monitor == s.monitor && Misses(t, config.id, s.monitor.exited)
            && s.lastEpoch + 1 in t.live && Registered(t, config.id, s.lastEpoch + 1)
  {
    hide OnDecide, OnWake, OnDrop;
    var t := Step(Step(s, Stop(config.id)), Start(config));
    assert t.spawning == s.spawning[s.lastEpoch + 1 := Launch(config, 0, 0, false)] && t.monitor == s.monitor;
  }

  lemma DropMisses(s: State, x: nat)
    requires s.monitor.Dropping? && x in s.live
    ensures x in Step(s, Drop).live && s.monitor.plugin !in Step(s, Drop).entries
  {
  }

  // ---------------------------------------------------------------------------
  // A start that overwrites a live instance
  // ---------------------------------------------------------------------------

  /** Finishing the spawn now would overwrite the entry of a live instance. */
  predicate WouldClobber(s: State, epoch: nat) {
    epoch in s.spawning &&
    var id := s.spawning[epoch].config.id;
    id in s.entries && s.entries[id].epoch in s.live
  }

  /** An epoch given out comes into the spawns once. */
  lemma SpawnStays(s: State, e: Event, epoch: nat)
    requires epoch <= s.lastEpoch && epoch in Step(s, e).spawning
    ensures epoch in s.spawning && Step(s, e).spawning[epoch] == s.spawning[epoch]
    ensures e.Spawned? ==> e.epoch != epoch
  {
    DecideSpawnsNothing(s);
    hide OnDecide, StoppedAt;
  }

  lemma DecideSpawnsNothing(s: State)
    ensures s.queue != [] ==>
      && OnDecide(s).spawning == s.spawning && OnDecide(s).live == s.live && OnDecide(s).entries == s.entries
      && OnDecide(s).lastEpoch == s.lastEpoch && OnDecide(s).stopped == s.stopped
  {
    hide WantsRestart, Current, StoppedAt;
  }

  lemma EpochGrows(s: State, e: Event)
    ensures s.lastEpoch <= Step(s, e).lastEpoch
  {
    DecideSpawnsNothing(s);
    hide OnDecide, StoppedAt;
  }

  lemma EpochsGrow(s: State, es: seq<Event>)
    ensures s.lastEpoch <= RunFrom(s, es).lastEpoch
  {
    if es != [] {
      hide Step;
      EpochsGrow(s, es[..|es| - 1]);
      EpochGrows(RunFrom(s, es[..|es| - 1]), es[|es| - 1]);
    }
  }

  lemma AloneRun(s: State, es: seq<Event>, id: Plugin, own: nat)
    requires Keyed(s) && id !in s.entries && !OthersReturning(s, id, {own}) && NoStart(es, id)
    requires own <= s.lastEpoch && own in s.spawning && own in RunFrom(s, es).spawning
    ensures var t := RunFrom(s, es);
            && Keyed(t) && id !in t.entries && !OthersReturning(t, id, {own})
            && t.spawning[own] == s.spawning[own]
  {
    if es != [] {
      hide OthersReturning, Step, Keyed;
      var before, e := es[..|es| - 1], es[|es| - 1];
      EpochsGrow(s, before);
      SpawnStays(RunFrom(s, before), e, own);
      AloneRun(s, before, id, own);
      StepKeyed(RunFrom(s, before), e);
      QuietStep(RunFrom(s, before), e, id, {own});
    }
  }

  /** In every run, an accepted start overwrites no live instance, whatever happens before its entry
      is inserted short of another start, if and only if no other spawn and no uncancelled backoff
      of the plugin is under way when it is accepted. */
  lemma StartOverwritesNothingIff(past: seq<Event>, config: Config)
    requires config.id !in Run(past).entries
    ensures var s, own := Run(past), Run(past).lastEpoch + 1;
            (forall es :: NoStart(es, config.id) ==> !WouldClobber(RunFrom(Step(s, Start(config)), es), own))
            <==> !Returning(s, config.id)
  {
    var s, id, own := Run(past), config.id, Run(past).lastEpoch + 1;
    var t := Step(s, Start(config));
    RunMatches(past);
    assert own !in s.spawning;
    assert Returning(s, id) <==> OthersReturning(t, id, {own}) by {
      StartReturns(s, config);
    }
    assert t.spawning[own].config.id == id;
    if OthersReturning(t, id, {own}) {
      var es := Comeback(t, id, {own});
      KeepsLaunch(t, es, own);
      assert WouldClobber(RunFrom(t, es), own);
    } else {
      forall es | NoStart(es, id) ensures !WouldClobber(RunFrom(t, es), own) {
        if own in RunFrom(t, es).spawning {
          AloneRun(t, es, id, own);
        }
      }
    }
  }

  lemma StartReturns(s: State, config: Config)
    requires config.id !in s.entries && s.lastEpoch + 1 !in s.spawning
    ensures Returning(s, config.id) <==> OthersReturning(Step(s, Start(config)), config.id, {s.lastEpoch + 1})
  {
    var t, own := Step(s, Start(config)), s.lastEpoch + 1;
    assert forall x :: x in s.spawning ==> x in t.spawning && x != own;
    assert t.monitor == s.monitor && t.stopped == s.stopped;
  }

  lemma KeepsLaunch(s: State, es: seq<Event>, own: nat)
    requires own <= s.lastEpoch && own in s.spawning && own in RunFrom(s, es).spawning
    ensures RunFrom(s, es).spawning[own] == s.spawning[own]
  {
    if es != [] {
      hide Step;
      EpochsGrow(s, es[..|es| - 1]);
      SpawnStays(RunFrom(s, es[..|es| - 1]), es[|es| - 1], own);
      KeepsLaunch(s, es[..|es| - 1], own);
    }
  }

  // ---------------------------------------------------------------------------
  // Runs
  // ---------------------------------------------------------------------------

  const N: Config := Config("p", Never, 0)

  /** The exit of instance 1 leads to a drop; while the death is published, the plugin is stopped
      and started. */
  const LateDrop: seq<Event> :=
    [Start(N), Spawned(1, true), Exits(1, false), Decide, Stop("p"), Start(N), Spawned(2, true), Drop]

  lemma LateDropDecides()
    ensures Run(LateDrop[..4])
         == State(map["p" := Entry(N, 0, 1)], {}, map[], map[], 1, map[], map[], [], Dropping("p", 1))
  {
    var es := LateDrop;
    Prefix(es, 0);
    Prefix(es, 1);
    assert Run(es[..2]) == State(map["p" := Entry(N, 0, 1)], {}, map[], map[], 1, map[], map[1 := "p"], [], Waiting);
    Prefix(es, 2);
    Prefix(es, 3);
  }

  lemma LateStart()
    ensures Run(LateDrop[..6])
         == State(map[], {}, map["p" := 1], map[], 2, map[2 := Launch(N, 0, 0, false)], map[], [], Dropping("p", 1))
  {
    LateDropDecides();
    Prefix(LateDrop, 4);
    Prefix(LateDrop, 5);
  }

  /** The drop removes the entry of instance 2, which lives on. */
  lemma LateDropHitsLiveInstance()
    ensures Run(LateDrop[..7]).entries == map["p" := Entry(N, 0, 2)]
    ensures Run(LateDrop).entries == map[] && Run(LateDrop).live == map[2 := "p"] && Run(LateDrop).stopped == map["p" := 1]
  {
    var es := LateDrop;
    LateStart();
    Prefix(es, 6);
    assert Run(es[..7])
        == State(map["p" := Entry(N, 0, 2)], {}, map["p" := 1], map[], 2, map[], map[2 := "p"], [], Dropping("p", 1));
    Prefix(es, 7);
    assert es[..8] == es;
  }

  const TwoStarts: seq<Event> := [Start(C), Start(C), Spawned(1, true), Spawned(2, true)]

  /** Two starts accepted before either entry is inserted: both instances live, one registered,
      none stopped. */
  lemma SecondStartOverwritesFirst()
    ensures Run(TwoStarts).live == map[1 := "p", 2 := "p"]
    ensures Run(TwoStarts).entries == map["p" := Entry(C, 0, 2)] && Run(TwoStarts).stopped == map[]
  {
    var es := TwoStarts;
    var l := Launch(C, 0, 0, false);
    Prefix(es, 0);
    Prefix(es, 1);
    assert Run(es[..2]) == Init().(lastEpoch := 2, spawning := map[1 := l, 2 := l]);
    Prefix(es, 2);
    Prefix(es, 3);
    assert es[..4] == es;
  }

  const FailedRespawn: seq<Event> := [Start(C), Spawned(1, true), Exits(1, false), Decide, Wake, Spawned(2, false)]

  /** After a failed respawn the plugin is registered, and nothing lives, is queued or under way. */
  lemma FailedRespawnLeavesEntry()
    ensures Run(FailedRespawn)
         == State(map["p" := Entry(C, 0, 1)], {}, map[], map[], 2, map[], map[], [], Waiting)
    ensures !Held(Run(FailedRespawn), 1)
  {
    var es := FailedRespawn;
    assert es[..1] == TwoStops[..1] && es[..2] == TwoStops[..2] && es[..3] == TwoStops[..3];
    FirstExit();
    Prefix(es, 3);
    assert Run(es[..4])
        == State(map["p" := Entry(C, 0, 1)], {}, map[], map[], 1, map[], map[], [], Backoff(Launch(C, 1, 1, false)));
    Prefix(es, 4);
    Prefix(es, 5);
    assert es[..6] == es;
  }
}
