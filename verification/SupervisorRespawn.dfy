/** When the respawn after a backoff overwrites an instance other than the dead one it is to replace. */
module SupervisorRespawn {
  import opened SupervisorModel
  import opened SupervisorOrphans
  import opened SupervisorPlaces
  import opened SupervisorRuns
  import opened SupervisorStop

  // ---------------------------------------------------------------------------
  // Instances that are through
  // ---------------------------------------------------------------------------

  lemma LostStep(s: State, e: Event, x: nat)
    requires Lost(s, x)
    ensures Lost(Step(s, e), x)
  {
    match e
    case Start(_) =>
    case Spawned(_, _) =>
    case Exits(_, _) =>
      if Enabled(s, e) {
        QueuedSnoc(s.queue, Exit(s.live[e.epoch], e.epoch, e.success), x);
      }
    case Decide =>
      if Enabled(s, e) {
        LostDecide(s, x);
      }
    case _ =>
  }

  lemma LostDecide(s: State, x: nat)
    requires Lost(s, x) && s.queue != [] && s.monitor.Waiting?
    ensures Lost(OnDecide(s), x)
  {
    DecideSpawnsNothing(s);
    DecideHolds(s, x);
    hide OnDecide;
    assert forall i :: 0 <= i < |s.queue| ==> s.queue[i].epoch != x;
  }

  lemma DecideHolds(s: State, x: nat)
    requires s.queue != [] && s.monitor.Waiting?
    ensures InHand(OnDecide(s).monitor, x) ==> x == s.queue[0].epoch
    ensures OnDecide(s).queue == s.queue[1..]
  {
    DecideMonitor(s);
    hide OnDecide;
  }

  lemma DecideMonitor(s: State)
    requires s.queue != [] && s.monitor.Waiting?
    ensures var t, ev := OnDecide(s), s.queue[0];
            && t.queue == s.queue[1..] && t.forced == s.forced - {ev.id}
            && (t.monitor == Waiting
                || (t.monitor.Backoff? && t.monitor.launch.parent == ev.epoch && Current(s, ev)
                    && t.monitor.launch.config == s.entries[ev.id].config)
                || t.monitor == Dropping(ev.id, ev.epoch))
  {
    hide WantsRestart, StoppedAt;
  }

  // ---------------------------------------------------------------------------
  // The respawn
  // ---------------------------------------------------------------------------

  predicate LiveEntry(s: State, id: Plugin) {
    id in s.entries && s.entries[id].epoch in s.live
  }

  predicate Launching(s: State, id: Plugin, own: set<nat>) {
    exists z :: z in s.spawning && z !in own && s.spawning[z].config.id == id
  }

  predicate LaunchingTwice(s: State, id: Plugin) {
    exists z :: z in s.spawning && s.spawning[z].config.id == id && Launching(s, id, {z})
  }

  /** The respawn in place of `parent` is under way and would overwrite a live instance now. */
  predicate RespawnClobbers(s: State, parent: nat) {
    s.monitor.Respawning? && s.monitor.parent == parent && WouldClobber(s, s.monitor.epoch)
  }

  /** Uncancelled, there is no live entry and no spawn of the plugin. Cancelled by the recorded stop,
      another stop could bring the respawn back, but there is not both an entry to stop and a spawn
      to follow it. */
  predicate Harmless(s: State, l: Launch) {
    var id := l.config.id;
    if StoppedAt(s, id, l.parent) then !(id in s.entries && Launching(s, id, {})) && !LaunchingTwice(s, id)
    else !LiveEntry(s, id) && !Launching(s, id, {})
  }

  /** The respawn is on its way and nothing is in its way. */
  predicate Free(s: State, l: Launch) {
    var id := l.config.id;
    && s.monitor.Respawning? && s.monitor.parent == l.parent
    && s.monitor.epoch in s.spawning && s.spawning[s.monitor.epoch].config.id == id
    && !LiveEntry(s, id) && !Launching(s, id, {s.monitor.epoch})
  }

  predicate Safe(s: State, l: Launch) {
    (s.monitor == Backoff(l) && Harmless(s, l)) || Free(s, l) || Lost(s, l.parent)
  }

  lemma SafeIsHarmless(s: State, l: Launch)
    requires Safe(s, l)
    ensures !RespawnClobbers(s, l.parent)
  {
  }

  /** A registered instance is not being spawned. */
  predicate Tidy(s: State, id: Plugin) {
    id in s.entries ==> s.entries[id].epoch !in s.spawning
  }

  lemma HarmlessSpawned(s: State, z: nat, ok: bool, l: Launch)
    requires s.monitor == Backoff(l) && Harmless(s, l) && z in s.spawning && Tidy(s, l.config.id)
    ensures Harmless(OnSpawned(s, z, ok), l)
  {
    var t, id := OnSpawned(s, z, ok), l.config.id;
    assert t.spawning == s.spawning - {z} && t.stopped == s.stopped;
    if s.spawning[z].config.id == id {
      assert z !in {};
      assert Launching(s, id, {});
      assert forall y :: y in t.spawning ==> y in s.spawning && y !in {z};
    }
  }

  lemma HarmlessStop(s: State, p: Plugin, l: Launch)
    requires Harmless(s, l)
    ensures Harmless(OnStop(s, p), l)
  {
    var t, id := OnStop(s, p), l.config.id;
    assert t.spawning == s.spawning && t.live == s.live;
  }

  lemma HarmlessBegin(s: State, config: Config, l: Launch)
    requires Harmless(s, l) && config.id != l.config.id && s.lastEpoch + 1 !in s.spawning
    ensures Harmless(Begin(s, Launch(config, 0, 0, false)), l)
  {
    var t, id := Begin(s, Launch(config, 0, 0, false)), l.config.id;
    assert forall z :: z in t.spawning && t.spawning[z].config.id == id ==> z in s.spawning && s.spawning[z].config.id == id;
  }

  lemma BackoffStep(s: State, e: Event, l: Launch)
    requires s.monitor == Backoff(l) && Harmless(s, l) && Tidy(s, l.config.id)
    requires s.lastEpoch + 1 !in s.spawning && Lost(s.(monitor := Waiting), l.parent)
    requires e.Start? ==> e.config.id != l.config.id
    ensures Safe(Step(s, e), l)
  {
    match e
    case Start(config) =>
      if config.id !in s.entries {
        HarmlessBegin(s, config, l);
      }
    case Spawned(z, ok) =>
      if z in s.spawning {
        HarmlessSpawned(s, z, ok, l);
      }
    case Stop(p) => HarmlessStop(s, p, l);
    case Restart(p) =>
    case Exits(_, _) =>
    case Decide =>
    case Drop =>
    case Wake => WakeFree(s, l);
  }

  lemma WakeFree(s: State, l: Launch)
    requires s.monitor == Backoff(l) && Harmless(s, l) && Tidy(s, l.config.id)
    requires s.lastEpoch + 1 !in s.spawning && Lost(s.(monitor := Waiting), l.parent)
    ensures Safe(OnWake(s), l)
  {
    var t, id := OnWake(s), l.config.id;
    if !StoppedAt(s, id, l.parent) {
      assert forall z :: z in t.spawning && z != s.lastEpoch + 1 ==> z in s.spawning && z !in {} && s.spawning[z] == t.spawning[z];
      assert Free(t, l);
    }
  }

  lemma FreeStep(s: State, e: Event, l: Launch)
    requires Free(s, l) && Tidy(s, l.config.id)
    requires s.lastEpoch + 1 !in s.spawning && Lost(s.(monitor := Waiting), l.parent)
    requires e.Start? ==> e.config.id != l.config.id
    ensures Safe(Step(s, e), l)
  {
    match e
    case Start(config) =>
    case Spawned(z, ok) => FreeSpawned(s, z, ok, l);
    case Stop(p) =>
    case Restart(p) =>
    case Exits(_, _) =>
    case _ =>
  }

  lemma FreeSpawned(s: State, z: nat, ok: bool, l: Launch)
    requires Free(s, l) && Tidy(s, l.config.id) && Lost(s.(monitor := Waiting), l.parent)
    ensures Safe(Step(s, Spawned(z, ok)), l)
  {
    var t := Step(s, Spawned(z, ok));
    if z in s.spawning && z == s.monitor.epoch {
      assert Lost(t, l.parent);
    } else if z in s.spawning {
      assert Free(t, l);
    }
  }

  lemma SafeStep(past: seq<Event>, e: Event, l: Launch)
    requires Safe(Run(past), l) && (e.Start? ==> e.config.id != l.config.id)
    ensures Safe(Step(Run(past), e), l)
  {
    hide Harmless, Free, Places, Kept, Chained, Matches, Step, Lost, Tidy;
    var s := Run(past);
    if Lost(s, l.parent) {
      LostStep(s, e, l.parent);
    } else {
      AboutToReplace(past, l);
      if s.monitor == Backoff(l) && Harmless(s, l) {
        BackoffStep(s, e, l);
      } else {
        FreeStep(s, e, l);
      }
    }
  }

  /** What the reachable states add: the instance to replace is nowhere but in the monitor's hand. */
  lemma AboutToReplace(past: seq<Event>, l: Launch)
    requires Run(past).monitor == Backoff(l) || Free(Run(past), l)
    ensures Run(past).lastEpoch + 1 !in Run(past).spawning && Tidy(Run(past), l.config.id)
    ensures Lost(Run(past).(monitor := Waiting), l.parent)
  {
    var s := Run(past);
    RunPlaces(past);
    RunKept(past);
    hide Kept, Places, Chained;
    assert Apart(s, l.parent) by {
      PlacesApart(s, Launches(past), l.parent);
    }
    KeptTidy(s, Failed(past), l.config.id);
    if s.monitor.Backoff? {
      assert Continues(Launches(past), l);
    } else {
      RespawningBound(s, Launches(past));
    }
  }

  lemma PlacesApart(s: State, h: seq<Launch>, x: nat)
    requires Places(s, h)
    ensures Apart(s, x)
  {
  }

  lemma KeptTidy(s: State, failed: set<nat>, id: Plugin)
    requires Kept(s, failed)
    ensures Tidy(s, id)
    ensures forall x :: StoppedAt(s, id, x) ==> x !in s.spawning && !Registered(s, id, x)
  {
    assert id in s.entries ==> EntryKept(s, s.entries[id].epoch, failed);
    assert id in s.stopped ==> Retired(s, s.stopped[id]);
  }

  lemma {:induction false} SafeRun(past: seq<Event>, es: seq<Event>, l: Launch)
    requires Safe(Run(past), l) && NoStart(es, l.config.id)
    ensures RunFrom(Run(past), es) == Run(past + es) && Safe(Run(past + es), l)
  {
    RunConcat(Init(), past, es);
    if es == [] {
      assert past + es == past;
    } else {
      hide Safe, Step;
      var before, e := es[..|es| - 1], es[|es| - 1];
      SafeRun(past, before, l);
      SafeStep(past + before, e, l);
      assert (past + es)[..|past + es| - 1] == past + before;
    }
  }

  // ---------------------------------------------------------------------------
  // How it goes wrong
  // ---------------------------------------------------------------------------

  lemma WakeClobbers(s: State, l: Launch)
    requires s.monitor == Backoff(l) && !StoppedAt(s, l.config.id, l.parent) && LiveEntry(s, l.config.id)
    ensures RespawnClobbers(RunFrom(s, [Wake]), l.parent)
  {
    RunOne(s, Wake);
  }

  lemma Arrives(s: State, z: nat)
    requires z in s.spawning && s.monitor.Backoff?
    ensures var t := Step(s, Spawned(z, true));
            && LiveEntry(t, s.spawning[z].config.id) && Registered(t, s.spawning[z].config.id, z)
            && t.monitor == s.monitor && t.stopped == s.stopped && t.spawning == s.spawning - {z}
  {
  }

  lemma Stopped(s: State, id: Plugin)
    requires id in s.entries
    ensures var t := Step(s, Stop(id));
            && StoppedAt(t, id, s.entries[id].epoch) && t.stopped[id] == s.entries[id].epoch
            && t.monitor == s.monitor && t.spawning == s.spawning
  {
  }

  lemma ArriveAndWake(s: State, l: Launch, z: nat)
    requires s.monitor == Backoff(l) && !StoppedAt(s, l.config.id, l.parent)
    requires z in s.spawning && s.spawning[z].config.id == l.config.id
    ensures RespawnClobbers(RunFrom(s, [Spawned(z, true), Wake]), l.parent)
  {
    hide Step, LiveEntry, RespawnClobbers;
    Arrives(s, z);
    RunOne(s, Spawned(z, true));
    RunConcat(s, [Spawned(z, true)], [Wake]);
    assert [Spawned(z, true)] + [Wake] == [Spawned(z, true), Wake];
    WakeClobbers(Step(s, Spawned(z, true)), l);
  }

  lemma StopArriveAndWake(s: State, l: Launch, z: nat)
    requires s.monitor == Backoff(l) && l.config.id in s.entries && s.entries[l.config.id].epoch != l.parent
    requires z in s.spawning && s.spawning[z].config.id == l.config.id
    ensures RespawnClobbers(RunFrom(s, [Stop(l.config.id), Spawned(z, true), Wake]), l.parent)
  {
    hide Step, RespawnClobbers;
    var stop := Stop(l.config.id);
    Stopped(s, l.config.id);
    RunOne(s, stop);
    RunConcat(s, [stop], [Spawned(z, true), Wake]);
    assert [stop] + [Spawned(z, true), Wake] == [stop, Spawned(z, true), Wake];
    ArriveAndWake(Step(s, stop), l, z);
  }

  lemma TwiceAndWake(s: State, l: Launch, y: nat, z: nat)
    requires s.monitor == Backoff(l) && y != l.parent && y != z
    requires y in s.spawning && s.spawning[y].config.id == l.config.id
    requires z in s.spawning && s.spawning[z].config.id == l.config.id
    ensures RespawnClobbers(RunFrom(s, [Spawned(y, true), Stop(l.config.id), Spawned(z, true), Wake]), l.parent)
  {
    hide Step, RespawnClobbers, LiveEntry;
    var stop, arrive := Stop(l.config.id), Spawned(y, true);
    Arrives(s, y);
    RunOne(s, arrive);
    RunConcat(s, [arrive], [stop, Spawned(z, true), Wake]);
    assert [arrive] + [stop, Spawned(z, true), Wake] == [arrive, stop, Spawned(z, true), Wake];
    StopArriveAndWake(Step(s, arrive), l, z);
  }

  lemma Clobbering(s: State, l: Launch) returns (es: seq<Event>)
    requires s.monitor == Backoff(l) && !Harmless(s, l)
    requires l.parent !in s.spawning && (StoppedAt(s, l.config.id, l.parent) ==> !Registered(s, l.config.id, l.parent))
    ensures NoStart(es, l.config.id) && RespawnClobbers(RunFrom(s, es), l.parent)
  {
    hide RespawnClobbers, RunFrom;
    var id := l.config.id;
    if !StoppedAt(s, id, l.parent) {
      if LiveEntry(s, id) {
        es := [Wake];
        WakeClobbers(s, l);
      } else {
        var z :| z in s.spawning && s.spawning[z].config.id == id;
        es := [Spawned(z, true), Wake];
        ArriveAndWake(s, l, z);
      }
    } else if LaunchingTwice(s, id) {
      var y :| y in s.spawning && s.spawning[y].config.id == id && Launching(s, id, {y});
      var z :| z in s.spawning && z !in {y} && s.spawning[z].config.id == id;
      es := [Spawned(y, true), Stop(id), Spawned(z, true), Wake];
      TwiceAndWake(s, l, y, z);
    } else {
      var z :| z in s.spawning && s.spawning[z].config.id == id;
      es := [Stop(id), Spawned(z, true), Wake];
      StopArriveAndWake(s, l, z);
    }
  }

  /** In every run in a backoff: the respawn overwrites no live instance, whatever happens short of a
      new start of the plugin, if and only if the backoff is harmless now. */
  lemma RespawnOverwritesNothingIff(past: seq<Event>)
    requires Run(past).monitor.Backoff?
    ensures var s := Run(past);
            var l := s.monitor.launch;
            (forall es :: NoStart(es, l.config.id) ==> !RespawnClobbers(RunFrom(s, es), l.parent)) <==> Harmless(s, l)
  {
    hide RespawnClobbers, Harmless, Kept, Lost, Tidy;
    var s := Run(past);
    var l := s.monitor.launch;
    if Harmless(s, l) {
      forall es | NoStart(es, l.config.id) ensures !RespawnClobbers(RunFrom(s, es), l.parent) {
        SafeRun(past, es, l);
        SafeIsHarmless(Run(past + es), l);
      }
    } else {
      AboutToReplace(past, l);
      LostNotSpawning(s.(monitor := Waiting), l.parent);
      RunKept(past);
      KeptTidy(s, Failed(past), l.config.id);
      var es := Clobbering(s, l);
    }
  }

  lemma LostNotSpawning(s: State, x: nat)
    requires Lost(s, x)
    ensures x !in s.spawning
  {
  }

  // ---------------------------------------------------------------------------
  // Such a run
  // ---------------------------------------------------------------------------

  const LateRespawn: seq<Event> := TwoStops[..8] + [Start(C), Spawned(3, true), Wake, Spawned(4, true)]

  /** Stopped, started, stopped and started again during the backoff for instance 1, the plugin has
      its live instance 3 overwritten by the respawn. */
  lemma RespawnOverwritesLiveInstance()
    ensures Run(LateRespawn[..10]).entries == map["p" := Entry(C, 0, 3)] && 3 in Run(LateRespawn[..10]).live
    ensures Run(LateRespawn).entries == map["p" := Entry(C, 1, 4)]
    ensures Run(LateRespawn).live == map[2 := "p", 3 := "p", 4 := "p"] && Run(LateRespawn).stopped == map["p" := 2]
  {
    var es := LateRespawn;
    SecondStop();
    assert es[..8] == TwoStops[..8];
    Prefix(es, 8);
    assert Run(es[..9]) == Asleep(2).(live := map[2 := "p"], lastEpoch := 3, spawning := map[3 := Launch(C, 0, 0, false)]);
    Prefix(es, 9);
    assert Run(es[..10])
        == Asleep(2).(live := map[2 := "p", 3 := "p"], lastEpoch := 3, entries := map["p" := Entry(C, 0, 3)]);
    Awakened(Run(es[..10]));
    hide Step;
    Prefix(es, 10);
    Prefix(es, 11);
    assert es[..12] == es;
  }

  lemma Awakened(s: State)
    requires s == Asleep(2).(live := map[2 := "p", 3 := "p"], lastEpoch := 3, entries := map["p" := Entry(C, 0, 3)])
    ensures var t := Step(Step(s, Wake), Spawned(4, true));
            && t.entries == map["p" := Entry(C, 1, 4)] && t.live == map[2 := "p", 3 := "p", 4 := "p"]
            && t.stopped == map["p" := 2]
  {
  }
}
