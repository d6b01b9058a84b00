/** When a manual restart is carried out: the mark it leaves is consumed by the next exit of the
    plugin, of whichever instance. */
module SupervisorRestart {
  import opened SupervisorModel
  import opened SupervisorOrphans
  import opened SupervisorPlaces
  import opened SupervisorRespawn
  import opened SupervisorRuns
  import opened SupervisorStop

  predicate NoStop(es: seq<Event>, id: Plugin) {
    forall i :: 0 <= i < |es| ==> es[i] != Stop(id)
  }

  /** The monitor is about to decide on the exit of instance `x`. */
  predicate Deciding(s: State, x: nat) {
    Enabled(s, Decide) && s.queue[0].epoch == x
  }

  /** The decision is a restart in place of `x` because it was asked for. */
  predicate Honoured(s: State, x: nat) {
    var m := Step(s, Decide).monitor;
    m.Backoff? && m.launch.parent == x && m.launch.forced
  }

  /** Another instance of the plugin is live, has its exit queued or is being spawned. */
  predicate OthersAbout(s: State, id: Plugin, x: nat) {
    || (exists y :: y in s.live && s.live[y] == id && y != x)
    || (exists i :: 0 <= i < |s.queue| && s.queue[i].id == id && s.queue[i].epoch != x)
    || (exists y :: y in s.spawning && s.spawning[y].config.id == id)
  }

  /** The monitor is about to drop the plugin or to respawn an instance of it. */
  predicate MonitorOn(s: State, id: Plugin) {
    || (s.monitor.Dropping? && s.monitor.plugin == id)
    || (s.monitor.Backoff? && s.monitor.launch.config.id == id && !StoppedAt(s, id, s.monitor.launch.parent))
  }

  // ---------------------------------------------------------------------------
  // While nothing else of the plugin is about, the mark is kept for the instance
  // ---------------------------------------------------------------------------

  predicate Marked(s: State, id: Plugin, x: nat) {
    && Registered(s, id, x) && id in s.forced
    && !OthersAbout(s, id, x) && !MonitorOn(s, id)
  }

  lemma MarkedExits(s: State, e: Event, id: Plugin, x: nat)
    requires Marked(s, id, x) && e.Exits? && Enabled(s, e)
    ensures Marked(Step(s, e), id, x)
  {
    var t := Step(s, e);
    forall i | 0 <= i < |t.queue| && t.queue[i].id == id ensures t.queue[i].epoch == x {
      if i < |s.queue| {
        assert t.queue[i] == s.queue[i];
      }
    }
  }

  lemma MarkedDecide(s: State, id: Plugin, x: nat)
    requires Marked(s, id, x) && Keyed(s) && Enabled(s, Decide) && s.queue[0].epoch != x
    ensures Marked(OnDecide(s), id, x)
  {
    DecideSpawnsNothing(s);
    DecideMonitor(s);
    hide OnDecide;
    var t := OnDecide(s);
    assert s.queue[0].id != id;
    assert forall i :: 0 <= i < |t.queue| ==> t.queue[i] == s.queue[i + 1];
  }

  lemma MarkedSpawned(s: State, z: nat, ok: bool, id: Plugin, x: nat)
    requires Marked(s, id, x) && z in s.spawning
    ensures Marked(OnSpawned(s, z, ok), id, x)
  {
    assert s.spawning[z].config.id != id;
  }

  lemma MarkedWake(s: State, id: Plugin, x: nat)
    requires Marked(s, id, x) && s.monitor.Backoff?
    ensures Marked(OnWake(s), id, x)
  {
  }

  lemma MarkedStep(s: State, e: Event, id: Plugin, x: nat)
    requires Marked(s, id, x) && Keyed(s)
    requires e != Stop(id) && !(e == Decide && Deciding(s, x))
    ensures Marked(Step(s, e), id, x)
  {
    match e
    case Exits(_, _) =>
      if Enabled(s, e) {
        MarkedExits(s, e, id, x);
      }
    case Decide =>
      if Enabled(s, e) {
        MarkedDecide(s, id, x);
      }
    case Spawned(_, _) =>
      if Enabled(s, e) {
        MarkedSpawned(s, e.epoch, e.ok, id, x);
      }
    case Wake =>
      if Enabled(s, e) {
        MarkedWake(s, id, x);
      }
    case Start(_) =>
    case Stop(_) =>
    case Restart(_) =>
    case Drop =>
  }

  lemma MarkedIsHonoured(s: State, id: Plugin, x: nat)
    requires Registered(s, id, x) && Deciding(s, x) && !StoppedAt(s, id, x) && s.queue[0].id == id
    ensures Honoured(s, x) <==> id in s.forced
  {
  }

  lemma SpoiledIsNotHonoured(s: State, id: Plugin, x: nat)
    requires Deciding(s, x) && s.queue[0].id == id && (!Registered(s, id, x) || id !in s.forced)
    ensures !Honoured(s, x)
  {
    hide WantsRestart;
  }

  /** The instance exited and its exit was taken up. */
  predicate Over(s: State, x: nat) {
    0 < x <= s.lastEpoch && Gone(s, x)
  }

  lemma OverStep(s: State, e: Event, x: nat)
    requires Over(s, x)
    ensures Over(Step(s, e), x)
  {
    match e
    case Exits(_, _) =>
      if Enabled(s, e) {
        QueuedSnoc(s.queue, Exit(s.live[e.epoch], e.epoch, e.success), x);
      }
    case Decide =>
      if Enabled(s, e) {
        DecideSpawnsNothing(s);
        DecideMonitor(s);
        hide OnDecide;
        assert forall i :: 0 <= i < |s.queue| ==> s.queue[i].epoch != x;
      }
    case Start(_) =>
    case Spawned(_, _) =>
    case _ =>
  }

  lemma TakenUp(past: seq<Event>, x: nat)
    requires Deciding(Run(past), x)
    ensures Over(Step(Run(past), Decide), x)
  {
    var s := Run(past);
    RunPlaces(past);
    assert Queued(s.queue, x) && Apart(s, x);
    QueuedTail(s.queue, x);
    DecideSpawnsNothing(s);
    DecideMonitor(s);
    hide OnDecide;
  }

  lemma MarkedOrOver(past: seq<Event>, e: Event, id: Plugin, x: nat)
    requires Marked(Run(past), id, x) || Over(Run(past), x)
    requires e != Stop(id)
    ensures Marked(Step(Run(past), e), id, x) || Over(Step(Run(past), e), x)
  {
    hide Marked, Over, Step, Matches, Keyed;
    if Over(Run(past), x) {
      OverStep(Run(past), e, x);
    } else if e == Decide && Deciding(Run(past), x) {
      TakenUp(past, x);
    } else {
      RunKeyed(past);
      MarkedStep(Run(past), e, id, x);
    }
  }

  lemma RunKeyed(past: seq<Event>)
    ensures Keyed(Run(past))
  {
    RunMatches(past);
  }

  lemma {:induction false} MarkedRun(past: seq<Event>, es: seq<Event>, id: Plugin, x: nat)
    requires Marked(Run(past), id, x) && NoStop(es, id)
    ensures RunFrom(Run(past), es) == Run(past + es)
    ensures Marked(Run(past + es), id, x) || Over(Run(past + es), x)
  {
    RunConcat(Init(), past, es);
    if es == [] {
      assert past + es == past;
    } else {
      hide Marked, Over, Step;
      var before, e := es[..|es| - 1], es[|es| - 1];
      MarkedRun(past, before, id, x);
      MarkedOrOver(past + before, e, id, x);
      assert (past + es)[..|past + es| - 1] == past + before;
    }
  }

  lemma MarkedRunHonours(past: seq<Event>, es: seq<Event>, id: Plugin, x: nat)
    requires Marked(Run(past), id, x) && NoStop(es, id) && Deciding(RunFrom(Run(past), es), x)
    ensures Honoured(RunFrom(Run(past), es), x)
  {
    MarkedRun(past, es, id, x);
    var now := past + es;
    var s := Run(now);
    assert Queued(s.queue, x);
    RunMatches(now);
    RunKept(now);
    KeptTidy(s, Failed(now), id);
    hide RunFrom, Honoured, Kept, OthersAbout, MonitorOn;
    assert IsOf(Launches(now), x, s.queue[0].id);
    SamePlugin(s, Launches(now), id, s.queue[0].id, x);
    MarkedIsHonoured(s, id, x);
  }

  // ---------------------------------------------------------------------------
  // How the mark is lost
  // ---------------------------------------------------------------------------

  predicate Inner(es: seq<Event>) {
    forall i :: 0 <= i < |es| ==> es[i].Spawned? || es[i].Decide? || es[i].Wake? || es[i].Drop?
  }

  predicate Awaited(s: State) {
    s.monitor.Respawning? ==> s.monitor.epoch in s.spawning
  }

  /** Nothing new was registered or marked, and nothing exited. */
  predicate Shrinks(s: State, t: State) {
    && t.live == s.live && t.forced <= s.forced
    && (forall p :: p in t.entries ==> p in s.entries && t.entries[p] == s.entries[p])
  }

  /** The monitor can always come to rest: what it spawns may fail. */
  lemma Rest(s: State) returns (es: seq<Event>)
    requires Awaited(s)
    ensures Inner(es) && var t := RunFrom(s, es); t.monitor.Waiting? && t.queue == s.queue && Shrinks(s, t)
  {
    match s.monitor
    case Waiting =>
      es := [];
    case Dropping(_, _) =>
      es := [Drop];
      RunOne(s, Drop);
    case Respawning(z, _) =>
      es := [Spawned(z, false)];
      RunOne(s, Spawned(z, false));
    case Backoff(l) =>
      if StoppedAt(s, l.config.id, l.parent) {
        es := [Wake];
        RunOne(s, Wake);
      } else {
        es := [Wake, Spawned(s.lastEpoch + 1, false)];
        RunTwo(s, Wake, Spawned(s.lastEpoch + 1, false));
      }
  }

  /** All queued exits can be dealt with, and each consumes the mark of its plugin. */
  lemma {:induction false} Drain(s: State) returns (es: seq<Event>)
    requires Awaited(s)
    ensures Inner(es) && var t := RunFrom(s, es); t.monitor.Waiting? && t.queue == [] && Shrinks(s, t)
    ensures forall i :: 0 <= i < |s.queue| ==> s.queue[i].id !in RunFrom(s, es).forced
    decreases |s.queue|
  {
    var a := Rest(s);
    if s.queue == [] {
      es := a;
    } else {
      var r := RunFrom(s, a);
      var d := Step(r, Decide);
      DecideSpawnsNothing(r);
      DecideMonitor(r);
      assert d == OnDecide(r);
      hide Step, OnDecide;
      var b := Drain(d);
      es := a + [Decide] + b;
      RunSnoc(s, a, Decide);
      RunConcat(s, a + [Decide], b);
      forall i | 0 <= i < |s.queue| ensures s.queue[i].id !in RunFrom(s, es).forced {
        if i > 0 {
          assert d.queue[i - 1] == s.queue[i];
        }
      }
    }
  }

  predicate Spoiled(s: State, id: Plugin, x: nat) {
    !Registered(s, id, x) || id !in s.forced
  }

  lemma Spoil(s: State, id: Plugin, x: nat) returns (es: seq<Event>)
    requires Awaited(s) && x in s.live && s.live[x] == id
    requires Spoiled(s, id, x) || exists i :: 0 <= i < |s.queue| && s.queue[i].id == id
    ensures NoStop(es, id) && Deciding(RunFrom(s, es), x) && !Honoured(RunFrom(s, es), x)
  {
    var a := Drain(s);
    var r := RunFrom(s, a);
    es := a + [Exits(x, false)];
    RunSnoc(s, a, Exits(x, false));
    var t := Step(r, Exits(x, false));
    assert t.queue == [Exit(id, x, false)] && t.entries == r.entries && t.forced == r.forced && t.monitor == r.monitor;
    hide Step, RunFrom, Honoured;
    SpoiledIsNotHonoured(t, id, x);
  }

  /** After a first event that unseats or queues, the rest follows. */
  lemma SpoilAfter(s: State, first: seq<Event>, id: Plugin, x: nat) returns (es: seq<Event>)
    requires NoStop(first, id)
    requires var t := RunFrom(s, first);
             && Awaited(t) && x in t.live && t.live[x] == id
             && (Spoiled(t, id, x) || exists i :: 0 <= i < |t.queue| && t.queue[i].id == id)
    ensures NoStop(es, id) && Deciding(RunFrom(s, es), x) && !Honoured(RunFrom(s, es), x)
  {
    hide Deciding, Honoured, Step;
    var more := Spoil(RunFrom(s, first), id, x);
    es := first + more;
    RunConcat(s, first, more);
  }

  lemma OtherExits(s: State, y: nat, id: Plugin, x: nat)
    requires Awaited(s) && x in s.live && s.live[x] == id && y in s.live && s.live[y] == id && y != x
    ensures var t := RunFrom(s, [Exits(y, false)]);
            Awaited(t) && x in t.live && t.live[x] == id && exists i :: 0 <= i < |t.queue| && t.queue[i].id == id
  {
    RunOne(s, Exits(y, false));
    var t := Step(s, Exits(y, false));
    assert t.queue[|s.queue|].id == id;
  }

  lemma OtherSpawned(s: State, y: nat, id: Plugin, x: nat)
    requires Awaited(s) && x in s.live && s.live[x] == id && x != y && y in s.spawning && s.spawning[y].config.id == id
    ensures var t := RunFrom(s, [Spawned(y, true)]);
            Awaited(t) && x in t.live && t.live[x] == id && !Registered(t, id, x)
  {
    RunOne(s, Spawned(y, true));
  }

  lemma Dropped(s: State, id: Plugin, x: nat)
    requires x in s.live && s.live[x] == id && s.monitor.Dropping? && s.monitor.plugin == id
    ensures var t := RunFrom(s, [Drop]); Awaited(t) && x in t.live && t.live[x] == id && !Registered(t, id, x)
  {
    RunOne(s, Drop);
  }

  lemma Respawned(s: State, id: Plugin, x: nat)
    requires x in s.live && s.live[x] == id && x <= s.lastEpoch
    requires s.monitor.Backoff? && s.monitor.launch.config.id == id && !StoppedAt(s, id, s.monitor.launch.parent)
    ensures var t := RunFrom(s, [Wake, Spawned(s.lastEpoch + 1, true)]);
            Awaited(t) && x in t.live && t.live[x] == id && !Registered(t, id, x)
  {
    RunTwo(s, Wake, Spawned(s.lastEpoch + 1, true));
  }

  lemma Losing(s: State, id: Plugin, x: nat) returns (es: seq<Event>)
    requires Awaited(s) && x in s.live && s.live[x] == id && x !in s.spawning && x <= s.lastEpoch
    requires OthersAbout(s, id, x) || MonitorOn(s, id)
    ensures NoStop(es, id) && Deciding(RunFrom(s, es), x) && !Honoured(RunFrom(s, es), x)
  {
    hide Awaited, Deciding, Honoured, RunFrom, Registered;
    if y :| y in s.live && s.live[y] == id && y != x {
      OtherExits(s, y, id, x);
      es := SpoilAfter(s, [Exits(y, false)], id, x);
    } else if i :| 0 <= i < |s.queue| && s.queue[i].id == id && s.queue[i].epoch != x {
      es := Spoil(s, id, x);
    } else if y :| y in s.spawning && s.spawning[y].config.id == id {
      OtherSpawned(s, y, id, x);
      es := SpoilAfter(s, [Spawned(y, true)], id, x);
    } else if s.monitor.Dropping? {
      Dropped(s, id, x);
      es := SpoilAfter(s, [Drop], id, x);
    } else {
      Respawned(s, id, x);
      es := SpoilAfter(s, [Wake, Spawned(s.lastEpoch + 1, true)], id, x);
    }
  }

  /** In every run, a manual restart of a live instance is carried out when the instance exits,
      whatever the policy and whatever else happens short of a stop, if and only if no other instance
      of the plugin is live, queued or being spawned and the monitor is not about to drop or respawn
      it. */
  lemma RestartIsHonouredIff(past: seq<Event>, id: Plugin)
    requires id in Run(past).entries && Run(past).entries[id].epoch in Run(past).live
    ensures var s, x := Run(past), Run(past).entries[id].epoch;
            (forall es :: NoStop(es, id) && Deciding(RunFrom(Step(s, Restart(id)), es), x) ==>
              Honoured(RunFrom(Step(s, Restart(id)), es), x))
            <==>
            !OthersAbout(s, id, x) && !MonitorOn(s, id)
  {
    var s, x := Run(past), Run(past).entries[id].epoch;
    var now := past + [Restart(id)];
    var t := Step(s, Restart(id));
    RunSnoc(Init(), past, Restart(id));
    assert t.live == s.live && t.queue == s.queue && t.spawning == s.spawning && t.monitor == s.monitor;
    assert t.entries == s.entries && t.stopped == s.stopped && id in t.forced;
    hide Step, RunFrom, Deciding, Honoured;
    assert OthersAbout(t, id, x) <==> OthersAbout(s, id, x);
    if !OthersAbout(s, id, x) && !MonitorOn(s, id) {
      forall es | NoStop(es, id) && Deciding(RunFrom(t, es), x) ensures Honoured(RunFrom(t, es), x) {
        MarkedRunHonours(now, es, id, x);
      }
    } else {
      LiveFacts(past, id, x);
      var es := Losing(t, id, x);
    }
  }

  lemma LiveFacts(past: seq<Event>, id: Plugin, x: nat)
    requires Registered(Run(past), id, x) && x in Run(past).live
    ensures Awaited(Run(past)) && Run(past).live[x] == id && x !in Run(past).spawning && x <= Run(past).lastEpoch
  {
    var s := Run(past);
    RunPlaces(past);
    assert Apart(s, x);
    SamePlugin(s, Launches(past), id, s.live[x], x);
  }

  // ---------------------------------------------------------------------------
  // Such a run
  // ---------------------------------------------------------------------------

  /** The exit of instance 1, stopped before, comes in after the restart of instance 2 was asked
      for. */
  const EatenMark: seq<Event> :=
    [Start(N), Spawned(1, true), Stop("p"), Start(N), Spawned(2, true), Restart("p"), Exits(1, false), Decide,
     Exits(2, false), Decide]

  function Second(forced: set<Plugin>): State {
    State(map["p" := Entry(N, 0, 2)], forced, map["p" := 1], map[], 2, map[], map[1 := "p", 2 := "p"], [], Waiting)
  }

  lemma SecondStarts()
    ensures Run(EatenMark[..5]) == Second({})
  {
    var es := EatenMark;
    Prefix(es, 0);
    Prefix(es, 1);
    Prefix(es, 2);
    assert Run(es[..3]) == State(map[], {}, map["p" := 1], map[], 1, map[], map[1 := "p"], [], Waiting);
    Prefix(es, 3);
    Prefix(es, 4);
  }

  lemma FirstEats()
    ensures Run(EatenMark[..8]) == Second({}).(live := map[2 := "p"])
  {
    var es := EatenMark;
    SecondStarts();
    Prefix(es, 5);
    assert Run(es[..6]) == Second({"p"});
    Prefix(es, 6);
    assert Run(es[..7]) == Second({"p"}).(live := map[2 := "p"], queue := [Exit("p", 1, false)]);
    StaleEats(Run(es[..7]));
    hide Step;
    Prefix(es, 7);
  }

  lemma StaleEats(s: State)
    requires s == Second({"p"}).(live := map[2 := "p"], queue := [Exit("p", 1, false)])
    ensures Step(s, Decide) == Second({}).(live := map[2 := "p"])
  {
    assert s.forced - {"p"} == {};
    assert !Current(s, s.queue[0]);
  }

  /** The plugin whose restart was asked for is dropped. */
  lemma StaleExitEatsMark()
    ensures Run(EatenMark).monitor == Dropping("p", 2)
  {
    var es := EatenMark;
    FirstEats();
    Prefix(es, 8);
    assert Run(es[..9]) == Second({}).(live := map[], queue := [Exit("p", 2, false)]);
    Prefix(es, 9);
    assert es[..10] == es;
  }
}
