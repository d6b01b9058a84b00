/** Where an instance is between its spawn and its replacement: being spawned, live, with its exit
    queued, or in the monitor's hand. Each epoch is in at most one of these places, so it is
    replaced at most once, and nothing registered is ever forgotten unless its replacement failed
    to spawn. */
module SupervisorPlaces {
  import opened SupervisorModel
  import opened SupervisorRuns

  predicate Queued(queue: seq<Exit>, x: nat) {
    exists i :: 0 <= i < |queue| && queue[i].epoch == x
  }

  predicate Sleeping(m: Monitor, x: nat) {
    m.Backoff? && m.launch.parent == x
  }

  /** The monitor is about to replace or drop `x`, or waits for the spawn that replaces it. */
  predicate InHand(m: Monitor, x: nat) {
    Sleeping(m, x) || (m.Respawning? && m.parent == x) || (m.Dropping? && m.exited == x)
  }

  predicate ExitsOnce(queue: seq<Exit>) {
    forall i, j :: 0 <= i < j < |queue| ==> queue[i].epoch != queue[j].epoch
  }

  /** No epoch is in two places. */
  predicate Apart(s: State, x: nat) {
    && (x in s.spawning ==> x !in s.live && !Queued(s.queue, x) && !InHand(s.monitor, x))
    && (x in s.live ==> !Queued(s.queue, x) && !InHand(s.monitor, x))
    && (Queued(s.queue, x) ==> !InHand(s.monitor, x))
  }

  predicate Gone(s: State, x: nat) {
    x !in s.spawning && x !in s.live && !Queued(s.queue, x)
  }

  ghost predicate Places(s: State, h: seq<Launch>) {
    && ExitsOnce(s.queue)
    && (forall x: nat :: Apart(s, x))
    && (forall i :: 0 <= i < |h| && h[i].parent != 0 ==> Gone(s, h[i].parent) && !Sleeping(s.monitor, h[i].parent))
    && (forall i, j :: 0 <= i < j < |h| && h[j].parent != 0 ==> h[i].parent != h[j].parent)
  }

  lemma QueuedTail(queue: seq<Exit>, x: nat)
    requires queue != [] && ExitsOnce(queue)
    ensures ExitsOnce(queue[1..])
    ensures Queued(queue[1..], x) <==> Queued(queue, x) && x != queue[0].epoch
  {
    if Queued(queue, x) && x != queue[0].epoch {
      var i :| 0 <= i < |queue| && queue[i].epoch == x;
      assert queue[1..][i - 1].epoch == x;
    }
    if Queued(queue[1..], x) {
      var i :| 0 <= i < |queue| - 1 && queue[1..][i].epoch == x;
      assert queue[i + 1].epoch == x;
    }
  }

  lemma QueuedSnoc(queue: seq<Exit>, ev: Exit, x: nat)
    ensures Queued(queue + [ev], x) <==> Queued(queue, x) || x == ev.epoch
  {
    assert (queue + [ev])[|queue|] == ev;
    if Queued(queue, x) {
      var i :| 0 <= i < |queue| && queue[i].epoch == x;
      assert (queue + [ev])[i].epoch == x;
    }
  }

  /** Nothing has touched an epoch that is still to be given out. */
  lemma Fresh(s: State, h: seq<Launch>, x: nat)
    requires Matches(s, h) && |h| < x
    ensures Gone(s, x) && !Sleeping(s.monitor, x)
  {
  }

  lemma BeginPlaces(s: State, h: seq<Launch>)
    requires Matches(s, h) && Places(s, h) && Chained(h) && s.monitor.Backoff?
    requires !StoppedAt(s, s.monitor.launch.config.id, s.monitor.launch.parent)
    ensures Places(OnWake(s), h + [s.monitor.launch])
  {
    var t, l := OnWake(s), s.monitor.launch;
    Fresh(s, h, |h| + 1);
    assert Continues(h, l);
    assert Apart(s, l.parent);
    forall x: nat ensures Apart(t, x) {
      assert Apart(s, x);
    }
    forall i | 0 <= i < |h| && h[i].parent != 0
      ensures Gone(t, h[i].parent) && h[i].parent != l.parent
    {
      assert Continues(h[..i], h[i]);
    }
  }

  lemma StartPlaces(s: State, h: seq<Launch>, config: Config)
    requires Matches(s, h) && Places(s, h) && Chained(h)
    requires s.monitor.Respawning? ==> s.monitor.parent <= |h|
    ensures Places(Begin(s, Launch(config, 0, 0, false)), h + [Launch(config, 0, 0, false)])
  {
    var l := Launch(config, 0, 0, false);
    var t := Begin(s, l);
    Fresh(s, h, |h| + 1);
    forall x: nat ensures Apart(t, x) {
      assert Apart(s, x);
    }
    forall i | 0 <= i < |h| && h[i].parent != 0
      ensures Gone(t, h[i].parent)
    {
      assert Continues(h[..i], h[i]);
    }
  }

  lemma SpawnedPlaces(s: State, h: seq<Launch>, epoch: nat, ok: bool)
    requires Places(s, h) && epoch in s.spawning
    ensures Places(OnSpawned(s, epoch, ok), h)
  {
    var t := OnSpawned(s, epoch, ok);
    forall x: nat ensures Apart(t, x) {
      assert Apart(s, x) && Apart(s, epoch);
    }
  }

  lemma ExitsPlaces(s: State, h: seq<Launch>, e: Event)
    requires Places(s, h) && e.Exits? && Enabled(s, e)
    ensures Places(Step(s, e), h)
  {
    var t, ev := Step(s, e), Exit(s.live[e.epoch], e.epoch, e.success);
    assert Apart(s, e.epoch);
    forall x: nat ensures Apart(t, x) && (Gone(s, x) ==> Gone(t, x)) {
      assert Apart(s, x);
      QueuedSnoc(s.queue, ev, x);
    }
  }

  lemma DecidePlaces(s: State, h: seq<Launch>)
    requires Places(s, h) && s.queue != [] && s.monitor.Waiting?
    ensures Places(OnDecide(s), h)
  {
    var t, first := OnDecide(s), s.queue[0].epoch;
    assert Queued(s.queue, first);
    QueuedTail(s.queue, first);
    forall x: nat ensures Apart(t, x) && (Gone(s, x) ==> Gone(t, x) && !Sleeping(t.monitor, x)) {
      assert Apart(s, x);
      QueuedTail(s.queue, x);
    }
  }

  // ---------------------------------------------------------------------------
  // The monitor and its own spawn
  // ---------------------------------------------------------------------------

  /** A spawn with a parent is the one the monitor waits for. */
  predicate LinkedTo(m: Monitor, spawning: map<nat, Launch>) {
    && (m.Respawning? ==> m.epoch in spawning && spawning[m.epoch].parent == m.parent != 0)
    && (forall x :: x in spawning && spawning[x].parent != 0 ==> m.Respawning? && m.epoch == x)
  }

  predicate Linked(s: State) {
    LinkedTo(s.monitor, s.spawning)
  }

  lemma IdleLinked(spawning: map<nat, Launch>, m: Monitor)
    requires LinkedTo(Waiting, spawning) && !m.Respawning?
    ensures LinkedTo(m, spawning)
  {
  }

  lemma BeginLinked(s: State, h: seq<Launch>)
    requires Matches(s, h) && Linked(s)
    ensures forall l: Launch :: l.parent == 0 ==> Linked(Begin(s, l))
    ensures s.monitor.Backoff? ==> Linked(OnWake(s))
  {
    hide EntriesKnown, LiveKnown, QueueKnown, StoppedAt;
  }

  lemma StepLinked(s: State, e: Event, h: seq<Launch>)
    requires Matches(s, h) && Linked(s)
    ensures Linked(Step(s, e))
  {
    match e
    case Start(_) => BeginLinked(s, h);
    case Wake => BeginLinked(s, h);
    case Decide =>
      hide LinkedTo, WantsRestart, Current, StoppedAt, Matches;
      if Enabled(s, e) {
        IdleLinked(s.spawning, OnDecide(s).monitor);
      }
    case _ =>
  }

  lemma RespawningBound(s: State, h: seq<Launch>)
    requires Matches(s, h) && Linked(s) && Chained(h) && s.monitor.Respawning?
    ensures 0 < s.monitor.parent <= |h|
    ensures h[s.monitor.epoch - 1].config.id == h[s.monitor.parent - 1].config.id
  {
    var x := s.monitor.epoch;
    assert h[x - 1] == s.spawning[x];
    assert Continues(h[..x - 1], h[x - 1]);
  }

  lemma StepPlaces(s: State, e: Event, h: seq<Launch>)
    requires Matches(s, h) && Chained(h) && Linked(s) && Places(s, h)
    ensures Places(Step(s, e), h + Begun(s, e))
  {
    hide Matches, Chained, Apart, Gone, ExitsOnce, Sleeping;
    assert h + [] == h;
    match e
    case Start(config) =>
      if s.monitor.Respawning? {
        RespawningBound(s, h);
      }
      StartPlaces(s, h, config);
    case Spawned(epoch, ok) =>
      if Enabled(s, e) {
        SpawnedPlaces(s, h, epoch, ok);
      }
    case Exits(_, _) =>
      if Enabled(s, e) {
        ExitsPlaces(s, h, e);
      }
    case Decide =>
      if Enabled(s, e) {
        DecidePlaces(s, h);
      }
    case Wake =>
      if Enabled(s, e) {
        if StoppedAt(s, s.monitor.launch.config.id, s.monitor.launch.parent) {
          CancelPlaces(s, h);
        } else {
          BeginPlaces(s, h);
        }
      }
    case Drop =>
      if Enabled(s, e) {
        CancelPlaces(s, h);
        SamePlaces(s.(monitor := Waiting), OnDrop(s), h);
      }
    case Stop(id) => SamePlaces(s, Step(s, e), h);
    case Restart(id) => SamePlaces(s, Step(s, e), h);
  }

  lemma SamePlaces(s: State, t: State, h: seq<Launch>)
    requires Places(s, h)
    requires t.queue == s.queue && t.live == s.live && t.spawning == s.spawning && t.monitor == s.monitor
    ensures Places(t, h)
  {
    forall x: nat ensures Apart(t, x) {
      assert Apart(s, x);
    }
  }

  lemma CancelPlaces(s: State, h: seq<Launch>)
    requires Places(s, h)
    ensures Places(s.(monitor := Waiting), h)
  {
    var t := s.(monitor := Waiting);
    forall x: nat ensures Apart(t, x) {
      assert Apart(s, x);
    }
  }

  lemma RunPlaces(es: seq<Event>)
    ensures Matches(Run(es), Launches(es)) && Chained(Launches(es))
    ensures Linked(Run(es)) && Places(Run(es), Launches(es))
  {
    if es != [] {
      hide Matches, Chained, Linked, Places, Step;
      var before, e := es[..|es| - 1], es[|es| - 1];
      RunPlaces(before);
      RunMatches(es);
      StepLinked(Run(before), e, Launches(before));
      StepPlaces(Run(before), e, Launches(before));
    }
  }

  /** In every run each instance is replaced at most once: no two spawns have the same parent. */
  lemma ReplacedAtMostOnce(es: seq<Event>, i: nat, j: nat)
    requires i < |Launches(es)| && j < |Launches(es)|
    requires Launches(es)[i].parent == Launches(es)[j].parent != 0
    ensures i == j
  {
    RunPlaces(es);
  }

  // ---------------------------------------------------------------------------
  // Nothing registered is forgotten
  // ---------------------------------------------------------------------------

  predicate Held(s: State, x: nat) {
    x in s.live || Queued(s.queue, x) || InHand(s.monitor, x)
  }

  /** Instances whose replacement was begun and failed to spawn. */
  function Failed(es: seq<Event>): set<nat> {
    if es == [] then {} else Failed(es[..|es| - 1]) + FailedNow(Run(es[..|es| - 1]), es[|es| - 1])
  }

  function FailedNow(s: State, e: Event): set<nat> {
    if e.Spawned? && Enabled(s, e) && !e.ok && s.spawning[e.epoch].parent != 0 then {s.spawning[e.epoch].parent} else {}
  }

  predicate Lost(s: State, x: nat) {
    0 < x <= s.lastEpoch && x !in s.spawning && !Held(s, x)
  }

  predicate Retired(s: State, x: nat) {
    0 < x <= s.lastEpoch && x !in s.spawning && (forall p :: p in s.entries ==> s.entries[p].epoch != x)
  }

  predicate EntryKept(s: State, x: nat, failed: set<nat>) {
    0 < x <= s.lastEpoch && x !in s.spawning && (Held(s, x) <==> x !in failed)
  }

  predicate Kept(s: State, failed: set<nat>) {
    && (forall p :: p in s.entries ==> EntryKept(s, s.entries[p].epoch, failed))
    && (forall p :: p in s.stopped ==> Retired(s, s.stopped[p]))
    && (forall x :: x in failed ==> Lost(s, x))
  }

  lemma BeginKept(s: State, l: Launch, failed: set<nat>)
    requires Kept(s, failed)
    ensures Kept(Begin(s, l), failed)
  {
  }

  lemma WakeKept(s: State, failed: set<nat>)
    requires Kept(s, failed) && s.monitor.Backoff?
    ensures Kept(OnWake(s), failed)
  {
    hide Queued;
    if StoppedAt(s, s.monitor.launch.config.id, s.monitor.launch.parent) {
      assert Retired(s, s.monitor.launch.parent);
    } else {
      RespawnKept(s, failed);
    }
  }

  lemma RespawnKept(s: State, failed: set<nat>)
    requires Kept(s, failed) && s.monitor.Backoff?
    requires !StoppedAt(s, s.monitor.launch.config.id, s.monitor.launch.parent)
    ensures Kept(OnWake(s), failed)
  {
    hide Queued, StoppedAt, Kept;
    BeginKept(s, s.monitor.launch, failed);
    HeldSame(Begin(s, s.monitor.launch), OnWake(s), failed);
  }

  /** Only whether an instance is held matters, not where. */
  lemma HeldSame(s: State, t: State, failed: set<nat>)
    requires Kept(s, failed)
    requires t.entries == s.entries && t.stopped == s.stopped && t.spawning == s.spawning && t.lastEpoch == s.lastEpoch
    requires forall x: nat :: Held(t, x) <==> Held(s, x)
    ensures Kept(t, failed)
  {
    hide Held;
  }

  lemma StopKept(s: State, id: Plugin, h: seq<Launch>, failed: set<nat>)
    requires Matches(s, h) && Kept(s, failed)
    ensures Kept(OnStop(s, id), failed)
  {
    if id in s.entries {
      forall p | p in s.entries && p != id
        ensures s.entries[p].epoch != s.entries[id].epoch
      {
        assert s.entries[p].config.id == p && s.entries[id].config.id == id;
      }
    }
  }

  lemma ExitsKept(s: State, e: Event, failed: set<nat>)
    requires Kept(s, failed) && e.Exits? && Enabled(s, e)
    ensures Kept(Step(s, e), failed)
  {
    hide Kept, Queued;
    var t, ev := Step(s, e), Exit(s.live[e.epoch], e.epoch, e.success);
    forall x: nat ensures Held(t, x) <==> Held(s, x) {
      QueuedSnoc(s.queue, ev, x);
    }
    HeldSame(s, t, failed);
  }

  /** Only the plugin itself can be registered with an epoch of its own. */
  lemma SamePlugin(s: State, h: seq<Launch>, p: Plugin, id: Plugin, x: nat)
    requires EntriesKnown(s.entries, h) && p in s.entries && s.entries[p].epoch == x && IsOf(h, x, id)
    ensures p == id
  {
    assert Known(h, s.entries[p].config, s.entries[p].restarts, x);
  }

  /** An exit that is not of a registered instance can go. */
  lemma StaleKept(s: State, t: State, failed: set<nat>)
    requires Kept(s, failed) && ExitsOnce(s.queue) && s.queue != []
    requires t.stopped == s.stopped && t.spawning == s.spawning && t.lastEpoch == s.lastEpoch
    requires t.live == s.live && t.monitor == s.monitor && t.queue == s.queue[1..]
    requires forall p :: p in t.entries ==>
      p in s.entries && t.entries[p] == s.entries[p] && s.entries[p].epoch != s.queue[0].epoch
    ensures Kept(t, failed)
  {
    var first := s.queue[0].epoch;
    assert forall x: nat :: (x != first ==> (Held(t, x) <==> Held(s, x))) && (Held(t, x) ==> Held(s, x)) by {
      hide Queued, ExitsOnce, Kept;
      forall x: nat ensures (x != first ==> (Held(t, x) <==> Held(s, x))) && (Held(t, x) ==> Held(s, x)) {
        QueuedTail(s.queue, x);
      }
    }
    hide Held, ExitsOnce;
  }

  lemma DecideKept(s: State, h: seq<Launch>, failed: set<nat>)
    requires Matches(s, h) && ExitsOnce(s.queue) && Kept(s, failed) && s.queue != [] && s.monitor.Waiting?
    ensures Kept(OnDecide(s), failed)
  {
    hide Queued, WantsRestart, Matches, ExitsOnce, Kept;
    var t, ev := OnDecide(s), s.queue[0];
    MatchesParts(s, h);
    if t.monitor != Waiting {
      QueuedHead(s.queue);
      forall x: nat ensures Held(t, x) <==> Held(s, x) {
        QueuedTail(s.queue, x);
      }
      HeldSame(s, t, failed);
    } else {
      NotCurrent(s, h, failed);
      StaleKept(s, t, failed);
    }
  }

  /** An exit that leads to nothing is not of a registered instance. */
  lemma NotCurrent(s: State, h: seq<Launch>, failed: set<nat>)
    requires EntriesKnown(s.entries, h) && Kept(s, failed) && s.queue != [] && IsOf(h, s.queue[0].epoch, s.queue[0].id)
    requires s.monitor.Waiting? && OnDecide(s).monitor.Waiting?
    ensures forall p :: p in OnDecide(s).entries ==>
      p in s.entries && OnDecide(s).entries[p] == s.entries[p] && s.entries[p].epoch != s.queue[0].epoch
  {
    hide WantsRestart, EntriesKnown, IsOf, EntryKept;
    var t, ev := OnDecide(s), s.queue[0];
    if StoppedAt(s, ev.id, ev.epoch) {
      assert Retired(s, ev.epoch);
    }
    forall p | p in t.entries ensures s.entries[p].epoch != ev.epoch {
      if s.entries[p].epoch == ev.epoch {
        SamePlugin(s, h, p, ev.id, ev.epoch);
      }
    }
  }

  /** The instance that exited is no longer registered after the drop, if it still was. */
  lemma DropKept(s: State, h: seq<Launch>, failed: set<nat>)
    requires Matches(s, h) && Kept(s, failed) && s.monitor.Dropping?
    ensures Kept(OnDrop(s), failed)
  {
    hide Queued, Continues, SpawnsKnown, LiveKnown, QueueKnown;
    var t, id, x := OnDrop(s), s.monitor.plugin, s.monitor.exited;
    forall p | p in s.entries && s.entries[p].epoch == x ensures p == id {
      SamePlugin(s, h, p, id, x);
    }
    forall p | p in t.entries ensures EntryKept(t, t.entries[p].epoch, failed) {
      assert EntryKept(s, s.entries[p].epoch, failed);
    }
  }

  lemma QueuedHead(queue: seq<Exit>)
    requires queue != []
    ensures Queued(queue, queue[0].epoch)
  {
  }

  lemma MatchesParts(s: State, h: seq<Launch>)
    requires Matches(s, h) && s.queue != []
    ensures EntriesKnown(s.entries, h) && IsOf(h, s.queue[0].epoch, s.queue[0].id)
  {
  }

  lemma FailureKept(s: State, epoch: nat, failed: set<nat>)
    requires Linked(s) && Kept(s, failed) && epoch in s.spawning
    requires Apart(s, s.spawning[epoch].parent) && s.spawning[epoch].parent <= s.lastEpoch
    ensures Kept(OnSpawned(s, epoch, false), failed + FailedNow(s, Spawned(epoch, false)))
  {
    hide Queued;
    var t, parent := OnSpawned(s, epoch, false), s.spawning[epoch].parent;
    forall p | p in t.entries
      ensures EntryKept(t, t.entries[p].epoch, failed + FailedNow(s, Spawned(epoch, false)))
    {
      assert EntryKept(s, s.entries[p].epoch, failed);
    }
  }

  lemma SuccessKept(s: State, epoch: nat, failed: set<nat>)
    requires Linked(s) && Kept(s, failed) && epoch in s.spawning && 0 < epoch <= s.lastEpoch
    requires forall p ::
      p in s.entries && s.entries[p].epoch == s.spawning[epoch].parent ==> p == s.spawning[epoch].config.id
    ensures Kept(OnSpawned(s, epoch, true), failed)
  {
    hide Queued;
    var t := OnSpawned(s, epoch, true);
    forall p | p in t.entries ensures EntryKept(t, t.entries[p].epoch, failed) {
      if p != s.spawning[epoch].config.id {
        assert EntryKept(s, s.entries[p].epoch, failed);
      }
    }
    forall x | x in failed ensures Lost(t, x) {
      assert Lost(s, x);
    }
  }

  lemma SpawnedKept(s: State, h: seq<Launch>, epoch: nat, ok: bool, failed: set<nat>)
    requires Matches(s, h) && Chained(h) && Linked(s) && Kept(s, failed) && epoch in s.spawning
    requires forall x: nat :: Apart(s, x)
    ensures Kept(OnSpawned(s, epoch, ok), failed + FailedNow(s, Spawned(epoch, ok)))
  {
    hide Kept, Apart, Known;
    var l := s.spawning[epoch];
    if l.parent != 0 {
      RespawningBound(s, h);
    }
    if ok {
      forall p | p in s.entries && s.entries[p].epoch == l.parent ensures p == l.config.id {
        assert Known(h, s.entries[p].config, s.entries[p].restarts, l.parent);
        KnownPositive(h, s.entries[p].config, s.entries[p].restarts, l.parent);
        SamePlugin(s, h, p, l.config.id, l.parent);
      }
      SuccessKept(s, epoch, failed);
      assert failed + {} == failed;
    } else {
      assert Apart(s, l.parent);
      FailureKept(s, epoch, failed);
    }
  }

  lemma KnownPositive(h: seq<Launch>, config: Config, count: nat, epoch: nat)
    requires Known(h, config, count, epoch)
    ensures 0 < epoch
  {
  }

  lemma StepKept(s: State, e: Event, h: seq<Launch>, failed: set<nat>)
    requires Matches(s, h) && Chained(h) && Linked(s) && Places(s, h) && Kept(s, failed)
    ensures Kept(Step(s, e), failed + FailedNow(s, e))
  {
    hide Matches, Chained, Linked, Apart, Gone, ExitsOnce, Sleeping, Kept;
    assert failed + {} == failed;
    match e
    case Start(config) => BeginKept(s, Launch(config, 0, 0, false), failed);
    case Spawned(epoch, ok) =>
      if Enabled(s, e) {
        SpawnedKept(s, h, epoch, ok, failed);
      }
    case Exits(_, _) =>
      if Enabled(s, e) {
        ExitsKept(s, e, failed);
      }
    case Decide =>
      if Enabled(s, e) {
        DecideKept(s, h, failed);
      }
    case Wake =>
      if Enabled(s, e) {
        WakeKept(s, failed);
      }
    case Drop =>
      if Enabled(s, e) {
        DropKept(s, h, failed);
      }
    case Stop(id) => StopKept(s, id, h, failed);
    case Restart(id) => ForcedKept(s, s.forced + {id}, failed);
  }

  lemma ForcedKept(s: State, forced: set<Plugin>, failed: set<nat>)
    requires Kept(s, failed)
    ensures Kept(s.(forced := forced), failed)
  {
  }

  lemma RunKept(es: seq<Event>)
    ensures Kept(Run(es), Failed(es))
  {
    if es != [] {
      hide Matches, Chained, Linked, Places, Kept, Step;
      var before, e := es[..|es| - 1], es[|es| - 1];
      RunKept(before);
      RunPlaces(before);
      StepKept(Run(before), e, Launches(before), Failed(before));
    }
  }

  /** In every run a registered instance is live, has its exit queued or is in the monitor's hand,
      exactly when no spawn in its place has failed. After a failed one the entry stays and the
      plugin counts as running with no process and no restart to come. */
  lemma RegisteredIsHeldUnlessFailed(es: seq<Event>, id: Plugin)
    requires id in Run(es).entries
    ensures Held(Run(es), Run(es).entries[id].epoch) <==> Run(es).entries[id].epoch !in Failed(es)
  {
    RunKept(es);
    assert EntryKept(Run(es), Run(es).entries[id].epoch, Failed(es));
  }

  /** In every run the monitor takes an exit up if and only if it is of the registered instance at
      that moment. The decision itself leaves the table alone. */
  lemma ActsOnlyOnCurrentExits(es: seq<Event>)
    requires Enabled(Run(es), Decide)
    ensures var s, t := Run(es), Step(Run(es), Decide);
            && (t.monitor != s.monitor <==> Current(s, s.queue[0]))
            && t.entries == s.entries && t.stopped == s.stopped && t.live == s.live && t.spawning == s.spawning && t.queue == s.queue[1..]
  {
    hide Kept, StoppedAt, Current, OnDecide, RunFrom;
    RunKept(es);
    StoppedIsNotCurrent(Run(es), Failed(es));
    DecideActs(Run(es));
  }

  lemma StoppedIsNotCurrent(s: State, failed: set<nat>)
    requires Kept(s, failed) && s.queue != []
    ensures StoppedAt(s, s.queue[0].id, s.queue[0].epoch) ==> !Current(s, s.queue[0])
  {
    hide EntryKept, Lost;
    if StoppedAt(s, s.queue[0].id, s.queue[0].epoch) {
      assert Retired(s, s.queue[0].epoch);
    }
  }

  lemma DecideActs(s: State)
    requires s.queue != [] && s.monitor.Waiting?
    requires StoppedAt(s, s.queue[0].id, s.queue[0].epoch) ==> !Current(s, s.queue[0])
    ensures var t := OnDecide(s);
            && (t.monitor != s.monitor <==> Current(s, s.queue[0]))
            && t.entries == s.entries && t.stopped == s.stopped && t.live == s.live && t.spawning == s.spawning && t.queue == s.queue[1..]
  {
    hide WantsRestart, StoppedAt;
  }
}
