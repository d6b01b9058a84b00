/** Lifecycle of supervised plugin processes: `spawn_plugin`, `stop_plugin` and `restart_plugin` of
    `src/plugins/supervisor/mod.rs`, `spawn_internal` of `spawn.rs` and `monitor_loop` of
    `watchdog.rs`. A spawn is two steps, the guard that takes an epoch and the later insertion of
    the entry. The monitor decides on an exit in one step and carries the decision out in another,
    after publishing the death and, for a restart, sleeping. Everything else may happen in
    between. */
module SupervisorModel {

  type Plugin = string

  datatype Policy = Always | OnFailure | Never

  datatype Config = Config(id: Plugin, policy: Policy, maxRestarts: nat)

  datatype Entry = Entry(config: Config, restarts: nat, epoch: nat)

  datatype Exit = Exit(id: Plugin, epoch: nat, success: bool)

  /** A spawn under way. `parent` is the epoch it replaces, 0 for a requested start. `forced` says
      that a manual restart asked for it. */
  datatype Launch = Launch(config: Config, count: nat, parent: nat, forced: bool)

  /** The monitor waits for an exit, sleeps before replacing `launch.parent`, waits for the spawn
      of `epoch` in place of `parent`, or publishes before it drops `plugin` for the exit of
      instance `exited`. */
  datatype Monitor =
    | Waiting
    | Backoff(launch: Launch)
    | Respawning(epoch: nat, parent: nat)
    | Dropping(plugin: Plugin, exited: nat)

  /** `live` are the processes whose exit is not queued yet. Epochs count from 1. */
  datatype State = State(
    entries: map<Plugin, Entry>, forced: set<Plugin>, stopped: map<Plugin, nat>, finalCounts: map<Plugin, nat>,
    lastEpoch: nat, spawning: map<nat, Launch>, live: map<nat, Plugin>, queue: seq<Exit>, monitor: Monitor)

  datatype Event =
    | Start(config: Config)
    | Spawned(epoch: nat, ok: bool)
    | Stop(id: Plugin)
    | Restart(id: Plugin)
    | Exits(epoch: nat, success: bool)
    | Decide
    | Wake
    | Drop

  function Init(): State {
    State(map[], {}, map[], map[], 0, map[], map[], [], Waiting)
  }

  function Begin(s: State, launch: Launch): State {
    s.(lastEpoch := s.lastEpoch + 1, spawning := s.spawning[s.lastEpoch + 1 := launch])
  }

  function OnSpawned(s: State, epoch: nat, ok: bool): State
    requires epoch in s.spawning
  {
    var l := s.spawning[epoch];
    var t := s.(spawning := s.spawning - {epoch},
      monitor := if s.monitor.Respawning? && s.monitor.epoch == epoch then Waiting else s.monitor);
    if !ok then t
    else t.(entries := s.entries[l.config.id := Entry(l.config, l.count, epoch)], live := s.live[epoch := l.config.id])
  }

  function OnStop(s: State, id: Plugin): State {
    if id !in s.entries then s
    else s.(entries := s.entries - {id}, stopped := s.stopped[id := s.entries[id].epoch], forced := s.forced - {id})
  }

  predicate WantsRestart(entry: Entry, success: bool) {
    match entry.config.policy
    case Never => false
    case Always => entry.restarts < entry.config.maxRestarts
    case OnFailure => !success && entry.restarts < entry.config.maxRestarts
  }

  predicate Current(s: State, ev: Exit) {
    ev.id in s.entries && s.entries[ev.id].epoch == ev.epoch
  }

  predicate StoppedAt(s: State, id: Plugin, epoch: nat) {
    id in s.stopped && s.stopped[id] == epoch
  }

  /** The monitor takes the next exit. The forced mark is consumed before the staleness test. */
  function OnDecide(s: State): State
    requires s.queue != []
  {
    var ev := s.queue[0];
    var t := s.(queue := s.queue[1..], forced := s.forced - {ev.id});
    if !Current(s, ev) || StoppedAt(s, ev.id, ev.epoch) then t
    else
      var entry := s.entries[ev.id];
      if ev.id in s.forced || WantsRestart(entry, ev.success)
      then t.(monitor := Backoff(Launch(entry.config, entry.restarts + 1, ev.epoch, ev.id in s.forced)))
      else t.(monitor := Dropping(ev.id, ev.epoch))
  }

  /** The entry that is there now goes, whichever instance it is of. */
  function OnDrop(s: State): State
    requires s.monitor.Dropping?
  {
    var id := s.monitor.plugin;
    s.(entries := s.entries - {id}, monitor := Waiting,
      finalCounts := s.finalCounts[id := if id in s.entries then s.entries[id].restarts else 0])
  }

  /** The respawn is dropped when the recorded stop of the plugin is of the instance to replace. */
  function OnWake(s: State): State
    requires s.monitor.Backoff?
  {
    var l := s.monitor.launch;
    if StoppedAt(s, l.config.id, l.parent) then s.(monitor := Waiting)
    else Begin(s, l).(monitor := Respawning(s.lastEpoch + 1, l.parent))
  }

  predicate Enabled(s: State, e: Event) {
    match e
    case Spawned(epoch, _) => epoch in s.spawning
    case Exits(epoch, _) => epoch in s.live
    case Decide => s.monitor.Waiting? && s.queue != []
    case Wake => s.monitor.Backoff?
    case Drop => s.monitor.Dropping?
    case _ => true
  }

  function Step(s: State, e: Event): State {
    if !Enabled(s, e) then s
    else
      match e
      case Start(config) => if config.id in s.entries then s else Begin(s, Launch(config, 0, 0, false))
      case Spawned(epoch, ok) => OnSpawned(s, epoch, ok)
      case Stop(id) => OnStop(s, id)
      case Restart(id) => if id in s.entries then s.(forced := s.forced + {id}) else s
      case Exits(epoch, success) =>
        s.(live := s.live - {epoch}, queue := s.queue + [Exit(s.live[epoch], epoch, success)])
      case Decide => OnDecide(s)
      case Wake => OnWake(s)
      case Drop => OnDrop(s)
  }

  function RunFrom(s: State, es: seq<Event>): State {
    if es == [] then s else Step(RunFrom(s, es[..|es| - 1]), es[|es| - 1])
  }

  function Run(es: seq<Event>): State {
    RunFrom(Init(), es)
  }

  lemma RunSnoc(s: State, before: seq<Event>, e: Event)
    ensures RunFrom(s, before + [e]) == Step(RunFrom(s, before), e)
  {
    assert (before + [e])[..|before + [e]| - 1] == before;
  }

  lemma {:induction false} RunConcat(s: State, a: seq<Event>, b: seq<Event>)
    ensures RunFrom(s, a + b) == RunFrom(RunFrom(s, a), b)
  {
    if b == [] {
      assert a + b == a;
    } else {
      hide Step;
      RunConcat(s, a, b[..|b| - 1]);
      assert (a + b)[..|a + b| - 1] == a + b[..|b| - 1];
    }
  }

  lemma RunOne(s: State, e: Event)
    ensures RunFrom(s, [e]) == Step(s, e)
  {
    RunSnoc(s, [], e);
    assert [] + [e] == [e];
  }

  lemma RunTwo(s: State, e: Event, f: Event)
    ensures RunFrom(s, [e, f]) == Step(Step(s, e), f)
  {
    RunOne(s, e);
    RunSnoc(s, [e], f);
    assert [e] + [f] == [e, f];
  }

  // ---------------------------------------------------------------------------
  // Backoff delay
  // ---------------------------------------------------------------------------

  function Pow2(k: nat): nat {
    if k == 0 then 1 else 2 * Pow2(k - 1)
  }

  /** `base * 2^min(count, 8)`, saturating at 64 bits, then capped. */
  function BackoffDelay(base: nat, max: nat, count: nat): nat {
    var ms := base * Pow2(if count < 8 then count else 8);
    var saturated := if ms < 0x1_0000_0000_0000_0000 then ms else 0xFFFF_FFFF_FFFF_FFFF;
    if saturated < max then saturated else max
  }

  function Min(a: nat, b: nat): nat {
    if a < b then a else b
  }

  /** The delay starts at the base, doubles for eight restarts and then stays, never above the cap;
      so it never falls and saturation never shows. */
  lemma BackoffDoubles(base: nat, max: nat, count: nat)
    requires max < 0x1_0000_0000_0000_0000
    ensures BackoffDelay(base, max, 0) == Min(base, max)
    ensures BackoffDelay(base, max, count + 1)
         == if count < 8 then Min(2 * BackoffDelay(base, max, count), max) else BackoffDelay(base, max, count)
    ensures BackoffDelay(base, max, count) <= BackoffDelay(base, max, count + 1) <= max
  {
    assert Pow2(0) == 1;
    if count < 8 {
      assert Pow2(count + 1) == 2 * Pow2(count);
      assert base * Pow2(count + 1) == 2 * (base * Pow2(count));
    }
  }

  /** The exit of a registered, unstopped instance leads to a restart if and only if the plugin is
      marked for one, or the policy wants it and there is one left; otherwise the plugin is about to
      be dropped. The mark is consumed, the table is as before. */
  lemma RestartsIff(s: State)
    requires s.queue != [] && s.monitor.Waiting? && Current(s, s.queue[0])
    requires !StoppedAt(s, s.queue[0].id, s.queue[0].epoch)
    ensures var ev, entry, t := s.queue[0], s.entries[s.queue[0].id], Step(s, Decide);
            var policy := entry.config.policy;
            var wants := ev.id in s.forced
              || (entry.restarts < entry.config.maxRestarts && (policy == Always || (policy == OnFailure && !ev.success)));
            && (t.monitor.Backoff? <==> wants)
            && (wants ==> t.monitor.launch.parent == ev.epoch)
            && (!wants ==> t.monitor == Dropping(ev.id, ev.epoch))
            && t.entries == s.entries && t.finalCounts == s.finalCounts && ev.id !in t.forced
  {
  }
}
