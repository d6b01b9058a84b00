/** The supervisor's tables as they are updated in place. Each method is one step of the model. */
module SupervisorProcess {
  import opened Collections
  import opened SupervisorModel

  class Supervisor {
    var entries: map<Plugin, Entry>
    var forcedRestarts: set<Plugin>
    var stoppedEpochs: map<Plugin, nat>
    var stoppedCounts: map<Plugin, nat>
    var nextEpoch: nat
    var spawning: map<nat, Launch>
    var live: map<nat, Plugin>
    var events: seq<Exit>
    var monitor: Monitor

    ghost function View(): State
      reads this
    {
      State(entries, forcedRestarts, stoppedEpochs, stoppedCounts, nextEpoch, spawning, live, events, monitor)
    }

    constructor ()
      ensures View() == Init()
    {
      entries, forcedRestarts, stoppedEpochs, stoppedCounts := map[], {}, map[], map[];
      nextEpoch, spawning, live, events, monitor := 0, map[], map[], [], Waiting;
    }

    /** The part of `spawn_internal` up to the first suspension, behind its guard. */
    method BeginSpawn(launch: Launch) returns (epoch: nat)
      modifies this`nextEpoch, this`spawning
      ensures View() == Begin(old(View()), launch) && epoch == nextEpoch
    {
      nextEpoch := nextEpoch + 1;
      epoch := nextEpoch;
      spawning := spawning[epoch := launch];
    }

    /** `started` is false when the plugin is already registered. */
    method SpawnPlugin(config: Config) returns (started: bool)
      modifies this
      ensures View() == Step(old(View()), Start(config)) && started == (config.id !in old(entries))
    {
      started := config.id !in entries;
      if started {
        var _ := BeginSpawn(Launch(config, 0, 0, false));
      }
    }

    /** The rest of `spawn_internal`: the process came up or it did not. */
    method FinishSpawn(epoch: nat, ok: bool)
      requires epoch in spawning
      modifies this
      ensures View() == Step(old(View()), Spawned(epoch, ok))
    {
      var launch := spawning[epoch];
      spawning := spawning - {epoch};
      if ok {
        entries := entries[launch.config.id := Entry(launch.config, launch.count, epoch)];
        live := live[epoch := launch.config.id];
      }
      if monitor.Respawning? && monitor.epoch == epoch {
        monitor := Waiting;
      }
    }

    method StopPlugin(id: Plugin) returns (found: bool)
      modifies this
      ensures View() == Step(old(View()), Stop(id)) && found == (id in old(entries))
    {
      found := id in entries;
      if found {
        var entry := entries[id];
        entries := entries - {id};
        stoppedEpochs := stoppedEpochs[id := entry.epoch];
        forcedRestarts := forcedRestarts - {id};
      }
    }

    method RestartPlugin(id: Plugin) returns (found: bool)
      modifies this`forcedRestarts
      ensures View() == Step(old(View()), Restart(id)) && found == (id in old(entries))
    {
      found := id in entries;
      if found {
        forcedRestarts := forcedRestarts + {id};
      }
    }

    /** Whoever waits for the child sends its one exit event to the monitor. */
    method ChildExited(epoch: nat, success: bool)
      requires epoch in live
      modifies this`live, this`events
      ensures View() == Step(old(View()), Exits(epoch, success))
    {
      events := events + [Exit(live[epoch], epoch, success)];
      live := live - {epoch};
    }

    /** One turn of the monitor loop up to its first suspension. */
    method Receive()
      requires monitor.Waiting? && events != []
      modifies this
      ensures View() == Step(old(View()), Decide)
    {
      var event := events[0];
      events := events[1..];
      var forced := event.id in forcedRestarts;
      forcedRestarts := forcedRestarts - {event.id};
      if event.id !in entries || entries[event.id].epoch != event.epoch {
        return;
      }
      if event.id in stoppedEpochs && stoppedEpochs[event.id] == event.epoch {
        return;
      }
      var entry := entries[event.id];
      var should := forced;
      if !forced {
        match entry.config.policy {
          case Never =>
          case Always => should := entry.restarts < entry.config.maxRestarts;
          case OnFailure => should := !event.success && entry.restarts < entry.config.maxRestarts;
        }
      }
      if should {
        monitor := Backoff(Launch(entry.config, entry.restarts + 1, event.epoch, forced));
      } else {
        monitor := Dropping(event.id, event.epoch);
      }
    }

    /** The rest of a turn without a restart, after the death was published. */
    method DropDead()
      requires monitor.Dropping?
      modifies this
      ensures View() == Step(old(View()), Drop)
    {
      var id := monitor.plugin;
      var finalCount := if id in entries then entries[id].restarts else 0;
      entries := entries - {id};
      stoppedCounts := stoppedCounts[id := finalCount];
      monitor := Waiting;
    }

    /** The rest of a turn with a restart, after the backoff. */
    method Awake()
      requires monitor.Backoff?
      modifies this
      ensures View() == Step(old(View()), Wake)
    {
      var launch := monitor.launch;
      if launch.config.id in stoppedEpochs && stoppedEpochs[launch.config.id] == launch.parent {
        monitor := Waiting;
        return;
      }
      var epoch := BeginSpawn(launch);
      monitor := Respawning(epoch, launch.parent);
    }

    /** The count of the registered instance, or of the one dropped last. */
    method RestartCount(id: Plugin) returns (count: Option<nat>)
      ensures id in entries ==> count == Some(entries[id].restarts)
      ensures id !in entries && id in stoppedCounts ==> count == Some(stoppedCounts[id])
      ensures id !in entries && id !in stoppedCounts ==> count == None
    {
      if id in entries {
        return Some(entries[id].restarts);
      }
      count := if id in stoppedCounts then Some(stoppedCounts[id]) else None;
    }
  }
}
