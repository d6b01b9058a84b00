/** What holds over every interleaving of starts, stops, manual restarts, exits and wake-ups. */
module SupervisorRuns {
  import opened SupervisorModel

  // ---------------------------------------------------------------------------
  // The record of all spawns: epoch e is the e-th one
  // ---------------------------------------------------------------------------

  /** The spawn a step begins, as a sequence of none or one. */
  function Begun(s: State, e: Event): seq<Launch> {
    match e
    case Start(config) => if config.id in s.entries then [] else [Launch(config, 0, 0, false)]
    case Wake =>
      if s.monitor.Backoff? && !StoppedAt(s, s.monitor.launch.config.id, s.monitor.launch.parent)
      then [s.monitor.launch] else []
    case _ => []
  }

  function Launches(es: seq<Event>): seq<Launch> {
    if es == [] then [] else Launches(es[..|es| - 1]) + Begun(Run(es[..|es| - 1]), es[|es| - 1])
  }

  predicate Known(h: seq<Launch>, config: Config, count: nat, epoch: nat) {
    0 < epoch <= |h| && h[epoch - 1].config == config && h[epoch - 1].count == count
  }

  /** A replacement continues an earlier spawn of the same plugin, and the policy allowed it. */
  predicate Continues(h: seq<Launch>, l: Launch) {
    && 0 < l.count
    && Known(h, l.config, l.count - 1, l.parent)
    && (l.forced || (l.config.policy != Never && l.count <= l.config.maxRestarts))
  }

  predicate Chained(h: seq<Launch>) {
    forall i :: 0 <= i < |h| ==> (h[i].parent == 0 && h[i].count == 0) || Continues(h[..i], h[i])
  }

  predicate EntriesKnown(entries: map<Plugin, Entry>, h: seq<Launch>) {
    forall p :: p in entries ==>
      entries[p].config.id == p && Known(h, entries[p].config, entries[p].restarts, entries[p].epoch)
  }

  predicate SpawnsKnown(spawning: map<nat, Launch>, h: seq<Launch>) {
    forall x :: x in spawning ==> 0 < x <= |h| && h[x - 1] == spawning[x]
  }

  predicate IsOf(h: seq<Launch>, epoch: nat, id: Plugin) {
    0 < epoch <= |h| && h[epoch - 1].config.id == id
  }

  predicate LiveKnown(live: map<nat, Plugin>, h: seq<Launch>) {
    forall x :: x in live ==> IsOf(h, x, live[x])
  }

  predicate QueueKnown(queue: seq<Exit>, h: seq<Launch>) {
    forall i :: 0 <= i < |queue| ==> IsOf(h, queue[i].epoch, queue[i].id)
  }

  /** State and record tell the same story. */
  predicate Matches(s: State, h: seq<Launch>) {
    && |h| == s.lastEpoch
    && EntriesKnown(s.entries, h)
    && SpawnsKnown(s.spawning, h)
    && LiveKnown(s.live, h)
    && QueueKnown(s.queue, h)
    && (s.monitor.Backoff? ==> Continues(h, s.monitor.launch))
    && (s.monitor.Dropping? ==> IsOf(h, s.monitor.exited, s.monitor.plugin))
  }

  lemma MatchesGrows(s: State, h: seq<Launch>, l: Launch)
    requires Matches(s, h)
    ensures EntriesKnown(s.entries, h + [l]) && LiveKnown(s.live, h + [l]) && QueueKnown(s.queue, h + [l])
    ensures SpawnsKnown(s.spawning[|h| + 1 := l], h + [l])
  {
  }

  lemma ContinuesGrows(h: seq<Launch>, more: seq<Launch>, l: Launch)
    requires Continues(h, l)
    ensures Continues(h + more, l)
  {
  }

  lemma ChainedSnoc(h: seq<Launch>, l: Launch)
    requires Chained(h)
    requires (l.parent == 0 && l.count == 0) || Continues(h, l)
    ensures Chained(h + [l])
  {
    var g := h + [l];
    forall i | 0 <= i < |g|
      ensures (g[i].parent == 0 && g[i].count == 0) || Continues(g[..i], g[i])
    {
      if i < |h| {
        assert g[..i] == h[..i];
      } else {
        assert g[..i] == h;
      }
    }
  }

  lemma BeginMatches(s: State, h: seq<Launch>, l: Launch)
    requires Matches(s, h)
    ensures Matches(Begin(s, l), h + [l])
  {
    MatchesGrows(s, h, l);
    if s.monitor.Backoff? {
      ContinuesGrows(h, [l], s.monitor.launch);
    }
  }

  lemma SpawnedMatches(s: State, epoch: nat, ok: bool, h: seq<Launch>)
    requires Matches(s, h) && epoch in s.spawning
    ensures Matches(OnSpawned(s, epoch, ok), h)
  {
    hide Continues;
  }

  lemma ExitsMatches(s: State, e: Event, h: seq<Launch>)
    requires Matches(s, h) && e.Exits? && Enabled(s, e)
    ensures Matches(Step(s, e), h)
  {
    hide Continues, Known, IsOf;
    assert IsOf(h, e.epoch, s.live[e.epoch]);
  }

  lemma DecideMatches(s: State, h: seq<Launch>)
    requires Matches(s, h) && s.queue != [] && s.monitor.Waiting?
    ensures Matches(OnDecide(s), h)
  {
    hide Known, IsOf;
    var t, id := OnDecide(s), s.queue[0].id;
    assert QueueKnown(t.queue, h) by {
      assert forall i :: 0 <= i < |t.queue| ==> t.queue[i] == s.queue[i + 1];
    }
    if t.monitor.Backoff? {
      var entry := s.entries[id];
      assert Known(h, entry.config, entry.restarts, entry.epoch);
    }
  }

  lemma StepMatches(s: State, e: Event, h: seq<Launch>)
    requires Matches(s, h)
    ensures Matches(Step(s, e), h + Begun(s, e))
  {
    hide Continues, Known, IsOf;
    assert h + [] == h;
    match e
    case Start(config) => BeginMatches(s, h, Launch(config, 0, 0, false));
    case Spawned(epoch, ok) =>
      if Enabled(s, e) {
        SpawnedMatches(s, epoch, ok, h);
      }
    case Exits(_, _) =>
      if Enabled(s, e) {
        ExitsMatches(s, e, h);
      }
    case Decide =>
      if Enabled(s, e) {
        DecideMatches(s, h);
      }
    case Wake =>
      if Enabled(s, e) {
        BeginMatches(s, h, s.monitor.launch);
      }
    case _ =>
  }

  lemma RunMatches(es: seq<Event>)
    ensures Matches(Run(es), Launches(es)) && Chained(Launches(es))
  {
    if es != [] {
      var before, e := es[..|es| - 1], es[|es| - 1];
      RunMatches(before);
      StepMatches(Run(before), e, Launches(before));
      if Begun(Run(before), e) != [] {
        ChainedSnoc(Launches(before), Begun(Run(before), e)[0]);
      } else {
        assert Launches(es) == Launches(before);
      }
    }
  }

  // ---------------------------------------------------------------------------
  // Restart counts
  // ---------------------------------------------------------------------------

  /** Restarts that led to `epoch`, following the replacements back to a requested start. */
  function Restarts(h: seq<Launch>, epoch: nat): nat
    requires epoch <= |h|
  {
    if epoch == 0 || h[epoch - 1].parent == 0 || h[epoch - 1].parent >= epoch then 0
    else 1 + Restarts(h, h[epoch - 1].parent)
  }

  /** Those of them that no manual restart asked for. */
  function PolicyRestarts(h: seq<Launch>, epoch: nat): nat
    requires epoch <= |h|
  {
    if epoch == 0 || h[epoch - 1].parent == 0 || h[epoch - 1].parent >= epoch then 0
    else (if h[epoch - 1].forced then 0 else 1) + PolicyRestarts(h, h[epoch - 1].parent)
  }

  /** All spawns the chain goes back over have this configuration. */
  predicate SameConfig(h: seq<Launch>, epoch: nat, config: Config)
    requires epoch <= |h|
  {
    epoch == 0 ||
    (h[epoch - 1].config == config && (h[epoch - 1].parent < epoch ==> SameConfig(h, h[epoch - 1].parent, config)))
  }

  lemma {:induction false} ChainCounts(h: seq<Launch>, epoch: nat)
    requires Chained(h) && 0 < epoch <= |h|
    ensures h[epoch - 1].count == Restarts(h, epoch)
    ensures PolicyRestarts(h, epoch) <= Restarts(h, epoch)
    ensures PolicyRestarts(h, epoch) <= h[epoch - 1].config.maxRestarts
    ensures h[epoch - 1].config.policy == Never ==> PolicyRestarts(h, epoch) == 0
    ensures SameConfig(h, epoch, h[epoch - 1].config)
  {
    var l := h[epoch - 1];
    if l.parent != 0 {
      assert Continues(h[..epoch - 1], l);
      ChainCounts(h, l.parent);
    }
  }

  /** In every run the count of a registered instance is the number of restarts made since the
      start it goes back to, all of that plugin under the same configuration, and those decided by
      the policy alone never exceed the configured maximum and are none under `Never`. */
  lemma CountsAreRestarts(es: seq<Event>, id: Plugin)
    requires id in Run(es).entries
    ensures var entry, h := Run(es).entries[id], Launches(es);
            && 0 < entry.epoch <= |h|
            && SameConfig(h, entry.epoch, entry.config) && entry.config.id == id
            && entry.restarts == Restarts(h, entry.epoch)
            && PolicyRestarts(h, entry.epoch) <= entry.config.maxRestarts
            && (entry.config.policy == Never ==> PolicyRestarts(h, entry.epoch) == 0)
  {
    RunMatches(es);
    ChainCounts(Launches(es), Run(es).entries[id].epoch);
  }
}
