/** Safety of pending actions over whole runs: who can touch an entry, where its messages go,
    how many a caller may hold, and what the two sweeps leave behind. */
module ActionSafety {
  import opened Collections
  import opened ActionIds
  import opened ActionProtocol
  import opened ActionSteps
  import opened ActionRuns
  import opened ActionStreams

  // ---------------------------------------------------------------------------
  // Strangers
  // ---------------------------------------------------------------------------

  /** The plugin whose message a step handles; the prune tick has none. */
  function Actor(e: Event): Option<Plugin> {
    match e
    case Request(sender, _, _, _, _, _, _) => Some(sender)
    case Response(from, _, _, _, _, _) => from
    case RequestChunk(sender, _, _, _, _, _, _) => Some(sender)
    case ResponseChunk(from, _, _, _, _, _) => from
    case SessionClose(from, _, _, _, _, _) => from
    case MuxRequest(sender, _, _, _, _, _) => Some(sender)
    case PruneTick(_, _, _, _, _) => None
  }

  /** A step taken for anyone but the requester and the routed provider leaves a
      kernel-routed entry as it is, whatever action id it names, and says nothing about it. */
  lemma StrangersChangeNothing(cfg: Config, es: seq<Event>, e: Event, n: nat)
    requires MuxClean(es) && CleanEvent(e) && !e.PruneTick?
    requires KernelId(n) in Run(cfg, es).state.pending
    requires var p := Run(cfg, es).state.pending[KernelId(n)];
             Actor(e) != Some(p.requester) && Actor(e) != Some(p.provider)
    ensures var s, t := Run(cfg, es).state, Run(cfg, es + [e]).state;
            KernelId(n) in t.pending && t.pending[KernelId(n)] == s.pending[KernelId(n)]
    ensures Heard(cfg, es + [e], n) == Heard(cfg, es, n)
  {
    var s, key := Run(cfg, es).state, KernelId(n);
    RunInv(cfg, es);
    assert IsKernelId(key);
    StepLeavesToStrangers(cfg, s, e, n);
    hide Run, Step, Trace, Inv, Said;
    RunStep(cfg, es, e);
    StepTrace(cfg, s, e, key);
    TraceConcat(Run(cfg, es).outs, Step(cfg, s, e).outs, key);
  }

  lemma StepLeavesToStrangers(cfg: Config, s: State, e: Event, n: nat)
    requires Inv(s) && CleanEvent(e) && !e.PruneTick? && KernelId(n) in s.pending
    requires var p := s.pending[KernelId(n)]; Actor(e) != Some(p.requester) && Actor(e) != Some(p.provider)
    ensures var t := Step(cfg, s, e).state;
            KernelId(n) in t.pending && t.pending[KernelId(n)] == s.pending[KernelId(n)]
    ensures Said(cfg, s, e, KernelId(n)) == []
  {
    assert IsKernelId(KernelId(n));
    if Mints(cfg, s, e) && KernelId(n) == KernelId(s.next) {
      FreshId(s, n);
    }
  }

  // ---------------------------------------------------------------------------
  // Addressing
  // ---------------------------------------------------------------------------

  /** A message about `key` goes to that action's ends under the right names. */
  predicate Addressed(o: Out, key: Key, p: Pending) {
    && (o.ToRequester? && o.key == key ==> o.chan == p.chan && o.original == p.original)
    && (o.ToProvider? && o.key == key ==> o.provider == p.provider)
  }

  predicate About(o: Out, key: Key) {
    (o.ToRequester? || o.ToProvider?) && o.key == key
  }

  lemma {:induction false} SweepsAddressed(s: State, keys: seq<Key>, up: set<Plugin>, key: Key)
    requires forall k :: k in keys ==> k in s.pending
    ensures forall o :: o in Timeouts(s, keys) + IdleAborts(s, keys, up) && About(o, key) ==>
              key in s.pending && Addressed(o, key, s.pending[key])
  {
    if keys != [] {
      var front := keys[..|keys| - 1];
      assert forall k :: k in front ==> k in keys;
      assert keys[|keys| - 1] in keys;
      SweepsAddressed(s, front, up, key);
    }
  }

  lemma StepAddressed(cfg: Config, s: State, e: Event, key: Key)
    ensures forall o :: o in Step(cfg, s, e).outs && About(o, key) ==>
              if key in s.pending && !(Mints(cfg, s, e) && key == KernelId(s.next))
              then Addressed(o, key, s.pending[key])
              else Mints(cfg, s, e) && key == KernelId(s.next) && Addressed(o, key, Entry(cfg, e))
  {
    if Enabled(cfg, s, e) && e.PruneTick? {
      var mid := Drop(s, e.expired);
      SweepsAddressed(s, e.expired, {}, key);
      SweepsAddressed(mid, e.idle, e.up, key);
    }
  }

  /** Every message about a kernel-routed action is addressed to the requester's channel and
      action id, or to the provider, that the action was minted with. */
  lemma {:induction false} MessagesReachTheirEnds(cfg: Config, es: seq<Event>, n: nat)
    requires MuxClean(es)
    ensures forall o :: o in Run(cfg, es).outs && About(o, KernelId(n)) ==>
              Origin(cfg, es, n).Some? && Addressed(o, KernelId(n), Origin(cfg, es, n).value)
  {
    if es != [] {
      var before, e := es[..|es| - 1], es[|es| - 1];
      MessagesReachTheirEnds(cfg, before, n);
      OriginStays(cfg, before, e, n);
      StepAddressedToOrigin(cfg, before, e, n);
      assert es == before + [e];
    }
  }

  lemma OriginStays(cfg: Config, before: seq<Event>, e: Event, n: nat)
    requires MuxClean(before) && CleanEvent(e)
    ensures Origin(cfg, before, n).Some? ==> Origin(cfg, before + [e], n) == Origin(cfg, before, n)
    ensures Mints(cfg, Run(cfg, before).state, e) && n == Run(cfg, before).state.next ==>
              Origin(cfg, before + [e], n) == Some(Entry(cfg, e))
  {
    assert (before + [e])[..|before + [e]| - 1] == before;
    if n >= Run(cfg, before).state.next {
      NothingBeforeMint(cfg, before, n);
    }
  }

  lemma StepAddressedToOrigin(cfg: Config, before: seq<Event>, e: Event, n: nat)
    requires MuxClean(before) && CleanEvent(e)
    ensures forall o :: o in Step(cfg, Run(cfg, before).state, e).outs && About(o, KernelId(n)) ==>
              Origin(cfg, before + [e], n).Some? && Addressed(o, KernelId(n), Origin(cfg, before + [e], n).value)
  {
    var s, key := Run(cfg, before).state, KernelId(n);
    RunInv(cfg, before);
    OriginStays(cfg, before, e, n);
    StepAddressed(cfg, s, e, key);
    if key in s.pending {
      PendingHasOrigin(cfg, before, n);
    }
    if key == KernelId(s.next) {
      FreshId(s, n);
    }
  }

  // ---------------------------------------------------------------------------
  // The concurrency cap
  // ---------------------------------------------------------------------------

  /** Kernel-routed entries one caller holds open at one provider. */
  ghost function KernelLoad(s: State, requester: Plugin, provider: Plugin): set<Key> {
    set k | k in Load(s, requester, provider) && IsKernelId(k)
  }

  lemma StepLoad(cfg: Config, s: State, e: Event, requester: Plugin, provider: Plugin)
    requires CleanEvent(e)
    ensures var more := if Mints(cfg, s, e) && e.sender == requester && e.lookup.provider == provider
                        then {KernelId(s.next)} else {};
            KernelLoad(Step(cfg, s, e).state, requester, provider) <= KernelLoad(s, requester, provider) + more
  {
  }

  /** With the cap set, no caller ever holds more kernel-routed actions open at one provider. */
  lemma {:induction false} CapHolds(cfg: Config, es: seq<Event>, requester: Plugin, provider: Plugin)
    requires MuxClean(es) && cfg.cap.Some?
    ensures |KernelLoad(Run(cfg, es).state, requester, provider)| <= cfg.cap.value
  {
    if es == [] {
      assert KernelLoad(Init(), requester, provider) == {};
    } else {
      var before, e := es[..|es| - 1], es[|es| - 1];
      var s := Run(cfg, before).state;
      CapHolds(cfg, before, requester, provider);
      StepLoad(cfg, s, e, requester, provider);
      hide Step;
      var old_, new_ := KernelLoad(s, requester, provider), KernelLoad(Step(cfg, s, e).state, requester, provider);
      if Mints(cfg, s, e) && e.sender == requester && e.lookup.provider == provider {
        Subset(old_, Load(s, requester, provider));
        Subset(new_, old_ + {KernelId(s.next)});
      } else {
        Subset(new_, old_);
      }
    }
  }

  // ---------------------------------------------------------------------------
  // The sweeps
  // ---------------------------------------------------------------------------

  /** A tick removes exactly the entries that are overdue for the one sweep they fall under:
      the deadline before acceptance, the idle timeout after it. The others are untouched. */
  lemma TickRemovesExactlyOverdue(cfg: Config, s: State, e: Event, k: Key)
    requires e.PruneTick? && Enabled(cfg, s, e)
    ensures var t := Step(cfg, s, e).state;
            && (k in t.pending <==>
                  k in s.pending
                  && (if s.pending[k].accepted
                      then cfg.idleTimeout.Some? ==> e.later <= s.pending[k].lastActivity + cfg.idleTimeout.value
                      else e.now < s.pending[k].deadline))
            && (k in t.pending ==> t.pending[k] == s.pending[k])
  {
  }

  /** In every reachable state only streaming requests are accepted sessions. */
  lemma AcceptedSessionsStream(cfg: Config, es: seq<Event>, k: Key)
    requires MuxClean(es) && k in Run(cfg, es).state.pending && Run(cfg, es).state.pending[k].accepted
    ensures Run(cfg, es).state.pending[k].streaming
  {
    RunInv(cfg, es);
  }
}
