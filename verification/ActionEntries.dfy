/** What becomes of a request, what its entry holds for as long as it is pending, and what each
    caller is answered. */
module ActionEntries {
  import opened Collections
  import opened ActionIds
  import opened ActionProtocol
  import opened ActionRuns
  import opened ActionSafety
  import opened ActionSteps

  // ---------------------------------------------------------------------------
  // Requests
  // ---------------------------------------------------------------------------

  /** How many actions the caller has pending at the provider. */
  function Busy(s: State, caller: Plugin, provider: Plugin): nat {
    |set k | k in s.pending && s.pending[k].requester == caller && s.pending[k].provider == provider|
  }

  /** Why a request is refused, if it is. */
  function Reason(cfg: Config, s: State, e: Event): Option<Status>
    requires e.Request?
  {
    match e.lookup
    case NotFound => Some(ActionNotFound)
    case Ambiguous => Some(ActionNotFound)
    case Denied => Some(PermissionDeny)
    case Found(provider, rateLimited) =>
      if rateLimited || (cfg.cap.Some? && Busy(s, e.sender, provider) >= cfg.cap.value) then Some(QuotaExceeded) else None
  }

  /** A request is refused, with one answer on its channel and nothing changed, exactly when its
      lookup fails, it is rate limited or its caller is at the cap; otherwise it becomes pending under
      the next kernel id, with what it brought, and is forwarded. */
  lemma RequestIsAnswered(cfg: Config, s: State, e: Event)
    requires e.Request?
    ensures var r, reason := Step(cfg, s, e), Reason(cfg, s, e);
            if reason.Some? then r == Effect(s, [Refusal(e.chan, e.original, reason.value)])
            else
              var key, provider := "kact-" + Decimal(s.next), e.lookup.provider;
              && r.outs == [ToProvider(key, provider, Forwarded(e.streaming))]
              && r.state.next == s.next + 1
              && r.state.pending.Keys == s.pending.Keys + {key}
              && (forall k :: k in s.pending && k != key ==> r.state.pending[k] == s.pending[k])
              && var p := r.state.pending[key];
                 && p.chan == e.chan && p.original == e.original && p.requester == e.sender && p.provider == provider
                 && p.deadline == e.now + (if e.timeout == 0 then cfg.defaultTimeout else e.timeout)
                 && p.streaming == e.streaming && !p.accepted && p.lastActivity == e.now
  {
    if e.lookup.Found? {
      assert Load(s, e.sender, e.lookup.provider)
          == set k | k in s.pending && s.pending[k].requester == e.sender && s.pending[k].provider == e.lookup.provider;
    }
  }

  function Refusals(outs: seq<Out>): nat {
    if outs == [] then 0 else Refusals(outs[..|outs| - 1]) + if outs[|outs| - 1].Refusal? then 1 else 0
  }

  function Requests(es: seq<Event>): nat {
    if es == [] then 0 else Requests(es[..|es| - 1]) + if es[|es| - 1].Request? then 1 else 0
  }

  lemma {:induction false} RefusalsConcat(a: seq<Out>, b: seq<Out>)
    ensures Refusals(a + b) == Refusals(a) + Refusals(b)
  {
    if b == [] {
      assert a + b == a;
    } else {
      assert (a + b)[..|a + b| - 1] == a + b[..|b| - 1];
      RefusalsConcat(a, b[..|b| - 1]);
    }
  }

  lemma {:induction false} NoRefusals(outs: seq<Out>)
    requires forall o :: o in outs ==> !o.Refusal?
    ensures Refusals(outs) == 0
  {
    if outs != [] {
      assert forall o :: o in outs[..|outs| - 1] ==> o in outs;
      assert outs[|outs| - 1] in outs;
      NoRefusals(outs[..|outs| - 1]);
    }
  }

  lemma {:induction false} SweepsRefuseNothing(s: State, keys: seq<Key>, up: set<Plugin>)
    requires forall k :: k in keys ==> k in s.pending
    ensures forall o :: o in Timeouts(s, keys) ==> !o.Refusal?
    ensures forall o :: o in IdleAborts(s, keys, up) ==> !o.Refusal?
  {
    if keys != [] {
      assert forall k :: k in keys[..|keys| - 1] ==> k in keys;
      SweepsRefuseNothing(s, keys[..|keys| - 1], up);
    }
  }

  lemma StepRefusals(cfg: Config, s: State, e: Event)
    ensures var r := Step(cfg, s, e);
            r.state.next + Refusals(r.outs) == s.next + if e.Request? then 1 else 0
  {
    var r := Step(cfg, s, e);
    if e.Request? {
      RequestIsAnswered(cfg, s, e);
      hide Step;
      assert r.outs == [r.outs[0]] && r.outs[..0] == [];
    } else {
      if e.PruneTick? && Enabled(cfg, s, e) {
        SweepsRefuseNothing(s, e.expired, {});
        SweepsRefuseNothing(Drop(s, e.expired), e.idle, e.up);
      }
      NoRefusals(r.outs);
    }
  }

  /** In every run each request was refused once or minted once. */
  lemma {:induction false} RequestsAddUp(cfg: Config, es: seq<Event>)
    ensures Requests(es) == Run(cfg, es).state.next + Refusals(Run(cfg, es).outs)
  {
    if es != [] {
      hide Step;
      var before, e := es[..|es| - 1], es[|es| - 1];
      RequestsAddUp(cfg, before);
      StepRefusals(cfg, Run(cfg, before).state, e);
      RefusalsConcat(Run(cfg, before).outs, Step(cfg, Run(cfg, before).state, e).outs);
    }
  }

  // ---------------------------------------------------------------------------
  // The entry of an action, told from the events
  // ---------------------------------------------------------------------------

  /** The request that became action `n`: the one after which the counter is past `n`. */
  ghost function MintedBy(cfg: Config, es: seq<Event>, n: nat): Option<Event> {
    if es == [] then None
    else
      var before, e := es[..|es| - 1], es[|es| - 1];
      if n < Run(cfg, before).state.next then MintedBy(cfg, before, n)
      else if n < Run(cfg, es).state.next then Some(e)
      else None
  }

  /** A reply that accepts the session, or a chunk forwarded in either direction. */
  ghost predicate Active(cfg: Config, s: State, e: Event, key: Key) {
    match e
    case Response(from, k, ok, _, _, _) => k == key && FromProvider(s, from, key) && ok && s.pending[key].streaming
    case ResponseChunk(from, k, _, _, sent, _) => k == key && FromProvider(s, from, key) && sent
    case RequestChunk(_, _, _, pick, up, sent, _) => Enabled(cfg, s, e) && pick == Some(key) && up && sent
    case _ => false
  }

  /** When action `n` was minted, accepted, or last had a chunk forwarded. */
  ghost function LastActive(cfg: Config, es: seq<Event>, n: nat): nat {
    if es == [] then 0
    else
      var before, e := es[..|es| - 1], es[|es| - 1];
      var s := Run(cfg, before).state;
      if n == s.next && n < Run(cfg, es).state.next && e.Request? then e.now
      else if KernelId(n) in s.pending && Active(cfg, s, e, KernelId(n)) then e.now
      else LastActive(cfg, before, n)
  }

  lemma StepTimes(cfg: Config, s: State, e: Event, key: Key)
    requires Inv(s) && CleanEvent(e) && key in s.pending && IsKernelId(key) && key in Step(cfg, s, e).state.pending
    ensures var p, q := s.pending[key], Step(cfg, s, e).state.pending[key];
            q.deadline == p.deadline && q.lastActivity == if Active(cfg, s, e, key) then e.now else p.lastActivity
  {
    var n: nat :| key == KernelId(n);
    if Mints(cfg, s, e) && key == KernelId(s.next) {
      FreshId(s, n);
    }
    hide Enumerates, ExpiredKeys, IdleKeys;
  }

  ghost predicate EntryTold(cfg: Config, es: seq<Event>, n: nat) {
    var s, key := Run(cfg, es).state, KernelId(n);
    n < s.next ==>
      && MintedBy(cfg, es, n).Some? && MintedBy(cfg, es, n).value.Request? && MintedBy(cfg, es, n).value.lookup.Found?
      && (key in s.pending ==>
            var m, p := MintedBy(cfg, es, n).value, s.pending[key];
            && p.chan == m.chan && p.original == m.original && p.requester == m.sender
            && p.provider == m.lookup.provider && p.streaming == m.streaming
            && p.deadline == m.now + (if m.timeout == 0 then cfg.defaultTimeout else m.timeout)
            && p.lastActivity == LastActive(cfg, es, n))
  }

  lemma EntryStep(cfg: Config, before: seq<Event>, e: Event, n: nat)
    requires Inv(Run(cfg, before).state) && CleanEvent(e) && EntryTold(cfg, before, n)
    requires n < Run(cfg, before).state.next
    ensures EntryTold(cfg, before + [e], n)
  {
    var s, key, es := Run(cfg, before).state, KernelId(n), before + [e];
    assert es[..|es| - 1] == before;
    RunStep(cfg, before, e);
    assert IsKernelId(key);
    if key in s.pending && key in Step(cfg, s, e).state.pending {
      StepKeeps(cfg, s, e, key);
      StepTimes(cfg, s, e, key);
    } else if key !in s.pending {
      StepBringsIn(cfg, s, e, key);
      if key == KernelId(s.next) {
        FreshId(s, n);
      }
    }
    hide Step, Inv, Active, Mints, KernelId, IsKernelId;
  }

  lemma EntryMinted(cfg: Config, before: seq<Event>, e: Event, n: nat)
    requires Inv(Run(cfg, before).state) && CleanEvent(e) && n >= Run(cfg, before).state.next
    ensures EntryTold(cfg, before + [e], n)
  {
    var s, es := Run(cfg, before).state, before + [e];
    assert es[..|es| - 1] == before;
    RunStep(cfg, before, e);
    StepInv(cfg, s, e);
    if Mints(cfg, s, e) {
      RequestIsAnswered(cfg, s, e);
    }
    hide Step, Inv, Busy, Active;
  }

  lemma {:induction false} EntriesTold(cfg: Config, es: seq<Event>, n: nat)
    requires MuxClean(es)
    ensures EntryTold(cfg, es, n)
  {
    if es != [] {
      hide EntryTold;
      var before, e := es[..|es| - 1], es[|es| - 1];
      EntriesTold(cfg, before, n);
      RunInv(cfg, before);
      assert es == before + [e];
      if n < Run(cfg, before).state.next {
        EntryStep(cfg, before, e, n);
      } else {
        EntryMinted(cfg, before, e, n);
      }
    } else {
      assert Run(cfg, es).state.next == 0;
    }
  }

  /** In every run a pending action holds the channel, names and flags of the request that became it,
      the deadline counted from that request, and the time of its last activity. */
  lemma EntryIsTold(cfg: Config, es: seq<Event>, n: nat)
    requires MuxClean(es) && KernelId(n) in Run(cfg, es).state.pending
    ensures MintedBy(cfg, es, n).Some? && MintedBy(cfg, es, n).value.Request? && MintedBy(cfg, es, n).value.lookup.Found?
    ensures var m, p := MintedBy(cfg, es, n).value, Run(cfg, es).state.pending[KernelId(n)];
            && p.chan == m.chan && p.original == m.original && p.requester == m.sender
            && p.provider == m.lookup.provider && p.streaming == m.streaming
            && p.deadline == m.now + (if m.timeout == 0 then cfg.defaultTimeout else m.timeout)
            && p.lastActivity == LastActive(cfg, es, n)
  {
    RunInv(cfg, es);
    assert n < Run(cfg, es).state.next;
    hide Run, LastActive, MintedBy;
    EntriesTold(cfg, es, n);
  }

  /** In every run a tick ends a pending action exactly when it is not accepted and the time its
      request asked for is over, or it is accepted, an idle timeout is set, and more than that has
      passed since it was accepted or a chunk was last forwarded in either direction. */
  lemma TickEndsOverdue(cfg: Config, es: seq<Event>, e: Event, n: nat)
    requires MuxClean(es) && KernelId(n) in Run(cfg, es).state.pending
    requires e.PruneTick? && Enabled(cfg, Run(cfg, es).state, e)
    ensures MintedBy(cfg, es, n).Some? && MintedBy(cfg, es, n).value.Request?
    ensures var s, key, m := Run(cfg, es).state, KernelId(n), MintedBy(cfg, es, n).value;
            key !in Step(cfg, s, e).state.pending
            <==>
            if s.pending[key].accepted
            then cfg.idleTimeout.Some? && LastActive(cfg, es, n) + cfg.idleTimeout.value < e.later
            else m.now + (if m.timeout == 0 then cfg.defaultTimeout else m.timeout) <= e.now
  {
    hide Run, Step, LastActive, MintedBy, Enabled;
    EntryIsTold(cfg, es, n);
    TickRemovesExactlyOverdue(cfg, Run(cfg, es).state, e, KernelId(n));
  }

  // ---------------------------------------------------------------------------
  // Closes and direct requests
  // ---------------------------------------------------------------------------

  predicate HasError(outs: seq<Out>) {
    exists o :: o in outs && o.Error?
  }

  /** A close ends exactly one accepted session, its sender's own as provider or as requester, and is
      not answered; any other close changes nothing and is answered with one error on its channel. */
  lemma CloseIsAnswered(cfg: Config, s: State, e: Event)
    requires e.SessionClose? && Enabled(cfg, s, e)
    ensures var r := Step(cfg, s, e);
            var own := e.from.Some? && e.key in s.pending && s.pending[e.key].provider == e.from.value;
            var target := if own then Some(e.key) else if e.from.Some? then e.pick else None;
            if target.Some? && s.pending[target.value].accepted then
              && r.state == s.(pending := s.pending - {target.value}) && !HasError(r.outs)
              && (own ==> |r.outs| == 1 && r.outs[0].ToRequester?)
              && (!own ==> r.outs == if e.providerUp
                    then [ToProvider(target.value, s.pending[target.value].provider, ClosedForProvider(e.reason))] else [])
            else r == Effect(s, [Error(e.chan)])
  {
    var own := e.from.Some? && e.key in s.pending && s.pending[e.key].provider == e.from.value;
    var key := if own then e.key else if e.pick.Some? then e.pick.value else "";
    assert (set k | k in [key]) == {key};
  }

  /** A direct request to a device is kept under the caller's own id: the device's reply goes to the
      caller, nobody else's does, and without an answer it times out after 30 seconds. */
  lemma DirectRequestIsKept(cfg: Config, s: State, e: Event, from: Plugin, ok: bool, data: Bytes, sent: bool, now: nat)
    requires e.MuxRequest?
    ensures var r := Step(cfg, s, e);
            && r.outs == [] && r.state.next == s.next && r.state.pending.Keys == s.pending.Keys + {e.original}
            && (forall k :: k in s.pending && k != e.original ==> r.state.pending[k] == s.pending[k])
            && r.state.pending[e.original].requester == e.sender && r.state.pending[e.original].original == e.original
            && Step(cfg, r.state, Response(Some(from), e.original, ok, data, sent, now)).outs
               == (if from == e.provider then [ToRequester(e.original, e.chan, e.original, Reply(ok, data, sent))] else [])
            && (e.original in ExpiredKeys(r.state, now) <==> e.now + 30_000 <= now)
            && (e.original in Step(cfg, r.state, Response(Some(e.provider), e.original, ok, data, sent, now)).state.pending
                <==> ok && e.streaming)
  {
  }
}
