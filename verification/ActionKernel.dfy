/** The pending-action table of `src/plugins/registry.rs` and the router handlers that drive
    it, as code that updates its tables in place, proved to take the steps of the protocol. */
module ActionKernel {
  import opened Collections
  import opened ActionIds
  import opened ActionProtocol

  class Router {
    const cfg: Config
    var pending: map<Key, Pending>
    var next: nat
    /** Everything handed to a write channel so far, enqueued or not. */
    var sent: seq<Out>

    constructor (cfg: Config)
      ensures View() == Init() && sent == [] && this.cfg == cfg
    {
      this.cfg := cfg;
      pending, next, sent := map[], 0, [];
    }

    function View(): State
      reads this
    {
      State(pending, next)
    }

    // --- the table ---------------------------------------------------------

    method RegisterPendingAction(key: Key, p: Pending)
      modifies this`pending
      ensures pending == old(pending)[key := p]
    {
      pending := pending[key := p];
    }

    method TakePendingAction(key: Key) returns (taken: Option<Pending>)
      modifies this`pending
      ensures taken == if key in old(pending) then Some(old(pending)[key]) else None
      ensures pending == old(pending) - {key}
    {
      taken := if key in pending then Some(pending[key]) else None;
      pending := pending - {key};
    }

    /** An OK reply to a streaming request accepts the session in place; any other reply of
        the routed provider evicts the entry; anyone else gets nothing. */
    method ResolveActionResponse(key: Key, provider: Plugin, ok: bool, now: nat) returns (resolved: Option<Pending>)
      modifies this`pending
      ensures resolved.Some? <==> key in old(pending) && old(pending)[key].provider == provider
      ensures resolved.None? ==> pending == old(pending)
      ensures resolved.Some? ==>
                var p := old(pending)[key];
                && resolved.value.chan == p.chan && resolved.value.original == p.original
                && pending == if ok && p.streaming
                              then old(pending)[key := p.(accepted := true, lastActivity := now)]
                              else old(pending) - {key}
    {
      if key !in pending || pending[key].provider != provider {
        return None;
      }
      if ok && pending[key].streaming {
        pending := pending[key := pending[key].(accepted := true)];
        pending := pending[key := pending[key].(lastActivity := now)];
        resolved := Some(pending[key]);
      } else {
        resolved := TakePendingAction(key);
      }
    }

    method TouchPendingAction(key: Key, now: nat)
      modifies this`pending
      ensures View() == Touch(old(View()), key, now)
    {
      if key in pending {
        pending := pending[key := pending[key].(lastActivity := now)];
      }
    }

    /** A scan for the requester's own action id; any match may be returned. */
    method FindPendingInternalId(requester: Plugin, original: string) returns (pick: Option<Key>)
      ensures PickOk(View(), requester, original, pick)
    {
      var rest := pending.Keys;
      while rest != {}
        invariant rest <= pending.Keys
        invariant forall k :: k in pending && k !in rest ==> !Matches(pending[k], requester, original)
        decreases rest
      {
        var k :| k in rest;
        if Matches(pending[k], requester, original) {
          return Some(k);
        }
        rest := rest - {k};
      }
      return None;
    }

    method CountPendingActionsFor(requester: Plugin, provider: Plugin) returns (count: nat)
      ensures count == |Load(View(), requester, provider)|
    {
      var rest := pending.Keys;
      ghost var seen: set<Key> := {};
      count := 0;
      while rest != {}
        invariant rest <= pending.Keys
        invariant seen == set k | k in Load(View(), requester, provider) && k !in rest
        invariant count == |seen|
        decreases rest
      {
        var k :| k in rest;
        if pending[k].requester == requester && pending[k].provider == provider {
          count := count + 1;
          seen := seen + {k};
        }
        rest := rest - {k};
      }
      assert seen == Load(View(), requester, provider);
    }

    /** The key lists of the two sweeps: some enumeration of the matching entries. */
    method CollectExpired(now: nat) returns (keys: seq<Key>)
      ensures Enumerates(keys, ExpiredKeys(View(), now))
    {
      keys := [];
      var rest := pending.Keys;
      while rest != {}
        invariant rest <= pending.Keys
        invariant Enumerates(keys, ExpiredKeys(View(), now) - rest)
        decreases rest
      {
        var k :| k in rest;
        if Expired(pending[k], now) {
          keys := keys + [k];
        }
        rest := rest - {k};
      }
    }

    method CollectIdle(now: nat, timeout: nat) returns (keys: seq<Key>)
      ensures Enumerates(keys, IdleKeys(View(), now, timeout))
    {
      keys := [];
      var rest := pending.Keys;
      while rest != {}
        invariant rest <= pending.Keys
        invariant Enumerates(keys, IdleKeys(View(), now, timeout) - rest)
        decreases rest
      {
        var k :| k in rest;
        if Idle(pending[k], now, timeout) {
          keys := keys + [k];
        }
        rest := rest - {k};
      }
    }

    /** Evict and return the entries under `keys`. */
    method TakeAll(keys: seq<Key>) returns (taken: seq<Pending>)
      requires forall k :: k in keys ==> k in pending
      requires forall i, j :: 0 <= i < j < |keys| ==> keys[i] != keys[j]
      modifies this`pending
      ensures View() == Drop(old(View()), keys)
      ensures |taken| == |keys| && forall i :: 0 <= i < |keys| ==> taken[i] == old(pending)[keys[i]]
    {
      taken := [];
      for n := 0 to |keys|
        invariant pending == old(pending) - (set k | k in keys[..n])
        invariant |taken| == n && forall i :: 0 <= i < n ==> taken[i] == old(pending)[keys[i]]
      {
        assert keys[n] in keys && keys[n] !in keys[..n];
        var p := TakePendingAction(keys[n]);
        taken := taken + [p.value];
        assert keys[..n + 1] == keys[..n] + [keys[n]];
      }
      assert keys[..|keys|] == keys;
    }

    // --- forced termination ------------------------------------------------

    method NotifyForcedTermination(key: Key, p: Pending, reason: string, providerUp: bool)
      modifies this`sent
      ensures sent == old(sent) + Forced(key, p, reason, providerUp)
    {
      sent := sent + [ToRequester(key, p.chan, p.original, Aborted(reason))];
      if !p.accepted {
        sent := sent + [ToRequester(key, p.chan, p.original, Backpressure(reason))];
      }
      if providerUp {
        sent := sent + [ToProvider(key, p.provider, AbortedForProvider(reason))];
      }
    }

    method AbortStream(key: Key, reason: string, providerUp: bool)
      modifies this`pending, this`sent
      ensures View() == Drop(old(View()), [key])
      ensures sent == old(sent) + (if key in old(pending) then Forced(key, old(pending)[key], reason, providerUp) else [])
    {
      var taken := TakePendingAction(key);
      assert (set k | k in [key]) == {key};
      if taken.Some? {
        NotifyForcedTermination(key, taken.value, reason, providerUp);
      }
    }

    // --- the handlers ------------------------------------------------------

    /** The fields follow one protocol step, and what it sends is appended. */
    twostate predicate Took(e: Event)
      reads this
    {
      var r := Step(cfg, old(View()), e);
      View() == r.state && sent == old(sent) + r.outs
    }

    method HandleRequest(sender: Plugin, chan: nat, original: string, lookup: Lookup, timeout: nat, streaming: bool, now: nat)
      modifies this
      ensures Took(Request(sender, chan, original, lookup, timeout, streaming, now))
    {
      var refused: Option<Status>;
      match lookup {
        case NotFound => refused := Some(ActionNotFound);
        case Ambiguous => refused := Some(ActionNotFound);
        case Denied => refused := Some(PermissionDeny);
        case Found(provider, rateLimited) =>
          var held := CountPendingActionsFor(sender, provider);
          if cfg.cap.Some? && held >= cfg.cap.value {
            refused := Some(QuotaExceeded);
          } else if rateLimited {
            refused := Some(QuotaExceeded);
          } else {
            var key := KernelId(next);
            next := next + 1;
            var deadline := now + (if timeout == 0 then cfg.defaultTimeout else timeout);
            RegisterPendingAction(key, Pending(chan, original, sender, provider, deadline, streaming, false, now));
            sent := sent + [ToProvider(key, provider, Forwarded(streaming))];
            refused := None;
          }
      }
      if refused.Some? {
        sent := sent + [Refusal(chan, original, refused.value)];
      }
    }

    method HandleResponse(from: Option<Plugin>, key: Key, ok: bool, data: Bytes, enqueued: bool, now: nat)
      modifies this
      ensures Took(Response(from, key, ok, data, enqueued, now))
    {
      assert (set k | k in [key]) == {key};
      var resolved: Option<Pending> := None;
      if from.Some? {
        resolved := ResolveActionResponse(key, from.value, ok, now);
      }
      if resolved.Some? {
        sent := sent + [ToRequester(key, resolved.value.chan, resolved.value.original, Reply(ok, data, enqueued))];
      }
    }

    method HandleRequestChunk(sender: Plugin, original: string, chunk: Chunk, providerUp: bool, enqueued: bool, now: nat)
      returns (pick: Option<Key>)
      modifies this
      ensures PickOk(old(View()), sender, original, pick)
      ensures Took(RequestChunk(sender, original, chunk, pick, providerUp, enqueued, now))
    {
      pick := FindPendingInternalId(sender, original);
      if pick.Some? {
        var key, p := pick.value, pending[pick.value];
        TouchPendingAction(key, now);
        if providerUp {
          sent := sent + [ToProvider(key, p.provider, Upload(chunk, enqueued))];
          if !enqueued {
            AbortStream(key, "receiver backpressure", true);
          }
        } else {
          AbortStream(key, "provider disconnected", false);
        }
      }
    }

    method HandleResponseChunk(from: Option<Plugin>, key: Key, chunk: Chunk, providerUp: bool, enqueued: bool, now: nat)
      modifies this
      ensures Took(ResponseChunk(from, key, chunk, providerUp, enqueued, now))
    {
      if from.Some? && key in pending && pending[key].provider == from.value {
        var p := pending[key];
        TouchPendingAction(key, now);
        sent := sent + [ToRequester(key, p.chan, p.original, Piece(chunk, enqueued))];
        if !enqueued {
          AbortStream(key, "receiver backpressure", providerUp);
        }
      }
    }

    method HandleSessionClose(from: Option<Plugin>, chan: nat, key: Key, reason: string, providerUp: bool)
      returns (pick: Option<Key>)
      modifies this
      ensures from.Some? ==> PickOk(old(View()), from.value, key, pick)
      ensures Took(SessionClose(from, chan, key, reason, pick, providerUp))
    {
      if from.None? {
        sent := sent + [Error(chan)];
        return None;
      }
      pick := FindPendingInternalId(from.value, key);
      var fromProvider := key in pending && pending[key].provider == from.value;
      var resolved := if fromProvider then Some(key) else pick;
      if resolved.None? || !pending[resolved.value].accepted {
        sent := sent + [Error(chan)];
      } else {
        var id, p := resolved.value, pending[resolved.value];
        if fromProvider {
          sent := sent + [ToRequester(id, p.chan, p.original, Closed(reason))];
        } else if providerUp {
          sent := sent + [ToProvider(id, p.provider, ClosedForProvider(reason))];
        }
        var _ := TakePendingAction(id);
        assert (set k | k in [id]) == {id};
      }
    }

    method HandleMuxRequest(sender: Plugin, chan: nat, original: string, provider: Plugin, streaming: bool, now: nat)
      modifies this
      ensures Took(MuxRequest(sender, chan, original, provider, streaming, now))
    {
      RegisterPendingAction(original, Pending(chan, original, sender, provider, now + 30_000, streaming, false, now));
    }

    /** First sweep of the tick: time out what was never accepted. */
    method ExpireOverdue(now: nat) returns (expired: seq<Key>)
      modifies this
      ensures Enumerates(expired, ExpiredKeys(old(View()), now))
      ensures View() == Drop(old(View()), expired)
      ensures sent == old(sent) + Timeouts(old(View()), expired)
    {
      expired := CollectExpired(now);
      var taken := TakeAll(expired);
      for n := 0 to |expired|
        invariant pending == old(pending) - (set k | k in expired) && next == old(next)
        invariant sent == old(sent) + Timeouts(old(View()), expired[..n])
      {
        sent := sent + [ToRequester(expired[n], taken[n].chan, taken[n].original, TimedOut)];
        assert expired[..n + 1][..n] == expired[..n];
      }
      assert expired[..|expired|] == expired;
    }

    /** Second sweep of the tick: terminate accepted sessions that went idle. */
    method AbortIdle(now: nat, timeout: nat, up: set<Plugin>) returns (idle: seq<Key>)
      modifies this
      ensures Enumerates(idle, IdleKeys(old(View()), now, timeout))
      ensures View() == Drop(old(View()), idle)
      ensures sent == old(sent) + IdleAborts(old(View()), idle, up)
    {
      idle := CollectIdle(now, timeout);
      var taken := TakeAll(idle);
      for n := 0 to |idle|
        invariant pending == old(pending) - (set k | k in idle) && next == old(next)
        invariant sent == old(sent) + IdleAborts(old(View()), idle[..n], up)
      {
        NotifyForcedTermination(idle[n], taken[n], "idle timeout", taken[n].provider in up);
        assert idle[..n + 1][..n] == idle[..n];
      }
      assert idle[..|idle|] == idle;
    }

    method HandlePruneTick(now: nat, later: nat, up: set<Plugin>) returns (expired: seq<Key>, idle: seq<Key>)
      modifies this
      ensures Enabled(cfg, old(View()), PruneTick(now, later, expired, idle, up))
      ensures Took(PruneTick(now, later, expired, idle, up))
    {
      expired := ExpireOverdue(now);
      idle := [];
      if cfg.idleTimeout.Some? {
        idle := AbortIdle(later, cfg.idleTimeout.value, up);
      }
    }
  }
}
