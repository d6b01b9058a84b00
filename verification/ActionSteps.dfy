/** What one step of the action protocol says and does about one action. */
module ActionSteps {
  import opened Collections
  import opened ActionIds
  import opened ActionProtocol

  // ---------------------------------------------------------------------------
  // Invariant of reachable states
  // ---------------------------------------------------------------------------

  ghost predicate Inv(s: State) {
    && (forall n: nat :: KernelId(n) in s.pending ==> n < s.next)
    && (forall k :: k in s.pending && s.pending[k].accepted ==> s.pending[k].streaming)
  }

  ghost predicate CleanEvent(e: Event) {
    e.MuxRequest? ==> !IsKernelId(e.original)
  }

  lemma FreshId(s: State, n: nat)
    requires KernelId(n) == KernelId(s.next)
    ensures n == s.next
  {
    KernelIdInjective(n, s.next);
  }

  lemma StepInv(cfg: Config, s: State, e: Event)
    requires Inv(s) && CleanEvent(e)
    ensures Inv(Step(cfg, s, e).state)
    ensures Step(cfg, s, e).state.next == s.next + (if Mints(cfg, s, e) then 1 else 0)
  {
    var t := Step(cfg, s, e).state;
    forall n: nat | KernelId(n) in t.pending ensures n < t.next {
      if KernelId(n) !in s.pending {
        if Mints(cfg, s, e) && KernelId(n) == KernelId(s.next) {
          FreshId(s, n);
        }
      }
    }
  }

  // ---------------------------------------------------------------------------
  // What a step tells the requester of one action
  // ---------------------------------------------------------------------------

  /** What a forced termination tells the requester. */
  function ForcedSaid(p: Pending, reason: string): seq<Body> {
    [Aborted(reason)] + (if p.accepted then [] else [Backpressure(reason)])
  }

  /** The messages of one step about a pending action, in closed form. */
  ghost function Said(cfg: Config, s: State, e: Event, key: Key): seq<Body> {
    if key !in s.pending || !Enabled(cfg, s, e) then []
    else
      var p := s.pending[key];
      match e
      case Response(from, k, ok, data, sent, _) =>
        if k == key && FromProvider(s, from, key) then [Reply(ok, data, sent)] else []
      case RequestChunk(_, _, _, pick, providerUp, sent, _) =>
        if pick != Some(key) || (providerUp && sent) then []
        else ForcedSaid(p, if providerUp then "receiver backpressure" else "provider disconnected")
      case ResponseChunk(from, k, chunk, _, sent, _) =>
        if k == key && FromProvider(s, from, key)
        then [Piece(chunk, sent)] + (if sent then [] else ForcedSaid(p, "receiver backpressure"))
        else []
      case SessionClose(from, _, k, reason, _, _) =>
        if k == key && FromProvider(s, from, key) && p.accepted then [Closed(reason)] else []
      case PruneTick(_, _, expired, idle, _) =>
        if key in expired then [TimedOut]
        else if key in idle then ForcedSaid(p, "idle timeout")
        else []
      case _ => []
  }

  lemma NoTrace(key: Key)
    ensures Trace([], key) == []
  {
  }

  lemma SingleTrace(o: Out, key: Key)
    ensures Trace([o], key) == if o.ToRequester? && o.key == key then [o.body] else []
  {
    assert [o][..0] == [];
  }

  lemma ForcedTrace(k: Key, p: Pending, reason: string, up: bool, key: Key)
    ensures Trace(Forced(k, p, reason, up), key) == if k == key then ForcedSaid(p, reason) else []
  {
    var a := [ToRequester(k, p.chan, p.original, Aborted(reason))];
    var b := if p.accepted then [] else [ToRequester(k, p.chan, p.original, Backpressure(reason))];
    var c := if up then [ToProvider(k, p.provider, AbortedForProvider(reason))] else [];
    assert Forced(k, p, reason, up) == a + b + c;
    TraceConcat(a + b, c, key);
    TraceConcat(a, b, key);
  }

  lemma {:induction false} TimeoutsTrace(s: State, keys: seq<Key>, key: Key)
    requires forall k :: k in keys ==> k in s.pending
    requires forall i, j :: 0 <= i < j < |keys| ==> keys[i] != keys[j]
    ensures Trace(Timeouts(s, keys), key) == if key in keys then [TimedOut] else []
  {
    hide Trace;
    NoTrace(key);
    if keys != [] {
      var front, k := keys[..|keys| - 1], keys[|keys| - 1];
      TimeoutsTrace(s, front, key);
      assert keys == front + [k];
      assert k !in front;
      var out := ToRequester(k, s.pending[k].chan, s.pending[k].original, TimedOut);
      SingleTrace(out, key);
      TraceConcat(Timeouts(s, front), [out], key);
    }
  }

  lemma {:induction false} IdleAbortsTrace(s: State, keys: seq<Key>, up: set<Plugin>, key: Key)
    requires forall k :: k in keys ==> k in s.pending
    requires forall i, j :: 0 <= i < j < |keys| ==> keys[i] != keys[j]
    ensures Trace(IdleAborts(s, keys, up), key)
         == if key in keys then ForcedSaid(s.pending[key], "idle timeout") else []
  {
    hide Trace, Forced, ForcedSaid;
    NoTrace(key);
    if keys != [] {
      var front, k := keys[..|keys| - 1], keys[|keys| - 1];
      IdleAbortsTrace(s, front, up, key);
      assert keys == front + [k];
      assert k !in front;
      var f := Forced(k, s.pending[k], "idle timeout", s.pending[k].provider in up);
      TraceConcat(IdleAborts(s, front, up), f, key);
      ForcedTrace(k, s.pending[k], "idle timeout", s.pending[k].provider in up, key);
    }
  }

  lemma RequestChunkTrace(cfg: Config, s: State, e: Event, key: Key)
    requires e.RequestChunk? && Enabled(cfg, s, e)
    ensures Trace(OnRequestChunk(s, e).outs, key) == Said(cfg, s, e, key)
  {
    hide Trace, Forced, ForcedSaid;
    NoTrace(key);
    if e.pick.Some? && e.pick.value in s.pending {
      var k, p := e.pick.value, s.pending[e.pick.value];
      var out := ToProvider(k, p.provider, Upload(e.chunk, e.sent));
      SingleTrace(out, key);
      TraceConcat([out], Forced(k, p, "receiver backpressure", true), key);
      ForcedTrace(k, p, "provider disconnected", false, key);
      ForcedTrace(k, p, "receiver backpressure", true, key);
      var said := if k == key then ForcedSaid(p, "receiver backpressure") else [];
      assert [] + said == said;
    }
  }

  lemma ResponseChunkTrace(cfg: Config, s: State, e: Event, key: Key)
    requires e.ResponseChunk? && Enabled(cfg, s, e)
    ensures Trace(OnResponseChunk(s, e).outs, key) == Said(cfg, s, e, key)
  {
    hide Trace, Forced, ForcedSaid;
    NoTrace(key);
    if FromProvider(s, e.from, e.key) {
      var p := s.pending[e.key];
      var out := ToRequester(e.key, p.chan, p.original, Piece(e.chunk, e.sent));
      SingleTrace(out, key);
      TraceConcat([out], Forced(e.key, p, "receiver backpressure", e.providerUp), key);
      ForcedTrace(e.key, p, "receiver backpressure", e.providerUp, key);
    }
  }

  lemma TickTrace(cfg: Config, s: State, e: Event, key: Key)
    requires e.PruneTick? && Enabled(cfg, s, e)
    ensures Trace(OnPruneTick(cfg, s, e).outs, key) == Said(cfg, s, e, key)
  {
    var mid := Drop(s, e.expired);
    TraceConcat(Timeouts(s, e.expired), IdleAborts(mid, e.idle, e.up), key);
    TimeoutsTrace(s, e.expired, key);
    IdleAbortsTrace(mid, e.idle, e.up, key);
    hide Trace, ForcedSaid, Timeouts, IdleAborts;
    if key in s.pending && key in e.idle {
      assert key in mid.pending && mid.pending[key] == s.pending[key];
      var said := ForcedSaid(s.pending[key], "idle timeout");
      assert [] + said == said;
    }
  }

  /** The attempted sends of a step about `key` are exactly `Said`. */
  lemma StepTrace(cfg: Config, s: State, e: Event, key: Key)
    ensures Trace(Step(cfg, s, e).outs, key) == Said(cfg, s, e, key)
  {
    hide Trace;
    NoTrace(key);
    if Enabled(cfg, s, e) {
      match e {
        case RequestChunk(_, _, _, _, _, _, _) => RequestChunkTrace(cfg, s, e, key);
        case ResponseChunk(_, _, _, _, _, _) => ResponseChunkTrace(cfg, s, e, key);
        case PruneTick(_, _, _, _, _) => TickTrace(cfg, s, e, key);
        case MuxRequest(_, _, _, _, _, _) =>
        case _ =>
          var outs := Step(cfg, s, e).outs;
          if outs != [] { SingleTrace(outs[0], key); }
      }
    }
  }

  // ---------------------------------------------------------------------------
  // What a step does to one action
  // ---------------------------------------------------------------------------

  /** The fields of an entry that no step changes. */
  predicate SameAction(p: Pending, q: Pending) {
    && p.chan == q.chan && p.original == q.original && p.requester == q.requester
    && p.provider == q.provider && p.streaming == q.streaming
  }

  /** A session closed by its requester ends without a word to the requester. */
  ghost predicate ClosedByRequester(cfg: Config, s: State, e: Event, key: Key) {
    && e.SessionClose? && Enabled(cfg, s, e) && e.from.Some? && !FromProvider(s, e.from, e.key)
    && e.pick == Some(key) && key in s.pending && s.pending[key].accepted
  }

  /** The provider's OK reply to a streaming request accepts the session. */
  predicate Accepts(s: State, e: Event, key: Key) {
    e.Response? && e.key == key && e.ok && FromProvider(s, e.from, key) && s.pending[key].streaming
  }

  /** A pending action that stays keeps its identity; only its acceptance may change. */
  lemma StepKeeps(cfg: Config, s: State, e: Event, key: Key)
    requires Inv(s) && CleanEvent(e) && key in s.pending && IsKernelId(key)
    ensures var t, p := Step(cfg, s, e).state, s.pending[key];
            key in t.pending ==>
              && SameAction(p, t.pending[key])
              && (t.pending[key].accepted <==> p.accepted || Accepts(s, e, key))
  {
    var n: nat :| key == KernelId(n);
    if Mints(cfg, s, e) && key == KernelId(s.next) {
      FreshId(s, n);
    }
  }

  /** A pending action stays unless its messages of this step say that it ends. */
  lemma StepStays(cfg: Config, s: State, e: Event, key: Key)
    requires Inv(s) && CleanEvent(e) && key in s.pending && IsKernelId(key)
    ensures var t, said := Step(cfg, s, e).state, Said(cfg, s, e, key);
            key in t.pending <==>
              && !ClosedByRequester(cfg, s, e, key)
              && (said == [] || (|said| == 1 && (said[0].Piece? || (said[0].Reply? && Accepts(s, e, key)))))
  {
    var n: nat :| key == KernelId(n);
    if Mints(cfg, s, e) && key == KernelId(s.next) {
      FreshId(s, n);
    }
  }

  /** Only a request brings a kernel-routed action in. */
  lemma StepBringsIn(cfg: Config, s: State, e: Event, key: Key)
    requires CleanEvent(e) && key !in s.pending && IsKernelId(key)
    ensures var t := Step(cfg, s, e).state;
            key in t.pending <==> Mints(cfg, s, e) && key == KernelId(s.next)
    ensures var t := Step(cfg, s, e).state;
            key in t.pending ==> t.pending[key] == Entry(cfg, e)
  {
  }
}
