/** Kernel-routed actions and streaming sessions as a state machine: one step per handler of
    `src/ipc/protocol/router.rs` and one for the prune tick. Channel sends are inputs that
    succeed or fail; clock readings, registry lookups and the iteration order of the pending
    map are inputs too. */
module ActionProtocol {
  import opened Collections
  import opened ActionIds

  type Plugin = string
  type Key = string
  type Bytes = seq<int>

  /** A pending action; `chan` stands for the requester's write channel. */
  datatype Pending = Pending(
    chan: nat, original: string, requester: Plugin, provider: Plugin,
    deadline: nat, streaming: bool, accepted: bool, lastActivity: nat)

  datatype State = State(pending: map<Key, Pending>, next: nat)

  /** Per-caller concurrency cap, default timeout and session idle timeout. */
  datatype Config = Config(cap: Option<nat>, defaultTimeout: nat, idleTimeout: Option<nat>)

  datatype Chunk = Chunk(seqno: nat, data: Bytes)

  datatype Lookup = NotFound | Ambiguous | Denied | Found(provider: Plugin, rateLimited: bool)

  datatype Status = ActionNotFound | PermissionDeny | QuotaExceeded

  /** Messages about one action to its requester. A chunk and a reply record whether the channel
      took them: a lost chunk ends the action, a lost reply is dropped without consequence. The
      others are sent once and may be lost unnoticed. */
  datatype Body =
    | Piece(chunk: Chunk, enqueued: bool)
    | Reply(ok: bool, data: Bytes, enqueued: bool)
    | TimedOut
    | Aborted(reason: string)
    | Backpressure(reason: string)
    | Closed(reason: string)

  /** Messages about one action to its provider. */
  datatype ProviderBody =
    | Forwarded(streaming: bool)
    | Upload(chunk: Chunk, enqueued: bool)
    | AbortedForProvider(reason: string)
    | ClosedForProvider(reason: string)

  /** Attempted sends. `key` records which pending action a message is about. */
  datatype Out =
    | ToRequester(key: Key, chan: nat, original: string, body: Body)
    | ToProvider(key: Key, provider: Plugin, note: ProviderBody)
    | Refusal(chan: nat, original: string, status: Status)
    | Error(chan: nat)

  datatype Event =
    | Request(sender: Plugin, chan: nat, original: string, lookup: Lookup, timeout: nat, streaming: bool, now: nat)
    | Response(from: Option<Plugin>, key: Key, ok: bool, data: Bytes, sent: bool, now: nat)
    | RequestChunk(sender: Plugin, original: string, chunk: Chunk, pick: Option<Key>, providerUp: bool, sent: bool, now: nat)
    | ResponseChunk(from: Option<Plugin>, key: Key, chunk: Chunk, providerUp: bool, sent: bool, now: nat)
    | SessionClose(from: Option<Plugin>, chan: nat, key: Key, reason: string, pick: Option<Key>, providerUp: bool)
    | MuxRequest(sender: Plugin, chan: nat, original: string, provider: Plugin, streaming: bool, now: nat)
    | PruneTick(now: nat, later: nat, expired: seq<Key>, idle: seq<Key>, up: set<Plugin>)

  datatype Effect = Effect(state: State, outs: seq<Out>)

  function Init(): State {
    State(map[], 0)
  }

  // ---------------------------------------------------------------------------
  // Lookups in the pending map
  // ---------------------------------------------------------------------------

  predicate Matches(p: Pending, requester: Plugin, original: string) {
    p.requester == requester && p.original == original
  }

  /** `pick` is an answer `find_pending_internal_id` may give: some matching key, none only
      when nothing matches. */
  predicate PickOk(s: State, requester: Plugin, original: string, pick: Option<Key>) {
    match pick
    case None => forall k :: k in s.pending ==> !Matches(s.pending[k], requester, original)
    case Some(k) => k in s.pending && Matches(s.pending[k], requester, original)
  }

  predicate Expired(p: Pending, now: nat) {
    !p.accepted && p.deadline <= now
  }

  /** `Instant::duration_since` is zero when the clock reading is earlier. */
  predicate Idle(p: Pending, now: nat, timeout: nat) {
    p.accepted && now > p.lastActivity + timeout
  }

  function ExpiredKeys(s: State, now: nat): set<Key> {
    set k | k in s.pending && Expired(s.pending[k], now)
  }

  function IdleKeys(s: State, now: nat, timeout: nat): set<Key> {
    set k | k in s.pending && Idle(s.pending[k], now, timeout)
  }

  function Load(s: State, requester: Plugin, provider: Plugin): set<Key> {
    set k | k in s.pending && s.pending[k].requester == requester && s.pending[k].provider == provider
  }

  // ---------------------------------------------------------------------------
  // Steps
  // ---------------------------------------------------------------------------

  /** The inputs that resolve nondeterminism are answers the code could get. */
  ghost predicate Enabled(cfg: Config, s: State, e: Event) {
    match e
    case RequestChunk(sender, original, _, pick, _, _, _) => PickOk(s, sender, original, pick)
    case SessionClose(from, _, key, _, pick, _) => from.Some? ==> PickOk(s, from.value, key, pick)
    case PruneTick(now, later, expired, idle, _) =>
      && Enumerates(expired, ExpiredKeys(s, now))
      && (if cfg.idleTimeout.Some?
          then Enumerates(idle, IdleKeys(Drop(s, expired), later, cfg.idleTimeout.value))
          else idle == [])
    case _ => true
  }

  function Drop(s: State, keys: seq<Key>): State {
    s.(pending := s.pending - (set k | k in keys))
  }

  function Entry(cfg: Config, e: Event): Pending
    requires e.Request? && e.lookup.Found?
  {
    Pending(e.chan, e.original, e.sender, e.lookup.provider,
            e.now + (if e.timeout == 0 then cfg.defaultTimeout else e.timeout),
            e.streaming, false, e.now)
  }

  predicate Mints(cfg: Config, s: State, e: Event) {
    && e.Request? && e.lookup.Found? && !e.lookup.rateLimited
    && (cfg.cap.Some? ==> |Load(s, e.sender, e.lookup.provider)| < cfg.cap.value)
  }

  function OnRequest(cfg: Config, s: State, e: Event): Effect
    requires e.Request?
  {
    match e.lookup
    case NotFound => Effect(s, [Refusal(e.chan, e.original, ActionNotFound)])
    case Ambiguous => Effect(s, [Refusal(e.chan, e.original, ActionNotFound)])
    case Denied => Effect(s, [Refusal(e.chan, e.original, PermissionDeny)])
    case Found(provider, rateLimited) =>
      if !Mints(cfg, s, e) then Effect(s, [Refusal(e.chan, e.original, QuotaExceeded)])
      else
        var key := KernelId(s.next);
        Effect(State(s.pending[key := Entry(cfg, e)], s.next + 1),
               [ToProvider(key, provider, Forwarded(e.streaming))])
  }

  predicate FromProvider(s: State, from: Option<Plugin>, key: Key) {
    from.Some? && key in s.pending && s.pending[key].provider == from.value
  }

  function OnResponse(s: State, e: Event): Effect
    requires e.Response?
  {
    if !FromProvider(s, e.from, e.key) then Effect(s, [])
    else
      var p := s.pending[e.key];
      var out := ToRequester(e.key, p.chan, p.original, Reply(e.ok, e.data, e.sent));
      if e.ok && p.streaming
      then Effect(s.(pending := s.pending[e.key := p.(accepted := true, lastActivity := e.now)]), [out])
      else Effect(Drop(s, [e.key]), [out])
  }

  function Touch(s: State, key: Key, now: nat): State {
    if key in s.pending then s.(pending := s.pending[key := s.pending[key].(lastActivity := now)]) else s
  }

  /** `notify_forced_termination`: the requester's messages, then the provider's. */
  function Forced(key: Key, p: Pending, reason: string, providerUp: bool): seq<Out> {
    [ToRequester(key, p.chan, p.original, Aborted(reason))]
    + (if p.accepted then [] else [ToRequester(key, p.chan, p.original, Backpressure(reason))])
    + (if providerUp then [ToProvider(key, p.provider, AbortedForProvider(reason))] else [])
  }

  function OnRequestChunk(s: State, e: Event): Effect
    requires e.RequestChunk?
  {
    if e.pick.None? || e.pick.value !in s.pending then Effect(s, [])
    else
      var key := e.pick.value;
      var p := s.pending[key];
      if !e.providerUp then Effect(Drop(s, [key]), Forced(key, p, "provider disconnected", false))
      else
        var out := ToProvider(key, p.provider, Upload(e.chunk, e.sent));
        if e.sent then Effect(Touch(s, key, e.now), [out])
        else Effect(Drop(s, [key]), [out] + Forced(key, p, "receiver backpressure", true))
  }

  function OnResponseChunk(s: State, e: Event): Effect
    requires e.ResponseChunk?
  {
    if !FromProvider(s, e.from, e.key) then Effect(s, [])
    else
      var p := s.pending[e.key];
      var out := ToRequester(e.key, p.chan, p.original, Piece(e.chunk, e.sent));
      if e.sent then Effect(Touch(s, e.key, e.now), [out])
      else Effect(Drop(s, [e.key]), [out] + Forced(e.key, p, "receiver backpressure", e.providerUp))
  }

  function OnSessionClose(s: State, e: Event): Effect
    requires e.SessionClose?
  {
    if e.from.None? then Effect(s, [Error(e.chan)])
    else
      var fromProvider := FromProvider(s, e.from, e.key);
      var resolved := if fromProvider then Some(e.key) else e.pick;
      if resolved.None? || resolved.value !in s.pending then Effect(s, [Error(e.chan)])
      else
        var key := resolved.value;
        var p := s.pending[key];
        if !p.accepted then Effect(s, [Error(e.chan)])
        else
          Effect(Drop(s, [key]),
                 if fromProvider then [ToRequester(key, p.chan, p.original, Closed(e.reason))]
                 else if e.providerUp then [ToProvider(key, p.provider, ClosedForProvider(e.reason))]
                 else [])
  }

  /** Direct device request: stored under the requester's own action id. */
  function OnMuxRequest(s: State, e: Event): Effect
    requires e.MuxRequest?
  {
    var p := Pending(e.chan, e.original, e.sender, e.provider, e.now + 30_000, e.streaming, false, e.now);
    Effect(s.(pending := s.pending[e.original := p]), [])
  }

  function Timeouts(s: State, keys: seq<Key>): seq<Out>
    requires forall k :: k in keys ==> k in s.pending
  {
    if keys == [] then []
    else
      var front, k := keys[..|keys| - 1], keys[|keys| - 1];
      Timeouts(s, front) + [ToRequester(k, s.pending[k].chan, s.pending[k].original, TimedOut)]
  }

  function IdleAborts(s: State, keys: seq<Key>, up: set<Plugin>): seq<Out>
    requires forall k :: k in keys ==> k in s.pending
  {
    if keys == [] then []
    else
      var front, k := keys[..|keys| - 1], keys[|keys| - 1];
      IdleAborts(s, front, up) + Forced(k, s.pending[k], "idle timeout", s.pending[k].provider in up)
  }

  ghost function OnPruneTick(cfg: Config, s: State, e: Event): Effect
    requires e.PruneTick? && Enabled(cfg, s, e)
  {
    var mid := Drop(s, e.expired);
    assert forall k :: k in e.idle ==> k in mid.pending;
    Effect(Drop(mid, e.idle), Timeouts(s, e.expired) + IdleAborts(mid, e.idle, e.up))
  }

  /** One atomic step of the router task. An input the code could not see changes nothing. */
  ghost function Step(cfg: Config, s: State, e: Event): Effect {
    if !Enabled(cfg, s, e) then Effect(s, [])
    else
      match e
      case Request(_, _, _, _, _, _, _) => OnRequest(cfg, s, e)
      case Response(_, _, _, _, _, _) => OnResponse(s, e)
      case RequestChunk(_, _, _, _, _, _, _) => OnRequestChunk(s, e)
      case ResponseChunk(_, _, _, _, _, _) => OnResponseChunk(s, e)
      case SessionClose(_, _, _, _, _, _) => OnSessionClose(s, e)
      case MuxRequest(_, _, _, _, _, _) => OnMuxRequest(s, e)
      case PruneTick(_, _, _, _, _) => OnPruneTick(cfg, s, e)
  }

  /** A whole run from the empty table, with everything it tried to send. */
  ghost function Run(cfg: Config, es: seq<Event>): Effect {
    if es == [] then Effect(Init(), [])
    else
      var before := Run(cfg, es[..|es| - 1]);
      var step := Step(cfg, before.state, es[|es| - 1]);
      Effect(step.state, before.outs + step.outs)
  }

  /** Direct requests do not forge a kernel id. */
  ghost predicate MuxClean(es: seq<Event>) {
    forall i :: 0 <= i < |es| && es[i].MuxRequest? ==> !IsKernelId(es[i].original)
  }

  /** The messages about `key` the kernel tried to send the requester, in order. */
  function Trace(outs: seq<Out>, key: Key): seq<Body> {
    if outs == [] then []
    else
      var last := outs[|outs| - 1];
      Trace(outs[..|outs| - 1], key) + (if last.ToRequester? && last.key == key then [last.body] else [])
  }

  lemma {:induction false} TraceConcat(a: seq<Out>, b: seq<Out>, key: Key)
    ensures Trace(a + b, key) == Trace(a, key) + Trace(b, key)
  {
    if b == [] {
      assert a + b == a;
    } else {
      assert (a + b)[..|a + b| - 1] == a + b[..|b| - 1];
      TraceConcat(a, b[..|b| - 1], key);
    }
  }
}
