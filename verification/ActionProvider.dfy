/** What the provider of an action is told, over every run. */
module ActionProvider {
  import opened Collections
  import opened ActionIds
  import opened ActionProtocol
  import opened ActionRuns
  import opened ActionSteps

  // ---------------------------------------------------------------------------
  // The notes about one action
  // ---------------------------------------------------------------------------

  /** The messages about `key` the kernel tried to send the provider, in order. */
  function Notes(outs: seq<Out>, key: Key): seq<ProviderBody> {
    if outs == [] then []
    else
      var last := outs[|outs| - 1];
      Notes(outs[..|outs| - 1], key) + (if last.ToProvider? && last.key == key then [last.note] else [])
  }

  lemma {:induction false} NotesConcat(a: seq<Out>, b: seq<Out>, key: Key)
    ensures Notes(a + b, key) == Notes(a, key) + Notes(b, key)
  {
    if b == [] {
      assert a + b == a;
    } else {
      assert (a + b)[..|a + b| - 1] == a + b[..|b| - 1];
      NotesConcat(a, b[..|b| - 1], key);
    }
  }

  lemma OneNote(o: Out, key: Key)
    ensures Notes([o], key) == if o.ToProvider? && o.key == key then [o.note] else []
    ensures Notes([], key) == []
  {
    assert [o][..0] == [];
  }

  lemma ForcedNotes(k: Key, p: Pending, reason: string, up: bool, key: Key)
    ensures Notes(Forced(k, p, reason, up), key) == if k == key && up then [AbortedForProvider(reason)] else []
  {
    var a := [ToRequester(k, p.chan, p.original, Aborted(reason))];
    var b := if p.accepted then [] else [ToRequester(k, p.chan, p.original, Backpressure(reason))];
    var c := if up then [ToProvider(k, p.provider, AbortedForProvider(reason))] else [];
    assert Forced(k, p, reason, up) == a + b + c;
    NotesConcat(a + b, c, key);
    NotesConcat(a, b, key);
  }

  lemma {:induction false} TimeoutsNotes(s: State, keys: seq<Key>, key: Key)
    requires forall k :: k in keys ==> k in s.pending
    ensures Notes(Timeouts(s, keys), key) == []
  {
    if keys != [] {
      hide Notes;
      var front, k := keys[..|keys| - 1], keys[|keys| - 1];
      assert keys == front + [k];
      TimeoutsNotes(s, front, key);
      var out := ToRequester(k, s.pending[k].chan, s.pending[k].original, TimedOut);
      OneNote(out, key);
      NotesConcat(Timeouts(s, front), [out], key);
    }
  }

  lemma {:induction false} IdleNotes(s: State, keys: seq<Key>, up: set<Plugin>, key: Key)
    requires forall k :: k in keys ==> k in s.pending
    requires Distinct(keys)
    ensures Notes(IdleAborts(s, keys, up), key)
         == if key in keys && s.pending[key].provider in up then [AbortedForProvider("idle timeout")] else []
  {
    if keys != [] {
      hide Notes, Forced;
      var front, k := keys[..|keys| - 1], keys[|keys| - 1];
      assert keys == front + [k];
      assert k !in front;
      IdleNotes(s, front, up, key);
      var there := s.pending[k].provider in up;
      NotesConcat(IdleAborts(s, front, up), Forced(k, s.pending[k], "idle timeout", there), key);
      ForcedNotes(k, s.pending[k], "idle timeout", there, key);
    } else {
      assert Notes([], key) == [];
    }
  }

  /** What one step tells the provider about an action. */
  ghost function Told(cfg: Config, s: State, e: Event, key: Key): seq<ProviderBody> {
    if !Enabled(cfg, s, e) then []
    else
      match e
      case Request(_, _, _, _, _, streaming, _) =>
        if Mints(cfg, s, e) && key == KernelId(s.next) then [Forwarded(streaming)] else []
      case RequestChunk(_, _, chunk, pick, up, sent, _) =>
        if pick != Some(key) || !up then []
        else [Upload(chunk, sent)] + (if sent then [] else [AbortedForProvider("receiver backpressure")])
      case ResponseChunk(from, k, _, up, sent, _) =>
        if k == key && FromProvider(s, from, key) && !sent && up then [AbortedForProvider("receiver backpressure")] else []
      case SessionClose(from, _, k, reason, pick, up) =>
        if ClosedByRequester(cfg, s, e, key) && up then [ClosedForProvider(reason)] else []
      case PruneTick(_, _, _, idle, up) =>
        if key in idle && key in s.pending && s.pending[key].provider in up then [AbortedForProvider("idle timeout")] else []
      case _ => []
  }

  lemma RequestChunkTold(cfg: Config, s: State, e: Event, key: Key)
    requires e.RequestChunk? && Enabled(cfg, s, e)
    ensures Notes(OnRequestChunk(s, e).outs, key) == Told(cfg, s, e, key)
  {
    hide Notes, Forced;
    if e.pick.Some? {
      var k, p := e.pick.value, s.pending[e.pick.value];
      var out := ToProvider(k, p.provider, Upload(e.chunk, e.sent));
      OneNote(out, key);
      NotesConcat([out], Forced(k, p, "receiver backpressure", true), key);
      ForcedNotes(k, p, "provider disconnected", false, key);
      ForcedNotes(k, p, "receiver backpressure", true, key);
    } else {
      OneNote(Error(0), key);
    }
  }

  lemma ResponseChunkTold(cfg: Config, s: State, e: Event, key: Key)
    requires e.ResponseChunk? && Enabled(cfg, s, e)
    ensures Notes(OnResponseChunk(s, e).outs, key) == Told(cfg, s, e, key)
  {
    hide Notes, Forced;
    OneNote(Error(0), key);
    if FromProvider(s, e.from, e.key) {
      var p := s.pending[e.key];
      var out := ToRequester(e.key, p.chan, p.original, Piece(e.chunk, e.sent));
      OneNote(out, key);
      NotesConcat([out], Forced(e.key, p, "receiver backpressure", e.providerUp), key);
      ForcedNotes(e.key, p, "receiver backpressure", e.providerUp, key);
      var told := if e.key == key && e.providerUp then [AbortedForProvider("receiver backpressure")] else [];
      assert [] + told == told;
    }
  }

  lemma TickTold(cfg: Config, s: State, e: Event, key: Key)
    requires e.PruneTick? && Enabled(cfg, s, e)
    ensures Notes(OnPruneTick(cfg, s, e).outs, key) == Told(cfg, s, e, key)
  {
    var mid := Drop(s, e.expired);
    NotesConcat(Timeouts(s, e.expired), IdleAborts(mid, e.idle, e.up), key);
    TimeoutsNotes(s, e.expired, key);
    IdleNotes(mid, e.idle, e.up, key);
    hide Notes, Timeouts, IdleAborts;
  }

  /** The attempted sends of a step to the provider of `key` are exactly `Told`. */
  lemma StepTold(cfg: Config, s: State, e: Event, key: Key)
    ensures Notes(Step(cfg, s, e).outs, key) == Told(cfg, s, e, key)
  {
    hide Notes;
    OneNote(Error(0), key);
    if Enabled(cfg, s, e) {
      match e {
        case RequestChunk(_, _, _, _, _, _, _) => RequestChunkTold(cfg, s, e, key);
        case ResponseChunk(_, _, _, _, _, _) => ResponseChunkTold(cfg, s, e, key);
        case PruneTick(_, _, _, _, _) => TickTold(cfg, s, e, key);
        case MuxRequest(_, _, _, _, _, _) =>
        case _ =>
          var outs := Step(cfg, s, e).outs;
          if outs != [] { OneNote(outs[0], key); }
      }
    }
  }

  // ---------------------------------------------------------------------------
  // The provider's view: a fixed automaton
  // ---------------------------------------------------------------------------

  datatype Ear =
    | Unasked
    | Working
    | Cut   // an upload could not be enqueued, the abort must follow
    | Over
    | Off

  function Hear(q: Ear, b: ProviderBody): Ear {
    match q
    case Unasked => if b.Forwarded? then Working else Off
    case Working => (
      match b
      case Forwarded(_) => Off
      case Upload(_, enqueued) => if enqueued then Working else Cut
      case AbortedForProvider(_) => Over
      case ClosedForProvider(_) => Over
    )
    case Cut => if b.AbortedForProvider? then Over else Off
    case Over => Off
    case Off => Off
  }

  function Ears(q: Ear, t: seq<ProviderBody>): Ear {
    if t == [] then q else Hear(Ears(q, t[..|t| - 1]), t[|t| - 1])
  }

  lemma {:induction false} EarsConcat(q: Ear, t: seq<ProviderBody>, u: seq<ProviderBody>)
    ensures Ears(q, t + u) == Ears(Ears(q, t), u)
  {
    if u == [] {
      assert t + u == t;
    } else {
      assert (t + u)[..|t + u| - 1] == t + u[..|u| - 1];
      EarsConcat(q, t, u[..|u| - 1]);
    }
  }

  lemma EarsOne(q: Ear, b: ProviderBody)
    ensures Ears(q, [b]) == Hear(q, b) && Ears(q, []) == q
  {
    assert [b][..0] == [];
  }

  /** The event finds the provider registered. */
  predicate ProviderUp(e: Event, provider: Plugin) {
    match e
    case RequestChunk(_, _, _, _, up, _, _) => up
    case ResponseChunk(_, _, _, up, _, _) => up
    case SessionClose(_, _, _, _, _, up) => up
    case PruneTick(_, _, _, _, up) => provider in up
    case _ => true
  }

  /** Ways for an action to end of which its provider is not told: its own reply or close, a
      deadline that passed, or it is not there to be told. */
  ghost predicate EndsQuietly(s: State, e: Event, key: Key) {
    key in s.pending &&
    (|| e.Response?
     || (e.SessionClose? && e.key == key && FromProvider(s, e.from, key))
     || (e.PruneTick? && key in e.expired)
     || !ProviderUp(e, s.pending[key].provider))
  }

  lemma UploadEars(chunk: Chunk)
    ensures Ears(Working, [Upload(chunk, false)] + [AbortedForProvider("receiver backpressure")]) == Over
  {
    EarsConcat(Working, [Upload(chunk, false)], [AbortedForProvider("receiver backpressure")]);
    EarsOne(Working, Upload(chunk, false));
    EarsOne(Cut, AbortedForProvider("receiver backpressure"));
  }

  /** The notes of one step move the automaton as the entry moves. */
  lemma StepEars(cfg: Config, s: State, e: Event, key: Key)
    requires Inv(s) && CleanEvent(e) && key in s.pending && IsKernelId(key)
    ensures var q := Ears(Working, Told(cfg, s, e, key));
            if key in Step(cfg, s, e).state.pending || EndsQuietly(s, e, key) then q == Working else q == Over
  {
    StepStays(cfg, s, e, key);
    hide Step, Ears, Inv, ForcedSaid, Enumerates, PickOk, ExpiredKeys, IdleKeys;
    EarsOne(Working, Forwarded(false));
    match e
    case RequestChunk(_, _, chunk, _, _, _, _) =>
      UploadEars(chunk);
      EarsOne(Working, Upload(chunk, true));
      assert [Upload(chunk, true)] + [] == [Upload(chunk, true)];
    case ResponseChunk(_, _, _, _, _, _) => EarsOne(Working, AbortedForProvider("receiver backpressure"));
    case SessionClose(_, _, _, reason, _, _) => EarsOne(Working, ClosedForProvider(reason));
    case PruneTick(_, _, _, _, _) => EarsOne(Working, AbortedForProvider("idle timeout"));
    case Request(_, _, _, _, _, _, _) => NotMintedAgain(s, key);
    case _ =>
  }

  lemma NotMintedAgain(s: State, key: Key)
    requires Inv(s) && key in s.pending && IsKernelId(key)
    ensures key != KernelId(s.next)
  {
    var n: nat :| key == KernelId(n);
    if key == KernelId(s.next) {
      FreshId(s, n);
    }
  }

  // ---------------------------------------------------------------------------
  // Whole runs
  // ---------------------------------------------------------------------------

  /** The messages the run tried to send the provider of action `n`. */
  ghost function ProviderHeard(cfg: Config, es: seq<Event>, n: nat): seq<ProviderBody> {
    Notes(Run(cfg, es).outs, KernelId(n))
  }

  /** The step with which action `n` left was one its provider is not told of. */
  ghost predicate LeftQuietly(cfg: Config, es: seq<Event>, n: nat) {
    es != [] &&
    var s, e := Run(cfg, es[..|es| - 1]).state, es[|es| - 1];
    LeftQuietly(cfg, es[..|es| - 1], n)
    || (KernelId(n) in s.pending && KernelId(n) !in Run(cfg, es).state.pending && EndsQuietly(s, e, KernelId(n)))
  }

  ghost predicate Serves(cfg: Config, es: seq<Event>, n: nat) {
    var s, heard := Run(cfg, es).state, ProviderHeard(cfg, es, n);
    if n >= s.next then heard == [] && !LeftQuietly(cfg, es, n)
    else
      && Origin(cfg, es, n).Some?
      && heard != [] && heard[0] == Forwarded(Origin(cfg, es, n).value.streaming)
      && Ears(Unasked, heard) == (if KernelId(n) in s.pending || LeftQuietly(cfg, es, n) then Working else Over)
      && (KernelId(n) in s.pending ==> !LeftQuietly(cfg, es, n))
  }

  lemma ProviderHeardStep(cfg: Config, before: seq<Event>, e: Event, n: nat)
    ensures ProviderHeard(cfg, before + [e], n)
         == ProviderHeard(cfg, before, n) + Told(cfg, Run(cfg, before).state, e, KernelId(n))
  {
    hide Run, Step, Notes, Told;
    var s := Run(cfg, before).state;
    RunStep(cfg, before, e);
    NotesConcat(Run(cfg, before).outs, Step(cfg, s, e).outs, KernelId(n));
    StepTold(cfg, s, e, KernelId(n));
  }

  lemma LeftQuietlyStep(cfg: Config, before: seq<Event>, e: Event, n: nat)
    ensures LeftQuietly(cfg, before + [e], n) <==>
      LeftQuietly(cfg, before, n)
      || (KernelId(n) in Run(cfg, before).state.pending && KernelId(n) !in Run(cfg, before + [e]).state.pending
          && EndsQuietly(Run(cfg, before).state, e, KernelId(n)))
  {
    assert (before + [e])[..|before + [e]| - 1] == before;
  }

  lemma ServesPending(cfg: Config, before: seq<Event>, e: Event, n: nat)
    requires Inv(Run(cfg, before).state) && CleanEvent(e) && Serves(cfg, before, n)
    requires KernelId(n) in Run(cfg, before).state.pending && n < Run(cfg, before).state.next
    requires Origin(cfg, before + [e], n) == Origin(cfg, before, n)
    ensures Serves(cfg, before + [e], n)
  {
    var key, s := KernelId(n), Run(cfg, before).state;
    assert IsKernelId(key);
    hide Run, Step, Told, Ears, Inv, EndsQuietly, IsKernelId, Origin;
    RunStep(cfg, before, e);
    StepInv(cfg, s, e);
    ProviderHeardStep(cfg, before, e, n);
    LeftQuietlyStep(cfg, before, e, n);
    StepEars(cfg, s, e, key);
    EarsConcat(Unasked, ProviderHeard(cfg, before, n), Told(cfg, s, e, key));
  }

  lemma GoneToldNothing(cfg: Config, s: State, e: Event, n: nat)
    requires KernelId(n) !in s.pending && n != s.next
    ensures Told(cfg, s, e, KernelId(n)) == []
  {
    if KernelId(n) == KernelId(s.next) {
      KernelIdInjective(n, s.next);
    }
  }

  lemma StaysGone(cfg: Config, s: State, e: Event, n: nat)
    requires CleanEvent(e) && KernelId(n) !in s.pending && n != s.next
    ensures KernelId(n) !in Step(cfg, s, e).state.pending
  {
    assert IsKernelId(KernelId(n));
    if KernelId(n) == KernelId(s.next) {
      KernelIdInjective(n, s.next);
    }
    hide Step;
    StepBringsIn(cfg, s, e, KernelId(n));
  }

  lemma ServesGone(cfg: Config, before: seq<Event>, e: Event, n: nat)
    requires Inv(Run(cfg, before).state) && CleanEvent(e) && Serves(cfg, before, n)
    requires KernelId(n) !in Run(cfg, before).state.pending && n != Run(cfg, before).state.next
    requires n < Run(cfg, before).state.next ==> Origin(cfg, before + [e], n) == Origin(cfg, before, n)
    ensures Serves(cfg, before + [e], n)
  {
    hide Run, Step, Told, Ears, Inv, EndsQuietly, IsKernelId, KernelId, Origin, Mints, ProviderHeard, LeftQuietly, CleanEvent;
    var s := Run(cfg, before).state;
    RunStep(cfg, before, e);
    StepInv(cfg, s, e);
    StaysGone(cfg, s, e, n);
    ProviderHeardStep(cfg, before, e, n);
    LeftQuietlyStep(cfg, before, e, n);
    GoneToldNothing(cfg, s, e, n);
    assert ProviderHeard(cfg, before + [e], n) == ProviderHeard(cfg, before, n);
  }

  lemma MintTold(cfg: Config, s: State, e: Event)
    ensures Mints(cfg, s, e) ==> Told(cfg, s, e, KernelId(s.next)) == [Forwarded(e.streaming)]
    ensures KernelId(s.next) !in s.pending && !Mints(cfg, s, e) ==> Told(cfg, s, e, KernelId(s.next)) == []
  {
  }

  lemma ServesNext(cfg: Config, before: seq<Event>, e: Event, n: nat)
    requires Inv(Run(cfg, before).state) && CleanEvent(e) && Serves(cfg, before, n)
    requires n == Run(cfg, before).state.next
    requires Mints(cfg, Run(cfg, before).state, e) ==> Origin(cfg, before + [e], n) == Some(Entry(cfg, e))
    ensures Serves(cfg, before + [e], n)
  {
    var key, s := KernelId(n), Run(cfg, before).state;
    assert IsKernelId(key) && key !in s.pending;
    hide Run, Step, Told, Ears, Inv, EndsQuietly, IsKernelId, Origin, Mints;
    RunStep(cfg, before, e);
    StepInv(cfg, s, e);
    StepBringsIn(cfg, s, e, key);
    ProviderHeardStep(cfg, before, e, n);
    LeftQuietlyStep(cfg, before, e, n);
    MintTold(cfg, s, e);
    if Mints(cfg, s, e) {
      EarsOne(Unasked, Forwarded(e.streaming));
    }
  }

  lemma OriginStep(cfg: Config, before: seq<Event>, e: Event, n: nat)
    ensures var s := Run(cfg, before).state;
            && (n < s.next ==> Origin(cfg, before + [e], n) == Origin(cfg, before, n))
            && (n == s.next && Mints(cfg, s, e) ==> Origin(cfg, before + [e], n) == Some(Entry(cfg, e)))
  {
    assert (before + [e])[..|before + [e]| - 1] == before;
  }

  /** In every run the provider of a kernel-routed action is sent the request first, with its
      streaming flag, then only uploads, and at most one abort or close, which is the last thing it
      hears. While the action is pending it hears of no end; once the action is gone it was told,
      unless it ended the action itself, the deadline passed, or it was not registered then. */
  lemma {:induction false} ProviderIsServed(cfg: Config, es: seq<Event>, n: nat)
    requires MuxClean(es)
    ensures Serves(cfg, es, n)
  {
    if es == [] {
      assert Notes([], KernelId(n)) == [];
    } else {
      var before, e := es[..|es| - 1], es[|es| - 1];
      ProviderIsServed(cfg, before, n);
      RunInv(cfg, before);
      assert es == before + [e];
      OriginStep(cfg, before, e, n);
      hide Serves, Run, Mints, Origin;
      var s := Run(cfg, before).state;
      if n == s.next {
        ServesNext(cfg, before, e, n);
      } else if KernelId(n) in s.pending {
        ServesPending(cfg, before, e, n);
      } else {
        ServesGone(cfg, before, e, n);
      }
    }
  }
}
