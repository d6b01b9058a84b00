/** Streams without silent gaps: what reaches one end of an action is what the other end
    submitted, in order, up to the point where the action ended. */
module ActionStreams {
  import opened Collections
  import opened ActionIds
  import opened ActionProtocol
  import opened ActionSteps
  import opened ActionRuns

  // ---------------------------------------------------------------------------
  // Provider to requester
  // ---------------------------------------------------------------------------

  /** What the routed provider submits for action `key` in one step: chunks, and replies with the
      fate they meet at the requester's channel. */
  function Submission(e: Event, provider: Plugin, key: Key): seq<Body> {
    match e
    case Response(from, k, ok, data, sent, _) =>
      if from == Some(provider) && k == key then [Reply(ok, data, sent)] else []
    case ResponseChunk(from, k, chunk, _, _, _) =>
      if from == Some(provider) && k == key then [Piece(chunk, true)] else []
    case _ => []
  }

  /** Everything the routed provider submitted for action `n` since it was minted. */
  ghost function Submitted(cfg: Config, es: seq<Event>, n: nat): seq<Body> {
    if es == [] then []
    else
      var before, e := es[..|es| - 1], es[|es| - 1];
      var origin := Origin(cfg, before, n);
      Submitted(cfg, before, n)
      + (if origin.Some? then Submission(e, origin.value.provider, KernelId(n)) else [])
  }

  /** The provider's messages that were handed on: the chunks that were enqueued and all replies,
      lost or not. */
  function HandedOn(t: seq<Body>): seq<Body> {
    if t == [] then []
    else
      var b := t[|t| - 1];
      HandedOn(t[..|t| - 1]) + (if b.Reply? || (b.Piece? && b.enqueued) then [b] else [])
  }

  lemma {:induction false} HandedOnConcat(t: seq<Body>, u: seq<Body>)
    ensures HandedOn(t + u) == HandedOn(t) + HandedOn(u)
  {
    if u == [] {
      assert t + u == t;
    } else {
      assert (t + u)[..|t + u| - 1] == t + u[..|u| - 1];
      HandedOnConcat(t, u[..|u| - 1]);
    }
  }

  lemma HandedOnOne(b: Body)
    ensures HandedOn([b]) == if b.Reply? || (b.Piece? && b.enqueued) then [b] else []
  {
    assert [b][..0] == [];
  }

  lemma HandedOnForced(p: Pending, reason: string)
    ensures HandedOn(ForcedSaid(p, reason)) == []
  {
    var rest := if p.accepted then [] else [Backpressure(reason)];
    HandedOnConcat([Aborted(reason)], rest);
    HandedOnOne(Aborted(reason));
    HandedOnOne(Backpressure(reason));
  }

  lemma HandedOnFailed(p: Pending, chunk: Chunk)
    ensures HandedOn([Piece(chunk, false)] + ForcedSaid(p, "receiver backpressure")) == []
  {
    HandedOnConcat([Piece(chunk, false)], ForcedSaid(p, "receiver backpressure"));
    HandedOnOne(Piece(chunk, false));
    HandedOnForced(p, "receiver backpressure");
  }

  lemma ReplyHandsOn(cfg: Config, s: State, e: Event, key: Key)
    requires key in s.pending && e.Response?
    ensures HandedOn(Said(cfg, s, e, key)) == Submission(e, s.pending[key].provider, key)
  {
    hide HandedOn;
    NothingHandedOn();
    HandedOnOne(Reply(e.ok, e.data, e.sent));
  }

  lemma ChunkHandsOn(cfg: Config, s: State, e: Event, key: Key)
    requires key in s.pending && e.ResponseChunk?
    ensures var d := HandedOn(Said(cfg, s, e, key));
            d == Submission(e, s.pending[key].provider, key) || (d == [] && |Said(cfg, s, e, key)| > 1)
  {
    hide HandedOn, ForcedSaid;
    NothingHandedOn();
    HandedOnOne(Piece(e.chunk, true));
    HandedOnFailed(s.pending[key], e.chunk);
    ForcedSaidNotEmpty(s.pending[key], "receiver backpressure");
    assert [Piece(e.chunk, true)] + [] == [Piece(e.chunk, true)];
  }

  lemma ForcedSaidNotEmpty(p: Pending, reason: string)
    ensures |ForcedSaid(p, reason)| > 0
  {
  }

  lemma OtherHandsOn(cfg: Config, s: State, e: Event, key: Key)
    requires key in s.pending && !e.Response? && !e.ResponseChunk?
    ensures HandedOn(Said(cfg, s, e, key)) == [] == Submission(e, s.pending[key].provider, key)
  {
    hide HandedOn, ForcedSaid, Enabled;
    var p := s.pending[key];
    NothingHandedOn();
    match e
    case RequestChunk(_, _, _, _, providerUp, _, _) =>
      HandedOnForced(p, if providerUp then "receiver backpressure" else "provider disconnected");
    case SessionClose(_, _, _, reason, _, _) => HandedOnOne(Closed(reason));
    case PruneTick(_, _, _, _, _) =>
      HandedOnOne(TimedOut);
      HandedOnForced(p, "idle timeout");
    case _ =>
  }

  /** One step hands on what the provider submitted in it, or nothing when the action ends. */
  lemma StepHandsOn(cfg: Config, s: State, e: Event, key: Key)
    requires Inv(s) && CleanEvent(e) && key in s.pending && IsKernelId(key)
    ensures var d, sub := HandedOn(Said(cfg, s, e, key)), Submission(e, s.pending[key].provider, key);
            d == sub || (d == [] && key !in Step(cfg, s, e).state.pending)
  {
    StepStays(cfg, s, e, key);
    hide Step, HandedOn, Inv, Said, Submission, ClosedByRequester;
    match e
    case Response(_, _, _, _, _, _) => ReplyHandsOn(cfg, s, e, key);
    case ResponseChunk(_, _, _, _, _, _) => ChunkHandsOn(cfg, s, e, key);
    case _ => OtherHandsOn(cfg, s, e, key);
  }

  lemma NothingHandedOn()
    ensures HandedOn([]) == []
  {
  }

  /** What was handed on is a prefix of what the provider submitted, and all of it while the action
      is pending. */
  ghost predicate Gapless(cfg: Config, es: seq<Event>, n: nat) {
    var d, sub := HandedOn(Heard(cfg, es, n)), Submitted(cfg, es, n);
    d <= sub && (KernelId(n) in Run(cfg, es).state.pending ==> d == sub)
  }

  /** In every run the provider's messages are handed on in order and without a gap. */
  lemma {:induction false} HandedOnInOrder(cfg: Config, es: seq<Event>, n: nat)
    requires MuxClean(es)
    ensures Gapless(cfg, es, n)
  {
    if es != [] {
      var before, e := es[..|es| - 1], es[|es| - 1];
      HandedOnInOrder(cfg, before, n);
      hide Gapless, IsKernelId, Run;
      NoGapsStep(cfg, before, e, n);
      assert es == before + [e];
    }
  }

  /** A pending action has the identity it was minted with. */
  lemma PendingHasOrigin(cfg: Config, es: seq<Event>, n: nat)
    requires MuxClean(es) && KernelId(n) in Run(cfg, es).state.pending
    ensures Origin(cfg, es, n).Some? && SameAction(Origin(cfg, es, n).value, Run(cfg, es).state.pending[KernelId(n)])
  {
    ConversationFollowsAutomaton(cfg, es, n);
    RunInv(cfg, es);
  }

  lemma SubmittedStep(cfg: Config, before: seq<Event>, e: Event, n: nat)
    ensures var origin := Origin(cfg, before, n);
            Submitted(cfg, before + [e], n) == Submitted(cfg, before, n)
              + (if origin.Some? then Submission(e, origin.value.provider, KernelId(n)) else [])
  {
    assert (before + [e])[..|before + [e]| - 1] == before;
  }

  lemma HandedOnStep(cfg: Config, before: seq<Event>, e: Event, n: nat)
    ensures HandedOn(Heard(cfg, before + [e], n))
         == HandedOn(Heard(cfg, before, n)) + HandedOn(Said(cfg, Run(cfg, before).state, e, KernelId(n)))
  {
    hide Run, Step, Trace, Said, HandedOn;
    var s := Run(cfg, before).state;
    RunStep(cfg, before, e);
    TraceConcat(Run(cfg, before).outs, Step(cfg, s, e).outs, KernelId(n));
    StepTrace(cfg, s, e, KernelId(n));
    HandedOnConcat(Heard(cfg, before, n), Said(cfg, s, e, KernelId(n)));
  }

  lemma NoGapsStep(cfg: Config, before: seq<Event>, e: Event, n: nat)
    requires MuxClean(before) && CleanEvent(e) && Gapless(cfg, before, n)
    ensures Gapless(cfg, before + [e], n)
  {
    var key, s := KernelId(n), Run(cfg, before).state;
    RunInv(cfg, before);
    assert IsKernelId(key);
    HandedOnStep(cfg, before, e, n);
    SubmittedStep(cfg, before, e, n);
    RunStep(cfg, before, e);
    if key in s.pending {
      PendingHasOrigin(cfg, before, n);
      hide Run, Step, Inv, Trace, Said, HandedOn, Submitted, Submission;
      StepHandsOn(cfg, s, e, key);
    } else {
      hide Run, Step, Inv, Trace, HandedOn, Submitted, Submission;
      NothingHandedOn();
      assert Said(cfg, s, e, key) == [];
      if key in Run(cfg, before + [e]).state.pending {
        MintedNow(cfg, before, e, n);
      }
    }
  }

  lemma MintedNow(cfg: Config, before: seq<Event>, e: Event, n: nat)
    requires MuxClean(before) && CleanEvent(e) && KernelId(n) !in Run(cfg, before).state.pending
    requires KernelId(n) in Run(cfg, before + [e]).state.pending
    ensures Submitted(cfg, before, n) == []
    ensures Origin(cfg, before, n).None?
  {
    var s := Run(cfg, before).state;
    assert IsKernelId(KernelId(n));
    RunStep(cfg, before, e);
    StepBringsIn(cfg, s, e, KernelId(n));
    FreshId(s, n);
    NothingBeforeMint(cfg, before, n);
  }

  lemma {:induction false} NothingBeforeMint(cfg: Config, es: seq<Event>, n: nat)
    requires MuxClean(es) && n >= Run(cfg, es).state.next
    ensures Submitted(cfg, es, n) == [] && Origin(cfg, es, n).None?
  {
    if es != [] {
      var before, e := es[..|es| - 1], es[|es| - 1];
      RunInv(cfg, before);
      StepInv(cfg, Run(cfg, before).state, e);
      NothingBeforeMint(cfg, before, n);
    }
  }

  /** The chunks among some messages that were enqueued. */
  function Chunks(t: seq<Body>): seq<Chunk> {
    if t == [] then []
    else
      var b := t[|t| - 1];
      Chunks(t[..|t| - 1]) + (if b.Piece? && b.enqueued then [b.chunk] else [])
  }

  lemma {:induction false} ChunksHandedOn(t: seq<Body>)
    ensures Chunks(HandedOn(t)) == Chunks(t)
  {
    if t != [] {
      var front, b := t[..|t| - 1], t[|t| - 1];
      ChunksHandedOn(front);
      if b.Reply? || (b.Piece? && b.enqueued) {
        assert HandedOn(t)[..|HandedOn(t)| - 1] == HandedOn(front);
      } else {
        assert HandedOn(t) == HandedOn(front);
      }
    }
  }

  lemma {:induction false} ChunksPrefix(t: seq<Body>, n: nat)
    requires n <= |t|
    ensures Chunks(t[..n]) <= Chunks(t)
  {
    if n == |t| {
      assert t[..n] == t;
    } else {
      ChunksPrefix(t[..|t| - 1], n);
      assert t[..|t| - 1][..n] == t[..n];
    }
  }

  /** In every run, the response chunks enqueued for the requester of a kernel-routed action are a
      prefix of those its provider submitted, and all of them while the action is pending. */
  lemma NoGapsToRequester(cfg: Config, es: seq<Event>, n: nat)
    requires MuxClean(es)
    ensures Chunks(Heard(cfg, es, n)) <= Chunks(Submitted(cfg, es, n))
    ensures KernelId(n) in Run(cfg, es).state.pending ==>
      Chunks(Heard(cfg, es, n)) == Chunks(Submitted(cfg, es, n))
  {
    hide Run, Submitted, HandedOn, Chunks, Trace;
    HandedOnInOrder(cfg, es, n);
    ChunksHandedOn(Heard(cfg, es, n));
    var d, sub := HandedOn(Heard(cfg, es, n)), Submitted(cfg, es, n);
    assert d == sub[..|d|];
    ChunksPrefix(sub, |d|);
  }

  // ---------------------------------------------------------------------------
  // Accepting replies that are lost
  // ---------------------------------------------------------------------------

  predicate SaysOk(t: seq<Body>) {
    exists i :: 0 <= i < |t| && t[i].Reply? && t[i].ok
  }

  predicate GetsOk(t: seq<Body>) {
    exists i :: 0 <= i < |t| && t[i].Reply? && t[i].ok && t[i].enqueued
  }

  lemma SaysOkSnoc(t: seq<Body>, b: Body)
    ensures SaysOk(t + [b]) <==> SaysOk(t) || (b.Reply? && b.ok)
    ensures GetsOk(t + [b]) <==> GetsOk(t) || (b.Reply? && b.ok && b.enqueued)
  {
    var u := t + [b];
    assert u[|t|] == b;
    assert forall i :: 0 <= i < |t| ==> u[i] == t[i];
  }

  lemma {:induction false} HandedOnKeepsReplies(t: seq<Body>)
    ensures SaysOk(HandedOn(t)) <==> SaysOk(t)
    ensures GetsOk(HandedOn(t)) <==> GetsOk(t)
  {
    if t != [] {
      var front, b := t[..|t| - 1], t[|t| - 1];
      HandedOnKeepsReplies(front);
      hide SaysOk, GetsOk;
      SaysOkSnoc(front, b);
      SaysOkSnoc(HandedOn(front), b);
      assert t == front + [b];
    }
  }

  /** An open conversation is accepted exactly when an OK reply was sent. */
  lemma {:induction false} AcceptedIffSaidOk(streaming: bool, t: seq<Body>)
    ensures var q := After(Open(streaming, false), t); q.Open? || q.Failing? ==> (q.accepted <==> SaysOk(t))
  {
    if t != [] {
      var front, b := t[..|t| - 1], t[|t| - 1];
      AcceptedIffSaidOk(streaming, front);
      hide SaysOk, GetsOk;
      SaysOkSnoc(front, b);
      assert t == front + [b];
    }
  }

  /** In every run a pending action is an accepted session if and only if its provider replied OK,
      and its requester got an accepting reply if and only if a channel took one. */
  lemma AcceptedIffProviderSaidOk(cfg: Config, es: seq<Event>, n: nat)
    requires MuxClean(es) && KernelId(n) in Run(cfg, es).state.pending
    ensures Run(cfg, es).state.pending[KernelId(n)].accepted <==> SaysOk(Submitted(cfg, es, n))
    ensures GetsOk(Heard(cfg, es, n)) <==> GetsOk(Submitted(cfg, es, n))
  {
    hide SaysOk, GetsOk, HandedOn, Submitted, Trace, Run;
    RunInv(cfg, es);
    ConversationFollowsAutomaton(cfg, es, n);
    HandedOnInOrder(cfg, es, n);
    HandedOnKeepsReplies(Heard(cfg, es, n));
    AcceptedIffSaidOk(Origin(cfg, es, n).value.streaming, Heard(cfg, es, n));
  }

  /** The requester got a reply of the provider, of whatever status. */
  predicate GetsReply(t: seq<Body>) {
    exists i :: 0 <= i < |t| && t[i].Reply? && t[i].enqueued
  }

  /** A conversation that is open and not accepted has had no reply. */
  lemma {:induction false} NoReplyYet(streaming: bool, t: seq<Body>)
    ensures var q := After(Open(streaming, false), t);
            (q.Open? || q.Failing?) && !q.accepted ==> forall i :: 0 <= i < |t| ==> !t[i].Reply?
  {
    if t != [] {
      NoReplyYet(streaming, t[..|t| - 1]);
    }
  }

  lemma HeardStep(cfg: Config, before: seq<Event>, e: Event, n: nat)
    ensures Heard(cfg, before + [e], n) == Heard(cfg, before, n) + Said(cfg, Run(cfg, before).state, e, KernelId(n))
  {
    hide Run, Step, Trace, Said;
    var s := Run(cfg, before).state;
    RunStep(cfg, before, e);
    TraceConcat(Run(cfg, before).outs, Step(cfg, s, e).outs, KernelId(n));
    StepTrace(cfg, s, e, KernelId(n));
  }

  lemma {:induction false} HeardGrows(cfg: Config, es: seq<Event>, more: seq<Event>, n: nat)
    ensures Heard(cfg, es, n) <= Heard(cfg, es + more, n)
  {
    if more == [] {
      assert es + more == es;
    } else {
      hide Heard, Said;
      var front, e := more[..|more| - 1], more[|more| - 1];
      HeardGrows(cfg, es, front, n);
      HeardStep(cfg, es + front, e, n);
      assert es + more == es + front + [e];
    }
  }

  lemma AcceptStep(cfg: Config, s: State, e: Event, key: Key)
    requires key in s.pending && Accepts(s, e, key)
    ensures Said(cfg, s, e, key) == [Reply(true, e.data, e.sent)]
    ensures var t := Step(cfg, s, e).state;
            key in t.pending && t.pending[key].accepted && t.pending[key].provider == s.pending[key].provider
  {
  }

  /** The provider's close of an accepted session, with an answer the reverse lookup may give. */
  lemma CloseStep(cfg: Config, s: State, key: Key) returns (c: Event)
    requires key in s.pending && s.pending[key].accepted
    ensures CleanEvent(c) && key !in Step(cfg, s, c).state.pending
    ensures Said(cfg, s, c, key) == [Closed("")]
  {
    var provider := s.pending[key].provider;
    var pick := None;
    if k :| k in s.pending && Matches(s.pending[k], provider, key) {
      pick := Some(k);
    }
    c := SessionClose(Some(provider), 0, key, "", pick, false);
    assert Enabled(cfg, s, c);
  }

  /** In every run and for every accepting reply to an action not yet accepted: its requester has
      got a reply of the provider by the time the action is over, whatever happens in between, if
      and only if the channel took this one. */
  lemma AcceptanceHeardIff(cfg: Config, past: seq<Event>, e: Event, n: nat)
    requires MuxClean(past) && KernelId(n) in Run(cfg, past).state.pending
    requires !Run(cfg, past).state.pending[KernelId(n)].accepted && Accepts(Run(cfg, past).state, e, KernelId(n))
    ensures (forall es :: MuxClean(es) && KernelId(n) !in Run(cfg, past + [e] + es).state.pending ==>
              GetsReply(Heard(cfg, past + [e] + es, n)))
       <==> e.sent
  {
    hide Run, Step, Said, Trace, Heard;
    var key, s := KernelId(n), Run(cfg, past).state;
    RunStep(cfg, past, e);
    AcceptStep(cfg, s, e, key);
    HeardStep(cfg, past, e, n);
    var heard := Heard(cfg, past + [e], n);
    if e.sent {
      assert heard[|heard| - 1] == Reply(true, e.data, true);
      forall es ensures GetsReply(Heard(cfg, past + [e] + es, n)) {
        HeardGrows(cfg, past + [e], es, n);
        assert Heard(cfg, past + [e] + es, n)[|heard| - 1] == heard[|heard| - 1];
      }
    } else {
      var c := CloseStep(cfg, Run(cfg, past + [e]).state, key);
      RunStep(cfg, past + [e], c);
      HeardStep(cfg, past + [e], c, n);
      NothingHeard(cfg, past, n);
      assert Heard(cfg, past + [e] + [c], n) == Heard(cfg, past, n) + [Reply(true, e.data, false)] + [Closed("")];
      assert MuxClean([c]);
    }
  }

  lemma NothingHeard(cfg: Config, past: seq<Event>, n: nat)
    requires MuxClean(past) && KernelId(n) in Run(cfg, past).state.pending
    requires !Run(cfg, past).state.pending[KernelId(n)].accepted
    ensures forall i :: 0 <= i < |Heard(cfg, past, n)| ==> !Heard(cfg, past, n)[i].Reply?
  {
    hide Run, Trace;
    RunInv(cfg, past);
    ConversationFollowsAutomaton(cfg, past, n);
    NoReplyYet(Origin(cfg, past, n).value.streaming, Heard(cfg, past, n));
  }

  // ---------------------------------------------------------------------------
  // Requester to provider
  // ---------------------------------------------------------------------------

  /** The request chunks of action `key` that were enqueued for its provider. */
  function Uploads(outs: seq<Out>, key: Key): seq<Chunk> {
    if outs == [] then []
    else
      var o := outs[|outs| - 1];
      Uploads(outs[..|outs| - 1], key)
      + (if o.ToProvider? && o.key == key && o.note.Upload? && o.note.enqueued then [o.note.chunk] else [])
  }

  lemma {:induction false} UploadsConcat(a: seq<Out>, b: seq<Out>, key: Key)
    ensures Uploads(a + b, key) == Uploads(a, key) + Uploads(b, key)
  {
    if b == [] {
      assert a + b == a;
    } else {
      assert (a + b)[..|a + b| - 1] == a + b[..|b| - 1];
      UploadsConcat(a, b[..|b| - 1], key);
    }
  }

  predicate IsUpload(o: Out) {
    o.ToProvider? && o.note.Upload?
  }

  lemma {:induction false} NoUploads(outs: seq<Out>, key: Key)
    requires forall o :: o in outs ==> !IsUpload(o)
    ensures Uploads(outs, key) == []
  {
    if outs != [] {
      assert forall o :: o in outs[..|outs| - 1] ==> o in outs;
      assert outs[|outs| - 1] in outs;
      NoUploads(outs[..|outs| - 1], key);
    }
  }

  lemma {:induction false} SweepsUploadNothing(s: State, keys: seq<Key>, up: set<Plugin>)
    requires forall k :: k in keys ==> k in s.pending
    ensures forall o :: o in Timeouts(s, keys) ==> !IsUpload(o)
    ensures forall o :: o in IdleAborts(s, keys, up) ==> !IsUpload(o)
  {
    if keys != [] {
      assert forall k :: k in keys[..|keys| - 1] ==> k in keys;
      SweepsUploadNothing(s, keys[..|keys| - 1], up);
    }
  }

  /** The request chunk that one step enqueues for the provider of `key`. */
  ghost function StepUpload(cfg: Config, s: State, e: Event, key: Key): seq<Chunk> {
    if e.RequestChunk? && Enabled(cfg, s, e) && e.pick == Some(key) && e.providerUp && e.sent then [e.chunk] else []
  }

  lemma RequestChunkUploads(cfg: Config, s: State, e: Event, key: Key)
    requires e.RequestChunk? && Enabled(cfg, s, e)
    ensures Uploads(OnRequestChunk(s, e).outs, key) == StepUpload(cfg, s, e, key)
  {
    if e.pick.Some? {
      var k, p := e.pick.value, s.pending[e.pick.value];
      var out := ToProvider(k, p.provider, Upload(e.chunk, e.sent));
      assert [out][..0] == [];
      NoUploads(Forced(k, p, "provider disconnected", false), key);
      NoUploads(Forced(k, p, "receiver backpressure", true), key);
      UploadsConcat([out], Forced(k, p, "receiver backpressure", true), key);
    }
  }

  lemma StepUploads(cfg: Config, s: State, e: Event, key: Key)
    ensures Uploads(Step(cfg, s, e).outs, key) == StepUpload(cfg, s, e, key)
  {
    hide Uploads;
    if !Enabled(cfg, s, e) {
      NoUploads([], key);
    } else if e.RequestChunk? {
      RequestChunkUploads(cfg, s, e, key);
    } else {
      if e.PruneTick? {
        SweepsUploadNothing(s, e.expired, {});
        SweepsUploadNothing(Drop(s, e.expired), e.idle, e.up);
      }
      NoUploads(Step(cfg, s, e).outs, key);
    }
  }

  /** The request chunk a step brings for the action with this requester and action id. */
  ghost function Sent(cfg: Config, s: State, e: Event, p: Pending): seq<Chunk> {
    if e.RequestChunk? && Enabled(cfg, s, e) && Matches(p, e.sender, e.original) then [e.chunk] else []
  }

  /** Everything the requester of action `n` submitted under its own id since the mint. */
  ghost function Requested(cfg: Config, es: seq<Event>, n: nat): seq<Chunk> {
    if es == [] then []
    else
      var before, e := es[..|es| - 1], es[|es| - 1];
      var origin := Origin(cfg, before, n);
      Requested(cfg, before, n)
      + (if origin.Some? then Sent(cfg, Run(cfg, before).state, e, origin.value) else [])
  }

  /** The reverse lookup is certain to find `key` exactly when no other pending entry of the
      requester carries the same action id. */
  lemma LookupDetermined(s: State, key: Key)
    requires key in s.pending
    ensures (forall pick :: PickOk(s, s.pending[key].requester, s.pending[key].original, pick) ==> pick == Some(key))
       <==> (forall k :: k in s.pending && Matches(s.pending[k], s.pending[key].requester, s.pending[key].original) ==> k == key)
  {
    var p := s.pending[key];
    if forall pick :: PickOk(s, p.requester, p.original, pick) ==> pick == Some(key) {
      forall k | k in s.pending && Matches(s.pending[k], p.requester, p.original) ensures k == key {
        assert PickOk(s, p.requester, p.original, Some(k));
      }
    }
  }

  /** No other pending entry carries the requester and action id of this one. */
  ghost predicate AloneAt(s: State, key: Key) {
    key in s.pending ==>
      forall k :: k in s.pending && Matches(s.pending[k], s.pending[key].requester, s.pending[key].original) ==> k == key
  }

  /** One step enqueues what the requester submitted in it, or nothing when the action ends. */
  lemma StepForwards(cfg: Config, s: State, e: Event, key: Key)
    requires AloneAt(s, key) && key in s.pending
    ensures var up, sub := StepUpload(cfg, s, e, key), Sent(cfg, s, e, s.pending[key]);
            up == sub || (up == [] && key !in Step(cfg, s, e).state.pending)
  {
    LookupDetermined(s, key);
  }

  /** A step does not put a second entry under the requester and action id of action `n`: not when
      `n` is minted, and not while it is pending. */
  ghost predicate FreshFor(cfg: Config, s: State, e: Event, n: nat) {
    Mints(cfg, s, e) || e.MuxRequest? ==>
      && (KernelId(n) in s.pending ==> !Matches(s.pending[KernelId(n)], e.sender, e.original))
      && (e.Request? && n == s.next ==> forall k :: k in s.pending ==> !Matches(s.pending[k], e.sender, e.original))
  }

  /** In the run nothing else is put under the requester and action id of action `n` while it is
      pending. Other plugins, other ids and other times do not matter. */
  ghost predicate NeverReused(cfg: Config, es: seq<Event>, n: nat) {
    es == [] ||
    (NeverReused(cfg, es[..|es| - 1], n) && FreshFor(cfg, Run(cfg, es[..|es| - 1]).state, es[|es| - 1], n))
  }

  ghost predicate AloneThroughout(cfg: Config, es: seq<Event>, n: nat) {
    AloneAt(Run(cfg, es).state, KernelId(n)) && (es == [] || AloneThroughout(cfg, es[..|es| - 1], n))
  }

  lemma StepAlone(cfg: Config, s: State, e: Event, n: nat)
    requires Inv(s) && CleanEvent(e) && AloneAt(s, KernelId(n))
    ensures AloneAt(Step(cfg, s, e).state, KernelId(n)) <==> FreshFor(cfg, s, e, n)
  {
    var key, t := KernelId(n), Step(cfg, s, e).state;
    if Mints(cfg, s, e) {
      MintAlone(cfg, s, e, n);
    } else if e.MuxRequest? {
      MuxAlone(cfg, s, e, n);
    } else {
      NamesStay(cfg, s, e, key);
    }
  }

  lemma MintAlone(cfg: Config, s: State, e: Event, n: nat)
    requires Inv(s) && AloneAt(s, KernelId(n)) && Mints(cfg, s, e)
    ensures AloneAt(Step(cfg, s, e).state, KernelId(n)) <==> FreshFor(cfg, s, e, n)
  {
    var key, minted, t := KernelId(n), KernelId(s.next), Step(cfg, s, e).state;
    assert t.pending == s.pending[minted := Entry(cfg, e)];
    assert minted !in s.pending;
    if key == minted {
      FreshId(s, n);
    }
    hide Mints, Step;
    assert forall k :: k in s.pending ==> k in t.pending && t.pending[k] == s.pending[k];
    assert Matches(t.pending[minted], e.sender, e.original);
  }

  lemma MuxAlone(cfg: Config, s: State, e: Event, n: nat)
    requires CleanEvent(e) && AloneAt(s, KernelId(n)) && e.MuxRequest?
    ensures AloneAt(Step(cfg, s, e).state, KernelId(n)) <==> FreshFor(cfg, s, e, n)
  {
    var key, t := KernelId(n), Step(cfg, s, e).state;
    assert IsKernelId(key) && e.original != key;
    assert t.pending.Keys == s.pending.Keys + {e.original};
    assert Matches(t.pending[e.original], e.sender, e.original);
  }

  /** Other steps put nothing new under any name. */
  lemma NamesStay(cfg: Config, s: State, e: Event, key: Key)
    requires AloneAt(s, key) && !Mints(cfg, s, e) && !e.MuxRequest?
    ensures AloneAt(Step(cfg, s, e).state, key)
  {
    var t := Step(cfg, s, e).state;
    assert forall k :: k in t.pending ==>
      k in s.pending && t.pending[k].requester == s.pending[k].requester && t.pending[k].original == s.pending[k].original;
  }

  /** In every run an action has its requester and action id to itself all the time if and only if
      they are never reused while it is pending. */
  lemma {:induction false} AloneIffNeverReused(cfg: Config, es: seq<Event>, n: nat)
    requires MuxClean(es)
    ensures AloneThroughout(cfg, es, n) <==> NeverReused(cfg, es, n)
  {
    if es != [] {
      hide AloneAt, FreshFor, Step;
      var before, e := es[..|es| - 1], es[|es| - 1];
      AloneIffNeverReused(cfg, before, n);
      RunInv(cfg, before);
      if AloneThroughout(cfg, before, n) {
        StepAlone(cfg, Run(cfg, before).state, e, n);
      }
    }
  }

  ghost predicate UploadsGapless(cfg: Config, es: seq<Event>, n: nat) {
    var up, sub := Uploads(Run(cfg, es).outs, KernelId(n)), Requested(cfg, es, n);
    up <= sub && (KernelId(n) in Run(cfg, es).state.pending ==> up == sub)
  }

  /** When its requester does not reuse the action id while the action is pending, the request
      chunks enqueued for the provider of a kernel-routed action have no gap either, whatever the
      other plugins do. */
  lemma {:induction false} NoGapsToProvider(cfg: Config, es: seq<Event>, n: nat)
    requires MuxClean(es) && NeverReused(cfg, es, n)
    ensures UploadsGapless(cfg, es, n)
  {
    hide Run, UploadsGapless, IsKernelId, AloneAt, FreshFor;
    if es == [] {
      NothingUploaded(cfg, n);
    } else {
      var before, e := es[..|es| - 1], es[|es| - 1];
      NoGapsToProvider(cfg, before, n);
      AloneIffNeverReused(cfg, before, n);
      UploadsGaplessStep(cfg, before, e, n);
      assert es == before + [e];
    }
  }

  lemma NothingUploaded(cfg: Config, n: nat)
    ensures UploadsGapless(cfg, [], n)
  {
  }

  lemma RequestedStep(cfg: Config, before: seq<Event>, e: Event, n: nat)
    ensures var origin := Origin(cfg, before, n);
            Requested(cfg, before + [e], n) == Requested(cfg, before, n)
              + (if origin.Some? then Sent(cfg, Run(cfg, before).state, e, origin.value) else [])
  {
    assert (before + [e])[..|before + [e]| - 1] == before;
  }

  lemma UploadsGaplessStep(cfg: Config, before: seq<Event>, e: Event, n: nat)
    requires MuxClean(before) && CleanEvent(e) && UploadsGapless(cfg, before, n)
    requires AloneAt(Run(cfg, before).state, KernelId(n))
    ensures UploadsGapless(cfg, before + [e], n)
  {
    hide Run, Step, Uploads, Requested, Sent, StepUpload, Inv;
    var key, s := KernelId(n), Run(cfg, before).state;
    UploadsStep(cfg, before, e, n);
    RequestedStep(cfg, before, e, n);
    RunStep(cfg, before, e);
    if key in s.pending {
      PendingHasOrigin(cfg, before, n);
      StepForwards(cfg, s, e, key);
      SentByName(cfg, s, e, Origin(cfg, before, n).value, s.pending[key]);
    } else {
      NotForwarded(cfg, s, e, key);
      if key in Run(cfg, before + [e]).state.pending {
        MintedNow(cfg, before, e, n);
        NothingRequestedBeforeMint(cfg, before, n);
      }
    }
  }

  lemma SentByName(cfg: Config, s: State, e: Event, p: Pending, q: Pending)
    requires SameAction(p, q)
    ensures Sent(cfg, s, e, p) == Sent(cfg, s, e, q)
  {
  }

  lemma NotForwarded(cfg: Config, s: State, e: Event, key: Key)
    requires key !in s.pending
    ensures StepUpload(cfg, s, e, key) == []
  {
  }

  lemma UploadsStep(cfg: Config, before: seq<Event>, e: Event, n: nat)
    ensures Uploads(Run(cfg, before + [e]).outs, KernelId(n))
         == Uploads(Run(cfg, before).outs, KernelId(n)) + StepUpload(cfg, Run(cfg, before).state, e, KernelId(n))
  {
    hide Run, Step, Uploads, StepUpload;
    var s := Run(cfg, before).state;
    RunStep(cfg, before, e);
    UploadsConcat(Run(cfg, before).outs, Step(cfg, s, e).outs, KernelId(n));
    StepUploads(cfg, s, e, KernelId(n));
  }

  lemma {:induction false} NothingRequestedBeforeMint(cfg: Config, es: seq<Event>, n: nat)
    requires Origin(cfg, es, n).None? && MuxClean(es)
    ensures Requested(cfg, es, n) == []
  {
    if es != [] {
      var before, e := es[..|es| - 1], es[|es| - 1];
      if n < Run(cfg, before).state.next {
        ConversationFollowsAutomaton(cfg, before, n);
      } else {
        NothingBeforeMint(cfg, before, n);
      }
      NothingRequestedBeforeMint(cfg, before, n);
    }
  }

  /** In every run a chunk of the requester is certain to be forwarded for its action, provider and
      channel permitting, if and only if no other pending entry carries the same name. */
  lemma UploadCertainIff(cfg: Config, es: seq<Event>, n: nat)
    requires KernelId(n) in Run(cfg, es).state.pending
    ensures var s, key := Run(cfg, es).state, KernelId(n);
            var p := s.pending[key];
            (forall pick, chunk, now :: PickOk(s, p.requester, p.original, pick) ==>
              Uploads(Run(cfg, es + [RequestChunk(p.requester, p.original, chunk, pick, true, true, now)]).outs, key)
              == Uploads(Run(cfg, es).outs, key) + [chunk])
            <==> AloneAt(s, key)
  {
    hide Run, Uploads;
    var s, key := Run(cfg, es).state, KernelId(n);
    var p := s.pending[key];
    LookupDetermined(s, key);
    forall pick, chunk, now | PickOk(s, p.requester, p.original, pick)
      ensures Uploads(Run(cfg, es + [RequestChunk(p.requester, p.original, chunk, pick, true, true, now)]).outs, key)
           == Uploads(Run(cfg, es).outs, key) + (if pick == Some(key) then [chunk] else [])
    {
      UploadsStep(cfg, es, RequestChunk(p.requester, p.original, chunk, pick, true, true, now), n);
    }
    if !AloneAt(s, key) {
      var k :| k in s.pending && Matches(s.pending[k], p.requester, p.original) && k != key;
      assert PickOk(s, p.requester, p.original, Some(k));
      var c, now := Chunk(0, []), 0;
      assert Uploads(Run(cfg, es + [RequestChunk(p.requester, p.original, c, Some(k), true, true, now)]).outs, key)
          == Uploads(Run(cfg, es).outs, key) + [];
    }
  }

  // ---------------------------------------------------------------------------
  // Runs in which nobody reuses anything
  // ---------------------------------------------------------------------------

  /** A new entry does not reuse the action id of one its requester still has in flight. */
  ghost predicate FreshName(cfg: Config, s: State, e: Event) {
    Mints(cfg, s, e) || e.MuxRequest? ==>
      forall k :: k in s.pending ==> !Matches(s.pending[k], e.sender, e.original)
  }

  ghost predicate NoReuse(cfg: Config, es: seq<Event>) {
    forall i :: 0 <= i < |es| ==> FreshName(cfg, Run(cfg, es[..i]).state, es[i])
  }

  /** A requester's action id names at most one pending entry. */
  ghost predicate NamesUnique(s: State) {
    forall k, k' | k in s.pending && k' in s.pending ::
      Matches(s.pending[k], s.pending[k'].requester, s.pending[k'].original) ==> k == k'
  }

  lemma StepNamesUnique(cfg: Config, s: State, e: Event)
    requires NamesUnique(s) && FreshName(cfg, s, e)
    ensures NamesUnique(Step(cfg, s, e).state)
  {
  }

  lemma NoReusePrefix(cfg: Config, es: seq<Event>)
    requires NoReuse(cfg, es) && es != []
    ensures NoReuse(cfg, es[..|es| - 1])
  {
    hide FreshName, Run;
    var before := es[..|es| - 1];
    forall i | 0 <= i < |before| ensures FreshName(cfg, Run(cfg, before[..i]).state, before[i]) {
      assert before[..i] == es[..i];
    }
  }

  lemma {:induction false} RunNamesUnique(cfg: Config, es: seq<Event>)
    requires NoReuse(cfg, es)
    ensures NamesUnique(Run(cfg, es).state)
  {
    if es != [] {
      var before := es[..|es| - 1];
      NoReusePrefix(cfg, es);
      RunNamesUnique(cfg, before);
      StepNamesUnique(cfg, Run(cfg, before).state, es[|es| - 1]);
    }
  }

  lemma {:induction false} NoReuseSuffices(cfg: Config, es: seq<Event>, n: nat)
    requires MuxClean(es) && NoReuse(cfg, es)
    ensures NeverReused(cfg, es, n)
  {
    if es != [] {
      NoReusePrefix(cfg, es);
      NoReuseSuffices(cfg, es[..|es| - 1], n);
      hide Run;
      var s, e := Run(cfg, es[..|es| - 1]).state, es[|es| - 1];
      assert FreshName(cfg, s, e);
    }
  }
}
