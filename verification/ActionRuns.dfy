/** What every run of the action protocol guarantees to the two ends of an action. */
module ActionRuns {
  import opened Collections
  import opened ActionIds
  import opened ActionProtocol
  import opened ActionSteps

  // ---------------------------------------------------------------------------
  // The requester's view: a fixed automaton
  // ---------------------------------------------------------------------------

  /** Where the conversation about one action stands, from its messages alone. */
  datatype Phase =
    | Open(streaming: bool, accepted: bool)
    | Failing(accepted: bool)   // a chunk could not be enqueued, the abort must follow
    | Owing                     // aborted before acceptance, the terminal response must follow
    | Done
    | Wrong

  function Advance(q: Phase, b: Body): Phase {
    match q
    case Open(streaming, accepted) => (
      match b
      case Piece(_, enqueued) => if enqueued then q else Failing(accepted)
      case Reply(ok, _, _) => if ok && streaming then Open(streaming, true) else Done
      case TimedOut => if accepted then Wrong else Done
      case Aborted(_) => if accepted then Done else Owing
      case Backpressure(_) => Wrong
      case Closed(_) => if accepted then Done else Wrong
    )
    case Failing(accepted) => if b.Aborted? then (if accepted then Done else Owing) else Wrong
    case Owing => if b.Backpressure? then Done else Wrong
    case Done => Wrong
    case Wrong => Wrong
  }

  function After(q: Phase, t: seq<Body>): Phase {
    if t == [] then q else Advance(After(q, t[..|t| - 1]), t[|t| - 1])
  }

  lemma {:induction false} AfterConcat(q: Phase, t: seq<Body>, u: seq<Body>)
    ensures After(q, t + u) == After(After(q, t), u)
  {
    if u == [] {
      assert t + u == t;
    } else {
      assert (t + u)[..|t + u| - 1] == t + u[..|u| - 1];
      AfterConcat(q, t, u[..|u| - 1]);
    }
  }

  /** The phase a pending entry stands for. */
  function PhaseOf(p: Pending): Phase {
    Open(p.streaming, p.accepted)
  }

  lemma SinglePhase(q: Phase, b: Body)
    ensures After(q, [b]) == Advance(q, b)
  {
    assert [b][..0] == [];
  }

  lemma ForcedPhase(p: Pending, reason: string)
    ensures After(PhaseOf(p), ForcedSaid(p, reason)) == Done
    ensures After(Failing(p.accepted), ForcedSaid(p, reason)) == Done
  {
    var t := ForcedSaid(p, reason);
    if !p.accepted {
      assert t[..1] == [Aborted(reason)];
    }
    SinglePhase(PhaseOf(p), Aborted(reason));
    SinglePhase(Failing(p.accepted), Aborted(reason));
  }

  lemma FailedPiecePhase(p: Pending, chunk: Chunk)
    ensures After(PhaseOf(p), [Piece(chunk, false)] + ForcedSaid(p, "receiver backpressure")) == Done
  {
    AfterConcat(PhaseOf(p), [Piece(chunk, false)], ForcedSaid(p, "receiver backpressure"));
    SinglePhase(PhaseOf(p), Piece(chunk, false));
    ForcedPhase(p, "receiver backpressure");
  }

  /** The messages of one step move the automaton as the entry moves: an entry that stays is
      open, one that goes is done, except for an accepted session closed by its requester, which
      hears nothing of it. */
  lemma StepPhase(cfg: Config, s: State, e: Event, key: Key)
    requires Inv(s) && CleanEvent(e) && key in s.pending && IsKernelId(key)
    ensures var t := Step(cfg, s, e).state;
            var q := After(PhaseOf(s.pending[key]), Said(cfg, s, e, key));
            if key in t.pending then
              && SameAction(s.pending[key], t.pending[key]) && q == PhaseOf(t.pending[key])
              && !ClosedByRequester(cfg, s, e, key)
            else if ClosedByRequester(cfg, s, e, key) then s.pending[key].accepted && q == PhaseOf(s.pending[key])
            else q.Done?
  {
    var p, said := s.pending[key], Said(cfg, s, e, key);
    StepKeeps(cfg, s, e, key);
    StepStays(cfg, s, e, key);
    hide Step, After, Inv, ForcedSaid;
    Unmoved(PhaseOf(p));
    match e
    case Response(_, _, ok, data, sent, _) => SinglePhase(PhaseOf(p), Reply(ok, data, sent));
    case RequestChunk(_, _, _, _, providerUp, _, _) =>
      ForcedPhase(p, if providerUp then "receiver backpressure" else "provider disconnected");
    case ResponseChunk(_, _, chunk, _, _, _) =>
      SinglePhase(PhaseOf(p), Piece(chunk, true));
      FailedPiecePhase(p, chunk);
      assert [Piece(chunk, true)] + [] == [Piece(chunk, true)];
    case SessionClose(_, _, _, reason, _, _) => SinglePhase(PhaseOf(p), Closed(reason));
    case PruneTick(_, _, _, _, _) =>
      SinglePhase(PhaseOf(p), TimedOut);
      ForcedPhase(p, "idle timeout");
    case _ =>
  }

  lemma Unmoved(q: Phase)
    ensures After(q, []) == q
  {
  }

  // ---------------------------------------------------------------------------
  // Whole runs
  // ---------------------------------------------------------------------------

  /** The entry with which action `n` was minted in the run. */
  ghost function Origin(cfg: Config, es: seq<Event>, n: nat): Option<Pending> {
    if es == [] then None
    else
      var before, e := es[..|es| - 1], es[|es| - 1];
      if n < Run(cfg, before).state.next then Origin(cfg, before, n)
      else if n == Run(cfg, before).state.next && Mints(cfg, Run(cfg, before).state, e) then Some(Entry(cfg, e))
      else None
  }

  /** The messages the run tried to send the requester of action `n`. */
  ghost function Heard(cfg: Config, es: seq<Event>, n: nat): seq<Body> {
    Trace(Run(cfg, es).outs, KernelId(n))
  }

  /** Some step of the run was the requester's own close of action `n`. */
  ghost predicate RequesterClosed(cfg: Config, es: seq<Event>, n: nat) {
    es != [] &&
    (RequesterClosed(cfg, es[..|es| - 1], n)
     || ClosedByRequester(cfg, Run(cfg, es[..|es| - 1]).state, es[|es| - 1], KernelId(n)))
  }

  /** The state of the conversation about action `n` after a run: an action that is gone has ended,
      or it was an accepted session and its requester closed it. */
  ghost predicate Follows(cfg: Config, es: seq<Event>, n: nat) {
    var s := Run(cfg, es).state;
    var origin := Origin(cfg, es, n);
    if n >= s.next then
      origin.None? && Heard(cfg, es, n) == [] && KernelId(n) !in s.pending && !RequesterClosed(cfg, es, n)
    else
      && origin.Some?
      && (var q := After(Open(origin.value.streaming, false), Heard(cfg, es, n));
          if KernelId(n) in s.pending then
            && SameAction(origin.value, s.pending[KernelId(n)]) && q == PhaseOf(s.pending[KernelId(n)])
            && !RequesterClosed(cfg, es, n)
          else if RequesterClosed(cfg, es, n) then q == Open(origin.value.streaming, true)
          else q.Done?)
  }

  lemma {:induction false} RunInv(cfg: Config, es: seq<Event>)
    requires MuxClean(es)
    ensures Inv(Run(cfg, es).state)
  {
    if es != [] {
      RunInv(cfg, es[..|es| - 1]);
      StepInv(cfg, Run(cfg, es[..|es| - 1]).state, es[|es| - 1]);
    }
  }

  lemma FollowsStep(cfg: Config, before: seq<Event>, e: Event, n: nat)
    requires Inv(Run(cfg, before).state) && CleanEvent(e) && Follows(cfg, before, n)
    ensures Follows(cfg, before + [e], n)
  {
    var es := before + [e];
    assert es[..|es| - 1] == before;
    var key := KernelId(n);
    var s := Run(cfg, before).state;
    var step := Step(cfg, s, e);
    RunStep(cfg, before, e);
    TraceConcat(Run(cfg, before).outs, step.outs, key);
    StepTrace(cfg, s, e, key);
    StepInv(cfg, s, e);
    if key in s.pending {
      var origin := Origin(cfg, before, n).value;
      StepPhase(cfg, s, e, key);
      AfterConcat(Open(origin.streaming, false), Heard(cfg, before, n), Trace(step.outs, key));
    } else {
      StepBringsIn(cfg, s, e, key);
      if key == KernelId(s.next) {
        FreshId(s, n);
      }
      assert Heard(cfg, es, n) == Heard(cfg, before, n);
    }
  }

  /** In every run, what the requester of a kernel-routed action is sent follows the
      automaton: open while the action is pending, and ended once it is gone, unless it was an
      accepted session that its requester closed. It is never wrong, and nothing is sent before the
      action is minted. */
  lemma {:induction false} ConversationFollowsAutomaton(cfg: Config, es: seq<Event>, n: nat)
    requires MuxClean(es)
    ensures Follows(cfg, es, n)
  {
    if es != [] {
      var before, e := es[..|es| - 1], es[|es| - 1];
      ConversationFollowsAutomaton(cfg, before, n);
      RunInv(cfg, before);
      assert es == before + [e];
      FollowsStep(cfg, before, e, n);
    }
  }

  lemma RunStep(cfg: Config, before: seq<Event>, e: Event)
    ensures var r, step := Run(cfg, before), Step(cfg, Run(cfg, before).state, e);
            Run(cfg, before + [e]) == Effect(step.state, r.outs + step.outs)
  {
    var es := before + [e];
    assert es[..|es| - 1] == before;
  }

  lemma EndedStep(cfg: Config, before: seq<Event>, e: Event, n: nat)
    requires Inv(Run(cfg, before).state) && CleanEvent(e)
    requires n < Run(cfg, before).state.next && KernelId(n) !in Run(cfg, before).state.pending
    ensures KernelId(n) !in Run(cfg, before + [e]).state.pending
    ensures n < Run(cfg, before + [e]).state.next
    ensures Heard(cfg, before + [e], n) == Heard(cfg, before, n)
  {
    hide Step, Run, Trace, Inv;
    var s := Run(cfg, before).state;
    RunStep(cfg, before, e);
    StepInv(cfg, s, e);
    assert IsKernelId(KernelId(n));
    StepBringsIn(cfg, s, e, KernelId(n));
    StepTrace(cfg, s, e, KernelId(n));
    TraceConcat(Run(cfg, before).outs, Step(cfg, s, e).outs, KernelId(n));
    if KernelId(n) == KernelId(s.next) {
      FreshId(s, n);
    }
  }

  /** Once a minted action is no longer pending, no later step brings it back or says
      anything more about it. */
  lemma {:induction false} EndedForGood(cfg: Config, es: seq<Event>, more: seq<Event>, n: nat)
    requires MuxClean(es) && MuxClean(more)
    requires n < Run(cfg, es).state.next && KernelId(n) !in Run(cfg, es).state.pending
    ensures KernelId(n) !in Run(cfg, es + more).state.pending
    ensures n < Run(cfg, es + more).state.next
    ensures Heard(cfg, es + more, n) == Heard(cfg, es, n)
  {
    if more == [] {
      assert es + more == es;
    } else {
      var prefix, e := more[..|more| - 1], more[|more| - 1];
      EndedForGood(cfg, es, prefix, n);
      RunInv(cfg, es + prefix);
      hide Inv, Run;
      EndedStep(cfg, es + prefix, e, n);
      assert es + more == es + prefix + [e];
    }
  }

  // ---------------------------------------------------------------------------
  // What the automaton means for a requester
  // ---------------------------------------------------------------------------

  /** An `ActionResponse` on the wire, real or synthesised by the kernel. */
  predicate IsResponse(b: Body) {
    b.Reply? || b.TimedOut? || b.Backpressure?
  }

  function Responses(t: seq<Body>): nat {
    if t == [] then 0 else Responses(t[..|t| - 1]) + (if IsResponse(t[|t| - 1]) then 1 else 0)
  }

  lemma {:induction false} RightPrefix(q: Phase, t: seq<Body>, u: seq<Body>)
    requires !After(q, t + u).Wrong?
    ensures !After(q, t).Wrong?
  {
    AfterConcat(q, t, u);
    WrongStays(u);
  }

  lemma {:induction false} WrongStays(u: seq<Body>)
    ensures After(Wrong, u) == Wrong
  {
    if u != [] { WrongStays(u[..|u| - 1]); }
  }

  lemma {:induction false} DoneIsLast(u: seq<Body>)
    ensures After(Done, u) == if u == [] then Done else Wrong
  {
    if u != [] { DoneIsLast(u[..|u| - 1]); }
  }

  /** Without streaming, a conversation that is not wrong has one response once it is over
      and none while it is open or owes one. */
  lemma {:induction false} OneResponse(t: seq<Body>)
    ensures var q := After(Open(false, false), t);
            && (q == Open(false, false) || q == Failing(false) || q == Owing ==> Responses(t) == 0)
            && (q.Done? ==> Responses(t) == 1)
            && (q == Open(false, false) || q == Failing(false) || q == Owing || q.Done? || q.Wrong?)
  {
    if t != [] { OneResponse(t[..|t| - 1]); }
  }

  /** After acceptance no timeout or backpressure response is synthesised. */
  lemma {:induction false} NoSynthesisAfterAcceptance(t: seq<Body>)
    ensures var q := After(Open(true, true), t);
            && (q == Open(true, true) || q == Failing(true) || q.Done? || q.Wrong?)
            && (!q.Wrong? ==> forall i :: 0 <= i < |t| ==> !t[i].TimedOut? && !t[i].Backpressure?)
  {
    if t != [] {
      var front := t[..|t| - 1];
      NoSynthesisAfterAcceptance(front);
      assert forall i :: 0 <= i < |front| ==> front[i] == t[i];
    }
  }

  /** In every run a non-streaming kernel-routed action that is no longer pending was sent exactly
      one response, and none before. */
  lemma NonStreamingAnsweredOnce(cfg: Config, es: seq<Event>, n: nat)
    requires MuxClean(es) && Origin(cfg, es, n).Some? && !Origin(cfg, es, n).value.streaming
    ensures Responses(Heard(cfg, es, n)) == if KernelId(n) in Run(cfg, es).state.pending then 0 else 1
  {
    ConversationFollowsAutomaton(cfg, es, n);
    OneResponse(Heard(cfg, es, n));
  }

  /** Once a streaming session was accepted, its requester never gets a synthesised timeout
      or backpressure response. */
  lemma AcceptedNeverSynthesised(
    cfg: Config, es: seq<Event>, n: nat, before: seq<Body>, data: Bytes, enqueued: bool, rest: seq<Body>)
    requires MuxClean(es) && Origin(cfg, es, n).Some? && Origin(cfg, es, n).value.streaming
    requires Heard(cfg, es, n) == before + [Reply(true, data, enqueued)] + rest
    ensures forall i :: 0 <= i < |rest| ==> !rest[i].TimedOut? && !rest[i].Backpressure?
  {
    ConversationFollowsAutomaton(cfg, es, n);
    var q0 := Open(true, false);
    AfterConcat(q0, before + [Reply(true, data, enqueued)], rest);
    AfterConcat(q0, before, [Reply(true, data, enqueued)]);
    SinglePhase(After(q0, before), Reply(true, data, enqueued));
    RightPrefix(q0, before + [Reply(true, data, enqueued)], rest);
    StaysStreaming(before);
    NoSynthesisAfterAcceptance(rest);
  }

  lemma {:induction false} StaysStreaming(t: seq<Body>)
    ensures var q := After(Open(true, false), t); q.Open? ==> q.streaming
  {
    if t != [] { StaysStreaming(t[..|t| - 1]); }
  }

  /** A response that ends an action, a timeout or a close is the last message about it, and
      an abort is followed by at most the backpressure response. */
  lemma EndingIsLast(cfg: Config, es: seq<Event>, n: nat, before: seq<Body>, b: Body, rest: seq<Body>)
    requires MuxClean(es) && Origin(cfg, es, n).Some?
    requires Heard(cfg, es, n) == before + [b] + rest
    ensures b.Reply? && !(b.ok && Origin(cfg, es, n).value.streaming) ==> rest == []
    ensures b.TimedOut? || b.Closed? || b.Backpressure? ==> rest == []
    ensures b.Aborted? ==> rest == [] || (|rest| == 1 && rest[0].Backpressure?)
  {
    ConversationFollowsAutomaton(cfg, es, n);
    var streaming := Origin(cfg, es, n).value.streaming;
    var q0 := Open(streaming, false);
    AfterConcat(q0, before + [b], rest);
    AfterConcat(q0, before, [b]);
    var q := After(q0, before);
    SinglePhase(q, b);
    RightPrefix(q0, before + [b], rest);
    KeepsStreaming(streaming, before);
    DoneIsLast(rest);
    OwingTail(rest);
  }

  lemma {:induction false} KeepsStreaming(streaming: bool, t: seq<Body>)
    ensures var q := After(Open(streaming, false), t); q.Open? ==> q.streaming == streaming
  {
    if t != [] { KeepsStreaming(streaming, t[..|t| - 1]); }
  }

  lemma {:induction false} OwingTail(u: seq<Body>)
    ensures var q := After(Owing, u);
            && (u == [] ==> q == Owing)
            && (|u| == 1 ==> q == if u[0].Backpressure? then Done else Wrong)
            && (|u| > 1 ==> q == Wrong)
  {
    if u != [] {
      OwingTail(u[..|u| - 1]);
    }
  }
}
