/** Two runs in which something is lost: an accepting reply in a full channel, after which no response
    is made up, and a request chunk of an action whose id its requester reuses. */
module ActionLost {
  import opened Collections
  import opened ActionIds
  import opened ActionProtocol
  import opened ActionRuns
  import opened ActionSteps
  import opened ActionStreams

  const CFG: Config := Config(None, 1000, Some(10))

  const Ask: Event := Request("r", 0, "a", Found("p", false), 0, true, 0)
  const Lost: Event := Response(Some("p"), KernelId(0), true, [], false, 0)
  const Part: Event := ResponseChunk(Some("p"), KernelId(0), Chunk(0, [7]), true, true, 0)
  const Tick: Event := PruneTick(11, 11, [], [KernelId(0)], {})

  function Held(accepted: bool): State {
    State(map[KernelId(0) := Pending(0, "a", "r", "p", 1000, true, accepted, 0)], 1)
  }

  lemma Asked()
    ensures Step(CFG, Init(), Ask).state == Held(false) && Said(CFG, Init(), Ask, KernelId(0)) == []
  {
  }

  lemma Accepted()
    ensures Step(CFG, Held(false), Lost).state == Held(true)
    ensures Said(CFG, Held(false), Lost, KernelId(0)) == [Reply(true, [], false)]
  {
  }

  lemma Streamed()
    ensures Step(CFG, Held(true), Part).state == Held(true)
    ensures Said(CFG, Held(true), Part, KernelId(0)) == [Piece(Chunk(0, [7]), true)]
  {
  }

  lemma Ended()
    ensures Step(CFG, Held(true), Tick).state == State(map[], 1)
    ensures Said(CFG, Held(true), Tick, KernelId(0)) == [Aborted("idle timeout")]
  {
    var s := Held(true);
    assert ExpiredKeys(s, 11) == {};
    assert Drop(s, []) == s;
    assert IdleKeys(s, 11, 10) == {KernelId(0)};
    assert Enabled(CFG, s, Tick);
    assert s.pending - (set k | k in [KernelId(0)]) == map[];
  }

  /** The requester gets a chunk and an abort, and no response at all. */
  lemma AcceptanceLost()
    ensures var es := [Ask, Lost, Part, Tick];
            && Run(CFG, es).state.pending == map[]
            && Heard(CFG, es, 0) == [Reply(true, [], false), Piece(Chunk(0, [7]), true), Aborted("idle timeout")]
  {
    hide Step, Said, Trace;
    Asked();
    Accepted();
    Streamed();
    Ended();
    assert Run(CFG, []).state == Init() && Heard(CFG, [], 0) == [] by {
      NoTrace(KernelId(0));
    }
    Extend([], Ask);
    Extend([Ask], Lost);
    Extend([Ask, Lost], Part);
    Extend([Ask, Lost, Part], Tick);
    assert [] + [Ask] == [Ask] && [Ask] + [Lost] == [Ask, Lost] && [Ask, Lost] + [Part] == [Ask, Lost, Part];
    assert [Ask, Lost, Part] + [Tick] == [Ask, Lost, Part, Tick];
  }

  lemma Extend(before: seq<Event>, e: Event)
    ensures Run(CFG, before + [e]).state == Step(CFG, Run(CFG, before).state, e).state
    ensures Heard(CFG, before + [e], 0) == Heard(CFG, before, 0) + Said(CFG, Run(CFG, before).state, e, KernelId(0))
  {
    hide Step, Said, Trace;
    RunStep(CFG, before, e);
    HeardStep(CFG, before, e, 0);
  }

  // ---------------------------------------------------------------------------
  // A reused action id
  // ---------------------------------------------------------------------------

  const AskAgain: Event := Request("r", 0, "a", Found("q", false), 0, true, 0)

  function Upload(k: Key, byte: int): Event {
    RequestChunk("r", "a", Chunk(0, [byte]), Some(k), true, true, 0)
  }

  function Both(): State {
    State(Held(false).pending[KernelId(1) := Pending(0, "a", "r", "q", 1000, true, false, 0)], 2)
  }

  lemma AskedAgain()
    ensures Step(CFG, Held(false), AskAgain).state == Both() && KernelId(0) != KernelId(1)
  {
    if KernelId(0) == KernelId(1) {
      KernelIdInjective(0, 1);
    }
  }

  lemma Uploaded(k: Key, byte: int)
    requires k in Both().pending
    ensures Step(CFG, Both(), Upload(k, byte)).state == Both()
    ensures forall key :: StepUpload(CFG, Both(), Upload(k, byte), key) == if k == key then [Chunk(0, [byte])] else []
    ensures forall p :: Matches(p, "r", "a") ==> Sent(CFG, Both(), Upload(k, byte), p) == [Chunk(0, [byte])]
  {
    assert Matches(Both().pending[k], "r", "a");
    assert Enabled(CFG, Both(), Upload(k, byte));
    assert Both().pending[k := Both().pending[k].(lastActivity := 0)] == Both().pending;
  }

  lemma Grow(before: seq<Event>, e: Event)
    requires 0 < Run(CFG, before).state.next && Origin(CFG, before, 0).Some?
    ensures Run(CFG, before + [e]).state == Step(CFG, Run(CFG, before).state, e).state
    ensures Uploads(Run(CFG, before + [e]).outs, KernelId(0))
         == Uploads(Run(CFG, before).outs, KernelId(0)) + StepUpload(CFG, Run(CFG, before).state, e, KernelId(0))
    ensures Requested(CFG, before + [e], 0)
         == Requested(CFG, before, 0) + Sent(CFG, Run(CFG, before).state, e, Origin(CFG, before, 0).value)
    ensures Origin(CFG, before + [e], 0) == Origin(CFG, before, 0)
  {
    hide Step, Uploads, StepUpload, Sent, Said, Trace;
    RunStep(CFG, before, e);
    UploadsStep(CFG, before, e, 0);
    RequestedStep(CFG, before, e, 0);
    assert (before + [e])[..|before + [e]| - 1] == before;
  }

  lemma Begun()
    ensures Run(CFG, [Ask]).state == Held(false) && Uploads(Run(CFG, [Ask]).outs, KernelId(0)) == []
    ensures Requested(CFG, [Ask], 0) == [] && Origin(CFG, [Ask], 0) == Some(Held(false).pending[KernelId(0)])
  {
    Asked();
    RunStep(CFG, [], Ask);
    UploadsStep(CFG, [], Ask, 0);
    RequestedStep(CFG, [], Ask, 0);
    assert [] + [Ask] == [Ask] && [Ask][..0] == [];
  }

  lemma Repeated()
    ensures !NeverReused(CFG, [Ask, AskAgain], 0)
    ensures StepUpload(CFG, Held(false), AskAgain, KernelId(0)) == []
    ensures Sent(CFG, Held(false), AskAgain, Held(false).pending[KernelId(0)]) == []
  {
    Begun();
    assert [Ask, AskAgain][..1] == [Ask];
    assert Mints(CFG, Held(false), AskAgain);
    assert !FreshFor(CFG, Held(false), AskAgain, 0);
  }

  /** The requester asks twice under one id and sends two chunks: each of the two providers gets one
      of them, so the first action misses its first chunk. */
  lemma ReusedIdLosesChunk()
    ensures var es := [Ask, AskAgain, Upload(KernelId(1), 1), Upload(KernelId(0), 2)];
            && Uploads(Run(CFG, es).outs, KernelId(0)) == [Chunk(0, [2])]
            && Requested(CFG, es, 0) == [Chunk(0, [1]), Chunk(0, [2])]
            && !UploadsGapless(CFG, es, 0) && !NeverReused(CFG, es, 0)
  {
    hide Step, Uploads, StepUpload, Sent, Requested, Run, Origin, Said, FreshFor, Upload;
    Begun();
    AskedAgain();
    Repeated();
    var u, v := Upload(KernelId(1), 1), Upload(KernelId(0), 2);
    assert [Ask] + [AskAgain] == [Ask, AskAgain] && [Ask, AskAgain] + [u] == [Ask, AskAgain, u];
    assert [Ask, AskAgain, u] + [v] == [Ask, AskAgain, u, v];
    Grow([Ask], AskAgain);
    Uploaded(KernelId(1), 1);
    Uploaded(KernelId(0), 2);
    Grow([Ask, AskAgain], u);
    Grow([Ask, AskAgain, u], v);
    assert [Ask, AskAgain, u, v][..3] == [Ask, AskAgain, u] && [Ask, AskAgain, u][..2] == [Ask, AskAgain];
  }
}
