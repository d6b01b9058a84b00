/** The error budget told from the messages alone: how many errors of a connection reached a handler
    since it last did well or was forgotten, and which messages get through because of that. */
module BudgetReference {
  import opened ErrorBudget

  // ---------------------------------------------------------------------------
  // Reference
  // ---------------------------------------------------------------------------

  function Conns(msgs: seq<Arrival>): set<Conn> {
    set a | a in msgs :: a.conn
  }

  /** A message gets through when it is exempt or its connection has errors left. */
  predicate Passes(before: seq<Arrival>, a: Arrival, lim: Limits)
    decreases |before|, 2
  {
    a.exempt || Errors(before, a.conn, lim) < lim.maxErrors
  }

  /** The connections with errors against them. */
  function Erring(msgs: seq<Arrival>, lim: Limits): set<Conn>
    decreases |msgs|, 2
  {
    set c | c in Conns(msgs) && Errors(msgs, c, lim) > 0
  }

  /** An error came in when as many connections as are tracked had errors against them, and the
      last error of this one was five minutes ago. */
  predicate Forgotten(before: seq<Arrival>, a: Arrival, conn: Conn, lim: Limits)
    decreases |before|, 3
  {
    Passes(before, a, lim) && a.errs && |Erring(before, lim)| >= lim.maxTracked && LastError(before, conn, lim) + 300 <= a.now
  }

  /** Errors of the connection that reached a handler since its last message that did well, or since
      it was forgotten. */
  function Errors(msgs: seq<Arrival>, conn: Conn, lim: Limits): nat
    decreases |msgs|, 1
  {
    if msgs == [] then 0
    else
      var before, a := msgs[..|msgs| - 1], msgs[|msgs| - 1];
      if a.conn == conn && Passes(before, a, lim) && !a.errs then 0
      else
        (if Forgotten(before, a, conn, lim) then 0 else Errors(before, conn, lim))
        + (if a.conn == conn && Passes(before, a, lim) then 1 else 0)
  }

  /** When an error of the connection last reached a handler. */
  function LastError(msgs: seq<Arrival>, conn: Conn, lim: Limits): nat
    decreases |msgs|, 1
  {
    if msgs == [] then 0
    else
      var before, a := msgs[..|msgs| - 1], msgs[|msgs| - 1];
      if a.conn == conn && Passes(before, a, lim) && a.errs then a.now else LastError(before, conn, lim)
  }

  /** Those of the errors whose message was not exempt. */
  function PlainErrors(msgs: seq<Arrival>, conn: Conn, lim: Limits): nat {
    if msgs == [] then 0
    else
      var before, a := msgs[..|msgs| - 1], msgs[|msgs| - 1];
      if a.conn == conn && Passes(before, a, lim) && !a.errs then 0
      else
        (if Forgotten(before, a, conn, lim) then 0 else PlainErrors(before, conn, lim))
        + (if a.conn == conn && Passes(before, a, lim) && !a.exempt then 1 else 0)
  }

  /** The messages that get through, in order. */
  function Through(msgs: seq<Arrival>, lim: Limits): seq<Arrival> {
    if msgs == [] then []
    else
      var before, a := msgs[..|msgs| - 1], msgs[|msgs| - 1];
      Through(before, lim) + if Passes(before, a, lim) then [a] else []
  }

  // ---------------------------------------------------------------------------
  // The table is the reference
  // ---------------------------------------------------------------------------

  ghost predicate Agrees(m: Tallies, msgs: seq<Arrival>, lim: Limits) {
    && (forall c :: c in m <==> Errors(msgs, c, lim) > 0)
    && (forall c :: c in m ==> m[c] == Tally(Errors(msgs, c, lim), LastError(msgs, c, lim)))
  }

  lemma {:induction false} OnlySendersErr(msgs: seq<Arrival>, conn: Conn, lim: Limits)
    requires Errors(msgs, conn, lim) > 0
    ensures conn in Conns(msgs)
  {
    var before, a := msgs[..|msgs| - 1], msgs[|msgs| - 1];
    assert msgs == before + [a];
    if a.conn != conn {
      OnlySendersErr(before, conn, lim);
      assert Conns(before) <= Conns(msgs);
    } else {
      assert a in msgs;
    }
  }

  lemma AgreesSize(m: Tallies, msgs: seq<Arrival>, lim: Limits)
    requires Agrees(m, msgs, lim)
    ensures m.Keys == Erring(msgs, lim) && |m| == |Erring(msgs, lim)|
  {
    forall c | c in m ensures c in Erring(msgs, lim) {
      OnlySendersErr(msgs, c, lim);
    }
    assert m.Keys == Erring(msgs, lim);
  }

  lemma ThrottledIff(m: Tallies, before: seq<Arrival>, a: Arrival, lim: Limits)
    requires Agrees(m, before, lim)
    ensures Throttled(m, a, lim) <==> !Passes(before, a, lim)
  {
  }

  lemma AgreesStep(m: Tallies, before: seq<Arrival>, a: Arrival, lim: Limits)
    requires Agrees(m, before, lim)
    ensures Agrees(Step(m, a, lim), before + [a], lim)
  {
    var msgs := before + [a];
    assert msgs[..|msgs| - 1] == before;
    ThrottledIff(m, before, a, lim);
    AgreesSize(m, before, lim);
    hide Throttled, Passes, Erring;
    forall c
      ensures c in Step(m, a, lim) <==> Errors(msgs, c, lim) > 0
      ensures c in Step(m, a, lim) ==> Step(m, a, lim)[c] == Tally(Errors(msgs, c, lim), LastError(msgs, c, lim))
    {
    }
  }

  lemma {:induction false} RunAgrees(msgs: seq<Arrival>, lim: Limits)
    ensures Agrees(Run(msgs, lim), msgs, lim)
  {
    if msgs != [] {
      hide Agrees, Step;
      var before, a := msgs[..|msgs| - 1], msgs[|msgs| - 1];
      RunAgrees(before, lim);
      AgreesStep(Run(before, lim), before, a, lim);
      assert msgs == before + [a];
    }
  }

  /** In every run the table holds exactly the connections with errors against them, each with its
      number and the time of the last one, and of these errors at most `maxErrors` are of messages
      that were not exempt, whatever the others do. */
  lemma BudgetIsExact(msgs: seq<Arrival>, conn: Conn, lim: Limits)
    ensures conn in Run(msgs, lim) <==> Errors(msgs, conn, lim) > 0
    ensures conn in Run(msgs, lim) ==> Run(msgs, lim)[conn] == Tally(Errors(msgs, conn, lim), LastError(msgs, conn, lim))
    ensures PlainErrors(msgs, conn, lim) <= Errors(msgs, conn, lim)
    ensures PlainErrors(msgs, conn, lim) <= lim.maxErrors
  {
    RunAgrees(msgs, lim);
    PlainBound(msgs, conn, lim);
  }

  lemma {:induction false} PlainBound(msgs: seq<Arrival>, conn: Conn, lim: Limits)
    ensures PlainErrors(msgs, conn, lim) <= Errors(msgs, conn, lim)
    ensures PlainErrors(msgs, conn, lim) <= lim.maxErrors
  {
    if msgs != [] {
      hide Forgotten;
      PlainBound(msgs[..|msgs| - 1], conn, lim);
    }
  }

  /** In every run a message reaches its handler if and only if it is exempt or fewer than `maxErrors`
      errors of its connection stand against it. */
  lemma {:induction false} HandledAreThrough(msgs: seq<Arrival>, lim: Limits)
    ensures Handled(msgs, lim) == Through(msgs, lim)
  {
    if msgs != [] {
      hide Throttled, Passes;
      var before, a := msgs[..|msgs| - 1], msgs[|msgs| - 1];
      HandledAreThrough(before, lim);
      RunAgrees(before, lim);
      ThrottledIff(Run(before, lim), before, a, lim);
    }
  }

  // ---------------------------------------------------------------------------
  // What that means for senders
  // ---------------------------------------------------------------------------

  function Exempt(msgs: seq<Arrival>): seq<Arrival> {
    if msgs == [] then []
    else Exempt(msgs[..|msgs| - 1]) + if msgs[|msgs| - 1].exempt then [msgs[|msgs| - 1]] else []
  }

  lemma FilterSnoc(msgs: seq<Arrival>, a: Arrival, conn: Conn)
    ensures Only(msgs + [a], conn) == Only(msgs, conn) + if a.conn == conn then [a] else []
    ensures Exempt(msgs + [a]) == Exempt(msgs) + if a.exempt then [a] else []
  {
    assert (msgs + [a])[..|msgs + [a]| - 1] == msgs;
  }

  /** What one more message adds to what its connection got through. */
  lemma ThroughSnoc(msgs: seq<Arrival>, conn: Conn, lim: Limits)
    requires msgs != []
    ensures var before, a := msgs[..|msgs| - 1], msgs[|msgs| - 1];
            && Only(msgs, conn) == Only(before, conn) + (if a.conn == conn then [a] else [])
            && Exempt(msgs) == Exempt(before) + (if a.exempt then [a] else [])
            && Only(Through(msgs, lim), conn)
               == Only(Through(before, lim), conn) + (if a.conn == conn && Passes(before, a, lim) then [a] else [])
            && Exempt(Through(msgs, lim)) == Exempt(Through(before, lim)) + (if a.exempt then [a] else [])
  {
    hide Errors;
    var before, a := msgs[..|msgs| - 1], msgs[|msgs| - 1];
    FilterSnoc(Through(before, lim), a, conn);
    if !Passes(before, a, lim) {
      assert Through(msgs, lim) == Through(before, lim);
    }
  }

  /** Every exempt message is handled. */
  lemma {:induction false} ExemptAreHandled(msgs: seq<Arrival>, lim: Limits)
    ensures Exempt(Handled(msgs, lim)) == Exempt(msgs)
  {
    HandledAreThrough(msgs, lim);
    hide Handled, Through, Exempt;
    if msgs == [] {
      NoneThrough(lim);
    } else {
      ExemptAreHandled(msgs[..|msgs| - 1], lim);
      HandledAreThrough(msgs[..|msgs| - 1], lim);
      ThroughSnoc(msgs, 0, lim);
    }
  }

  lemma NoneThrough(lim: Limits)
    ensures Through([], lim) == [] && Exempt([]) == [] && forall conn :: Only([], conn) == []
  {
  }

  lemma {:induction false} NoErrors(msgs: seq<Arrival>, conn: Conn, lim: Limits)
    requires forall i :: 0 <= i < |msgs| && msgs[i].conn == conn ==> !msgs[i].errs
    requires lim.maxErrors > 0
    ensures Errors(msgs, conn, lim) == 0
  {
    if msgs != [] {
      hide Forgotten;
      NoErrors(msgs[..|msgs| - 1], conn, lim);
    }
  }

  /** A connection that does nothing wrong has every message handled, whatever the others do. */
  lemma {:induction false} WellBehavedAreHandled(msgs: seq<Arrival>, conn: Conn, lim: Limits)
    requires lim.maxErrors > 0
    requires forall i :: 0 <= i < |msgs| && msgs[i].conn == conn ==> !msgs[i].errs
    ensures Only(Handled(msgs, lim), conn) == Only(msgs, conn)
  {
    HandledAreThrough(msgs, lim);
    hide Handled, Through, Only, Errors;
    if msgs == [] {
      NoneThrough(lim);
    } else {
      var before := msgs[..|msgs| - 1];
      WellBehavedAreHandled(before, conn, lim);
      HandledAreThrough(before, lim);
      ThroughSnoc(msgs, conn, lim);
      NoErrors(before, conn, lim);
    }
  }

  function Min(a: nat, b: nat): nat {
    if a < b then a else b
  }

  predicate WithinFiveMinutes(msgs: seq<Arrival>) {
    forall i, j :: 0 <= i < |msgs| && 0 <= j < |msgs| ==> msgs[j].now < msgs[i].now + 300
  }

  lemma {:induction false} LastErrorIsRead(msgs: seq<Arrival>, conn: Conn, lim: Limits)
    requires Errors(msgs, conn, lim) > 0
    ensures exists i :: 0 <= i < |msgs| && msgs[i].now == LastError(msgs, conn, lim)
  {
    var before, a := msgs[..|msgs| - 1], msgs[|msgs| - 1];
    if !(a.conn == conn && Passes(before, a, lim)) {
      LastErrorIsRead(before, conn, lim);
      var i :| 0 <= i < |before| && before[i].now == LastError(before, conn, lim);
      assert msgs[i].now == LastError(msgs, conn, lim);
    } else {
      assert msgs[|msgs| - 1].now == LastError(msgs, conn, lim);
    }
  }

  predicate Burst(msgs: seq<Arrival>, conn: Conn) {
    WithinFiveMinutes(msgs) && forall i :: 0 <= i < |msgs| && msgs[i].conn == conn ==> msgs[i].errs && !msgs[i].exempt
  }

  lemma BurstBefore(msgs: seq<Arrival>, conn: Conn, lim: Limits)
    requires Burst(msgs, conn) && msgs != []
    ensures Burst(msgs[..|msgs| - 1], conn)
    ensures var before, a := msgs[..|msgs| - 1], msgs[|msgs| - 1];
            && (Errors(before, conn, lim) > 0 ==> !Forgotten(before, a, conn, lim))
            && (a.conn == conn ==> a.errs && !a.exempt)
  {
    hide Passes, Erring;
    var before, a := msgs[..|msgs| - 1], msgs[|msgs| - 1];
    if Errors(before, conn, lim) > 0 {
      LastErrorIsRead(before, conn, lim);
      var i :| 0 <= i < |before| && before[i].now == LastError(before, conn, lim);
      assert msgs[i].now == LastError(before, conn, lim) && msgs[|before|] == a;
    }
  }

  lemma {:induction false} BurstErrors(msgs: seq<Arrival>, conn: Conn, lim: Limits)
    requires Burst(msgs, conn)
    ensures Errors(msgs, conn, lim) == Min(|Only(msgs, conn)|, lim.maxErrors)
  {
    if msgs != [] {
      hide Burst, Forgotten;
      BurstBefore(msgs, conn, lim);
      BurstErrors(msgs[..|msgs| - 1], conn, lim);
    }
  }

  /** Of a burst of errors within five minutes exactly the first `maxErrors` of a connection are
      handled, whatever the others do. */
  lemma {:induction false} BurstIsCut(msgs: seq<Arrival>, conn: Conn, lim: Limits)
    requires Burst(msgs, conn)
    ensures Only(Handled(msgs, lim), conn) == Only(msgs, conn)[..Min(|Only(msgs, conn)|, lim.maxErrors)]
  {
    HandledAreThrough(msgs, lim);
    hide Handled, Through, Only, Errors, Burst, Forgotten;
    if msgs == [] {
      NoneThrough(lim);
    } else {
      var before := msgs[..|msgs| - 1];
      BurstBefore(msgs, conn, lim);
      BurstIsCut(before, conn, lim);
      HandledAreThrough(before, lim);
      ThroughSnoc(msgs, conn, lim);
      BurstErrors(before, conn, lim);
    }
  }
}
