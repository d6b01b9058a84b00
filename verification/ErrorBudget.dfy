/** The per-connection error budget of the router loop, `run_with_context` of
    `src/ipc/protocol/router.rs`. Whether a message is exempt from throttling and whether its
    handler reports an error are inputs, and so is the clock reading after an error. */
module ErrorBudget {

  type Conn = nat

  datatype Tally = Tally(count: nat, last: nat)

  datatype Arrival = Arrival(conn: Conn, exempt: bool, errs: bool, now: nat)

  datatype Limits = Limits(maxErrors: nat, maxTracked: nat)

  const IDLE_TTL: nat := 300

  type Tallies = map<Conn, Tally>

  function Count(m: Tallies, conn: Conn): nat {
    if conn in m then m[conn].count else 0
  }

  /** The message is dropped without reaching a handler. */
  predicate Throttled(m: Tallies, a: Arrival, lim: Limits) {
    Count(m, a.conn) >= lim.maxErrors && !a.exempt
  }

  function Since(last: nat, now: nat): nat {
    if now < last then 0 else now - last
  }

  predicate Stale(t: Tally, now: nat) {
    Since(t.last, now) >= IDLE_TTL
  }

  function Evict(m: Tallies, now: nat): Tallies {
    map c | c in m && !Stale(m[c], now) :: m[c]
  }

  function Note(m: Tallies, a: Arrival): Tallies {
    m[a.conn := Tally(Count(m, a.conn) + 1, a.now)]
  }

  predicate Overflows(m: Tallies, a: Arrival, lim: Limits) {
    !Throttled(m, a, lim) && a.errs && |m| >= lim.maxTracked
  }

  function Step(m: Tallies, a: Arrival, lim: Limits): Tallies {
    if Throttled(m, a, lim) then m
    else if !a.errs then m - {a.conn}
    else Note(if |m| >= lim.maxTracked then Evict(m, a.now) else m, a)
  }

  function RunFrom(m: Tallies, msgs: seq<Arrival>, lim: Limits): Tallies {
    if msgs == [] then m else Step(RunFrom(m, msgs[..|msgs| - 1], lim), msgs[|msgs| - 1], lim)
  }

  function Run(msgs: seq<Arrival>, lim: Limits): Tallies {
    RunFrom(map[], msgs, lim)
  }

  // ---------------------------------------------------------------------------
  // How long a throttled connection stays throttled
  // ---------------------------------------------------------------------------

  predicate Plain(msgs: seq<Arrival>, conn: Conn) {
    forall i :: 0 <= i < |msgs| && msgs[i].conn == conn ==> !msgs[i].exempt
  }

  predicate ReadBefore(msgs: seq<Arrival>, time: nat) {
    forall i :: 0 <= i < |msgs| ==> msgs[i].now < time
  }

  lemma FreshStays(m: Tallies, a: Arrival, conn: Conn, lim: Limits)
    requires conn in m && m[conn].count >= lim.maxErrors && (a.conn == conn ==> !a.exempt)
    requires a.now < m[conn].last + IDLE_TTL
    ensures conn in Step(m, a, lim) && Step(m, a, lim)[conn] == m[conn]
  {
  }

  lemma FreshStaysRun(m: Tallies, msgs: seq<Arrival>, conn: Conn, lim: Limits)
    requires conn in m && m[conn].count >= lim.maxErrors && Plain(msgs, conn)
    requires ReadBefore(msgs, m[conn].last + IDLE_TTL)
    ensures conn in RunFrom(m, msgs, lim) && RunFrom(m, msgs, lim)[conn] == m[conn]
  {
    if msgs != [] {
      hide Step;
      FreshStaysRun(m, msgs[..|msgs| - 1], conn, lim);
      FreshStays(RunFrom(m, msgs[..|msgs| - 1], lim), msgs[|msgs| - 1], conn, lim);
    }
  }

  lemma AboveAll(conns: set<Conn>) returns (c: Conn)
    ensures forall x :: x in conns ==> x < c
  {
    if conns == {} {
      c := 0;
    } else {
      var x :| x in conns;
      var d := AboveAll(conns - {x});
      c := if d <= x then x + 1 else d;
      forall y | y in conns ensures y < c {
        assert y == x || y in conns - {x};
      }
    }
  }

  /** An error of a newcomer enters the table, or prunes it when it is full. */
  lemma Newcomer(m: Tallies, c: Conn, conn: Conn, now: nat, lim: Limits)
    requires c !in m && conn in m && Stale(m[conn], now)
    ensures var t := Step(m, Arrival(c, true, true, now), lim);
            if |m| >= lim.maxTracked then conn !in t
            else conn in t && t[conn] == m[conn] && |t| == |m| + 1
  {
    var t := Step(m, Arrival(c, true, true, now), lim);
    if |m| < lim.maxTracked {
      assert t.Keys == m.Keys + {c};
    }
  }

  /** Enough newcomers push a stale connection out. */
  lemma {:induction false} Crowd(m: Tallies, conn: Conn, now: nat, n: nat, lim: Limits) returns (msgs: seq<Arrival>)
    requires conn in m && Stale(m[conn], now)
    ensures Plain(msgs, conn) && ReadBefore(msgs, now + 1)
    ensures var t := RunFrom(m, msgs, lim);
            conn !in t || (t[conn] == m[conn] && |t| >= n)
  {
    if n == 0 {
      msgs := [];
    } else {
      hide Step, Stale;
      msgs := Crowd(m, conn, now, n - 1, lim);
      var t := RunFrom(m, msgs, lim);
      if conn in t && |t| < n {
        var c := AboveAll(t.Keys);
        Newcomer(t, c, conn, now, lim);
        var a := Arrival(c, true, true, now);
        assert (msgs + [a])[..|msgs|] == msgs;
        msgs := msgs + [a];
      }
    }
  }

  lemma PushedOut(m: Tallies, conn: Conn, now: nat, lim: Limits) returns (msgs: seq<Arrival>)
    requires conn in m && Stale(m[conn], now)
    ensures Plain(msgs, conn) && ReadBefore(msgs, now + 1) && conn !in RunFrom(m, msgs, lim)
  {
    hide Step, Stale;
    msgs := Crowd(m, conn, now, lim.maxTracked, lim);
    var t := RunFrom(m, msgs, lim);
    if conn in t {
      var c := AboveAll(t.Keys);
      Newcomer(t, c, conn, now, lim);
      var a := Arrival(c, true, true, now);
      assert (msgs + [a])[..|msgs|] == msgs;
      msgs := msgs + [a];
    }
  }

  /** A throttled connection that sends nothing exempt stays throttled through every continuation
      with clock readings below `time`, whatever all connections do, if and only if `time` is at
      most the time limit past its last error. A budget of 0 throttles for good. */
  lemma ThrottledUntilIff(m: Tallies, conn: Conn, time: nat, lim: Limits)
    requires conn in m && m[conn].count >= lim.maxErrors
    ensures (forall msgs :: Plain(msgs, conn) && ReadBefore(msgs, time) ==>
              Count(RunFrom(m, msgs, lim), conn) >= lim.maxErrors)
            <==>
            (lim.maxErrors == 0 || time <= m[conn].last + IDLE_TTL)
  {
    if time <= m[conn].last + IDLE_TTL {
      forall msgs | Plain(msgs, conn) && ReadBefore(msgs, time)
        ensures Count(RunFrom(m, msgs, lim), conn) >= lim.maxErrors
      {
        FreshStaysRun(m, msgs, conn, lim);
      }
    } else if lim.maxErrors > 0 {
      var msgs := PushedOut(m, conn, m[conn].last + IDLE_TTL, lim);
      assert Plain(msgs, conn) && ReadBefore(msgs, time) && Count(RunFrom(m, msgs, lim), conn) == 0;
    }
  }

  // ---------------------------------------------------------------------------
  // When the other connections matter
  // ---------------------------------------------------------------------------

  function Only(msgs: seq<Arrival>, conn: Conn): seq<Arrival> {
    if msgs == [] then []
    else
      Only(msgs[..|msgs| - 1], conn) + if msgs[|msgs| - 1].conn == conn then [msgs[|msgs| - 1]] else []
  }

  predicate SameTally(m: Tallies, n: Tallies, conn: Conn) {
    (conn in m <==> conn in n) && (conn in m ==> m[conn] == n[conn])
  }

  /** At every moment the connection has the tally it would have alone. */
  predicate AsAlone(msgs: seq<Arrival>, conn: Conn, lim: Limits) {
    && SameTally(Run(msgs, lim), Run(Only(msgs, conn), lim), conn)
    && (msgs == [] || AsAlone(msgs[..|msgs| - 1], conn, lim))
  }

  /** The table is pruned while the connection is stale, and not by its own message in a table that
      holds at most one anyway. */
  predicate Disturbs(m: Tallies, a: Arrival, conn: Conn, lim: Limits) {
    conn in m && Overflows(m, a, lim) && Stale(m[conn], a.now) && (a.conn != conn || lim.maxTracked > 1)
  }

  predicate Undisturbed(msgs: seq<Arrival>, conn: Conn, lim: Limits) {
    msgs == [] ||
    (Undisturbed(msgs[..|msgs| - 1], conn, lim)
     && !Disturbs(Run(msgs[..|msgs| - 1], lim), msgs[|msgs| - 1], conn, lim))
  }

  predicate Positive(m: Tallies) {
    forall c :: c in m ==> m[c].count > 0
  }

  lemma RunPositive(msgs: seq<Arrival>, lim: Limits)
    ensures Positive(Run(msgs, lim))
  {
    if msgs != [] {
      RunPositive(msgs[..|msgs| - 1], lim);
    }
  }

  lemma StepKeys(m: Tallies, a: Arrival, lim: Limits)
    ensures Step(m, a, lim).Keys <= m.Keys + {a.conn}
  {
  }

  lemma AloneHoldsOne(msgs: seq<Arrival>, conn: Conn, lim: Limits)
    ensures Run(Only(msgs, conn), lim).Keys <= {conn}
  {
    if msgs != [] {
      hide Step;
      AloneHoldsOne(msgs[..|msgs| - 1], conn, lim);
      var alone, a := Only(msgs[..|msgs| - 1], conn), msgs[|msgs| - 1];
      assert (alone + [a])[..|alone|] == alone;
      assert a.conn != conn ==> Only(msgs, conn) == alone;
      StepKeys(Run(alone, lim), a, lim);
    }
  }

  /** A connection has the tally it would have alone at every moment if and only if the table is
      never pruned while it is stale. */
  lemma OthersDoNotMatterIff(msgs: seq<Arrival>, conn: Conn, lim: Limits)
    ensures AsAlone(msgs, conn, lim) <==> Undisturbed(msgs, conn, lim)
  {
    if msgs != [] {
      hide Step, Disturbs;
      var before, a := msgs[..|msgs| - 1], msgs[|msgs| - 1];
      OthersDoNotMatterIff(before, conn, lim);
      if AsAlone(before, conn, lim) {
        var alone := Only(before, conn);
        RunPositive(before, lim);
        AloneHoldsOne(before, conn, lim);
        if a.conn == conn {
          assert (alone + [a])[..|alone|] == alone;
          OwnStep(Run(before, lim), Run(alone, lim), a, lim);
        } else {
          assert Only(msgs, conn) == alone;
          OtherStep(Run(before, lim), Run(alone, lim), a, conn, lim);
        }
      }
    }
  }

  lemma OwnStep(m: Tallies, n: Tallies, a: Arrival, lim: Limits)
    requires SameTally(m, n, a.conn) && Positive(m) && n.Keys <= {a.conn}
    ensures SameTally(Step(m, a, lim), Step(n, a, lim), a.conn) <==> !Disturbs(m, a, a.conn, lim)
  {
    if a.conn in n {
      assert n.Keys == {a.conn} && |n| == |n.Keys| == 1;
      assert a.conn in m.Keys && |m| == |m.Keys|;
    } else {
      assert n.Keys == {} && |n| == |n.Keys| == 0;
    }
  }

  lemma OtherStep(m: Tallies, n: Tallies, a: Arrival, conn: Conn, lim: Limits)
    requires SameTally(m, n, conn) && a.conn != conn
    ensures SameTally(Step(m, a, lim), n, conn) <==> !Disturbs(m, a, conn, lim)
  {
  }

  // ---------------------------------------------------------------------------
  // The loop
  // ---------------------------------------------------------------------------

  /** `handled` lists the messages that reached a handler, in order. */
  function Handled(msgs: seq<Arrival>, lim: Limits): seq<Arrival> {
    if msgs == [] then []
    else
      var before, a := msgs[..|msgs| - 1], msgs[|msgs| - 1];
      Handled(before, lim) + if Throttled(Run(before, lim), a, lim) then [] else [a]
  }

  lemma Prefix(msgs: seq<Arrival>, i: nat, lim: Limits)
    requires i < |msgs|
    ensures Run(msgs[..i + 1], lim) == Step(Run(msgs[..i], lim), msgs[i], lim)
    ensures Handled(msgs[..i + 1], lim)
         == Handled(msgs[..i], lim) + if Throttled(Run(msgs[..i], lim), msgs[i], lim) then [] else [msgs[i]]
  {
    assert msgs[..i + 1][..i] == msgs[..i];
  }

  /** One turn of the loop, past the checks that leave the table alone. */
  method Route(tallies: Tallies, a: Arrival, lim: Limits) returns (errorCounts: Tallies, reached: bool)
    ensures errorCounts == Step(tallies, a, lim) && reached == !Throttled(tallies, a, lim)
  {
    errorCounts := tallies;
    var recorded := if a.conn in errorCounts then errorCounts[a.conn].count else 0;
    if recorded >= lim.maxErrors && !a.exempt {
      return errorCounts, false;
    }
    reached := true;
    if a.errs {
      if |errorCounts| >= lim.maxTracked {
        errorCounts := map c | c in errorCounts && Since(errorCounts[c].last, a.now) < IDLE_TTL :: errorCounts[c];
      }
      var seen := if a.conn in errorCounts then errorCounts[a.conn].count else 0;
      errorCounts := errorCounts[a.conn := Tally(seen + 1, a.now)];
    } else {
      errorCounts := errorCounts - {a.conn};
    }
  }

  method RouterLoop(msgs: seq<Arrival>, lim: Limits) returns (errorCounts: Tallies, handled: seq<Arrival>)
    ensures errorCounts == Run(msgs, lim) && handled == Handled(msgs, lim)
  {
    hide Step, Throttled;
    errorCounts, handled := map[], [];
    for i := 0 to |msgs|
      invariant errorCounts == Run(msgs[..i], lim) && handled == Handled(msgs[..i], lim)
    {
      Prefix(msgs, i, lim);
      var reached;
      errorCounts, reached := Route(errorCounts, msgs[i], lim);
      handled := handled + if reached then [msgs[i]] else [];
    }
    assert msgs[..|msgs|] == msgs;
  }
}
