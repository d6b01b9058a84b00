/** How often an event of the outbox is redelivered, over every run. */
module OutboxRuns {
  import opened Collections
  import opened OutboxModel

  /** Redeliveries a row is good for: a limit of 0 still allows one. */
  function Rounds(lim: Limits): nat {
    if lim.maxRetries == 0 then 1 else lim.maxRetries
  }

  // ---------------------------------------------------------------------------
  // What a run did to one event
  // ---------------------------------------------------------------------------

  predicate Inserts(s: State, e: Event, id: Id) {
    e.Persist? && e.id == id && id !in s.rows
  }

  predicate Selects(s: State, e: Event, id: Id) {
    e.Select? && Enabled(s, e) && id in e.order
  }

  predicate Sends(s: State, e: Event, id: Id) {
    e.Send? && Enabled(s, e) && s.worker.batch != [] && s.worker.batch[0].id == id
  }

  function Insertions(es: seq<Event>, id: Id, lim: Limits): nat {
    if es == [] then 0
    else
      Insertions(es[..|es| - 1], id, lim) + if Inserts(Run(es[..|es| - 1], lim), es[|es| - 1], id) then 1 else 0
  }

  function Selections(es: seq<Event>, id: Id, lim: Limits): nat {
    if es == [] then 0
    else
      Selections(es[..|es| - 1], id, lim) + if Selects(Run(es[..|es| - 1], lim), es[|es| - 1], id) then 1 else 0
  }

  function Redeliveries(es: seq<Event>, id: Id, lim: Limits): nat {
    if es == [] then 0
    else
      Redeliveries(es[..|es| - 1], id, lim) + if Sends(Run(es[..|es| - 1], lim), es[|es| - 1], id) then 1 else 0
  }

  predicate NeverAcked(es: seq<Event>, id: Id) {
    forall i :: 0 <= i < |es| ==> es[i] != Ack(id)
  }

  // ---------------------------------------------------------------------------
  // Rows
  // ---------------------------------------------------------------------------

  predicate InTodo(w: Worker, id: Id) {
    w.Bumping? && id in w.todo
  }

  function Owed(w: Worker, id: Id): nat {
    if InTodo(w, id) then 1 else 0
  }

  /** A selection and its bump count once; a pending row has a redelivery left; a dead one none. */
  predicate RowOk(row: Row, owed: nat, lim: Limits) {
    && row.retries + owed <= Rounds(lim)
    && (row.status == Pending && owed == 0 ==> row.retries < Rounds(lim))
    && (row.status == Dead ==> row.retries == Rounds(lim))
  }

  ghost predicate Ok(s: State, lim: Limits) {
    && (forall id :: id in s.rows ==> RowOk(s.rows[id], Owed(s.worker, id), lim))
    && (s.worker.Bumping? ==> Distinct(s.worker.todo) && forall id :: id in s.worker.todo ==> id in s.rows)
  }

  lemma BumpOk(s: State, lim: Limits)
    requires Ok(s, lim) && Enabled(s, Bump)
    ensures Ok(Step(s, Bump, lim), lim)
  {
    hide Distinct;
    var t := Step(s, Bump, lim);
    DistinctTail(s.worker.todo, s.worker.todo[0]);
    forall id | id in t.rows ensures RowOk(t.rows[id], Owed(t.worker, id), lim) {
      assert RowOk(s.rows[id], Owed(s.worker, id), lim);
      DistinctTail(s.worker.todo, id);
    }
  }

  lemma SelectOk(s: State, e: Event, lim: Limits)
    requires Ok(s, lim) && e.Select? && Enabled(s, e)
    ensures Ok(Step(s, e, lim), lim)
  {
    var t := Step(s, e, lim);
    forall id | id in t.rows ensures RowOk(t.rows[id], Owed(t.worker, id), lim) {
      assert RowOk(s.rows[id], 0, lim);
      assert id in e.order <==> id in DueIds(s.rows, e.now);
    }
  }

  lemma StepOk(s: State, e: Event, lim: Limits)
    requires Ok(s, lim)
    ensures Ok(Step(s, e, lim), lim)
  {
    match e
    case Bump =>
      if Enabled(s, e) {
        BumpOk(s, lim);
      }
    case Select(_, _) =>
      if Enabled(s, e) {
        SelectOk(s, e, lim);
      }
    case _ =>
      hide Distinct, Enumerates;
  }

  lemma RunOk(es: seq<Event>, lim: Limits)
    ensures Ok(Run(es, lim), lim)
  {
    if es != [] {
      hide Ok, Step;
      RunOk(es[..|es| - 1], lim);
      StepOk(Run(es[..|es| - 1], lim), es[|es| - 1], lim);
    }
  }

  // ---------------------------------------------------------------------------
  // Selections per insertion
  // ---------------------------------------------------------------------------

  /** Selections the present row accounts for. */
  function Used(s: State, id: Id): nat {
    if id in s.rows then s.rows[id].retries + Owed(s.worker, id) else 0
  }

  /** How a step changes what the present row accounts for. */
  lemma StepUsed(s: State, e: Event, id: Id, lim: Limits)
    requires Ok(s, lim)
    ensures var t := Step(s, e, lim);
            && (id in s.rows && id in t.rows ==>
              Used(t, id) == Used(s, id) + (if Selects(s, e, id) then 1 else 0) && !Inserts(s, e, id))
            && (id !in s.rows && id in t.rows ==> Used(t, id) == 0 && Inserts(s, e, id) && !Selects(s, e, id))
            && (id !in s.rows && id !in t.rows ==> !Inserts(s, e, id) && !Selects(s, e, id))
            && (id in s.rows && id !in t.rows ==>
              s.rows[id].status != Pending && !Inserts(s, e, id) && !Selects(s, e, id) && Used(s, id) == s.rows[id].retries)
  {
    if Enabled(s, e) && e.Bump? {
      DistinctTail(s.worker.todo, id);
    }
    hide Distinct;
    if Selects(s, e, id) {
      assert id in DueIds(s.rows, e.now);
    }
  }

  function Present(s: State, id: Id): nat {
    if id in s.rows then 1 else 0
  }

  function Total(lim: Limits, rows: nat): nat {
    Rounds(lim) * rows
  }

  lemma OneMore(lim: Limits, rows: nat)
    ensures Total(lim, rows + 1) == Total(lim, rows) + Rounds(lim)
  {
  }

  /** Earlier rows of an event account for at most a full round each, the present one for what it
      has used; with no acknowledgement, for exactly that. */
  lemma {:induction false} Ledger(es: seq<Event>, id: Id, lim: Limits)
    ensures Present(Run(es, lim), id) <= Insertions(es, id, lim)
    ensures var past := Insertions(es, id, lim) - Present(Run(es, lim), id);
            && Selections(es, id, lim) <= Total(lim, past) + Used(Run(es, lim), id)
            && (NeverAcked(es, id) ==> Selections(es, id, lim) == Total(lim, past) + Used(Run(es, lim), id))
    ensures NeverAcked(es, id) && id in Run(es, lim).rows ==> Run(es, lim).rows[id].status != Delivered
  {
    if es != [] {
      hide Step, Ok, Selects, Inserts, Owed, Rounds, Total;
      var before, e := es[..|es| - 1], es[|es| - 1];
      var s, t := Run(before, lim), Run(es, lim);
      Ledger(before, id, lim);
      RunOk(before, lim);
      StepUsed(s, e, id, lim);
      assert NeverAcked(es, id) ==> NeverAcked(before, id) && e != Ack(id);
      if NeverAcked(es, id) {
        StepUndelivered(s, e, id, lim);
      }
      if id in s.rows && id !in t.rows {
        OneMore(lim, Insertions(before, id, lim) - 1);
        RowUsed(s, id, lim);
      }
    }
  }

  lemma RowUsed(s: State, id: Id, lim: Limits)
    requires Ok(s, lim) && id in s.rows
    ensures Used(s, id) <= Rounds(lim)
    ensures s.rows[id].status == Dead ==> Used(s, id) == Rounds(lim)
  {
    assert RowOk(s.rows[id], Owed(s.worker, id), lim);
  }

  lemma StepUndelivered(s: State, e: Event, id: Id, lim: Limits)
    requires e != Ack(id)
    ensures var t := Step(s, e, lim);
            id in t.rows && t.rows[id].status == Delivered ==> id in s.rows && s.rows[id].status == Delivered
  {
  }

  /** An event that is never acknowledged is not lost early: when its row is dead or gone, it was
      selected exactly `Rounds` times for every insertion. */
  lemma UnackedGetsEveryRound(es: seq<Event>, id: Id, lim: Limits)
    requires NeverAcked(es, id)
    requires id in Run(es, lim).rows ==> Run(es, lim).rows[id].status != Pending
    ensures Selections(es, id, lim) == Rounds(lim) * Insertions(es, id, lim)
  {
    Ledger(es, id, lim);
    RunOk(es, lim);
    var s := Run(es, lim);
    if id in s.rows {
      RowUsed(s, id, lim);
      OneMore(lim, Insertions(es, id, lim) - 1);
    }
  }

  // ---------------------------------------------------------------------------
  // Every selection is redelivered once
  // ---------------------------------------------------------------------------

  function CountIn(batch: seq<Message>, id: Id): nat {
    if batch == [] then 0 else (if batch[0].id == id then 1 else 0) + CountIn(batch[1..], id)
  }

  function Outstanding(w: Worker, id: Id): nat {
    match w
    case Resting => 0
    case Bumping(_, batch) => CountIn(batch, id)
    case Sending(batch) => CountIn(batch, id)
  }

  lemma {:induction false} CountBatch(rows: map<Id, Row>, order: seq<Id>, id: Id)
    requires Distinct(order) && forall x :: x in order ==> x in rows
    ensures CountIn(Batch(rows, order), id) == if id in order then 1 else 0
  {
    if order != [] {
      assert Batch(rows, order)[1..] == Batch(rows, order[1..]);
      DistinctTail(order, id);
      CountBatch(rows, order[1..], id);
    }
  }

  lemma StepOutstanding(s: State, e: Event, id: Id, lim: Limits)
    ensures Outstanding(s.worker, id) + (if Selects(s, e, id) then 1 else 0)
         == Outstanding(Step(s, e, lim).worker, id) + (if Sends(s, e, id) then 1 else 0)
  {
    if e.Select? && Enabled(s, e) {
      CountBatch(s.rows, e.order, id);
    }
  }

  /** In every run the redeliveries of an event, with those the worker still has in hand, are its
      selections: none is skipped and none is made twice, acknowledged in the meantime or not. */
  lemma SelectedIsSentOnce(es: seq<Event>, id: Id, lim: Limits)
    ensures Selections(es, id, lim) == Redeliveries(es, id, lim) + Outstanding(Run(es, lim).worker, id)
  {
    if es != [] {
      hide Selects, Sends, Step;
      SelectedIsSentOnce(es[..|es| - 1], id, lim);
      StepOutstanding(Run(es[..|es| - 1], lim), es[|es| - 1], id, lim);
    }
  }

  /** In every run an event is redelivered at most `Rounds` times per insertion. */
  lemma RedeliveryIsBounded(es: seq<Event>, id: Id, lim: Limits)
    ensures Redeliveries(es, id, lim) <= Rounds(lim) * Insertions(es, id, lim)
  {
    SelectedIsSentOnce(es, id, lim);
    Ledger(es, id, lim);
    RunOk(es, lim);
    var s := Run(es, lim);
    if id in s.rows {
      RowUsed(s, id, lim);
      OneMore(lim, Insertions(es, id, lim) - 1);
    }
  }

  // ---------------------------------------------------------------------------
  // Status
  // ---------------------------------------------------------------------------

  /** The row of the event is there all along. */
  predicate Stays(s: State, es: seq<Event>, id: Id, lim: Limits) {
    id in RunFrom(s, es, lim).rows && (es == [] || Stays(s, es[..|es| - 1], id, lim))
  }

  /** A row that is delivered or dead is never pending again while it exists. */
  lemma TerminalStays(s: State, es: seq<Event>, id: Id, lim: Limits)
    requires Stays(s, es, id, lim) && id in s.rows && s.rows[id].status != Pending
    ensures RunFrom(s, es, lim).rows[id].status != Pending
  {
    if es != [] {
      hide Step;
      TerminalStays(s, es[..|es| - 1], id, lim);
      StepTerminal(RunFrom(s, es[..|es| - 1], lim), es[|es| - 1], id, lim);
    }
  }

  lemma StepTerminal(s: State, e: Event, id: Id, lim: Limits)
    requires id in s.rows && s.rows[id].status != Pending
    ensures id in Step(s, e, lim).rows ==> Step(s, e, lim).rows[id].status != Pending
  {
  }

  /** A pending row survives every step, and only its acknowledgement makes it delivered. */
  lemma PendingIsNeverDropped(s: State, e: Event, id: Id, lim: Limits)
    requires id in s.rows && s.rows[id].status == Pending
    ensures id in Step(s, e, lim).rows && Step(s, e, lim).rows[id].content == s.rows[id].content
    ensures Step(s, e, lim).rows[id].status == Delivered ==> e == Ack(id)
  {
  }

  // ---------------------------------------------------------------------------
  // When an acknowledgement is final
  // ---------------------------------------------------------------------------

  /** No bump still owed to the row can mark it dead. */
  predicate Settled(s: State, id: Id, lim: Limits) {
    && id in s.rows && s.rows[id].status == Delivered
    && (InTodo(s.worker, id) ==> s.rows[id].retries + 1 < lim.maxRetries)
  }

  lemma SettledStep(s: State, e: Event, id: Id, lim: Limits)
    requires Ok(s, lim) && Settled(s, id, lim) && id in Step(s, e, lim).rows
    ensures Settled(Step(s, e, lim), id, lim)
  {
    if e.Bump? && Enabled(s, e) {
      DistinctTail(s.worker.todo, id);
    }
    SelectsPending(s, e, id);
  }

  lemma SettledRun(s: State, es: seq<Event>, id: Id, lim: Limits)
    requires Ok(s, lim) && Settled(s, id, lim) && Stays(s, es, id, lim)
    ensures Ok(RunFrom(s, es, lim), lim) && Settled(RunFrom(s, es, lim), id, lim)
  {
    if es != [] {
      hide Ok, Settled, Step;
      var before, e := es[..|es| - 1], es[|es| - 1];
      SettledRun(s, before, id, lim);
      StepOk(RunFrom(s, before, lim), e, lim);
      SettledStep(RunFrom(s, before, lim), e, id, lim);
    }
  }

  function Bumps(k: nat): (es: seq<Event>)
    ensures |es| == k
  {
    if k == 0 then [] else Bumps(k - 1) + [Bump]
  }

  lemma Differ(todo: seq<Id>, i: nat, j: nat)
    requires Distinct(todo) && i < j < |todo|
    ensures todo[i..][0] != todo[j]
  {
  }

  lemma BumpPasses(s: State, id: Id, lim: Limits)
    requires s.worker.Bumping? && s.worker.todo != [] && s.worker.todo[0] != id && id in s.rows
    ensures var t := Step(s, Bump, lim);
            t.worker == Bumping(s.worker.todo[1..], s.worker.batch) && id in t.rows && t.rows[id] == s.rows[id]
  {
  }

  /** The bumps before its own leave the row as it is. */
  lemma {:induction false} BumpsPass(s: State, i: nat, k: nat, lim: Limits)
    requires s.worker.Bumping? && Distinct(s.worker.todo) && k <= i < |s.worker.todo| && s.worker.todo[i] in s.rows
    ensures var t, id := RunFrom(s, Bumps(k), lim), s.worker.todo[i];
            && t.worker == Bumping(s.worker.todo[k..], s.worker.batch)
            && id in t.rows && t.rows[id] == s.rows[id] && Stays(s, Bumps(k), id, lim)
  {
    if k > 0 {
      hide Step, RunFrom, Distinct;
      BumpsPass(s, i, k - 1, lim);
      RunSnoc(s, Bumps(k - 1), Bump, lim);
      assert Bumps(k)[..k - 1] == Bumps(k - 1);
      assert s.worker.todo[k - 1..][1..] == s.worker.todo[k..];
      Differ(s.worker.todo, k - 1, i);
      BumpPasses(RunFrom(s, Bumps(k - 1), lim), s.worker.todo[i], lim);
    } else {
      assert s.worker.todo[0..] == s.worker.todo;
    }
  }

  lemma BumpKills(s: State, i: nat, lim: Limits)
    requires s.worker.Bumping? && Distinct(s.worker.todo) && i < |s.worker.todo| && s.worker.todo[i] in s.rows
    requires s.rows[s.worker.todo[i]].retries + 1 >= lim.maxRetries
    ensures var id := s.worker.todo[i];
            Stays(s, Bumps(i + 1), id, lim) && RunFrom(s, Bumps(i + 1), lim).rows[id].status == Dead
  {
    BumpsPass(s, i, i, lim);
    RunSnoc(s, Bumps(i), Bump, lim);
    assert Bumps(i + 1)[..i] == Bumps(i);
    assert s.worker.todo[i..][0] == s.worker.todo[i];
  }

  /** In every run, an acknowledged event stays delivered for as long as its row exists, whatever
      happens, if and only if the acknowledgement did not come between the selection and the bump
      of its last round. */
  lemma AckIsFinalIff(past: seq<Event>, id: Id, lim: Limits)
    requires id in Run(past, lim).rows
    ensures var s := Run(past, lim);
            (forall es :: Stays(Step(s, Ack(id), lim), es, id, lim) ==>
              RunFrom(Step(s, Ack(id), lim), es, lim).rows[id].status == Delivered)
            <==>
            !(InTodo(s.worker, id) && s.rows[id].retries + 1 == Rounds(lim))
  {
    RunOk(past, lim);
    var s := Run(past, lim);
    var t := Step(s, Ack(id), lim);
    StepOk(s, Ack(id), lim);
    LastRound(s, id, lim);
    if Settled(t, id, lim) {
      forall es | Stays(t, es, id, lim) ensures RunFrom(t, es, lim).rows[id].status == Delivered {
        SettledRun(t, es, id, lim);
      }
    } else {
      var i :| 0 <= i < |t.worker.todo| && t.worker.todo[i] == id;
      BumpKills(t, i, lim);
    }
  }

  lemma LastRound(s: State, id: Id, lim: Limits)
    requires Ok(s, lim) && id in s.rows
    ensures var t := Step(s, Ack(id), lim);
            && t.worker == s.worker && id in t.rows && t.rows[id] == s.rows[id].(status := Delivered)
            && (Settled(t, id, lim) <==> !(InTodo(s.worker, id) && s.rows[id].retries + 1 == Rounds(lim)))
  {
    assert RowOk(s.rows[id], Owed(s.worker, id), lim);
  }

  /** Such a run: acknowledged, and dead all the same. */
  lemma AcknowledgedYetDead(content: Content)
    ensures var es := [Persist("e", content, 0), Select(["e"], 10), Ack("e"), Bump];
            && Run(es[..3], Limits(1, 0)).rows == map["e" := Row(Delivered, 0, 0, content)]
            && Run(es, Limits(1, 0)).rows == map["e" := Row(Dead, 0, 1, content)]
  {
    var lim, es := Limits(1, 0), [Persist("e", content, 0), Select(["e"], 10), Ack("e"), Bump];
    var row := Row(Pending, 0, 0, content);
    Prefix(es, 0, lim);
    assert Run(es[..1], lim) == State(map["e" := row], Resting);
    Prefix(es, 1, lim);
    assert DueIds(map["e" := row], 10) == {"e"} && Enumerates(["e"], {"e"});
    assert Batch(map["e" := row], ["e"]) == [Message("e", content)];
    assert Run(es[..2], lim) == State(map["e" := row], Bumping(["e"], [Message("e", content)]));
    Prefix(es, 2, lim);
    Prefix(es, 3, lim);
    assert es[..4] == es;
  }

  lemma Prefix(es: seq<Event>, i: nat, lim: Limits)
    requires i < |es|
    ensures Run(es[..i + 1], lim) == Step(Run(es[..i], lim), es[i], lim)
  {
    assert es[..i + 1] == es[..i] + [es[i]];
    RunSnoc(Init(), es[..i], es[i], lim);
  }

  // ---------------------------------------------------------------------------
  // A measure that falls with every selection
  // ---------------------------------------------------------------------------

  /** Redeliveries a pending row has left. */
  function Remaining(s: State, id: Id, lim: Limits): int {
    if id in s.rows && s.rows[id].status == Pending then Rounds(lim) - Used(s, id) else 0
  }

  function RemainingOf(s: State, ids: seq<Id>, lim: Limits): int {
    if ids == [] then 0 else Remaining(s, ids[0], lim) + RemainingOf(s, ids[1..], lim)
  }

  function SelectedOf(s: State, e: Event, ids: seq<Id>): nat {
    if ids == [] then 0 else (if Selects(s, e, ids[0]) then 1 else 0) + SelectedOf(s, e, ids[1..])
  }

  lemma StepRemaining(s: State, e: Event, id: Id, lim: Limits)
    requires Ok(s, lim) && !Inserts(s, e, id)
    ensures 0 <= Remaining(Step(s, e, lim), id, lim) <= Remaining(s, id, lim) - (if Selects(s, e, id) then 1 else 0)
  {
    hide Ok, Step, Inserts, Selects;
    var t := Step(s, e, lim);
    StepUsed(s, e, id, lim);
    StepOk(s, e, lim);
    SelectsPending(s, e, id);
    if id in s.rows {
      RowUsed(s, id, lim);
      if s.rows[id].status != Pending {
        StepTerminal(s, e, id, lim);
      }
    }
    if id in t.rows {
      RowUsed(t, id, lim);
    }
  }

  lemma SelectsPending(s: State, e: Event, id: Id)
    ensures Selects(s, e, id) ==> id in s.rows && s.rows[id].status == Pending
  {
    if Selects(s, e, id) {
      assert id in DueIds(s.rows, e.now);
    }
  }

  /** In every run, over any rows, the redeliveries left never rise without an insertion, are never
      negative, and fall by one for each row that is selected: sweeps run dry. */
  lemma {:induction false} RemainingFalls(es: seq<Event>, e: Event, ids: seq<Id>, lim: Limits)
    requires forall id :: id in ids ==> !Inserts(Run(es, lim), e, id)
    ensures 0 <= RemainingOf(Run(es + [e], lim), ids, lim)
    ensures RemainingOf(Run(es + [e], lim), ids, lim)
         <= RemainingOf(Run(es, lim), ids, lim) - SelectedOf(Run(es, lim), e, ids)
  {
    if ids != [] {
      hide Step, Ok, Selects, Remaining, Inserts;
      RemainingFalls(es, e, ids[1..], lim);
      RunSnoc(Init(), es, e, lim);
      RunOk(es, lim);
      StepRemaining(Run(es, lim), e, ids[0], lim);
    }
  }

  // ---------------------------------------------------------------------------
  // Age
  // ---------------------------------------------------------------------------

  /** The time of the last insertion of the event. */
  function InsertedWhen(es: seq<Event>, id: Id, lim: Limits): nat {
    if es == [] then 0
    else if Inserts(Run(es[..|es| - 1], lim), es[|es| - 1], id) then es[|es| - 1].now
    else InsertedWhen(es[..|es| - 1], id, lim)
  }

  lemma StepCreated(s: State, e: Event, id: Id, lim: Limits)
    requires id in Step(s, e, lim).rows
    ensures if id in s.rows then Step(s, e, lim).rows[id].created == s.rows[id].created
            else Inserts(s, e, id) && Step(s, e, lim).rows[id].created == e.now
  {
  }

  lemma {:induction false} CreatedWhenInserted(es: seq<Event>, id: Id, lim: Limits)
    requires id in Run(es, lim).rows
    ensures Run(es, lim).rows[id].created == InsertedWhen(es, id, lim)
  {
    var before := es[..|es| - 1];
    StepCreated(Run(before, lim), es[|es| - 1], id, lim);
    if id in Run(before, lim).rows {
      CreatedWhenInserted(before, id, lim);
    }
  }

  /** In every run a sweep selects exactly the pending events that were inserted ten seconds ago or
      earlier; before the clock reads ten, those of second 0. */
  lemma SelectedByAge(es: seq<Event>, order: seq<Id>, now: nat, id: Id, lim: Limits)
    requires Enabled(Run(es, lim), Select(order, now))
    ensures var s, when := Run(es, lim), InsertedWhen(es, id, lim);
            id in order <==> id in s.rows && s.rows[id].status == Pending && (when == 0 || when + 10 <= now)
  {
    var s := Run(es, lim);
    assert id in order <==> id in DueIds(s.rows, now);
    if id in s.rows {
      CreatedWhenInserted(es, id, lim);
    }
  }

  /** In every run a row goes exactly when the worker prunes, the event is delivered or dead, and
      its retention is over: nothing younger goes and nothing older stays. */
  lemma DeletedByAge(es: seq<Event>, e: Event, id: Id, lim: Limits)
    requires id in Run(es, lim).rows
    ensures var s, when := Run(es, lim), InsertedWhen(es, id, lim);
            id !in Step(s, e, lim).rows
            <==>
            && e.Prune? && s.worker.Bumping? && s.worker.todo == []
            && s.rows[id].status != Pending && (when == 0 || when + lim.retention <= e.now)
    ensures e.Prune? && id in Step(Run(es, lim), e, lim).rows ==> Step(Run(es, lim), e, lim).rows[id] == Run(es, lim).rows[id]
  {
    CreatedWhenInserted(es, id, lim);
  }

  // ---------------------------------------------------------------------------
  // Content
  // ---------------------------------------------------------------------------

  /** The event was inserted with this content at some point of the run. */
  predicate InsertedAs(es: seq<Event>, id: Id, content: Content, lim: Limits) {
    es != [] &&
    (InsertedAs(es[..|es| - 1], id, content, lim) ||
     (Inserts(Run(es[..|es| - 1], lim), es[|es| - 1], id) && es[|es| - 1].content == content))
  }

  function InBatch(w: Worker): seq<Message> {
    if w.Resting? then [] else w.batch
  }

  lemma ContentIsPersisted(es: seq<Event>, lim: Limits)
    ensures forall id :: id in Run(es, lim).rows ==> InsertedAs(es, id, Run(es, lim).rows[id].content, lim)
    ensures forall m :: m in InBatch(Run(es, lim).worker) ==> InsertedAs(es, m.id, m.content, lim)
  {
    if es != [] {
      var before, e := es[..|es| - 1], es[|es| - 1];
      ContentIsPersisted(before, lim);
      StepContent(Run(before, lim), e, lim);
    }
  }

  lemma StepContent(s: State, e: Event, lim: Limits)
    ensures var t := Step(s, e, lim);
            && (forall id :: id in t.rows ==>
              (id in s.rows && t.rows[id].content == s.rows[id].content) || (Inserts(s, e, id) && t.rows[id].content == e.content))
            && (forall m :: m in InBatch(t.worker) ==>
              m in InBatch(s.worker) || (m.id in s.rows && m.content == s.rows[m.id].content))
  {
    var t := Step(s, e, lim);
    if e.Select? && Enabled(s, e) {
      forall m | m in InBatch(t.worker) ensures m.id in s.rows && m.content == s.rows[m.id].content {
        var i :| 0 <= i < |t.worker.batch| && t.worker.batch[i] == m;
        assert e.order[i] in e.order;
      }
    } else if e.Send? && Enabled(s, e) {
      assert forall m :: m in InBatch(t.worker) ==> m in s.worker.batch;
    }
  }

  /** What is redelivered is what was inserted under that id. */
  lemma RedeliversWhatWasInserted(es: seq<Event>, id: Id, lim: Limits)
    requires Sends(Run(es, lim), Send, id)
    ensures InsertedAs(es, id, Run(es, lim).worker.batch[0].content, lim)
  {
    ContentIsPersisted(es, lim);
    assert Run(es, lim).worker.batch[0] in InBatch(Run(es, lim).worker);
  }
}
