/** The event outbox: the operations of `src/events/store.rs` on its table and the retry worker of
    `src/events/bus.rs`, step by step, so that new events and acknowledgements may come between
    any two steps of a sweep. Clock readings are inputs and need not be monotone. */
module OutboxModel {
  import opened Collections

  type Id = string

  datatype Status = Pending | Delivered | Dead

  datatype Content = Content(kind: string, payload: seq<bv8>)

  datatype Row = Row(status: Status, created: int, retries: nat, content: Content)

  datatype Message = Message(id: Id, content: Content)

  /** The worker rests, bumps the retry counts of the rows it selected, or redelivers them. */
  datatype Worker = Resting | Bumping(todo: seq<Id>, batch: seq<Message>) | Sending(batch: seq<Message>)

  datatype State = State(rows: map<Id, Row>, worker: Worker)

  datatype Event =
    | Persist(id: Id, content: Content, now: nat)
    | Ack(id: Id)
    | Select(order: seq<Id>, now: nat)
    | Bump
    | Prune(now: nat)
    | Send

  datatype Limits = Limits(maxRetries: nat, retention: nat)

  const RETRY_AGE: nat := 10

  function Init(): State {
    State(map[], Resting)
  }

  function Before(now: nat, age: nat): nat {
    if now < age then 0 else now - age
  }

  /** Insert or ignore. */
  function Inserted(rows: map<Id, Row>, id: Id, content: Content, now: nat): map<Id, Row> {
    if id in rows then rows else rows[id := Row(Pending, now, 0, content)]
  }

  function Acked(rows: map<Id, Row>, id: Id): map<Id, Row> {
    if id in rows then rows[id := rows[id].(status := Delivered)] else rows
  }

  predicate Due(row: Row, now: nat) {
    row.status == Pending && row.created <= Before(now, RETRY_AGE)
  }

  function DueIds(rows: map<Id, Row>, now: nat): set<Id> {
    set id | id in rows && Due(rows[id], now)
  }

  function Bumped(row: Row, maxRetries: nat): Row {
    var r := row.(retries := row.retries + 1);
    if r.retries >= maxRetries then r.(status := Dead) else r
  }

  function BumpedAt(rows: map<Id, Row>, id: Id, maxRetries: nat): map<Id, Row> {
    if id in rows then rows[id := Bumped(rows[id], maxRetries)] else rows
  }

  predicate Prunable(row: Row, cutoff: nat) {
    row.status != Pending && row.created <= cutoff
  }

  function Pruned(rows: map<Id, Row>, cutoff: nat): map<Id, Row> {
    map id | id in rows && !Prunable(rows[id], cutoff) :: rows[id]
  }

  function Batch(rows: map<Id, Row>, order: seq<Id>): seq<Message>
    requires forall id :: id in order ==> id in rows
  {
    seq(|order|, i requires 0 <= i < |order| => Message(order[i], rows[order[i]].content))
  }

  predicate Enabled(s: State, e: Event) {
    match e
    case Select(order, now) => s.worker.Resting? && Enumerates(order, DueIds(s.rows, now))
    case Bump => s.worker.Bumping? && s.worker.todo != []
    case Prune(_) => s.worker.Bumping? && s.worker.todo == []
    case Send => s.worker.Sending?
    case _ => true
  }

  function Step(s: State, e: Event, lim: Limits): State {
    if !Enabled(s, e) then s
    else
      match e
      case Persist(id, content, now) => s.(rows := Inserted(s.rows, id, content, now))
      case Ack(id) => s.(rows := Acked(s.rows, id))
      case Select(order, now) => s.(worker := Bumping(order, Batch(s.rows, order)))
      case Bump =>
        State(BumpedAt(s.rows, s.worker.todo[0], lim.maxRetries), Bumping(s.worker.todo[1..], s.worker.batch))
      case Prune(now) => State(Pruned(s.rows, Before(now, lim.retention)), Sending(s.worker.batch))
      case Send => s.(worker := if s.worker.batch == [] then Resting else Sending(s.worker.batch[1..]))
  }

  function RunFrom(s: State, es: seq<Event>, lim: Limits): State {
    if es == [] then s else Step(RunFrom(s, es[..|es| - 1], lim), es[|es| - 1], lim)
  }

  function Run(es: seq<Event>, lim: Limits): State {
    RunFrom(Init(), es, lim)
  }

  lemma RunSnoc(s: State, before: seq<Event>, e: Event, lim: Limits)
    ensures RunFrom(s, before + [e], lim) == Step(RunFrom(s, before, lim), e, lim)
  {
    assert (before + [e])[..|before + [e]| - 1] == before;
  }
}
