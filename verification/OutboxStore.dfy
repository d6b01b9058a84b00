/** The store's table as it is updated in place, and one uninterrupted sweep of the worker. */
module OutboxStore {
  import opened Collections
  import opened OutboxModel

  /** The ids of a set in some order, as the database returns rows. */
  method InSomeOrder(ids: set<Id>) returns (order: seq<Id>)
    ensures Enumerates(order, ids)
  {
    order := [];
    var rest := ids;
    while rest != {}
      invariant rest <= ids && Distinct(order)
      invariant forall id :: id in ids <==> id in rest || id in order
      invariant forall id :: id in rest ==> id !in order
      decreases rest
    {
      var id :| id in rest;
      rest := rest - {id};
      order := order + [id];
    }
  }

  class EventStore {
    var rows: map<Id, Row>

    constructor ()
      ensures rows == map[]
    {
      rows := map[];
    }

    method Persist(id: Id, content: Content, now: nat)
      modifies this
      ensures rows == Inserted(old(rows), id, content, now)
      ensures id in rows && (id in old(rows) ==> rows == old(rows))
    {
      if id !in rows {
        rows := rows[id := Row(Pending, now, 0, content)];
      }
    }

    method MarkDelivered(id: Id)
      modifies this
      ensures rows == Acked(old(rows), id)
      ensures rows.Keys == old(rows).Keys && forall x :: x in rows && x != id ==> rows[x] == old(rows)[x]
    {
      if id in rows {
        rows := rows[id := rows[id].(status := Delivered)];
      }
    }

    method PendingOlderThan(now: nat) returns (order: seq<Id>, batch: seq<Message>)
      ensures Enumerates(order, DueIds(rows, now))
      ensures forall id :: id in order <==>
        id in rows && rows[id].status == Pending && (rows[id].created <= 0 || rows[id].created + 10 <= now)
      ensures batch == Batch(rows, order)
    {
      order := InSomeOrder(set id | id in rows && Due(rows[id], now));
      batch := [];
      for i := 0 to |order|
        invariant |batch| == i
        invariant forall k :: 0 <= k < i ==> order[k] in rows && batch[k] == Message(order[k], rows[order[k]].content)
      {
        assert order[i] in order;
        batch := batch + [Message(order[i], rows[order[i]].content)];
      }
    }

    /** Two updates in a row: the count first, the status by the new count. */
    method IncrementRetryOrDead(id: Id, maxRetries: nat)
      modifies this
      ensures rows == BumpedAt(old(rows), id, maxRetries)
    {
      if id in rows {
        rows := rows[id := rows[id].(retries := rows[id].retries + 1)];
      }
      if id in rows && rows[id].retries >= maxRetries {
        rows := rows[id := rows[id].(status := Dead)];
      }
    }

    method Prune(now: nat, retention: nat) returns (removed: nat)
      modifies this
      ensures rows == Pruned(old(rows), Before(now, retention))
      ensures rows.Keys <= old(rows).Keys
      ensures forall id :: id in old(rows) ==>
        var row := old(rows)[id];
        && (id in rows <==> row.status == Pending || (row.created > 0 && row.created + retention > now))
        && (id in rows ==> rows[id] == row)
      ensures removed == |old(rows)| - |rows|
    {
      var cutoff := Before(now, retention);
      var gone := set id | id in rows && Prunable(rows[id], cutoff);
      rows, removed := rows - gone, |gone|;
      assert old(rows).Keys == rows.Keys + gone;
    }

    /** The blocking part of a sweep: the steps of the model from a selection to the pruning. */
    method Sweep(now: nat, later: nat, lim: Limits) returns (batch: seq<Message>, ghost steps: seq<Event>)
      modifies this
      ensures RunFrom(State(old(rows), Resting), steps, lim) == State(rows, Sending(batch))
      ensures |steps| == |batch| + 2 && steps[0].Select? && steps[0].now == now && steps[|steps| - 1] == OutboxModel.Prune(later)
      ensures forall i :: 0 < i < |steps| - 1 ==> steps[i] == Bump
    {
      ghost var start := State(rows, Resting);
      var order, selected := PendingOlderThan(now);
      batch := selected;
      steps := [Select(order, now)];
      RunSnoc(start, [], Select(order, now), lim);
      assert [] + [Select(order, now)] == steps;
      for i := 0 to |order|
        invariant RunFrom(start, steps, lim) == State(rows, Bumping(order[i..], batch))
        invariant |steps| == i + 1 && steps[0] == Select(order, now)
        invariant forall k :: 0 < k < |steps| ==> steps[k] == Bump
      {
        assert order[i..][0] == order[i] && order[i..][1..] == order[i + 1..];
        RunSnoc(start, steps, Bump, lim);
        IncrementRetryOrDead(order[i], lim.maxRetries);
        steps := steps + [Bump];
      }
      RunSnoc(start, steps, OutboxModel.Prune(later), lim);
      var _ := Prune(later, lim.retention);
      steps := steps + [OutboxModel.Prune(later)];
    }
  }
}
