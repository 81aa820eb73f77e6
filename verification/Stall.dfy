/**
 When the relay is stalled: from a reachable state some outbox row written later can
 still be relayed if and only if fewer than a batch of stuck rows are in the table.
 */
module Stall {
  import opened Ledger
  import opened Transfers
  import opened Protocol
  import opened Wakeups
  import opened Engine
  import opened Recovery
  import opened Witnesses
  import CreateTransfer

  /** A transfer id and an idempotency key that are not taken. */
  lemma FreeName(rows: map<TransferId, Row>) returns (id: TransferId, key: string)
    ensures id !in rows && key != "" && forall i :: i in rows ==> rows[i].key != key
  {
    var lengths: set<nat> := set i | i in rows :: |rows[i].key|;
    id := CreateTransfer.Unused(rows.Keys);
    var n := CreateTransfer.Unused(lengths);
    key := seq(n + 1, _ => 'k');
    forall i | i in rows ensures rows[i].key != key {
      assert |rows[i].key| in lengths;
    }
  }

  /** A row written after `s` has a message in `s'`. */
  ghost predicate LaterRowRelayed(s: System, s': System) {
    exists k :: 0 <= k < |s'.stream| && s'.stream[k].row >= |s.outbox|
  }

  /** With room, the request of a new transfer is relayed. */
  lemma RelayLaterRow(s: System) returns (s': System)
    requires Reachable(s) && Room(s.outbox)
    ensures EngineLeads(s, s') && LaterRowRelayed(s, s')
  {
    var id, key := FreeName(s.book.rows);
    var q := Requested(s, Wish(id, key, 10, 11));
    StuckStays(s.outbox, q.outbox, |s.outbox|);
    Here(id, q);
    s' := PublishNow(id, q, q, |s.outbox|);
    LeadsInEngine(id, q, s');
    EngineLeadsOn(s, q, s');
    NewRowsMessage(s, s', id);
  }

  /** The message of a transfer that did not exist before comes from a later row. */
  lemma NewRowsMessage(s: System, s': System, id: TransferId)
    requires Reachable(s) && EngineLeads(s, s') && id !in s.book.rows && UnackedMessage(s', id)
    ensures LaterRowRelayed(s, s')
  {
    var k :| 0 <= k < |s'.stream| && s'.stream[k].id == id && !s'.stream[k].acked;
    UnknownHere(s, id);
    RowsStay(s, s');
    ReachedOn(s, s');
    ReachableOk(s');
    assert s'.outbox[s'.stream[k].row].id == id;
  }

  lemma NoLaterRow(s: System, s': System)
    requires Reachable(s) && EngineLeads(s, s') && !Room(s.outbox)
    ensures !LaterRowRelayed(s, s')
  {
    var s0: System, xs: seq<Action> :| Init(s0) && EngineRun(ANY, s0, xs, s);
    var ys :| EngineRun(ANY, s, ys, s');
    EngineConcat(ANY, s0, xs, s, ys, s');
    forall k | 0 <= k < |s'.stream| ensures s'.stream[k].row < |s.outbox| {
      MessageHasRow(ANY, s0, xs + ys, s', k);
      if s'.stream[k].row >= |s.outbox| {
        FinishedTransfersStallTheEngine(ANY, s0, xs, s, ys, s', s'.stream[k].row);
      }
    }
  }

  /** Some continuation relays a row written later if and only if there is room for it in a batch. */
  lemma LaterRowsRelayedExactly(s: System)
    requires Reachable(s)
    ensures (exists s' :: EngineLeads(s, s') && LaterRowRelayed(s, s')) <==> Room(s.outbox)
  {
    if Room(s.outbox) {
      var s' := RelayLaterRow(s);
    } else {
      forall s' | EngineLeads(s, s') ensures !LaterRowRelayed(s, s') {
        NoLaterRow(s, s');
      }
    }
  }
}
