/**
 One relay round in the source's own form: select, then publish and mark row by row.
 Whatever fails, it takes only protocol steps, so no wake-up is lost and no unpublished
 row is marked; when nothing fails, the table ends up as `AfterRound` says.
 */
module OutboxRelay {
  import opened Ledger
  import opened Transfers
  import opened Protocol
  import opened Backend
  import opened Relay

  /** The messages of a round's rows, in order. */
  function Messages(rows: seq<OutboxRow>, batch: seq<nat>, declared: set<EventType>): seq<Message>
    requires forall k :: 0 <= k < |batch| ==> batch[k] < |rows|
  {
    if |batch| == 0 then []
    else
      var n := |batch| - 1;
      Messages(rows, batch[..n], declared)
      + (if rows[batch[n]].subject in declared then [Message(batch[n], rows[batch[n]].id, false)] else [])
  }

  /** The table with the declared rows of the batch marked. */
  function Marked(rows: seq<OutboxRow>, batch: seq<nat>, declared: set<EventType>): (r: seq<OutboxRow>)
    ensures |r| == |rows|
  {
    seq(|rows|, i requires 0 <= i < |rows| =>
      if i in batch && rows[i].subject in declared then rows[i].(published := true) else rows[i])
  }

  lemma MarkedSnoc(rows: seq<OutboxRow>, batch: seq<nat>, i: nat, declared: set<EventType>)
    requires i < |rows| && i !in batch
    ensures Marked(rows, batch, declared)[i] == rows[i]
    ensures Marked(rows, batch + [i], declared)
            == if rows[i].subject in declared then Marked(rows, batch, declared)[i := rows[i].(published := true)]
               else Marked(rows, batch, declared)
  {
  }

  lemma MessagesSnoc(rows: seq<OutboxRow>, batch: seq<nat>, i: nat, declared: set<EventType>)
    requires i < |rows| && forall k :: 0 <= k < |batch| ==> batch[k] < |rows|
    ensures Messages(rows, batch + [i], declared)
            == Messages(rows, batch, declared)
               + (if rows[i].subject in declared then [Message(i, rows[i].id, false)] else [])
  {
    assert (batch + [i])[..|batch|] == batch;
  }

  lemma WholeBatch(rows: seq<OutboxRow>, n: nat, batch: seq<nat>, declared: set<EventType>)
    requires IsBatch(rows, n, batch)
    ensures Marked(rows, batch, declared) == AfterRound(rows, n, declared)
  {
    var a, b := Marked(rows, batch, declared), AfterRound(rows, n, declared);
    forall i | 0 <= i < |rows| ensures a[i] == b[i] {
      if i in batch {
        var k :| 0 <= k < |batch| && batch[k] == i;
      }
    }
  }

  /** SELECT ... WHERE status = 'PENDING' ORDER BY id LIMIT n. */
  method SelectPending(rows: seq<OutboxRow>, n: nat) returns (pending: seq<nat>)
    ensures IsBatch(rows, n, pending)
  {
    pending := [];
    for i := 0 to |rows|
      invariant pending == FirstPending(rows, n, i)
    {
      if !rows[i].published && |pending| < n {
        pending := pending + [i];
      }
    }
    FirstPendingIsBatch(rows, n);
  }

  /** What relaying one row without failures does to table and stream. */
  predicate RowRelayed(outbox: seq<OutboxRow>, stream: seq<Message>, i: nat, declared: set<EventType>,
                       outbox': seq<OutboxRow>, stream': seq<Message>, ok: bool)
  {
    && i < |outbox| && ok == (outbox[i].subject in declared)
    && stream' == stream + (if ok then [Message(i, outbox[i].id, false)] else [])
    && outbox' == if ok then outbox[i := outbox[i].(published := true)] else outbox
  }

  /** What relaying the rows of `batch` without failures does. */
  predicate Relayed(outbox: seq<OutboxRow>, stream: seq<Message>, batch: seq<nat>, declared: set<EventType>,
                    outbox': seq<OutboxRow>, stream': seq<Message>, published: nat)
  {
    && (forall k :: 0 <= k < |batch| ==> batch[k] < |outbox|)
    && outbox' == Marked(outbox, batch, declared)
    && stream' == stream + Messages(outbox, batch, declared)
    && published == |Messages(outbox, batch, declared)|
  }

  lemma RelayedSnoc(outbox: seq<OutboxRow>, stream: seq<Message>, batch: seq<nat>, declared: set<EventType>,
                    outbox1: seq<OutboxRow>, stream1: seq<Message>, published: nat, i: nat,
                    outbox': seq<OutboxRow>, stream': seq<Message>, ok: bool)
    requires Relayed(outbox, stream, batch, declared, outbox1, stream1, published) && i < |outbox| && i !in batch
    requires RowRelayed(outbox1, stream1, i, declared, outbox', stream', ok)
    ensures Relayed(outbox, stream, batch + [i], declared, outbox', stream', if ok then published + 1 else published)
  {
    MarkedSnoc(outbox, batch, i, declared);
    MessagesSnoc(outbox, batch, i, declared);
  }

  /** Unacknowledged messages of declared batch rows, in the order of the rows. */
  ghost predicate Sends(rows: seq<OutboxRow>, batch: seq<nat>, declared: set<EventType>, sent: seq<Message>) {
    && (forall k :: 0 <= k < |sent| ==>
          && sent[k].row in batch && sent[k].row < |rows| && rows[sent[k].row].subject in declared
          && sent[k].id == rows[sent[k].row].id && !sent[k].acked)
    && (forall j, k :: 0 <= j < k < |sent| ==> sent[j].row < sent[k].row)
    && (forall i :: i in batch && i < |rows| && rows[i].subject in declared ==>
          exists k :: 0 <= k < |sent| && sent[k].row == i)
  }

  lemma {:induction false} MessagesSend(rows: seq<OutboxRow>, batch: seq<nat>, declared: set<EventType>)
    requires forall k :: 0 <= k < |batch| ==> batch[k] < |rows|
    requires forall j, k :: 0 <= j < k < |batch| ==> batch[j] < batch[k]
    ensures Sends(rows, batch, declared, Messages(rows, batch, declared))
  {
    if |batch| > 0 {
      var n := |batch| - 1;
      MessagesSend(rows, batch[..n], declared);
      SendsSnoc(rows, batch[..n], declared, Messages(rows, batch[..n], declared), batch[n]);
      assert batch == batch[..n] + [batch[n]];
    }
  }

  lemma SendsSnoc(rows: seq<OutboxRow>, batch: seq<nat>, declared: set<EventType>, sent: seq<Message>, i: nat)
    requires Sends(rows, batch, declared, sent) && i < |rows| && forall j :: 0 <= j < |batch| ==> batch[j] < i
    ensures Sends(rows, batch + [i], declared,
                  sent + (if rows[i].subject in declared then [Message(i, rows[i].id, false)] else []))
  {
    var sent' := sent + (if rows[i].subject in declared then [Message(i, rows[i].id, false)] else []);
    forall j | j in batch + [i] && j < |rows| && rows[j].subject in declared
      ensures exists k :: 0 <= k < |sent'| && sent'[k].row == j
    {
      if j in batch {
        var k :| 0 <= k < |sent| && sent[k].row == j;
        assert sent'[k].row == j;
      } else {
        assert sent'[|sent|].row == j;
      }
    }
  }

  /**
   The effect of a round without failures, row by row and message by message: the declared
   rows among the first `n` pending ones become published, nothing else about any row
   changes, each of them is sent once and in id order, and the counter is their number.
   */
  ghost predicate RoundDone(outbox: seq<OutboxRow>, stream: seq<Message>, n: nat, declared: set<EventType>,
                            outbox': seq<OutboxRow>, stream': seq<Message>, published: nat)
  {
    && |outbox'| == |outbox| && stream <= stream' && published == |stream'| - |stream|
    && (forall i :: 0 <= i < |outbox| ==>
          outbox'[i] == outbox[i].(
            published := outbox[i].published || (InBatch(outbox, n, i) && outbox[i].subject in declared)))
    && exists batch :: IsBatch(outbox, n, batch) && Sends(outbox, batch, declared, stream'[|stream|..])
  }

  lemma RelayedIsDone(outbox: seq<OutboxRow>, stream: seq<Message>, n: nat, batch: seq<nat>, declared: set<EventType>,
                      outbox': seq<OutboxRow>, stream': seq<Message>, published: nat)
    requires IsBatch(outbox, n, batch) && Relayed(outbox, stream, batch, declared, outbox', stream', published)
    ensures RoundDone(outbox, stream, n, declared, outbox', stream', published)
  {
    WholeBatch(outbox, n, batch, declared);
    MessagesSend(outbox, batch, declared);
    assert stream'[|stream|..] == Messages(outbox, batch, declared);
  }

  /** What a relay has nothing to do with. */
  ghost function Beside(db: Store): (map<AccountId, Status>, map<TransferId, Row>, seq<LedgerEntry>, seq<Event>)
    reads db
  {
    (db.accounts, db.rows, db.ledger, db.events)
  }

  class Relayer {
    const db: Store

    constructor (db: Store)
      ensures this.db == db
    {
      this.db := db;
    }

    /** Publishes one row. */
    method Send(ghost r: RelayId, i: nat, ghost rest: seq<nat>, declared: set<EventType>) returns (ok: bool)
      requires db.Valid() && RelayAt(db.sys, r) == Working([i] + rest)
      modifies db
      ensures db.Valid() && db.After(old(db.states), old(db.trace))
      ensures RelayAt(db.sys, r) == if ok then Marking(i, rest) else Working(rest)
      ensures db.reliable ==>
                && Beside(db) == old(Beside(db)) && db.outbox == old(db.outbox)
                && i < |db.outbox| && ok == (db.outbox[i].subject in declared)
                && db.stream == old(db.stream) + (if ok then [Message(i, db.outbox[i].id, false)] else [])
    {
      db.InterfereWithRelay(r);
      db.BatchStays(r);
      assert ([i] + rest)[1..] == rest;
      ok := db.PublishRow(r, i, declared);
    }

    /** Marks a row that was published. */
    method Confirm(ghost r: RelayId, i: nat, ghost rest: seq<nat>) returns (ok: bool)
      requires db.Valid() && RelayAt(db.sys, r) == Marking(i, rest)
      modifies db
      ensures db.Valid() && db.After(old(db.states), old(db.trace)) && RelayAt(db.sys, r) == Working(rest)
      ensures db.reliable ==>
                && ok && Beside(db) == old(Beside(db)) && db.stream == old(db.stream) && i < |old(db.outbox)|
                && db.outbox == old(db.outbox)[i := old(db.outbox)[i].(published := true)]
    {
      db.InterfereWithRelay(r);
      db.BatchStays(r);
      ok := db.MarkRow(r, i);
    }

    /** Publishes one row and marks it only if the publish succeeded. */
    method RelayRow(ghost r: RelayId, i: nat, ghost rest: seq<nat>, declared: set<EventType>) returns (ok: bool)
      requires db.Valid() && RelayAt(db.sys, r) == Working([i] + rest)
      modifies db
      ensures db.Valid() && db.After(old(db.states), old(db.trace)) && RelayAt(db.sys, r) == Working(rest)
      ensures db.reliable ==>
                && Beside(db) == old(Beside(db))
                && RowRelayed(old(db.outbox), old(db.stream), i, declared, db.outbox, db.stream, ok)
    {
      ok := Send(r, i, rest, declared);
      if ok {
        ok := Confirm(r, i, rest);
      }
    }

    /** relay: one round; the counter is what the log line reports. */
    method Round(ghost r: RelayId, n: nat, declared: set<EventType>) returns (published: nat)
      requires db.Valid() && RelayAt(db.sys, r) == Resting
      modifies db
      ensures db.Valid() && db.After(old(db.states), old(db.trace)) && RelayAt(db.sys, r) == Resting
      ensures db.reliable ==>
                && Beside(db) == old(Beside(db)) && db.outbox == AfterRound(old(db.outbox), n, declared)
                && RoundDone(old(db.outbox), old(db.stream), n, declared, db.outbox, db.stream, published)
    {
      var reachable := db.Works();
      if !reachable {
        return 0;
      }
      var pending := SelectPending(db.outbox, n);
      db.TakeSelect(r, pending);
      published := Batch(r, pending, declared);
      db.TakeRest(r);
      if db.reliable {
        WholeBatch(old(db.outbox), n, pending, declared);
        RelayedIsDone(old(db.outbox), old(db.stream), n, pending, declared, db.outbox, db.stream, published);
      }
    }

    /** One turn of the relay's loop, after `k` rows. */
    method RelayNext(ghost r: RelayId, pending: seq<nat>, k: nat, declared: set<EventType>, published: nat,
                     ghost outbox: seq<OutboxRow>, ghost stream: seq<Message>)
      returns (published': nat)
      requires db.Valid() && k < |pending| && RelayAt(db.sys, r) == Working(pending[k..])
      requires pending[k] !in pending[..k] && pending[k] < |outbox|
      requires db.reliable ==> Relayed(outbox, stream, pending[..k], declared, db.outbox, db.stream, published)
      modifies db
      ensures db.Valid() && db.After(old(db.states), old(db.trace)) && RelayAt(db.sys, r) == Working(pending[k + 1..])
      ensures db.reliable ==>
                && Beside(db) == old(Beside(db))
                && Relayed(outbox, stream, pending[..k + 1], declared, db.outbox, db.stream, published')
    {
      ghost var outbox1, stream1 := db.outbox, db.stream;
      assert pending[k..] == [pending[k]] + pending[k + 1..];
      var ok := RelayRow(r, pending[k], pending[k + 1..], declared);
      published' := if ok then published + 1 else published;
      if db.reliable {
        RelayedSnoc(outbox, stream, pending[..k], declared, outbox1, stream1, published, pending[k],
                    db.outbox, db.stream, ok);
        assert pending[..k + 1] == pending[..k] + [pending[k]];
      }
    }

    method Batch(ghost r: RelayId, pending: seq<nat>, declared: set<EventType>) returns (published: nat)
      requires db.Valid() && RelayAt(db.sys, r) == Working(pending)
      requires forall j, k :: 0 <= j < k < |pending| ==> pending[j] < pending[k]
      requires forall k :: 0 <= k < |pending| ==> pending[k] < |db.outbox|
      modifies db
      ensures db.Valid() && db.After(old(db.states), old(db.trace)) && RelayAt(db.sys, r) == Working([])
      ensures db.reliable ==>
                && Beside(db) == old(Beside(db))
                && Relayed(old(db.outbox), old(db.stream), pending, declared, db.outbox, db.stream, published)
    {
      published := 0;
      ghost var outbox, stream := db.outbox, db.stream;
      for k := 0 to |pending|
        invariant db.Valid() && db.After(old(db.states), old(db.trace)) && RelayAt(db.sys, r) == Working(pending[k..])
        invariant db.reliable ==>
                    && Beside(db) == old(Beside(db))
                    && Relayed(outbox, stream, pending[..k], declared, db.outbox, db.stream, published)
      {
        published := RelayNext(r, pending, k, declared, published, outbox, stream);
      }
      assert pending[..|pending|] == pending && pending[|pending|..] == [];
    }
  }
}
