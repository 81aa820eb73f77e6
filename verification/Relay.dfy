/**
 The outbox relay: each round reads the first `batchSize` pending rows in id order,
 publishes those it can and marks them. Rows whose subject the stream does not
 accept stay pending and keep their places in the batch, which decides whether the
 rows behind them are ever published.
 */
module Relay {
  import opened Arithmetic
  import opened Protocol

  /** Subjects the worker declares when it creates the stream. */
  const DECLARED: set<EventType> := {TransferRequested, TransferDebited, TransferBankCalled, TransferCredited}

  const BATCH_SIZE: nat := 100

  predicate Stuck(row: OutboxRow, declared: set<EventType>) {
    !row.published && row.subject !in declared
  }

  predicate Ready(row: OutboxRow, declared: set<EventType>) {
    !row.published && row.subject in declared
  }

  /** Pending rows before index `i`. */
  function Ahead(rows: seq<OutboxRow>, i: nat): nat
    requires i <= |rows|
  {
    if i == 0 then 0 else Ahead(rows, i - 1) + (if rows[i - 1].published then 0 else 1)
  }

  /** Rows before index `i` that can never be published. */
  function StuckAhead(rows: seq<OutboxRow>, i: nat, declared: set<EventType>): nat
    requires i <= |rows|
  {
    if i == 0 then 0 else StuckAhead(rows, i - 1, declared) + (if Stuck(rows[i - 1], declared) then 1 else 0)
  }

  /** Rows before index `i` that are waiting to be published. */
  function ReadyAhead(rows: seq<OutboxRow>, i: nat, declared: set<EventType>): nat
    requires i <= |rows|
  {
    if i == 0 then 0 else ReadyAhead(rows, i - 1, declared) + (if Ready(rows[i - 1], declared) then 1 else 0)
  }

  /** The row is among the first `n` pending ones. */
  predicate InBatch(rows: seq<OutboxRow>, n: nat, i: nat) {
    i < |rows| && !rows[i].published && Ahead(rows, i) < n
  }

  /** The first `n` pending rows in id order, no more and no fewer. */
  ghost predicate IsBatch(rows: seq<OutboxRow>, n: nat, batch: seq<nat>) {
    && (forall k :: 0 <= k < |batch| ==> InBatch(rows, n, batch[k]))
    && (forall j, k :: 0 <= j < k < |batch| ==> batch[j] < batch[k])
    && (forall i: nat :: InBatch(rows, n, i) ==> i in batch)
  }

  /** The first `n` pending ones of the rows before index `i`. */
  function FirstPending(rows: seq<OutboxRow>, n: nat, i: nat): seq<nat>
    requires i <= |rows|
  {
    if i == 0 then []
    else
      var earlier := FirstPending(rows, n, i - 1);
      if !rows[i - 1].published && |earlier| < n then earlier + [i - 1] else earlier
  }

  lemma {:induction false} FirstPendingUpTo(rows: seq<OutboxRow>, n: nat, i: nat)
    requires i <= |rows|
    ensures var p := FirstPending(rows, n, i);
            && |p| == (if Ahead(rows, i) < n then Ahead(rows, i) else n)
            && (forall k :: 0 <= k < |p| ==> p[k] < i && InBatch(rows, n, p[k]))
            && (forall j, k :: 0 <= j < k < |p| ==> p[j] < p[k])
            && (forall j: nat :: j < i && InBatch(rows, n, j) ==> j in p)
  {
    if i > 0 {
      FirstPendingUpTo(rows, n, i - 1);
    }
  }

  lemma FirstPendingIsBatch(rows: seq<OutboxRow>, n: nat)
    ensures IsBatch(rows, n, FirstPending(rows, n, |rows|))
  {
    FirstPendingUpTo(rows, n, |rows|);
  }

  /** The table after a round in which nothing but undeclared subjects failed. */
  function AfterRound(rows: seq<OutboxRow>, n: nat, declared: set<EventType>): (r: seq<OutboxRow>)
    ensures |r| == |rows|
  {
    seq(|rows|, i requires 0 <= i < |rows| =>
      if InBatch(rows, n, i) && rows[i].subject in declared then rows[i].(published := true) else rows[i])
  }

  // ---- Counting ----

  lemma {:induction false} AheadSplits(rows: seq<OutboxRow>, i: nat, declared: set<EventType>)
    requires i <= |rows|
    ensures Ahead(rows, i) == StuckAhead(rows, i, declared) + ReadyAhead(rows, i, declared)
  {
    if i > 0 {
      AheadSplits(rows, i - 1, declared);
    }
  }

  /** Later rows do not matter for what is ahead. */
  lemma {:induction false} AheadPrefix(rows: seq<OutboxRow>, more: seq<OutboxRow>, i: nat, declared: set<EventType>)
    requires i <= |rows|
    ensures StuckAhead(rows + more, i, declared) == StuckAhead(rows, i, declared)
    ensures ReadyAhead(rows + more, i, declared) == ReadyAhead(rows, i, declared)
  {
    if i > 0 {
      AheadPrefix(rows, more, i - 1, declared);
    }
  }

  /** A round leaves every stuck row stuck, and frees as many ready rows as the batch had room for. */
  lemma {:induction false} RoundFrees(rows: seq<OutboxRow>, n: nat, declared: set<EventType>, i: nat)
    requires i <= |rows|
    ensures var rows' := AfterRound(rows, n, declared);
            && StuckAhead(rows', i, declared) == StuckAhead(rows, i, declared)
            && ReadyAhead(rows', i, declared) <= ReadyAhead(rows, i, declared)
            && (Ahead(rows, i) <= n ==> ReadyAhead(rows', i, declared) == 0)
            && (Ahead(rows, i) >= n ==>
                  Ahead(rows', i) + n <= Ahead(rows, i) + StuckAhead(rows, i, declared))
  {
    var rows' := AfterRound(rows, n, declared);
    AheadSplits(rows, i, declared);
    AheadSplits(rows', i, declared);
    if i > 0 {
      RoundFrees(rows, n, declared, i - 1);
      AheadSplits(rows, i - 1, declared);
      AheadSplits(rows', i - 1, declared);
    }
  }

  // ---- Rounds with new rows arriving in between ----

  /** The table after |arrivals| rounds; arrivals[r] is appended after round r. */
  function AfterRounds(rows: seq<OutboxRow>, n: nat, declared: set<EventType>,
                       arrivals: seq<seq<OutboxRow>>): (r: seq<OutboxRow>)
    ensures |r| >= |rows|
    decreases |arrivals|
  {
    if |arrivals| == 0 then rows
    else AfterRounds(AfterRound(rows, n, declared) + arrivals[0], n, declared, arrivals[1..])
  }

  lemma {:induction false} StaysPublished(rows: seq<OutboxRow>, n: nat, declared: set<EventType>,
                                          arrivals: seq<seq<OutboxRow>>, i: nat)
    requires i < |rows| && rows[i].published
    ensures AfterRounds(rows, n, declared, arrivals)[i].published
    decreases |arrivals|
  {
    if |arrivals| > 0 {
      StaysPublished(AfterRound(rows, n, declared) + arrivals[0], n, declared, arrivals[1..], i);
    }
  }

  /**
   Progress: with fewer than a batch of stuck rows ahead, a declared row with `k`
   ready rows ahead is published within k / (n - stuck) + 1 rounds, however many
   rows arrive behind it.
   */
  lemma {:induction false} PublishedInTime(rows: seq<OutboxRow>, n: nat, declared: set<EventType>,
                                           arrivals: seq<seq<OutboxRow>>, i: nat)
    requires i < |rows| && Ready(rows[i], declared) && StuckAhead(rows, i, declared) < n
    requires |arrivals| >= ReadyAhead(rows, i, declared) / (n - StuckAhead(rows, i, declared)) + 1
    ensures AfterRounds(rows, n, declared, arrivals)[i].published
    decreases |arrivals|
  {
    var f := StuckAhead(rows, i, declared);
    var k := ReadyAhead(rows, i, declared);
    var rows' := AfterRound(rows, n, declared) + arrivals[0];
    AheadSplits(rows, i, declared);
    if InBatch(rows, n, i) {
      StaysPublished(rows', n, declared, arrivals[1..], i);
    } else {
      RoundFrees(rows, n, declared, i);
      AheadSplits(AfterRound(rows, n, declared), i, declared);
      AheadPrefix(AfterRound(rows, n, declared), arrivals[0], i, declared);
      var k' := ReadyAhead(rows', i, declared);
      assert k' <= k - (n - f);
      FewerRounds(k, k', n - f);
      PublishedInTime(rows', n, declared, arrivals[1..], i);
    }
  }

  lemma FewerRounds(k: nat, k': nat, room: nat)
    requires room > 0 && k' <= k - room
    ensures k' / room + 1 <= k / room
  {
    var q := k' / room;
    assert k' == q * room + k' % room;
    assert (q + 1) * room == q * room + room;
    QuotientBound(q + 1, room, k);
  }

  /** Starvation: behind a full batch of stuck rows a row is never published. */
  lemma {:induction false} NeverPublished(rows: seq<OutboxRow>, n: nat, declared: set<EventType>,
                                          arrivals: seq<seq<OutboxRow>>, i: nat)
    requires i < |rows| && !rows[i].published && StuckAhead(rows, i, declared) >= n
    ensures !AfterRounds(rows, n, declared, arrivals)[i].published
    decreases |arrivals|
  {
    if |arrivals| > 0 {
      var rows' := AfterRound(rows, n, declared) + arrivals[0];
      AheadSplits(rows, i, declared);
      RoundFrees(rows, n, declared, i);
      AheadPrefix(AfterRound(rows, n, declared), arrivals[0], i, declared);
      NeverPublished(rows', n, declared, arrivals[1..], i);
    }
  }

  /** Some number of rounds suffices, whatever arrives. */
  ghost predicate EventuallyPublished(rows: seq<OutboxRow>, n: nat, declared: set<EventType>, i: nat)
    requires i < |rows|
  {
    exists bound: nat :: PublishedBy(rows, n, declared, i, bound)
  }

  ghost predicate PublishedBy(rows: seq<OutboxRow>, n: nat, declared: set<EventType>, i: nat, bound: nat)
    requires i < |rows|
  {
    forall arrivals: seq<seq<OutboxRow>> ::
      |arrivals| >= bound ==> AfterRounds(rows, n, declared, arrivals)[i].published
  }

  /** A declared pending row is eventually published if and only if fewer than a batch of stuck rows are ahead of it. */
  lemma PublishedIffRoomInBatch(rows: seq<OutboxRow>, n: nat, declared: set<EventType>, i: nat)
    requires i < |rows| && Ready(rows[i], declared)
    ensures EventuallyPublished(rows, n, declared, i) <==> StuckAhead(rows, i, declared) < n
  {
    if StuckAhead(rows, i, declared) < n {
      var bound: nat := ReadyAhead(rows, i, declared) / (n - StuckAhead(rows, i, declared)) + 1;
      forall arrivals: seq<seq<OutboxRow>> | |arrivals| >= bound
        ensures AfterRounds(rows, n, declared, arrivals)[i].published
      {
        PublishedInTime(rows, n, declared, arrivals, i);
      }
      assert PublishedBy(rows, n, declared, i, bound);
    } else if EventuallyPublished(rows, n, declared, i) {
      var bound: nat :| PublishedBy(rows, n, declared, i, bound);
      var arrivals := seq(bound, _ => []);
      NeverPublished(rows, n, declared, arrivals, i);
    }
  }
}
