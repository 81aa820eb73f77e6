/**
 The engine with its own relay: batches are the first pending rows in id order, and
 only declared subjects are accepted by the stream. A row that announces the end of a
 transfer is then never published and keeps its place, so a row with a full batch of
 them ahead is never relayed, and what it should wake up never moves again.
 */
module Engine {
  import opened Ledger
  import opened Transfers
  import opened Protocol
  import opened History
  import opened Wakeups
  import opened FinalRows
  import opened Relay
  import EventLog

  /** Relays read batches in id order and publish declared subjects only. */
  ghost predicate Orderly(s: System, a: Action)
    requires Enabled(s, a)
  {
    a.Relay? ==>
      match a.y
      case Select(batch) => IsBatch(s.outbox, BATCH_SIZE, batch)
      case Publish(ok) => ok ==> s.outbox[RelayAt(s, a.r).batch[0]].subject in DECLARED
      case Mark(_) => true
      case RelayGone => true
  }

  ghost predicate EngineStep(g: Regime, s: System, a: Action) {
    StepOk(g, s, a) && Orderly(s, a)
  }

  ghost predicate EngineRun(g: Regime, s: System, acts: seq<Action>, s': System)
    decreases |acts|
  {
    if |acts| == 0 then s' == s
    else
      var n := |acts| - 1;
      exists m :: EngineRun(g, s, acts[..n], m) && EngineStep(g, m, acts[n]) && s' == Next(m, acts[n])
  }

  lemma {:induction false} EngineIsRun(g: Regime, s: System, acts: seq<Action>, s': System)
    requires EngineRun(g, s, acts, s')
    ensures Run(g, s, acts, s')
    decreases |acts|
  {
    if |acts| > 0 {
      var n := |acts| - 1;
      var m :| EngineRun(g, s, acts[..n], m) && EngineStep(g, m, acts[n]) && s' == Next(m, acts[n]);
      EngineIsRun(g, s, acts[..n], m);
    }
  }

  /** Some steps of the engine lead from `s` to `s'`. */
  ghost predicate EngineLeads(s: System, s': System) {
    exists acts :: EngineRun(ANY, s, acts, s')
  }

  lemma EngineHere(s: System)
    ensures EngineLeads(s, s)
  {
    assert EngineRun(ANY, s, [], s);
  }

  lemma EngineOnward(s: System, m: System, a: Action)
    requires EngineLeads(s, m) && EngineStep(ANY, m, a)
    ensures EngineLeads(s, Next(m, a))
  {
    var acts :| EngineRun(ANY, s, acts, m);
    EngineSnoc(ANY, s, acts, m, a);
  }

  lemma EngineLeadsOn(s: System, m: System, s': System)
    requires EngineLeads(s, m) && EngineLeads(m, s')
    ensures EngineLeads(s, s')
  {
    var xs :| EngineRun(ANY, s, xs, m);
    var ys :| EngineRun(ANY, m, ys, s');
    EngineConcat(ANY, s, xs, m, ys, s');
  }

  // ---- What the relays can reach ----

  /** Fewer than a batch of rows that are never published are ahead. */
  predicate InReach(outbox: seq<OutboxRow>, i: nat) {
    i < |outbox| && StuckAhead(outbox, i, DECLARED) < BATCH_SIZE
  }

  /** A row written now would be within reach. */
  predicate Room(outbox: seq<OutboxRow>) {
    StuckAhead(outbox, |outbox|, DECLARED) < BATCH_SIZE
  }

  /** A declared row within reach. */
  predicate Relayable(outbox: seq<OutboxRow>, i: nat) {
    InReach(outbox, i) && outbox[i].subject in DECLARED
  }

  /** Rows keep id and subject, and which of them are stuck. */
  ghost predicate SameStuck(outbox: seq<OutboxRow>, outbox': seq<OutboxRow>) {
    && |outbox| <= |outbox'|
    && forall j :: 0 <= j < |outbox| ==>
         && outbox'[j].id == outbox[j].id && outbox'[j].subject == outbox[j].subject
         && Stuck(outbox'[j], DECLARED) == Stuck(outbox[j], DECLARED)
  }

  lemma {:induction false} StuckStays(outbox: seq<OutboxRow>, outbox': seq<OutboxRow>, i: nat)
    requires SameStuck(outbox, outbox') && i <= |outbox|
    ensures StuckAhead(outbox', i, DECLARED) == StuckAhead(outbox, i, DECLARED)
  {
    if i > 0 {
      StuckStays(outbox, outbox', i - 1);
    }
  }

  /** The rows a relay has still to publish. */
  function Batch(pc: RelayPc): seq<nat> {
    match pc
    case Resting => []
    case Working(batch) => batch
    case Marking(_, batch) => batch
  }

  predicate BatchInReach(outbox: seq<OutboxRow>, pc: RelayPc) {
    && (forall k :: 0 <= k < |Batch(pc)| ==> InReach(outbox, Batch(pc)[k]))
    && (pc.Marking? ==> Relayable(outbox, pc.row))
  }

  /** Everything published, in the stream or in a relay's hands was within reach. */
  ghost predicate Relaying(outbox: seq<OutboxRow>, stream: seq<Message>, relays: map<RelayId, RelayPc>) {
    && (forall i :: 0 <= i < |outbox| && outbox[i].published ==> outbox[i].subject in DECLARED)
    && (forall k :: 0 <= k < |stream| ==> Relayable(outbox, stream[k].row))
    && (forall r :: r in relays ==> BatchInReach(outbox, relays[r]))
  }

  lemma ReachKept(outbox: seq<OutboxRow>, outbox': seq<OutboxRow>, i: nat)
    requires SameStuck(outbox, outbox') && i < |outbox|
    ensures InReach(outbox', i) == InReach(outbox, i) && Relayable(outbox', i) == Relayable(outbox, i)
  {
    StuckStays(outbox, outbox', i);
  }

  /** The outbox changes; stream and relays stay. */
  lemma RelayingGrows(outbox: seq<OutboxRow>, stream: seq<Message>, relays: map<RelayId, RelayPc>,
                      outbox': seq<OutboxRow>)
    requires Relaying(outbox, stream, relays) && SameStuck(outbox, outbox')
    requires forall i :: 0 <= i < |outbox'| && outbox'[i].published ==> outbox'[i].subject in DECLARED
    ensures Relaying(outbox', stream, relays)
  {
    forall i: nat | i < |outbox|
      ensures InReach(outbox', i) == InReach(outbox, i) && Relayable(outbox', i) == Relayable(outbox, i)
    {
      ReachKept(outbox, outbox', i);
    }
  }

  lemma {:induction false} StuckAtMostAhead(outbox: seq<OutboxRow>, i: nat)
    requires i <= |outbox|
    ensures StuckAhead(outbox, i, DECLARED) <= Ahead(outbox, i)
  {
    AheadSplits(outbox, i, DECLARED);
  }

  lemma BatchIsInReach(outbox: seq<OutboxRow>, batch: seq<nat>)
    requires IsBatch(outbox, BATCH_SIZE, batch)
    ensures BatchInReach(outbox, Working(batch))
  {
    forall k | 0 <= k < |batch| ensures InReach(outbox, batch[k]) {
      StuckAtMostAhead(outbox, batch[k]);
    }
  }

  lemma BatchRest(outbox: seq<OutboxRow>, batch: seq<nat>)
    requires |batch| > 0 && BatchInReach(outbox, Working(batch))
    ensures InReach(outbox, batch[0]) && BatchInReach(outbox, Working(batch[1..]))
  {
    assert Batch(Working(batch))[0] == batch[0];
    forall k | 0 <= k < |batch[1..]| ensures InReach(outbox, batch[1..][k]) {
      assert Batch(Working(batch))[k + 1] == batch[1..][k];
    }
  }

  lemma RelayingPublish(s: System, r: RelayId, ok: bool)
    requires Relaying(s.outbox, s.stream, s.relays) && RelayEnabled(s, r, Publish(ok))
    requires Orderly(s, Relay(r, Publish(ok)))
    ensures var s' := NextRelay(s, r, Publish(ok));
            Relaying(s'.outbox, s'.stream, s'.relays) && SameStuck(s.outbox, s'.outbox)
  {
    var pc := RelayAt(s, r);
    assert BatchInReach(s.outbox, pc);
    BatchRest(s.outbox, pc.batch);
    assert BatchInReach(s.outbox, Working(pc.batch[1..]));
    assert ok ==> Relayable(s.outbox, pc.batch[0]);
    assert Batch(Marking(pc.batch[0], pc.batch[1..])) == Batch(Working(pc.batch[1..]));
  }

  lemma RelayingMark(s: System, r: RelayId, ok: bool)
    requires Relaying(s.outbox, s.stream, s.relays) && RelayEnabled(s, r, Mark(ok))
    ensures var s' := NextRelay(s, r, Mark(ok));
            Relaying(s'.outbox, s'.stream, s'.relays) && SameStuck(s.outbox, s'.outbox)
  {
    var s' := NextRelay(s, r, Mark(ok));
    var pc := RelayAt(s, r);
    assert BatchInReach(s.outbox, pc);
    assert Relayable(s.outbox, pc.row);
    assert BatchInReach(s.outbox, Working(pc.batch)) by {
      assert Batch(pc) == Batch(Working(pc.batch));
    }
    RelayingGrows(s.outbox, s.stream, s'.relays, s'.outbox);
  }

  lemma RelayingRelay(s: System, r: RelayId, y: RelayStep)
    requires Relaying(s.outbox, s.stream, s.relays) && RelayEnabled(s, r, y) && Orderly(s, Relay(r, y))
    ensures var s' := NextRelay(s, r, y);
            Relaying(s'.outbox, s'.stream, s'.relays) && SameStuck(s.outbox, s'.outbox)
  {
    match y
    case Select(batch) => BatchIsInReach(s.outbox, batch);
    case Publish(ok) => RelayingPublish(s, r, ok);
    case Mark(ok) => RelayingMark(s, r, ok);
    case RelayGone =>
  }

  lemma RelayingWrite(s: System, w: WorkerId)
    requires Relaying(s.outbox, s.stream, s.relays) && WorkerEnabled(s, w, Write)
    ensures var s' := NextWrite(s, w);
            Relaying(s'.outbox, s'.stream, s'.relays) && SameStuck(s.outbox, s'.outbox)
  {
    RelayingGrows(s.outbox, s.stream, s.relays, NextWrite(s, w).outbox);
  }

  lemma SameStreamRows(outbox: seq<OutboxRow>, stream: seq<Message>, relays: map<RelayId, RelayPc>,
                       stream': seq<Message>)
    requires Relaying(outbox, stream, relays) && |stream'| == |stream| && StreamGrows(stream, stream')
    ensures Relaying(outbox, stream', relays)
  {
  }

  lemma RelayingWorker(s: System, w: WorkerId, x: WorkerStep)
    requires Relaying(s.outbox, s.stream, s.relays) && WorkerEnabled(s, w, x)
    ensures var s' := NextWorker(s, w, x);
            Relaying(s'.outbox, s'.stream, s'.relays) && SameStuck(s.outbox, s'.outbox)
  {
    if x.Write? {
      RelayingWrite(s, w);
    } else {
      OutboxWorker(s, w, x);
      OutboxFrame(s, w, x);
      StreamSame(s, w, x);
      SameStreamRows(s.outbox, s.stream, s.relays, NextWorker(s, w, x).stream);
    }
  }

  /** A worker adds nothing to the stream. */
  lemma StreamSame(s: System, w: WorkerId, x: WorkerStep)
    requires WorkerEnabled(s, w, x)
    ensures var s' := NextWorker(s, w, x); |s'.stream| == |s.stream| && StreamGrows(s.stream, s'.stream)
  {
    match x
    case Post => BookFrame(s, w, x);
    case Ask(_) => BookFrame(s, w, x);
    case Update => BookFrame(s, w, x);
    case Append =>
    case Write =>
    case Ack(received) => assert NextWorker(s, w, x) == NextAck(s, w, received);
    case _ => ReadFrame(s, w, x);
  }

  lemma RelayingHandler(s: System, h: HandlerStep)
    requires Relaying(s.outbox, s.stream, s.relays) && HandlerEnabled(s, h)
    ensures var s' := NextHandler(s, h);
            Relaying(s'.outbox, s'.stream, s'.relays) && SameStuck(s.outbox, s'.outbox)
  {
    RelayingGrows(s.outbox, s.stream, s.relays, NextHandler(s, h).outbox);
  }

  lemma RelayingStep(s: System, a: Action)
    requires Relaying(s.outbox, s.stream, s.relays) && Enabled(s, a) && Orderly(s, a)
    ensures var s' := Next(s, a);
            Relaying(s'.outbox, s'.stream, s'.relays) && SameStuck(s.outbox, s'.outbox)
  {
    match a
    case Worker(w, x) => RelayingWorker(s, w, x);
    case Handler(h) => RelayingHandler(s, h);
    case Relay(r, y) => RelayingRelay(s, r, y);
    case SetStatus(_, _) =>
  }

  lemma EngineKeeps(g: Regime, s: System, a: Action)
    requires Core(s) && Relaying(s.outbox, s.stream, s.relays) && EngineStep(g, s, a)
    ensures var s' := Next(s, a);
            Core(s') && Relaying(s'.outbox, s'.stream, s'.relays) && SameStuck(s.outbox, s'.outbox)
  {
    CoreStep(s, a);
    RelayingStep(s, a);
  }

  lemma {:induction false} RelayingRun(g: Regime, s0: System, acts: seq<Action>, s: System)
    requires Init(s0) && EngineRun(g, s0, acts, s)
    ensures Core(s) && Relaying(s.outbox, s.stream, s.relays)
    decreases |acts|
  {
    if |acts| > 0 {
      var n := |acts| - 1;
      var m :| EngineRun(g, s0, acts[..n], m) && EngineStep(g, m, acts[n]) && s == Next(m, acts[n]);
      RelayingRun(g, s0, acts[..n], m);
      EngineKeeps(g, m, acts[n]);
    }
  }

  /**
   In every run of the engine, whatever fails: a row is published, or a message of it
   exists, only if fewer than a batch of stuck rows are ahead of it; and the stuck rows
   are exactly the rows of finished transfers that announce the end.
   */
  lemma RelayedOnlyWithinReach(g: Regime, s0: System, acts: seq<Action>, s: System, i: nat)
    requires Init(s0) && EngineRun(g, s0, acts, s) && i < |s.outbox|
    ensures s.outbox[i].published || PublishedFrom(s.stream, i) ==> StuckAhead(s.outbox, i, DECLARED) < BATCH_SIZE
    ensures Stuck(s.outbox[i], DECLARED) <==> Final(s.outbox[i].subject)
    ensures Stuck(s.outbox[i], DECLARED) ==> Finished(s.book.rows, s.outbox[i].id)
  {
    RelayingRun(g, s0, acts, s);
    EngineIsRun(g, s0, acts, s);
    if s.outbox[i].published {
      PublishedMeansPublished(g, s0, acts, s, i);
    }
    if PublishedFrom(s.stream, i) {
      SentWithinReach(s.outbox, s.stream, s.relays, i);
    }
    FinalRun(g, s0, acts, s);
    StuckIsFinal(s.book.rows, s.outbox, s.stream, s.relays, i);
  }

  lemma StuckIsFinal(rows: map<TransferId, Row>, outbox: seq<OutboxRow>, stream: seq<Message>,
                     relays: map<RelayId, RelayPc>, i: nat)
    requires Relaying(outbox, stream, relays) && FinalOk(rows, outbox) && i < |outbox|
    ensures Stuck(outbox[i], DECLARED) <==> Final(outbox[i].subject)
    ensures Stuck(outbox[i], DECLARED) ==> Finished(rows, outbox[i].id)
  {
  }

  lemma SentWithinReach(outbox: seq<OutboxRow>, stream: seq<Message>, relays: map<RelayId, RelayPc>, i: nat)
    requires Relaying(outbox, stream, relays) && PublishedFrom(stream, i)
    ensures Relayable(outbox, i)
  {
    var k :| 0 <= k < |stream| && stream[k].row == i;
    assert Relayable(outbox, stream[k].row);
  }

  // ---- The stall ----

  lemma SameStuckTrans(a: seq<OutboxRow>, b: seq<OutboxRow>, c: seq<OutboxRow>)
    requires SameStuck(a, b) && SameStuck(b, c)
    ensures SameStuck(a, c)
  {
  }

  /** Which rows are stuck never changes. */
  lemma {:induction false} StuckAlong(g: Regime, s: System, acts: seq<Action>, s': System)
    requires Core(s) && Relaying(s.outbox, s.stream, s.relays) && EngineRun(g, s, acts, s')
    ensures Core(s') && Relaying(s'.outbox, s'.stream, s'.relays) && SameStuck(s.outbox, s'.outbox)
    decreases |acts|
  {
    if |acts| > 0 {
      var n := |acts| - 1;
      var m :| EngineRun(g, s, acts[..n], m) && EngineStep(g, m, acts[n]) && s' == Next(m, acts[n]);
      StuckAlong(g, s, acts[..n], m);
      EngineKeeps(g, m, acts[n]);
      SameStuckTrans(s.outbox, m.outbox, s'.outbox);
    }
  }

  lemma {:induction false} EngineConcat(g: Regime, a: System, xs: seq<Action>, b: System, ys: seq<Action>, c: System)
    requires EngineRun(g, a, xs, b) && EngineRun(g, b, ys, c)
    ensures EngineRun(g, a, xs + ys, c)
    decreases |ys|
  {
    if |ys| == 0 {
      assert xs + ys == xs;
    } else {
      var n := |ys| - 1;
      var m :| EngineRun(g, b, ys[..n], m) && EngineStep(g, m, ys[n]) && c == Next(m, ys[n]);
      EngineConcat(g, a, xs, b, ys[..n], m);
      EngineSnoc(g, a, xs + ys[..n], m, ys[n]);
      assert xs + ys[..n] + [ys[n]] == xs + ys;
    }
  }

  lemma EngineSnoc(g: Regime, s: System, acts: seq<Action>, m: System, a: Action)
    requires EngineRun(g, s, acts, m) && EngineStep(g, m, a)
    ensures EngineRun(g, s, acts + [a], Next(m, a))
  {
    assert (acts + [a])[..|acts|] == acts;
  }

  /** Distinct transfers have distinct stuck rows. */
  lemma {:induction false} CountStuck(outbox: seq<OutboxRow>, n: nat, ids: set<TransferId>)
    requires n <= |outbox|
    requires forall id :: id in ids ==> exists j :: 0 <= j < n && outbox[j].id == id && Stuck(outbox[j], DECLARED)
    ensures |ids| <= StuckAhead(outbox, n, DECLARED)
  {
    if n == 0 {
      assert ids == {};
    } else {
      var last := outbox[n - 1];
      if Stuck(last, DECLARED) {
        CountStuck(outbox, n - 1, ids - {last.id});
        assert |ids| <= |ids - {last.id}| + 1;
      } else {
        CountStuck(outbox, n - 1, ids);
      }
    }
  }

  lemma {:induction false} StuckGrows(outbox: seq<OutboxRow>, j: nat, i: nat)
    requires j <= i <= |outbox|
    ensures StuckAhead(outbox, j, DECLARED) <= StuckAhead(outbox, i, DECLARED)
  {
    if j < i {
      StuckGrows(outbox, j, i - 1);
    }
  }

  /**
   Once a row written now would be out of reach, no outbox row written later is ever
   published in any continuation, whatever fails in it.
   */
  lemma FinishedTransfersStallTheEngine(g: Regime, s0: System, acts0: seq<Action>, s: System,
                                        acts: seq<Action>, s': System, i: nat)
    requires Init(s0) && EngineRun(g, s0, acts0, s) && !Room(s.outbox)
    requires EngineRun(g, s, acts, s') && |s.outbox| <= i < |s'.outbox|
    ensures !s'.outbox[i].published && !PublishedFrom(s'.stream, i)
  {
    RelayingRun(g, s0, acts0, s);
    StuckAlong(g, s, acts, s');
    EngineConcat(g, s0, acts0, s, acts, s');
    StuckStays(s.outbox, s'.outbox, |s.outbox|);
    StuckGrows(s'.outbox, |s.outbox|, i);
    RelayedOnlyWithinReach(g, s0, acts0 + acts, s', i);
  }

  /** The announced ends of a full batch of transfers leave no room. */
  lemma AnnouncedEndsFill(g: Regime, s0: System, acts: seq<Action>, s: System, ids: set<TransferId>)
    requires Init(s0) && EngineRun(g, s0, acts, s) && |ids| >= BATCH_SIZE
    requires forall id :: id in ids ==> HasFinalRow(s.outbox, id)
    ensures !Room(s.outbox)
  {
    forall id | id in ids
      ensures exists j :: 0 <= j < |s.outbox| && s.outbox[j].id == id && Stuck(s.outbox[j], DECLARED)
    {
      var j :| 0 <= j < |s.outbox| && s.outbox[j].id == id && Final(s.outbox[j].subject);
      RelayedOnlyWithinReach(g, s0, acts, s, j);
    }
    CountStuck(s.outbox, |s.outbox|, ids);
  }

  /** Without faults it is enough that a full batch of transfers is finished and their workers are through. */
  lemma FinishedTransfersFill(g: Regime, s0: System, acts: seq<Action>, s: System, ids: set<TransferId>)
    requires !g.faults && Init(s0) && EngineRun(g, s0, acts, s) && |ids| >= BATCH_SIZE
    requires forall id :: id in ids ==> Finished(s.book.rows, id) && !EndPending(s.workers, id)
    ensures !Room(s.outbox)
  {
    EngineIsRun(g, s0, acts, s);
    FinishedAreAnnounced(g, s0, acts, s);
    AnnouncedEndsFill(g, s0, acts, s, ids);
  }

  /** From then on a transfer created later never leaves PENDING, in any continuation. */
  lemma LaterTransfersNeverStart(g: Regime, s0: System, acts0: seq<Action>, s: System,
                                 acts: seq<Action>, s': System, id: TransferId)
    requires Init(s0) && EngineRun(g, s0, acts0, s) && !Room(s.outbox)
    requires EngineRun(g, s, acts, s') && id !in s.book.rows && id in s'.book.rows
    ensures s'.book.rows[id].state == Pending
  {
    EngineConcat(g, s0, acts0, s, acts, s');
    EngineIsRun(g, s0, acts0 + acts, s');
    MovedRun(g, s0, acts0 + acts, s');
    if HasMessage(s'.stream, id) {
      NoMessageAfterStall(g, s0, acts0, s, acts, s', id);
    }
  }

  /** Nothing belongs to a transfer that does not exist. */
  lemma Unknown(g: Regime, s0: System, acts: seq<Action>, s: System, id: TransferId)
    requires Init(s0) && EngineRun(g, s0, acts, s) && id !in s.book.rows
    ensures forall i :: 0 <= i < |s.outbox| ==> s.outbox[i].id != id
    ensures forall k :: 0 <= k < |s.stream| ==> s.stream[k].id != id
  {
    EngineIsRun(g, s0, acts, s);
    AwakeRun(g, s0, acts, s);
    EventLog.UnannouncedRun(g, s0, acts, s);
  }

  /** A message comes from an outbox row of its transfer. */
  lemma MessageHasRow(g: Regime, s0: System, acts: seq<Action>, s: System, k: nat)
    requires Init(s0) && EngineRun(g, s0, acts, s) && k < |s.stream|
    ensures s.stream[k].row < |s.outbox| && s.outbox[s.stream[k].row].id == s.stream[k].id
    ensures PublishedFrom(s.stream, s.stream[k].row)
  {
    EngineIsRun(g, s0, acts, s);
    AwakeRun(g, s0, acts, s);
  }

  lemma NoMessageAfterStall(g: Regime, s0: System, acts0: seq<Action>, s: System,
                            acts: seq<Action>, s': System, id: TransferId)
    requires Init(s0) && EngineRun(g, s0, acts0, s) && !Room(s.outbox)
    requires EngineRun(g, s, acts, s') && id !in s.book.rows
    ensures !HasMessage(s'.stream, id)
  {
    EngineConcat(g, s0, acts0, s, acts, s');
    Unknown(g, s0, acts0, s, id);
    RelayingRun(g, s0, acts0, s);
    StuckAlong(g, s, acts, s');
    forall k | 0 <= k < |s'.stream| ensures s'.stream[k].id != id {
      MessageHasRow(g, s0, acts0 + acts, s', k);
      if s'.stream[k].row >= |s.outbox| {
        FinishedTransfersStallTheEngine(g, s0, acts0, s, acts, s', s'.stream[k].row);
      }
    }
  }
}
