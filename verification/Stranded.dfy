/**
 Transfers that cannot be brought to an end. A transfer that nobody is handling and
 that nothing can wake stays as it is in every continuation of the engine; one whose
 next call must fail stays as it is as long as only it is processed. Together with
 `Recovery` this says exactly which transfers can still be finished.
 */
module Stranded {
  import opened Ledger
  import opened Transfers
  import opened Protocol
  import opened History
  import opened Progress
  import opened Wakeups
  import opened FinalRows
  import opened Relay
  import opened Engine
  import opened Recovery
  import Overdraft

  // ---- Asleep for good ----

  /** Published rows stay published. */
  ghost predicate PublishedStays(outbox: seq<OutboxRow>, outbox': seq<OutboxRow>) {
    |outbox| <= |outbox'| && forall j :: 0 <= j < |outbox| && outbox[j].published ==> outbox'[j].published
  }

  ghost predicate Unreached(outbox: seq<OutboxRow>, id: TransferId) {
    forall i: nat :: !PendingInReach(outbox, i, id)
  }

  ghost predicate Silent(stream: seq<Message>, id: TransferId) {
    forall k :: 0 <= k < |stream| && stream[k].id == id ==> stream[k].acked
  }

  ghost predicate Nobody(stream: seq<Message>, workers: map<WorkerId, WorkerPc>, id: TransferId) {
    forall w :: w in workers ==> !OnIt(stream, workers[w], id)
  }

  ghost predicate NoBatch(outbox: seq<OutboxRow>, relays: map<RelayId, RelayPc>, id: TransferId) {
    forall r, k :: r in relays && 0 <= k < |Batch(relays[r])| ==> !RowOf(outbox, Batch(relays[r])[k], id)
  }

  predicate NoRequest(handlers: map<TransferId, HandlerPc>, outbox: seq<OutboxRow>, id: TransferId) {
    !(id in handlers && handlers[id] != Gone && Room(outbox))
  }

  lemma AsleepParts(s: System, id: TransferId)
    ensures Asleep(s, id) <==>
            && id in s.book.rows
            && Silent(s.stream, id) && Unreached(s.outbox, id) && NoRequest(s.handlers, s.outbox, id)
            && Nobody(s.stream, s.workers, id) && NoBatch(s.outbox, s.relays, id)
  {
    assert AtRest(s, id) <==> Nobody(s.stream, s.workers, id) && NoBatch(s.outbox, s.relays, id);
    assert Wakeable(s, id) <==>
           !Silent(s.stream, id) || !Unreached(s.outbox, id) || !NoRequest(s.handlers, s.outbox, id);
  }

  /** Room never comes back. */
  lemma RoomShrinks(outbox: seq<OutboxRow>, outbox': seq<OutboxRow>)
    requires SameStuck(outbox, outbox') && Room(outbox')
    ensures Room(outbox)
  {
    StuckStays(outbox, outbox', |outbox|);
    StuckGrows(outbox', |outbox|, |outbox'|);
  }

  lemma UnreachedKept(outbox: seq<OutboxRow>, outbox': seq<OutboxRow>, id: TransferId)
    requires Unreached(outbox, id) && SameStuck(outbox, outbox') && PublishedStays(outbox, outbox')
    requires forall i: nat :: |outbox| <= i < |outbox'| ==> !PendingInReach(outbox', i, id)
    ensures Unreached(outbox', id)
  {
    forall i: nat | i < |outbox| ensures !PendingInReach(outbox', i, id) {
      ReachKept(outbox, outbox', i);
      assert !PendingInReach(outbox, i, id);
    }
  }

  lemma NoBatchKept(outbox: seq<OutboxRow>, stream: seq<Message>, relays: map<RelayId, RelayPc>,
                    outbox': seq<OutboxRow>, id: TransferId)
    requires NoBatch(outbox, relays, id) && Relaying(outbox, stream, relays) && SameStuck(outbox, outbox')
    ensures NoBatch(outbox', relays, id)
  {
    forall r, k | r in relays && 0 <= k < |Batch(relays[r])| ensures !RowOf(outbox', Batch(relays[r])[k], id) {
      assert BatchInReach(outbox, relays[r]);
      assert InReach(outbox, Batch(relays[r])[k]);
    }
  }

  /** The outbox changes, and with it nothing that matters to the transfer. */
  ghost predicate OutboxQuiet(s: System, outbox': seq<OutboxRow>, id: TransferId) {
    && SameStuck(s.outbox, outbox') && PublishedStays(s.outbox, outbox')
    && forall i: nat :: |s.outbox| <= i < |outbox'| ==> !PendingInReach(outbox', i, id)
  }

  lemma AsleepOutbox(s: System, s': System, id: TransferId)
    requires Asleep(s, id) && Relaying(s.outbox, s.stream, s.relays) && OutboxQuiet(s, s'.outbox, id)
    requires id in s'.book.rows && s'.stream == s.stream && s'.relays == s.relays
    requires Nobody(s.stream, s'.workers, id)
    requires Requesting(s', id) ==> Requesting(s, id)
    ensures Asleep(s', id)
  {
    AsleepParts(s, id);
    UnreachedKept(s.outbox, s'.outbox, id);
    NoBatchKept(s.outbox, s.stream, s.relays, s'.outbox, id);
    if Room(s'.outbox) {
      RoomShrinks(s.outbox, s'.outbox);
    }
    AsleepParts(s', id);
  }

  /** A worker with another transfer's message has another transfer's copy. */
  lemma Elsewhere(s: System, w: WorkerId, id: TransferId)
    requires Core(s) && HasCopy(Pc(s, w)) && !OnIt(s.stream, Pc(s, w), id)
    ensures Pc(s, w).t.id != id
  {
    assert PcOk(s.book.history, s.stream, Pc(s, w));
  }

  lemma NobodyGoto(stream: seq<Message>, workers: map<WorkerId, WorkerPc>, w: WorkerId, pc: WorkerPc, id: TransferId)
    requires Nobody(stream, workers, id) && !OnIt(stream, pc, id)
    ensures Nobody(stream, workers[w := pc], id)
  {
  }

  /** A new row of another transfer. */
  lemma QuietSnoc(s: System, row: OutboxRow, id: TransferId)
    requires row.id != id
    ensures OutboxQuiet(s, s.outbox + [row], id)
  {
  }

  lemma AsleepWrite(s: System, w: WorkerId, id: TransferId)
    requires Core(s) && Relaying(s.outbox, s.stream, s.relays) && Asleep(s, id) && WorkerEnabled(s, w, Write)
    ensures Asleep(NextWrite(s, w), id) && NextWrite(s, w).book == s.book
  {
    var pc := Pc(s, w);
    AsleepParts(s, id);
    Elsewhere(s, w, id);
    NobodyGoto(s.stream, s.workers, w, Done(pc.msg), id);
    QuietSnoc(s, OutboxRow(pc.t.id, EventFor(pc.t.state), false), id);
    AsleepOutbox(s, NextWrite(s, w), id);
  }

  /** Messages keep their content and stay acknowledged. */
  lemma SilentKept(s: System, s': System, id: TransferId, w: WorkerId, pc: WorkerPc)
    requires Asleep(s, id) && id in s'.book.rows && s'.outbox == s.outbox && s'.relays == s.relays
    requires s'.handlers == s.handlers
    requires |s'.stream| == |s.stream| && StreamGrows(s.stream, s'.stream)
    requires forall k :: 0 <= k < |s.stream| && s.stream[k].acked ==> s'.stream[k].acked
    requires s'.workers == s.workers[w := pc] && !OnIt(s.stream, pc, id)
    ensures Asleep(s', id)
  {
    AsleepParts(s, id);
    AsleepParts(s', id);
  }

  lemma AckedStays(s: System, w: WorkerId, x: WorkerStep)
    requires WorkerEnabled(s, w, x)
    ensures var stream' := NextWorker(s, w, x).stream;
            |stream'| == |s.stream| && forall k :: 0 <= k < |s.stream| && s.stream[k].acked ==> stream'[k].acked
  {
    match x
    case Post => BookFrame(s, w, x);
    case Ask(_) => BookFrame(s, w, x);
    case Update => BookFrame(s, w, x);
    case Append =>
    case Write =>
    case Ack(received) => assert NextWorker(s, w, x) == NextAck(s, w, received);
    case _ => ReadFrame(s, w, x);
  }

  /** The worker does not come to the transfer. */
  lemma StaysElsewhere(s: System, w: WorkerId, x: WorkerStep, id: TransferId)
    requires Asleep(s, id) && WorkerEnabled(s, w, x)
    ensures !OnIt(s.stream, Pc(NextWorker(s, w, x), w), id)
  {
    AsleepParts(s, id);
    if !x.Deliver? {
      SameMessage(s, w, x);
      if Pc(s, w).Done? {
        assert x.Ack? || x.Abort?;
      }
    }
  }

  lemma RowUntouched(s: System, w: WorkerId, x: WorkerStep, id: TransferId)
    requires Core(s) && Asleep(s, id) && WorkerEnabled(s, w, x)
    ensures id in NextWorker(s, w, x).book.rows && NextWorker(s, w, x).book.rows[id] == s.book.rows[id]
  {
    if x.Update? {
      AsleepParts(s, id);
      Elsewhere(s, w, id);
      UpdateTable(s, w);
    } else {
      TableFrame(s, w, x);
    }
  }

  lemma AsleepWorker(s: System, w: WorkerId, x: WorkerStep, id: TransferId)
    requires Core(s) && Relaying(s.outbox, s.stream, s.relays) && Asleep(s, id) && WorkerEnabled(s, w, x)
    ensures Asleep(NextWorker(s, w, x), id) && NextWorker(s, w, x).book.rows[id] == s.book.rows[id]
  {
    var s' := NextWorker(s, w, x);
    if x.Write? {
      AsleepWrite(s, w, id);
    } else {
      RowUntouched(s, w, x, id);
      StaysElsewhere(s, w, x, id);
      Overdraft.WorkerFrame(s, w, x);
      OutboxFrame(s, w, x);
      StreamSame(s, w, x);
      AckedStays(s, w, x);
      SilentKept(s, s', id, w, s'.workers[w]);
    }
  }

  // ---- Handlers and relays ----

  lemma AsleepRequest(s: System, id: TransferId, i: TransferId)
    requires Relaying(s.outbox, s.stream, s.relays) && Asleep(s, id) && HandlerEnabled(s, WriteRequested(i))
    ensures Asleep(NextHandler(s, WriteRequested(i)), id)
  {
    var s' := NextHandler(s, WriteRequested(i));
    AsleepParts(s, id);
    if i == id {
      StuckStays(s.outbox, s'.outbox, |s.outbox|);
      assert OutboxQuiet(s, s'.outbox, id);
    } else {
      QuietSnoc(s, OutboxRow(i, TransferRequested, false), id);
    }
    AsleepOutbox(s, s', id);
  }

  lemma AsleepHandler(s: System, h: HandlerStep, id: TransferId)
    requires Relaying(s.outbox, s.stream, s.relays) && Asleep(s, id) && HandlerEnabled(s, h)
    ensures Asleep(NextHandler(s, h), id) && NextHandler(s, h).book.rows[id] == s.book.rows[id]
  {
    if h.WriteRequested? {
      AsleepRequest(s, id, h.id);
    } else {
      AsleepParts(s, id);
      AsleepParts(NextHandler(s, h), id);
    }
  }

  /** A batch has no row of the transfer: its rows are out of reach, or would announce its end. */
  lemma AsleepSelect(s: System, r: RelayId, batch: seq<nat>, id: TransferId)
    requires Asleep(s, id) && FinalOk(s.book.rows, s.outbox) && !Finished(s.book.rows, id)
    requires RelayEnabled(s, r, Select(batch)) && IsBatch(s.outbox, BATCH_SIZE, batch)
    ensures Asleep(NextRelay(s, r, Select(batch)), id)
  {
    AsleepParts(s, id);
    BatchIsInReach(s.outbox, batch);
    forall k | 0 <= k < |batch| ensures !RowOf(s.outbox, batch[k], id) {
      assert InReach(s.outbox, Batch(Working(batch))[k]);
      assert !PendingInReach(s.outbox, batch[k], id);
    }
    AsleepParts(NextRelay(s, r, Select(batch)), id);
  }

  lemma AsleepPublish(s: System, r: RelayId, ok: bool, id: TransferId)
    requires Core(s) && Asleep(s, id) && RelayEnabled(s, r, Publish(ok))
    ensures Asleep(NextRelay(s, r, Publish(ok)), id)
  {
    var s' := NextRelay(s, r, Publish(ok));
    var pc := RelayAt(s, r);
    AsleepParts(s, id);
    assert !RowOf(s.outbox, Batch(s.relays[r])[0], id);
    forall k | 0 <= k < |pc.batch[1..]| ensures !RowOf(s.outbox, pc.batch[1..][k], id) {
      assert !RowOf(s.outbox, Batch(s.relays[r])[k + 1], id);
    }
    NobodyStream(s, s'.stream, id);
    AsleepParts(s', id);
  }

  /** New messages do not bring a worker to the transfer. */
  lemma NobodyStream(s: System, stream': seq<Message>, id: TransferId)
    requires Core(s) && Nobody(s.stream, s.workers, id) && StreamGrows(s.stream, stream')
    ensures Nobody(stream', s.workers, id)
  {
    forall w | w in s.workers ensures !OnIt(stream', s.workers[w], id) {
      assert PcOk(s.book.history, s.stream, s.workers[w]);
      assert !OnIt(s.stream, s.workers[w], id);
    }
  }

  lemma AsleepMark(s: System, r: RelayId, ok: bool, id: TransferId)
    requires Relaying(s.outbox, s.stream, s.relays) && Asleep(s, id) && RelayEnabled(s, r, Mark(ok))
    ensures Asleep(NextRelay(s, r, Mark(ok)), id)
  {
    var s' := NextRelay(s, r, Mark(ok));
    var m := s.(relays := s'.relays);
    RelayingMark(s, r, ok);
    AsleepParts(s, id);
    forall k | 0 <= k < |RelayAt(s, r).batch| ensures !RowOf(s.outbox, RelayAt(s, r).batch[k], id) {
      assert !RowOf(s.outbox, Batch(s.relays[r])[k], id);
    }
    AsleepParts(m, id);
    RelayingBack(s, s'.relays, r);
    AsleepOutbox(m, s', id);
  }

  /** Taking the marked row out of a relay's hands keeps everything within reach. */
  lemma RelayingBack(s: System, relays': map<RelayId, RelayPc>, r: RelayId)
    requires Relaying(s.outbox, s.stream, s.relays) && RelayAt(s, r).Marking?
    requires relays' == s.relays[r := Working(RelayAt(s, r).batch)]
    ensures Relaying(s.outbox, s.stream, relays')
  {
    assert BatchInReach(s.outbox, s.relays[r]);
    assert Batch(s.relays[r]) == Batch(relays'[r]);
    assert BatchInReach(s.outbox, relays'[r]);
  }

  lemma AsleepGone(s: System, r: RelayId, id: TransferId)
    requires Asleep(s, id) && RelayEnabled(s, r, RelayGone)
    ensures Asleep(NextRelay(s, r, RelayGone), id)
  {
    AsleepParts(s, id);
    AsleepParts(NextRelay(s, r, RelayGone), id);
  }

  /** What engine runs keep. */
  ghost predicate Sane(s: System) {
    Core(s) && Relaying(s.outbox, s.stream, s.relays) && FinalOk(s.book.rows, s.outbox)
  }

  lemma AsleepRelay(s: System, r: RelayId, y: RelayStep, id: TransferId)
    requires Sane(s) && Asleep(s, id) && !Finished(s.book.rows, id) && RelayEnabled(s, r, y) && Orderly(s, Relay(r, y))
    ensures Asleep(NextRelay(s, r, y), id) && NextRelay(s, r, y).book == s.book
  {
    match y
    case Select(batch) => AsleepSelect(s, r, batch, id);
    case Publish(ok) => AsleepPublish(s, r, ok, id);
    case Mark(ok) => AsleepMark(s, r, ok, id);
    case RelayGone => AsleepGone(s, r, id);
  }

  lemma AsleepStep(s: System, a: Action, id: TransferId)
    requires Sane(s) && Asleep(s, id) && !Finished(s.book.rows, id) && Enabled(s, a) && Orderly(s, a)
    ensures Asleep(Next(s, a), id) && Next(s, a).book.rows[id] == s.book.rows[id]
  {
    match a
    case Worker(w, x) => AsleepWorker(s, w, x, id);
    case Handler(h) => AsleepHandler(s, h, id);
    case Relay(r, y) => AsleepRelay(s, r, y, id);
    case SetStatus(_, _) => AsleepParts(s, id); AsleepParts(Next(s, a), id);
  }

  lemma SaneStep(s: System, a: Action)
    requires Sane(s) && EngineStep(ANY, s, a)
    ensures Sane(Next(s, a))
  {
    EngineKeeps(ANY, s, a);
    FinalStep(s, a);
  }

  lemma {:induction false} SaneRun(s: System, acts: seq<Action>, s': System)
    requires Sane(s) && EngineRun(ANY, s, acts, s')
    ensures Sane(s')
    decreases |acts|
  {
    if |acts| > 0 {
      var n := |acts| - 1;
      var m :| EngineRun(ANY, s, acts[..n], m) && EngineStep(ANY, m, acts[n]) && s' == Next(m, acts[n]);
      SaneRun(s, acts[..n], m);
      SaneStep(m, acts[n]);
    }
  }

  lemma ReachableSane(s: System)
    requires Reachable(s)
    ensures Sane(s)
  {
    ReachableOk(s);
  }

  /**
   A transfer that nobody is handling and nothing can wake stays exactly as it is in
   every continuation of the engine, whatever other transfers, faults, new requests and
   changes of accounts it contains.
   */
  lemma {:induction false} AsleepForever(s: System, acts: seq<Action>, s': System, id: TransferId)
    requires Sane(s) && Asleep(s, id) && !Finished(s.book.rows, id) && EngineRun(ANY, s, acts, s')
    ensures Asleep(s', id) && s'.book.rows[id] == s.book.rows[id]
    decreases |acts|
  {
    if |acts| > 0 {
      var n := |acts| - 1;
      var m :| EngineRun(ANY, s, acts[..n], m) && EngineStep(ANY, m, acts[n]) && s' == Next(m, acts[n]);
      AsleepForever(s, acts[..n], m, id);
      SaneRun(s, acts[..n], m);
      AsleepStep(m, acts[n], id);
    }
  }

  // ---- Payouts to the float account ----

  predicate DeadEndAt(rows: map<TransferId, Row>, id: TransferId) {
    id in rows && DeadEnd(rows[id])
  }

  /** CREDITED would need a payout between two different accounts. */
  lemma DeadEndStored(b: Book, b': Book, t: Row, id: TransferId)
    requires Stores(b, b', t) && Shape(t) && DeadEndAt(b.rows, id)
    ensures DeadEndAt(b'.rows, id)
  {
  }

  lemma UpdatingShape(s: System, w: WorkerId)
    requires Core(s) && Pc(s, w).Updating?
    ensures Shape(Pc(s, w).t)
  {
    assert PcOk(s.book.history, s.stream, Pc(s, w));
  }

  lemma DeadEndUpdate(s: System, w: WorkerId, id: TransferId)
    requires Core(s) && WorkerEnabled(s, w, Update) && DeadEndAt(s.book.rows, id)
    ensures DeadEndAt(NextUpdate(s, w).book.rows, id)
  {
    UpdateTable(s, w);
    UpdatingShape(s, w);
    if !SameTable(s.book, NextUpdate(s, w).book) {
      DeadEndStored(s.book, NextUpdate(s, w).book, Pc(s, w).t, id);
    }
  }

  lemma DeadEndWorker(s: System, w: WorkerId, x: WorkerStep, id: TransferId)
    requires Core(s) && WorkerEnabled(s, w, x) && DeadEndAt(s.book.rows, id)
    ensures DeadEndAt(NextWorker(s, w, x).book.rows, id)
  {
    if x.Update? {
      DeadEndUpdate(s, w, id);
    } else {
      TableFrame(s, w, x);
    }
  }

  lemma DeadEndHandler(s: System, h: HandlerStep, id: TransferId)
    requires HandlerEnabled(s, h) && DeadEndAt(s.book.rows, id)
    ensures DeadEndAt(NextHandler(s, h).book.rows, id)
  {
  }

  lemma DeadEndStep(s: System, a: Action, id: TransferId)
    requires Core(s) && Enabled(s, a) && DeadEndAt(s.book.rows, id)
    ensures DeadEndAt(Next(s, a).book.rows, id)
  {
    if a.Worker? {
      DeadEndWorker(s, a.w, a.x, id);
    } else if a.Handler? {
      DeadEndHandler(s, a.h, id);
    } else {
      assert Next(s, a).book == s.book;
    }
  }

  /** A bank-accepted payout to the float account itself is never posted, in any continuation. */
  lemma {:induction false} DeadEndForever(s: System, acts: seq<Action>, s': System, id: TransferId)
    requires Core(s) && DeadEndAt(s.book.rows, id) && Run(ANY, s, acts, s')
    ensures Core(s') && DeadEndAt(s'.book.rows, id)
    decreases |acts|
  {
    if |acts| > 0 {
      var n := |acts| - 1;
      var m :| Run(ANY, s, acts[..n], m) && StepOk(ANY, m, acts[n]) && s' == Next(m, acts[n]);
      DeadEndForever(s, acts[..n], m, id);
      CoreStep(m, acts[n]);
      DeadEndStep(m, acts[n], id);
    }
  }

  // ---- Blocked reservations ----

  /** How far a worker gets with a blocked reservation. */
  predicate PcBlocked(accounts: map<AccountId, Status>, r: Row, pc: WorkerPc) {
    match pc
    case Idle => true
    case Loading(_) => true
    case Done(_) => true
    case Locking(_, t) => t == r
    case Checking(_, t) => t == r && r.src in accounts
    case Booking(_, t, k, _) => t == r && k == Reserve && PostingFor(Reserve, t).Err?
    case _ => false
  }

  predicate BlockedRow(rows: map<TransferId, Row>, accounts: map<AccountId, Status>, ledger: seq<LedgerEntry>,
                       id: TransferId)
  {
    id in rows && rows[id].state == Pending && Blocked(accounts, ledger, rows[id])
  }

  ghost predicate WorkersBlocked(accounts: map<AccountId, Status>, stream: seq<Message>,
                                 workers: map<WorkerId, WorkerPc>,
                                 r: Row, id: TransferId)
  {
    forall w :: w in workers && !workers[w].Idle? && Mine(stream, workers[w].msg, id) ==>
      PcBlocked(accounts, r, workers[w])
  }

  ghost predicate Halted(s: System, id: TransferId) {
    && BlockedRow(s.book.rows, s.accounts, s.book.ledger, id)
    && WorkersBlocked(s.accounts, s.stream, s.workers, s.book.rows[id], id)
  }

  /** Rows, ledger and accounts stay, and the worker gets no further than it may. */
  lemma HaltedGoto(s: System, s': System, w: WorkerId, pc: WorkerPc, id: TransferId)
    requires Halted(s, id) && SameMoney(s, s') && s'.workers == s.workers[w := pc]
    requires |s'.stream| == |s.stream| && StreamGrows(s.stream, s'.stream)
    requires PcBlocked(s.accounts, s.book.rows[id], pc)
    ensures Halted(s', id)
  {
  }

  lemma HaltedLoad(s: System, w: WorkerId, id: TransferId)
    requires Halted(s, id) && WorkerEnabled(s, w, Load) && Mine(s.stream, Pc(s, w).msg, id)
    ensures Halted(NextLoad(s, w), id)
  {
    var m := NextLoad(s, w);
    assert m == Goto(s, w, Locking(Pc(s, w).msg, s.book.rows[id]));
    HaltedGoto(s, m, w, Locking(Pc(s, w).msg, s.book.rows[id]), id);
  }

  lemma HaltedLock(s: System, w: WorkerId, id: TransferId)
    requires Halted(s, id) && WorkerEnabled(s, w, Lock) && Mine(s.stream, Pc(s, w).msg, id)
    ensures Halted(NextLock(s, w), id)
  {
    var pc := Pc(s, w);
    assert PcBlocked(s.accounts, s.book.rows[id], pc);
    HaltedGoto(s, NextLock(s, w), w, if pc.t.src in s.accounts then Checking(pc.msg, pc.t) else Idle, id);
  }

  lemma HaltedCheck(s: System, w: WorkerId, id: TransferId)
    requires Halted(s, id) && WorkerEnabled(s, w, Check) && Mine(s.stream, Pc(s, w).msg, id)
    ensures Halted(NextCheck(s, w), id)
  {
    var pc := Pc(s, w);
    assert PcBlocked(s.accounts, s.book.rows[id], pc);
    var balance := Balance(s.book.ledger, pc.t.src, pc.t.amount.currency);
    HaltedGoto(s, NextCheck(s, w), w, if IsInt64(balance) then Booking(pc.msg, pc.t, Reserve, None) else Idle, id);
  }

  lemma HaltedDrop(s: System, w: WorkerId, id: TransferId)
    requires Halted(s, id)
    ensures Halted(Drop(s, w), id)
  {
    HaltedGoto(s, Drop(s, w), w, Idle, id);
  }

  lemma HaltedAck(s: System, w: WorkerId, received: bool, id: TransferId)
    requires Halted(s, id) && WorkerEnabled(s, w, Ack(received))
    ensures Halted(NextAck(s, w, received), id)
  {
    HaltedGoto(s, NextAck(s, w, received), w, Idle, id);
  }

  lemma HaltedWorker(s: System, w: WorkerId, x: WorkerStep, id: TransferId)
    requires Halted(s, id) && WorkerEnabled(s, w, x) && Concerns(s, Worker(w, x), id)
    ensures Halted(NextWorker(s, w, x), id)
  {
    if !Pc(s, w).Idle? && !x.Abort? {
      assert PcBlocked(s.accounts, s.book.rows[id], Pc(s, w));
    }
    match x
    case Deliver(msg) => HaltedGoto(s, Goto(s, w, Loading(msg)), w, Loading(msg), id);
    case Load => HaltedLoad(s, w, id);
    case Lock => HaltedLock(s, w, id);
    case Check => HaltedCheck(s, w, id);
    case Ack(received) => HaltedAck(s, w, received, id);
    case Post => HaltedDrop(s, w, id);
    case Abort => HaltedDrop(s, w, id);
    case _ =>
  }

  lemma HaltedHandler(s: System, h: HandlerStep, id: TransferId)
    requires Halted(s, id) && HandlerEnabled(s, h) && !h.Save?
    ensures Halted(NextHandler(s, h), id)
  {
  }

  lemma HaltedRelay(s: System, r: RelayId, y: RelayStep, id: TransferId)
    requires Core(s) && Halted(s, id) && RelayEnabled(s, r, y)
    ensures Halted(NextRelay(s, r, y), id)
  {
    var s' := NextRelay(s, r, y);
    forall w | w in s.workers && !s.workers[w].Idle? && Mine(s'.stream, s.workers[w].msg, id)
      ensures PcBlocked(s.accounts, s.book.rows[id], s.workers[w])
    {
      assert PcOk(s.book.history, s.stream, s.workers[w]);
    }
  }

  lemma HaltedStep(s: System, a: Action, id: TransferId)
    requires Core(s) && Halted(s, id) && SoloStep(id, s, a)
    ensures Halted(Next(s, a), id)
  {
    match a
    case Worker(w, x) => HaltedWorker(s, w, x, id);
    case Handler(h) => HaltedHandler(s, h, id);
    case Relay(r, y) => HaltedRelay(s, r, y, id);
    case SetStatus(_, _) =>
  }

  /** A blocked reservation stays blocked as long as only this transfer is processed. */
  lemma {:induction false} HaltedForever(s: System, acts: seq<Action>, s': System, id: TransferId)
    requires Core(s) && Halted(s, id) && SoloRun(id, s, acts, s')
    ensures Core(s') && Halted(s', id)
    decreases |acts|
  {
    if |acts| > 0 {
      var n := |acts| - 1;
      var m :| SoloRun(id, s, acts[..n], m) && SoloStep(id, m, acts[n]) && s' == Next(m, acts[n]);
      HaltedForever(s, acts[..n], m, id);
      CoreStep(m, acts[n]);
      HaltedStep(m, acts[n], id);
    }
  }

  // ---- The exact condition ----

  /** Nothing can wake the transfer, or every call for it must fail. */
  ghost predicate Stuck(s: System, id: TransferId)
    requires id in s.book.rows
  {
    !Wakeable(s, id) || Hopeless(s.accounts, s.book.ledger, s.book.rows[id])
  }

  lemma StuckForever(s: System, acts: seq<Action>, s': System, id: TransferId)
    requires Reachable(s) && id in s.book.rows && !Finished(s.book.rows, id) && AtRest(s, id) && Stuck(s, id)
    requires SoloRun(id, s, acts, s')
    ensures id in s'.book.rows && s'.book.rows[id].state == s.book.rows[id].state
  {
    ReachableSane(s);
    SoloIsEngineRun(id, s, acts, s');
    if !Wakeable(s, id) {
      AsleepForever(s, acts, s', id);
    } else if DeadEnd(s.book.rows[id]) {
      EngineIsRun(ANY, s, acts, s');
      DeadEndForever(s, acts, s', id);
    } else {
      RestMeansHalted(s, id);
      HaltedForever(s, acts, s', id);
    }
  }

  lemma RestMeansHalted(s: System, id: TransferId)
    requires AtRest(s, id) && BlockedRow(s.book.rows, s.accounts, s.book.ledger, id)
    ensures Halted(s, id)
  {
    forall w | w in s.workers && !s.workers[w].Idle? && Mine(s.stream, s.workers[w].msg, id)
      ensures PcBlocked(s.accounts, s.book.rows[id], s.workers[w])
    {
      assert !OnIt(s.stream, s.workers[w], id);
    }
  }

  /**
   From every reachable state in which nobody is in the middle of handling it, whatever
   has failed before, an unfinished transfer can be brought to an end by its own messages
   if and only if it can be woken and its calls need not fail: an unacknowledged message,
   a pending outbox row with fewer than a batch of stuck rows ahead, or a handler about to
   write such a row; and neither a bank-accepted payout to the float account nor a
   reservation from a missing, unreadable or float account.
   */
  lemma RecoverableExactly(s: System, id: TransferId)
    requires Reachable(s) && id in s.book.rows && !Finished(s.book.rows, id) && AtRest(s, id)
    ensures (exists s' :: Leads(id, s, s') && Finished(s'.book.rows, id)) <==> !Stuck(s, id)
  {
    if Stuck(s, id) {
      forall s' | Leads(id, s, s') ensures !Finished(s'.book.rows, id) {
        var acts :| SoloRun(id, s, acts, s');
        StuckForever(s, acts, s', id);
      }
    } else {
      var s' := Finish(s, id);
    }
  }

  // ---- After a restart ----

  /** Nothing is lost but the processes. */
  predicate Restarted(s: System, m: System) {
    TablesIn(m) == TablesIn(s) && m.accounts == s.accounts && m.stream == s.stream && m.handlers == s.handlers
  }

  lemma {:induction false} StopWorkers(id: TransferId, s: System, m: System, busy: set<WorkerId>) returns (m': System)
    requires Leads(id, s, m) && Restarted(s, m) && forall w :: w in m.workers && !m.workers[w].Idle? ==> w in busy
    ensures Leads(id, s, m') && Restarted(s, m') && m'.relays == m.relays
    ensures forall w :: w in m'.workers ==> m'.workers[w].Idle?
    decreases |busy|
  {
    m' := m;
    if busy != {} {
      var w :| w in busy;
      if !Pc(m, w).Idle? {
        Onward(id, s, m, Worker(w, Abort));
        m' := Drop(m, w);
      }
      m' := StopWorkers(id, s, m', busy - {w});
    }
  }

  lemma {:induction false} StopRelays(id: TransferId, s: System, m: System, busy: set<RelayId>) returns (m': System)
    requires Leads(id, s, m) && Restarted(s, m) && forall r :: r in m.relays && !m.relays[r].Resting? ==> r in busy
    ensures Leads(id, s, m') && Restarted(s, m') && m'.workers == m.workers
    ensures forall r :: r in m'.relays ==> m'.relays[r].Resting?
    decreases |busy|
  {
    m' := m;
    if busy != {} {
      var r :| r in busy;
      if !RelayAt(m, r).Resting? {
        Onward(id, s, m, Relay(r, RelayGone));
        m' := NextRelay(m, r, RelayGone);
      }
      m' := StopRelays(id, s, m', busy - {r});
    }
  }

  /** Whatever is going on, all workers and relays may stop. */
  lemma StopAll(s: System, id: TransferId) returns (m: System)
    ensures Leads(id, s, m) && Restarted(s, m) && AtRest(m, id)
  {
    Here(id, s);
    m := StopWorkers(id, s, s, s.workers.Keys);
    m := StopRelays(id, s, m, m.relays.Keys);
  }

  lemma RestartedStuck(s: System, m: System, id: TransferId)
    requires Restarted(s, m) && id in s.book.rows
    ensures Stuck(m, id) == Stuck(s, id)
  {
    assert UnackedMessage(m, id) == UnackedMessage(s, id);
  }

  /**
   The same for every reachable state, whoever is in the middle of something: once the
   processes have stopped, with nothing else lost, the condition read off the state before
   decides whether the transfer can be brought to an end.
   */
  lemma RecoverableAfterRestart(s: System, id: TransferId) returns (m: System)
    requires Reachable(s) && id in s.book.rows && !Finished(s.book.rows, id)
    ensures Leads(id, s, m) && Restarted(s, m) && AtRest(m, id)
    ensures (exists s' :: Leads(id, m, s') && Finished(s'.book.rows, id)) <==> !Stuck(s, id)
  {
    m := StopAll(s, id);
    StillReachable(id, s, m);
    RestartedStuck(s, m, id);
    RecoverableExactly(m, id);
  }
}
