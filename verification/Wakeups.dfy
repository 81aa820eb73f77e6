/**
 At-least-once processing: a transfer that is not finished always has a pending
 outbox row or an unacknowledged message, because a message is acked only after an
 Execute that found a terminal row or wrote a newer outbox row.
 */
module Wakeups {
  import opened Ledger
  import opened Transfers
  import opened Protocol
  import opened History

  predicate Finished(rows: map<TransferId, Row>, id: TransferId) {
    id in rows && Terminal(rows[id].state)
  }

  /** The transfer has a message published from outbox row `i`. */
  ghost predicate PublishedFrom(stream: seq<Message>, i: nat) {
    exists k :: 0 <= k < |stream| && stream[k].row == i
  }

  /** The message may be forgotten: its transfer is finished, or a later outbox row carries on. */
  ghost predicate Superseded(rows: map<TransferId, Row>, outbox: seq<OutboxRow>, m: Message) {
    Finished(rows, m.id) || exists j :: m.row < j < |outbox| && outbox[j].id == m.id
  }

  ghost predicate MessagesOk(rows: map<TransferId, Row>, outbox: seq<OutboxRow>, stream: seq<Message>) {
    forall k :: 0 <= k < |stream| ==>
      && stream[k].row < |outbox| && outbox[stream[k].row].id == stream[k].id
      && (stream[k].acked ==> Superseded(rows, outbox, stream[k]))
  }

  ghost predicate OutboxOk(outbox: seq<OutboxRow>, stream: seq<Message>) {
    forall i :: 0 <= i < |outbox| && outbox[i].published ==> PublishedFrom(stream, i)
  }

  ghost predicate RelaysOk(stream: seq<Message>, relays: map<RelayId, RelayPc>) {
    forall r :: r in relays && relays[r].Marking? ==> PublishedFrom(stream, relays[r].row)
  }

  ghost predicate DonesOk(rows: map<TransferId, Row>, outbox: seq<OutboxRow>, stream: seq<Message>,
                          workers: map<WorkerId, WorkerPc>)
  {
    forall w :: w in workers && workers[w].Done? ==>
      workers[w].msg < |stream| && Superseded(rows, outbox, stream[workers[w].msg])
  }

  ghost predicate Awake(s: System) {
    && MessagesOk(s.book.rows, s.outbox, s.stream)
    && OutboxOk(s.outbox, s.stream)
    && RelaysOk(s.stream, s.relays)
    && DonesOk(s.book.rows, s.outbox, s.stream, s.workers)
  }

  // ---- Monotonicity ----

  /** Finished transfers stay finished; outbox rows and messages stay, apart from published and acked. */
  ghost predicate FinishedKept(rows: map<TransferId, Row>, rows': map<TransferId, Row>) {
    forall id :: Finished(rows, id) ==> Finished(rows', id)
  }

  ghost predicate OutboxKept(outbox: seq<OutboxRow>, outbox': seq<OutboxRow>) {
    |outbox| <= |outbox'| && forall i :: 0 <= i < |outbox| ==> outbox'[i].id == outbox[i].id
  }

  lemma SupersededKept(rows: map<TransferId, Row>, outbox: seq<OutboxRow>,
                       rows': map<TransferId, Row>, outbox': seq<OutboxRow>, m: Message)
    requires Superseded(rows, outbox, m) && FinishedKept(rows, rows') && OutboxKept(outbox, outbox')
    ensures Superseded(rows', outbox', m)
  {
    if !Finished(rows, m.id) {
      var j :| m.row < j < |outbox| && outbox[j].id == m.id;
      assert outbox'[j].id == m.id;
    }
  }

  lemma TablesGrow(s: System, rows': map<TransferId, Row>, outbox': seq<OutboxRow>)
    requires Awake(s) && FinishedKept(s.book.rows, rows') && OutboxKept(s.outbox, outbox')
    ensures MessagesOk(rows', outbox', s.stream) && DonesOk(rows', outbox', s.stream, s.workers)
  {
    forall m: Message | Superseded(s.book.rows, s.outbox, m) ensures Superseded(rows', outbox', m) {
      SupersededKept(s.book.rows, s.outbox, rows', outbox', m);
    }
  }

  // ---- Preservation ----

  /** Only a transfer that is not finished can be updated. */
  lemma FinishedStep(s: System, a: Action)
    requires Core(s) && Enabled(s, a)
    ensures FinishedKept(s.book.rows, Next(s, a).book.rows)
  {
    if a.Worker? {
      FinishedWorker(s, a.w, a.x);
    } else if a.Handler? && a.h.Save? {
      assert Next(s, a).book.rows == s.book.rows[a.h.row.id := a.h.row];
    } else {
      assert Next(s, a).book == s.book;
    }
  }

  lemma FinishedWorker(s: System, w: WorkerId, x: WorkerStep)
    requires Core(s) && WorkerEnabled(s, w, x)
    ensures FinishedKept(s.book.rows, NextWorker(s, w, x).book.rows)
  {
    if x.Update? {
      FinishedUpdate(s, w);
    } else {
      TableFrame(s, w, x);
    }
  }

  lemma FinishedStored(b: Book, b': Book, t: Row)
    requires Stores(b, b', t)
    ensures FinishedKept(b.rows, b'.rows)
  {
  }

  lemma FinishedUpdate(s: System, w: WorkerId)
    requires Core(s) && WorkerEnabled(s, w, Update)
    ensures FinishedKept(s.book.rows, NextUpdate(s, w).book.rows)
  {
    UpdateTable(s, w);
    if !SameTable(s.book, NextUpdate(s, w).book) {
      FinishedStored(s.book, NextUpdate(s, w).book, Pc(s, w).t);
    }
  }

  /** A worker step that leaves the outbox and stream, and does not end in Done. */
  lemma AwakeWorker(s: System, w: WorkerId, s': System)
    requires Awake(s) && FinishedKept(s.book.rows, s'.book.rows)
    requires s'.outbox == s.outbox && s'.stream == s.stream && s'.relays == s.relays
    requires w in s'.workers && s'.workers == s.workers[w := s'.workers[w]]
    requires s'.workers[w].Done? ==>
               s'.workers[w].msg < |s.stream| && Superseded(s'.book.rows, s.outbox, s.stream[s'.workers[w].msg])
    ensures Awake(s')
  {
    TablesGrow(s, s'.book.rows, s.outbox);
  }

  lemma AwakeLoad(s: System, w: WorkerId)
    requires Core(s) && Awake(s) && WorkerEnabled(s, w, Load)
    ensures Awake(NextLoad(s, w))
  {
    var msg := Pc(s, w).msg;
    var id := s.stream[msg].id;
    if id in s.book.rows {
      CurrentIsVersion(s, id);
      VersionShape(s, s.book.rows[id]);
      DispatchDone(s.book.rows[id], msg);
    }
    AwakeWorker(s, w, NextLoad(s, w));
  }

  /** Execute returns nil right after loading only for a terminal row. */
  lemma DispatchDone(t: Row, msg: nat)
    requires Shape(t)
    ensures Dispatch(msg, t).Done? <==> Terminal(t.state)
    ensures Dispatch(msg, t).Done? ==> Dispatch(msg, t).msg == msg
  {
  }

  lemma AwakeWrite(s: System, w: WorkerId)
    requires Core(s) && Awake(s) && WorkerEnabled(s, w, Write)
    ensures Awake(NextWrite(s, w))
  {
    var pc := Pc(s, w);
    var outbox' := NextWrite(s, w).outbox;
    var m := s.stream[pc.msg];
    TablesGrow(s, s.book.rows, outbox');
    assert outbox'[|s.outbox|].id == m.id && m.row < |s.outbox|;
    assert Superseded(s.book.rows, outbox', m);
  }

  lemma AwakeAck(s: System, w: WorkerId, received: bool)
    requires Awake(s) && WorkerEnabled(s, w, Ack(received))
    ensures Awake(NextAck(s, w, received))
  {
    var s' := NextAck(s, w, received);
    SameSources(s.stream, s'.stream, s.outbox, s.relays);
    forall k | 0 <= k < |s.stream| && (s.stream[k].acked || k == Pc(s, w).msg)
      ensures Superseded(s.book.rows, s.outbox, s'.stream[k])
    {
      assert Superseded(s.book.rows, s.outbox, s.stream[k]);
    }
  }

  /** Publishing is judged by the source rows of messages only. */
  lemma SameSources(stream: seq<Message>, stream': seq<Message>, outbox: seq<OutboxRow>, relays: map<RelayId, RelayPc>)
    requires StreamGrows(stream, stream') && OutboxOk(outbox, stream) && RelaysOk(stream, relays)
    ensures OutboxOk(outbox, stream') && RelaysOk(stream', relays)
    ensures forall i: nat :: PublishedFrom(stream, i) ==> PublishedFrom(stream', i)
  {
    forall i: nat | PublishedFrom(stream, i) ensures PublishedFrom(stream', i) {
      var k :| 0 <= k < |stream| && stream[k].row == i;
      assert stream'[k].row == i;
    }
  }

  /** The steps at which the saga cannot return nil. */
  predicate Busy(x: WorkerStep) {
    x.Deliver? || x.Lock? || x.Check? || x.Post? || x.Ask? || x.Update? || x.Append? || x.Abort?
  }

  lemma BookingNotDone(s: System, w: WorkerId)
    requires Core(s) && WorkerEnabled(s, w, Post)
    ensures !Pc(NextPost(s, w), w).Done?
  {
    var pc := Pc(s, w);
    VersionShape(s, pc.t);
    if PostingFor(pc.kind, pc.t).Ok? {
      PostLands(s, pc.msg, pc.t, pc.kind, |s.book.log|);
    }
  }

  lemma AskingNotDone(s: System, w: WorkerId, reply: Reply)
    requires Core(s) && WorkerEnabled(s, w, Ask(reply))
    ensures !Pc(NextAsk(s, w, reply), w).Done?
  {
    VersionShape(s, Pc(s, w).t);
    AskLands(s, Pc(s, w).msg, Pc(s, w).t, reply, |s.book.log|);
  }

  lemma UpdatingNotDone(s: System, w: WorkerId)
    requires Core(s) && WorkerEnabled(s, w, Update)
    ensures !Pc(NextUpdate(s, w), w).Done?
  {
    var pc := Pc(s, w);
    assert Shape(pc.t);
    assert !AfterUpdate(pc.msg, pc.t).Done?;
  }

  lemma LockingNotDone(s: System, w: WorkerId)
    requires Core(s) && WorkerEnabled(s, w, Lock)
    ensures !Pc(NextLock(s, w), w).Done?
  {
    assert PcOk(s.book.history, s.stream, Pc(s, w));
  }

  lemma CheckingNotDone(s: System, w: WorkerId)
    requires Core(s) && WorkerEnabled(s, w, Check)
    ensures !Pc(NextCheck(s, w), w).Done?
  {
    assert PcOk(s.book.history, s.stream, Pc(s, w));
  }

  lemma BusyNotDone(s: System, w: WorkerId, x: WorkerStep)
    requires Core(s) && WorkerEnabled(s, w, x) && Busy(x)
    ensures !Pc(NextWorker(s, w, x), w).Done?
  {
    if x.Post? {
      BookingNotDone(s, w);
    } else if x.Ask? {
      AskingNotDone(s, w, x.reply);
    } else if x.Update? {
      UpdatingNotDone(s, w);
    } else if x.Lock? {
      LockingNotDone(s, w);
    } else if x.Check? {
      CheckingNotDone(s, w);
    }
  }

  lemma BusyFrame(s: System, w: WorkerId, x: WorkerStep)
    requires WorkerEnabled(s, w, x) && Busy(x)
    ensures var s' := NextWorker(s, w, x);
            OnlyWorker(s, s', w) && s'.outbox == s.outbox && s'.stream == s.stream
  {
    if x.Post? || x.Ask? || x.Update? {
      BookFrame(s, w, x);
    } else if !x.Append? {
      ReadFrame(s, w, x);
    }
  }

  lemma AwakeWorkerStep(s: System, w: WorkerId, x: WorkerStep)
    requires Core(s) && Awake(s) && WorkerEnabled(s, w, x)
    requires FinishedKept(s.book.rows, NextWorker(s, w, x).book.rows)
    ensures Awake(NextWorker(s, w, x))
  {
    if Busy(x) {
      BusyNotDone(s, w, x);
      BusyFrame(s, w, x);
      AwakeWorker(s, w, NextWorker(s, w, x));
    } else if x.Load? {
      AwakeLoad(s, w);
    } else if x.Write? {
      AwakeWrite(s, w);
    } else {
      AwakeAck(s, w, x.received);
    }
  }

  lemma AwakePublish(s: System, r: RelayId)
    requires Awake(s) && RelayEnabled(s, r, Publish(true))
    ensures Awake(NextRelay(s, r, Publish(true)))
  {
    var s' := NextRelay(s, r, Publish(true));
    SameSources(s.stream, s'.stream, s.outbox, s.relays);
    assert s'.stream[|s.stream|].row == RelayAt(s, r).batch[0];
  }

  lemma AwakeMark(s: System, r: RelayId)
    requires Awake(s) && RelayEnabled(s, r, Mark(true))
    ensures Awake(NextRelay(s, r, Mark(true)))
  {
    TablesGrow(s, s.book.rows, NextRelay(s, r, Mark(true)).outbox);
  }

  lemma AwakeRelayStep(s: System, r: RelayId, y: RelayStep)
    requires Awake(s) && RelayEnabled(s, r, y)
    ensures Awake(NextRelay(s, r, y))
  {
    if y == Publish(true) {
      AwakePublish(s, r);
    } else if y == Mark(true) {
      AwakeMark(s, r);
    }
  }

  lemma AwakeHandlerStep(s: System, h: HandlerStep)
    requires Awake(s) && HandlerEnabled(s, h)
    requires FinishedKept(s.book.rows, NextHandler(s, h).book.rows)
    ensures Awake(NextHandler(s, h))
  {
    var s' := NextHandler(s, h);
    TablesGrow(s, s'.book.rows, s'.outbox);
  }

  lemma AwakeStep(s: System, a: Action)
    requires Core(s) && Awake(s) && Enabled(s, a)
    ensures Awake(Next(s, a))
  {
    FinishedStep(s, a);
    match a {
      case Handler(h) => AwakeHandlerStep(s, h);
      case Worker(w, x) => AwakeWorkerStep(s, w, x);
      case Relay(r, y) => AwakeRelayStep(s, r, y);
      case SetStatus(_, _) =>
    }
  }

  lemma {:induction false} AwakeRun(g: Regime, s0: System, acts: seq<Action>, s: System)
    requires Init(s0) && Run(g, s0, acts, s)
    ensures Core(s) && Awake(s)
    decreases |acts|
  {
    if |acts| > 0 {
      var n := |acts| - 1;
      var m :| Run(g, s0, acts[..n], m) && StepOk(g, m, acts[n]) && s == Next(m, acts[n]);
      AwakeRun(g, s0, acts[..n], m);
      CoreStep(m, acts[n]);
      AwakeStep(m, acts[n]);
    }
  }

  // ---- Theorems ----

  ghost predicate PendingRow(s: System, id: TransferId) {
    exists i :: 0 <= i < |s.outbox| && s.outbox[i].id == id && !s.outbox[i].published
  }

  ghost predicate UnackedMessage(s: System, id: TransferId) {
    exists k :: 0 <= k < |s.stream| && s.stream[k].id == id && !s.stream[k].acked
  }

  /** The newest outbox row of a transfer. */
  lemma {:induction false} LastRow(outbox: seq<OutboxRow>, id: TransferId, i: nat) returns (last: nat)
    requires i < |outbox| && outbox[i].id == id
    ensures last < |outbox| && outbox[last].id == id
    ensures forall j :: last < j < |outbox| ==> outbox[j].id != id
  {
    last := |outbox| - 1;
    while outbox[last].id != id
      decreases last
      invariant i <= last < |outbox|
      invariant forall j :: last < j < |outbox| ==> outbox[j].id != id
    {
      last := last - 1;
    }
  }

  /** Once an outbox row exists, an unfinished transfer is awake. */
  lemma AwakeMeans(s: System, id: TransferId, i: nat)
    requires Awake(s) && i < |s.outbox| && s.outbox[i].id == id
    ensures Finished(s.book.rows, id) || PendingRow(s, id) || UnackedMessage(s, id)
  {
    var last := LastRow(s.outbox, id, i);
    if s.outbox[last].published {
      var k :| 0 <= k < |s.stream| && s.stream[k].row == last;
      assert s.stream[k].id == id;
    }
  }

  /** Wake-ups are never lost, in any run with worker or relay crashes, errors and duplicates. */
  lemma WakeUpsAreNeverLost(g: Regime, s0: System, acts: seq<Action>, s: System, id: TransferId, i: nat)
    requires Init(s0) && Run(g, s0, acts, s)
    requires i < |s.outbox| && s.outbox[i].id == id
    ensures Finished(s.book.rows, id) || PendingRow(s, id) || UnackedMessage(s, id)
  {
    AwakeRun(g, s0, acts, s);
    AwakeMeans(s, id, i);
  }

  /** A row marked PUBLISHED was truly published. */
  lemma PublishedMeansPublished(g: Regime, s0: System, acts: seq<Action>, s: System, i: nat)
    requires Init(s0) && Run(g, s0, acts, s) && i < |s.outbox| && s.outbox[i].published
    ensures PublishedFrom(s.stream, i)
  {
    AwakeRun(g, s0, acts, s);
  }
}
