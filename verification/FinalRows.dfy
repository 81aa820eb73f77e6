/**
 The outbox rows that announce the end of a transfer. In every run they belong to
 finished transfers only, and without faults every finished transfer has one or is
 about to get it. A transfer that has left PENDING has had a message.
 */
module FinalRows {
  import opened Ledger
  import opened Transfers
  import opened Protocol
  import opened History
  import opened Wakeups

  predicate Final(subject: EventType) {
    subject == TransferCompleted || subject == TransferFailed
  }

  // ---- Final rows are of finished transfers ----

  ghost predicate FinalOk(rows: map<TransferId, Row>, outbox: seq<OutboxRow>) {
    forall j :: 0 <= j < |outbox| && Final(outbox[j].subject) ==> Finished(rows, outbox[j].id)
  }

  /** Nothing follows a terminal version. */
  lemma TerminalIsLast(h: seq<Row>, k: nat)
    requires Path(h) && k < |h| && Terminal(h[k].state)
    ensures k == |h| - 1
  {
    assert StepAt(h, k + 1);
  }

  lemma TerminalIsCurrent(s: System, t: Row)
    requires Core(s) && IsVersion(s.book.history, t) && Terminal(t.state)
    ensures Finished(s.book.rows, t.id)
  {
    TerminalIsLast(s.book.history[t.id], t.version - 1);
  }

  lemma WritingVersion(s: System, w: WorkerId)
    requires Core(s) && Pc(s, w).Writing?
    ensures Terminal(Pc(s, w).t.state) ==> Finished(s.book.rows, Pc(s, w).t.id)
    ensures Pc(s, w).t.state != Compensating
  {
    assert PcOk(s.book.history, s.stream, Pc(s, w));
    if Terminal(Pc(s, w).t.state) {
      TerminalIsCurrent(s, Pc(s, w).t);
    }
  }

  /** What a step appends to the outbox, if anything. */
  ghost predicate OutboxStep(outbox: seq<OutboxRow>, outbox': seq<OutboxRow>) {
    && |outbox| <= |outbox'|
    && forall j :: 0 <= j < |outbox| ==> outbox'[j].id == outbox[j].id && outbox'[j].subject == outbox[j].subject
  }

  lemma FinalKept(rows: map<TransferId, Row>, outbox: seq<OutboxRow>, rows': map<TransferId, Row>,
                  outbox': seq<OutboxRow>)
    requires FinalOk(rows, outbox) && FinishedKept(rows, rows') && OutboxStep(outbox, outbox')
    requires forall j :: |outbox| <= j < |outbox'| && Final(outbox'[j].subject) ==> Finished(rows', outbox'[j].id)
    ensures FinalOk(rows', outbox')
  {
  }

  lemma FinalWrite(s: System, w: WorkerId)
    requires Core(s) && FinalOk(s.book.rows, s.outbox) && WorkerEnabled(s, w, Write)
    ensures FinalOk(s.book.rows, NextWrite(s, w).outbox)
  {
    WritingVersion(s, w);
    FinalKept(s.book.rows, s.outbox, s.book.rows, NextWrite(s, w).outbox);
  }

  /** Apart from Write a worker leaves the outbox alone. */
  lemma OutboxFrame(s: System, w: WorkerId, x: WorkerStep)
    requires WorkerEnabled(s, w, x) && !x.Write?
    ensures NextWorker(s, w, x).outbox == s.outbox
  {
    match x
    case Post => BookFrame(s, w, x);
    case Ask(_) => BookFrame(s, w, x);
    case Update => BookFrame(s, w, x);
    case Append =>
    case Ack(_) =>
    case _ => ReadFrame(s, w, x);
  }

  lemma FinalWorker(s: System, w: WorkerId, x: WorkerStep)
    requires Core(s) && FinalOk(s.book.rows, s.outbox) && WorkerEnabled(s, w, x)
    requires FinishedKept(s.book.rows, NextWorker(s, w, x).book.rows)
    ensures FinalOk(NextWorker(s, w, x).book.rows, NextWorker(s, w, x).outbox)
  {
    if x.Write? {
      FinalWrite(s, w);
    } else {
      OutboxFrame(s, w, x);
    }
  }

  lemma FinalStep(s: System, a: Action)
    requires Core(s) && FinalOk(s.book.rows, s.outbox) && Enabled(s, a)
    ensures FinalOk(Next(s, a).book.rows, Next(s, a).outbox)
  {
    FinishedStep(s, a);
    match a
    case Worker(w, x) => FinalWorker(s, w, x);
    case Handler(h) => FinalKept(s.book.rows, s.outbox, NextHandler(s, h).book.rows, NextHandler(s, h).outbox);
    case Relay(r, y) => FinalKept(s.book.rows, s.outbox, NextRelay(s, r, y).book.rows, NextRelay(s, r, y).outbox);
    case SetStatus(_, _) =>
  }

  lemma {:induction false} FinalRun(g: Regime, s0: System, acts: seq<Action>, s: System)
    requires Init(s0) && Run(g, s0, acts, s)
    ensures FinalOk(s.book.rows, s.outbox)
    decreases |acts|
  {
    if |acts| > 0 {
      var n := |acts| - 1;
      var m :| Run(g, s0, acts[..n], m) && StepOk(g, m, acts[n]) && s == Next(m, acts[n]);
      CoreRun(g, s0, acts[..n], m);
      FinalRun(g, s0, acts[..n], m);
      FinalStep(m, acts[n]);
    }
  }

  // ---- Without faults, finished transfers have final rows ----

  ghost predicate HasFinalRow(outbox: seq<OutboxRow>, id: TransferId) {
    exists j :: 0 <= j < |outbox| && outbox[j].id == id && Final(outbox[j].subject)
  }

  predicate AnnouncesEnd(pc: WorkerPc, id: TransferId) {
    (pc.Appending? || pc.Writing?) && pc.t.id == id && Terminal(pc.t.state)
  }

  /** A worker has stored the end of the transfer and is about to announce it. */
  ghost predicate EndPending(workers: map<WorkerId, WorkerPc>, id: TransferId) {
    exists w :: w in workers && AnnouncesEnd(workers[w], id)
  }

  ghost predicate Announced(rows: map<TransferId, Row>, outbox: seq<OutboxRow>, workers: map<WorkerId, WorkerPc>) {
    forall id :: Finished(rows, id) ==> HasFinalRow(outbox, id) || EndPending(workers, id)
  }

  /** A worker that was not about to announce anything goes elsewhere. */
  lemma PendingKept(workers: map<WorkerId, WorkerPc>, w: WorkerId, pc: WorkerPc, id: TransferId)
    requires EndPending(workers, id) && (w in workers && AnnouncesEnd(workers[w], id) ==> AnnouncesEnd(pc, id))
    ensures EndPending(workers[w := pc], id)
  {
    var v :| v in workers && AnnouncesEnd(workers[v], id);
    assert AnnouncesEnd(workers[w := pc][v], id);
  }

  lemma FinalRowKept(outbox: seq<OutboxRow>, outbox': seq<OutboxRow>, id: TransferId)
    requires OutboxStep(outbox, outbox') && HasFinalRow(outbox, id)
    ensures HasFinalRow(outbox', id)
  {
    var j :| 0 <= j < |outbox| && outbox[j].id == id && Final(outbox[j].subject);
    assert outbox'[j].id == id;
  }

  /** The worker's step leaves rows and outbox alone. */
  lemma AnnouncedGoto(rows: map<TransferId, Row>, outbox: seq<OutboxRow>, workers: map<WorkerId, WorkerPc>,
                      w: WorkerId, pc: WorkerPc)
    requires Announced(rows, outbox, workers)
    requires forall id :: w in workers && AnnouncesEnd(workers[w], id) ==> AnnouncesEnd(pc, id)
    ensures Announced(rows, outbox, workers[w := pc])
  {
    forall id | Finished(rows, id) && !HasFinalRow(outbox, id) ensures EndPending(workers[w := pc], id) {
      PendingKept(workers, w, pc, id);
    }
  }

  lemma AnnouncedStored(rows: map<TransferId, Row>, outbox: seq<OutboxRow>, workers: map<WorkerId, WorkerPc>,
                        w: WorkerId, pc: WorkerPc, t: Row)
    requires Announced(rows, outbox, workers) && w in workers && workers[w].Updating?
    requires Terminal(t.state) ==> AnnouncesEnd(pc, t.id)
    ensures Announced(rows[t.id := t], outbox, workers[w := pc])
  {
    AnnouncedGoto(rows, outbox, workers, w, pc);
    assert w in workers[w := pc] && workers[w := pc][w] == pc;
    assert forall id :: id != t.id && Finished(rows[t.id := t], id) ==> Finished(rows, id);
  }

  lemma AnnouncedSuccess(s: System, w: WorkerId)
    requires Core(s) && Announced(s.book.rows, s.outbox, s.workers) && Pc(s, w).Updating?
    requires s.book.rows[Pc(s, w).t.id].version == Pc(s, w).t.version - 1
    ensures var s' := NextUpdate(s, w); Announced(s'.book.rows, s'.outbox, s'.workers)
  {
    var pc := Pc(s, w);
    UpdateSucceeds(s, w);
    EndIsAnnounced(pc.msg, pc.t);
    AnnouncedStored(s.book.rows, s.outbox, s.workers, w, AfterUpdate(pc.msg, pc.t), pc.t);
  }

  lemma EndIsAnnounced(msg: nat, t: Row)
    ensures Terminal(t.state) ==> AnnouncesEnd(AfterUpdate(msg, t), t.id)
  {
  }

  lemma AnnouncedUpdate(s: System, w: WorkerId)
    requires Core(s) && Announced(s.book.rows, s.outbox, s.workers) && WorkerEnabled(s, w, Update)
    ensures var s' := NextUpdate(s, w); Announced(s'.book.rows, s'.outbox, s'.workers)
  {
    var t := Pc(s, w).t;
    if s.book.rows[t.id].version == t.version - 1 {
      AnnouncedSuccess(s, w);
    } else {
      assert NextUpdate(s, w) == Drop(s, w);
      AnnouncedGoto(s.book.rows, s.outbox, s.workers, w, Idle);
    }
  }

  lemma AnnouncedWrite(s: System, w: WorkerId)
    requires Announced(s.book.rows, s.outbox, s.workers) && WorkerEnabled(s, w, Write)
    ensures var s' := NextWrite(s, w); Announced(s'.book.rows, s'.outbox, s'.workers)
  {
    var s' := NextWrite(s, w);
    var t := Pc(s, w).t;
    assert s'.outbox[|s.outbox|].id == t.id;
    forall id | Finished(s.book.rows, id) ensures HasFinalRow(s'.outbox, id) || EndPending(s'.workers, id) {
      if HasFinalRow(s.outbox, id) {
        FinalRowKept(s.outbox, s'.outbox, id);
      } else if !AnnouncesEnd(s.workers[w], id) {
        PendingKept(s.workers, w, Done(Pc(s, w).msg), id);
      }
    }
  }

  /** A worker that is not storing or announcing leaves the table alone. */
  lemma AnnouncedOther(s: System, w: WorkerId, x: WorkerStep)
    requires Announced(s.book.rows, s.outbox, s.workers) && WorkerEnabled(s, w, x)
    requires !x.Update? && !x.Write? && !x.Append? && !x.Abort?
    ensures var s' := NextWorker(s, w, x); Announced(s'.book.rows, s'.outbox, s'.workers)
  {
    var s' := NextWorker(s, w, x);
    TableFrame(s, w, x);
    OutboxFrame(s, w, x);
    assert OnlyWorker(s, s', w) by {
      match x
      case Post => BookFrame(s, w, x);
      case Ask(_) => BookFrame(s, w, x);
      case Ack(_) =>
      case _ => ReadFrame(s, w, x);
    }
    AnnouncedGoto(s.book.rows, s.outbox, s.workers, w, s'.workers[w]);
  }

  lemma AnnouncedWorker(s: System, w: WorkerId, x: WorkerStep)
    requires Core(s) && Announced(s.book.rows, s.outbox, s.workers) && WorkerEnabled(s, w, x) && !x.Abort?
    ensures var s' := NextWorker(s, w, x); Announced(s'.book.rows, s'.outbox, s'.workers)
  {
    match x
    case Update => AnnouncedUpdate(s, w);
    case Write => AnnouncedWrite(s, w);
    case Append => AnnouncedGoto(s.book.rows, s.outbox, s.workers, w, Writing(Pc(s, w).msg, Pc(s, w).t));
    case _ => AnnouncedOther(s, w, x);
  }

  lemma AnnouncedHandler(s: System, h: HandlerStep)
    requires Announced(s.book.rows, s.outbox, s.workers) && HandlerEnabled(s, h)
    ensures var s' := NextHandler(s, h); Announced(s'.book.rows, s'.outbox, s'.workers)
  {
    var s' := NextHandler(s, h);
    forall id | HasFinalRow(s.outbox, id) ensures HasFinalRow(s'.outbox, id) {
      FinalRowKept(s.outbox, s'.outbox, id);
    }
    assert forall id :: Finished(s'.book.rows, id) ==> Finished(s.book.rows, id);
  }

  lemma AnnouncedRelay(s: System, r: RelayId, y: RelayStep)
    requires Announced(s.book.rows, s.outbox, s.workers) && RelayEnabled(s, r, y)
    ensures var s' := NextRelay(s, r, y); Announced(s'.book.rows, s'.outbox, s'.workers)
  {
    var s' := NextRelay(s, r, y);
    forall id | HasFinalRow(s.outbox, id) ensures HasFinalRow(s'.outbox, id) {
      FinalRowKept(s.outbox, s'.outbox, id);
    }
  }

  lemma AnnouncedStep(s: System, a: Action)
    requires Core(s) && Announced(s.book.rows, s.outbox, s.workers) && Enabled(s, a) && !(a.Worker? && a.x.Abort?)
    ensures Announced(Next(s, a).book.rows, Next(s, a).outbox, Next(s, a).workers)
  {
    match a
    case Worker(w, x) => AnnouncedWorker(s, w, x);
    case Handler(h) => AnnouncedHandler(s, h);
    case Relay(r, y) => AnnouncedRelay(s, r, y);
    case SetStatus(_, _) =>
  }

  /** Without faults, with any number of workers: a finished transfer has a final row, or is about to get it. */
  lemma {:induction false} FinishedAreAnnounced(g: Regime, s0: System, acts: seq<Action>, s: System)
    requires !g.faults && Init(s0) && Run(g, s0, acts, s)
    ensures Announced(s.book.rows, s.outbox, s.workers)
    decreases |acts|
  {
    if |acts| > 0 {
      var n := |acts| - 1;
      var m :| Run(g, s0, acts[..n], m) && StepOk(g, m, acts[n]) && s == Next(m, acts[n]);
      FinishedAreAnnounced(g, s0, acts[..n], m);
      CoreRun(g, s0, acts[..n], m);
      AnnouncedStep(m, acts[n]);
    }
  }

  // ---- Nothing moves without a message ----

  ghost predicate HasMessage(stream: seq<Message>, id: TransferId) {
    exists k :: 0 <= k < |stream| && stream[k].id == id
  }

  ghost predicate MovedByMessage(rows: map<TransferId, Row>, stream: seq<Message>) {
    forall id :: id in rows ==> rows[id].state == Pending || HasMessage(stream, id)
  }

  lemma MessageKept(stream: seq<Message>, stream': seq<Message>, id: TransferId)
    requires StreamGrows(stream, stream') && HasMessage(stream, id)
    ensures HasMessage(stream', id)
  {
    var k :| 0 <= k < |stream| && stream[k].id == id;
    assert stream'[k].id == id;
  }

  lemma MovedKept(rows: map<TransferId, Row>, stream: seq<Message>, rows': map<TransferId, Row>, stream': seq<Message>)
    requires MovedByMessage(rows, stream) && StreamGrows(stream, stream')
    requires forall id :: id in rows' && rows'[id].state != Pending ==>
               (id in rows && rows'[id] == rows[id]) || HasMessage(stream, id)
    ensures MovedByMessage(rows', stream')
  {
    forall id | id in rows' && rows'[id].state != Pending ensures HasMessage(stream', id) {
      MessageKept(stream, stream', id);
    }
  }

  lemma CopyHasMessage(s: System, w: WorkerId)
    requires Core(s) && HasCopy(Pc(s, w))
    ensures HasMessage(s.stream, Pc(s, w).t.id)
  {
    assert PcOk(s.book.history, s.stream, Pc(s, w));
    assert s.stream[Pc(s, w).msg].id == Pc(s, w).t.id;
  }

  lemma MovedUpdate(s: System, w: WorkerId)
    requires Core(s) && MovedByMessage(s.book.rows, s.stream) && WorkerEnabled(s, w, Update)
    ensures MovedByMessage(NextUpdate(s, w).book.rows, NextUpdate(s, w).stream)
  {
    UpdateTable(s, w);
    BookFrame(s, w, Update);
    CopyHasMessage(s, w);
    if !SameTable(s.book, NextUpdate(s, w).book) {
      MovedStored(s.book, NextUpdate(s, w).book, s.stream, Pc(s, w).t);
    }
  }

  lemma MovedStored(b: Book, b': Book, stream: seq<Message>, t: Row)
    requires MovedByMessage(b.rows, stream) && Stores(b, b', t) && HasMessage(stream, t.id)
    ensures MovedByMessage(b'.rows, stream)
  {
  }

  lemma MovedWorker(s: System, w: WorkerId, x: WorkerStep)
    requires Core(s) && MovedByMessage(s.book.rows, s.stream) && WorkerEnabled(s, w, x)
    ensures MovedByMessage(NextWorker(s, w, x).book.rows, NextWorker(s, w, x).stream)
  {
    if x.Update? {
      MovedUpdate(s, w);
    } else {
      TableFrame(s, w, x);
      StreamWorker(s, w, x);
      MovedKept(s.book.rows, s.stream, s.book.rows, NextWorker(s, w, x).stream);
    }
  }

  lemma MovedRelay(s: System, r: RelayId, y: RelayStep)
    requires MovedByMessage(s.book.rows, s.stream) && RelayEnabled(s, r, y)
    ensures MovedByMessage(NextRelay(s, r, y).book.rows, NextRelay(s, r, y).stream)
  {
    MovedKept(s.book.rows, s.stream, s.book.rows, NextRelay(s, r, y).stream);
  }

  lemma MovedStep(s: System, a: Action)
    requires Core(s) && MovedByMessage(s.book.rows, s.stream) && Enabled(s, a)
    ensures MovedByMessage(Next(s, a).book.rows, Next(s, a).stream)
  {
    match a
    case Worker(w, x) => MovedWorker(s, w, x);
    case Handler(h) => MovedHandler(s, h);
    case Relay(r, y) => MovedRelay(s, r, y);
    case SetStatus(_, _) =>
  }

  lemma MovedHandler(s: System, h: HandlerStep)
    requires MovedByMessage(s.book.rows, s.stream) && HandlerEnabled(s, h)
    ensures MovedByMessage(NextHandler(s, h).book.rows, NextHandler(s, h).stream)
  {
    MovedKept(s.book.rows, s.stream, NextHandler(s, h).book.rows, s.stream);
  }

  /** In every run, a transfer that has left PENDING has had a message. */
  lemma {:induction false} MovedRun(g: Regime, s0: System, acts: seq<Action>, s: System)
    requires Init(s0) && Run(g, s0, acts, s)
    ensures MovedByMessage(s.book.rows, s.stream)
    decreases |acts|
  {
    if |acts| > 0 {
      var n := |acts| - 1;
      var m :| Run(g, s0, acts[..n], m) && StepOk(g, m, acts[n]) && s == Next(m, acts[n]);
      MovedRun(g, s0, acts[..n], m);
      CoreRun(g, s0, acts[..n], m);
      MovedStep(m, acts[n]);
    }
  }
}
