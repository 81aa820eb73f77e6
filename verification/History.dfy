/**
 The core invariant of the engine. Every row's history is one path of the state
 machine with versions 1, 2, 3, ...; every worker's in-memory copy is a version of
 that history or a legal successor of one; every log record is of a transfer that
 has a row, and only the worker named in it can still settle it.
 */
module History {
  import opened Ledger
  import opened Transfers
  import opened Protocol

  // ---- Shape of stored rows ----

  /** What the stored state says about version and flags. */
  predicate Shape(r: Row) {
    && r.src != r.dst && r.amount.Valid() && r.amount.amount != 0
    && (r.debitPosted ==> r.src != FloatAccount(r.amount.currency))
    && (r.creditPosted ==> r.dst != FloatAccount(r.amount.currency))
    && match r.state
       case Pending => r.version == 1 && !r.debitPosted && !r.creditPosted
       case Debited => r.version == 2 && r.debitPosted && !r.creditPosted
       case BankCalled => r.version == 3 && r.debitPosted && !r.creditPosted
       case Compensating => r.version == 3 && r.debitPosted && !r.creditPosted
       case Credited => r.version == 4 && r.debitPosted && r.creditPosted
       case Completed => r.version == 5 && r.debitPosted && r.creditPosted
       case Failed => r.version == (if r.debitPosted then 4 else 2) && !r.creditPosted
  }

  /** The moves the saga makes: a strict part of the allowed ones. */
  predicate Edge(s: State, t: State) {
    match s
    case Pending => t == Debited || t == Failed
    case Debited => t == BankCalled || t == Compensating
    case BankCalled => t == Credited
    case Credited => t == Completed
    case Compensating => t == Failed
    case Completed => false
    case Failed => false
  }

  /**
   The transition table allows the saga's moves and, besides, compensation after the bank
   has accepted or the credit has been posted; only finished states have no way on.
   */
  lemma TableOfMoves(s: State, t: State)
    ensures Legal(s, t) <==> Edge(s, t) || (t == Compensating && (s == BankCalled || s == Credited))
    ensures Terminal(s) <==> forall next :: !Legal(s, next)
  {
    assert s == Pending ==> Legal(s, Debited);
    assert s == Debited ==> Legal(s, BankCalled);
    assert s == BankCalled ==> Legal(s, Credited);
    assert s == Credited ==> Legal(s, Completed);
    assert s == Compensating ==> Legal(s, Failed);
  }

  /** `t` is `b` one saga move later. */
  predicate Successor(b: Row, t: Row) {
    && b.SameContract(t)
    && Edge(b.state, t.state)
    && t.version == b.version + 1
    && t.debitPosted == (b.debitPosted || t.state == Debited)
    && t.creditPosted == (b.creditPosted || t.state == Credited)
  }

  predicate StepAt(h: seq<Row>, k: int) {
    0 < k < |h| ==> Successor(h[k - 1], h[k])
  }

  /** A legal row history: a path from a fresh row, one version per step. */
  ghost predicate Path(h: seq<Row>) {
    && |h| > 0 && h[0].Fresh()
    && (forall k :: 0 <= k < |h| ==> h[k].version == k + 1 && Shape(h[k]) && h[0].SameContract(h[k]))
    && forall k :: StepAt(h, k)
  }

  ghost predicate TableOk(rows: map<TransferId, Row>, history: map<TransferId, seq<Row>>) {
    && rows.Keys == history.Keys
    && forall id :: id in rows ==>
         && rows[id].id == id
         && Path(history[id])
         && history[id][|history[id]| - 1] == rows[id]
  }

  // ---- Workers ----

  /** The worker's copy is some version of the row, not necessarily the current one. */
  ghost predicate IsVersion(history: map<TransferId, seq<Row>>, t: Row) {
    && t.id in history
    && 1 <= t.version <= |history[t.id]|
    && history[t.id][t.version - 1] == t
  }

  /** The worker's copy is one move ahead of some version of the row. */
  ghost predicate IsSuccessor(history: map<TransferId, seq<Row>>, t: Row) {
    && t.id in history
    && Shape(t)
    && 2 <= t.version <= |history[t.id]| + 1
    && Successor(history[t.id][t.version - 2], t)
  }

  /** The log record a state's update depends on. */
  function Evidence(t: Row): Option<Tag> {
    match t.state
    case Debited => Some(Posted(Reserve))
    case BankCalled => Some(Asked(true))
    case Compensating => Some(Asked(false))
    case Credited => Some(Posted(Pay))
    case Failed => if t.debitPosted then Some(Posted(Refund)) else None
    case Pending => None
    case Completed => None
  }

  ghost predicate PcOk(history: map<TransferId, seq<Row>>, stream: seq<Message>, pc: WorkerPc) {
    && (!pc.Idle? ==> pc.msg < |stream|)
    && (HasCopy(pc) ==> pc.t.id == stream[pc.msg].id)
    && (HasCopy(pc) && !pc.Updating? ==> IsVersion(history, pc.t))
    && match pc
       case Idle => true
       case Loading(_) => true
       case Locking(_, t) => t.state == Pending
       case Checking(_, t) => t.state == Pending
       case Booking(_, t, k, slot) =>
         && slot == None
         && k != Clawback
         && t.state == (if k == Reserve then Pending else if k == Pay then BankCalled else Compensating)
       case Calling(_, t) => t.state == Debited
       case Updating(_, t, _) => IsSuccessor(history, t)
       case Appending(_, t) => t.state != Pending && t.state != Compensating
       case Writing(_, t) => t.state != Pending && t.state != Compensating
       case Done(_) => true
  }

  predicate SlotOk(log: seq<Record>, w: WorkerId, pc: WorkerPc) {
    pc.Updating? ==>
      match Evidence(pc.t)
      case None => pc.slot == None
      case Some(tag) =>
        && pc.slot.Some? && pc.slot.value < |log|
        && var r := log[pc.slot.value]; r.id == pc.t.id && r.tag == tag && r.fate == Open(w)
  }

  ghost predicate WorkersOk(history: map<TransferId, seq<Row>>, stream: seq<Message>, log: seq<Record>,
                            workers: map<WorkerId, WorkerPc>)
  {
    forall w :: w in workers ==> PcOk(history, stream, workers[w]) && SlotOk(log, w, workers[w])
  }

  // ---- Log ----

  predicate RecordOk(rows: map<TransferId, Row>, r: Record) {
    && r.id in rows && rows[r.id].id == r.id
    && match r.tag
       case Asked(_) => r.entries == []
       case Posted(k) =>
         && k != Clawback
         && PostingFor(k, rows[r.id]).Ok?
         && r.entries == PostingFor(k, rows[r.id]).value.Entries()
  }

  ghost predicate RecordsOk(rows: map<TransferId, Row>, log: seq<Record>) {
    forall i :: 0 <= i < |log| ==> RecordOk(rows, log[i])
  }

  /** An open record is the one its worker is about to settle. */
  ghost predicate OpensOk(log: seq<Record>, workers: map<WorkerId, WorkerPc>) {
    forall i :: 0 <= i < |log| && log[i].fate.Open? ==>
      && log[i].fate.worker in workers
      && workers[log[i].fate.worker].Updating?
      && workers[log[i].fate.worker].slot == Some(i)
  }

  ghost predicate LedgerOk(opening: seq<LedgerEntry>, log: seq<Record>, ledger: seq<LedgerEntry>) {
    ledger == opening + AllEntries(log)
  }

  ghost predicate CoreOf(b: Book, stream: seq<Message>, workers: map<WorkerId, WorkerPc>) {
    && TableOk(b.rows, b.history)
    && WorkersOk(b.history, stream, b.log, workers)
    && RecordsOk(b.rows, b.log)
    && OpensOk(b.log, workers)
    && LedgerOk(b.opening, b.log, b.ledger)
  }

  ghost predicate Core(s: System) {
    CoreOf(s.book, s.stream, s.workers)
  }

  // ---- Monotonicity: what no action ever takes back ----

  /** Records keep everything but their fate, and only `w` may settle what it opened. */
  ghost predicate LogGrows(log: seq<Record>, log': seq<Record>, w: WorkerId) {
    && |log| <= |log'|
    && forall i :: 0 <= i < |log| ==>
         && log'[i].id == log[i].id && log'[i].tag == log[i].tag && log'[i].entries == log[i].entries
         && (log[i].fate != Open(w) ==> log'[i].fate == log[i].fate)
  }

  ghost predicate HistoryGrows(h: map<TransferId, seq<Row>>, h': map<TransferId, seq<Row>>) {
    forall id :: id in h ==> id in h' && h[id] <= h'[id]
  }

  ghost predicate StreamGrows(q: seq<Message>, q': seq<Message>) {
    |q| <= |q'| && forall k :: 0 <= k < |q| ==> q'[k].id == q[k].id && q'[k].row == q[k].row
  }

  lemma PcOkGrows(history: map<TransferId, seq<Row>>, stream: seq<Message>,
                  history': map<TransferId, seq<Row>>, stream': seq<Message>, pc: WorkerPc)
    requires PcOk(history, stream, pc)
    requires HistoryGrows(history, history') && StreamGrows(stream, stream')
    ensures PcOk(history', stream', pc)
  {
  }

  /** Workers other than `w` are not disturbed by what `w` does. */
  lemma OthersOk(history: map<TransferId, seq<Row>>, stream: seq<Message>, log: seq<Record>,
                 history': map<TransferId, seq<Row>>, stream': seq<Message>, log': seq<Record>,
                 workers: map<WorkerId, WorkerPc>, w: WorkerId, pc: WorkerPc)
    requires WorkersOk(history, stream, log, workers)
    requires HistoryGrows(history, history') && StreamGrows(stream, stream') && LogGrows(log, log', w)
    requires PcOk(history', stream', pc) && SlotOk(log', w, pc)
    ensures WorkersOk(history', stream', log', workers[w := pc])
  {
    forall v | v in workers && v != w
      ensures PcOk(history', stream', workers[v]) && SlotOk(log', v, workers[v])
    {
      PcOkGrows(history, stream, history', stream', workers[v]);
    }
  }

  lemma CurrentIsVersion(s: System, id: TransferId)
    requires TableOk(s.book.rows, s.book.history) && id in s.book.rows
    ensures IsVersion(s.book.history, s.book.rows[id])
  {
    var h := s.book.history[id];
    assert h[|h| - 1].version == |h|;
  }

  /** Every version of a row has the shape its state demands. */
  lemma VersionShape(s: System, t: Row)
    requires TableOk(s.book.rows, s.book.history) && IsVersion(s.book.history, t)
    ensures Shape(t) && t.id in s.book.rows && s.book.rows[t.id].SameContract(t)
  {
    var h := s.book.history[t.id];
    assert Shape(h[t.version - 1]) && h[0].SameContract(h[t.version - 1]);
    assert h[0].SameContract(h[|h| - 1]);
  }

  /** A legal move of a version of the row. */
  lemma MoveIsSuccessor(s: System, b: Row, t: Row)
    requires IsVersion(s.book.history, b) && Successor(b, t) && Shape(t)
    ensures IsSuccessor(s.book.history, t)
  {
  }

  // ---- Preservation by the four ways a worker can move ----

  /** The slot of a worker is the only record open for it. */
  ghost predicate Owns(log: seq<Record>, w: WorkerId, slot: Option<nat>) {
    && (slot.Some? ==> slot.value < |log| && log[slot.value].fate == Open(w))
    && forall i :: 0 <= i < |log| && log[i].fate == Open(w) ==> slot == Some(i)
  }

  lemma SlotOwned(history: map<TransferId, seq<Row>>, stream: seq<Message>, log: seq<Record>,
                  workers: map<WorkerId, WorkerPc>, w: WorkerId)
    requires WorkersOk(history, stream, log, workers) && OpensOk(log, workers)
    ensures Owns(log, w, if w in workers then Slot(workers[w]) else None)
  {
  }

  /** Settling a worker's slot: nothing else in the log moves. */
  lemma SettleOwned(log: seq<Record>, workers: map<WorkerId, WorkerPc>, w: WorkerId, slot: Option<nat>,
                    fate: Fate, pc: WorkerPc)
    requires OpensOk(log, workers) && Owns(log, w, slot) && !fate.Open?
    ensures LogGrows(log, Settle(log, slot, fate), w)
    ensures OpensOk(Settle(log, slot, fate), workers[w := pc])
  {
  }

  lemma SettleRecords(rows: map<TransferId, Row>, log: seq<Record>, slot: Option<nat>, fate: Fate)
    requires RecordsOk(rows, log)
    ensures RecordsOk(rows, Settle(log, slot, fate))
  {
  }

  lemma OpensGoto(log: seq<Record>, workers: map<WorkerId, WorkerPc>, w: WorkerId, pc: WorkerPc)
    requires OpensOk(log, workers)
    requires w in workers ==> !workers[w].Updating?
    ensures OpensOk(log, workers[w := pc])
  {
  }

  /** A step that only changes where `w` stands. */
  lemma GotoKeeps(s: System, w: WorkerId, pc: WorkerPc)
    requires Core(s) && !Pc(s, w).Updating?
    requires PcOk(s.book.history, s.stream, pc)
    requires pc.Updating? ==> pc.slot == None && Evidence(pc.t) == None
    ensures Core(Goto(s, w, pc))
  {
    OthersOk(s.book.history, s.stream, s.book.log, s.book.history, s.stream, s.book.log, s.workers, w, pc);
    OpensGoto(s.book.log, s.workers, w, pc);
  }

  /** An error return or a crash. */
  lemma DropKeeps(s: System, w: WorkerId)
    requires Core(s)
    ensures Core(Drop(s, w))
  {
    var slot := Slot(Pc(s, w));
    var log' := Settle(s.book.log, slot, Lost);
    SlotOwned(s.book.history, s.stream, s.book.log, s.workers, w);
    SettleOwned(s.book.log, s.workers, w, slot, Lost, Idle);
    SettleRecords(s.book.rows, s.book.log, slot, Lost);
    SettleEntries(s.book.log, slot, Lost);
    OthersOk(s.book.history, s.stream, s.book.log, s.book.history, s.stream, log', s.workers, w, Idle);
  }

  lemma {:induction false} SettleEntries(log: seq<Record>, slot: Option<nat>, fate: Fate)
    ensures AllEntries(Settle(log, slot, fate)) == AllEntries(log)
  {
    if slot.Some? && slot.value < |log| {
      var n := |log| - 1;
      var log' := Settle(log, slot, fate);
      if slot.value < n {
        SettleEntries(log[..n], slot, fate);
        assert log'[..n] == Settle(log[..n], slot, fate);
      } else {
        assert log'[..n] == log[..n];
      }
    }
  }

  // ---- Preservation, action by action ----

  /** Where a worker stands after an action that only reads: in order, and holding no record. */
  ghost predicate Lands(s: System, pc: WorkerPc) {
    PcOk(s.book.history, s.stream, pc) && (pc.Updating? ==> pc.slot == None && Evidence(pc.t) == None)
  }

  lemma DispatchLands(s: System, msg: nat, t: Row)
    requires IsVersion(s.book.history, t) && Shape(t)
    requires msg < |s.stream| && s.stream[msg].id == t.id
    ensures Lands(s, Dispatch(msg, t))
  {
    if t.state == Credited {
      MoveIsSuccessor(s, t, Moved(t, Completed).value);
    }
  }

  lemma FailLands(s: System, msg: nat, t: Row, reason: string)
    requires IsVersion(s.book.history, t) && Shape(t) && t.state == Pending
    requires msg < |s.stream| && s.stream[msg].id == t.id
    ensures Lands(s, FailWith(msg, t, reason, None))
  {
    MoveIsSuccessor(s, t, Moved(t.(failureReason := reason), Failed).value);
  }

  lemma KeepLoad(s: System, w: WorkerId)
    requires Core(s) && WorkerEnabled(s, w, Load)
    ensures Core(NextLoad(s, w))
  {
    var msg := Pc(s, w).msg;
    var id := s.stream[msg].id;
    if id in s.book.rows {
      CurrentIsVersion(s, id);
      VersionShape(s, s.book.rows[id]);
      DispatchLands(s, msg, s.book.rows[id]);
      GotoKeeps(s, w, Dispatch(msg, s.book.rows[id]));
    } else {
      DropKeeps(s, w);
    }
  }

  lemma KeepLock(s: System, w: WorkerId)
    requires Core(s) && WorkerEnabled(s, w, Lock)
    ensures Core(NextLock(s, w))
  {
    var pc := Pc(s, w);
    if pc.t.src !in s.accounts {
      DropKeeps(s, w);
    } else if s.accounts[pc.t.src] == Active {
      GotoKeeps(s, w, Checking(pc.msg, pc.t));
    } else {
      VersionShape(s, pc.t);
      FailLands(s, pc.msg, pc.t, NOT_TRANSACTABLE);
      GotoKeeps(s, w, FailWith(pc.msg, pc.t, NOT_TRANSACTABLE, None));
    }
  }

  lemma KeepCheck(s: System, w: WorkerId)
    requires Core(s) && WorkerEnabled(s, w, Check)
    ensures Core(NextCheck(s, w))
  {
    var pc := Pc(s, w);
    VersionShape(s, pc.t);
    FailLands(s, pc.msg, pc.t, INSUFFICIENT_FUNDS);
    var balance := Balance(s.book.ledger, pc.t.src, pc.t.amount.currency);
    if !IsInt64(balance) {
      DropKeeps(s, w);
    } else if balance < pc.t.amount.amount {
      GotoKeeps(s, w, FailWith(pc.msg, pc.t, INSUFFICIENT_FUNDS, None));
    } else {
      GotoKeeps(s, w, Booking(pc.msg, pc.t, Reserve, None));
    }
  }

  // ---- Recording a posting or a bank call ----

  lemma ArmedOk(s: System, pc: WorkerPc, msg: nat, id: TransferId, tag: Tag, i: nat)
    requires Armed(s, pc, msg, id, tag, i) && msg < |s.stream| && s.stream[msg].id == id
    ensures PcOk(s.book.history, s.stream, pc)
  {
  }

  lemma RecordKeeps(s: System, w: WorkerId, pc: WorkerPc, tag: Tag, entries: seq<LedgerEntry>)
    requires Core(s) && HasCopy(Pc(s, w)) && !Pc(s, w).Updating?
    requires Armed(s, pc, Pc(s, w).msg, Pc(s, w).t.id, tag, |s.book.log|)
    requires RecordOk(s.book.rows, Record(pc.t.id, tag, entries, Open(w)))
    ensures CoreOf(Recorded(s.book, pc.t.id, tag, entries, w), s.stream, s.workers[w := pc])
  {
    var log' := s.book.log + [Record(pc.t.id, tag, entries, Open(w))];
    ArmedOk(s, pc, Pc(s, w).msg, Pc(s, w).t.id, tag, |s.book.log|);
    OpensRecord(s.book.log, s.workers, w, pc, log'[|s.book.log|]);
    RecordsSnoc(s.book.rows, s.book.opening, s.book.log, log'[|s.book.log|]);
    OthersOk(s.book.history, s.stream, s.book.log, s.book.history, s.stream, log', s.workers, w, pc);
  }

  lemma RecordsSnoc(rows: map<TransferId, Row>, opening: seq<LedgerEntry>, log: seq<Record>, r: Record)
    requires RecordsOk(rows, log) && RecordOk(rows, r)
    ensures RecordsOk(rows, log + [r])
    ensures LedgerOk(opening, log + [r], opening + AllEntries(log) + r.entries)
  {
    assert (log + [r])[..|log|] == log;
  }

  lemma OpensRecord(log: seq<Record>, workers: map<WorkerId, WorkerPc>, w: WorkerId, pc: WorkerPc, r: Record)
    requires OpensOk(log, workers)
    requires w in workers ==> !workers[w].Updating?
    requires r.fate == Open(w) && pc.Updating? && pc.slot == Some(|log|)
    ensures OpensOk(log + [r], workers[w := pc])
  {
  }

  /** The worker holds record `i` of transfer `id` as evidence for its next row version. */
  ghost predicate Armed(s: System, pc: WorkerPc, msg: nat, id: TransferId, tag: Tag, i: nat) {
    && pc.Updating? && pc.msg == msg && pc.slot == Some(i) && pc.t.id == id
    && Evidence(pc.t) == Some(tag)
    && IsSuccessor(s.book.history, pc.t)
  }

  /** After a committed posting the copy is the next version, with the posting as evidence. */
  lemma PostLands(s: System, msg: nat, t: Row, k: Kind, i: nat)
    requires IsVersion(s.book.history, t) && Shape(t) && k != Clawback
    requires t.state == (if k == Reserve then Pending else if k == Pay then BankCalled else Compensating)
    requires PostingFor(k, t).Ok?
    ensures Armed(s, AfterPost(msg, t, k, i), msg, t.id, Posted(k), i)
  {
    MoveIsSuccessor(s, t, AfterPost(msg, t, k, i).t);
  }

  lemma PostRecordOk(rows: map<TransferId, Row>, t: Row, k: Kind, fate: Fate)
    requires t.id in rows && rows[t.id].SameContract(t) && k != Clawback && PostingFor(k, t).Ok?
    ensures RecordOk(rows, Record(t.id, Posted(k), PostingFor(k, t).value.Entries(), fate))
  {
  }

  lemma KeepPost(s: System, w: WorkerId)
    requires Core(s) && WorkerEnabled(s, w, Post)
    ensures Core(NextPost(s, w))
  {
    var pc := Pc(s, w);
    VersionShape(s, pc.t);
    if PostingFor(pc.kind, pc.t).Ok? {
      PostLands(s, pc.msg, pc.t, pc.kind, |s.book.log|);
      PostRecordOk(s.book.rows, pc.t, pc.kind, Open(w));
      RecordKeeps(s, w, AfterPost(pc.msg, pc.t, pc.kind, |s.book.log|), Posted(pc.kind),
                  PostingFor(pc.kind, pc.t).value.Entries());
    } else {
      DropKeeps(s, w);
    }
  }

  lemma AskLands(s: System, msg: nat, t: Row, reply: Reply, i: nat)
    requires IsVersion(s.book.history, t) && Shape(t) && t.state == Debited
    ensures Armed(s, AfterBank(msg, t, reply, i), msg, t.id, Asked(reply.Accepted?), i)
  {
    MoveIsSuccessor(s, t, AfterBank(msg, t, reply, i).t);
  }

  lemma KeepAsk(s: System, w: WorkerId, reply: Reply)
    requires Core(s) && WorkerEnabled(s, w, Ask(reply))
    ensures Core(NextAsk(s, w, reply))
  {
    var pc := Pc(s, w);
    assert PcOk(s.book.history, s.stream, pc);
    VersionShape(s, pc.t);
    AskLands(s, pc.msg, pc.t, reply, |s.book.log|);
    assert RecordOk(s.book.rows, Record(pc.t.id, Asked(reply.Accepted?), [], Open(w)));
    RecordKeeps(s, w, AfterBank(pc.msg, pc.t, reply, |s.book.log|), Asked(reply.Accepted?), []);
  }

  // ---- UpdateState ----

  lemma SuccessorOfCurrent(h: seq<Row>, t: Row)
    requires Path(h) && Shape(t) && 2 <= t.version <= |h| + 1 && Successor(h[t.version - 2], t)
    requires h[|h| - 1].version == t.version - 1
    ensures |h| == t.version - 1 && Path(h + [t])
  {
    assert h[|h| - 1].version == |h|;
    PathExtends(h, t);
  }

  /** A compare-and-set succeeds only if the copy was made from the current row; it then stores the copy. */
  lemma UpdateIsCurrent(s: System, w: WorkerId)
    requires Core(s) && Pc(s, w).Updating?
    requires s.book.rows[Pc(s, w).t.id].version == Pc(s, w).t.version - 1
    ensures var t := Pc(s, w).t;
            && Successor(s.book.rows[t.id], t) && Written(s.book.rows[t.id], t) == t
            && |s.book.history[t.id]| == t.version - 1
            && Path(s.book.history[t.id] + [t])
  {
    SuccessorOfCurrent(s.book.history[Pc(s, w).t.id], Pc(s, w).t);
  }

  lemma PathExtends(h: seq<Row>, t: Row)
    requires Path(h) && Successor(h[|h| - 1], t) && Shape(t)
    ensures Path(h + [t])
  {
    assert h[|h| - 1].version == |h|;
    assert h[0].SameContract(h[|h| - 1]);
    forall k
      ensures StepAt(h + [t], k)
    {
      assert StepAt(h, k);
    }
  }

  lemma TableUpdated(rows: map<TransferId, Row>, history: map<TransferId, seq<Row>>, t: Row)
    requires TableOk(rows, history) && t.id in rows && Path(history[t.id] + [t])
    ensures TableOk(rows[t.id := t], history[t.id := history[t.id] + [t]])
    ensures HistoryGrows(history, history[t.id := history[t.id] + [t]])
  {
  }

  lemma RecordsUpdated(rows: map<TransferId, Row>, log: seq<Record>, t: Row)
    requires RecordsOk(rows, log) && t.id in rows && rows[t.id].SameContract(t)
    ensures RecordsOk(rows[t.id := t], log)
  {
  }

  lemma UpdateLands(history: map<TransferId, seq<Row>>, stream: seq<Message>, msg: nat, t: Row)
    requires IsVersion(history, t) && Shape(t) && t.state != Pending
    requires msg < |stream| && stream[msg].id == t.id
    ensures PcOk(history, stream, AfterUpdate(msg, t)) && !AfterUpdate(msg, t).Updating?
  {
  }

  /** A matching version: row, history and log change together. */
  lemma UpdateSucceeds(s: System, w: WorkerId)
    requires Core(s) && Pc(s, w).Updating?
    requires s.book.rows[Pc(s, w).t.id].version == Pc(s, w).t.version - 1
    ensures var pc := Pc(s, w);
            NextUpdate(s, w) == s.(book := UpdatedRow(s.book, pc.t, pc.slot),
                                   workers := s.workers[w := AfterUpdate(pc.msg, pc.t)])
  {
    UpdateIsCurrent(s, w);
  }

  /** Apart from postings, bank calls and row updates, a worker can only lose its open record. */
  lemma QuietWorker(s: System, w: WorkerId, x: WorkerStep)
    requires WorkerEnabled(s, w, x) && !x.Post? && !x.Ask? && !x.Update?
    ensures NextWorker(s, w, x).book == s.book || NextWorker(s, w, x) == Drop(s, w)
  {
  }

  /** What a worker step leaves alone. */
  ghost predicate OnlyWorker(s: System, s': System, w: WorkerId) {
    && s'.accounts == s.accounts && s'.handlers == s.handlers && s'.relays == s.relays
    && w in s'.workers && s'.workers == s.workers[w := s'.workers[w]]
  }

  lemma ReadFrame(s: System, w: WorkerId, x: WorkerStep)
    requires WorkerEnabled(s, w, x) && (x.Deliver? || x.Load? || x.Lock? || x.Check? || x.Abort?)
    ensures var s' := NextWorker(s, w, x);
            OnlyWorker(s, s', w) && s'.outbox == s.outbox && s'.stream == s.stream && s'.events == s.events
  {
    match x
    case Load => assert NextWorker(s, w, x) == NextLoad(s, w);
    case Lock => assert NextWorker(s, w, x) == NextLock(s, w);
    case Check => assert NextWorker(s, w, x) == NextCheck(s, w);
    case _ =>
  }

  lemma BookFrame(s: System, w: WorkerId, x: WorkerStep)
    requires WorkerEnabled(s, w, x) && (x.Post? || x.Ask? || x.Update?)
    ensures var s' := NextWorker(s, w, x);
            OnlyWorker(s, s', w) && s'.outbox == s.outbox && s'.stream == s.stream && s'.events == s.events
  {
  }

  /** The transfers table, with its order and its past versions, and the opening ledger. */
  ghost predicate SameTable(b: Book, b': Book) {
    b'.rows == b.rows && b'.history == b.history && b'.order == b.order && b'.opening == b.opening
  }

  lemma PostTable(s: System, w: WorkerId)
    requires WorkerEnabled(s, w, Post)
    ensures SameTable(s.book, NextPost(s, w).book)
  {
  }

  lemma AskTable(s: System, w: WorkerId, reply: Reply)
    requires WorkerEnabled(s, w, Ask(reply))
    ensures SameTable(s.book, NextAsk(s, w, reply).book)
  {
  }

  /** Of a worker's steps only UpdateState touches the transfers table. */
  lemma TableFrame(s: System, w: WorkerId, x: WorkerStep)
    requires WorkerEnabled(s, w, x) && !x.Update?
    ensures SameTable(s.book, NextWorker(s, w, x).book)
  {
    match x
    case Post => PostTable(s, w);
    case Ask(reply) => AskTable(s, w, reply);
    case _ => QuietWorker(s, w, x);
  }

  /** A successor of the current row takes its place. */
  ghost predicate Stores(b: Book, b': Book, t: Row) {
    && t.id in b.rows && t.id in b.history && Successor(b.rows[t.id], t)
    && b'.rows == b.rows[t.id := t] && b'.history == b.history[t.id := b.history[t.id] + [t]]
    && b'.order == b.order && b'.opening == b.opening
  }

  /** UpdateState stores a successor of the current row or leaves the table alone. */
  lemma UpdateTable(s: System, w: WorkerId)
    requires Core(s) && WorkerEnabled(s, w, Update)
    ensures SameTable(s.book, NextUpdate(s, w).book) || Stores(s.book, NextUpdate(s, w).book, Pc(s, w).t)
  {
    if s.book.rows[Pc(s, w).t.id].version == Pc(s, w).t.version - 1 {
      UpdateIsCurrent(s, w);
      UpdateSucceeds(s, w);
    } else {
      assert NextUpdate(s, w) == Drop(s, w);
    }
  }

  lemma KeepUpdate(s: System, w: WorkerId)
    requires Core(s) && WorkerEnabled(s, w, Update)
    ensures Core(NextUpdate(s, w))
  {
    var pc := Pc(s, w);
    var t := pc.t;
    if s.book.rows[t.id].version == t.version - 1 {
      UpdateIsCurrent(s, w);
      UpdateSucceeds(s, w);
      UpdateKeeps(s, w);
    } else {
      DropKeeps(s, w);
    }
  }

  lemma UpdateKeeps(s: System, w: WorkerId)
    requires Core(s) && Pc(s, w).Updating?
    requires var t := Pc(s, w).t;
             && Successor(s.book.rows[t.id], t)
             && |s.book.history[t.id]| == t.version - 1 && Path(s.book.history[t.id] + [t])
    ensures var t := Pc(s, w).t;
            CoreOf(UpdatedRow(s.book, t, Pc(s, w).slot), s.stream, s.workers[w := AfterUpdate(Pc(s, w).msg, t)])
  {
    var pc := Pc(s, w);
    var t := pc.t;
    var history' := s.book.history[t.id := s.book.history[t.id] + [t]];
    var log' := Settle(s.book.log, pc.slot, Applied);
    var pc' := AfterUpdate(pc.msg, t);
    TableUpdated(s.book.rows, s.book.history, t);
    UpdateLands(history', s.stream, pc.msg, t);
    SlotOwned(s.book.history, s.stream, s.book.log, s.workers, w);
    SettleOwned(s.book.log, s.workers, w, pc.slot, Applied, pc');
    SettleRecords(s.book.rows, s.book.log, pc.slot, Applied);
    RecordsUpdated(s.book.rows, log', t);
    SettleEntries(s.book.log, pc.slot, Applied);
    OthersOk(s.book.history, s.stream, s.book.log, history', s.stream, log', s.workers, w, pc');
  }

  // ---- Messages, handlers, and the whole step ----

  lemma StreamKeeps(s: System, stream': seq<Message>)
    requires Core(s) && StreamGrows(s.stream, stream')
    ensures CoreOf(s.book, stream', s.workers)
  {
    forall v | v in s.workers
      ensures PcOk(s.book.history, stream', s.workers[v])
    {
      PcOkGrows(s.book.history, s.stream, s.book.history, stream', s.workers[v]);
    }
  }

  lemma KeepAck(s: System, w: WorkerId, received: bool)
    requires Core(s) && WorkerEnabled(s, w, Ack(received))
    ensures Core(NextAck(s, w, received))
  {
    var s1 := Goto(s, w, Idle);
    GotoKeeps(s, w, Idle);
    StreamKeeps(s1, NextAck(s, w, received).stream);
  }

  lemma KeepPublish(s: System, r: RelayId, ok: bool)
    requires Core(s) && RelayEnabled(s, r, Publish(ok))
    ensures Core(NextRelay(s, r, Publish(ok)))
  {
    StreamKeeps(s, NextRelay(s, r, Publish(ok)).stream);
  }

  lemma TableSaved(rows: map<TransferId, Row>, history: map<TransferId, seq<Row>>, row: Row)
    requires TableOk(rows, history) && row.Fresh() && row.id !in rows
    ensures TableOk(rows[row.id := row], history[row.id := [row]])
    ensures HistoryGrows(history, history[row.id := [row]])
  {
    assert Path([row]) by {
      assert Shape(row);
    }
  }

  lemma WorkersSaved(history: map<TransferId, seq<Row>>, history': map<TransferId, seq<Row>>, stream: seq<Message>,
                     log: seq<Record>, workers: map<WorkerId, WorkerPc>)
    requires WorkersOk(history, stream, log, workers) && HistoryGrows(history, history')
    ensures WorkersOk(history', stream, log, workers)
  {
    forall v | v in workers
      ensures PcOk(history', stream, workers[v])
    {
      PcOkGrows(history, stream, history', stream, workers[v]);
    }
  }

  lemma KeepSave(s: System, row: Row)
    requires Core(s) && HandlerEnabled(s, Save(row))
    ensures Core(NextHandler(s, Save(row)))
  {
    TableSaved(s.book.rows, s.book.history, row);
    WorkersSaved(s.book.history, s.book.history[row.id := [row]], s.stream, s.book.log, s.workers);
  }

  lemma KeepDeliver(s: System, w: WorkerId, msg: nat)
    requires Core(s) && WorkerEnabled(s, w, Deliver(msg))
    ensures Core(Goto(s, w, Loading(msg)))
  {
    GotoKeeps(s, w, Loading(msg));
  }

  lemma KeepAppend(s: System, w: WorkerId)
    requires Core(s) && WorkerEnabled(s, w, Append)
    ensures Core(NextAppend(s, w))
  {
    GotoKeeps(s, w, Writing(Pc(s, w).msg, Pc(s, w).t));
  }

  lemma KeepWrite(s: System, w: WorkerId)
    requires Core(s) && WorkerEnabled(s, w, Write)
    ensures Core(NextWrite(s, w))
  {
    GotoKeeps(s, w, Done(Pc(s, w).msg));
  }

  lemma CoreWorkerStep(s: System, w: WorkerId, x: WorkerStep)
    requires Core(s) && WorkerEnabled(s, w, x)
    ensures Core(NextWorker(s, w, x))
  {
    match x {
      case Deliver(msg) => KeepDeliver(s, w, msg);
      case Load => KeepLoad(s, w);
      case Lock => KeepLock(s, w);
      case Check => KeepCheck(s, w);
      case Post => KeepPost(s, w);
      case Ask(reply) => KeepAsk(s, w, reply);
      case Update => KeepUpdate(s, w);
      case Append => KeepAppend(s, w);
      case Write => KeepWrite(s, w);
      case Ack(received) => KeepAck(s, w, received);
      case Abort => DropKeeps(s, w);
    }
  }

  lemma CoreStep(s: System, a: Action)
    requires Core(s) && Enabled(s, a)
    ensures Core(Next(s, a))
  {
    match a {
      case Handler(h) =>
        if h.Save? {
          KeepSave(s, h.row);
        }
      case Worker(w, x) => CoreWorkerStep(s, w, x);
      case Relay(r, y) =>
        if y.Publish? {
          KeepPublish(s, r, y.ok);
        }
      case SetStatus(_, _) =>
    }
  }

  /** The core invariant holds after every run, whatever fails and however workers interleave. */
  lemma {:induction false} CoreRun(g: Regime, s0: System, acts: seq<Action>, s: System)
    requires Init(s0) && Run(g, s0, acts, s)
    ensures Core(s)
    decreases |acts|
  {
    if |acts| > 0 {
      var n := |acts| - 1;
      var m :| Run(g, s0, acts[..n], m) && StepOk(g, m, acts[n]) && s == Next(m, acts[n]);
      CoreRun(g, s0, acts[..n], m);
      CoreStep(m, acts[n]);
    }
  }

  // ---- Contract columns ----

  /** No row disappears, and none changes its contract columns. */
  ghost predicate ContractsKept(rows: map<TransferId, Row>, rows': map<TransferId, Row>) {
    forall id :: id in rows ==> id in rows' && rows'[id].SameContract(rows[id])
  }

  lemma ContractUpdate(s: System, w: WorkerId)
    requires Core(s) && WorkerEnabled(s, w, Update)
    ensures ContractsKept(s.book.rows, NextUpdate(s, w).book.rows)
  {
    UpdateTable(s, w);
    if !SameTable(s.book, NextUpdate(s, w).book) {
      ContractStored(s.book, NextUpdate(s, w).book, Pc(s, w).t);
    }
  }

  lemma ContractStored(b: Book, b': Book, t: Row)
    requires Stores(b, b', t)
    ensures ContractsKept(b.rows, b'.rows)
  {
  }

  lemma ContractStep(s: System, a: Action)
    requires Core(s) && Enabled(s, a)
    ensures ContractsKept(s.book.rows, Next(s, a).book.rows)
  {
    if a.Worker? && a.x.Update? {
      ContractUpdate(s, a.w);
    } else if a.Worker? {
      TableFrame(s, a.w, a.x);
    } else if a.Handler? && a.h.Save? {
      assert Next(s, a).book == SavedRow(s.book, a.h.row);
    } else {
      assert Next(s, a).book == s.book;
    }
  }

  lemma {:induction false} ContractTrace(states: seq<System>, acts: seq<Action>, i: nat)
    requires Trace(ANY, states, acts) && Init(states[0]) && i <= |acts|
    ensures ContractsKept(states[i].book.rows, states[|acts|].book.rows)
    decreases |acts| - i
  {
    if i < |acts| {
      TraceTo(ANY, states, acts, i);
      CoreRun(ANY, states[0], acts[..i], states[i]);
      assert LinkOk(ANY, states, acts, i);
      ContractStep(states[i], acts[i]);
      ContractTrace(states, acts, i + 1);
    }
  }

  // ---- The stream ----

  lemma StreamWorker(s: System, w: WorkerId, x: WorkerStep)
    requires WorkerEnabled(s, w, x)
    ensures StreamGrows(s.stream, NextWorker(s, w, x).stream)
  {
    match x
    case Post => BookFrame(s, w, x);
    case Ask(_) => BookFrame(s, w, x);
    case Update => BookFrame(s, w, x);
    case Append =>
    case Write =>
    case Ack(received) => assert NextWorker(s, w, x) == NextAck(s, w, received);
    case _ => ReadFrame(s, w, x);
  }

  /** Messages keep their content. */
  lemma StreamStep(s: System, a: Action)
    requires Enabled(s, a)
    ensures StreamGrows(s.stream, Next(s, a).stream)
  {
    match a
    case Worker(w, x) => StreamWorker(s, w, x);
    case Relay(r, y) => assert Next(s, a) == NextRelay(s, r, y);
    case Handler(h) => assert Next(s, a).stream == s.stream;
    case SetStatus(_, _) =>
  }

  lemma {:induction false} StreamTrace(g: Regime, states: seq<System>, acts: seq<Action>, i: nat)
    requires Trace(g, states, acts) && i <= |acts|
    ensures StreamGrows(states[i].stream, states[|acts|].stream)
    decreases |acts| - i
  {
    if i < |acts| {
      assert LinkOk(g, states, acts, i);
      StreamStep(states[i], acts[i]);
      StreamTrace(g, states, acts, i + 1);
    }
  }

  // ---- Relays ----

  /** The rows a relay is working on exist. */
  predicate BatchOk(n: nat, pc: RelayPc) {
    match pc
    case Resting => true
    case Working(batch) => forall k :: 0 <= k < |batch| ==> batch[k] < n
    case Marking(row, batch) => row < n && forall k :: 0 <= k < |batch| ==> batch[k] < n
  }

  ghost predicate BatchesOk(s: System) {
    forall r :: r in s.relays ==> BatchOk(|s.outbox|, s.relays[r])
  }

  lemma BatchRelay(s: System, r: RelayId, y: RelayStep)
    requires BatchesOk(s) && RelayEnabled(s, r, y)
    ensures BatchesOk(NextRelay(s, r, y))
  {
    var s' := NextRelay(s, r, y);
    assert BatchOk(|s.outbox|, RelayAt(s, r));
    assert BatchOk(|s.outbox|, RelayAt(s', r));
    assert s'.relays == s.relays[r := RelayAt(s', r)];
  }

  lemma OutboxWorker(s: System, w: WorkerId, x: WorkerStep)
    requires WorkerEnabled(s, w, x)
    ensures |NextWorker(s, w, x).outbox| >= |s.outbox| && NextWorker(s, w, x).relays == s.relays
  {
    match x
    case Post => BookFrame(s, w, x);
    case Ask(_) => BookFrame(s, w, x);
    case Update => BookFrame(s, w, x);
    case Append =>
    case Write =>
    case Ack(_) =>
    case _ => ReadFrame(s, w, x);
  }

  lemma BatchStep(s: System, a: Action)
    requires BatchesOk(s) && Enabled(s, a)
    ensures BatchesOk(Next(s, a))
  {
    match a
    case Relay(r, y) => BatchRelay(s, r, y);
    case Worker(w, x) => OutboxWorker(s, w, x);
    case Handler(h) => assert Next(s, a).relays == s.relays && |Next(s, a).outbox| >= |s.outbox|;
    case SetStatus(_, _) =>
  }

  lemma {:induction false} BatchRun(g: Regime, s0: System, acts: seq<Action>, s: System)
    requires Init(s0) && Run(g, s0, acts, s)
    ensures BatchesOk(s)
    decreases |acts|
  {
    if |acts| > 0 {
      var n := |acts| - 1;
      var m :| Run(g, s0, acts[..n], m) && StepOk(g, m, acts[n]) && s == Next(m, acts[n]);
      BatchRun(g, s0, acts[..n], m);
      BatchStep(m, acts[n]);
    }
  }
}
