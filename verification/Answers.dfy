/**
 What a row says about the outside world is true. In every run, the external reference
 of a row is the one the bank accepted the transfer with, and its failure reason is the
 one the bank refused it with, or the reason for which its source account was found
 unable to pay.
 */
module Answers {
  import opened Ledger
  import opened Transfers
  import opened Protocol
  import opened History
  import opened Overdraft
  import opened Backend

  /** A trace and a position in it. */
  datatype Past = Past(states: seq<System>, acts: seq<Action>, n: nat)

  ghost predicate PastOk(k: Past) {
    Trace(ANY, k.states, k.acts) && k.n <= |k.acts|
  }

  /** The i-th action asks the bank about the transfer and gets this reply. */
  predicate AsksAt(k: Past, i: nat, id: TransferId, reply: Reply) {
    && i < k.n <= |k.acts| && i < |k.states| && k.acts[i].Worker? && k.acts[i].x == Ask(reply)
    && Pc(k.states[i], k.acts[i].w).Calling? && Pc(k.states[i], k.acts[i].w).t.id == id
  }

  /** The bank has given this reply to a call for the transfer. */
  ghost predicate Answered(k: Past, id: TransferId, reply: Reply) {
    exists i: nat :: AsksAt(k, i, id, reply)
  }

  /** The i-th action finds the source account of the transfer unable to pay. */
  predicate DeclinesAt(k: Past, i: nat, id: TransferId, reason: string) {
    && i < k.n <= |k.acts| && i < |k.states| && k.acts[i].Worker?
    && var s, pc := k.states[i], Pc(k.states[i], k.acts[i].w);
       if reason == NOT_TRANSACTABLE then
         && k.acts[i].x.Lock? && pc.Locking? && pc.t.id == id
         && pc.t.src in s.accounts && s.accounts[pc.t.src] != Active
       else
         && reason == INSUFFICIENT_FUNDS && k.acts[i].x.Check? && pc.Checking? && pc.t.id == id
         && Balance(s.book.ledger, pc.t.src, pc.t.amount.currency) < pc.t.amount.amount
  }

  ghost predicate Declined(k: Past, id: TransferId, reason: string) {
    exists i: nat :: DeclinesAt(k, i, id, reason)
  }

  /** Reference and reason of the row are what its transfer was told. */
  ghost predicate Told(k: Past, r: Row) {
    match r.state
    case Pending => r.externalRef == "" && r.failureReason == ""
    case Debited => r.externalRef == "" && r.failureReason == ""
    case BankCalled => r.failureReason == "" && Answered(k, r.id, Accepted(r.externalRef))
    case Credited => r.failureReason == "" && Answered(k, r.id, Accepted(r.externalRef))
    case Completed => r.failureReason == "" && Answered(k, r.id, Accepted(r.externalRef))
    case Compensating => r.externalRef == "" && Answered(k, r.id, Refused(r.failureReason))
    case Failed =>
      && r.externalRef == ""
      && if r.debitPosted then Answered(k, r.id, Refused(r.failureReason)) else Declined(k, r.id, r.failureReason)
  }

  ghost predicate TableTold(k: Past, rows: map<TransferId, Row>) {
    forall id :: id in rows ==> Told(k, rows[id])
  }

  ghost predicate CopyTold(k: Past, pc: WorkerPc) {
    HasCopy(pc) ==> Told(k, pc.t)
  }

  ghost predicate CopiesTold(k: Past, workers: map<WorkerId, WorkerPc>) {
    forall w :: w in workers ==> CopyTold(k, workers[w])
  }

  /** What was told stays told. */
  lemma ToldLater(k: Past, r: Row)
    requires Told(k, r) && k.n < |k.acts|
    ensures Told(k.(n := k.n + 1), r)
  {
    var k' := k.(n := k.n + 1);
    forall reply | Answered(k, r.id, reply) ensures Answered(k', r.id, reply) {
      var i: nat :| AsksAt(k, i, r.id, reply);
      assert AsksAt(k', i, r.id, reply);
    }
    forall reason | Declined(k, r.id, reason) ensures Declined(k', r.id, reason) {
      var i: nat :| DeclinesAt(k, i, r.id, reason);
      assert DeclinesAt(k', i, r.id, reason);
    }
  }

  /** The last action is this worker's step in `s`. */
  ghost predicate Stepping(k: Past, s: System, w: WorkerId, x: WorkerStep) {
    && 0 < k.n <= |k.acts| && |k.states| == |k.acts| + 1
    && k.states[k.n - 1] == s && k.acts[k.n - 1] == Worker(w, x) && WorkerEnabled(s, w, x)
  }

  lemma ToldDispatch(k: Past, msg: nat, t: Row)
    requires Told(k, t) && Shape(t)
    ensures CopyTold(k, Dispatch(msg, t))
  {
  }

  lemma ToldLoad(k: Past, s: System, w: WorkerId)
    requires Core(s) && Stepping(k, s, w, Load) && TableTold(k, s.book.rows)
    ensures CopyTold(k, Pc(NextLoad(s, w), w))
  {
    var id := s.stream[Pc(s, w).msg].id;
    if id in s.book.rows {
      CurrentIsVersion(s, id);
      VersionShape(s, s.book.rows[id]);
      ToldDispatch(k, Pc(s, w).msg, s.book.rows[id]);
    }
  }

  lemma ToldFail(k: Past, msg: nat, t: Row, reason: string)
    requires t.state == Pending && !t.debitPosted && Told(k, t) && Declined(k, t.id, reason)
    ensures CopyTold(k, FailWith(msg, t, reason, None))
  {
  }

  lemma PendingCopy(s: System, w: WorkerId)
    requires Core(s) && (Pc(s, w).Locking? || Pc(s, w).Checking?)
    ensures Pc(s, w).t.state == Pending && !Pc(s, w).t.debitPosted
  {
    assert PcOk(s.book.history, s.stream, Pc(s, w));
    VersionShape(s, Pc(s, w).t);
  }

  lemma ToldLock(k: Past, s: System, w: WorkerId)
    requires Core(s) && Stepping(k, s, w, Lock) && CopyTold(k, Pc(s, w))
    ensures CopyTold(k, Pc(NextLock(s, w), w))
  {
    var pc := Pc(s, w);
    PendingCopy(s, w);
    if pc.t.src in s.accounts && s.accounts[pc.t.src] != Active {
      assert DeclinesAt(k, k.n - 1, pc.t.id, NOT_TRANSACTABLE);
      ToldFail(k, pc.msg, pc.t, NOT_TRANSACTABLE);
    }
  }

  lemma ToldCheck(k: Past, s: System, w: WorkerId)
    requires Core(s) && Stepping(k, s, w, Check) && CopyTold(k, Pc(s, w))
    ensures CopyTold(k, Pc(NextCheck(s, w), w))
  {
    var pc := Pc(s, w);
    PendingCopy(s, w);
    var balance := Balance(s.book.ledger, pc.t.src, pc.t.amount.currency);
    if IsInt64(balance) && balance < pc.t.amount.amount {
      assert DeclinesAt(k, k.n - 1, pc.t.id, INSUFFICIENT_FUNDS);
      ToldFail(k, pc.msg, pc.t, INSUFFICIENT_FUNDS);
    }
  }

  lemma ToldPosted(k: Past, msg: nat, t: Row, kind: Kind, i: nat)
    requires Told(k, t) && Shape(t) && kind != Clawback
    requires t.state == (if kind == Reserve then Pending else if kind == Pay then BankCalled else Compensating)
    ensures CopyTold(k, AfterPost(msg, t, kind, i))
  {
  }

  lemma ToldPost(k: Past, s: System, w: WorkerId)
    requires Core(s) && Stepping(k, s, w, Post) && CopyTold(k, Pc(s, w))
    ensures CopyTold(k, Pc(NextPost(s, w), w))
  {
    var pc := Pc(s, w);
    assert PcOk(s.book.history, s.stream, pc);
    VersionShape(s, pc.t);
    ToldPosted(k, pc.msg, pc.t, pc.kind, |s.book.log|);
  }

  lemma ToldAnswer(k: Past, msg: nat, t: Row, reply: Reply, i: nat)
    requires t.state == Debited && Told(k, t) && Answered(k, t.id, reply)
    ensures CopyTold(k, AfterBank(msg, t, reply, i))
  {
  }

  lemma ToldAsk(k: Past, s: System, w: WorkerId, reply: Reply)
    requires Core(s) && Stepping(k, s, w, Ask(reply)) && CopyTold(k, Pc(s, w))
    ensures CopyTold(k, Pc(NextAsk(s, w, reply), w))
  {
    var pc := Pc(s, w);
    assert PcOk(s.book.history, s.stream, pc);
    assert AsksAt(k, k.n - 1, pc.t.id, reply);
    ToldAnswer(k, pc.msg, pc.t, reply, |s.book.log|);
  }

  lemma ToldStored(k: Past, msg: nat, t: Row)
    requires Told(k, t) && Shape(t)
    ensures CopyTold(k, AfterUpdate(msg, t))
  {
  }

  lemma ToldSuccess(k: Past, s: System, w: WorkerId)
    requires Core(s) && CopyTold(k, Pc(s, w)) && TableTold(k, s.book.rows) && Pc(s, w).Updating?
    requires s.book.rows[Pc(s, w).t.id].version == Pc(s, w).t.version - 1
    ensures CopyTold(k, Pc(NextUpdate(s, w), w)) && TableTold(k, NextUpdate(s, w).book.rows)
  {
    var pc := Pc(s, w);
    UpdateSucceeds(s, w);
    ShapeOfCopy(s, w);
    ToldStored(k, pc.msg, pc.t);
  }

  lemma ToldUpdate(k: Past, s: System, w: WorkerId)
    requires Core(s) && Stepping(k, s, w, Update) && CopyTold(k, Pc(s, w)) && TableTold(k, s.book.rows)
    ensures CopyTold(k, Pc(NextUpdate(s, w), w)) && TableTold(k, NextUpdate(s, w).book.rows)
  {
    var t := Pc(s, w).t;
    if s.book.rows[t.id].version == t.version - 1 {
      ToldSuccess(k, s, w);
    } else {
      assert NextUpdate(s, w) == Drop(s, w);
    }
  }

  lemma ShapeOfCopy(s: System, w: WorkerId)
    requires Core(s) && Pc(s, w).Updating?
    ensures Shape(Pc(s, w).t)
  {
    assert PcOk(s.book.history, s.stream, Pc(s, w));
  }

  lemma ToldWorker(k: Past, s: System, w: WorkerId, x: WorkerStep)
    requires Core(s) && Stepping(k, s, w, x) && CopyTold(k, Pc(s, w)) && TableTold(k, s.book.rows)
    ensures CopyTold(k, Pc(NextWorker(s, w, x), w)) && TableTold(k, NextWorker(s, w, x).book.rows)
  {
    if !x.Update? {
      TableFrame(s, w, x);
    }
    match x
    case Load => ToldLoad(k, s, w);
    case Lock => ToldLock(k, s, w);
    case Check => ToldCheck(k, s, w);
    case Post => ToldPost(k, s, w);
    case Ask(reply) => ToldAsk(k, s, w, reply);
    case Update => ToldUpdate(k, s, w);
    case _ =>
  }

  lemma ToldStep(k: Past, s: System, a: Action)
    requires Core(s) && PastOk(k) && 0 < k.n && k.states[k.n - 1] == s && k.acts[k.n - 1] == a && Enabled(s, a)
    requires TableTold(k, s.book.rows) && CopiesTold(k, s.workers)
    ensures TableTold(k, Next(s, a).book.rows) && CopiesTold(k, Next(s, a).workers)
  {
    match a
    case Worker(w, x) =>
      ToldWorker(k, s, w, x);
      WorkerFrame(s, w, x);
    case Handler(h) => assert Next(s, a) == NextHandler(s, h);
    case _ => assert Next(s, a).book == s.book && Next(s, a).workers == s.workers;
  }

  /** What was told before the last action is told after it. */
  lemma AllToldLater(k: Past, s: System)
    requires PastOk(k) && k.n < |k.acts| && TableTold(k, s.book.rows) && CopiesTold(k, s.workers)
    ensures TableTold(k.(n := k.n + 1), s.book.rows) && CopiesTold(k.(n := k.n + 1), s.workers)
  {
    forall r | Told(k, r) ensures Told(k.(n := k.n + 1), r) {
      ToldLater(k, r);
    }
  }

  lemma {:induction false} ToldRun(k: Past)
    requires PastOk(k) && Init(k.states[0])
    ensures TableTold(k, k.states[k.n].book.rows) && CopiesTold(k, k.states[k.n].workers)
    decreases k.n
  {
    if k.n > 0 {
      var n := k.n - 1;
      ToldRun(k.(n := n));
      AllToldLater(k.(n := n), k.states[n]);
      TraceTo(ANY, k.states, k.acts, n);
      CoreRun(ANY, k.states[0], k.acts[..n], k.states[n]);
      assert LinkOk(ANY, k.states, k.acts, n);
      ToldStep(k, k.states[n], k.acts[n]);
    }
  }

  /**
   In every run: the external reference of a row that is BANK_CALLED or further is the
   reference of an accepting bank call for that transfer; the failure reason of a row that
   is compensating or was refunded is the reason of a refusing bank call for it; a row
   that failed without a debit says why its source could not pay, and it could not. All
   other rows have neither.
   */
  lemma RowsTellTheTruth(states: seq<System>, acts: seq<Action>, id: TransferId)
    requires Trace(ANY, states, acts) && Init(states[0]) && id in states[|acts|].book.rows
    ensures Told(Past(states, acts, |acts|), states[|acts|].book.rows[id])
  {
    ToldRun(Past(states, acts, |acts|));
  }

  /** The stored rows tell the truth at any time, whatever fails or interferes. */
  lemma StoreTellsTheTruth(db: Store, id: TransferId)
    requires db.Valid() && id in db.rows
    ensures Told(Past(db.states, db.trace, |db.trace|), db.rows[id])
  {
    RowsTellTheTruth(db.states, db.trace, id);
  }
}
