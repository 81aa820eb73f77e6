/**
 Order of events over all runs: no payout without an accepted bank call, no bank
 call without a committed debit, no refund without a refused bank call, and never
 both a payout and a refund of one transfer.
 */
module Causality {
  import opened Ledger
  import opened Transfers
  import opened Protocol
  import opened History

  /** Among the first `n` records there is one of transfer `id` with this tag. */
  ghost predicate Seen(log: seq<Record>, n: nat, id: TransferId, tag: Tag) {
    exists j :: 0 <= j < n && j < |log| && log[j].id == id && log[j].tag == tag
  }

  predicate Reached(history: map<TransferId, seq<Row>>, id: TransferId, version: int, state: State) {
    id in history && 0 < version <= |history[id]| && history[id][version - 1].state == state
  }

  ghost predicate CausalAt(history: map<TransferId, seq<Row>>, log: seq<Record>, i: nat)
    requires i < |log|
  {
    var id := log[i].id;
    match log[i].tag
    case Asked(_) => Seen(log, i, id, Posted(Reserve))
    case Posted(k) =>
      match k
      case Reserve => true
      case Pay => Seen(log, i, id, Asked(true)) && Reached(history, id, 3, BankCalled)
      case Refund => Seen(log, i, id, Asked(false)) && Reached(history, id, 3, Compensating)
      case Clawback => false
  }

  /** What a stored version needs as evidence is in the log. */
  ghost predicate Backed(log: seq<Record>, r: Row) {
    Evidence(r).Some? ==> Seen(log, |log|, r.id, Evidence(r).value)
  }

  ghost predicate CausalOf(history: map<TransferId, seq<Row>>, log: seq<Record>) {
    && (forall i :: 0 <= i < |log| ==> CausalAt(history, log, i))
    && forall id, k :: id in history && 0 <= k < |history[id]| ==> Backed(log, history[id][k])
  }

  ghost predicate Causal(s: System) {
    CausalOf(s.book.history, s.book.log)
  }

  ghost predicate TagsKept(log: seq<Record>, log': seq<Record>) {
    |log| <= |log'| && forall i :: 0 <= i < |log| ==> log'[i].id == log[i].id && log'[i].tag == log[i].tag
  }

  lemma SeenKept(log: seq<Record>, log': seq<Record>, n: nat, n': nat, id: TransferId, tag: Tag)
    requires TagsKept(log, log') && n <= n' && Seen(log, n, id, tag)
    ensures Seen(log', n', id, tag)
  {
    var j :| 0 <= j < n && j < |log| && log[j].id == id && log[j].tag == tag;
    assert log'[j].id == id;
  }

  lemma CausalKeptAt(history: map<TransferId, seq<Row>>, history': map<TransferId, seq<Row>>,
                     log: seq<Record>, log': seq<Record>, i: nat)
    requires i < |log| && CausalAt(history, log, i)
    requires HistoryGrows(history, history') && TagsKept(log, log')
    ensures CausalAt(history', log', i)
  {
    var id := log[i].id;
    match log[i].tag {
      case Asked(_) => SeenKept(log, log', i, i, id, Posted(Reserve));
      case Posted(k) =>
        if k == Pay {
          SeenKept(log, log', i, i, id, Asked(true));
        } else if k == Refund {
          SeenKept(log, log', i, i, id, Asked(false));
        }
    }
  }

  /** Steps that neither record nor store a version. */
  lemma CausalKept(history: map<TransferId, seq<Row>>, log: seq<Record>, log': seq<Record>)
    requires CausalOf(history, log) && TagsKept(log, log') && |log| == |log'|
    ensures CausalOf(history, log')
  {
    forall i | 0 <= i < |log'| ensures CausalAt(history, log', i) {
      CausalKeptAt(history, history, log, log', i);
    }
    BackedKept(history, log, log');
  }

  lemma BackedKept(history: map<TransferId, seq<Row>>, log: seq<Record>, log': seq<Record>)
    requires CausalOf(history, log) && TagsKept(log, log')
    ensures forall id, k :: id in history && 0 <= k < |history[id]| ==> Backed(log', history[id][k])
  {
    forall id, k | id in history && 0 <= k < |history[id]| ensures Backed(log', history[id][k]) {
      var r := history[id][k];
      if Evidence(r).Some? {
        SeenKept(log, log', |log|, |log'|, r.id, Evidence(r).value);
      }
    }
  }

  lemma CausalSnoc(history: map<TransferId, seq<Row>>, log: seq<Record>, r: Record)
    requires CausalOf(history, log) && CausalAt(history, log + [r], |log|)
    ensures CausalOf(history, log + [r])
  {
    forall i | 0 <= i < |log| ensures CausalAt(history, log + [r], i) {
      CausalKeptAt(history, history, log, log + [r], i);
    }
    BackedKept(history, log, log + [r]);
  }

  lemma CausalVersion(history: map<TransferId, seq<Row>>, history': map<TransferId, seq<Row>>, log: seq<Record>, t: Row)
    requires CausalOf(history, log) && Backed(log, t)
    requires HistoryGrows(history, history')
    requires forall id, k :: id in history' && 0 <= k < |history'[id]| ==>
               history'[id][k] == t || (id in history && k < |history[id]|)
    ensures CausalOf(history', log)
  {
    forall i | 0 <= i < |log| ensures CausalAt(history', log, i) {
      CausalKeptAt(history, history', log, log, i);
    }
  }

  /** A stored copy's evidence is in the log. */
  lemma CopyBacked(s: System, t: Row)
    requires Core(s) && Causal(s) && IsVersion(s.book.history, t)
    ensures Backed(s.book.log, t) && Reached(s.book.history, t.id, t.version, t.state) && Shape(t)
  {
    VersionShape(s, t);
    assert Backed(s.book.log, s.book.history[t.id][t.version - 1]);
  }

  /** The new record of a booking worker is caused by what its copy shows. */
  lemma BookingCausal(history: map<TransferId, seq<Row>>, log: seq<Record>, t: Row, r: Record)
    requires Backed(log, t) && Reached(history, t.id, t.version, t.state) && Shape(t)
    requires r.id == t.id
    requires r.tag == Posted(Reserve)
             || (r.tag == Posted(Pay) && t.state == BankCalled)
             || (r.tag == Posted(Refund) && t.state == Compensating)
             || (r.tag.Asked? && t.state == Debited)
    ensures CausalAt(history, log + [r], |log|)
  {
    if r.tag != Posted(Reserve) {
      SeenKept(log, log + [r], |log|, |log|, t.id, Evidence(t).value);
    }
  }

  /** A worker's posting is one its copy calls for. */
  lemma BookingDue(s: System, w: WorkerId)
    requires Core(s) && Causal(s) && Pc(s, w).Booking?
    ensures var pc := Pc(s, w);
            && Backed(s.book.log, pc.t) && Reached(s.book.history, pc.t.id, pc.t.version, pc.t.state) && Shape(pc.t)
            && pc.kind != Clawback
            && pc.t.state ==
               (if pc.kind == Reserve then Pending else if pc.kind == Pay then BankCalled else Compensating)
  {
    assert PcOk(s.book.history, s.stream, Pc(s, w));
    CopyBacked(s, Pc(s, w).t);
  }

  lemma CausalPost(s: System, w: WorkerId)
    requires Core(s) && Causal(s) && WorkerEnabled(s, w, Post)
    ensures Causal(NextPost(s, w))
  {
    var pc := Pc(s, w);
    match PostingFor(pc.kind, pc.t)
    case Ok(p) =>
      var r := Record(pc.t.id, Posted(pc.kind), p.Entries(), Open(w));
      BookingDue(s, w);
      BookingCausal(s.book.history, s.book.log, pc.t, r);
      CausalSnoc(s.book.history, s.book.log, r);
    case Err => CausalDrop(s, w);
  }

  lemma CausalAsk(s: System, w: WorkerId, reply: Reply)
    requires Core(s) && Causal(s) && WorkerEnabled(s, w, Ask(reply))
    ensures Causal(NextAsk(s, w, reply))
  {
    var t := Pc(s, w).t;
    var r := NextAsk(s, w, reply).book.log[|s.book.log|];
    CopyBacked(s, t);
    BookingCausal(s.book.history, s.book.log, t, r);
    CausalSnoc(s.book.history, s.book.log, r);
  }

  lemma CausalDrop(s: System, w: WorkerId)
    requires Causal(s)
    ensures Causal(Drop(s, w))
  {
    CausalKept(s.book.history, s.book.log, Settle(s.book.log, Slot(Pc(s, w)), Lost));
  }

  lemma CausalStored(s: System, w: WorkerId)
    requires Core(s) && Causal(s) && Pc(s, w).Updating?
    requires s.book.rows[Pc(s, w).t.id].version == Pc(s, w).t.version - 1
    ensures Causal(NextUpdate(s, w))
  {
    var pc := Pc(s, w);
    UpdateSucceeds(s, w);
    UpdateBacked(s, w);
    UpdateCausal(s.book, pc.t, pc.slot);
  }

  lemma CausalUpdate(s: System, w: WorkerId)
    requires Core(s) && Causal(s) && WorkerEnabled(s, w, Update)
    ensures Causal(NextUpdate(s, w))
  {
    var t := Pc(s, w).t;
    if s.book.rows[t.id].version == t.version - 1 {
      CausalStored(s, w);
    } else {
      assert NextUpdate(s, w) == Drop(s, w);
      CausalDrop(s, w);
    }
  }

  lemma UpdateCausal(b: Book, t: Row, slot: Option<nat>)
    requires CausalOf(b.history, b.log) && t.id in b.history
    requires Backed(Settle(b.log, slot, Applied), t)
    ensures CausalOf(UpdatedRow(b, t, slot).history, UpdatedRow(b, t, slot).log)
  {
    var log' := Settle(b.log, slot, Applied);
    CausalKept(b.history, b.log, log');
    CausalVersion(b.history, b.history[t.id := b.history[t.id] + [t]], log', t);
  }

  lemma UpdateBacked(s: System, w: WorkerId)
    requires Core(s) && Pc(s, w).Updating?
    ensures Backed(Settle(s.book.log, Pc(s, w).slot, Applied), Pc(s, w).t)
  {
    var pc := Pc(s, w);
    if Evidence(pc.t).Some? {
      assert Settle(s.book.log, pc.slot, Applied)[pc.slot.value].id == pc.t.id;
    }
  }

  lemma CausalQuiet(s: System, w: WorkerId, x: WorkerStep)
    requires Causal(s) && WorkerEnabled(s, w, x) && !x.Post? && !x.Ask? && !x.Update?
    ensures Causal(NextWorker(s, w, x))
  {
    QuietWorker(s, w, x);
    CausalKept(s.book.history, s.book.log, Settle(s.book.log, Slot(Pc(s, w)), Lost));
  }

  lemma CausalWorkerStep(s: System, w: WorkerId, x: WorkerStep)
    requires Core(s) && Causal(s) && WorkerEnabled(s, w, x)
    ensures Causal(NextWorker(s, w, x))
  {
    if x.Post? {
      CausalPost(s, w);
    } else if x.Ask? {
      CausalAsk(s, w, x.reply);
    } else if x.Update? {
      CausalUpdate(s, w);
    } else {
      CausalQuiet(s, w, x);
    }
  }

  lemma CausalSave(s: System, row: Row)
    requires Core(s) && Causal(s) && HandlerEnabled(s, Save(row))
    ensures Causal(NextHandler(s, Save(row)))
  {
    CausalVersion(s.book.history, s.book.history[row.id := [row]], s.book.log, row);
  }

  lemma CausalStep(s: System, a: Action)
    requires Core(s) && Causal(s) && Enabled(s, a)
    ensures Causal(Next(s, a))
  {
    if a.Worker? {
      CausalWorkerStep(s, a.w, a.x);
    } else if a.Handler? && a.h.Save? {
      CausalSave(s, a.h.row);
    } else {
      assert Next(s, a).book == s.book;
    }
  }

  lemma {:induction false} CausalRun(g: Regime, s0: System, acts: seq<Action>, s: System)
    requires Init(s0) && Run(g, s0, acts, s)
    ensures Core(s) && Causal(s)
    decreases |acts|
  {
    if |acts| > 0 {
      var n := |acts| - 1;
      var m :| Run(g, s0, acts[..n], m) && StepOk(g, m, acts[n]) && s == Next(m, acts[n]);
      CausalRun(g, s0, acts[..n], m);
      CoreStep(m, acts[n]);
      CausalStep(m, acts[n]);
    }
  }

  // ---- Theorems ----

  /** The ledger entry was written after the run began and belongs to this kind of posting of this transfer. */
  predicate Holds(s: System, k: nat, kind: Kind, id: TransferId) {
    |s.book.opening| <= k < |s.book.ledger| && s.book.ledger[k].memo == ForTransfer(kind, id)
  }

  lemma {:induction false} EntryHasRecord(rows: map<TransferId, Row>, log: seq<Record>, k: nat) returns (i: nat)
    requires RecordsOk(rows, log) && k < |AllEntries(log)|
    ensures i < |log| && log[i].tag.Posted?
            && AllEntries(log)[k].memo == ForTransfer(log[i].tag.kind, log[i].id)
  {
    var n := |log| - 1;
    if k < |AllEntries(log[..n])| {
      i := EntryHasRecord(rows, log[..n], k);
    } else {
      i := n;
      var e := k - |AllEntries(log[..n])|;
      assert RecordOk(rows, log[n]);
      assert AllEntries(log)[k] == log[n].entries[e];
      if log[n].tag.Posted? {
        var p := PostingFor(log[n].tag.kind, rows[log[n].id]).value;
        assert log[n].entries[e] == p.debit || log[n].entries[e] == p.credit;
      }
    }
  }

  lemma EntryReached(s: System, id: TransferId, kind: Kind, k: nat)
    requires RecordsOk(s.book.rows, s.book.log) && LedgerOk(s.book.opening, s.book.log, s.book.ledger) && Causal(s)
    requires Holds(s, k, kind, id)
    ensures kind != Clawback
    ensures kind == Pay ==> Reached(s.book.history, id, 3, BankCalled)
    ensures kind == Refund ==> Reached(s.book.history, id, 3, Compensating)
  {
    var i := EntryHasRecord(s.book.rows, s.book.log, k - |s.book.opening|);
    assert CausalAt(s.book.history, s.book.log, i);
  }

  /** No transfer is ever both paid out and refunded. */
  lemma NeverPaidAndRefunded(g: Regime, s0: System, acts: seq<Action>, s: System, id: TransferId, j: nat, k: nat)
    requires Init(s0) && Run(g, s0, acts, s)
    ensures !(Holds(s, j, Pay, id) && Holds(s, k, Refund, id))
  {
    CausalRun(g, s0, acts, s);
    if Holds(s, j, Pay, id) && Holds(s, k, Refund, id) {
      EntryReached(s, id, Pay, j);
      EntryReached(s, id, Refund, k);
    }
  }

  /** The credit leg is never reversed: compensation starts only before the credit. */
  lemma NeverClawedBack(g: Regime, s0: System, acts: seq<Action>, s: System, id: TransferId, k: nat, w: WorkerId)
    requires Init(s0) && Run(g, s0, acts, s)
    ensures !Holds(s, k, Clawback, id)
    ensures Pc(s, w).Booking? ==> Pc(s, w).kind != Clawback
  {
    CausalRun(g, s0, acts, s);
    if Holds(s, k, Clawback, id) {
      EntryReached(s, id, Clawback, k);
    }
  }

  /**
   Every bank call follows a committed debit, every payout an accepted bank call,
   every refund a refused bank call, all of the same transfer. Positions in the log
   are moments in time.
   */
  lemma CausalOrder(g: Regime, s0: System, acts: seq<Action>, s: System, i: nat)
    requires Init(s0) && Run(g, s0, acts, s) && i < |s.book.log|
    ensures s.book.log[i].tag.Asked? ==> Seen(s.book.log, i, s.book.log[i].id, Posted(Reserve))
    ensures s.book.log[i].tag == Posted(Pay) ==> Seen(s.book.log, i, s.book.log[i].id, Asked(true))
    ensures s.book.log[i].tag == Posted(Refund) ==> Seen(s.book.log, i, s.book.log[i].id, Asked(false))
  {
    CausalRun(g, s0, acts, s);
    assert CausalAt(s.book.history, s.book.log, i);
  }

  /**
   The optimistic lock makes row history linear: versions 1, 2, 3, ... each written
   once, each move legal, the immutable columns constant, the last version current.
   */
  lemma RowHistoryIsLinear(g: Regime, s0: System, acts: seq<Action>, s: System, id: TransferId, k: nat)
    requires Init(s0) && Run(g, s0, acts, s) && id in s.book.rows
    ensures id in s.book.history && |s.book.history[id]| > 0
    ensures s.book.history[id][|s.book.history[id]| - 1] == s.book.rows[id]
    ensures s.book.rows[id].version == |s.book.history[id]|
    ensures k < |s.book.history[id]| ==>
              s.book.history[id][k].version == k + 1 && s.book.history[id][k].SameContract(s.book.rows[id])
    ensures 0 < k < |s.book.history[id]| ==> Legal(s.book.history[id][k - 1].state, s.book.history[id][k].state)
  {
    CoreRun(g, s0, acts, s);
    var h := s.book.history[id];
    assert h[|h| - 1].version == |h|;
    assert h[0].SameContract(h[|h| - 1]);
    assert StepAt(h, k);
  }

  /** An UpdateState that changes the row was made from the current row and stores exactly the worker's copy. */
  lemma UpdateOnlyFromCurrent(g: Regime, s0: System, acts: seq<Action>, s: System, w: WorkerId)
    requires Init(s0) && Run(g, s0, acts, s) && Pc(s, w).Updating?
    ensures var t := Pc(s, w).t;
            var s' := NextUpdate(s, w);
            && t.id in s.book.rows
            && (s'.book.rows != s.book.rows <==> s.book.rows[t.id].version == t.version - 1)
            && (s'.book.rows != s.book.rows ==>
                  Successor(s.book.rows[t.id], t) && s'.book.rows == s.book.rows[t.id := t])
            && (s'.book.rows == s.book.rows ==> Pc(s', w).Idle?)
  {
    CoreRun(g, s0, acts, s);
    var t := Pc(s, w).t;
    if s.book.rows[t.id].version == t.version - 1 {
      UpdateIsCurrent(s, w);
      assert NextUpdate(s, w).book.rows[t.id] == t;
    }
  }

  /** The stored state fixes version and flags. */
  lemma StateFixesVersionAndFlags(g: Regime, s0: System, acts: seq<Action>, s: System, id: TransferId)
    requires Init(s0) && Run(g, s0, acts, s) && id in s.book.rows
    ensures Shape(s.book.rows[id])
    ensures s.book.rows[id].creditPosted <==> s.book.rows[id].state == Credited || s.book.rows[id].state == Completed
  {
    CoreRun(g, s0, acts, s);
    CurrentIsVersion(s, id);
    VersionShape(s, s.book.rows[id]);
  }
}
