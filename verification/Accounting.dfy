/**
 Exact accounting over all runs. The effect of a transfer on every account is the
 effect fixed by its stored state and flags plus the effect of the postings whose
 row update is outstanding or was lost. Totals per currency never change.
 */
module Accounting {
  import opened Ledger
  import opened Transfers
  import opened Protocol
  import opened History

  // ---- Sums over the log ----

  datatype Measure = Number | Amount(account: AccountId, currency: Currency)

  /** Which records to sum: of one transfer or all, of one tag or all, applied or not. */
  datatype LogQuery = LogQuery(id: Option<TransferId>, tag: Option<Tag>, applied: bool, measure: Measure)

  predicate Matches(r: Record, q: LogQuery) {
    && (q.id.Some? ==> r.id == q.id.value)
    && (q.tag.Some? ==> r.tag == q.tag.value)
    && (r.fate == Applied) == q.applied
  }

  function Measured(r: Record, m: Measure): int {
    match m
    case Number => 1
    case Amount(account, currency) => SignedSum(r.entries, BalanceOf(account, currency))
  }

  function Weight(r: Record, q: LogQuery): int {
    if Matches(r, q) then Measured(r, q.measure) else 0
  }

  function Tally(log: seq<Record>, q: LogQuery): int {
    if |log| == 0 then 0 else Tally(log[..|log| - 1], q) + Weight(log[|log| - 1], q)
  }

  lemma TallySnoc(log: seq<Record>, r: Record, q: LogQuery)
    ensures Tally(log + [r], q) == Tally(log, q) + Weight(r, q)
  {
    assert (log + [r])[..|log|] == log;
  }

  lemma {:induction false} TallySettle(log: seq<Record>, i: nat, fate: Fate, q: LogQuery)
    requires i < |log|
    ensures Tally(Settle(log, Some(i), fate), q)
            == Tally(log, q) - Weight(log[i], q) + Weight(log[i].(fate := fate), q)
  {
    var n := |log| - 1;
    var log' := Settle(log, Some(i), fate);
    if i < n {
      TallySettle(log[..n], i, fate, q);
      assert log'[..n] == Settle(log[..n], Some(i), fate);
    } else {
      assert log'[..n] == log[..n];
    }
  }

  lemma {:induction false} TallyAbsent(log: seq<Record>, id: TransferId, q: LogQuery)
    requires q.id == Some(id) && forall i :: 0 <= i < |log| ==> log[i].id != id
    ensures Tally(log, q) == 0
  {
    if |log| > 0 {
      TallyAbsent(log[..|log| - 1], id, q);
    }
  }

  // ---- What a stored row says has been applied ----

  /** The row shows that a record with this tag has been applied. */
  predicate Shows(r: Row, tag: Tag) {
    match tag
    case Asked(ok) =>
      if ok then r.state == BankCalled || r.state == Credited || r.state == Completed
      else r.state == Compensating || (r.state == Failed && r.debitPosted)
    case Posted(k) =>
      match k
      case Reserve => r.debitPosted
      case Pay => r.creditPosted
      case Refund => r.state == Failed && r.debitPosted
      case Clawback => false
  }

  /** What one posting of a transfer does to an account. */
  function KindEffect(k: Kind, r: Row, account: AccountId, currency: Currency): int {
    if currency == r.amount.currency then Move(Legs(k, r).0, Legs(k, r).1, r.amount.amount, account) else 0
  }

  function IfShown(r: Row, k: Kind, account: AccountId, currency: Currency): int {
    if Shows(r, Posted(k)) then KindEffect(k, r, account, currency) else 0
  }

  /** The effect on an account that a stored row stands for. */
  function RowEffect(r: Row, account: AccountId, currency: Currency): int {
    IfShown(r, Reserve, account, currency) + IfShown(r, Pay, account, currency) + IfShown(r, Refund, account, currency)
  }

  function CountOf(id: TransferId, tag: Tag, applied: bool): LogQuery {
    LogQuery(Some(id), Some(tag), applied, Number)
  }

  function EffectOf(id: TransferId, applied: bool, account: AccountId, currency: Currency): LogQuery {
    LogQuery(Some(id), None, applied, Amount(account, currency))
  }

  ghost predicate CountsOk(log: seq<Record>, r: Row) {
    forall tag :: Tally(log, CountOf(r.id, tag, true)) == if Shows(r, tag) then 1 else 0
  }

  ghost predicate EffectsOk(log: seq<Record>, r: Row) {
    forall account, currency :: Tally(log, EffectOf(r.id, true, account, currency)) == RowEffect(r, account, currency)
  }

  ghost predicate BooksOf(rows: map<TransferId, Row>, log: seq<Record>) {
    forall id :: id in rows ==> rows[id].id == id && CountsOk(log, rows[id]) && EffectsOk(log, rows[id])
  }

  ghost predicate Books(s: System) {
    BooksOf(s.book.rows, s.book.log)
  }

  // ---- Preservation ----

  /** Two logs that agree on everything applied. */
  ghost predicate SameApplied(log: seq<Record>, log': seq<Record>) {
    forall q: LogQuery :: q.applied ==> Tally(log', q) == Tally(log, q)
  }

  lemma BooksKept(rows: map<TransferId, Row>, log: seq<Record>, log': seq<Record>)
    requires BooksOf(rows, log) && SameApplied(log, log')
    ensures BooksOf(rows, log')
  {
  }

  lemma OpenIsUnapplied(log: seq<Record>, r: Record)
    requires r.fate != Applied
    ensures SameApplied(log, log + [r])
  {
    forall q: LogQuery | q.applied ensures Tally(log + [r], q) == Tally(log, q) {
      TallySnoc(log, r, q);
    }
  }

  lemma LosingIsUnapplied(log: seq<Record>, slot: Option<nat>)
    requires slot.Some? && slot.value < |log| ==> log[slot.value].fate != Applied
    ensures SameApplied(log, Settle(log, slot, Lost))
  {
    if slot.Some? && slot.value < |log| {
      forall q: LogQuery | q.applied ensures Tally(Settle(log, slot, Lost), q) == Tally(log, q) {
        TallySettle(log, slot.value, Lost, q);
      }
    }
  }

  lemma BooksDrop(s: System, w: WorkerId)
    requires Core(s) && Books(s)
    ensures Books(Drop(s, w))
  {
    SlotOwned(s.book.history, s.stream, s.book.log, s.workers, w);
    LosingIsUnapplied(s.book.log, Slot(Pc(s, w)));
    BooksKept(s.book.rows, s.book.log, Settle(s.book.log, Slot(Pc(s, w)), Lost));
  }

  lemma BooksRecord(s: System, id: TransferId, tag: Tag, entries: seq<LedgerEntry>, w: WorkerId)
    requires Books(s)
    ensures BooksOf(s.book.rows, Recorded(s.book, id, tag, entries, w).log)
  {
    var r := Record(id, tag, entries, Open(w));
    OpenIsUnapplied(s.book.log, r);
    BooksKept(s.book.rows, s.book.log, s.book.log + [r]);
  }

  lemma BooksSave(b: Book, row: Row)
    requires BooksOf(b.rows, b.log) && RecordsOk(b.rows, b.log) && row.Fresh() && row.id !in b.rows
    ensures BooksOf(SavedRow(b, row).rows, b.log)
  {
    forall q: LogQuery | q.id == Some(row.id) ensures Tally(b.log, q) == 0 {
      TallyAbsent(b.log, row.id, q);
    }
    assert CountsOk(b.log, row);
    assert EffectsOk(b.log, row);
  }

  /** Storing the next version shows exactly its evidence in addition. */
  lemma ShowsMore(b: Row, t: Row, tag: Tag)
    requires Successor(b, t) && Shape(b) && Shape(t)
    ensures Shows(t, tag) <==> Shows(b, tag) || Evidence(t) == Some(tag)
    ensures Evidence(t) == Some(tag) ==> !Shows(b, tag)
  {
  }

  lemma EffectMore(b: Row, t: Row, account: AccountId, currency: Currency)
    requires Successor(b, t) && Shape(b) && Shape(t)
    ensures RowEffect(t, account, currency)
            == RowEffect(b, account, currency)
               + (if Evidence(t).Some? && Evidence(t).value.Posted?
                  then KindEffect(Evidence(t).value.kind, t, account, currency) else 0)
  {
    ShowsMore(b, t, Posted(Reserve));
    ShowsMore(b, t, Posted(Pay));
    ShowsMore(b, t, Posted(Refund));
    assert forall k :: KindEffect(k, t, account, currency) == KindEffect(k, b, account, currency);
  }

  /** The log amount of a record is the effect of its posting. */
  lemma RecordMeasure(rows: map<TransferId, Row>, r: Record, account: AccountId, currency: Currency)
    requires RecordOk(rows, r)
    ensures Measured(r, Amount(account, currency))
            == if r.tag.Posted? then KindEffect(r.tag.kind, rows[r.id], account, currency) else 0
  {
    if r.tag.Posted? {
      var row := rows[r.id];
      var legs := Legs(r.tag.kind, row);
      PostingMoves(legs.0, legs.1, row.amount, ForTransfer(r.tag.kind, row.id), account, currency);
    }
  }

  /** Applying record `i` adds its weight to the queries it matches. */
  lemma Applying(log: seq<Record>, i: nat, q: LogQuery)
    requires i < |log| && log[i].fate != Applied && q.applied
    ensures Tally(Settle(log, Some(i), Applied), q) == Tally(log, q) + Weight(log[i].(fate := Applied), q)
  {
    TallySettle(log, i, Applied, q);
  }

  ghost predicate Evidenced(rows: map<TransferId, Row>, log: seq<Record>, t: Row, slot: Option<nat>) {
    match Evidence(t)
    case None => slot == None
    case Some(tag) =>
      && slot.Some? && slot.value < |log|
      && RecordOk(rows, log[slot.value])
      && log[slot.value].id == t.id && log[slot.value].tag == tag && log[slot.value].fate != Applied
  }

  /** The updated row agrees with the updated log. */
  lemma UpdatedCounts(rows: map<TransferId, Row>, log: seq<Record>, t: Row, slot: Option<nat>)
    requires t.id in rows && rows[t.id].id == t.id && CountsOk(log, rows[t.id])
    requires Successor(rows[t.id], t) && Shape(rows[t.id]) && Shape(t) && Evidenced(rows, log, t, slot)
    ensures CountsOk(Settle(log, slot, Applied), t)
  {
    forall tag ensures Tally(Settle(log, slot, Applied), CountOf(t.id, tag, true)) == if Shows(t, tag) then 1 else 0 {
      ShowsMore(rows[t.id], t, tag);
      if slot.Some? {
        Applying(log, slot.value, CountOf(t.id, tag, true));
      }
    }
  }

  lemma UpdatedEffects(rows: map<TransferId, Row>, log: seq<Record>, t: Row, slot: Option<nat>)
    requires t.id in rows && rows[t.id].id == t.id && EffectsOk(log, rows[t.id])
    requires Successor(rows[t.id], t) && Shape(rows[t.id]) && Shape(t) && Evidenced(rows, log, t, slot)
    ensures EffectsOk(Settle(log, slot, Applied), t)
  {
    forall account, currency
      ensures Tally(Settle(log, slot, Applied), EffectOf(t.id, true, account, currency))
              == RowEffect(t, account, currency)
    {
      EffectMore(rows[t.id], t, account, currency);
      if slot.Some? {
        Applying(log, slot.value, EffectOf(t.id, true, account, currency));
        RecordMeasure(rows, log[slot.value], account, currency);
      }
    }
  }

  /** Rows of other transfers are not affected. */
  lemma UpdatedOthers(rows: map<TransferId, Row>, log: seq<Record>, t: Row, slot: Option<nat>, id: TransferId)
    requires id in rows && id != t.id && rows[id].id == id && CountsOk(log, rows[id]) && EffectsOk(log, rows[id])
    requires Evidenced(rows, log, t, slot)
    ensures CountsOk(Settle(log, slot, Applied), rows[id]) && EffectsOk(Settle(log, slot, Applied), rows[id])
  {
    if slot.Some? {
      forall q: LogQuery | q.id == Some(id) && q.applied
        ensures Tally(Settle(log, slot, Applied), q) == Tally(log, q)
      {
        Applying(log, slot.value, q);
      }
    }
  }

  lemma BooksUpdated(b: Book, t: Row, slot: Option<nat>)
    requires BooksOf(b.rows, b.log) && t.id in b.rows && t.id in b.history
    requires Successor(b.rows[t.id], t) && Shape(b.rows[t.id]) && Shape(t) && Evidenced(b.rows, b.log, t, slot)
    ensures BooksOf(UpdatedRow(b, t, slot).rows, UpdatedRow(b, t, slot).log)
  {
    UpdatedCounts(b.rows, b.log, t, slot);
    UpdatedEffects(b.rows, b.log, t, slot);
    forall id | id in b.rows && id != t.id
      ensures CountsOk(Settle(b.log, slot, Applied), b.rows[id]) && EffectsOk(Settle(b.log, slot, Applied), b.rows[id])
    {
      UpdatedOthers(b.rows, b.log, t, slot, id);
    }
  }

  lemma BooksUpdate(s: System, w: WorkerId)
    requires Core(s) && Books(s) && WorkerEnabled(s, w, Update)
    ensures Books(NextUpdate(s, w))
  {
    var pc := Pc(s, w);
    if s.book.rows[pc.t.id].version == pc.t.version - 1 {
      UpdateIsCurrent(s, w);
      UpdateSucceeds(s, w);
      CurrentIsVersion(s, pc.t.id);
      VersionShape(s, s.book.rows[pc.t.id]);
      BooksUpdated(s.book, pc.t, pc.slot);
    } else {
      BooksDrop(s, w);
    }
  }

  lemma BooksWorkerStep(s: System, w: WorkerId, x: WorkerStep)
    requires Core(s) && Books(s) && WorkerEnabled(s, w, x)
    ensures Books(NextWorker(s, w, x))
  {
    if x.Update? {
      BooksUpdate(s, w);
    } else {
      BooksDrop(s, w);
      if x.Post? {
        BooksPost(s, w);
      } else if x.Ask? {
        BooksRecord(s, Pc(s, w).t.id, Asked(x.reply.Accepted?), [], w);
      } else {
        QuietWorker(s, w, x);
      }
    }
  }

  lemma BooksPost(s: System, w: WorkerId)
    requires Books(s) && Books(Drop(s, w)) && WorkerEnabled(s, w, Post)
    ensures Books(NextPost(s, w))
  {
    var pc := Pc(s, w);
    if PostingFor(pc.kind, pc.t).Ok? {
      BooksRecord(s, pc.t.id, Posted(pc.kind), PostingFor(pc.kind, pc.t).value.Entries(), w);
    }
  }

  lemma BooksStep(s: System, a: Action)
    requires Core(s) && Books(s) && Enabled(s, a)
    ensures Books(Next(s, a))
  {
    if a.Worker? {
      BooksWorkerStep(s, a.w, a.x);
    } else if a.Handler? && a.h.Save? {
      BooksSave(s.book, a.h.row);
    } else {
      assert Next(s, a).book == s.book;
    }
  }

  lemma {:induction false} BooksRun(g: Regime, s0: System, acts: seq<Action>, s: System)
    requires Init(s0) && Run(g, s0, acts, s)
    ensures Core(s) && Books(s)
    decreases |acts|
  {
    if |acts| > 0 {
      var n := |acts| - 1;
      var m :| Run(g, s0, acts[..n], m) && StepOk(g, m, acts[n]) && s == Next(m, acts[n]);
      BooksRun(g, s0, acts[..n], m);
      CoreStep(m, acts[n]);
      BooksStep(m, acts[n]);
    }
  }
}
