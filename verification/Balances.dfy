/**
 What exact accounting means for balances: per transfer, per account and per
 currency, in every reachable state.
 */
module Balances {
  import opened Ledger
  import opened Transfers
  import opened Protocol
  import opened History
  import opened Accounting

  // ---- One transfer ----

  /** A record's entries count towards its own transfer only. */
  lemma RecordNet(rows: map<TransferId, Row>, r: Record, id: TransferId, account: AccountId, currency: Currency)
    requires RecordOk(rows, r)
    ensures SignedSum(r.entries, NetOf(id, account, currency))
            == if r.id == id then Measured(r, Amount(account, currency)) else 0
  {
    if r.tag.Posted? {
      var p := PostingFor(r.tag.kind, rows[r.id]).value;
      SumPair(p.debit, p.credit, NetOf(id, account, currency));
      SumPair(p.debit, p.credit, BalanceOf(account, currency));
    }
  }

  lemma {:induction false} NetIsTally(rows: map<TransferId, Row>, log: seq<Record>, id: TransferId,
                                      account: AccountId, currency: Currency)
    requires RecordsOk(rows, log)
    ensures SignedSum(AllEntries(log), NetOf(id, account, currency))
            == Tally(log, EffectOf(id, true, account, currency)) + Tally(log, EffectOf(id, false, account, currency))
  {
    if |log| > 0 {
      var n := |log| - 1;
      NetIsTally(rows, log[..n], id, account, currency);
      SumConcat(AllEntries(log[..n]), log[n].entries, NetOf(id, account, currency));
      RecordNet(rows, log[n], id, account, currency);
    }
  }

  /** The change of one transfer's net effect on an account since the opening of the ledger. */
  function NetChange(s: System, id: TransferId, account: AccountId, currency: Currency): int {
    SignedSum(s.book.ledger, NetOf(id, account, currency)) - SignedSum(s.book.opening, NetOf(id, account, currency))
  }

  /**
   Exact accounting: in every run, with any faults and interleaving, a transfer's net
   effect on any account is what its row stands for plus its unapplied postings.
   */
  lemma ExactAccounting(g: Regime, s0: System, acts: seq<Action>, s: System,
                        id: TransferId, account: AccountId, currency: Currency)
    requires Init(s0) && Run(g, s0, acts, s) && id in s.book.rows
    ensures NetChange(s, id, account, currency)
            == RowEffect(s.book.rows[id], account, currency)
               + Tally(s.book.log, EffectOf(id, false, account, currency))
  {
    BooksRun(g, s0, acts, s);
    SumConcat(s.book.opening, AllEntries(s.book.log), NetOf(id, account, currency));
    NetIsTally(s.book.rows, s.book.log, id, account, currency);
    assert EffectsOk(s.book.log, s.book.rows[id]);
  }

  /** Every committed posting and bank call of the transfer has been followed by its row update. */
  ghost predicate AppliedFor(log: seq<Record>, id: TransferId) {
    forall i :: 0 <= i < |log| && log[i].id == id ==> log[i].fate == Applied
  }

  /** The same for all transfers. */
  ghost predicate AllApplied(s: System) {
    forall i :: 0 <= i < |s.book.log| ==> s.book.log[i].fate == Applied
  }

  lemma {:induction false} NothingUnapplied(log: seq<Record>, q: LogQuery)
    requires !q.applied
    requires if q.id.Some? then AppliedFor(log, q.id.value) else forall i :: 0 <= i < |log| ==> log[i].fate == Applied
    ensures Tally(log, q) == 0
  {
    if |log| > 0 {
      NothingUnapplied(log[..|log| - 1], q);
    }
  }

  /** How often a posting or bank call of the transfer was committed. */
  function Times(log: seq<Record>, id: TransferId, tag: Tag): int {
    Tally(log, CountOf(id, tag, true)) + Tally(log, CountOf(id, tag, false))
  }

  /** The transfer's net effect on an account and currency, if it has taken effect once or not at all. */
  function EffectOnce(r: Row, account: AccountId, currency: Currency): int {
    if r.state == Completed && currency == r.amount.currency then Move(r.src, r.dst, r.amount.amount, account) else 0
  }

  lemma TerminalEffect(r: Row, account: AccountId, currency: Currency)
    requires Shape(r) && Terminal(r.state)
    ensures RowEffect(r, account, currency) == EffectOnce(r, account, currency)
  {
  }

  /**
   With nothing of the transfer unapplied it has been debited, sent to the bank and
   credited exactly as often as its row shows, and its net effect is what the row stands
   for: COMPLETED has moved its amount from source to destination, FAILED has moved
   nothing.
   */
  lemma ExactlyOnceWhenApplied(g: Regime, s0: System, acts: seq<Action>, s: System, id: TransferId, tag: Tag,
                               account: AccountId, currency: Currency)
    requires Init(s0) && Run(g, s0, acts, s) && id in s.book.rows && AppliedFor(s.book.log, id)
    ensures Times(s.book.log, id, tag) == if Shows(s.book.rows[id], tag) then 1 else 0
    ensures NetChange(s, id, account, currency) == RowEffect(s.book.rows[id], account, currency)
    ensures Terminal(s.book.rows[id].state) ==>
              NetChange(s, id, account, currency) == EffectOnce(s.book.rows[id], account, currency)
  {
    var r := s.book.rows[id];
    BooksRun(g, s0, acts, s);
    ExactAccounting(g, s0, acts, s, id, account, currency);
    NothingUnapplied(s.book.log, EffectOf(id, false, account, currency));
    NothingUnapplied(s.book.log, CountOf(id, tag, false));
    assert CountsOk(s.book.log, r);
    if Terminal(r.state) {
      CurrentIsVersion(s, id);
      VersionShape(s, r);
      TerminalEffect(r, account, currency);
    }
  }

  // ---- All transfers ----

  ghost predicate OrderOk(b: Book) {
    Distinct(b.order) && forall id :: id in b.order <==> id in b.rows
  }

  lemma OrderStep(s: System, a: Action)
    requires Core(s) && OrderOk(s.book) && Enabled(s, a)
    ensures OrderOk(Next(s, a).book) && Next(s, a).book.opening == s.book.opening
  {
    if a.Worker? {
      OrderWorkerStep(s, a.w, a.x);
    } else if a.Handler? && a.h.Save? {
      OrderSaved(s.book, a.h.row);
    } else {
      assert Next(s, a).book == s.book;
    }
  }

  lemma OrderSaved(b: Book, row: Row)
    requires OrderOk(b) && row.id !in b.rows
    ensures OrderOk(SavedRow(b, row))
  {
  }

  lemma OrderWorkerStep(s: System, w: WorkerId, x: WorkerStep)
    requires Core(s) && OrderOk(s.book) && WorkerEnabled(s, w, x)
    ensures OrderOk(NextWorker(s, w, x).book) && NextWorker(s, w, x).book.opening == s.book.opening
  {
    if x.Update? {
      UpdateTable(s, w);
    } else {
      TableFrame(s, w, x);
    }
  }

  lemma {:induction false} OrderRun(g: Regime, s0: System, acts: seq<Action>, s: System)
    requires Init(s0) && Run(g, s0, acts, s)
    ensures Core(s) && OrderOk(s.book) && s.book.opening == s0.book.opening
    decreases |acts|
  {
    if |acts| > 0 {
      var n := |acts| - 1;
      var m :| Run(g, s0, acts[..n], m) && StepOk(g, m, acts[n]) && s == Next(m, acts[n]);
      OrderRun(g, s0, acts[..n], m);
      CoreStep(m, acts[n]);
      OrderStep(m, acts[n]);
    }
  }

  /** `opening` is the ledger the run began with, and entries are only ever added to it. */
  lemma LedgerOnlyGrows(g: Regime, s0: System, acts: seq<Action>, s: System)
    requires Init(s0) && Run(g, s0, acts, s)
    ensures s.book.opening == s0.book.ledger && s0.book.ledger <= s.book.ledger
  {
    OrderRun(g, s0, acts, s);
  }

  /** Sum of what all stored rows stand for, in the order they were created. */
  ghost function RowsEffect(order: seq<TransferId>, rows: map<TransferId, Row>, account: AccountId,
                            currency: Currency): int
    requires forall id :: id in order ==> id in rows
  {
    if |order| == 0 then 0
    else
      var n := |order| - 1;
      RowsEffect(order[..n], rows, account, currency) + RowEffect(rows[order[n]], account, currency)
  }

  function TalliesOf(log: seq<Record>, order: seq<TransferId>, q: LogQuery): int {
    if |order| == 0 then 0
    else TalliesOf(log, order[..|order| - 1], q) + Tally(log, q.(id := Some(order[|order| - 1])))
  }

  lemma {:induction false} TalliesSnoc(log: seq<Record>, r: Record, order: seq<TransferId>, q: LogQuery)
    requires Distinct(order)
    ensures TalliesOf(log + [r], order, q)
            == TalliesOf(log, order, q) + (if r.id in order then Weight(r, q.(id := None)) else 0)
  {
    if |order| > 0 {
      var n := |order| - 1;
      TalliesSnoc(log, r, order[..n], q);
      TallySnoc(log, r, q.(id := Some(order[n])));
      assert order == order[..n] + [order[n]];
    }
  }

  lemma {:induction false} TalliesOfNothing(order: seq<TransferId>, q: LogQuery)
    ensures TalliesOf([], order, q) == 0
  {
    if |order| > 0 {
      TalliesOfNothing(order[..|order| - 1], q);
    }
  }

  /** Summing per transfer or over the whole log is the same. */
  lemma {:induction false} TallyByTransfer(log: seq<Record>, order: seq<TransferId>, q: LogQuery)
    requires Distinct(order) && forall i :: 0 <= i < |log| ==> log[i].id in order
    ensures TalliesOf(log, order, q) == Tally(log, q.(id := None))
  {
    if |log| == 0 {
      TalliesOfNothing(order, q);
    } else {
      var n := |log| - 1;
      TallyByTransfer(log[..n], order, q);
      TalliesSnoc(log[..n], log[n], order, q);
      assert log == log[..n] + [log[n]];
    }
  }

  lemma {:induction false} RowsEffectIsTallies(rows: map<TransferId, Row>, log: seq<Record>, order: seq<TransferId>,
                                               account: AccountId, currency: Currency)
    requires BooksOf(rows, log) && forall id :: id in order ==> id in rows
    ensures RowsEffect(order, rows, account, currency)
            == TalliesOf(log, order, LogQuery(None, None, true, Amount(account, currency)))
  {
    if |order| > 0 {
      var n := |order| - 1;
      RowsEffectIsTallies(rows, log, order[..n], account, currency);
      assert EffectsOk(log, rows[order[n]]);
      assert LogQuery(None, None, true, Amount(account, currency)).(id := Some(order[n]))
          == EffectOf(order[n], true, account, currency);
    }
  }

  function AllEffects(applied: bool, account: AccountId, currency: Currency): LogQuery {
    LogQuery(None, None, applied, Amount(account, currency))
  }

  lemma {:induction false} BalanceIsTally(log: seq<Record>, account: AccountId, currency: Currency)
    ensures Balance(AllEntries(log), account, currency)
            == Tally(log, AllEffects(true, account, currency)) + Tally(log, AllEffects(false, account, currency))
  {
    if |log| > 0 {
      var n := |log| - 1;
      BalanceIsTally(log[..n], account, currency);
      SumConcat(AllEntries(log[..n]), log[n].entries, BalanceOf(account, currency));
    }
  }

  /**
   Every balance, in every run: opening balance, plus what the stored rows stand
   for, plus the unapplied postings.
   */
  lemma EveryBalance(g: Regime, s0: System, acts: seq<Action>, s: System, account: AccountId, currency: Currency)
    requires Init(s0) && Run(g, s0, acts, s)
    ensures forall id :: id in s.book.order <==> id in s.book.rows
    ensures Balance(s.book.ledger, account, currency)
            == Balance(s.book.opening, account, currency)
               + RowsEffect(s.book.order, s.book.rows, account, currency)
               + Tally(s.book.log, AllEffects(false, account, currency))
  {
    var b := s.book;
    BooksRun(g, s0, acts, s);
    OrderRun(g, s0, acts, s);
    SumConcat(b.opening, AllEntries(b.log), BalanceOf(account, currency));
    BalanceIsTally(b.log, account, currency);
    RowsEffectIsTallies(b.rows, b.log, b.order, account, currency);
    TallyByTransfer(b.log, b.order, AllEffects(true, account, currency));
  }

  /** Money on its way: reserved, but neither paid out nor returned. */
  predicate InTransit(r: Row, currency: Currency) {
    r.amount.currency == currency && (r.state == Debited || r.state == BankCalled || r.state == Compensating)
  }

  ghost function TransitSum(order: seq<TransferId>, rows: map<TransferId, Row>, currency: Currency): int
    requires forall id :: id in order ==> id in rows
  {
    if |order| == 0 then 0
    else
      var n := |order| - 1;
      TransitSum(order[..n], rows, currency)
      + (if InTransit(rows[order[n]], currency) then rows[order[n]].amount.amount else 0)
  }

  lemma FloatEffect(r: Row, currency: Currency)
    requires Shape(r)
    ensures RowEffect(r, FloatAccount(currency), currency) == if InTransit(r, currency) then r.amount.amount else 0
  {
  }

  lemma {:induction false} FloatEffects(order: seq<TransferId>, rows: map<TransferId, Row>, currency: Currency)
    requires forall id :: id in order ==> id in rows && Shape(rows[id])
    ensures RowsEffect(order, rows, FloatAccount(currency), currency) == TransitSum(order, rows, currency)
  {
    if |order| > 0 {
      FloatEffects(order[..|order| - 1], rows, currency);
      FloatEffect(rows[order[|order| - 1]], currency);
    }
  }

  /** With nothing unapplied, the float account holds exactly the money in transit on top of its opening balance. */
  lemma FloatHoldsMoneyInTransit(g: Regime, s0: System, acts: seq<Action>, s: System, currency: Currency)
    requires Init(s0) && Run(g, s0, acts, s) && AllApplied(s)
    ensures forall id :: id in s.book.order <==> id in s.book.rows
    ensures Balance(s.book.ledger, FloatAccount(currency), currency)
            == Balance(s.book.opening, FloatAccount(currency), currency)
               + TransitSum(s.book.order, s.book.rows, currency)
  {
    EveryBalance(g, s0, acts, s, FloatAccount(currency), currency);
    NothingUnapplied(s.book.log, AllEffects(false, FloatAccount(currency), currency));
    CoreRun(g, s0, acts, s);
    forall id | id in s.book.order ensures Shape(s.book.rows[id]) {
      CurrentIsVersion(s, id);
      VersionShape(s, s.book.rows[id]);
    }
    FloatEffects(s.book.order, s.book.rows, currency);
  }

  // ---- Totals ----

  lemma {:induction false} PostingsAreBalanced(rows: map<TransferId, Row>, log: seq<Record>, currency: Currency)
    requires RecordsOk(rows, log)
    ensures SignedSum(AllEntries(log), TotalOf(currency)) == 0
  {
    if |log| > 0 {
      var n := |log| - 1;
      PostingsAreBalanced(rows, log[..n], currency);
      SumConcat(AllEntries(log[..n]), log[n].entries, TotalOf(currency));
      assert RecordOk(rows, log[n]);
      if log[n].tag.Posted? {
        var p := PostingFor(log[n].tag.kind, rows[log[n].id]).value;
        SumPair(p.debit, p.credit, TotalOf(currency));
      }
    }
  }

  /** No run, whatever fails in it, changes the total of a currency. */
  lemma TotalsAreConserved(g: Regime, s0: System, acts: seq<Action>, s: System, currency: Currency)
    requires Init(s0) && Run(g, s0, acts, s)
    ensures SignedSum(s.book.ledger, TotalOf(currency)) == SignedSum(s.book.opening, TotalOf(currency))
  {
    CoreRun(g, s0, acts, s);
    SumConcat(s.book.opening, AllEntries(s.book.log), TotalOf(currency));
    PostingsAreBalanced(s.book.rows, s.book.log, currency);
  }

  // ---- The hand-built reversal ----

  /** reverseDebit's posting changes every balance as Reversal of the reserve posting would. */
  lemma RefundIsReversalOfReserve(r: Row, account: AccountId, currency: Currency)
    requires PostingFor(Reserve, r).Ok?
    ensures PostingFor(Refund, r).Ok? && PostingFor(Reserve, r).value.Reversal().Ok?
    ensures Balance(PostingFor(Refund, r).value.Entries(), account, currency)
            == Balance(PostingFor(Reserve, r).value.Reversal().value.Entries(), account, currency)
  {
    var float := FloatAccount(r.amount.currency);
    PostingMoves(float, r.src, r.amount, ForTransfer(Refund, r.id), account, currency);
    PostingMoves(float, r.src, r.amount, Text("REVERSAL"), account, currency);
  }
}
