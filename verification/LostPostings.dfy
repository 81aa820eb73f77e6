/**
 What a lost posting costs. A posting commits before the row update that records it,
 so a worker that stops in between posts again when its message is redelivered. The
 ledger then differs from what the row says by exactly the lost postings, and effects
 happen at most once only if one worker runs and never fails.
 */
module LostPostings {
  import opened Ledger
  import opened Transfers
  import opened Protocol
  import opened History
  import opened Accounting
  import opened Balances
  import opened Causality
  import opened Overdraft
  import opened OneAtATime
  import opened Wakeups

  // ---- The effect of lost postings ----

  /** How many postings of a kind have no row update behind them. */
  function Unapplied(log: seq<Record>, id: TransferId, k: Kind): int {
    Tally(log, CountOf(id, Posted(k), false))
  }

  /** The effect of so many debits, payouts and refunds. */
  function Effects(r: Row, debits: int, payouts: int, refunds: int, account: AccountId, currency: Currency): int {
    debits * KindEffect(Reserve, r, account, currency)
    + payouts * KindEffect(Pay, r, account, currency)
    + refunds * KindEffect(Refund, r, account, currency)
  }

  lemma EffectsOfOne(r: Row, k: Kind, account: AccountId, currency: Currency)
    requires k != Clawback
    ensures Effects(r, if k == Reserve then 1 else 0, if k == Pay then 1 else 0, if k == Refund then 1 else 0,
                    account, currency)
            == KindEffect(k, r, account, currency)
  {
  }

  lemma EffectsAdd(r: Row, d: int, p: int, f: int, d': int, p': int, f': int, account: AccountId, currency: Currency)
    ensures Effects(r, d + d', p + p', f + f', account, currency)
            == Effects(r, d, p, f, account, currency) + Effects(r, d', p', f', account, currency)
  {
    Distribute(d, d', KindEffect(Reserve, r, account, currency));
    Distribute(p, p', KindEffect(Pay, r, account, currency));
    Distribute(f, f', KindEffect(Refund, r, account, currency));
  }

  lemma Distribute(n: int, d: int, x: int)
    ensures (n + d) * x == n * x + d * x
  {
  }

  /** How often a record counts as an unapplied posting of the kind. */
  function Unit(r: Record, id: TransferId, k: Kind): int {
    Weight(r, CountOf(id, Posted(k), false))
  }

  lemma RecordEffects(rows: map<TransferId, Row>, r: Record, id: TransferId, account: AccountId, currency: Currency)
    requires RecordOk(rows, r) && id in rows
    ensures Weight(r, EffectOf(id, false, account, currency))
            == Effects(rows[id], Unit(r, id, Reserve), Unit(r, id, Pay), Unit(r, id, Refund), account, currency)
  {
    if r.id == id && r.fate != Applied {
      RecordMeasure(rows, r, account, currency);
      if r.tag.Posted? {
        EffectsOfOne(rows[id], r.tag.kind, account, currency);
      }
    }
  }

  lemma {:induction false} UnappliedEffect(rows: map<TransferId, Row>, log: seq<Record>, id: TransferId,
                                           account: AccountId, currency: Currency)
    requires RecordsOk(rows, log) && id in rows
    ensures Tally(log, EffectOf(id, false, account, currency))
            == Effects(rows[id], Unapplied(log, id, Reserve), Unapplied(log, id, Pay), Unapplied(log, id, Refund),
                       account, currency)
  {
    if |log| > 0 {
      var n := |log| - 1;
      UnappliedEffect(rows, log[..n], id, account, currency);
      assert RecordOk(rows, log[n]);
      RecordEffects(rows, log[n], id, account, currency);
      EffectsAdd(rows[id], Unapplied(log[..n], id, Reserve), Unapplied(log[..n], id, Pay),
                 Unapplied(log[..n], id, Refund), Unit(log[n], id, Reserve), Unit(log[n], id, Pay),
                 Unit(log[n], id, Refund), account, currency);
    }
  }

  lemma {:induction false} NoSuchRecord(log: seq<Record>, id: TransferId, tag: Tag, applied: bool)
    requires forall i :: 0 <= i < |log| && log[i].id == id ==> log[i].tag != tag
    ensures Tally(log, CountOf(id, tag, applied)) == 0
  {
    if |log| > 0 {
      NoSuchRecord(log[..|log| - 1], id, tag, applied);
    }
  }

  /** A transfer that is paid out has no refund in any state, and one that failed has no payout. */
  lemma OneWayOut(s: System, id: TransferId)
    requires Core(s) && Causal(s) && id in s.book.rows
    ensures s.book.rows[id].state == Completed ==> Unapplied(s.book.log, id, Refund) == 0
    ensures s.book.rows[id].state == Failed ==> Unapplied(s.book.log, id, Pay) == 0
  {
    var h := s.book.history[id];
    assert Path(h);
    forall i | 0 <= i < |s.book.log| && s.book.log[i].id == id
      ensures s.book.rows[id].state == Completed ==> s.book.log[i].tag != Posted(Refund)
      ensures s.book.rows[id].state == Failed ==> s.book.log[i].tag != Posted(Pay)
    {
      assert CausalAt(s.book.history, s.book.log, i);
      EndFixesThird(h);
    }
    if s.book.rows[id].state == Completed {
      NoSuchRecord(s.book.log, id, Posted(Refund), false);
    }
    if s.book.rows[id].state == Failed {
      NoSuchRecord(s.book.log, id, Posted(Pay), false);
    }
  }

  /** The third version tells how a transfer ends. */
  lemma EndFixesThird(h: seq<Row>)
    requires Path(h)
    ensures h[|h| - 1].state == Completed ==> |h| == 5 && h[2].state == BankCalled
    ensures h[|h| - 1].state == Failed && |h| > 2 ==> |h| == 4 && h[2].state == Compensating
  {
    assert h[|h| - 1].version == |h|;
    assert StepAt(h, |h| - 1) && StepAt(h, |h| - 2);
  }

  /** What a row stands for, plus its postings without row update. */
  function Effect(r: Row, debits: int, payouts: int, refunds: int, account: AccountId): int {
    RowEffect(r, account, r.amount.currency) + Effects(r, debits, payouts, refunds, account, r.amount.currency)
  }

  /** The same in terms of the two moves a transfer is made of. */
  predicate EndsWith(r: Row, net: int, debits: int, payouts: int, refunds: int, account: AccountId) {
    var float := FloatAccount(r.amount.currency);
    var reserve := Move(r.src, float, r.amount.amount, account);
    var pay := Move(float, r.dst, r.amount.amount, account);
    && (r.state == Completed ==> refunds == 0 && net == (1 + debits) * reserve + (1 + payouts) * pay)
    && (r.state == Failed ==> payouts == 0 && net == (debits - refunds) * reserve)
  }

  lemma EffectAtEnd(r: Row, debits: int, payouts: int, refunds: int, account: AccountId)
    requires Shape(r)
    requires r.state == Completed ==> refunds == 0
    requires r.state == Failed ==> payouts == 0
    ensures EndsWith(r, Effect(r, debits, payouts, refunds, account), debits, payouts, refunds, account)
  {
    var float := FloatAccount(r.amount.currency);
    var reserve := Move(r.src, float, r.amount.amount, account);
    var pay := Move(float, r.dst, r.amount.amount, account);
    Factor(debits, payouts, refunds, reserve, pay);
    assert Move(float, r.src, r.amount.amount, account) == -reserve;
  }

  lemma Factor(d: int, p: int, f: int, reserve: int, pay: int)
    ensures reserve + pay + d * reserve + p * pay == (1 + d) * reserve + (1 + p) * pay
    ensures d * reserve + f * -reserve == (d - f) * reserve
  {
  }

  lemma NetEffect(g: Regime, s0: System, acts: seq<Action>, s: System, id: TransferId, account: AccountId)
    requires Init(s0) && Run(g, s0, acts, s) && id in s.book.rows
    ensures NetChange(s, id, account, s.book.rows[id].amount.currency)
            == Effect(s.book.rows[id], Unapplied(s.book.log, id, Reserve), Unapplied(s.book.log, id, Pay),
                      Unapplied(s.book.log, id, Refund), account)
  {
    var currency := s.book.rows[id].amount.currency;
    ExactAccounting(g, s0, acts, s, id, account, currency);
    CoreRun(g, s0, acts, s);
    UnappliedEffect(s.book.rows, s.book.log, id, account, currency);
  }

  lemma EndFacts(g: Regime, s0: System, acts: seq<Action>, s: System, id: TransferId)
    requires Init(s0) && Run(g, s0, acts, s) && id in s.book.rows
    ensures Shape(s.book.rows[id])
    ensures s.book.rows[id].state == Completed ==> Unapplied(s.book.log, id, Refund) == 0
    ensures s.book.rows[id].state == Failed ==> Unapplied(s.book.log, id, Pay) == 0
  {
    CausalRun(g, s0, acts, s);
    OneWayOut(s, id);
    CurrentIsVersion(s, id);
    VersionShape(s, s.book.rows[id]);
  }

  /**
   In every run, however faulty: a COMPLETED transfer has taken its amount from the
   source once plus once per lost debit, and given it to the destination once plus once
   per lost payout; a FAILED one has taken it once per lost debit and returned it once
   per lost refund. The float account holds the difference.
   */
  lemma FinalEffect(g: Regime, s0: System, acts: seq<Action>, s: System, id: TransferId, account: AccountId)
    requires Init(s0) && Run(g, s0, acts, s) && id in s.book.rows
    ensures var r := s.book.rows[id];
            EndsWith(r, NetChange(s, id, account, r.amount.currency), Unapplied(s.book.log, id, Reserve),
                     Unapplied(s.book.log, id, Pay), Unapplied(s.book.log, id, Refund), account)
  {
    NetEffect(g, s0, acts, s, id, account);
    EndFacts(g, s0, acts, s, id);
    EffectAtEnd(s.book.rows[id], Unapplied(s.book.log, id, Reserve), Unapplied(s.book.log, id, Pay),
                Unapplied(s.book.log, id, Refund), account);
  }

  /** The transfer has moved this much of its amount from source to destination, and nothing else. */
  ghost predicate Moves(s: System, id: TransferId, amount: int)
    requires id in s.book.rows
  {
    var r := s.book.rows[id];
    forall account :: NetChange(s, id, account, r.amount.currency) == Move(r.src, r.dst, amount, account)
  }

  lemma Cancel(n: int, amount: int)
    requires amount != 0 && n * amount == 0
    ensures n == 0
  {
  }

  lemma CompletedEnds(r: Row, src: int, dst: int, debits: int, payouts: int)
    requires Shape(r) && r.state == Completed
    requires EndsWith(r, src, debits, payouts, 0, r.src) && EndsWith(r, dst, debits, payouts, 0, r.dst)
    ensures src == -(1 + debits) * r.amount.amount && dst == (1 + payouts) * r.amount.amount
    ensures src == -r.amount.amount && dst == r.amount.amount ==> debits == 0 && payouts == 0
  {
    if src == -r.amount.amount && dst == r.amount.amount {
      Cancel(debits, r.amount.amount);
      Cancel(payouts, r.amount.amount);
    }
  }

  lemma CompletedCleanly(r: Row, net: int, account: AccountId)
    requires Shape(r) && r.state == Completed && EndsWith(r, net, 0, 0, 0, account)
    ensures net == Move(r.src, r.dst, r.amount.amount, account)
  {
  }

  /** A COMPLETED transfer has moved its amount once if and only if none of its postings was lost. */
  lemma CompletedMovesOnceIff(g: Regime, s0: System, acts: seq<Action>, s: System, id: TransferId)
    requires Init(s0) && Run(g, s0, acts, s) && id in s.book.rows && s.book.rows[id].state == Completed
    ensures Moves(s, id, s.book.rows[id].amount.amount) <==>
            Unapplied(s.book.log, id, Reserve) == 0 && Unapplied(s.book.log, id, Pay) == 0
  {
    var r := s.book.rows[id];
    var debits, payouts := Unapplied(s.book.log, id, Reserve), Unapplied(s.book.log, id, Pay);
    EndFacts(g, s0, acts, s, id);
    if debits == 0 && payouts == 0 {
      forall account
        ensures NetChange(s, id, account, r.amount.currency) == Move(r.src, r.dst, r.amount.amount, account)
      {
        FinalEffect(g, s0, acts, s, id, account);
        CompletedCleanly(r, NetChange(s, id, account, r.amount.currency), account);
      }
    } else {
      FinalEffect(g, s0, acts, s, id, r.src);
      FinalEffect(g, s0, acts, s, id, r.dst);
      CompletedEnds(r, NetChange(s, id, r.src, r.amount.currency), NetChange(s, id, r.dst, r.amount.currency),
                    debits, payouts);
      assert Move(r.src, r.dst, r.amount.amount, r.src) == -r.amount.amount;
      assert Move(r.src, r.dst, r.amount.amount, r.dst) == r.amount.amount;
    }
  }

  lemma FailedEnds(r: Row, net: int, debits: int, refunds: int, account: AccountId)
    requires Shape(r) && r.state == Failed && EndsWith(r, net, debits, 0, refunds, account)
    ensures debits == refunds ==> net == 0
    ensures account == r.src && r.src != FloatAccount(r.amount.currency) && net == 0 ==> debits == refunds
  {
    if account == r.src && r.src != FloatAccount(r.amount.currency) && net == 0 {
      Cancel(debits - refunds, r.amount.amount);
    }
  }

  /** Nothing can be reserved from the float account or returned to it. */
  lemma FloatNeverReserved(rows: map<TransferId, Row>, log: seq<Record>, id: TransferId)
    requires RecordsOk(rows, log) && id in rows && rows[id].src == FloatAccount(rows[id].amount.currency)
    ensures Unapplied(log, id, Reserve) == 0 && Unapplied(log, id, Refund) == 0
  {
    forall i | 0 <= i < |log| && log[i].id == id
      ensures log[i].tag != Posted(Reserve) && log[i].tag != Posted(Refund)
    {
      assert RecordOk(rows, log[i]);
    }
    NoSuchRecord(log, id, Posted(Reserve), false);
    NoSuchRecord(log, id, Posted(Refund), false);
  }

  /** A FAILED transfer has moved nothing if and only if as many refunds as debits were lost. */
  lemma FailedMovesNothingIff(g: Regime, s0: System, acts: seq<Action>, s: System, id: TransferId)
    requires Init(s0) && Run(g, s0, acts, s) && id in s.book.rows && s.book.rows[id].state == Failed
    ensures Moves(s, id, 0) <==> Unapplied(s.book.log, id, Reserve) == Unapplied(s.book.log, id, Refund)
  {
    var r := s.book.rows[id];
    EndFacts(g, s0, acts, s, id);
    forall account
      ensures Unapplied(s.book.log, id, Reserve) == Unapplied(s.book.log, id, Refund) ==>
                NetChange(s, id, account, r.amount.currency) == 0
    {
      FinalEffect(g, s0, acts, s, id, account);
      FailedEnds(r, NetChange(s, id, account, r.amount.currency), Unapplied(s.book.log, id, Reserve),
                 Unapplied(s.book.log, id, Refund), account);
    }
    if r.src == FloatAccount(r.amount.currency) {
      CoreRun(g, s0, acts, s);
      FloatNeverReserved(s.book.rows, s.book.log, id);
    }
    FinalEffect(g, s0, acts, s, id, r.src);
    FailedEnds(r, NetChange(s, id, r.src, r.amount.currency), Unapplied(s.book.log, id, Reserve),
               Unapplied(s.book.log, id, Refund), r.src);
    assert Move(r.src, r.dst, 0, r.src) == 0;
  }

  // ---- One lost posting per crash ----

  /** Postings of the transfer without row update. */
  function AllUnapplied(log: seq<Record>, id: TransferId): int {
    Unapplied(log, id, Reserve) + Unapplied(log, id, Pay) + Unapplied(log, id, Refund)
  }

  /** Of a transfer nobody is about to store, the unapplied postings are lost ones. */
  lemma {:induction false} UnappliedAreLost(log: seq<Record>, id: TransferId)
    requires forall i :: 0 <= i < |log| && log[i].id == id ==> !log[i].fate.Open?
    ensures AllUnapplied(log, id) <= LostCount(log, id)
  {
    if |log| > 0 {
      UnappliedAreLost(log[..|log| - 1], id);
    }
  }

  /** The amount was moved at least once and at most once more per crash. */
  predicate Overdone(moved: int, crashes: nat, amount: int) {
    amount <= moved <= (1 + crashes) * amount
  }

  lemma Overdo(moved: int, extra: int, crashes: nat, amount: int)
    requires moved == (1 + extra) * amount && 0 <= extra <= crashes && amount > 0
    ensures Overdone(moved, crashes, amount)
  {
    assert (crashes - extra) * amount >= 0 && extra * amount >= 0;
  }

  lemma CompletedCost(r: Row, src: int, dst: int, debits: int, payouts: int, crashes: nat)
    requires Shape(r) && r.state == Completed && 0 <= debits <= crashes && 0 <= payouts <= crashes
    requires EndsWith(r, src, debits, payouts, 0, r.src) && EndsWith(r, dst, debits, payouts, 0, r.dst)
    ensures Overdone(-src, crashes, r.amount.amount) && Overdone(dst, crashes, r.amount.amount)
  {
    CompletedEnds(r, src, dst, debits, payouts);
    assert -src == (1 + debits) * r.amount.amount;
    Overdo(-src, debits, crashes, r.amount.amount);
    Overdo(dst, payouts, crashes, r.amount.amount);
  }

  /**
   What faults can cost, one message at a time: a finished transfer has at most as many
   lost postings as its own calls crashed between a posting and the row update. So a
   COMPLETED one has debited its source, and paid its destination, at most that many
   times too often.
   */
  lemma CrashCost(states: seq<System>, acts: seq<Action>, s: System, id: TransferId)
    requires Trace(ONE_AT_A_TIME, states, acts) && Init(states[0]) && s == states[|acts|] && Finished(s.book.rows, id)
    ensures AllUnapplied(s.book.log, id) <= Crashes(states, acts, id)
    ensures var r := s.book.rows[id];
            r.state == Completed ==>
              && Overdone(-NetChange(s, id, r.src, r.amount.currency), Crashes(states, acts, id), r.amount.amount)
              && Overdone(NetChange(s, id, r.dst, r.amount.currency), Crashes(states, acts, id), r.amount.amount)
  {
    var r := s.book.rows[id];
    TraceIsRun(ONE_AT_A_TIME, states, acts);
    LostOfFinished(states, acts, s, id);
    if r.state == Completed {
      EndFacts(ONE_AT_A_TIME, states[0], acts, s, id);
      FinalEffect(ONE_AT_A_TIME, states[0], acts, s, id, r.src);
      FinalEffect(ONE_AT_A_TIME, states[0], acts, s, id, r.dst);
      CompletedCost(r, NetChange(s, id, r.src, r.amount.currency), NetChange(s, id, r.dst, r.amount.currency),
                    Unapplied(s.book.log, id, Reserve), Unapplied(s.book.log, id, Pay), Crashes(states, acts, id));
    }
  }

  lemma LostOfFinished(states: seq<System>, acts: seq<Action>, s: System, id: TransferId)
    requires Trace(ONE_AT_A_TIME, states, acts) && Init(states[0]) && s == states[|acts|] && Finished(s.book.rows, id)
    ensures AllUnapplied(s.book.log, id) <= Crashes(states, acts, id)
    ensures forall k :: Unapplied(s.book.log, id, k) >= 0
  {
    TraceIsRun(ONE_AT_A_TIME, states, acts);
    SingleRun(ONE_AT_A_TIME, states[0], acts, s);
    LostByCrashes(ONE_AT_A_TIME, states, acts, id);
    NotStoringFinished(s, id);
    forall i | 0 <= i < |s.book.log| && s.book.log[i].id == id ensures !s.book.log[i].fate.Open? {
      if s.book.log[i].fate.Open? {
        OpenMeansStoring(s, i);
      }
    }
    UnappliedAreLost(s.book.log, id);
    forall k ensures Unapplied(s.book.log, id, k) >= 0 {
      CountNotNegative(s.book.log, CountOf(id, Posted(k), false));
    }
  }

  // ---- When every effect happens at most once ----

  lemma {:induction false} NoWorkers(g: Regime, s0: System, acts: seq<Action>, s: System)
    requires g.workers == Some(0) && Init(s0) && Run(g, s0, acts, s)
    ensures s.workers == map[] && s.book.log == []
    decreases |acts|
  {
    if |acts| > 0 {
      var n := |acts| - 1;
      var m :| Run(g, s0, acts[..n], m) && StepOk(g, m, acts[n]) && s == Next(m, acts[n]);
      NoWorkers(g, s0, acts[..n], m);
      NoWorkersStep(g, m, acts[n]);
    }
  }

  lemma NoWorkersStep(g: Regime, s: System, a: Action)
    requires g.workers == Some(0) && s.workers == map[] && s.book.log == [] && StepOk(g, s, a)
    ensures Next(s, a).workers == map[] && Next(s, a).book.log == []
  {
    match a
    case Handler(h) => assert Next(s, a) == NextHandler(s, h);
    case Relay(r, y) => assert Next(s, a) == NextRelay(s, r, y);
    case Worker(_, _) =>
    case SetStatus(_, _) =>
  }

  // ---- A crash debits twice ----

  /** A worker stops after its debit is committed, */
  lemma Crash(g: Regime, s0: System, acts: seq<Action>, s: System) returns (acts': seq<Action>, s': System)
    requires g.faults && Run(g, s0, acts, s) && Ready(s) && Pc(s, 0) == DUE && s.book.log == []
    requires Balance(s.book.ledger, 10, IDR) >= 10
    ensures Run(g, s0, acts', s') && Ready(s') && s'.workers == s.workers[0 := Idle]
    ensures |s'.book.log| == 1 && IsDebit(s'.book.log[0])
  {
    acts', s' := PostDue(g, s0, acts, s, 0);
    acts', s' := Extend(g, s0, acts', s', Worker(0, Abort));
  }

  /** and handles the redelivered message from the start. */
  lemma Retry(g: Regime, s0: System, acts: seq<Action>, s: System) returns (acts': seq<Action>, s': System)
    requires Run(g, s0, acts, s) && Ready(s) && s.workers == map[0 := Idle] && g == ONE_AT_A_TIME
    requires |s.book.log| == 1 && IsDebit(s.book.log[0])
    ensures Run(g, s0, acts', s') && DebitedTwice(s'.book.log)
  {
    assert ActiveWorkers(s) == {};
    acts' := PassCheck(g, s0, acts, s, 0);
    acts', s' := PostAgain(g, s0, acts', Goto(s, 0, DUE));
  }

  lemma PostAgain(g: Regime, s0: System, acts: seq<Action>, s: System) returns (acts': seq<Action>, s': System)
    requires Run(g, s0, acts, s) && Pc(s, 0) == DUE
    requires |s.book.log| == 1 && IsDebit(s.book.log[0])
    ensures Run(g, s0, acts', s') && DebitedTwice(s'.book.log)
  {
    acts', s' := PostDue(g, s0, acts, s, 0);
    SecondDebit(s.book.log, s'.book.log);
  }

  lemma CrashDebitsTwice() returns (acts: seq<Action>, s: System)
    ensures Init(Start(10)) && Run(ONE_AT_A_TIME, Start(10), acts, s) && DebitedTwice(s.book.log)
  {
    StartBalance(10);
    acts, s := Announce(ONE_AT_A_TIME, 10);
    acts := PassCheck(ONE_AT_A_TIME, Start(10), acts, s, 0);
    acts, s := Crash(ONE_AT_A_TIME, Start(10), acts, Goto(s, 0, DUE));
    acts, s := Retry(ONE_AT_A_TIME, Start(10), acts, s);
  }

  /** In every run of the regime no posting and no bank call of a transfer happens twice. */
  ghost predicate ExactlyOnceUnder(g: Regime) {
    forall s0: System, acts: seq<Action>, s: System :: Init(s0) && Run(g, s0, acts, s) ==> AtMostOnce(s.book.log)
  }

  /**
   Effects happen at most once exactly when no worker runs at all, or one at a time and
   without faults: a second worker or a single crash is enough to debit twice.
   */
  lemma ExactlyOnceCondition(g: Regime)
    ensures ExactlyOnceUnder(g) <==> g.workers == Some(0) || g == FAULT_FREE
  {
    if g.workers == Some(0) || g == FAULT_FREE {
      forall s0: System, acts: seq<Action>, s: System | Init(s0) && Run(g, s0, acts, s) ensures AtMostOnce(s.book.log) {
        if g == FAULT_FREE {
          FaultFreeOnce(s0, acts, s);
        } else {
          NoWorkers(g, s0, acts, s);
        }
      }
    } else {
      RepeatedUnder(g);
    }
  }

  lemma RepeatedUnder(g: Regime)
    requires g.workers != Some(0) && g != FAULT_FREE
    ensures !ExactlyOnceUnder(g)
  {
    if g.workers == Some(1) {
      var acts, s := CrashDebitsTwice();
      assert Repeated(s.book.log, 0, 1);
    } else {
      var acts, s := TwoWorkersDebitTwice();
      RunWiden(Regime(Some(2), false), g, Start(5), acts, s);
      assert Repeated(s.book.log, 0, 1);
    }
  }
}
