/**
 Customer overdraft. The balance check and the debit posting are two port calls and
 no lock spans them, so the only protection is the consumer's one-message-at-a-time
 loop: with one worker no customer balance ever goes below zero, whatever fails;
 with two it can.
 */
module Overdraft {
  import opened Ledger
  import opened Transfers
  import opened Protocol
  import opened History
  import opened Accounting

  /** At most one worker is handling a message. */
  ghost predicate Alone(s: System) {
    forall v, w :: v in s.workers && w in s.workers && !s.workers[v].Idle? && !s.workers[w].Idle? ==> v == w
  }

  /** A worker about to post its debit is still covered by the balance it has checked. */
  ghost predicate Covered(s: System) {
    forall w :: w in s.workers && s.workers[w].Booking? && s.workers[w].kind == Reserve ==>
      Balance(s.book.ledger, s.workers[w].t.src, s.workers[w].t.amount.currency) >= s.workers[w].t.amount.amount
  }

  predicate NotNegative(s: System, account: AccountId, currency: Currency) {
    Balance(s.book.ledger, account, currency) >= 0
  }

  lemma AloneStep(s: System, a: Action)
    requires Alone(s) && Enabled(s, a) && Permits(ONE_AT_A_TIME, s, a)
    ensures Alone(Next(s, a))
  {
    if a.Worker? {
      WorkerFrame(s, a.w, a.x);
      if a.x.Deliver? {
        NobodyActive(s);
      }
    }
  }

  lemma WorkerFrame(s: System, w: WorkerId, x: WorkerStep)
    requires WorkerEnabled(s, w, x)
    ensures OnlyWorker(s, NextWorker(s, w, x), w)
  {
    if x.Post? || x.Ask? || x.Update? {
      BookFrame(s, w, x);
    } else if !x.Append? && !x.Write? && !x.Ack? {
      ReadFrame(s, w, x);
    }
  }

  lemma NobodyActive(s: System)
    requires |ActiveWorkers(s)| < 1
    ensures forall w :: w in s.workers ==> s.workers[w].Idle?
  {
    forall w | w in s.workers ensures s.workers[w].Idle? {
      assert w !in ActiveWorkers(s);
    }
  }

  // ---- One worker ----

  /** What a committed posting does to balances. */
  lemma PostBalance(s: System, w: WorkerId, account: AccountId, currency: Currency)
    requires WorkerEnabled(s, w, Post)
    ensures Balance(NextPost(s, w).book.ledger, account, currency)
            == Balance(s.book.ledger, account, currency)
               + (if PostingFor(Pc(s, w).kind, Pc(s, w).t).Ok?
                  then KindEffect(Pc(s, w).kind, Pc(s, w).t, account, currency) else 0)
  {
    var pc := Pc(s, w);
    if PostingFor(pc.kind, pc.t).Ok? {
      var legs := Legs(pc.kind, pc.t);
      PostingMoves(legs.0, legs.1, pc.t.amount, ForTransfer(pc.kind, pc.t.id), account, currency);
      SumConcat(s.book.ledger, PostingFor(pc.kind, pc.t).value.Entries(), BalanceOf(account, currency));
    }
  }

  /** Only a debit posting lowers a customer balance, and only its source's, by its amount. */
  lemma OnlyReserveLowers(k: Kind, t: Row, account: AccountId, currency: Currency)
    requires PostingFor(k, t).Ok? && k != Clawback && account != FloatAccount(currency)
    ensures KindEffect(k, t, account, currency) >= 0
            || (k == Reserve && account == t.src && currency == t.amount.currency
                && KindEffect(k, t, account, currency) == -t.amount.amount)
  {
  }

  lemma SolventPost(s: System, w: WorkerId, account: AccountId, currency: Currency)
    requires Core(s) && Covered(s) && NotNegative(s, account, currency) && account != FloatAccount(currency)
    requires WorkerEnabled(s, w, Post)
    ensures NotNegative(NextPost(s, w), account, currency)
  {
    var pc := Pc(s, w);
    PostBalance(s, w, account, currency);
    if PostingFor(pc.kind, pc.t).Ok? {
      OnlyReserveLowers(pc.kind, pc.t, account, currency);
    }
  }

  /** Apart from postings no action touches the ledger. */
  lemma LedgerStep(s: System, a: Action)
    requires Core(s) && Enabled(s, a) && !(a.Worker? && a.x.Post?)
    ensures Next(s, a).book.ledger == s.book.ledger
  {
    if a.Worker? {
      LedgerWorker(s, a.w, a.x);
    }
  }

  lemma LedgerWorker(s: System, w: WorkerId, x: WorkerStep)
    requires WorkerEnabled(s, w, x) && !x.Post?
    ensures NextWorker(s, w, x).book.ledger == s.book.ledger
  {
    if x.Ask? {
      assert s.book.ledger + [] == s.book.ledger;
    } else if !x.Update? {
      QuietWorker(s, w, x);
    }
  }

  /** After a posting a worker is never about to post a debit. */
  lemma PostedNotReserving(s: System, w: WorkerId)
    requires Core(s) && WorkerEnabled(s, w, Post)
    ensures var pc' := Pc(NextPost(s, w), w); !pc'.Booking?
  {
    var pc := Pc(s, w);
    VersionShape(s, pc.t);
    if PostingFor(pc.kind, pc.t).Ok? {
      PostLands(s, pc.msg, pc.t, pc.kind, |s.book.log|);
    }
  }

  lemma LoadedNotReserving(s: System, w: WorkerId)
    requires WorkerEnabled(s, w, Load)
    ensures var pc' := Pc(NextLoad(s, w), w); pc'.Booking? ==> pc'.kind != Reserve
  {
  }

  lemma LockedNotReserving(s: System, w: WorkerId)
    requires WorkerEnabled(s, w, Lock)
    ensures !Pc(NextLock(s, w), w).Booking?
  {
  }

  lemma UpdatedNotReserving(s: System, w: WorkerId)
    requires WorkerEnabled(s, w, Update)
    ensures var pc' := Pc(NextUpdate(s, w), w); pc'.Booking? ==> pc'.kind != Reserve
  {
  }

  /** Only Check sends a worker to post a debit. */
  lemma ReservingAfterCheck(s: System, w: WorkerId, x: WorkerStep)
    requires WorkerEnabled(s, w, x) && !x.Check? && !x.Post?
    ensures var pc' := Pc(NextWorker(s, w, x), w); pc'.Booking? ==> pc'.kind != Reserve
  {
    if x.Load? {
      LoadedNotReserving(s, w);
    } else if x.Lock? {
      LockedNotReserving(s, w);
    } else if x.Update? {
      UpdatedNotReserving(s, w);
    }
  }

  lemma CheckCovers(s: System, w: WorkerId)
    requires Core(s) && WorkerEnabled(s, w, Check)
    ensures var pc' := Pc(NextCheck(s, w), w);
            pc'.Booking? ==>
              Balance(s.book.ledger, pc'.t.src, pc'.t.amount.currency) >= pc'.t.amount.amount
  {
  }

  lemma CoveredStep(s: System, a: Action)
    requires Core(s) && Alone(s) && Covered(s) && Enabled(s, a)
    ensures Covered(Next(s, a))
  {
    if a.Worker? {
      CoveredWorker(s, a.w, a.x);
    } else {
      assert Next(s, a).workers == s.workers && Next(s, a).book.ledger == s.book.ledger;
    }
  }

  lemma CoveredWorker(s: System, w: WorkerId, x: WorkerStep)
    requires Core(s) && Alone(s) && Covered(s) && WorkerEnabled(s, w, x)
    ensures Covered(NextWorker(s, w, x))
  {
    WorkerFrame(s, w, x);
    if x.Post? {
      PostedNotReserving(s, w);
    } else {
      LedgerWorker(s, w, x);
      if x.Check? {
        CheckCovers(s, w);
      } else {
        ReservingAfterCheck(s, w, x);
      }
    }
  }

  lemma {:induction false} SolventRun(s0: System, acts: seq<Action>, s: System, account: AccountId, currency: Currency)
    requires Init(s0) && Run(ONE_AT_A_TIME, s0, acts, s)
    requires account != FloatAccount(currency) && Balance(s0.book.opening, account, currency) >= 0
    ensures Core(s) && Alone(s) && Covered(s) && NotNegative(s, account, currency)
    decreases |acts|
  {
    if |acts| > 0 {
      var n := |acts| - 1;
      var m :| Run(ONE_AT_A_TIME, s0, acts[..n], m) && StepOk(ONE_AT_A_TIME, m, acts[n]) && s == Next(m, acts[n]);
      SolventRun(s0, acts[..n], m, account, currency);
      SolventStep(m, acts[n], account, currency);
    }
  }

  lemma SolventStep(s: System, a: Action, account: AccountId, currency: Currency)
    requires Core(s) && Alone(s) && Covered(s) && NotNegative(s, account, currency) && account != FloatAccount(currency)
    requires StepOk(ONE_AT_A_TIME, s, a)
    ensures var s' := Next(s, a); Core(s') && Alone(s') && Covered(s') && NotNegative(s', account, currency)
  {
    CoreStep(s, a);
    AloneStep(s, a);
    CoveredStep(s, a);
    if a.Worker? && a.x.Post? {
      SolventPost(s, a.w, account, currency);
    } else {
      LedgerStep(s, a);
    }
  }

  // ---- Two workers ----

  const A_ROW := Row(7, "key", 10, 11, Money(5, IDR), Pending, "", "", false, false, 1)

  /** An account with this status, holding `funds`, and nothing has happened. */
  function Opening(account: AccountId, status: Status, funds: nat): System {
    var ledger := [LedgerEntry(account, Credit, Money(funds, IDR), Text("deposit"))];
    System(map[account := status], Book(map[], [], map[], ledger, ledger, []), [], [], [], map[], map[], map[])
  }

  lemma OpeningBalance(account: AccountId, status: Status, funds: nat)
    ensures Init(Opening(account, status, funds))
    ensures Balance(Opening(account, status, funds).book.ledger, account, IDR) == funds
  {
    var ledger := Opening(account, status, funds).book.ledger;
    assert SignedSum(ledger[..0], BalanceOf(account, IDR)) == 0;
  }

  function Start(funds: nat): System {
    Opening(10, Active, funds)
  }

  lemma StartBalance(funds: nat)
    ensures Init(Start(funds)) && Balance(Start(funds).book.ledger, 10, IDR) == funds
  {
    OpeningBalance(10, Active, funds);
  }

  /** Transfer 7 is to move 5 out of account 10, which can pay, and its message is in the stream. */
  ghost predicate Ready(s: System) {
    && 7 in s.book.rows && s.book.rows[7] == A_ROW && s.stream == [Message(0, 7, false)]
    && 10 in s.accounts && s.accounts[10] == Active
    && 5 <= Balance(s.book.ledger, 10, IDR) <= MAX_INT64
  }

  /** `s'` is one permitted step further. */
  lemma Extend(g: Regime, s0: System, acts: seq<Action>, s: System, a: Action) returns (acts': seq<Action>, s': System)
    requires Run(g, s0, acts, s) && StepOk(g, s, a)
    ensures Run(g, s0, acts', s') && s' == Next(s, a)
  {
    RunSnoc(g, s0, acts, s, a);
    acts', s' := acts + [a], Next(s, a);
  }

  /** The create handler stores the transfer, */
  lemma SaveIt(g: Regime, funds: nat) returns (acts: seq<Action>, s: System)
    ensures Run(g, Start(funds), acts, s)
    ensures s == Start(funds).(book := SavedRow(Start(funds).book, A_ROW), handlers := map[7 := Saved])
  {
    acts, s := Extend(g, Start(funds), [], Start(funds), Handler(Save(A_ROW)));
  }

  /** and requests it, */
  lemma Create(g: Regime, funds: nat) returns (acts: seq<Action>, s: System)
    ensures Run(g, Start(funds), acts, s)
    ensures s.book == SavedRow(Start(funds).book, A_ROW) && s.accounts == Start(funds).accounts
    ensures s.outbox == [OutboxRow(7, TransferRequested, false)] && s.stream == []
    ensures s.workers == map[] && s.relays == map[]
  {
    acts, s := SaveIt(g, funds);
    acts, s := Extend(g, Start(funds), acts, s, Handler(AppendRequested(7)));
    acts, s := Extend(g, Start(funds), acts, s, Handler(WriteRequested(7)));
  }

  /** and the relay publishes the request. */
  lemma Announce(g: Regime, funds: nat) returns (acts: seq<Action>, s: System)
    requires 5 <= funds <= MAX_INT64
    ensures Run(g, Start(funds), acts, s) && Ready(s) && s.workers == map[] && s.book.log == []
    ensures s.book.ledger == Start(funds).book.ledger
  {
    StartBalance(funds);
    acts, s := Create(g, funds);
    acts, s := Extend(g, Start(funds), acts, s, Relay(0, Select([0])));
    acts, s := Extend(g, Start(funds), acts, s, Relay(0, Publish(true)));
  }

  const DUE := Booking(0, A_ROW, Reserve, None)

  lemma Overwrite(s: System, w: WorkerId, pc: WorkerPc, pc': WorkerPc)
    ensures Goto(Goto(s, w, pc), w, pc') == Goto(s, w, pc')
  {
    assert s.workers[w := pc][w := pc'] == s.workers[w := pc'];
  }

  /** A worker picks the message up, */
  lemma PickUp(g: Regime, s0: System, acts: seq<Action>, s: System, w: WorkerId) returns (acts': seq<Action>)
    requires Run(g, s0, acts, s) && Ready(s) && Pc(s, w) == Idle
    requires Permits(g, s, Worker(w, Deliver(0)))
    ensures Run(g, s0, acts', Goto(s, w, Locking(0, A_ROW)))
  {
    var s';
    acts', s' := Extend(g, s0, acts, s, Worker(w, Deliver(0)));
    acts', s' := Extend(g, s0, acts', s', Worker(w, Load));
    Overwrite(s, w, Loading(0), Locking(0, A_ROW));
  }

  /** passes the status and balance checks, and is about to post its debit. */
  lemma PassCheck(g: Regime, s0: System, acts: seq<Action>, s: System, w: WorkerId) returns (acts': seq<Action>)
    requires Run(g, s0, acts, s) && Ready(s) && Pc(s, w) == Idle
    requires Permits(g, s, Worker(w, Deliver(0)))
    ensures Run(g, s0, acts', Goto(s, w, DUE))
  {
    var s';
    acts' := PickUp(g, s0, acts, s, w);
    acts', s' := Extend(g, s0, acts', Goto(s, w, Locking(0, A_ROW)), Worker(w, Lock));
    Overwrite(s, w, Locking(0, A_ROW), Checking(0, A_ROW));
    acts', s' := Extend(g, s0, acts', s', Worker(w, Check));
    Overwrite(s, w, Checking(0, A_ROW), DUE);
  }

  predicate IsDebit(r: Record) {
    r.id == 7 && r.tag == Posted(Reserve)
  }

  /** A debit of transfer 7 is recorded. */
  predicate AnotherDebit(log: seq<Record>, log': seq<Record>) {
    |log'| == |log| + 1 && IsDebit(log'[|log|]) && log' == log + [log'[|log|]]
  }

  /** Both records are debits of transfer 7. */
  predicate DebitedTwice(log: seq<Record>) {
    |log| == 2 && IsDebit(log[0]) && IsDebit(log[1])
  }

  lemma SecondDebit(log: seq<Record>, log': seq<Record>)
    requires |log| == 1 && IsDebit(log[0]) && AnotherDebit(log, log')
    ensures DebitedTwice(log')
  {
  }

  /** What posting the debit leaves behind. */
  lemma PostDue(g: Regime, s0: System, acts: seq<Action>, s: System, w: WorkerId)
    returns (acts': seq<Action>, s': System)
    requires Run(g, s0, acts, s) && Pc(s, w) == DUE
    ensures Run(g, s0, acts', s')
    ensures s'.accounts == s.accounts && s'.book.rows == s.book.rows && s'.stream == s.stream
    ensures Balance(s'.book.ledger, 10, IDR) == Balance(s.book.ledger, 10, IDR) - 5
    ensures AnotherDebit(s.book.log, s'.book.log)
    ensures w in s'.workers && s'.workers == s.workers[w := s'.workers[w]]
    ensures Slot(s'.workers[w]) == Some(|s.book.log|) && !s'.workers[w].Idle?
  {
    PostBalance(s, w, 10, IDR);
    acts', s' := Extend(g, s0, acts, s, Worker(w, Post));
  }

  /** Two workers handle the same redelivered message, and both pass the check. */
  lemma BothDue(g: Regime, s0: System, acts: seq<Action>, s: System) returns (acts': seq<Action>)
    requires Run(g, s0, acts, s) && Ready(s) && s.workers == map[] && g == Regime(Some(2), false)
    ensures Run(g, s0, acts', Goto(Goto(s, 0, DUE), 1, DUE))
  {
    acts' := PassCheck(g, s0, acts, s, 0);
    assert ActiveWorkers(Goto(s, 0, DUE)) == {0};
    acts' := PassCheck(g, s0, acts', Goto(s, 0, DUE), 1);
  }

  /** Without any fault, both then debit the account. */
  lemma TwoWorkersDebitTwice() returns (acts: seq<Action>, s: System)
    ensures Run(Regime(Some(2), false), Start(5), acts, s) && Init(Start(5))
    ensures Balance(Start(5).book.opening, 10, IDR) == 5 && Balance(s.book.ledger, 10, IDR) == -5
    ensures DebitedTwice(s.book.log)
  {
    var g := Regime(Some(2), false);
    StartBalance(5);
    acts, s := Announce(g, 5);
    acts := BothDue(g, Start(5), acts, s);
    acts, s := BothPost(g, Start(5), acts, Goto(Goto(s, 0, DUE), 1, DUE));
  }

  lemma BothPost(g: Regime, s0: System, acts: seq<Action>, s: System) returns (acts': seq<Action>, s': System)
    requires Run(g, s0, acts, s) && Pc(s, 0) == DUE && Pc(s, 1) == DUE && s.book.log == []
    ensures Run(g, s0, acts', s') && DebitedTwice(s'.book.log)
    ensures Balance(s'.book.ledger, 10, IDR) == Balance(s.book.ledger, 10, IDR) - 10
  {
    var s1;
    acts', s1 := PostDue(g, s0, acts, s, 0);
    acts', s' := PostDue(g, s0, acts', s1, 1);
    SecondDebit(s1.book.log, s'.book.log);
  }

  // ---- The exact condition ----

  /** With at most `n` workers at a time, no customer balance that starts non-negative is ever overdrawn. */
  ghost predicate NeverOverdraws(n: nat) {
    forall s0: System, acts: seq<Action>, s: System, account: AccountId, currency: Currency ::
      Init(s0) && Run(Regime(Some(n), true), s0, acts, s)
      && account != FloatAccount(currency) && Balance(s0.book.opening, account, currency) >= 0
      ==> Balance(s.book.ledger, account, currency) >= 0
  }

  /** Overdraft protection holds exactly for a single worker. */
  lemma OverdraftProtectionIsOneWorker(n: nat)
    ensures NeverOverdraws(n) <==> n <= 1
  {
    if n <= 1 {
      forall s0: System, acts: seq<Action>, s: System, account: AccountId, currency: Currency
        | Init(s0) && Run(Regime(Some(n), true), s0, acts, s)
          && account != FloatAccount(currency) && Balance(s0.book.opening, account, currency) >= 0
        ensures Balance(s.book.ledger, account, currency) >= 0
      {
        RunWiden(Regime(Some(n), true), ONE_AT_A_TIME, s0, acts, s);
        SolventRun(s0, acts, s, account, currency);
      }
    } else {
      var acts, s := TwoWorkersDebitTwice();
      RunWiden(Regime(Some(2), false), Regime(Some(n), true), Start(5), acts, s);
      assert 10 != FloatAccount(IDR);
    }
  }
}
