/**
 Progress of undisturbed Execute calls: each one on an unfinished transfer lowers a
 rank unless a posting is impossible, so four calls finish any transfer between
 customer accounts, and a finished one never changes again.
 */
module Progress {
  import opened Ledger
  import opened Transfers
  import opened Protocol
  import opened History
  import opened Backend
  import opened Saga

  /** How many calls a state is away from a terminal one, at most. */
  function Rank(s: State): nat {
    match s
    case Pending => 4
    case Debited => 3
    case BankCalled => 2
    case Credited => 1
    case Compensating => 1
    case Completed => 0
    case Failed => 0
  }

  /**
   When an undisturbed call must fail: the source account does not exist, its balance
   does not fit an int64, or the ledger leg to be posted would begin and end in the
   float account.
   */
  predicate Blocked(accounts: map<AccountId, Status>, ledger: seq<LedgerEntry>, r: Row) {
    var float := FloatAccount(r.amount.currency);
    var balance := Balance(ledger, r.src, r.amount.currency);
    match r.state
    case Pending =>
      || r.src !in accounts
      || (accounts[r.src] == Active && (!IsInt64(balance) || (balance >= r.amount.amount && r.src == float)))
    case BankCalled => r.dst == float
    case _ => false
  }

  predicate Stored(tb: Tables, id: TransferId) {
    id in tb.rows && tb.rows[id].id == id && Shape(tb.rows[id])
  }

  lemma ReserveProgress(accounts: map<AccountId, Status>, tb: Tables, r: Row)
    requires Shape(r) && r.state == Pending && r.id in tb.rows && tb.rows[r.id] == r
    ensures var o := Reserved(accounts, tb, r);
            && (o.err <==> Blocked(accounts, tb.ledger, r))
            && (o.err ==> o.tables == tb)
            && (!o.err ==> Stored(o.tables, r.id) && Successor(r, o.tables.rows[r.id])
                           && o.tables.rows == tb.rows[r.id := o.tables.rows[r.id]])
  {
  }

  lemma RefundProgress(tb: Tables, r: Row)
    requires Shape(r) && r.state == Compensating && r.id in tb.rows && tb.rows[r.id] == r
    ensures var o := Refunded(tb, r);
            !o.err && Stored(o.tables, r.id) && Successor(r, o.tables.rows[r.id])
            && o.tables.rows == tb.rows[r.id := o.tables.rows[r.id]]
  {
  }

  lemma PayProgress(tb: Tables, r: Row)
    requires Shape(r) && r.state == BankCalled && r.id in tb.rows && tb.rows[r.id] == r
    ensures var o := PaidOut(tb, r);
            && (o.err <==> r.dst == FloatAccount(r.amount.currency))
            && (o.err ==> o.tables == tb)
            && (!o.err ==> Stored(o.tables, r.id) && Successor(r, o.tables.rows[r.id])
                           && o.tables.rows == tb.rows[r.id := o.tables.rows[r.id]])
  {
  }

  /** A refused bank call compensates in the same call. */
  lemma BankProgress(tb: Tables, r: Row, reply: Reply)
    requires Shape(r) && r.state == Debited && r.id in tb.rows && tb.rows[r.id] == r
    ensures var o := BankAsked(tb, r, reply);
            && !o.err && Stored(o.tables, r.id)
            && o.tables.rows[r.id].state == (if reply.Accepted? then BankCalled else Failed)
            && o.tables.rows[r.id].SameContract(r)
            && o.tables.rows == tb.rows[r.id := o.tables.rows[r.id]]
  {
    if reply.Refused? {
      var c := Forward(r.(failureReason := reply.reason), Compensating);
      assert Shape(c);
      RefundProgress(tb.(rows := tb.rows[r.id := c]), c);
    }
  }

  /**
   An undisturbed Execute: nothing changes for a finished transfer; for an unfinished
   one it fails and changes nothing exactly when blocked, and otherwise lowers the
   rank and touches no other row.
   */
  lemma ExecuteLowersRank(accounts: map<AccountId, Status>, tb: Tables, id: TransferId, reply: Reply)
    requires Stored(tb, id)
    ensures var r := tb.rows[id];
            var o := Executed(accounts, tb, id, reply);
            && (Terminal(r.state) ==> o == Outcome(tb, false))
            && (!Terminal(r.state) ==>
                  && (o.err <==> Blocked(accounts, tb.ledger, r))
                  && (o.err ==> o.tables == tb)
                  && (!o.err ==> Stored(o.tables, id) && Rank(o.tables.rows[id].state) < Rank(r.state)
                                 && o.tables.rows[id].SameContract(r)
                                 && o.tables.rows == tb.rows[id := o.tables.rows[id]]))
  {
    var r := tb.rows[id];
    match r.state {
      case Pending => ReserveProgress(accounts, tb, r);
      case Debited => BankProgress(tb, r, reply);
      case BankCalled => PayProgress(tb, r);
      case Compensating => RefundProgress(tb, r);
      case _ =>
    }
  }

  /** The tables after a sequence of undisturbed calls for one transfer, whatever the bank answers. */
  function Driven(accounts: map<AccountId, Status>, tb: Tables, id: TransferId, replies: seq<Reply>): Tables
    decreases |replies|
  {
    if |replies| == 0 then tb
    else
      var n := |replies| - 1;
      Executed(accounts, Driven(accounts, tb, id, replies[..n]), id, replies[n]).tables
  }

  /** Nothing stands in the way of the transfer: it is between customer accounts and its source is readable. */
  predicate Drivable(accounts: map<AccountId, Status>, tb: Tables, id: TransferId) {
    && Stored(tb, id)
    && var r := tb.rows[id];
       && r.src != FloatAccount(r.amount.currency) && r.dst != FloatAccount(r.amount.currency)
       && (r.state == Pending ==> r.src in accounts && IsInt64(Balance(tb.ledger, r.src, r.amount.currency)))
  }

  lemma DrivableStep(accounts: map<AccountId, Status>, tb: Tables, id: TransferId, reply: Reply)
    requires Drivable(accounts, tb, id)
    ensures var tb' := Executed(accounts, tb, id, reply).tables;
            && Drivable(accounts, tb', id) && tb'.rows[id].SameContract(tb.rows[id])
            && (if Terminal(tb.rows[id].state) then tb' == tb else Rank(tb'.rows[id].state) < Rank(tb.rows[id].state))
  {
    ExecuteLowersRank(accounts, tb, id, reply);
  }

  /** After `n` calls: still drivable, and finished or `n` ranks lower. */
  predicate Closer(accounts: map<AccountId, Status>, tb: Tables, tb': Tables, id: TransferId, n: nat)
    requires id in tb.rows
  {
    && Drivable(accounts, tb', id)
    && (Terminal(tb'.rows[id].state) || Rank(tb'.rows[id].state) + n <= Rank(tb.rows[id].state))
  }

  lemma CloserStep(accounts: map<AccountId, Status>, tb: Tables, tb': Tables, id: TransferId, n: nat, reply: Reply)
    requires id in tb.rows && Closer(accounts, tb, tb', id, n)
    ensures Closer(accounts, tb, Executed(accounts, tb', id, reply).tables, id, n + 1)
  {
    DrivableStep(accounts, tb', id, reply);
  }

  lemma {:induction false} DrivenRank(accounts: map<AccountId, Status>, tb: Tables, id: TransferId, replies: seq<Reply>)
    requires Drivable(accounts, tb, id)
    ensures Closer(accounts, tb, Driven(accounts, tb, id, replies), id, |replies|)
    decreases |replies|
  {
    if |replies| > 0 {
      var n := |replies| - 1;
      DrivenRank(accounts, tb, id, replies[..n]);
      CloserStep(accounts, tb, Driven(accounts, tb, id, replies[..n]), id, n, replies[n]);
    }
  }

  /** At most four undisturbed calls finish a transfer; further calls change nothing. */
  lemma FourCallsFinish(accounts: map<AccountId, Status>, tb: Tables, id: TransferId, replies: seq<Reply>, more: Reply)
    requires Drivable(accounts, tb, id) && |replies| >= 4
    ensures var tb' := Driven(accounts, tb, id, replies);
            && id in tb'.rows && Terminal(tb'.rows[id].state)
            && Executed(accounts, tb', id, more) == Outcome(tb', false)
  {
    DrivenRank(accounts, tb, id, replies);
    ExecuteLowersRank(accounts, Driven(accounts, tb, id, replies), id, more);
  }

  // ---- When a transfer is completed, and after how many calls ----

  /** The debit can be reserved: an active, readable and funded source other than the float account. */
  predicate Reservable(accounts: map<AccountId, Status>, ledger: seq<LedgerEntry>, r: Row) {
    var balance := Balance(ledger, r.src, r.amount.currency);
    && r.src in accounts && accounts[r.src] == Active
    && r.amount.amount <= balance <= MAX_INT64 && r.src != FloatAccount(r.amount.currency)
  }

  /** The state after one undisturbed call. */
  function StateAfter(accounts: map<AccountId, Status>, ledger: seq<LedgerEntry>, r: Row, reply: Reply): State {
    match r.state
    case Pending =>
      if Blocked(accounts, ledger, r) then Pending else if Reservable(accounts, ledger, r) then Debited else Failed
    case Debited => if reply.Accepted? then BankCalled else Failed
    case BankCalled => if r.dst == FloatAccount(r.amount.currency) then BankCalled else Credited
    case Credited => Completed
    case Compensating => Failed
    case Completed => Completed
    case Failed => Failed
  }

  lemma ReservedState(accounts: map<AccountId, Status>, tb: Tables, r: Row)
    requires Shape(r) && r.state == Pending && r.id in tb.rows && tb.rows[r.id] == r
    ensures Reserved(accounts, tb, r).tables.rows[r.id].state == StateAfter(accounts, tb.ledger, r, Accepted(""))
  {
    assert r.amount.amount > 0;
  }

  lemma ExecuteState(accounts: map<AccountId, Status>, tb: Tables, id: TransferId, reply: Reply)
    requires Stored(tb, id)
    ensures var tb' := Executed(accounts, tb, id, reply).tables;
            && Stored(tb', id) && tb'.rows[id].SameContract(tb.rows[id])
            && tb'.rows[id].state == StateAfter(accounts, tb.ledger, tb.rows[id], reply)
            && (tb'.rows[id].state == tb.rows[id].state ==> tb' == tb)
  {
    var r := tb.rows[id];
    ExecuteLowersRank(accounts, tb, id, reply);
    match r.state
    case Pending => ReservedState(accounts, tb, r);
    case Debited => BankProgress(tb, r, reply);
    case BankCalled => PayProgress(tb, r);
    case Compensating => RefundProgress(tb, r);
    case _ =>
  }

  /** One call completes a transfer exactly if it was CREDITED, or COMPLETED already. */
  lemma CompletedByOneCall(accounts: map<AccountId, Status>, tb: Tables, id: TransferId, reply: Reply)
    requires Stored(tb, id)
    ensures var tb' := Executed(accounts, tb, id, reply).tables;
            id in tb'.rows
            && (tb'.rows[id].state == Completed <==> tb.rows[id].state == Credited || tb.rows[id].state == Completed)
  {
    ExecuteState(accounts, tb, id, reply);
  }

  /** The state of a new transfer after |replies| undisturbed calls. */
  function Expected(accounts: map<AccountId, Status>, ledger: seq<LedgerEntry>, r: Row, replies: seq<Reply>): State {
    if |replies| == 0 || Blocked(accounts, ledger, r) then Pending
    else if !Reservable(accounts, ledger, r) then Failed
    else if |replies| == 1 then Debited
    else if replies[1].Refused? then Failed
    else if |replies| == 2 || r.dst == FloatAccount(r.amount.currency) then BankCalled
    else if |replies| == 3 then Credited
    else Completed
  }

  lemma {:induction false} DrivenState(accounts: map<AccountId, Status>, tb: Tables, id: TransferId,
                                       replies: seq<Reply>)
    requires Stored(tb, id) && tb.rows[id].state == Pending
    ensures var tb' := Driven(accounts, tb, id, replies);
            && Stored(tb', id) && tb'.rows[id].SameContract(tb.rows[id])
            && tb'.rows[id].state == Expected(accounts, tb.ledger, tb.rows[id], replies)
            && (tb'.rows[id].state == Pending ==> tb' == tb)
    decreases |replies|
  {
    if |replies| > 0 {
      var n := |replies| - 1;
      DrivenState(accounts, tb, id, replies[..n]);
      ExecuteState(accounts, Driven(accounts, tb, id, replies[..n]), id, replies[n]);
    }
  }

  /**
   A new transfer is COMPLETED by undisturbed calls if and only if there were at least
   four of them, its source is active, readable and funded, neither account is the float
   account, and the bank accepts the second call.
   */
  lemma CompletedExactlyWhen(accounts: map<AccountId, Status>, tb: Tables, id: TransferId, replies: seq<Reply>)
    requires Stored(tb, id) && tb.rows[id].state == Pending
    ensures var tb' := Driven(accounts, tb, id, replies);
            var r := tb.rows[id];
            && id in tb'.rows
            && (tb'.rows[id].state == Completed <==>
                  && |replies| >= 4 && replies[1].Accepted?
                  && Reservable(accounts, tb.ledger, r) && r.dst != FloatAccount(r.amount.currency))
  {
    DrivenState(accounts, tb, id, replies);
  }

  // ---- Every column and every entry of one call ----

  /** The two entries that move the transfer's amount. */
  function Entered(from: AccountId, to: AccountId, k: Kind, r: Row): seq<LedgerEntry> {
    [LedgerEntry(from, Debit, r.amount, ForTransfer(k, r.id)), LedgerEntry(to, Credit, r.amount, ForTransfer(k, r.id))]
  }

  /** What the ledger gains when a call leaves the row in this state. */
  function Gained(r: Row, next: State): seq<LedgerEntry> {
    var float := FloatAccount(r.amount.currency);
    match next
    case Debited => Entered(r.src, float, Reserve, r)
    case Credited => Entered(float, r.dst, Pay, r)
    case Failed => if r.state == Pending then [] else Entered(float, r.src, Refund, r)
    case _ => []
  }

  /** What the row says afterwards about the outside world. */
  predicate SaysSo(accounts: map<AccountId, Status>, r: Row, r': Row, reply: Reply) {
    && r'.externalRef == (if r'.state == BankCalled && reply.Accepted? then reply.ref else r.externalRef)
    && r'.failureReason
       == (if r.state == Pending && r'.state == Failed then
             (if r.src in accounts && accounts[r.src] == Active then INSUFFICIENT_FUNDS else NOT_TRANSACTABLE)
           else if r.state == Debited && reply.Refused? then reply.reason
           else r.failureReason)
  }

  /** The announcement of a stored state. */
  predicate Tells(e: Event, o: OutboxRow, id: TransferId, st: State) {
    && e.id == id && o.id == id && e.state == st && e.eventType == o.subject && !o.published
    && match o.subject
       case TransferDebited => st == Debited
       case TransferBankCalled => st == BankCalled
       case TransferCredited => st == Credited
       case TransferCompleted => st == Completed
       case TransferFailed => st == Failed
       case TransferRequested => false
  }

  /** What a call that moves the row of the transfer on has done. */
  predicate CallDone(accounts: map<AccountId, Status>, tb: Tables, tb': Tables, id: TransferId, reply: Reply) {
    && id in tb.rows && id in tb'.rows && tb'.rows == tb.rows[id := tb'.rows[id]]
    && var r, r' := tb.rows[id], tb'.rows[id];
       && r'.SameContract(r) && r'.state == StateAfter(accounts, tb.ledger, r, reply)
       && r'.debitPosted == (r.debitPosted || r'.state == Debited)
       && r'.creditPosted == (r.creditPosted || r'.state == Credited)
       && SaysSo(accounts, r, r', reply)
       && tb'.ledger == tb.ledger + Gained(r, r'.state)
       && |tb'.events| == |tb.events| + 1 && tb.events < tb'.events
       && |tb'.outbox| == |tb.outbox| + 1 && tb.outbox < tb'.outbox
       && Tells(tb'.events[|tb.events|], tb'.outbox[|tb.outbox|], id, r'.state)
  }

  lemma ReserveCall(accounts: map<AccountId, Status>, tb: Tables, r: Row, reply: Reply)
    requires Shape(r) && r.state == Pending && r.id in tb.rows && tb.rows[r.id] == r
    requires !Reserved(accounts, tb, r).err
    ensures CallDone(accounts, tb, Reserved(accounts, tb, r).tables, r.id, reply)
  {
    ReservedState(accounts, tb, r);
    assert tb.ledger + [] == tb.ledger;
  }

  lemma RefundCall(tb: Tables, r: Row)
    requires Shape(r) && r.state == Compensating && r.id in tb.rows
    ensures var tb' := Refunded(tb, r).tables;
            && r.id in tb'.rows && tb'.rows == tb.rows[r.id := tb'.rows[r.id]]
            && tb'.rows[r.id] == r.(state := Failed, version := r.version + 1)
            && tb'.ledger == tb.ledger + Entered(FloatAccount(r.amount.currency), r.src, Refund, r)
            && tb'.events == tb.events + [Event(r.id, TransferFailed, Failed)]
            && tb'.outbox == tb.outbox + [OutboxRow(r.id, TransferFailed, false)]
  {
  }

  lemma BankCall(accounts: map<AccountId, Status>, tb: Tables, r: Row, reply: Reply)
    requires Shape(r) && r.state == Debited && r.id in tb.rows && tb.rows[r.id] == r
    ensures CallDone(accounts, tb, BankAsked(tb, r, reply).tables, r.id, reply)
  {
    if reply.Refused? {
      var c := Forward(r.(failureReason := reply.reason), Compensating);
      RefundCall(tb.(rows := tb.rows[r.id := c]), c);
    } else {
      assert tb.ledger + [] == tb.ledger;
    }
  }

  lemma PayCall(accounts: map<AccountId, Status>, tb: Tables, r: Row, reply: Reply)
    requires Shape(r) && r.state == BankCalled && r.id in tb.rows && tb.rows[r.id] == r && !PaidOut(tb, r).err
    ensures CallDone(accounts, tb, PaidOut(tb, r).tables, r.id, reply)
  {
  }

  /**
   An undisturbed call that does not fail, on a transfer that is not finished: the state
   moves on, the flags record what was posted, reference and reason are the bank's or the
   account check's, the ledger gains exactly the entries of that step, and one event and
   one outbox row announce the new state.
   */
  lemma OneCall(accounts: map<AccountId, Status>, tb: Tables, id: TransferId, reply: Reply)
    requires Stored(tb, id) && !Terminal(tb.rows[id].state) && !Executed(accounts, tb, id, reply).err
    ensures CallDone(accounts, tb, Executed(accounts, tb, id, reply).tables, id, reply)
  {
    var r := tb.rows[id];
    match r.state
    case Pending => ReserveCall(accounts, tb, r, reply);
    case Debited => BankCall(accounts, tb, r, reply);
    case BankCalled => PayCall(accounts, tb, r, reply);
    case Compensating => RefundCall(tb, r);
    case Credited => assert tb.ledger + [] == tb.ledger;
    case _ =>
  }
}
