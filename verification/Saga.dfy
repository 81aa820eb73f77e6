/**
 The saga orchestrator in the source's own form: methods that change the transfer
 object and the tables step by step. Each is proved twice over: whatever fails and
 whoever interferes, it takes only protocol steps; and when nothing does, the tables
 end up exactly as `Executed` says.
 */
module Saga {
  import opened Ledger
  import opened Transfers
  import opened Protocol
  import opened History
  import opened Backend

  // ---- What one undisturbed Execute does ----

  datatype Outcome = Outcome(tables: Tables, err: bool)

  /** The next version is stored and its event recorded and enqueued. */
  function Announce(tb: Tables, r: Row): Tables {
    tb.(rows := tb.rows[r.id := r],
        events := tb.events + [Event(r.id, EventFor(r.state), r.state)],
        outbox := tb.outbox + [OutboxRow(r.id, EventFor(r.state), false)])
  }

  function Forward(r: Row, next: State): Row {
    r.(state := next, version := r.version + 1)
  }

  function Refunded(tb: Tables, r: Row): Outcome {
    match PostingFor(Refund, r)
    case Err => Outcome(tb, true)
    case Ok(p) => Outcome(Announce(tb.(ledger := tb.ledger + p.Entries()), Forward(r, Failed)), false)
  }

  function DebitPosted(tb: Tables, r: Row): Outcome {
    match PostingFor(Reserve, r)
    case Err => Outcome(tb, true)
    case Ok(p) =>
      Outcome(Announce(tb.(ledger := tb.ledger + p.Entries()), Forward(r.(debitPosted := true), Debited)), false)
  }

  function FundsChecked(tb: Tables, r: Row): Outcome {
    var balance := Balance(tb.ledger, r.src, r.amount.currency);
    if !IsInt64(balance) then Outcome(tb, true)
    else if balance < r.amount.amount then
      Outcome(Announce(tb, Forward(r.(failureReason := INSUFFICIENT_FUNDS), Failed)), false)
    else DebitPosted(tb, r)
  }

  function Reserved(accounts: map<AccountId, Status>, tb: Tables, r: Row): Outcome {
    if r.src !in accounts then Outcome(tb, true)
    else if accounts[r.src] != Active then
      Outcome(Announce(tb, Forward(r.(failureReason := NOT_TRANSACTABLE), Failed)), false)
    else FundsChecked(tb, r)
  }

  function PaidOut(tb: Tables, r: Row): Outcome {
    match PostingFor(Pay, r)
    case Err => Outcome(tb, true)
    case Ok(p) =>
      Outcome(Announce(tb.(ledger := tb.ledger + p.Entries()), Forward(r.(creditPosted := true), Credited)), false)
  }

  function BankAsked(tb: Tables, r: Row, reply: Reply): Outcome {
    match reply
    case Accepted(ref) => Outcome(Announce(tb, Forward(r.(externalRef := ref), BankCalled)), false)
    case Refused(reason) =>
      var c := Forward(r.(failureReason := reason), Compensating);
      Refunded(tb.(rows := tb.rows[r.id := c]), c)
  }

  /** The tables after one Execute of transfer `id` that nothing disturbed. */
  function Executed(accounts: map<AccountId, Status>, tb: Tables, id: TransferId, reply: Reply): Outcome {
    if id !in tb.rows then Outcome(tb, true)
    else
      var r := tb.rows[id];
      match r.state
      case Pending => Reserved(accounts, tb, r)
      case Debited => BankAsked(tb, r, reply)
      case BankCalled => PaidOut(tb, r)
      case Credited => Outcome(Announce(tb, Forward(r, Completed)), false)
      case Compensating => Refunded(tb, r)
      case Completed => Outcome(tb, false)
      case Failed => Outcome(tb, false)
  }

  /** How many bank calls one Execute makes. */
  function Asks(rows: map<TransferId, Row>, id: TransferId): nat {
    if id in rows && rows[id].state == Debited then 1 else 0
  }

  /** The transfer object holds what the table holds. */
  ghost predicate Current(rows: map<TransferId, Row>, r: Row) {
    r.id in rows && rows[r.id] == r
  }

  class TransferSaga {
    const db: Store

    constructor (db: Store)
      ensures this.db == db
    {
      this.db := db;
    }

    /** publishEvent: append the event, write the outbox row. */
    method PublishEvent(ghost w: WorkerId, t: Transfer, eventType: EventType) returns (err: bool)
      requires db.Valid() && db.At(w).Appending? && db.At(w).t == t.Value() && eventType == EventFor(t.state)
      modifies db
      ensures db.Valid() && db.After(old(db.states), old(db.trace))
      ensures db.At(w) == if err then Idle else Done(old(db.At(w)).msg)
      ensures db.reliable ==>
                && !err && RestOf(db) == old(RestOf(db))
                && TablesOf(db) == old(TablesOf(db)).(
                     events := old(db.events) + [Event(t.id, eventType, t.state)],
                     outbox := old(db.outbox) + [OutboxRow(t.id, eventType, false)])
    {
      var ok := db.AppendEvent(w, Event(t.id, eventType, t.state));
      if !ok {
        return true;
      }
      db.Interfere(w);
      ok := db.WriteOutbox(w, OutboxRow(t.id, eventType, false));
      return !ok;
    }

    /** UpdateState, then publishEvent: how every step but the start of compensation ends. */
    method StoreAndPublish(ghost w: WorkerId, t: Transfer, eventType: EventType) returns (err: bool)
      requires db.Valid() && db.At(w).Updating? && db.At(w).t == t.Value()
      requires eventType == EventFor(t.state) && t.state != Compensating
      modifies db
      ensures db.Valid() && db.After(old(db.states), old(db.trace))
      ensures db.At(w) == if err then Idle else Done(old(db.At(w)).msg)
      ensures db.reliable ==> RestOf(db) == old(RestOf(db))
      ensures db.reliable && t.id in old(db.rows) && old(db.rows)[t.id].SameContract(t.Value())
              && old(db.rows)[t.id].version == t.version - 1 ==>
                !err && TablesOf(db) == Announce(old(TablesOf(db)), t.Value())
    {
      var ok := db.UpdateState(w, t);
      if !ok {
        return true;
      }
      db.Interfere(w);
      err := PublishEvent(w, t, eventType);
    }

    /** failWith. */
    method FailWith(ghost w: WorkerId, ghost msg: nat, ghost slot: Option<nat>, t: Transfer, reason: string)
      returns (err: bool)
      requires db.Valid() && db.At(w) == Protocol.FailWith(msg, t.Value(), reason, slot)
      modifies db, t
      ensures db.Valid() && db.After(old(db.states), old(db.trace))
      ensures db.At(w) == if err then Idle else Done(msg)
      ensures db.reliable ==> RestOf(db) == old(RestOf(db))
      ensures db.reliable && Legal(old(t.state), Failed) && Current(old(db.rows), old(t.Value())) ==>
                && !err
                && TablesOf(db)
                   == Announce(old(TablesOf(db)), Forward(old(t.Value()).(failureReason := reason), Failed))
    {
      t.failureReason := reason;
      if t.state == Failed {
        return false;
      }
      var ok := t.Transition(Failed);
      if !ok {
        return true;
      }
      err := StoreAndPublish(w, t, TransferFailed);
    }

    /** Builds a posting of the transfer and posts it: how the four ledger steps begin. */
    method Book(ghost w: WorkerId, t: Transfer, k: Kind, from: AccountId, to: AccountId) returns (ok: bool)
      requires db.Valid() && db.At(w).Booking? && db.At(w).t == t.Value() && db.At(w).kind == k
      requires (from, to) == Legs(k, t.Value())
      modifies db
      ensures db.Valid() && db.After(old(db.states), old(db.trace))
      ensures var pc := old(db.At(w));
              db.At(w) == if ok then AfterPost(pc.msg, t.Value(), k, |old(db.sys).book.log|) else Idle
      ensures db.reliable ==> RestOf(db) == old(RestOf(db))
      ensures db.reliable ==>
                && (ok <==> PostingFor(k, t.Value()).Ok?)
                && TablesOf(db) ==
                   if ok
                   then old(TablesOf(db)).(ledger := old(db.ledger) + PostingFor(k, t.Value()).value.Entries())
                   else old(TablesOf(db))
    {
      var posting := NewPosting(from, to, t.amount, ForTransfer(k, t.id));
      if posting.Err? {
        db.CannotBook(w);
        return false;
      }
      ok := db.PostEntries(w, posting.value.Entries());
      if ok {
        db.Interfere(w);
      }
    }

    method ReserveDebit(ghost w: WorkerId, ghost msg: nat, t: Transfer) returns (err: bool)
      requires db.Valid() && db.At(w) == Locking(msg, t.Value()) && t.state == Pending
      modifies db, t
      ensures db.Valid() && db.After(old(db.states), old(db.trace))
      ensures db.At(w) == if err then Idle else Done(msg)
      ensures db.reliable ==> RestOf(db) == old(RestOf(db))
      ensures db.reliable && Current(old(db.rows), old(t.Value())) ==>
                Outcome(TablesOf(db), err) == Reserved(old(db.accounts), old(TablesOf(db)), old(t.Value()))
    {
      err := true;
      var status := LockSource(w, msg, t);
      if status.Some? {
        if status.value == Active {
          err := CheckFunds(w, msg, t);
        } else {
          err := FailWith(w, msg, None, t, NOT_TRANSACTABLE);
        }
      }
    }

    method SourceBalance(ghost w: WorkerId, ghost msg: nat, t: Transfer) returns (balance: Option<int>)
      requires db.Valid() && db.At(w) == Checking(msg, t.Value())
      modifies db
      ensures db.Valid() && db.After(old(db.states), old(db.trace))
      ensures db.At(w) == if balance == None then Idle
                          else if balance.value < t.amount.amount
                          then Protocol.FailWith(msg, t.Value(), INSUFFICIENT_FUNDS, None)
                          else Booking(msg, t.Value(), Reserve, None)
      ensures db.reliable ==>
                && RestOf(db) == old(RestOf(db)) && TablesOf(db) == old(TablesOf(db))
                && var sum := Balance(db.ledger, t.src, t.amount.currency);
                   balance == if IsInt64(sum) then Some(sum) else None
    {
      balance := db.GetBalance(w, t.src, t.amount.currency);
      if balance.Some? {
        db.Interfere(w);
      }
    }

    method CheckFunds(ghost w: WorkerId, ghost msg: nat, t: Transfer) returns (err: bool)
      requires db.Valid() && db.At(w) == Checking(msg, t.Value()) && t.state == Pending
      modifies db, t
      ensures db.Valid() && db.After(old(db.states), old(db.trace))
      ensures db.At(w) == if err then Idle else Done(msg)
      ensures db.reliable ==> RestOf(db) == old(RestOf(db))
      ensures db.reliable && Current(old(db.rows), old(t.Value())) ==>
                Outcome(TablesOf(db), err) == FundsChecked(old(TablesOf(db)), old(t.Value()))
    {
      err := true;
      var balance := SourceBalance(w, msg, t);
      if balance.Some? {
        if balance.value < t.amount.amount {
          err := FailWith(w, msg, None, t, INSUFFICIENT_FUNDS);
        } else {
          err := PostDebit(w, msg, t);
        }
      }
    }

    method PostDebit(ghost w: WorkerId, ghost msg: nat, t: Transfer) returns (err: bool)
      requires db.Valid() && db.At(w) == Booking(msg, t.Value(), Reserve, None) && t.state == Pending
      modifies db, t
      ensures db.Valid() && db.After(old(db.states), old(db.trace))
      ensures db.At(w) == if err then Idle else Done(msg)
      ensures db.reliable ==> RestOf(db) == old(RestOf(db))
      ensures db.reliable && Current(old(db.rows), old(t.Value())) ==>
                Outcome(TablesOf(db), err) == DebitPosted(old(TablesOf(db)), old(t.Value()))
    {
      var ok := Book(w, t, Reserve, t.src, FloatAccount(t.amount.currency));
      if !ok {
        return true;
      }
      t.debitPosted := true;
      ok := t.Transition(Debited);
      if !ok {
        return true;
      }
      err := StoreAndPublish(w, t, TransferDebited);
    }

    method PostCredit(ghost w: WorkerId, ghost msg: nat, t: Transfer) returns (err: bool)
      requires db.Valid() && db.At(w) == Booking(msg, t.Value(), Pay, None) && t.state == BankCalled
      modifies db, t
      ensures db.Valid() && db.After(old(db.states), old(db.trace))
      ensures db.At(w) == if err then Idle else Done(msg)
      ensures db.reliable ==> RestOf(db) == old(RestOf(db))
      ensures db.reliable && Current(old(db.rows), old(t.Value())) ==>
                Outcome(TablesOf(db), err) == PaidOut(old(TablesOf(db)), old(t.Value()))
    {
      var ok := Book(w, t, Pay, FloatAccount(t.amount.currency), t.dst);
      if !ok {
        return true;
      }
      t.creditPosted := true;
      ok := t.Transition(Credited);
      if !ok {
        return true;
      }
      err := StoreAndPublish(w, t, TransferCredited);
    }

    method Complete(ghost w: WorkerId, ghost msg: nat, t: Transfer) returns (err: bool)
      requires db.Valid() && db.At(w) == MoveTo(msg, t.Value(), Completed, None) && t.state == Credited
      modifies db, t
      ensures db.Valid() && db.After(old(db.states), old(db.trace))
      ensures db.At(w) == if err then Idle else Done(msg)
      ensures db.reliable ==> RestOf(db) == old(RestOf(db))
      ensures db.reliable && Current(old(db.rows), old(t.Value())) ==>
                !err && TablesOf(db) == Announce(old(TablesOf(db)), Forward(old(t.Value()), Completed))
    {
      var ok := t.Transition(Completed);
      if !ok {
        return true;
      }
      err := StoreAndPublish(w, t, TransferCompleted);
    }

    /** compensate: the credit leg first, then the debit leg, then failWith. */
    method Compensate(ghost w: WorkerId, ghost msg: nat, t: Transfer) returns (err: bool)
      requires db.Valid() && db.At(w) == Protocol.Compensate(msg, t.Value()) && t.state == Compensating
      modifies db, t
      ensures db.Valid() && db.After(old(db.states), old(db.trace))
      ensures db.At(w) == if err then Idle else Done(msg)
      ensures db.reliable ==> RestOf(db) == old(RestOf(db))
      ensures db.reliable && Current(old(db.rows), old(t.Value())) && old(t.debitPosted) && !old(t.creditPosted) ==>
                Outcome(TablesOf(db), err) == Refunded(old(TablesOf(db)), old(t.Value()))
    {
      var float := FloatAccount(t.amount.currency);
      ghost var slot: Option<nat> := None;
      if t.creditPosted {
        slot := Some(|db.sys.book.log|);
        var ok := Book(w, t, Clawback, t.dst, float);
        if !ok {
          return true;
        }
      }
      if t.debitPosted {
        slot := Some(|db.sys.book.log|);
        var ok := Book(w, t, Refund, float, t.src);
        if !ok {
          return true;
        }
      }
      err := FailWith(w, msg, slot, t, t.failureReason);
    }

    /** UpdateState without an event. */
    method StoreOnly(ghost w: WorkerId, t: Transfer) returns (ok: bool)
      requires db.Valid() && db.At(w).Updating? && db.At(w).t == t.Value() && t.state == Compensating
      modifies db
      ensures db.Valid() && db.After(old(db.states), old(db.trace))
      ensures db.At(w) == if ok then Protocol.Compensate(old(db.At(w)).msg, t.Value()) else Idle
      ensures db.reliable ==> RestOf(db) == old(RestOf(db))
      ensures db.reliable && t.id in old(db.rows) && old(db.rows)[t.id].SameContract(t.Value())
              && old(db.rows)[t.id].version == t.version - 1 ==>
                ok && TablesOf(db) == old(TablesOf(db)).(rows := old(db.rows)[t.id := t.Value()])
    {
      ok := db.UpdateState(w, t);
      if ok {
        db.Interfere(w);
      }
    }

    /** The COMPENSATING row is stored before anything is reversed. */
    method EnterCompensation(ghost w: WorkerId, ghost msg: nat, t: Transfer, reason: string, ghost i: nat)
      returns (ok: bool)
      requires db.Valid() && t.state == Debited
      requires db.At(w) == MoveTo(msg, t.Value().(failureReason := reason), Compensating, Some(i))
      modifies db, t
      ensures db.Valid() && db.After(old(db.states), old(db.trace))
      ensures t.Value() == Forward(old(t.Value()).(failureReason := reason), Compensating)
      ensures db.At(w) == if ok then Protocol.Compensate(msg, t.Value()) else Idle
      ensures db.reliable ==> RestOf(db) == old(RestOf(db))
      ensures db.reliable && Current(old(db.rows), old(t.Value())) ==>
                ok && TablesOf(db) == old(TablesOf(db)).(rows := old(db.rows)[t.id := t.Value()])
    {
      t.failureReason := reason;
      ok := t.Transition(Compensating);
      if ok {
        ok := StoreOnly(w, t);
      }
    }

    method StartCompensation(ghost w: WorkerId, ghost msg: nat, t: Transfer, reason: string, ghost i: nat)
      returns (err: bool)
      requires db.Valid() && t.state == Debited
      requires db.At(w) == MoveTo(msg, t.Value().(failureReason := reason), Compensating, Some(i))
      modifies db, t
      ensures db.Valid() && db.After(old(db.states), old(db.trace))
      ensures db.At(w) == if err then Idle else Done(msg)
      ensures db.reliable ==> RestOf(db) == old(RestOf(db))
      ensures db.reliable && Current(old(db.rows), old(t.Value())) && old(t.debitPosted) && !old(t.creditPosted) ==>
                Outcome(TablesOf(db), err) == BankAsked(old(TablesOf(db)), old(t.Value()), Refused(reason))
    {
      err := true;
      var ok := EnterCompensation(w, msg, t, reason, i);
      if ok {
        err := Compensate(w, msg, t);
      }
    }

    method Acknowledge(ghost w: WorkerId, ghost msg: nat, t: Transfer, ref: string, ghost i: nat) returns (err: bool)
      requires db.Valid() && t.state == Debited
      requires db.At(w) == MoveTo(msg, t.Value().(externalRef := ref), BankCalled, Some(i))
      modifies db, t
      ensures db.Valid() && db.After(old(db.states), old(db.trace))
      ensures db.At(w) == if err then Idle else Done(msg)
      ensures db.reliable ==> RestOf(db) == old(RestOf(db))
      ensures db.reliable && Current(old(db.rows), old(t.Value())) ==>
                Outcome(TablesOf(db), err) == BankAsked(old(TablesOf(db)), old(t.Value()), Accepted(ref))
    {
      t.externalRef := ref;
      var ok := t.Transition(BankCalled);
      if !ok {
        return true;
      }
      err := StoreAndPublish(w, t, TransferBankCalled);
    }

    method AskBank(ghost w: WorkerId, ghost msg: nat, t: Transfer) returns (answer: Reply, ghost i: nat)
      requires db.Valid() && db.At(w) == Calling(msg, t.Value())
      modifies db
      ensures db.Valid() && db.After(old(db.states), old(db.trace))
      ensures answer == db.replies(old(db.asked)) && db.At(w) == AfterBank(msg, t.Value(), answer, i)
      ensures db.reliable ==>
                && RestOf(db) == old(RestOf(db)).(asked := old(db.asked) + 1)
                && TablesOf(db) == old(TablesOf(db))
    {
      i := |db.sys.book.log|;
      answer := db.InitiateTransfer(w);
      db.Interfere(w);
    }

    method LockSource(ghost w: WorkerId, ghost msg: nat, t: Transfer) returns (status: Option<Status>)
      requires db.Valid() && db.At(w) == Locking(msg, t.Value())
      modifies db
      ensures db.Valid() && db.After(old(db.states), old(db.trace))
      ensures db.At(w) == if status == None then Idle
                          else if status.value == Active then Checking(msg, t.Value())
                          else Protocol.FailWith(msg, t.Value(), NOT_TRANSACTABLE, None)
      ensures db.reliable ==>
                && RestOf(db) == old(RestOf(db)) && TablesOf(db) == old(TablesOf(db))
                && status == if t.src in db.accounts then Some(db.accounts[t.src]) else None
    {
      status := db.LockForUpdate(w, t.src);
      if status.Some? {
        db.Interfere(w);
      }
    }

    /** The bank's next answer decides between acknowledgement and compensation. */
    method CallBank(ghost w: WorkerId, ghost msg: nat, t: Transfer) returns (err: bool)
      requires db.Valid() && db.At(w) == Calling(msg, t.Value()) && t.state == Debited
      modifies db, t
      ensures db.Valid() && db.After(old(db.states), old(db.trace))
      ensures db.At(w) == if err then Idle else Done(msg)
      ensures db.reliable ==> RestOf(db) == old(RestOf(db)).(asked := old(db.asked) + 1)
      ensures db.reliable && Current(old(db.rows), old(t.Value())) && old(t.debitPosted) && !old(t.creditPosted) ==>
                Outcome(TablesOf(db), err)
                == BankAsked(old(TablesOf(db)), old(t.Value()), db.replies(old(db.asked)))
    {
      var answer;
      ghost var i;
      answer, i := AskBank(w, msg, t);
      if answer.Refused? {
        err := StartCompensation(w, msg, t, answer.reason, i);
      } else {
        err := Acknowledge(w, msg, t, answer.ref, i);
      }
    }

    /** FindByID into a fresh object. */
    method LoadTransfer(ghost w: WorkerId, ghost msg: nat, id: TransferId) returns (t: Transfer?)
      requires db.Valid() && db.At(w) == Loading(msg) && msg < |db.stream| && db.stream[msg].id == id
      modifies db
      ensures db.Valid() && db.After(old(db.states), old(db.trace))
      ensures t != null ==> fresh(t) && Shape(t.Value()) && db.At(w) == Dispatch(msg, t.Value())
      ensures t == null ==> db.At(w) == Idle
      ensures db.reliable ==>
                && RestOf(db) == old(RestOf(db)) && TablesOf(db) == old(TablesOf(db))
                && (t != null <==> id in db.rows) && (t != null ==> t.Value() == db.rows[id] && t.id == id)
    {
      t := null;
      var found := db.FindByID(w, id);
      if found.Some? {
        db.StoredShape(id);
        t := new Transfer(found.value);
        db.Interfere(w);
      }
    }

    /** Execute: loads the row and runs the one step its state calls for. */
    method Execute(ghost w: WorkerId, ghost msg: nat, id: TransferId) returns (err: bool)
      requires db.Valid() && db.At(w) == Loading(msg) && msg < |db.stream| && db.stream[msg].id == id
      modifies db
      ensures db.Valid() && db.After(old(db.states), old(db.trace))
      ensures db.At(w) == if err then Idle else Done(msg)
      ensures db.reliable ==>
                && Outcome(TablesOf(db), err)
                   == Executed(old(db.accounts), old(TablesOf(db)), id, db.replies(old(db.asked)))
                && RestOf(db) == old(RestOf(db)).(asked := old(db.asked) + Asks(old(db.rows), id))
    {
      err := true;
      var t := LoadTransfer(w, msg, id);
      if t != null {
        err := RunStep(w, msg, t);
      }
    }

    /** The step map of the saga. */
    method RunStep(ghost w: WorkerId, ghost msg: nat, t: Transfer) returns (err: bool)
      requires db.Valid() && Shape(t.Value()) && db.At(w) == Dispatch(msg, t.Value())
      modifies db, t
      ensures db.Valid() && db.After(old(db.states), old(db.trace))
      ensures db.At(w) == if err then Idle else Done(msg)
      ensures db.reliable && Current(old(db.rows), old(t.Value())) ==>
                && Outcome(TablesOf(db), err)
                   == Executed(old(db.accounts), old(TablesOf(db)), t.id, db.replies(old(db.asked)))
                && RestOf(db) == old(RestOf(db)).(asked := old(db.asked) + Asks(old(db.rows), t.id))
    {
      err := false;
      match t.state {
        case Pending => err := ReserveDebit(w, msg, t);
        case Debited => err := CallBank(w, msg, t);
        case BankCalled => err := PostCredit(w, msg, t);
        case Credited => err := Complete(w, msg, t);
        case Compensating => err := Compensate(w, msg, t);
        case Completed =>
        case Failed =>
      }
    }
  }
}
