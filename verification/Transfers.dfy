/**
 The Transfer aggregate: its seven states, the table of allowed moves, the stored
 row, and the mutable object the saga works on.
 */
module Transfers {
  import opened Ledger

  datatype State = Pending | Debited | BankCalled | Credited | Completed | Failed | Compensating

  predicate Terminal(s: State) {
    s == Completed || s == Failed
  }

  /** validTransitions; a state without entry is terminal. */
  function Allowed(s: State): seq<State> {
    match s
    case Pending => [Debited, Failed]
    case Debited => [BankCalled, Compensating]
    case BankCalled => [Credited, Compensating]
    case Credited => [Completed, Compensating]
    case Compensating => [Failed]
    case Completed => []
    case Failed => []
  }

  /** A move Transition accepts. */
  predicate Legal(s: State, next: State) {
    next in Allowed(s)
  }

  /** A row of the transfers table (timestamps left out). */
  datatype Row = Row(
    id: TransferId,
    key: string,
    src: AccountId,
    dst: AccountId,
    amount: Money,
    state: State,
    externalRef: string,
    failureReason: string,
    debitPosted: bool,
    creditPosted: bool,
    version: int)
  {
    /** What transfer.New builds: PENDING, version 1, nothing posted. */
    predicate Fresh() {
      && key != "" && src != dst
      && amount.Valid() && amount.amount != 0
      && state == Pending && version == 1
      && !debitPosted && !creditPosted
      && externalRef == "" && failureReason == ""
    }

    /** The columns no UPDATE statement writes. */
    predicate SameContract(r: Row) {
      id == r.id && key == r.key && src == r.src && dst == r.dst && amount == r.amount
    }
  }

  /** transfer.New. */
  function NewRow(id: TransferId, key: string, src: AccountId, dst: AccountId, amount: Money): (r: Result<Row>)
    ensures r.Ok? <==> key != "" && amount.Valid() && amount.amount != 0 && src != dst
    ensures r.Ok? ==>
              && r.value.Fresh() && r.value.id == id && r.value.key == key
              && r.value.src == src && r.value.dst == dst && r.value.amount == amount
  {
    if key == "" || !amount.Valid() || amount.amount == 0 || src == dst then Err
    else Ok(Row(id, key, src, dst, amount, Pending, "", "", false, false, 1))
  }

  /** The row after Transition(next), if the move is legal. */
  function Moved(r: Row, next: State): Option<Row> {
    if Legal(r.state, next) then Some(r.(state := next, version := r.version + 1)) else None
  }

  /** The in-memory aggregate: loaded from a row, changed in place, written back by UpdateState. */
  class Transfer {
    const id: TransferId
    const key: string
    const src: AccountId
    const dst: AccountId
    const amount: Money
    var state: State
    var externalRef: string
    var failureReason: string
    var debitPosted: bool
    var creditPosted: bool
    var version: int

    constructor (r: Row)
      ensures Value() == r
    {
      id, key, src, dst, amount := r.id, r.key, r.src, r.dst, r.amount;
      state, externalRef, failureReason := r.state, r.externalRef, r.failureReason;
      debitPosted, creditPosted, version := r.debitPosted, r.creditPosted, r.version;
    }

    function Value(): Row
      reads this
    {
      Row(id, key, src, dst, amount, state, externalRef, failureReason, debitPosted, creditPosted, version)
    }

    /** Scans the allowed moves; on a hit it changes state and version, otherwise nothing. */
    method Transition(next: State) returns (ok: bool)
      modifies this`state, this`version
      ensures ok <==> Legal(old(state), next)
      ensures Value() == if ok then Moved(old(Value()), next).value else old(Value())
    {
      var allowed := Allowed(state);
      for i := 0 to |allowed|
        invariant Value() == old(Value())
        invariant next !in allowed[..i]
      {
        if allowed[i] == next {
          state := next;
          version := version + 1;
          return true;
        }
      }
      return false;
    }
  }
}
