/**
 Runs of the engine that reach the states the negative results are about: a transfer
 whose create handler stopped too early, a reservation from the float account, a
 bank-accepted payout to it, and a relay stalled by a hundred finished transfers.
 */
module Witnesses {
  import opened Ledger
  import opened Transfers
  import opened Protocol
  import opened Backend
  import opened Saga
  import opened Progress
  import opened Wakeups
  import opened FinalRows
  import opened Relay
  import opened Engine
  import opened Recovery
  import opened Stranded
  import Overdraft

  lemma ReachInit(s: System)
    requires Init(s)
    ensures Reachable(s)
  {
    assert EngineRun(ANY, s, [], s);
  }

  function Wish(id: TransferId, key: string, src: AccountId, dst: AccountId): Row {
    Row(id, key, src, dst, Money(5, IDR), Pending, "", "", false, false, 1)
  }

  // ---- Stuck transfers ----

  /** The create handler stops between Save and the outbox row: nothing will ever wake the transfer. */
  lemma HandlerStops() returns (s: System)
    ensures Reachable(s) && 7 in s.book.rows && !Finished(s.book.rows, 7) && AtRest(s, 7) && !Wakeable(s, 7)
  {
    s := Overdraft.Opening(10, Active, 5);
    Overdraft.OpeningBalance(10, Active, 5);
    ReachInit(s);
    var row := Wish(7, "key", 10, 11);
    var s0 := s;
    EngineHere(s0);
    EngineOnward(s0, s, Handler(Save(row)));
    s := Next(s, Handler(Save(row)));
    EngineOnward(s0, s, Handler(HandlerGone(7)));
    s := Next(s, Handler(HandlerGone(7)));
    ReachedOn(s0, s);
  }

  /** A create handler that is not disturbed. */
  lemma Requested(s: System, row: Row) returns (m: System)
    requires Reachable(s) && HandlerEnabled(s, Save(row))
    ensures EngineLeads(s, m) && Reachable(m) && m.book == SavedRow(s.book, row) && m.accounts == s.accounts
    ensures m.outbox == s.outbox + [OutboxRow(row.id, TransferRequested, false)]
    ensures m.stream == s.stream && m.workers == s.workers && m.relays == s.relays
  {
    EngineHere(s);
    EngineOnward(s, s, Handler(Save(row)));
    m := Next(s, Handler(Save(row)));
    EngineOnward(s, m, Handler(AppendRequested(row.id)));
    m := Next(m, Handler(AppendRequested(row.id)));
    EngineOnward(s, m, Handler(WriteRequested(row.id)));
    m := Next(m, Handler(WriteRequested(row.id)));
    ReachedOn(s, m);
  }

  /** A reservation from the funded and active float account can be woken, and every call for it fails. */
  lemma FloatAsSource() returns (s: System)
    ensures Reachable(s) && 7 in s.book.rows && AtRest(s, 7) && Wakeable(s, 7)
    ensures s.book.rows[7].state == Pending && Blocked(s.accounts, s.book.ledger, s.book.rows[7])
  {
    Overdraft.OpeningBalance(1, Active, 5);
    ReachInit(Overdraft.Opening(1, Active, 5));
    s := Requested(Overdraft.Opening(1, Active, 5), Wish(7, "key", 1, 11));
    assert PendingInReach(s.outbox, 0, 7);
  }

  /** The bank accepts a payout to the float account, which can then never be posted. */
  lemma FloatAsDestination() returns (s: System)
    ensures Reachable(s) && 7 in s.book.rows && DeadEnd(s.book.rows[7])
  {
    var yes := Accepted("");
    Overdraft.OpeningBalance(10, Active, 5);
    ReachInit(Overdraft.Opening(10, Active, 5));
    var q := Requested(Overdraft.Opening(10, Active, 5), Wish(7, "key", 10, 1));
    assert PendingInReach(q.outbox, 0, 7);
    var m;
    m, s := DriveOn(q, 7, [yes, yes]);
    StillReachable(7, q, s);
    RowOk(q, 7);
    DrivenState(q.accounts, TablesIn(m), 7, [yes, yes]);
  }

  // ---- A stalled relay ----

  /** A key of its own for every transfer. */
  function Key(id: TransferId): (key: string)
    ensures |key| == id + 1
  {
    seq(id + 1, _ => 'k')
  }

  /** The transfers 0 to n - 1 exist, and the end of each has been announced. */
  ghost predicate FailedUpTo(s: System, n: nat) {
    && Reachable(s) && s.accounts == map[10 := Frozen]
    && (forall id :: id in s.book.rows ==> id < n && s.book.rows[id].key == Key(id))
    && (forall id: nat :: id < n ==> HasFinalRow(s.outbox, id))
  }

  lemma LaterRowsKeepFinal(outbox: seq<OutboxRow>, outbox': seq<OutboxRow>, n: nat)
    requires SameStuck(outbox, outbox') && forall id: nat :: id < n ==> HasFinalRow(outbox, id)
    ensures forall id: nat :: id < n ==> HasFinalRow(outbox', id)
  {
    forall id: nat | id < n ensures HasFinalRow(outbox', id) {
      FinalRowKept(outbox, outbox', id);
    }
  }

  /** An undisturbed call for a transfer from a frozen account makes it fail and announces that. */
  lemma FrozenFails(accounts: map<AccountId, Status>, tb: Tables, id: TransferId, reply: Reply)
    requires Stored(tb, id) && tb.rows[id].state == Pending && tb.rows[id].src in accounts
    requires accounts[tb.rows[id].src] == Frozen
    ensures var tb' := Driven(accounts, tb, id, [reply]);
            && tb'.outbox == tb.outbox + [OutboxRow(id, TransferFailed, false)]
            && id in tb'.rows && tb'.rows == tb.rows[id := tb'.rows[id]] && tb'.rows[id].key == tb.rows[id].key
  {
    assert [reply][..0] == [];
    assert Driven(accounts, tb, id, []) == tb;
    ExecuteLowersRank(accounts, tb, id, reply);
  }

  /** The next transfer is requested and driven to FAILED. */
  lemma FailNext(s: System, n: nat) returns (s': System)
    requires FailedUpTo(s, n) && Room(s.outbox)
    ensures FailedUpTo(s', n + 1)
  {
    var q := Requested(s, Wish(n, Key(n), 10, 11));
    StuckStays(s.outbox, q.outbox, |s.outbox|);
    assert PendingInReach(q.outbox, |s.outbox|, n);
    LaterRowsKeepFinal(s.outbox, q.outbox, n);
    s' := FailRequested(q, n);
  }

  lemma FailRequested(q: System, n: nat) returns (s': System)
    requires Reachable(q) && q.accounts == map[10 := Frozen] && Wakeable(q, n)
    requires n in q.book.rows && q.book.rows[n].state == Pending && q.book.rows[n].src == 10
    requires forall id :: id in q.book.rows ==> id < n + 1 && q.book.rows[id].key == Key(id)
    requires forall id: nat :: id < n ==> HasFinalRow(q.outbox, id)
    ensures FailedUpTo(s', n + 1)
  {
    var m;
    m, s' := DriveOn(q, n, [Accepted("")]);
    StillReachable(n, q, s');
    StillReachable(n, q, m);
    RowOk(m, n);
    FrozenFails(q.accounts, TablesIn(m), n, Accepted(""));
    FinalAlong(n, q, m, n);
    assert SameStuck(m.outbox, s'.outbox);
    LaterRowsKeepFinal(m.outbox, s'.outbox, n);
    assert s'.outbox[|m.outbox|].id == n;
  }

  lemma FinalAlong(id: TransferId, q: System, m: System, n: nat)
    requires Reachable(q) && Leads(id, q, m) && forall id: nat :: id < n ==> HasFinalRow(q.outbox, id)
    ensures forall id: nat :: id < n ==> HasFinalRow(m.outbox, id)
  {
    RowsAlong(id, q, m);
    LaterRowsKeepFinal(q.outbox, m.outbox, n);
  }

  /** `n` transfers fail one after the other, or the relay is stalled before. */
  lemma {:induction false} FailMany(n: nat) returns (s: System, k: nat)
    ensures k <= n && FailedUpTo(s, k) && (k == n || !Room(s.outbox))
  {
    if n == 0 {
      s, k := Overdraft.Opening(10, Frozen, 5), 0;
      Overdraft.OpeningBalance(10, Frozen, 5);
      ReachInit(s);
    } else {
      s, k := FailMany(n - 1);
      if Room(s.outbox) {
        s := FailNext(s, k);
        k := k + 1;
      }
    }
  }

  function FirstIds(n: nat): set<TransferId> {
    if n == 0 then {} else FirstIds(n - 1) + {n - 1}
  }

  lemma {:induction false} CountFirstIds(n: nat)
    ensures |FirstIds(n)| == n && forall id :: id in FirstIds(n) ==> id < n
  {
    if n > 0 {
      CountFirstIds(n - 1);
    }
  }

  /** A hundred failed transfers leave no room. */
  lemma StallReached() returns (s: System, k: nat)
    ensures FailedUpTo(s, k) && !Room(s.outbox)
  {
    s, k := FailMany(BATCH_SIZE);
    if Room(s.outbox) {
      CountFirstIds(k);
      var s0: System, acts: seq<Action> :| Init(s0) && EngineRun(ANY, s0, acts, s);
      AnnouncedEndsFill(ANY, s0, acts, s, FirstIds(k));
    }
  }

  /** The next transfer then has a pending request that no relay will ever publish. */
  lemma RelayStalls() returns (s: System, id: TransferId)
    ensures Reachable(s) && id in s.book.rows && !Finished(s.book.rows, id) && PendingRow(s, id)
    ensures AtRest(s, id) && !Wakeable(s, id)
  {
    var full;
    full, id := StallReached();
    s := Requested(full, Wish(id, Key(id), 10, 11));
    NewIsAsleep(full, s, id);
    assert s.outbox[|full.outbox|].id == id;
  }

  lemma UnknownHere(s: System, id: TransferId)
    requires Reachable(s) && id !in s.book.rows
    ensures forall i :: 0 <= i < |s.outbox| ==> s.outbox[i].id != id
    ensures forall k :: 0 <= k < |s.stream| ==> s.stream[k].id != id
  {
    var s0: System, acts: seq<Action> :| Init(s0) && EngineRun(ANY, s0, acts, s);
    Unknown(ANY, s0, acts, s, id);
  }

  /** A first row behind a full batch of stuck rows is out of reach. */
  lemma NewOutOfReach(outbox: seq<OutboxRow>, outbox': seq<OutboxRow>, id: TransferId)
    requires !Room(outbox) && (forall i :: 0 <= i < |outbox| ==> outbox[i].id != id)
    requires outbox' == outbox + [OutboxRow(id, TransferRequested, false)]
    ensures SameStuck(outbox, outbox') && Unreached(outbox', id) && !Room(outbox')
  {
    StuckStays(outbox, outbox', |outbox|);
    if Room(outbox') {
      RoomShrinks(outbox, outbox');
    }
  }

  lemma NewIsAsleep(s: System, s': System, id: TransferId)
    requires Reachable(s) && id !in s.book.rows && !Room(s.outbox)
    requires s'.outbox == s.outbox + [OutboxRow(id, TransferRequested, false)] && s'.stream == s.stream
    requires s'.workers == s.workers && s'.relays == s.relays && id in s'.book.rows
    ensures Asleep(s', id)
  {
    UnknownHere(s, id);
    NewOutOfReach(s.outbox, s'.outbox, id);
    BatchesElsewhere(s, s'.outbox, id);
    AsleepParts(s', id);
  }

  lemma BatchesElsewhere(s: System, outbox': seq<OutboxRow>, id: TransferId)
    requires Reachable(s) && SameStuck(s.outbox, outbox') && forall i :: 0 <= i < |s.outbox| ==> s.outbox[i].id != id
    ensures NoBatch(outbox', s.relays, id)
  {
    ReachableOk(s);
    NoBatchKept(s.outbox, s.stream, s.relays, outbox', id);
  }

  // ---- Why only this transfer is processed ----

  /** As long as no transfer is finished, no row is stuck. */
  lemma {:induction false} NothingStuck(rows: map<TransferId, Row>, outbox: seq<OutboxRow>, i: nat)
    requires FinalOk(rows, outbox) && i <= |outbox| && forall id :: id in rows ==> !Terminal(rows[id].state)
    ensures StuckAhead(outbox, i, DECLARED) == 0
  {
    if i > 0 {
      NothingStuck(rows, outbox, i - 1);
      assert !Final(outbox[i - 1].subject);
    }
  }

  /** A transfer with an outbox row can then be woken. */
  lemma AllWakeable(s: System, id: TransferId, i: nat)
    requires Reachable(s) && i < |s.outbox| && s.outbox[i].id == id
    requires forall id :: id in s.book.rows ==> !Terminal(s.book.rows[id].state)
    ensures Wakeable(s, id)
  {
    ReachableOk(s);
    AwakeMeans(s, id, i);
    if !UnackedMessage(s, id) {
      var j :| 0 <= j < |s.outbox| && s.outbox[j].id == id && !s.outbox[j].published;
      NothingStuck(s.book.rows, s.outbox, j);
      assert !Final(s.outbox[j].subject);
      assert PendingInReach(s.outbox, j, id);
    }
  }

  const PAYING := Wish(7, "paying", 10, 11)
  const WAITING := Wish(8, "waiting", 1, 11)

  /** What posting does to the float account. */
  lemma FloatMoves(ledger: seq<LedgerEntry>, k: Kind, r: Row)
    requires r.SameContract(PAYING) && (k == Reserve || k == Pay)
    ensures PostingFor(k, r).Ok?
    ensures Balance(ledger + PostingFor(k, r).value.Entries(), 1, IDR)
            == Balance(ledger, 1, IDR) + (if k == Reserve then 5 else -5)
  {
    var legs := Legs(k, r);
    PostingMoves(legs.0, legs.1, r.amount, ForTransfer(k, r.id), 1, IDR);
    SumConcat(ledger, PostingFor(k, r).value.Entries(), BalanceOf(1, IDR));
  }

  /** The tables after a call that leaves the row of transfer 7 in `state` and the float account with `float`. */
  predicate After(tb: Tables, tb': Tables, state: State, float: int) {
    && 7 in tb'.rows && tb'.rows == tb.rows[7 := tb'.rows[7]]
    && tb'.rows[7].state == state && tb'.rows[7].SameContract(PAYING)
    && Balance(tb'.ledger, 1, IDR) == float
    && |tb'.outbox| > |tb.outbox| && tb'.outbox[|tb'.outbox| - 1].id == 7
  }

  lemma FirstCall(accounts: map<AccountId, Status>, tb: Tables, reply: Reply)
    requires 7 in tb.rows && tb.rows[7] == PAYING && 10 in accounts && accounts[10] == Active
    requires Balance(tb.ledger, 10, IDR) == 5
    ensures After(tb, Executed(accounts, tb, 7, reply).tables, Debited, Balance(tb.ledger, 1, IDR) + 5)
  {
    FloatMoves(tb.ledger, Reserve, PAYING);
  }

  lemma SecondCall(accounts: map<AccountId, Status>, tb: Tables)
    requires 7 in tb.rows && tb.rows[7].state == Debited && tb.rows[7].SameContract(PAYING)
    ensures After(tb, Executed(accounts, tb, 7, Accepted("")).tables, BankCalled, Balance(tb.ledger, 1, IDR))
  {
  }

  lemma ThirdCall(accounts: map<AccountId, Status>, tb: Tables, reply: Reply)
    requires 7 in tb.rows && tb.rows[7].state == BankCalled && tb.rows[7].SameContract(PAYING)
    ensures After(tb, Driven(accounts, tb, 7, [reply]), Credited, Balance(tb.ledger, 1, IDR) - 5)
  {
    assert [reply][..0] == [];
    assert Driven(accounts, tb, 7, []) == tb;
    FloatMoves(tb.ledger, Pay, tb.rows[7]);
  }

  lemma TwoCalls(accounts: map<AccountId, Status>, tb: Tables)
    requires 7 in tb.rows && tb.rows[7] == PAYING && 10 in accounts && accounts[10] == Active
    requires Balance(tb.ledger, 10, IDR) == 5
    ensures After(tb, Driven(accounts, tb, 7, [Accepted(""), Accepted("")]), BankCalled, Balance(tb.ledger, 1, IDR) + 5)
  {
    var yes := Accepted("");
    assert [yes, yes][..1] == [yes] && [yes][..0] == [];
    assert Driven(accounts, tb, 7, []) == tb;
    assert Driven(accounts, tb, 7, [yes]) == Executed(accounts, tb, 7, yes).tables;
    FirstCall(accounts, tb, yes);
    SecondCall(accounts, Executed(accounts, tb, 7, yes).tables);
  }

  /** Transfer 7 is requested; account 10 holds its 5 and the float account nothing. */
  lemma PayingRequested() returns (q: System)
    ensures Reachable(q) && Wakeable(q, 7) && q.accounts == map[10 := Active, 1 := Active]
    ensures q.book.rows == map[7 := PAYING]
    ensures Balance(q.book.ledger, 10, IDR) == 5 && Balance(q.book.ledger, 1, IDR) == 0
  {
    var s0 := Overdraft.Opening(10, Active, 5).(accounts := map[10 := Active, 1 := Active]);
    Overdraft.OpeningBalance(10, Active, 5);
    assert Balance(s0.book.ledger, 1, IDR) == 0 by {
      assert SignedSum(s0.book.ledger[..0], BalanceOf(1, IDR)) == 0;
    }
    ReachInit(s0);
    q := Requested(s0, PAYING);
    assert q.outbox[0].id == 7;
    AllWakeable(q, 7, 0);
  }

  /** Transfer 7 has been debited and accepted by the bank, so the float account holds its 5. */
  lemma FloatHoldsFive() returns (s: System)
    ensures Reachable(s) && s.accounts == map[10 := Active, 1 := Active]
    ensures s.book.rows.Keys == {7} && s.book.rows[7].state == BankCalled && s.book.rows[7].SameContract(PAYING)
    ensures Balance(s.book.ledger, 1, IDR) == 5 && |s.outbox| > 0 && s.outbox[|s.outbox| - 1].id == 7
  {
    var q := PayingRequested();
    var m;
    m, s := DriveOn(q, 7, [Accepted(""), Accepted("")]);
    StillReachable(7, q, s);
    TwoCalls(q.accounts, TablesIn(m));
  }

  /**
   A blocked reservation can be unblocked by another transfer: 8 is to be paid from the
   float account, which holds the money of 7, so every call for it fails; once 7 is paid
   out, 8 fails for lack of funds and is finished.
   */
  lemma UnblockedByAnother() returns (s: System, m: System, s': System)
    ensures Reachable(s) && 8 in s.book.rows && s.book.rows[8].state == Pending
    ensures Blocked(s.accounts, s.book.ledger, s.book.rows[8])
    ensures Leads(7, s, m) && Leads(8, m, s') && Finished(s'.book.rows, 8)
  {
    s := BothRequested();
    m := PayOut(s);
    s' := PoorFails(s, m);
  }

  ghost predicate BothThere(s: System, state: State, float: int) {
    && Reachable(s) && s.accounts == map[10 := Active, 1 := Active]
    && s.book.rows.Keys == {7, 8} && s.book.rows[8] == WAITING
    && s.book.rows[7].state == state && s.book.rows[7].SameContract(PAYING)
    && Balance(s.book.ledger, 1, IDR) == float
  }

  lemma BothRequested() returns (s: System)
    ensures BothThere(s, BankCalled, 5) && Blocked(s.accounts, s.book.ledger, s.book.rows[8]) && Wakeable(s, 7)
    ensures |s.outbox| > 0 && s.outbox[|s.outbox| - 1].id == 8
  {
    var f := FloatHoldsFive();
    s := Requested(f, WAITING);
    assert s.outbox[|f.outbox| - 1].id == 7;
    AllWakeable(s, 7, |f.outbox| - 1);
  }

  /** Transfer 7 is paid out. */
  lemma PayOut(s: System) returns (m: System)
    requires BothThere(s, BankCalled, 5) && Wakeable(s, 7)
    ensures BothThere(m, Credited, 0) && Leads(7, s, m)
  {
    var q;
    q, m := DriveOn(s, 7, [Accepted("")]);
    ThirdCall(s.accounts, TablesIn(q), Accepted(""));
    StillReachable(7, s, m);
  }

  /** Transfer 8 has no funds any more. */
  lemma PoorFails(s: System, m: System) returns (s': System)
    requires Reachable(s) && |s.outbox| > 0 && s.outbox[|s.outbox| - 1].id == 8
    requires BothThere(m, Credited, 0) && Leads(7, s, m)
    ensures Leads(8, m, s') && Finished(s'.book.rows, 8)
  {
    RowsAlong(7, s, m);
    AllWakeable(m, 8, |s.outbox| - 1);
    s' := Finish(m, 8);
  }

  /** Outbox rows stay where they are. */
  lemma RowsAlong(id: TransferId, s: System, m: System)
    requires Reachable(s) && Leads(id, s, m)
    ensures SameStuck(s.outbox, m.outbox)
  {
    LeadsInEngine(id, s, m);
    RowsStay(s, m);
  }

  lemma RowsStay(s: System, m: System)
    requires Reachable(s) && EngineLeads(s, m)
    ensures SameStuck(s.outbox, m.outbox)
  {
    var acts :| EngineRun(ANY, s, acts, m);
    ReachableOk(s);
    StuckAlong(ANY, s, acts, m);
  }
}
