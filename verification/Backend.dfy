/**
 The ports of the saga: PostgreSQL repositories, the bank gateway and the message
 stream, as one object whose fields are the tables. Every call may fail, and other
 processes run between any two calls. The ghost fields record that the tables only
 ever move along runs of the protocol.
 */
module Backend {
  import opened Ledger
  import opened Transfers
  import opened Protocol
  import opened History

  /** What the operations write. */
  datatype Tables = Tables(
    rows: map<TransferId, Row>,
    ledger: seq<LedgerEntry>,
    events: seq<Event>,
    outbox: seq<OutboxRow>)

  class Store {
    var accounts: map<AccountId, Status>
    var rows: map<TransferId, Row>
    var ledger: seq<LedgerEntry>
    var events: seq<Event>
    var outbox: seq<OutboxRow>
    var stream: seq<Message>

    ghost var states: seq<System>
    ghost var trace: seq<Action>
    ghost var sys: System

    /** Every port answers and no other process acts; nothing a caller does can change that. */
    const reliable: bool

    /** What the bank answers to its first, second, ... call, and how many it has had. */
    const replies: nat -> Reply
    var asked: nat

    /** Empty tables over any accounts, any opening ledger and any bank. */
    constructor (accounts: map<AccountId, Status>, opening: seq<LedgerEntry>, replies: nat -> Reply, reliable: bool)
      ensures Valid() && Init(sys) && this.reliable == reliable && this.replies == replies && asked == 0
      ensures this.accounts == accounts && ledger == opening && rows == map[]
      ensures events == [] && outbox == [] && stream == []
    {
      this.accounts, rows, ledger := accounts, map[], opening;
      events, outbox, stream := [], [], [];
      var book := Book(map[], [], map[], opening, opening, []);
      sys := System(accounts, book, [], [], [], map[], map[], map[]);
      states, trace := [sys], [];
      this.reliable, this.replies, asked := reliable, replies, 0;
    }

    /** The tables are the state a run of the protocol has led to. */
    ghost predicate Valid()
      reads this
    {
      && Traced()
      && accounts == sys.accounts && rows == sys.book.rows && ledger == sys.book.ledger
      && events == sys.events && outbox == sys.outbox && stream == sys.stream
    }

    /** `sys` was reached from an initial state by the recorded actions. */
    ghost predicate Traced()
      reads this
    {
      Trace(ANY, states, trace) && Init(states[0]) && states[|trace|] == sys
    }

    /** The history so far began with this one. */
    ghost predicate After(earlier: seq<System>, steps: seq<Action>)
      reads this
    {
      earlier <= states && steps <= trace
    }

    lemma ReachedByRun()
      requires Traced()
      ensures Init(states[0]) && Run(ANY, states[0], trace, sys)
    {
      TraceIsRun(ANY, states, trace);
    }

    /** Stored rows have the shape their state demands. */
    lemma StoredShape(id: TransferId)
      requires Valid() && id in rows
      ensures Shape(rows[id]) && rows[id].id == id
    {
      ReachedByRun();
      CoreRun(ANY, states[0], trace, sys);
      CurrentIsVersion(sys, id);
      VersionShape(sys, rows[id]);
    }

    /** A message being handled is still in the stream. */
    lemma MessageStays(w: WorkerId)
      requires Valid() && !Pc(sys, w).Idle?
      ensures Pc(sys, w).msg < |stream|
    {
      ReachedByRun();
      CoreRun(ANY, states[0], trace, sys);
    }

    /** A message keeps its content. */
    lemma MessageKept(earlier: seq<System>, msg: nat)
      requires Valid() && 0 < |earlier| && earlier <= states && msg < |earlier[|earlier| - 1].stream|
      ensures msg < |stream| && stream[msg].id == earlier[|earlier| - 1].stream[msg].id
    {
      assert earlier[|earlier| - 1] == states[|earlier| - 1];
      StreamTrace(ANY, states, trace, |earlier| - 1);
    }

    /** Rows stay, with their contract columns. */
    lemma RowsKept(earlier: seq<System>)
      requires Valid() && 0 < |earlier| && earlier <= states
      ensures ContractsKept(earlier[|earlier| - 1].book.rows, rows)
    {
      assert earlier[|earlier| - 1] == states[|earlier| - 1];
      ContractTrace(states, trace, |earlier| - 1);
    }

    ghost function At(w: WorkerId): WorkerPc
      reads this
    {
      Pc(sys, w)
    }

    /** Records one action of the protocol. */
    ghost method Take(a: Action)
      requires Traced() && Enabled(sys, a)
      modifies this`sys, this`states, this`trace
      ensures sys == Next(old(sys), a) && Traced() && After(old(states), old(trace))
    {
      TraceSnoc(ANY, states, trace, a);
      sys := Next(sys, a);
      states, trace := states + [sys], trace + [a];
    }

    /** What UpdateState does to the tables and to the worker. */
    ghost method TakeUpdate(w: WorkerId)
      requires Traced() && At(w).Updating?
      modifies this`sys, this`states, this`trace
      ensures Traced() && After(old(states), old(trace))
      ensures sys.accounts == old(sys).accounts && sys.events == old(sys).events
      ensures sys.outbox == old(sys).outbox && sys.stream == old(sys).stream
      ensures sys.book.ledger == old(sys).book.ledger
      ensures var pc := old(At(w));
              var rows := old(sys).book.rows;
              if pc.t.id in rows && rows[pc.t.id].version == pc.t.version - 1
              then sys.book.rows == rows[pc.t.id := Written(rows[pc.t.id], pc.t)] && At(w) == AfterUpdate(pc.msg, pc.t)
              else sys.book.rows == rows && At(w) == Idle
    {
      ReachedByRun();
      CoreRun(ANY, states[0], trace, sys);
      assert sys.book.rows[At(w).t.id].id == At(w).t.id;
      Take(Worker(w, Update));
    }

    /** What the balance check does to the worker. */
    ghost method TakeCheck(w: WorkerId, sum: int)
      requires Traced() && At(w).Checking?
      requires sum == Balance(sys.book.ledger, At(w).t.src, At(w).t.amount.currency)
      modifies this`sys, this`states, this`trace
      ensures Traced() && After(old(states), old(trace))
      ensures sys == old(sys).(workers := sys.workers)
      ensures var pc := old(At(w));
              At(w) == if !IsInt64(sum) then Idle
                       else if sum < pc.t.amount.amount then FailWith(pc.msg, pc.t, INSUFFICIENT_FUNDS, None)
                       else Booking(pc.msg, pc.t, Reserve, None)
    {
      Take(Worker(w, Check));
    }

    /** The worker gives up: its error return makes the consumer nak the message. */
    ghost method GiveUp(w: WorkerId)
      requires Traced() && !reliable
      modifies this`sys, this`states, this`trace
      ensures Traced() && After(old(states), old(trace)) && At(w) == Idle
      ensures sys.accounts == old(sys).accounts && sys.events == old(sys).events
      ensures sys.outbox == old(sys).outbox && sys.stream == old(sys).stream
      ensures sys.book.rows == old(sys).book.rows && sys.book.ledger == old(sys).book.ledger
    {
      if !At(w).Idle? {
        Take(Worker(w, Abort));
      }
    }

    /** Whether a port call gets through. */
    method Works() returns (ok: bool)
      ensures reliable ==> ok
    {
      ok := *;
      ok := ok || reliable;
    }

    /** Any number of steps of other processes; the caller learns only what the protocol guarantees. */
    method Interfere(ghost w: WorkerId)
      requires Valid()
      modifies this
      ensures Valid() && After(old(states), old(trace))
      ensures At(w) == old(At(w))
      ensures reliable ==> sys == old(sys) && asked == old(asked)
    {
    }

    /** FindByID; None is an error. */
    method FindByID(ghost w: WorkerId, id: TransferId) returns (found: Option<Row>)
      requires Valid() && At(w).Loading? && At(w).msg < |stream| && stream[At(w).msg].id == id
      modifies this`sys, this`states, this`trace
      ensures Valid() && After(old(states), old(trace))
      ensures found.Some? ==> id in rows && found.value == rows[id]
      ensures At(w) == if found.Some? then Dispatch(old(At(w)).msg, found.value) else Idle
      ensures reliable ==> (found.Some? <==> id in rows)
    {
      var reachable := Works();
      if reachable {
        Take(Worker(w, Load));
      } else {
        GiveUp(w);
      }
      found := if reachable && id in rows then Some(rows[id]) else None;
    }

    /** LockForUpdate: the account's status; None is an error. */
    method LockForUpdate(ghost w: WorkerId, account: AccountId) returns (status: Option<Status>)
      requires Valid() && At(w).Locking? && At(w).t.src == account
      modifies this`sys, this`states, this`trace
      ensures Valid() && After(old(states), old(trace))
      ensures status.Some? ==> account in accounts && status.value == accounts[account]
      ensures var pc := old(At(w));
              At(w) == if status == None then Idle
                       else if status.value == Active then Checking(pc.msg, pc.t)
                       else FailWith(pc.msg, pc.t, NOT_TRANSACTABLE, None)
      ensures reliable ==> (status.Some? <==> account in accounts)
    {
      var reachable := Works();
      if reachable {
        Take(Worker(w, Lock));
      } else {
        GiveUp(w);
      }
      status := if reachable && account in accounts then Some(accounts[account]) else None;
    }

    /** GetBalance: the signed sum of the account's entries; None is an error. */
    method GetBalance(ghost w: WorkerId, account: AccountId, currency: Currency) returns (balance: Option<int>)
      requires Valid() && At(w).Checking? && At(w).t.src == account && At(w).t.amount.currency == currency
      modifies this`sys, this`states, this`trace
      ensures Valid() && After(old(states), old(trace))
      ensures balance.Some? ==> balance.value == Balance(ledger, account, currency) && IsInt64(balance.value)
      ensures var pc := old(At(w));
              At(w) == if balance == None then Idle
                       else if balance.value < pc.t.amount.amount
                       then FailWith(pc.msg, pc.t, INSUFFICIENT_FUNDS, None)
                       else Booking(pc.msg, pc.t, Reserve, None)
      ensures reliable ==> (balance.Some? <==> IsInt64(Balance(ledger, account, currency)))
    {
      var sum := Balance(ledger, account, currency);
      var reachable := Works();
      if reachable {
        TakeCheck(w, sum);
      } else {
        GiveUp(w);
      }
      balance := if reachable && IsInt64(sum) then Some(sum) else None;
    }

    /** NewPosting refused: the saga returns its error. */
    ghost method CannotBook(w: WorkerId)
      requires Valid() && At(w).Booking? && PostingFor(At(w).kind, At(w).t).Err?
      modifies this`sys, this`states, this`trace
      ensures Valid() && After(old(states), old(trace)) && At(w) == Idle
    {
      Take(Worker(w, Post));
    }

    /**
     PostEntries: one transaction, all entries or none. An error before the commit
     leaves the ledger as it was; the answer to a commit may also be lost.
     */
    method PostEntries(ghost w: WorkerId, entries: seq<LedgerEntry>) returns (ok: bool)
      requires Valid() && At(w).Booking?
      requires PostingFor(At(w).kind, At(w).t).Ok? && entries == PostingFor(At(w).kind, At(w).t).value.Entries()
      modifies this`ledger, this`sys, this`states, this`trace
      ensures Valid() && After(old(states), old(trace))
      ensures ledger == old(ledger) + entries || (!ok && ledger == old(ledger))
      ensures var pc := old(At(w));
              At(w) == if ok then AfterPost(pc.msg, pc.t, pc.kind, |old(sys).book.log|) else Idle
      ensures reliable ==> ok
    {
      var staged: seq<LedgerEntry> := [];
      var alive := true;
      for i := 0 to |entries|
        invariant (alive ==> staged == entries[..i]) && (reliable ==> alive)
        modifies {}
      {
        alive := Works();
        if !alive {
          break;
        }
        staged := staged + [entries[i]];
      }
      if alive {
        Take(Worker(w, Post));
        ledger := ledger + staged;
      }
      var answered := Works();
      ok := alive && answered;
      if !ok {
        GiveUp(w);
      }
    }

    /** The bank may accept or refuse; a refusal is an outcome of the saga, not a fault. */
    method InitiateTransfer(ghost w: WorkerId) returns (reply: Reply)
      requires Valid() && At(w).Calling?
      modifies this`asked, this`sys, this`states, this`trace
      ensures Valid() && After(old(states), old(trace))
      ensures reply == replies(old(asked)) && asked == old(asked) + 1
      ensures var pc := old(At(w)); At(w) == AfterBank(pc.msg, pc.t, reply, |old(sys).book.log|)
    {
      reply := replies(asked);
      asked := asked + 1;
      Take(Worker(w, Ask(reply)));
      assert old(sys).book.ledger + [] == old(sys).book.ledger;
    }

    /** UpdateState: compare-and-set on the version. */
    method UpdateState(ghost w: WorkerId, t: Transfer) returns (ok: bool)
      requires Valid() && At(w).Updating? && At(w).t == t.Value()
      modifies this`rows, this`sys, this`states, this`trace
      ensures Valid() && After(old(states), old(trace))
      ensures ok ==> t.id in old(rows) && old(rows)[t.id].version == t.version - 1
      ensures rows == old(rows)
              || (t.id in old(rows) && rows == old(rows)[t.id := Written(old(rows)[t.id], t.Value())])
      ensures ok ==> rows == old(rows)[t.id := Written(old(rows)[t.id], t.Value())]
      ensures At(w) == if ok then AfterUpdate(old(At(w)).msg, t.Value()) else Idle
      ensures reliable ==> (ok <==> t.id in old(rows) && old(rows)[t.id].version == t.version - 1)
    {
      var current := t.id in rows && rows[t.id].version == t.version - 1;
      var reachable := Works();
      var answered := Works();
      if reachable {
        TakeUpdate(w);
        if current {
          rows := rows[t.id := Written(rows[t.id], t.Value())];
        }
      }
      if !reachable || !answered {
        GiveUp(w);
      }
      ok := reachable && answered && current;
    }

    /** events.Append. */
    method AppendEvent(ghost w: WorkerId, e: Event) returns (ok: bool)
      requires Valid() && At(w).Appending?
      requires e == Event(At(w).t.id, EventFor(At(w).t.state), At(w).t.state)
      modifies this`events, this`sys, this`states, this`trace
      ensures Valid() && After(old(states), old(trace))
      ensures events == old(events) + [e] || (!ok && events == old(events))
      ensures At(w) == if ok then Writing(old(At(w)).msg, old(At(w)).t) else Idle
      ensures reliable ==> ok
    {
      var reachable := Works();
      var answered := Works();
      if reachable {
        Take(Worker(w, Append));
        events := events + [e];
      }
      ok := reachable && answered;
      if !ok {
        GiveUp(w);
      }
    }

    /** outbox.Write. */
    method WriteOutbox(ghost w: WorkerId, row: OutboxRow) returns (ok: bool)
      requires Valid() && At(w).Writing?
      requires row == OutboxRow(At(w).t.id, EventFor(At(w).t.state), false)
      modifies this`outbox, this`sys, this`states, this`trace
      ensures Valid() && After(old(states), old(trace))
      ensures outbox == old(outbox) + [row] || (!ok && outbox == old(outbox))
      ensures At(w) == if ok then Done(old(At(w)).msg) else Idle
      ensures reliable ==> ok
    {
      var reachable := Works();
      var answered := Works();
      if reachable {
        Take(Worker(w, Write));
        outbox := outbox + [row];
      }
      ok := reachable && answered;
      if !ok {
        GiveUp(w);
      }
    }

    /** accounts.FindByID; None is an error. */
    method FindAccount(account: AccountId) returns (status: Option<Status>)
      requires Valid()
      ensures Valid()
      ensures status.Some? ==> account in accounts && status.value == accounts[account]
      ensures reliable ==> (status.Some? <==> account in accounts)
    {
      var reachable := Works();
      status := if reachable && account in accounts then Some(accounts[account]) else None;
    }

    /** transfers.Save: INSERT, refused when the id or the idempotency key is taken. */
    method Save(row: Row) returns (ok: bool, ghost asked: bool)
      requires Valid() && row.Fresh()
      modifies this`rows, this`sys, this`states, this`trace
      ensures Valid() && After(old(states), old(trace))
      ensures sys == if asked && HandlerEnabled(old(sys), HandlerStep.Save(row))
                     then NextHandler(old(sys), HandlerStep.Save(row)) else old(sys)
      ensures ok ==> asked && HandlerEnabled(old(sys), HandlerStep.Save(row))
      ensures reliable ==> asked && (ok <==> HandlerEnabled(old(sys), HandlerStep.Save(row)))
    {
      var free := row.id !in rows && forall id :: id in rows ==> rows[id].key != row.key;
      var reached := Works();
      var answered := Works();
      if reached && free {
        Take(Handler(HandlerStep.Save(row)));
        rows := rows[row.id := row];
      }
      asked, ok := reached, reached && answered && free;
    }

    /** events.Append of the create handler. */
    method AppendRequest(id: TransferId) returns (ok: bool, ghost asked: bool)
      requires Valid() && HandlerEnabled(sys, AppendRequested(id))
      modifies this`events, this`sys, this`states, this`trace
      ensures Valid() && After(old(states), old(trace))
      ensures sys == if asked then NextHandler(old(sys), AppendRequested(id)) else old(sys)
      ensures (ok ==> asked) && (reliable ==> ok)
    {
      var reached := Works();
      var answered := Works();
      if reached {
        Take(Handler(AppendRequested(id)));
        events := events + [Event(id, TransferRequested, Pending)];
      }
      asked, ok := reached, reached && answered;
    }

    /** outbox.Write of the create handler. */
    method WriteRequest(id: TransferId) returns (ok: bool, ghost asked: bool)
      requires Valid() && HandlerEnabled(sys, WriteRequested(id))
      modifies this`outbox, this`sys, this`states, this`trace
      ensures Valid() && After(old(states), old(trace))
      ensures sys == if asked then NextHandler(old(sys), WriteRequested(id)) else old(sys)
      ensures (ok ==> asked) && (reliable ==> ok)
    {
      var reached := Works();
      var answered := Works();
      if reached {
        Take(Handler(WriteRequested(id)));
        outbox := outbox + [OutboxRow(id, TransferRequested, false)];
      }
      asked, ok := reached, reached && answered;
    }

    /** What a relay is about to publish or mark is an outbox row. */
    lemma BatchStays(r: RelayId)
      requires Valid()
      ensures BatchOk(|outbox|, RelayAt(sys, r))
    {
      ReachedByRun();
      BatchRun(ANY, states[0], trace, sys);
    }

    /** Steps of other processes while a relay waits. */
    method InterfereWithRelay(ghost r: RelayId)
      requires Valid()
      modifies this
      ensures Valid() && After(old(states), old(trace))
      ensures RelayAt(sys, r) == old(RelayAt(sys, r))
      ensures reliable ==> sys == old(sys) && asked == old(asked)
    {
    }

    /** The relay's SELECT returned these rows. */
    ghost method TakeSelect(r: RelayId, batch: seq<nat>)
      requires Valid() && RelayAt(sys, r) == Resting
      requires forall k :: 0 <= k < |batch| ==> batch[k] < |outbox| && !outbox[batch[k]].published
      modifies this`sys, this`states, this`trace
      ensures Valid() && After(old(states), old(trace)) && RelayAt(sys, r) == Working(batch)
    {
      Take(Relay(r, Select(batch)));
    }

    /** The relay's round is over. */
    ghost method TakeRest(r: RelayId)
      requires Valid() && RelayAt(sys, r).Working?
      modifies this`sys, this`states, this`trace
      ensures Valid() && After(old(states), old(trace)) && RelayAt(sys, r) == Resting
    {
      Take(Relay(r, RelayGone));
    }

    /** publisher.Publish: refused for undeclared subjects; an error may hide a message that arrived. */
    method PublishRow(ghost r: RelayId, i: nat, declared: set<EventType>) returns (ok: bool)
      requires Valid() && RelayAt(sys, r).Working? && RelayAt(sys, r).batch != [] && RelayAt(sys, r).batch[0] == i
      requires i < |outbox|
      modifies this`stream, this`sys, this`states, this`trace
      ensures Valid() && After(old(states), old(trace))
      ensures var rest := old(RelayAt(sys, r)).batch[1..];
              RelayAt(sys, r) == if ok then Marking(i, rest) else Working(rest)
      ensures stream == old(stream) + [Message(i, outbox[i].id, false)] || (!ok && stream == old(stream))
      ensures ok ==> outbox[i].subject in declared
      ensures reliable ==> (ok <==> outbox[i].subject in declared) && (!ok ==> stream == old(stream))
    {
      var reached := Works();
      var answered := Works();
      var delivered := outbox[i].subject in declared && reached;
      Take(Relay(r, Publish(delivered)));
      if delivered {
        stream := stream + [Message(i, outbox[i].id, false)];
        if !answered {
          Take(Relay(r, Mark(false)));
        }
      }
      ok := delivered && answered;
    }

    /** UPDATE outbox SET status = 'PUBLISHED'. */
    method MarkRow(ghost r: RelayId, i: nat) returns (ok: bool)
      requires Valid() && RelayAt(sys, r).Marking? && RelayAt(sys, r).row == i && i < |outbox|
      modifies this`outbox, this`sys, this`states, this`trace
      ensures Valid() && After(old(states), old(trace))
      ensures RelayAt(sys, r) == Working(old(RelayAt(sys, r)).batch)
      ensures outbox == old(outbox)[i := old(outbox)[i].(published := true)] || (!ok && outbox == old(outbox))
      ensures reliable ==> ok
    {
      var reached := Works();
      var answered := Works();
      Take(Relay(r, Mark(reached)));
      if reached {
        outbox := outbox[i := outbox[i].(published := true)];
      }
      ok := reached && answered;
    }

    /** Hands some unacknowledged message to an idle worker; None when there is none or the fetch fails. */
    method NextMessage(ghost w: WorkerId) returns (msg: Option<nat>)
      requires Valid() && At(w) == Idle
      modifies this`sys, this`states, this`trace
      ensures Valid() && After(old(states), old(trace))
      ensures msg.Some? ==> msg.value < |stream| && !stream[msg.value].acked
      ensures reliable && msg == None ==> forall k :: 0 <= k < |stream| ==> stream[k].acked
      ensures At(w) == if msg.Some? then Loading(msg.value) else Idle
    {
      msg := None;
      var reachable := Works();
      if reachable {
        if k :| 0 <= k < |stream| && !stream[k].acked {
          Take(Worker(w, Deliver(k)));
          msg := Some(k);
        }
      }
    }

    /** msg.Ack(); its error is ignored, so the stream may keep the message. */
    method AckMessage(ghost w: WorkerId, msg: nat)
      requires Valid() && At(w) == Done(msg) && msg < |stream|
      modifies this`stream, this`sys, this`states, this`trace
      ensures Valid() && After(old(states), old(trace)) && At(w) == Idle
      ensures stream == old(stream) || stream == old(stream)[msg := old(stream)[msg].(acked := true)]
      ensures reliable ==> stream == old(stream)[msg := old(stream)[msg].(acked := true)]
    {
      var received := Works();
      Take(Worker(w, Ack(received)));
      if received {
        stream := stream[msg := stream[msg].(acked := true)];
      }
    }
  }

  /** What the saga reads or uses up beside the tables. */
  datatype Rest = Rest(accounts: map<AccountId, Status>, stream: seq<Message>, asked: nat)

  ghost function RestOf(db: Store): Rest
    reads db
  {
    Rest(db.accounts, db.stream, db.asked)
  }

  ghost function TablesOf(db: Store): Tables
    reads db
  {
    Tables(db.rows, db.ledger, db.events, db.outbox)
  }
}
