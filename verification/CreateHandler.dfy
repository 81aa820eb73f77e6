/**
 The create handler and the idempotency store in the source's own form. Every call
 takes only steps of the creation state machine, whatever fails and whoever
 interferes; and when nothing does, tables, cache and reply are exactly as `Handled`
 says.
 */
module CreateHandler {
  import opened Ledger
  import opened Transfers
  import opened Protocol
  import opened Backend
  import C = CreateTransfer

  /** The request; an account id that does not parse is None. */
  datatype Command = Command(key: string, src: Option<AccountId>, dst: Option<AccountId>, amount: Money)

  datatype Reply = Reply(id: TransferId, state: State, cached: bool)

  datatype Handling = Handling(tables: Tables, cache: map<string, TransferId>, reply: Result<Reply>)

  predicate CanTransact(accounts: map<AccountId, Status>, account: AccountId) {
    account in accounts && accounts[account] == Active
  }

  /** The transfer is the one the command asks for. */
  predicate Wanted(r: Row, cmd: Command) {
    Some(r.src) == cmd.src && Some(r.dst) == cmd.dst && r.amount == cmd.amount && r.key == cmd.key
  }

  /** The first event and outbox row of a transfer. */
  function Published(tb: Tables, id: TransferId): Tables {
    tb.(events := tb.events + [Event(id, TransferRequested, Pending)],
        outbox := tb.outbox + [OutboxRow(id, TransferRequested, false)])
  }

  /** Row, event and outbox row of a new transfer, and its cached reply. */
  function Stored(tb: Tables, cache: map<string, TransferId>, row: Row): Handling {
    if !C.Insertable(tb.rows, row) then Handling(tb, cache, Err)
    else
      Handling(
        Published(tb.(rows := tb.rows[row.id := row]), row.id),
        cache[row.key := row.id],
        Ok(Reply(row.id, Pending, false)))
  }

  /** The transfer a command asks for, with `id` as its new id. */
  function Requested(accounts: map<AccountId, Status>, cmd: Command, id: TransferId): Result<Row> {
    if cmd.src == None || cmd.dst == None then Err
    else if !CanTransact(accounts, cmd.src.value) || !CanTransact(accounts, cmd.dst.value) then Err
    else NewRow(id, cmd.key, cmd.src.value, cmd.dst.value, cmd.amount)
  }

  /** One undisturbed Handle call. */
  function Handled(accounts: map<AccountId, Status>, tb: Tables, cache: map<string, TransferId>, cmd: Command,
                   id: TransferId): Handling
  {
    if cmd.key in cache then Handling(tb, cache, Ok(Reply(cache[cmd.key], Pending, true)))
    else
      match Requested(accounts, cmd, id)
      case Err => Handling(tb, cache, Err)
      case Ok(row) => Stored(tb, cache, row)
  }

  /** When a command creates a transfer. */
  predicate Acceptable(accounts: map<AccountId, Status>, rows: map<TransferId, Row>, cache: map<string, TransferId>,
                       cmd: Command, id: TransferId)
  {
    && cmd.key !in cache && cmd.key != "" && (forall i :: i in rows ==> rows[i].key != cmd.key)
    && id !in rows
    && cmd.src.Some? && cmd.src.value in accounts && accounts[cmd.src.value] == Active
    && cmd.dst.Some? && cmd.dst.value in accounts && accounts[cmd.dst.value] == Active
    && cmd.src != cmd.dst
    && 0 < cmd.amount.amount <= MAX_INT64 && cmd.amount.currency != NO_CURRENCY
  }

  /**
   An undisturbed call creates a transfer exactly for an acceptable command. Then the row
   is new, PENDING at version 1, with the command's key, accounts and amount and nothing
   posted; one event and one outbox row of it are added, the reply is cached, and nothing
   else changes. In all other cases no table changes: the reply is the cached one or an
   error.
   */
  lemma CreatesExactly(accounts: map<AccountId, Status>, tb: Tables, cache: map<string, TransferId>, cmd: Command,
                       id: TransferId)
    ensures var h := Handled(accounts, tb, cache, cmd, id);
            if Acceptable(accounts, tb.rows, cache, cmd, id) then
              && id in h.tables.rows && h.tables.rows == tb.rows[id := h.tables.rows[id]]
              && h.tables.rows[id].id == id && Wanted(h.tables.rows[id], cmd)
              && h.tables.rows[id].state == Pending && h.tables.rows[id].version == 1
              && !h.tables.rows[id].debitPosted && !h.tables.rows[id].creditPosted
              && h.tables.rows[id].externalRef == "" && h.tables.rows[id].failureReason == ""
              && h.tables.ledger == tb.ledger
              && h.tables.events == tb.events + [Event(id, TransferRequested, Pending)]
              && h.tables.outbox == tb.outbox + [OutboxRow(id, TransferRequested, false)]
              && h.cache == cache[cmd.key := id] && h.reply == Ok(Reply(id, Pending, false))
            else
              && h.tables == tb && h.cache == cache
              && h.reply == if cmd.key in cache then Ok(Reply(cache[cmd.key], Pending, true)) else Err
  {
  }

  /**
   A retry of a request that succeeded, with any accounts, any new id and any body under
   the same key: while the reply is cached it is replayed and nothing changes; once the
   reply has expired the retry is an error and nothing changes either.
   */
  lemma Retry(accounts: map<AccountId, Status>, tb: Tables, cache: map<string, TransferId>, cmd: Command,
              id: TransferId,
              accounts': map<AccountId, Status>, cmd': Command, id': TransferId)
    requires C.Keyed(tb.rows) && C.RepliesOk(tb.rows, cache, []) && Handled(accounts, tb, cache, cmd, id).reply.Ok?
    requires cmd'.key == cmd.key
    ensures var h := Handled(accounts, tb, cache, cmd, id);
            && Handled(accounts', h.tables, h.cache, cmd', id') == h.(reply := Ok(h.reply.value.(cached := true)))
            && Handled(accounts', h.tables, h.cache - {cmd.key}, cmd', id')
               == Handling(h.tables, h.cache - {cmd.key}, Err)
  {
    var h := Handled(accounts, tb, cache, cmd, id);
    var made := h.reply.value.id;
    assert C.Created(h.tables.rows, cmd.key, made);
    assert made in h.tables.rows && h.tables.rows[made].key == cmd.key;
  }

  /** The Redis store: replies by key, which may disappear at any time. */
  class IdempotencyStore {
    var replies: map<string, TransferId>

    /** Every call gets through; nothing a caller does can change that. */
    const reliable: bool

    constructor (reliable: bool)
      ensures replies == map[] && this.reliable == reliable
    {
      replies := map[];
      this.reliable := reliable;
    }

    method Works() returns (ok: bool)
      ensures reliable ==> ok
    {
      ok := *;
      ok := ok || reliable;
    }

    /** None when the store cannot be reached, Some(None) on a miss. */
    method Get(key: string) returns (r: Option<Option<TransferId>>)
      ensures r.Some? ==> r.value == if key in replies then Some(replies[key]) else None
      ensures reliable ==> r.Some?
    {
      var reachable := Works();
      if !reachable {
        return None;
      }
      return Some(if key in replies then Some(replies[key]) else None);
    }

    /** SET NX; `ok` is a nil error, and an error may hide a value that was stored. */
    method SetIfAbsent(key: string, id: TransferId) returns (ok: bool, ghost asked: bool)
      modifies this
      ensures replies == if asked && key !in old(replies) then old(replies)[key := id] else old(replies)
      ensures (ok ==> asked) && (reliable ==> ok)
    {
      var reached := Works();
      var answered := Works();
      if reached && key !in replies {
        replies := replies[key := id];
      }
      asked, ok := reached, reached && answered;
    }
  }

  class CreateTransferHandler {
    const db: Store
    const idempotency: IdempotencyStore

    ghost var worlds: seq<C.World>
    ghost var steps: seq<C.Step>
    ghost var world: C.World

    /** A handler in front of an empty engine. */
    constructor (db: Store, idempotency: IdempotencyStore)
      requires db.Valid() && Init(db.sys) && idempotency.replies == map[]
      ensures this.db == db && this.idempotency == idempotency && Valid() && world.calls == map[]
    {
      this.db, this.idempotency := db, idempotency;
      world := C.World(db.sys, map[], map[], []);
      worlds, steps := [C.World(db.sys, map[], map[], [])], [];
    }

    /** `world` was reached from the initial state by the recorded steps. */
    ghost predicate Traced()
      reads this
    {
      C.Trace(worlds, steps) && C.Init(worlds[0]) && worlds[|steps|] == world
    }

    /** Tables and cache are the state a run of the creation machine has led to. */
    ghost predicate Valid()
      reads this, db, idempotency
    {
      Traced() && db.Valid() && db.sys == world.sys && idempotency.replies == world.cache
    }

    ghost function At(c: C.CallId): C.CallPc
      reads this
    {
      C.At(world, c)
    }

    lemma Reached()
      requires Traced()
      ensures C.Idempotent(world)
    {
      C.TraceIsRun(worlds, steps);
      C.IdempotentRun(worlds[0], steps, world);
    }

    lemma AnsweredIsCreated(a: C.Answer)
      requires Valid() && a in world.answers
      ensures C.Created(db.rows, a.key, a.id)
    {
      Reached();
    }

    ghost method Take(a: C.Step)
      requires Traced() && C.Enabled(world, a)
      modifies this`world, this`worlds, this`steps
      ensures world == C.Next(old(world), a) && Traced() && Later(old(db.states), old(db.trace), old(steps))
    {
      C.TraceSnoc(worlds, steps, a);
      world := C.Next(world, a);
      worlds, steps := worlds + [world], steps + [a];
    }

    ghost method Begin(c: C.CallId, key: string)
      requires Valid() && c !in world.calls
      modifies this`world, this`worlds, this`steps
      ensures Valid() && Later(old(db.states), old(db.trace), old(steps)) && At(c) == C.Asking(key)
    {
      Take(C.Begin(c, key));
    }

    /** An error return: the call ends with the tables as they are. */
    ghost method GiveUp(c: C.CallId)
      requires Valid() && c in world.calls
      modifies this`world, this`worlds, this`steps, db`sys, db`states, db`trace
      ensures Valid() && Later(old(db.states), old(db.trace), old(steps)) && At(c) == C.Ended
      ensures Same(old(RestOf(db)), old(TablesOf(db)), old(idempotency.replies))
    {
      Reached();
      if C.Owing(At(c)) {
        db.Take(Handler(HandlerGone(At(c).id)));
      }
      Take(C.Stop(c));
    }

    /** Any number of steps of other calls, workers, relays and expiries. */
    method Interfere(ghost c: C.CallId)
      requires Valid()
      modifies this, db, idempotency
      ensures Valid() && Later(old(db.states), old(db.trace), old(steps)) && At(c) == old(At(c))
      ensures c in old(world).calls ==> c in world.calls
      ensures Reliable() ==> Same(old(RestOf(db)), old(TablesOf(db)), old(idempotency.replies))
    {
    }

    /** Everything outside the tables and the cache is as it was, and these are the tables and the cache. */
    ghost predicate Same(rest: Rest, tb: Tables, cache: map<string, TransferId>)
      reads db, idempotency
    {
      RestOf(db) == rest && TablesOf(db) == tb && idempotency.replies == cache
    }

    /** Every port answers and no other process acts. */
    predicate Reliable() {
      db.reliable && idempotency.reliable
    }

    /** The history so far began with this one. */
    ghost predicate Later(states: seq<System>, trace: seq<Action>, steps: seq<C.Step>)
      reads this, db
    {
      db.After(states, trace) && steps <= this.steps
    }

    method CheckIdempotency(ghost c: C.CallId, key: string) returns (err: bool, found: Option<TransferId>)
      requires Valid() && At(c) == C.Asking(key)
      modifies this, db, idempotency
      ensures Valid() && Later(old(db.states), old(db.trace), old(steps))
      ensures At(c) == if err || found.Some? then C.Ended else C.Building(key)
      ensures !err && found.Some? ==> C.Answer(key, found.value, true) in world.answers
      ensures Reliable() ==>
                && Same(old(RestOf(db)), old(TablesOf(db)), old(idempotency.replies)) && !err
                && found == if key in old(idempotency.replies) then Some(old(idempotency.replies)[key]) else None
    {
      var r := idempotency.Get(key);
      if r == None {
        GiveUp(c);
        return true, None;
      }
      Take(C.Get(c));
      err, found := false, r.value;
      if found.Some? {
        assert world.answers[|world.answers| - 1] == C.Answer(key, found.value, true);
      } else {
        Interfere(c);
      }
    }

    method ValidateAccounts(ghost c: C.CallId, src: AccountId, dst: AccountId) returns (ok: bool)
      requires Valid() && c in world.calls
      modifies this, db, idempotency
      ensures Valid() && Later(old(db.states), old(db.trace), old(steps)) && At(c) == old(At(c)) && c in world.calls
      ensures Reliable() ==>
                && Same(old(RestOf(db)), old(TablesOf(db)), old(idempotency.replies))
                && (ok <==> CanTransact(old(db.accounts), src) && CanTransact(old(db.accounts), dst))
    {
      var status := db.FindAccount(src);
      ok := status == Some(Active);
      if ok {
        Interfere(c);
        status := db.FindAccount(dst);
        ok := status == Some(Active);
      }
    }

    /** transfers.Save as a step of the call. */
    method Save(ghost c: C.CallId, row: Row) returns (ok: bool)
      requires Valid() && At(c) == C.Saving(row) && row.Fresh()
      modifies this, db
      ensures Valid() && Later(old(db.states), old(db.trace), old(steps))
      ensures At(c) == if ok then C.Logging(row.key, row.id) else C.Ended
      ensures ok ==> row.id in db.rows && db.rows[row.id] == row
      ensures Reliable() ==>
                && (ok <==> C.Insertable(old(db.rows), row))
                && Same(old(RestOf(db)),
                        if ok then old(TablesOf(db)).(rows := old(db.rows)[row.id := row]) else old(TablesOf(db)),
                        old(idempotency.replies))
    {
      ghost var asked;
      ok, asked := db.Save(row);
      if asked {
        Take(C.Save(c));
      }
      if !ok {
        GiveUp(c);
      }
    }

    /** events.Append as a step of the call. */
    method AppendEvent(ghost c: C.CallId, row: Row) returns (ok: bool)
      requires Valid() && At(c) == C.Logging(row.key, row.id)
      modifies this, db
      ensures Valid() && Later(old(db.states), old(db.trace), old(steps))
      ensures At(c) == if ok then C.Enqueuing(row.key, row.id) else C.Ended
      ensures db.rows == old(db.rows)
      ensures Reliable() ==>
                && ok
                && Same(old(RestOf(db)),
                        old(TablesOf(db)).(events := old(db.events) + [Event(row.id, TransferRequested, Pending)]),
                        old(idempotency.replies))
    {
      Reached();
      ghost var asked;
      ok, asked := db.AppendRequest(row.id);
      if asked {
        Take(C.Log(c));
      }
      if !ok {
        GiveUp(c);
      }
    }

    /** outbox.Write as a step of the call. */
    method WriteOutbox(ghost c: C.CallId, row: Row) returns (ok: bool)
      requires Valid() && At(c) == C.Enqueuing(row.key, row.id)
      modifies this, db
      ensures Valid() && Later(old(db.states), old(db.trace), old(steps))
      ensures At(c) == if ok then C.Caching(row.key, row.id) else C.Ended
      ensures db.rows == old(db.rows)
      ensures Reliable() ==>
                && ok
                && Same(old(RestOf(db)),
                        old(TablesOf(db)).(outbox := old(db.outbox) + [OutboxRow(row.id, TransferRequested, false)]),
                        old(idempotency.replies))
    {
      Reached();
      ghost var asked;
      ok, asked := db.WriteRequest(row.id);
      if asked {
        Take(C.Enqueue(c));
      }
      if !ok {
        GiveUp(c);
      }
    }

    method CacheResult(ghost c: C.CallId, key: string, id: TransferId) returns (ok: bool)
      requires Valid() && At(c) == C.Caching(key, id)
      modifies this, db, idempotency
      ensures Valid() && Later(old(db.states), old(db.trace), old(steps)) && At(c) == C.Ended
      ensures ok ==> C.Answer(key, id, false) in world.answers
      ensures db.rows == old(db.rows)
      ensures Reliable() ==>
                && ok
                && Same(old(RestOf(db)), old(TablesOf(db)),
                        if key in old(idempotency.replies) then old(idempotency.replies)
                        else old(idempotency.replies)[key := id])
    {
      ghost var asked;
      ok, asked := idempotency.SetIfAbsent(key, id);
      if asked {
        Take(C.SetIfAbsent(c, ok));
        assert ok ==> world.answers[|world.answers| - 1] == C.Answer(key, id, false);
      } else {
        GiveUp(c);
      }
    }

    /** Interference leaves the created row its key, accounts and amount. */
    method WaitWith(ghost c: C.CallId, row: Row)
      requires Valid() && row.id in db.rows && db.rows[row.id].SameContract(row)
      modifies this, db, idempotency
      ensures Valid() && Later(old(db.states), old(db.trace), old(steps)) && At(c) == old(At(c))
      ensures c in old(world).calls ==> c in world.calls
      ensures row.id in db.rows && db.rows[row.id].SameContract(row)
      ensures Reliable() ==> Same(old(RestOf(db)), old(TablesOf(db)), old(idempotency.replies))
    {
      ghost var before := db.states;
      Interfere(c);
      db.RowsKept(before);
    }

    /** The event, then the outbox row. */
    method Publish(ghost c: C.CallId, row: Row) returns (ok: bool)
      requires Valid() && At(c) == C.Logging(row.key, row.id)
      requires row.id in db.rows && db.rows[row.id].SameContract(row)
      modifies this, db, idempotency
      ensures Valid() && Later(old(db.states), old(db.trace), old(steps))
      ensures At(c) == if ok then C.Caching(row.key, row.id) else C.Ended
      ensures ok ==> row.id in db.rows && db.rows[row.id].SameContract(row)
      ensures Reliable() ==>
                && ok
                && Same(old(RestOf(db)), Published(old(TablesOf(db)), row.id), old(idempotency.replies))
    {
      ok := AppendEvent(c, row);
      if ok {
        WaitWith(c, row);
        ok := WriteOutbox(c, row);
      }
    }

    /** Save, Append, Write: three separate statements. */
    method Persist(ghost c: C.CallId, row: Row) returns (ok: bool)
      requires Valid() && At(c) == C.Saving(row) && row.Fresh()
      modifies this, db, idempotency
      ensures Valid() && Later(old(db.states), old(db.trace), old(steps))
      ensures At(c) == if ok then C.Caching(row.key, row.id) else C.Ended
      ensures ok ==> row.id in db.rows && db.rows[row.id].SameContract(row)
      ensures Reliable() ==>
                && (ok <==> C.Insertable(old(db.rows), row))
                && Same(old(RestOf(db)),
                        if ok then Published(old(TablesOf(db)).(rows := old(db.rows)[row.id := row]), row.id)
                        else old(TablesOf(db)),
                        old(idempotency.replies))
    {
      ok := Save(c, row);
      if ok {
        WaitWith(c, row);
        ok := Publish(c, row);
      }
    }

    /** Parsing, account checks and transfer.New. */
    method Build(ghost c: C.CallId, cmd: Command, id: TransferId) returns (t: Result<Row>)
      requires Valid() && At(c) == C.Building(cmd.key)
      modifies this, db, idempotency
      ensures Valid() && Later(old(db.states), old(db.trace), old(steps))
      ensures At(c) == if t.Ok? then C.Saving(t.value) else C.Ended
      ensures t.Ok? ==> t.value.Fresh() && t.value.id == id && Wanted(t.value, cmd)
      ensures Reliable() ==>
                && Same(old(RestOf(db)), old(TablesOf(db)), old(idempotency.replies))
                && t == Requested(old(db.accounts), cmd, id)
    {
      t := Err;
      if cmd.src == None || cmd.dst == None {
        GiveUp(c);
        return;
      }
      var ok := ValidateAccounts(c, cmd.src.value, cmd.dst.value);
      if !ok {
        GiveUp(c);
        return;
      }
      t := NewRow(id, cmd.key, cmd.src.value, cmd.dst.value, cmd.amount);
      Take(C.Build(c, id, cmd.src.value, cmd.dst.value, cmd.amount));
    }

    /** The part of Handle after transfer.New. */
    method StoreAndReply(ghost c: C.CallId, row: Row) returns (r: Result<Reply>)
      requires Valid() && At(c) == C.Saving(row) && row.Fresh()
      modifies this, db, idempotency
      ensures Valid() && Later(old(db.states), old(db.trace), old(steps)) && At(c) == C.Ended
      ensures r.Ok? ==> C.Answer(row.key, r.value.id, r.value.cached) in world.answers
      ensures r.Ok? ==> r.value == Reply(row.id, Pending, false)
      ensures r.Ok? ==> row.id in db.rows && db.rows[row.id].SameContract(row)
      ensures Reliable() && row.key !in old(idempotency.replies) ==>
                LeftAs(Stored(old(TablesOf(db)), old(idempotency.replies), row), old(RestOf(db)), r)
    {
      r := Err;
      var ok := Persist(c, row);
      if ok {
        WaitWith(c, row);
        ok := CacheResult(c, row.key, row.id);
        if ok {
          r := Ok(Reply(row.id, Pending, false));
        }
      }
    }

    /** Tables, cache and reply are those of `h`. */
    ghost predicate LeftAs(h: Handling, rest: Rest, r: Result<Reply>)
      reads db, idempotency
    {
      Same(rest, h.tables, h.cache) && r == h.reply
    }

    /** The part of Handle after a cache miss. */
    method Create(ghost c: C.CallId, cmd: Command, id: TransferId) returns (r: Result<Reply>)
      requires Valid() && At(c) == C.Building(cmd.key)
      modifies this, db, idempotency
      ensures Valid() && Later(old(db.states), old(db.trace), old(steps)) && At(c) == C.Ended
      ensures r.Ok? ==> C.Answer(cmd.key, r.value.id, r.value.cached) in world.answers
      ensures r.Ok? ==> r.value == Reply(id, Pending, false) && id in db.rows && Wanted(db.rows[id], cmd)
      ensures Reliable() && cmd.key !in old(idempotency.replies) ==>
                LeftAs(Handled(old(db.accounts), old(TablesOf(db)), old(idempotency.replies), cmd, id),
                       old(RestOf(db)), r)
    {
      r := Err;
      var t := Build(c, cmd, id);
      if t.Ok? {
        Interfere(c);
        r := StoreAndReply(c, t.value);
      }
    }

    /**
     Handle. Whatever fails or interferes, a successful reply names the one transfer of its
     key, and one that is not from the cache a transfer with the command's accounts and
     amount; an undisturbed call does what `Handled` says.
     */
    method Handle(ghost c: C.CallId, cmd: Command, id: TransferId) returns (r: Result<Reply>)
      requires Valid() && c !in world.calls
      modifies this, db, idempotency
      ensures Valid() && Later(old(db.states), old(db.trace), old(steps)) && At(c) == C.Ended
      ensures r.Ok? ==> C.Created(db.rows, cmd.key, r.value.id)
      ensures r.Ok? ==> C.Answer(cmd.key, r.value.id, r.value.cached) in world.answers
      ensures r.Ok? && !r.value.cached ==> r.value.id == id && id in db.rows && Wanted(db.rows[id], cmd)
      ensures Reliable() ==>
                LeftAs(Handled(old(db.accounts), old(TablesOf(db)), old(idempotency.replies), cmd, id),
                          old(RestOf(db)), r)
    {
      Begin(c, cmd.key);
      r := Err;
      var err, found := CheckIdempotency(c, cmd.key);
      if !err {
        if found.Some? {
          r := Ok(Reply(found.value, Pending, true));
        } else {
          r := Create(c, cmd, id);
        }
        if r.Ok? {
          AnsweredIsCreated(C.Answer(cmd.key, r.value.id, r.value.cached));
        }
      }
    }
  }
}
