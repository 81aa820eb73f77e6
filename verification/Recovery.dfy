/**
 Recovery. The undisturbed Execute of `Saga` is a run of the protocol by one worker.
 From every reachable state of the engine, whatever has failed before, a transfer that
 can still be woken up can be driven on by its own messages, for every answer of the
 bank; and it is known exactly which transfers can still be brought to an end that way.
 */
module Recovery {
  import opened Ledger
  import opened Transfers
  import opened Protocol
  import opened History
  import opened Backend
  import opened Saga
  import opened Progress
  import opened Wakeups
  import opened FinalRows
  import opened Relay
  import opened Engine
  import opened OutboxRelay

  function TablesIn(s: System): Tables {
    Tables(s.book.rows, s.book.ledger, s.events, s.outbox)
  }

  // ---- Runs that process one transfer only ----

  /** The message belongs to the transfer. */
  predicate Mine(stream: seq<Message>, msg: nat, id: TransferId) {
    msg < |stream| && stream[msg].id == id
  }

  /** Only this transfer is handled, and nobody touches the accounts; workers may stop and relays may run. */
  predicate Concerns(s: System, a: Action, id: TransferId)
    requires Enabled(s, a)
  {
    match a
    case Handler(h) => !h.Save? && h.id == id
    case Worker(w, x) => x.Abort? || Mine(s.stream, if x.Deliver? then x.msg else Pc(s, w).msg, id)
    case Relay(_, _) => true
    case SetStatus(_, _) => false
  }

  ghost predicate SoloStep(id: TransferId, s: System, a: Action) {
    EngineStep(ANY, s, a) && Concerns(s, a, id)
  }

  ghost predicate SoloRun(id: TransferId, s: System, acts: seq<Action>, s': System)
    decreases |acts|
  {
    if |acts| == 0 then s' == s
    else
      var n := |acts| - 1;
      exists m :: SoloRun(id, s, acts[..n], m) && SoloStep(id, m, acts[n]) && s' == Next(m, acts[n])
  }

  lemma {:induction false} SoloIsEngineRun(id: TransferId, s: System, acts: seq<Action>, s': System)
    requires SoloRun(id, s, acts, s')
    ensures EngineRun(ANY, s, acts, s')
    decreases |acts|
  {
    if |acts| > 0 {
      var n := |acts| - 1;
      var m :| SoloRun(id, s, acts[..n], m) && SoloStep(id, m, acts[n]) && s' == Next(m, acts[n]);
      SoloIsEngineRun(id, s, acts[..n], m);
    }
  }

  lemma SoloSnoc(id: TransferId, s: System, acts: seq<Action>, m: System, a: Action)
    requires SoloRun(id, s, acts, m) && SoloStep(id, m, a)
    ensures SoloRun(id, s, acts + [a], Next(m, a))
  {
    assert (acts + [a])[..|acts|] == acts;
  }

  /** Steps that process this transfer only lead from `s` to `s'`. */
  ghost predicate Leads(id: TransferId, s: System, s': System) {
    exists acts :: SoloRun(id, s, acts, s')
  }

  lemma Here(id: TransferId, s: System)
    ensures Leads(id, s, s)
  {
    assert SoloRun(id, s, [], s);
  }

  lemma Onward(id: TransferId, s: System, m: System, a: Action)
    requires Leads(id, s, m) && SoloStep(id, m, a)
    ensures Leads(id, s, Next(m, a))
  {
    var acts :| SoloRun(id, s, acts, m);
    SoloSnoc(id, s, acts, m, a);
  }

  lemma OnwardWorker(id: TransferId, s: System, m: System, w: WorkerId, x: WorkerStep)
    requires Leads(id, s, m) && WorkerEnabled(m, w, x) && !x.Deliver? && !Pc(m, w).Idle?
    requires Mine(m.stream, Pc(m, w).msg, id)
    ensures Leads(id, s, Next(m, Worker(w, x)))
  {
    Onward(id, s, m, Worker(w, x));
  }

  // ---- One step at a time ----

  /** The worker holds `t`, whose predecessor with the same contract is stored. */
  predicate Storable(s: System, t: Row) {
    && t.id in s.book.rows && s.book.rows[t.id].id == t.id && t.id in s.book.history
    && s.book.rows[t.id].version == t.version - 1 && s.book.rows[t.id].SameContract(t)
  }

  /** What the worker's steps leave alone. */
  predicate Beside(s: System, s': System) {
    s'.accounts == s.accounts && s'.stream == s.stream && s'.relays == s.relays
  }

  lemma DoUpdate(s: System, w: WorkerId) returns (s': System)
    requires Pc(s, w).Updating? && Storable(s, Pc(s, w).t)
    ensures Enabled(s, Worker(w, Update)) && s' == Next(s, Worker(w, Update)) && Beside(s, s')
    ensures TablesIn(s') == TablesIn(s).(rows := s.book.rows[Pc(s, w).t.id := Pc(s, w).t])
    ensures Pc(s', w) == AfterUpdate(Pc(s, w).msg, Pc(s, w).t) && s'.book.history.Keys == s.book.history.Keys
  {
    s' := NextUpdate(s, w);
    var t := Pc(s, w).t;
    assert Written(s.book.rows[t.id], t) == t;
    assert s.book.history[t.id := s.book.history[t.id] + [t]].Keys == s.book.history.Keys;
  }

  lemma DoAppend(s: System, w: WorkerId) returns (s': System)
    requires Pc(s, w).Appending?
    ensures Enabled(s, Worker(w, Append)) && s' == Next(s, Worker(w, Append)) && Beside(s, s')
    ensures var t := Pc(s, w).t;
            TablesIn(s') == TablesIn(s).(events := s.events + [Event(t.id, EventFor(t.state), t.state)])
    ensures Pc(s', w) == Writing(Pc(s, w).msg, Pc(s, w).t) && s'.book.history == s.book.history
  {
    s' := NextAppend(s, w);
  }

  lemma DoWrite(s: System, w: WorkerId) returns (s': System)
    requires Pc(s, w).Writing?
    ensures Enabled(s, Worker(w, Write)) && s' == Next(s, Worker(w, Write)) && Beside(s, s')
    ensures var t := Pc(s, w).t;
            TablesIn(s') == TablesIn(s).(outbox := s.outbox + [OutboxRow(t.id, EventFor(t.state), false)])
    ensures Pc(s', w) == Done(Pc(s, w).msg) && s'.book.history == s.book.history
  {
    s' := NextWrite(s, w);
  }

  lemma DoPost(s: System, w: WorkerId) returns (s': System)
    requires Pc(s, w).Booking? && Pc(s, w).slot == None
    ensures Enabled(s, Worker(w, Post)) && s' == Next(s, Worker(w, Post)) && Beside(s, s')
    ensures var pc := Pc(s, w);
            match PostingFor(pc.kind, pc.t)
            case Ok(p) => && TablesIn(s') == TablesIn(s).(ledger := s.book.ledger + p.Entries())
                          && Pc(s', w) == AfterPost(pc.msg, pc.t, pc.kind, |s.book.log|)
            case Err => TablesIn(s') == TablesIn(s) && Pc(s', w) == Idle
    ensures s'.book.history == s.book.history
  {
    s' := NextPost(s, w);
  }

  lemma DoAsk(s: System, w: WorkerId, reply: Reply) returns (s': System)
    requires Pc(s, w).Calling?
    ensures Enabled(s, Worker(w, Ask(reply))) && s' == Next(s, Worker(w, Ask(reply))) && Beside(s, s')
    ensures TablesIn(s') == TablesIn(s) && s'.book.history == s.book.history
    ensures Pc(s', w) == AfterBank(Pc(s, w).msg, Pc(s, w).t, reply, |s.book.log|)
  {
    s' := NextAsk(s, w, reply);
    assert s.book.ledger + [] == s.book.ledger;
  }

  lemma DoLock(s: System, w: WorkerId) returns (s': System)
    requires Pc(s, w).Locking?
    ensures Enabled(s, Worker(w, Lock)) && s' == Next(s, Worker(w, Lock)) && Beside(s, s')
    ensures TablesIn(s') == TablesIn(s) && s'.book.history == s.book.history
    ensures var pc := Pc(s, w);
            Pc(s', w) == if pc.t.src !in s.accounts then Idle
                         else if s.accounts[pc.t.src] == Active then Checking(pc.msg, pc.t)
                         else Protocol.FailWith(pc.msg, pc.t, NOT_TRANSACTABLE, None)
  {
    s' := NextLock(s, w);
  }

  lemma DoCheck(s: System, w: WorkerId) returns (s': System)
    requires Pc(s, w).Checking?
    ensures Enabled(s, Worker(w, Check)) && s' == Next(s, Worker(w, Check)) && Beside(s, s')
    ensures TablesIn(s') == TablesIn(s) && s'.book.history == s.book.history
    ensures var pc := Pc(s, w);
            var balance := Balance(s.book.ledger, pc.t.src, pc.t.amount.currency);
            Pc(s', w) == if !IsInt64(balance) then Idle
                         else if balance < pc.t.amount.amount
                         then Protocol.FailWith(pc.msg, pc.t, INSUFFICIENT_FUNDS, None)
                         else Booking(pc.msg, pc.t, Reserve, None)
  {
    s' := NextCheck(s, w);
  }

  // ---- The saga's steps ----

  /** The worker has ended its call with this outcome. */
  predicate Ended(s: System, s': System, w: WorkerId, msg: nat, o: Outcome) {
    Beside(s, s') && TablesIn(s') == o.tables && Pc(s', w) == if o.err then Idle else Done(msg)
  }

  /** UpdateState, Append, Write. */
  lemma PublishRun(id: TransferId, s0: System, s: System, w: WorkerId) returns (s': System)
    requires Leads(id, s0, s) && Pc(s, w).Updating? && Mine(s.stream, Pc(s, w).msg, id)
    requires Storable(s, Pc(s, w).t) && Pc(s, w).t.state != Compensating
    ensures Leads(id, s0, s') && Ended(s, s', w, Pc(s, w).msg, Outcome(Announce(TablesIn(s), Pc(s, w).t), false))
  {
    s' := DoUpdate(s, w);
    OnwardWorker(id, s0, s, w, Update);
    var s2 := DoAppend(s', w);
    OnwardWorker(id, s0, s', w, Append);
    s' := DoWrite(s2, w);
    OnwardWorker(id, s0, s2, w, Write);
  }

  /** `t` is the stored row. */
  predicate Held(s: System, t: Row) {
    t.id in s.book.rows && s.book.rows[t.id] == t && t.id in s.book.history
  }

  lemma FailRun(id: TransferId, s0: System, s: System, w: WorkerId, msg: nat, t: Row, reason: string, slot: Option<nat>)
    returns (s': System)
    requires Leads(id, s0, s) && Mine(s.stream, msg, id) && Pc(s, w) == Protocol.FailWith(msg, t, reason, slot)
    requires Legal(t.state, Failed) && Held(s, t)
    ensures Leads(id, s0, s')
    ensures Ended(s, s', w, msg, Outcome(Announce(TablesIn(s), Forward(t.(failureReason := reason), Failed)), false))
  {
    s' := PublishRun(id, s0, s, w);
  }

  lemma DebitRun(id: TransferId, s0: System, s: System, w: WorkerId, msg: nat, t: Row) returns (s': System)
    requires Leads(id, s0, s) && Mine(s.stream, msg, id) && Pc(s, w) == Booking(msg, t, Reserve, None)
    requires t.state == Pending && Held(s, t)
    ensures Leads(id, s0, s') && Ended(s, s', w, msg, DebitPosted(TablesIn(s), t))
  {
    s' := DoPost(s, w);
    OnwardWorker(id, s0, s, w, Post);
    if PostingFor(Reserve, t).Ok? {
      s' := PublishRun(id, s0, s', w);
    }
  }

  lemma PayRun(id: TransferId, s0: System, s: System, w: WorkerId, msg: nat, t: Row) returns (s': System)
    requires Leads(id, s0, s) && Mine(s.stream, msg, id) && Pc(s, w) == Booking(msg, t, Pay, None)
    requires t.state == BankCalled && Held(s, t)
    ensures Leads(id, s0, s') && Ended(s, s', w, msg, PaidOut(TablesIn(s), t))
  {
    s' := DoPost(s, w);
    OnwardWorker(id, s0, s, w, Post);
    if PostingFor(Pay, t).Ok? {
      s' := PublishRun(id, s0, s', w);
    }
  }

  lemma RefundRun(id: TransferId, s0: System, s: System, w: WorkerId, msg: nat, t: Row) returns (s': System)
    requires Leads(id, s0, s) && Mine(s.stream, msg, id) && Pc(s, w) == Booking(msg, t, Refund, None)
    requires t.state == Compensating && Held(s, t)
    ensures Leads(id, s0, s') && Ended(s, s', w, msg, Refunded(TablesIn(s), t))
  {
    var m := DoPost(s, w);
    OnwardWorker(id, s0, s, w, Post);
    s' := m;
    if PostingFor(Refund, t).Ok? {
      s' := FailRun(id, s0, m, w, msg, t, t.failureReason, Some(|s.book.log|));
      assert t.(failureReason := t.failureReason) == t;
    }
  }

  lemma CheckRun(id: TransferId, s0: System, s: System, w: WorkerId, msg: nat, t: Row) returns (s': System)
    requires Leads(id, s0, s) && Mine(s.stream, msg, id) && Pc(s, w) == Checking(msg, t) && t.state == Pending
    requires Held(s, t)
    ensures Leads(id, s0, s') && Ended(s, s', w, msg, FundsChecked(TablesIn(s), t))
  {
    var m := DoCheck(s, w);
    OnwardWorker(id, s0, s, w, Check);
    var balance := Balance(s.book.ledger, t.src, t.amount.currency);
    s' := m;
    if IsInt64(balance) && balance < t.amount.amount {
      s' := FailRun(id, s0, m, w, msg, t, INSUFFICIENT_FUNDS, None);
    } else if IsInt64(balance) {
      s' := DebitRun(id, s0, m, w, msg, t);
    }
  }

  lemma ReserveRun(id: TransferId, s0: System, s: System, w: WorkerId, msg: nat, t: Row) returns (s': System)
    requires Leads(id, s0, s) && Mine(s.stream, msg, id) && Pc(s, w) == Locking(msg, t) && t.state == Pending
    requires Held(s, t)
    ensures Leads(id, s0, s') && Ended(s, s', w, msg, Reserved(s.accounts, TablesIn(s), t))
  {
    var m := DoLock(s, w);
    OnwardWorker(id, s0, s, w, Lock);
    s' := m;
    if t.src in s.accounts && s.accounts[t.src] == Active {
      s' := CheckRun(id, s0, m, w, msg, t);
    } else if t.src in s.accounts {
      s' := FailRun(id, s0, m, w, msg, t, NOT_TRANSACTABLE, None);
    }
  }

  /** The COMPENSATING row is stored and its debit returned. */
  lemma CompensateRun(id: TransferId, s0: System, s: System, w: WorkerId, msg: nat, t: Row, slot: Option<nat>)
    returns (s': System)
    requires Leads(id, s0, s) && Mine(s.stream, msg, id) && Pc(s, w) == Updating(msg, t, slot) && Storable(s, t)
    requires t.state == Compensating && t.debitPosted && !t.creditPosted
    ensures Leads(id, s0, s') && Ended(s, s', w, msg, Refunded(TablesIn(s).(rows := s.book.rows[t.id := t]), t))
  {
    var m := DoUpdate(s, w);
    OnwardWorker(id, s0, s, w, Update);
    assert t.id in s.book.history.Keys;
    s' := RefundRun(id, s0, m, w, msg, t);
  }

  lemma BankRun(id: TransferId, s0: System, s: System, w: WorkerId, msg: nat, t: Row, reply: Reply) returns (s': System)
    requires Leads(id, s0, s) && Mine(s.stream, msg, id) && Pc(s, w) == Calling(msg, t) && t.state == Debited
    requires t.debitPosted && !t.creditPosted && Held(s, t)
    ensures Leads(id, s0, s') && Ended(s, s', w, msg, BankAsked(TablesIn(s), t, reply))
  {
    var m := DoAsk(s, w, reply);
    OnwardWorker(id, s0, s, w, Ask(reply));
    if reply.Accepted? {
      s' := PublishRun(id, s0, m, w);
    } else {
      var c := Forward(t.(failureReason := reply.reason), Compensating);
      s' := CompensateRun(id, s0, m, w, msg, c, Some(|s.book.log|));
    }
  }

  lemma DispatchRun(id: TransferId, s0: System, s: System, w: WorkerId, msg: nat, t: Row, reply: Reply)
    returns (s': System)
    requires Leads(id, s0, s) && Mine(s.stream, msg, id) && Pc(s, w) == Dispatch(msg, t) && Held(s, t) && Shape(t)
    ensures Leads(id, s0, s') && Ended(s, s', w, msg, Executed(s.accounts, TablesIn(s), t.id, reply))
  {
    s' := s;
    match t.state
    case Pending => s' := ReserveRun(id, s0, s, w, msg, t);
    case Debited => s' := BankRun(id, s0, s, w, msg, t, reply);
    case BankCalled => s' := PayRun(id, s0, s, w, msg, t);
    case Credited => s' := PublishRun(id, s0, s, w);
    case Compensating => s' := RefundRun(id, s0, s, w, msg, t);
    case Completed =>
    case Failed =>
  }

  /**
   An undisturbed Execute is a run of the protocol: whatever state the engine is in, a
   worker that has just been handed a message can make exactly the changes `Executed`
   describes, whatever the bank answers.
   */
  lemma UndisturbedExecute(id: TransferId, s0: System, s: System, w: WorkerId, msg: nat, reply: Reply)
    returns (s': System)
    requires Leads(id, s0, s) && Core(s) && Pc(s, w) == Loading(msg) && Mine(s.stream, msg, id)
    ensures Leads(id, s0, s') && Ended(s, s', w, msg, Executed(s.accounts, TablesIn(s), id, reply))
  {
    s' := NextLoad(s, w);
    OnwardWorker(id, s0, s, w, Load);
    if id in s.book.rows {
      CurrentIsVersion(s, id);
      VersionShape(s, s.book.rows[id]);
      s' := DispatchRun(id, s0, s', w, msg, s.book.rows[id], reply);
    }
  }

  // ---- Reachable states ----

  /** Some run of the engine leads to `s`, with any faults and any changes of accounts. */
  ghost predicate Reachable(s: System) {
    exists s0: System, acts: seq<Action> :: Init(s0) && EngineRun(ANY, s0, acts, s)
  }

  lemma ReachedOn(s: System, m: System)
    requires Reachable(s) && EngineLeads(s, m)
    ensures Reachable(m)
  {
    var s0: System, xs: seq<Action> :| Init(s0) && EngineRun(ANY, s0, xs, s);
    var ys :| EngineRun(ANY, s, ys, m);
    EngineConcat(ANY, s0, xs, s, ys, m);
  }

  lemma LeadsInEngine(id: TransferId, s: System, m: System)
    requires Leads(id, s, m)
    ensures EngineLeads(s, m)
  {
    var acts :| SoloRun(id, s, acts, m);
    SoloIsEngineRun(id, s, acts, m);
  }

  lemma StillReachable(id: TransferId, s: System, m: System)
    requires Reachable(s) && Leads(id, s, m)
    ensures Reachable(m)
  {
    LeadsInEngine(id, s, m);
    ReachedOn(s, m);
  }

  lemma ReachableOk(s: System)
    requires Reachable(s)
    ensures Core(s) && Awake(s) && Relaying(s.outbox, s.stream, s.relays) && FinalOk(s.book.rows, s.outbox)
  {
    var s0: System, acts: seq<Action> :| Init(s0) && EngineRun(ANY, s0, acts, s);
    EngineIsRun(ANY, s0, acts, s);
    AwakeRun(ANY, s0, acts, s);
    RelayingRun(ANY, s0, acts, s);
    FinalRun(ANY, s0, acts, s);
  }

  // ---- Relay rounds ----

  /** What a relay leaves alone. */
  predicate OnlyRelayed(s: System, s': System) {
    && s'.accounts == s.accounts && s'.book == s.book && s'.events == s.events
    && s'.handlers == s.handlers && s'.workers == s.workers
  }

  lemma RelayOne(id: TransferId, s: System, m: System, i: nat, rest: seq<nat>) returns (m': System, ok: bool)
    requires Leads(id, s, m) && RelayAt(m, 0) == Working([i] + rest) && i < |m.outbox|
    ensures Leads(id, s, m') && RelayAt(m', 0) == Working(rest) && OnlyRelayed(m, m')
    ensures RowRelayed(m.outbox, m.stream, i, DECLARED, m'.outbox, m'.stream, ok)
  {
    assert ([i] + rest)[1..] == rest;
    ok := m.outbox[i].subject in DECLARED;
    Onward(id, s, m, Relay(0, Publish(ok)));
    m' := Next(m, Relay(0, Publish(ok)));
    if ok {
      Onward(id, s, m', Relay(0, Mark(true)));
      m' := Next(m', Relay(0, Mark(true)));
    }
  }

  lemma {:induction false} RelayBatch(id: TransferId, s: System, m: System, batch: seq<nat>, k: nat)
    returns (m': System, published: nat)
    requires Leads(id, s, m) && RelayAt(m, 0) == Working(batch) && k <= |batch|
    requires forall j :: 0 <= j < |batch| ==> batch[j] < |m.outbox|
    requires forall i, j :: 0 <= i < j < |batch| ==> batch[i] < batch[j]
    ensures Leads(id, s, m') && RelayAt(m', 0) == Working(batch[k..]) && OnlyRelayed(m, m')
    ensures Relayed(m.outbox, m.stream, batch[..k], DECLARED, m'.outbox, m'.stream, published)
  {
    if k == 0 {
      m', published := m, 0;
      assert batch[0..] == batch && batch[..0] == [];
    } else {
      var m1, n := RelayBatch(id, s, m, batch, k - 1);
      var i := batch[k - 1];
      assert batch[k - 1..] == [i] + batch[k..];
      assert batch[..k] == batch[..k - 1] + [i];
      var ok;
      m', ok := RelayOne(id, s, m1, i, batch[k..]);
      RelayedSnoc(m.outbox, m.stream, batch[..k - 1], DECLARED, m1.outbox, m1.stream, n, i, m'.outbox, m'.stream, ok);
      published := if ok then n + 1 else n;
    }
  }

  /** A relay that is started afresh makes one undisturbed round. */
  lemma RoundRun(id: TransferId, s: System, m: System) returns (m': System, batch: seq<nat>, published: nat)
    requires Leads(id, s, m)
    ensures Leads(id, s, m') && OnlyRelayed(m, m') && IsBatch(m.outbox, BATCH_SIZE, batch)
    ensures Relayed(m.outbox, m.stream, batch, DECLARED, m'.outbox, m'.stream, published)
    ensures m'.outbox == AfterRound(m.outbox, BATCH_SIZE, DECLARED)
  {
    batch := FirstPending(m.outbox, BATCH_SIZE, |m.outbox|);
    FirstPendingIsBatch(m.outbox, BATCH_SIZE);
    m' := m;
    if !RelayAt(m, 0).Resting? {
      Onward(id, s, m', Relay(0, RelayGone));
      m' := Next(m', Relay(0, RelayGone));
    }
    Onward(id, s, m', Relay(0, Select(batch)));
    m' := Next(m', Relay(0, Select(batch)));
    assert batch[..|batch|] == batch;
    m', published := RelayBatch(id, s, m', batch, |batch|);
    WholeBatch(m.outbox, BATCH_SIZE, batch, DECLARED);
  }

  lemma {:induction false} SentInBatch(outbox: seq<OutboxRow>, batch: seq<nat>, i: nat)
    requires (forall k :: 0 <= k < |batch| ==> batch[k] < |outbox|) && i in batch && outbox[i].subject in DECLARED
    ensures Message(i, outbox[i].id, false) in Messages(outbox, batch, DECLARED)
  {
    var n := |batch| - 1;
    if batch[n] != i {
      assert batch == batch[..n] + [batch[n]];
      SentInBatch(outbox, batch[..n], i);
    }
  }

  /** A round without the row brings it nearer. */
  lemma RoundNearer(outbox: seq<OutboxRow>, i: nat)
    requires InReach(outbox, i) && Ready(outbox[i], DECLARED) && !InBatch(outbox, BATCH_SIZE, i)
    ensures var outbox' := AfterRound(outbox, BATCH_SIZE, DECLARED);
            && InReach(outbox', i) && outbox'[i] == outbox[i]
            && ReadyAhead(outbox', i, DECLARED) < ReadyAhead(outbox, i, DECLARED)
  {
    RoundFrees(outbox, BATCH_SIZE, DECLARED, i);
    AheadSplits(outbox, i, DECLARED);
    AheadSplits(AfterRound(outbox, BATCH_SIZE, DECLARED), i, DECLARED);
  }

  /** A round with the row leaves an unacknowledged message of it. */
  lemma SentInRound(m: System, m': System, batch: seq<nat>, published: nat, i: nat)
    requires IsBatch(m.outbox, BATCH_SIZE, batch) && InBatch(m.outbox, BATCH_SIZE, i) && Ready(m.outbox[i], DECLARED)
    requires Relayed(m.outbox, m.stream, batch, DECLARED, m'.outbox, m'.stream, published)
    ensures UnackedMessage(m', m.outbox[i].id)
  {
    var sent := Messages(m.outbox, batch, DECLARED);
    SentInBatch(m.outbox, batch, i);
    var k :| 0 <= k < |sent| && sent[k] == Message(i, m.outbox[i].id, false);
    assert m'.stream[|m.stream| + k] == sent[k];
  }

  /** A ready row within reach is published after enough rounds, and nothing else changes. */
  lemma {:induction false} PublishNow(id: TransferId, s: System, m: System, i: nat) returns (m': System)
    requires Leads(id, s, m) && InReach(m.outbox, i) && Ready(m.outbox[i], DECLARED)
    ensures Leads(id, s, m') && OnlyRelayed(m, m') && UnackedMessage(m', m.outbox[i].id)
    decreases ReadyAhead(m.outbox, i, DECLARED)
  {
    var batch, published;
    m', batch, published := RoundRun(id, s, m);
    if InBatch(m.outbox, BATCH_SIZE, i) {
      SentInRound(m, m', batch, published, i);
    } else {
      RoundNearer(m.outbox, i);
      m' := PublishNow(id, s, m', i);
    }
  }

  // ---- Driving a transfer on ----

  /** The create handler may still write the first outbox row. */
  predicate Requesting(s: System, id: TransferId) {
    id in s.handlers && s.handlers[id] != Gone
  }

  /** A pending declared row of the transfer within reach. */
  predicate PendingInReach(outbox: seq<OutboxRow>, i: nat, id: TransferId) {
    Relayable(outbox, i) && outbox[i].id == id && !outbox[i].published
  }

  /** An unacknowledged message, a pending row the relays can reach, or a handler about to write one. */
  ghost predicate Wakeable(s: System, id: TransferId) {
    || UnackedMessage(s, id)
    || (exists i: nat :: PendingInReach(s.outbox, i, id))
    || (Requesting(s, id) && Room(s.outbox))
  }

  /** Rows, ledger and accounts are as they were. */
  predicate SameMoney(s: System, m: System) {
    m.book.rows == s.book.rows && m.book.ledger == s.book.ledger && m.accounts == s.accounts
  }

  lemma RequestNow(s: System, id: TransferId) returns (m: System)
    requires Requesting(s, id) && Room(s.outbox)
    ensures Leads(id, s, m) && m.book == s.book && m.accounts == s.accounts && PendingInReach(m.outbox, |s.outbox|, id)
  {
    Here(id, s);
    m := s;
    if s.handlers[id] == Saved {
      Onward(id, s, m, Handler(AppendRequested(id)));
      m := Next(m, Handler(AppendRequested(id)));
    }
    Onward(id, s, m, Handler(WriteRequested(id)));
    m := Next(m, Handler(WriteRequested(id)));
    StuckStays(s.outbox, m.outbox, |s.outbox|);
  }

  lemma RequestedNow(s: System, id: TransferId) returns (m: System, i: nat)
    requires (Requesting(s, id) && Room(s.outbox)) || exists j: nat :: PendingInReach(s.outbox, j, id)
    ensures Leads(id, s, m) && SameMoney(s, m) && PendingInReach(m.outbox, i, id)
  {
    if j: nat :| PendingInReach(s.outbox, j, id) {
      Here(id, s);
      m, i := s, j;
    } else {
      m := RequestNow(s, id);
      i := |s.outbox|;
    }
  }

  /** A transfer that can be woken gets a message, and nothing else about it changes. */
  lemma WakeNow(s: System, id: TransferId) returns (m: System)
    requires Wakeable(s, id)
    ensures Leads(id, s, m) && SameMoney(s, m) && UnackedMessage(m, id)
  {
    if UnackedMessage(s, id) {
      Here(id, s);
      m := s;
    } else {
      var q, i := RequestedNow(s, id);
      m := PublishNow(id, s, q, i);
    }
  }

  /** A worker that is started afresh is handed the message. */
  lemma HandOver(id: TransferId, s: System, m: System, k: nat) returns (m': System)
    requires Leads(id, s, m) && Mine(m.stream, k, id) && !m.stream[k].acked
    ensures Leads(id, s, m') && TablesIn(m') == TablesIn(m) && m'.accounts == m.accounts
    ensures m'.stream == m.stream && Pc(m', 0) == Loading(k)
  {
    m' := m;
    if !Pc(m, 0).Idle? {
      Onward(id, s, m, Worker(0, Abort));
      m' := Next(m, Worker(0, Abort));
    }
    Onward(id, s, m', Worker(0, Deliver(k)));
    m' := Next(m', Worker(0, Deliver(k)));
  }

  /** As long as the message is not acknowledged, it is delivered and executed once more. */
  lemma OneMore(s: System, m: System, id: TransferId, k: nat, reply: Reply) returns (m': System)
    requires Reachable(s) && Leads(id, s, m) && Mine(m.stream, k, id) && !m.stream[k].acked
    ensures Leads(id, s, m') && m'.stream == m.stream && m'.accounts == m.accounts
    ensures TablesIn(m') == Executed(m.accounts, TablesIn(m), id, reply).tables
  {
    var h := HandOver(id, s, m, k);
    StillReachable(id, s, h);
    ReachableOk(h);
    m' := UndisturbedExecute(id, s, h, 0, k, reply);
  }

  lemma {:induction false} Redeliver(s: System, m: System, id: TransferId, k: nat, replies: seq<Reply>)
    returns (m': System)
    requires Reachable(s) && Leads(id, s, m) && Mine(m.stream, k, id) && !m.stream[k].acked
    ensures Leads(id, s, m') && m'.stream == m.stream && m'.accounts == m.accounts
    ensures TablesIn(m') == Driven(m.accounts, TablesIn(m), id, replies)
    decreases |replies|
  {
    m' := m;
    if |replies| > 0 {
      var n := |replies| - 1;
      m' := Redeliver(s, m, id, k, replies[..n]);
      m' := OneMore(s, m', id, k, replies[n]);
    }
  }

  /**
   From every reachable state, whatever has failed before and whoever is in the middle of
   something: a transfer that can be woken can be driven on by its own messages, for
   every sequence of bank answers, to exactly the tables that many undisturbed calls
   lead to.
   */
  lemma DriveOn(s: System, id: TransferId, replies: seq<Reply>) returns (m: System, s': System)
    requires Reachable(s) && Wakeable(s, id)
    ensures Leads(id, s, m) && SameMoney(s, m)
    ensures Leads(id, s, s') && s'.accounts == s.accounts
    ensures TablesIn(s') == Driven(s.accounts, TablesIn(m), id, replies)
  {
    m := WakeNow(s, id);
    var k :| 0 <= k < |m.stream| && m.stream[k].id == id && !m.stream[k].acked;
    s' := Redeliver(s, m, id, k, replies);
  }

  // ---- Bringing it to its end ----

  /** The payout cannot be posted: float and destination are the same account. */
  predicate DeadEnd(r: Row) {
    r.state == BankCalled && r.dst == FloatAccount(r.amount.currency)
  }

  /** Every call fails and changes nothing. */
  predicate Hopeless(accounts: map<AccountId, Status>, ledger: seq<LedgerEntry>, r: Row) {
    DeadEnd(r) || (r.state == Pending && Blocked(accounts, ledger, r))
  }

  /** Two calls with a bank that refuses finish every transfer that is not hopeless. */
  lemma RefusalsFinish(accounts: map<AccountId, Status>, tb: Tables, id: TransferId)
    requires Stored(tb, id) && !Hopeless(accounts, tb.ledger, tb.rows[id])
    ensures Finished(Driven(accounts, tb, id, [Refused(""), Refused("")]).rows, id)
  {
    var no := Refused("");
    assert [no, no][..1] == [no] && [no][..0] == [];
    var tb1 := Executed(accounts, tb, id, no).tables;
    assert Driven(accounts, tb, id, []) == tb;
    assert Driven(accounts, tb, id, [no]) == tb1;
    ExecuteState(accounts, tb, id, no);
    ExecuteState(accounts, tb1, id, no);
  }

  /** The stored row of a reachable state. */
  lemma RowOk(s: System, id: TransferId)
    requires Reachable(s) && id in s.book.rows
    ensures Stored(TablesIn(s), id)
  {
    ReachableOk(s);
    CurrentIsVersion(s, id);
    VersionShape(s, s.book.rows[id]);
  }

  lemma Finish(s: System, id: TransferId) returns (s': System)
    requires Reachable(s) && Wakeable(s, id) && id in s.book.rows
    requires !Hopeless(s.accounts, s.book.ledger, s.book.rows[id])
    ensures Leads(id, s, s') && Finished(s'.book.rows, id)
  {
    var m;
    m, s' := DriveOn(s, id, [Refused(""), Refused("")]);
    RowOk(s, id);
    RefusalsFinish(s.accounts, TablesIn(m), id);
  }

  /** Between customer accounts any four bank answers do. */
  lemma FinishWhateverTheBank(s: System, id: TransferId, replies: seq<Reply>) returns (s': System)
    requires Reachable(s) && Wakeable(s, id) && Drivable(s.accounts, TablesIn(s), id) && |replies| >= 4
    ensures Leads(id, s, s') && s'.accounts == s.accounts && Finished(s'.book.rows, id)
  {
    var m;
    m, s' := DriveOn(s, id, replies);
    FourCallsFinish(s.accounts, TablesIn(m), id, replies, Accepted(""));
  }

  // ---- Asleep for good ----

  /** The worker is in the middle of a call for the transfer. */
  predicate OnIt(stream: seq<Message>, pc: WorkerPc, id: TransferId) {
    !pc.Idle? && !pc.Done? && Mine(stream, pc.msg, id)
  }

  /** No worker is in the middle of a call for it, and no relay has a row of it in its hands. */
  ghost predicate AtRest(s: System, id: TransferId) {
    && (forall w :: w in s.workers ==> !OnIt(s.stream, s.workers[w], id))
    && (forall r, k :: r in s.relays && 0 <= k < |Batch(s.relays[r])| ==> !RowOf(s.outbox, Batch(s.relays[r])[k], id))
  }

  predicate RowOf(outbox: seq<OutboxRow>, i: nat, id: TransferId) {
    i < |outbox| && outbox[i].id == id
  }

  ghost predicate Asleep(s: System, id: TransferId) {
    id in s.book.rows && AtRest(s, id) && !Wakeable(s, id)
  }

  /** Until the call ends a worker stays with its message. */
  lemma SameMessage(s: System, w: WorkerId, x: WorkerStep)
    requires WorkerEnabled(s, w, x) && !x.Deliver?
    ensures var pc' := Pc(NextWorker(s, w, x), w); pc'.Idle? || pc'.msg == Pc(s, w).msg
  {
    match x
    case Load => assert NextWorker(s, w, x) == NextLoad(s, w);
    case Lock => assert NextWorker(s, w, x) == NextLock(s, w);
    case Check => assert NextWorker(s, w, x) == NextCheck(s, w);
    case Post => assert NextWorker(s, w, x) == NextPost(s, w);
    case Ask(reply) => assert NextWorker(s, w, x) == NextAsk(s, w, reply);
    case Update => assert NextWorker(s, w, x) == NextUpdate(s, w);
    case _ =>
  }
}
