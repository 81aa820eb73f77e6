/**
 The whole engine as one state machine. Its atomic actions are single port calls:
 create handlers, any number of saga workers, any number of outbox relays and the
 message stream interleave freely, every call may fail, and every process may stop
 after any call.

 Three parts of the state are bookkeeping that no program reads: `opening` (the
 ledger before the first action), `history` (all versions each row has had) and
 `log` (every committed posting and every bank call, with its fate).
 */
module Protocol {
  import opened Ledger
  import opened Transfers

  type WorkerId = nat
  type RelayId = nat

  // ---- Postings of a transfer ----

  /** Debited and credited account of each kind of posting. */
  function Legs(k: Kind, r: Row): (AccountId, AccountId) {
    var float := FloatAccount(r.amount.currency);
    match k
    case Reserve => (r.src, float)
    case Pay => (float, r.dst)
    case Clawback => (r.dst, float)
    case Refund => (float, r.src)
  }

  function PostingFor(k: Kind, r: Row): Result<Posting> {
    NewPosting(Legs(k, r).0, Legs(k, r).1, r.amount, ForTransfer(k, r.id))
  }

  // ---- Bookkeeping log ----

  datatype Tag = Posted(kind: Kind) | Asked(ok: bool)

  /**
   What became of a posting or bank call: its worker has not yet written the row
   (Open), the row update that depends on it was committed (Applied), or the worker
   failed before that (Lost).
   */
  datatype Fate = Open(worker: WorkerId) | Applied | Lost

  datatype Record = Record(id: TransferId, tag: Tag, entries: seq<LedgerEntry>, fate: Fate)

  function AllEntries(log: seq<Record>): seq<LedgerEntry> {
    if |log| == 0 then [] else AllEntries(log[..|log| - 1]) + log[|log| - 1].entries
  }

  function Settle(log: seq<Record>, slot: Option<nat>, fate: Fate): seq<Record> {
    if slot.Some? && slot.value < |log| then log[slot.value := log[slot.value].(fate := fate)] else log
  }

  // ---- Tables and queues ----

  datatype Status = Active | Frozen | Closed

  datatype EventType =
    TransferRequested | TransferDebited | TransferBankCalled | TransferCredited | TransferCompleted | TransferFailed

  datatype Event = Event(id: TransferId, eventType: EventType, state: State)

  /** The event published for a stored state; COMPENSATING has none, so its value is never used. */
  function EventFor(s: State): EventType {
    match s
    case Pending => TransferRequested
    case Debited => TransferDebited
    case BankCalled => TransferBankCalled
    case Credited => TransferCredited
    case Completed => TransferCompleted
    case Failed => TransferFailed
    case Compensating => TransferFailed
  }

  datatype OutboxRow = OutboxRow(id: TransferId, subject: EventType, published: bool)

  /** A stream message: `row` is the outbox row it was published from. */
  datatype Message = Message(row: nat, id: TransferId, acked: bool)

  // ---- Program counters ----

  datatype HandlerPc = Saved | Logged | Gone

  /**
   Where a saga worker stands; `t` is its in-memory copy of the transfer and `slot`
   the log record whose row update is outstanding.
   */
  datatype WorkerPc =
    | Idle
    | Loading(msg: nat)
    | Locking(msg: nat, t: Row)
    | Checking(msg: nat, t: Row)
    | Booking(msg: nat, t: Row, kind: Kind, slot: Option<nat>)
    | Calling(msg: nat, t: Row)
    | Updating(msg: nat, t: Row, slot: Option<nat>)
    | Appending(msg: nat, t: Row)
    | Writing(msg: nat, t: Row)
    | Done(msg: nat)

  /** A relay's batch of outbox rows still to publish; Marking has just published its row. */
  datatype RelayPc = Resting | Working(batch: seq<nat>) | Marking(row: nat, batch: seq<nat>)

  /** The money side: transfers table (with its insertion order and past versions), ledger, log. */
  datatype Book = Book(
    rows: map<TransferId, Row>,
    order: seq<TransferId>,
    history: map<TransferId, seq<Row>>,
    opening: seq<LedgerEntry>,
    ledger: seq<LedgerEntry>,
    log: seq<Record>)

  datatype System = System(
    accounts: map<AccountId, Status>,
    book: Book,
    events: seq<Event>,
    outbox: seq<OutboxRow>,
    stream: seq<Message>,
    handlers: map<TransferId, HandlerPc>,
    workers: map<WorkerId, WorkerPc>,
    relays: map<RelayId, RelayPc>)

  function Pc(s: System, w: WorkerId): WorkerPc {
    if w in s.workers then s.workers[w] else Idle
  }

  function RelayAt(s: System, r: RelayId): RelayPc {
    if r in s.relays then s.relays[r] else Resting
  }

  function Slot(pc: WorkerPc): Option<nat> {
    if pc.Booking? || pc.Updating? then pc.slot else None
  }

  predicate HasCopy(pc: WorkerPc) {
    !pc.Idle? && !pc.Loading? && !pc.Done?
  }

  function Goto(s: System, w: WorkerId, pc: WorkerPc): System {
    s.(workers := s.workers[w := pc])
  }

  function Settled(b: Book, slot: Option<nat>, fate: Fate): Book {
    b.(log := Settle(b.log, slot, fate))
  }

  /** The worker returns an error (the message is nak'ed) or stops. */
  function Drop(s: System, w: WorkerId): System {
    s.(book := Settled(s.book, Slot(Pc(s, w)), Lost), workers := s.workers[w := Idle])
  }

  // ---- The saga's control flow between port calls ----

  /** Transition, then UpdateState is next; an illegal move returns an error. */
  function MoveTo(msg: nat, t: Row, next: State, slot: Option<nat>): WorkerPc {
    match Moved(t, next)
    case Some(t') => Updating(msg, t', slot)
    case None => Idle
  }

  /** failWith. */
  function FailWith(msg: nat, t: Row, reason: string, slot: Option<nat>): WorkerPc {
    if t.state == Failed then Done(msg) else MoveTo(msg, t.(failureReason := reason), Failed, slot)
  }

  /** compensate: reverse the credit leg if posted, then the debit leg if posted, then fail. */
  function Compensate(msg: nat, t: Row): WorkerPc {
    if t.creditPosted then Booking(msg, t, Clawback, None) else CompensateDebit(msg, t, None)
  }

  function CompensateDebit(msg: nat, t: Row, slot: Option<nat>): WorkerPc {
    if t.debitPosted then Booking(msg, t, Refund, slot) else FailWith(msg, t, t.failureReason, slot)
  }

  /** Execute's dispatch on the loaded row. */
  function Dispatch(msg: nat, t: Row): WorkerPc {
    match t.state
    case Pending => Locking(msg, t)
    case Debited => Calling(msg, t)
    case BankCalled => Booking(msg, t, Pay, None)
    case Credited => MoveTo(msg, t, Completed, None)
    case Compensating => Compensate(msg, t)
    case Completed => Done(msg)
    case Failed => Done(msg)
  }

  /** What follows a committed posting, now recorded at index `i` of the log. */
  function AfterPost(msg: nat, t: Row, k: Kind, i: nat): WorkerPc {
    match k
    case Reserve => MoveTo(msg, t.(debitPosted := true), Debited, Some(i))
    case Pay => MoveTo(msg, t.(creditPosted := true), Credited, Some(i))
    case Clawback => CompensateDebit(msg, t, Some(i))
    case Refund => FailWith(msg, t, t.failureReason, Some(i))
  }

  /** The bank's answer: an external reference, or an error text. */
  datatype Reply = Accepted(ref: string) | Refused(reason: string)

  function AfterBank(msg: nat, t: Row, reply: Reply, i: nat): WorkerPc {
    match reply
    case Accepted(ref) => MoveTo(msg, t.(externalRef := ref), BankCalled, Some(i))
    case Refused(reason) => MoveTo(msg, t.(failureReason := reason), Compensating, Some(i))
  }

  function AfterUpdate(msg: nat, t: Row): WorkerPc {
    if t.state == Compensating then Compensate(msg, t) else Appending(msg, t)
  }

  /** The columns UpdateState writes. */
  function Written(row: Row, t: Row): Row {
    row.(state := t.state, externalRef := t.externalRef, failureReason := t.failureReason,
         debitPosted := t.debitPosted, creditPosted := t.creditPosted, version := t.version)
  }

  const NOT_TRANSACTABLE := "account is not in a transactable state"
  const INSUFFICIENT_FUNDS := "insufficient funds"

  // ---- Actions ----

  /** The create handler: INSERT transfers, append the event, write the outbox row; or stop in between. */
  datatype HandlerStep =
    | Save(row: Row)
    | AppendRequested(id: TransferId)
    | WriteRequested(id: TransferId)
    | HandlerGone(id: TransferId)

  /** A worker's port calls; Abort is an error return or a crash at any point. */
  datatype WorkerStep =
    | Deliver(msg: nat)
    | Load
    | Lock
    | Check
    | Post
    | Ask(reply: Reply)
    | Update
    | Append
    | Write
    | Ack(received: bool)
    | Abort

  /** The outbox relay: read a batch, publish a row, mark it; or stop. */
  datatype RelayStep = Select(batch: seq<nat>) | Publish(ok: bool) | Mark(ok: bool) | RelayGone

  datatype Action =
    | Handler(h: HandlerStep)
    | Worker(w: WorkerId, x: WorkerStep)
    | Relay(r: RelayId, y: RelayStep)
    | SetStatus(account: AccountId, status: Status)

  predicate HandlerEnabled(s: System, h: HandlerStep) {
    match h
    case Save(row) =>
      row.Fresh() && row.id !in s.book.rows && forall id :: id in s.book.rows ==> s.book.rows[id].key != row.key
    case AppendRequested(id) => id in s.handlers && s.handlers[id] == Saved
    case WriteRequested(id) => id in s.handlers && s.handlers[id] == Logged
    case HandlerGone(id) => id in s.handlers && s.handlers[id] != Gone
  }

  function SavedRow(b: Book, row: Row): Book {
    b.(rows := b.rows[row.id := row], order := b.order + [row.id], history := b.history[row.id := [row]])
  }

  function NextHandler(s: System, h: HandlerStep): System
    requires HandlerEnabled(s, h)
  {
    match h
    case Save(row) => s.(book := SavedRow(s.book, row), handlers := s.handlers[row.id := Saved])
    case AppendRequested(id) =>
      s.(events := s.events + [Event(id, TransferRequested, Pending)], handlers := s.handlers[id := Logged])
    case WriteRequested(id) =>
      s.(outbox := s.outbox + [OutboxRow(id, TransferRequested, false)], handlers := s.handlers[id := Gone])
    case HandlerGone(id) => s.(handlers := s.handlers[id := Gone])
  }

  predicate RelayEnabled(s: System, r: RelayId, y: RelayStep) {
    var pc := RelayAt(s, r);
    match y
    case Select(batch) =>
      && pc.Resting?
      && forall k :: 0 <= k < |batch| ==> batch[k] < |s.outbox| && !s.outbox[batch[k]].published
    case Publish(_) => pc.Working? && pc.batch != [] && pc.batch[0] < |s.outbox|
    case Mark(_) => pc.Marking? && pc.row < |s.outbox|
    case RelayGone => !pc.Resting?
  }

  function NextRelay(s: System, r: RelayId, y: RelayStep): System
    requires RelayEnabled(s, r, y)
  {
    var pc := RelayAt(s, r);
    match y
    case Select(batch) => s.(relays := s.relays[r := Working(batch)])
    case Publish(ok) =>
      if ok then
        s.(stream := s.stream + [Message(pc.batch[0], s.outbox[pc.batch[0]].id, false)],
           relays := s.relays[r := Marking(pc.batch[0], pc.batch[1..])])
      else s.(relays := s.relays[r := Working(pc.batch[1..])])
    case Mark(ok) =>
      s.(outbox := if ok then s.outbox[pc.row := s.outbox[pc.row].(published := true)] else s.outbox,
         relays := s.relays[r := Working(pc.batch)])
    case RelayGone => s.(relays := s.relays[r := Resting])
  }

  predicate WorkerEnabled(s: System, w: WorkerId, x: WorkerStep) {
    var pc := Pc(s, w);
    match x
    case Deliver(msg) => pc.Idle? && msg < |s.stream| && !s.stream[msg].acked
    case Load => pc.Loading? && pc.msg < |s.stream|
    case Lock => pc.Locking?
    case Check => pc.Checking?
    case Post => pc.Booking?
    case Ask(_) => pc.Calling?
    case Update => pc.Updating?
    case Append => pc.Appending?
    case Write => pc.Writing?
    case Ack(_) => pc.Done? && pc.msg < |s.stream|
    case Abort => !pc.Idle?
  }

  function NextWorker(s: System, w: WorkerId, x: WorkerStep): System
    requires WorkerEnabled(s, w, x)
  {
    match x
    case Deliver(msg) => Goto(s, w, Loading(msg))
    case Load => NextLoad(s, w)
    case Lock => NextLock(s, w)
    case Check => NextCheck(s, w)
    case Post => NextPost(s, w)
    case Ask(reply) => NextAsk(s, w, reply)
    case Update => NextUpdate(s, w)
    case Append => NextAppend(s, w)
    case Write => NextWrite(s, w)
    case Ack(received) => NextAck(s, w, received)
    case Abort => Drop(s, w)
  }

  /** FindByID: an unknown id is an error; a terminal row makes Execute return nil. */
  function NextLoad(s: System, w: WorkerId): System
    requires WorkerEnabled(s, w, Load)
  {
    var msg := Pc(s, w).msg;
    var id := s.stream[msg].id;
    if id in s.book.rows then Goto(s, w, Dispatch(msg, s.book.rows[id])) else Drop(s, w)
  }

  /** LockForUpdate and CanTransact. */
  function NextLock(s: System, w: WorkerId): System
    requires WorkerEnabled(s, w, Lock)
  {
    var pc := Pc(s, w);
    if pc.t.src !in s.accounts then Drop(s, w)
    else if s.accounts[pc.t.src] == Active then Goto(s, w, Checking(pc.msg, pc.t))
    else Goto(s, w, FailWith(pc.msg, pc.t, NOT_TRANSACTABLE, None))
  }

  /** GetBalance (an error if the sum does not fit an int64) and the funds check. */
  function NextCheck(s: System, w: WorkerId): System
    requires WorkerEnabled(s, w, Check)
  {
    var pc := Pc(s, w);
    var balance := Balance(s.book.ledger, pc.t.src, pc.t.amount.currency);
    if !IsInt64(balance) then Drop(s, w)
    else if balance < pc.t.amount.amount then Goto(s, w, FailWith(pc.msg, pc.t, INSUFFICIENT_FUNDS, None))
    else Goto(s, w, Booking(pc.msg, pc.t, Reserve, None))
  }

  function Recorded(b: Book, id: TransferId, tag: Tag, entries: seq<LedgerEntry>, w: WorkerId): Book {
    b.(ledger := b.ledger + entries, log := b.log + [Record(id, tag, entries, Open(w))])
  }

  /** NewPosting, then PostEntries as one committed transaction. */
  function NextPost(s: System, w: WorkerId): System
    requires WorkerEnabled(s, w, Post)
  {
    var pc := Pc(s, w);
    match PostingFor(pc.kind, pc.t)
    case Err => Drop(s, w)
    case Ok(p) =>
      s.(book := Recorded(s.book, pc.t.id, Posted(pc.kind), p.Entries(), w),
         workers := s.workers[w := AfterPost(pc.msg, pc.t, pc.kind, |s.book.log|)])
  }

  function NextAsk(s: System, w: WorkerId, reply: Reply): System
    requires WorkerEnabled(s, w, Ask(reply))
  {
    var pc := Pc(s, w);
    s.(book := Recorded(s.book, pc.t.id, Asked(reply.Accepted?), [], w),
       workers := s.workers[w := AfterBank(pc.msg, pc.t, reply, |s.book.log|)])
  }

  function UpdatedRow(b: Book, row: Row, slot: Option<nat>): Book
    requires row.id in b.history
  {
    b.(rows := b.rows[row.id := row],
       history := b.history[row.id := b.history[row.id] + [row]],
       log := Settle(b.log, slot, Applied))
  }

  /** UpdateState: compare-and-set on the version; a conflict is an error. */
  function NextUpdate(s: System, w: WorkerId): System
    requires WorkerEnabled(s, w, Update)
  {
    var pc := Pc(s, w);
    var id := pc.t.id;
    if id in s.book.rows && s.book.rows[id].id in s.book.history && s.book.rows[id].version == pc.t.version - 1 then
      s.(book := UpdatedRow(s.book, Written(s.book.rows[id], pc.t), pc.slot),
         workers := s.workers[w := AfterUpdate(pc.msg, pc.t)])
    else Drop(s, w)
  }

  function NextAppend(s: System, w: WorkerId): System
    requires WorkerEnabled(s, w, Append)
  {
    var pc := Pc(s, w);
    s.(events := s.events + [Event(pc.t.id, EventFor(pc.t.state), pc.t.state)],
       workers := s.workers[w := Writing(pc.msg, pc.t)])
  }

  function NextWrite(s: System, w: WorkerId): System
    requires WorkerEnabled(s, w, Write)
  {
    var pc := Pc(s, w);
    s.(outbox := s.outbox + [OutboxRow(pc.t.id, EventFor(pc.t.state), false)],
       workers := s.workers[w := Done(pc.msg)])
  }

  /** The consumer's ack after a nil Execute; it may not reach the stream. */
  function NextAck(s: System, w: WorkerId, received: bool): System
    requires WorkerEnabled(s, w, Ack(received))
  {
    var msg := Pc(s, w).msg;
    var m := s.stream[msg];
    s.(stream := s.stream[msg := m.(acked := m.acked || received)], workers := s.workers[w := Idle])
  }

  predicate Enabled(s: System, a: Action) {
    match a
    case Handler(h) => HandlerEnabled(s, h)
    case Worker(w, x) => WorkerEnabled(s, w, x)
    case Relay(r, y) => RelayEnabled(s, r, y)
    case SetStatus(_, _) => true
  }

  function Next(s: System, a: Action): System
    requires Enabled(s, a)
  {
    match a
    case Handler(h) => NextHandler(s, h)
    case Worker(w, x) => NextWorker(s, w, x)
    case Relay(r, y) => NextRelay(s, r, y)
    case SetStatus(account, status) => s.(accounts := s.accounts[account := status])
  }

  // ---- Runs ----

  /** Empty tables over an arbitrary opening ledger and arbitrary accounts. */
  ghost predicate Init(s: System) {
    && s.book == Book(map[], [], map[], s.book.opening, s.book.opening, [])
    && s.events == [] && s.outbox == [] && s.stream == []
    && s.handlers == map[] && s.workers == map[] && s.relays == map[]
  }

  function ActiveWorkers(s: System): set<WorkerId> {
    set w | w in s.workers && !s.workers[w].Idle?
  }

  /**
   Which runs a theorem is about: how many workers may handle a message at the same
   time (None: any number), and whether processes may fail or stop.
   */
  datatype Regime = Regime(workers: Option<nat>, faults: bool)

  const ANY := Regime(None, true)
  const ONE_AT_A_TIME := Regime(Some(1), true)
  const FAULT_FREE := Regime(Some(1), false)

  predicate Permits(g: Regime, s: System, a: Action) {
    && (a.Worker? && a.x.Deliver? && g.workers.Some? ==> |ActiveWorkers(s)| < g.workers.value)
    && (!g.faults ==> !(a.Worker? && a.x.Abort?) && !(a.Handler? && a.h.HandlerGone?))
  }

  predicate StepOk(g: Regime, s: System, a: Action) {
    Enabled(s, a) && Permits(g, s, a)
  }

  /** `acts` leads from `s` to `s'` within the regime. */
  ghost predicate Run(g: Regime, s: System, acts: seq<Action>, s': System)
    decreases |acts|
  {
    if |acts| == 0 then s' == s
    else
      var n := |acts| - 1;
      exists m :: Run(g, s, acts[..n], m) && StepOk(g, m, acts[n]) && s' == Next(m, acts[n])
  }

  /** Whatever `g` permits, `g'` permits. */
  predicate Within(g: Regime, g': Regime) {
    && (g'.workers.Some? ==> g.workers.Some? && g.workers.value <= g'.workers.value)
    && (g.faults ==> g'.faults)
  }

  /** A run stays one when more is permitted. */
  lemma {:induction false} RunWiden(g: Regime, g': Regime, s: System, acts: seq<Action>, s': System)
    requires Within(g, g') && Run(g, s, acts, s')
    ensures Run(g', s, acts, s')
    decreases |acts|
  {
    if |acts| > 0 {
      var n := |acts| - 1;
      var m :| Run(g, s, acts[..n], m) && StepOk(g, m, acts[n]) && s' == Next(m, acts[n]);
      RunWiden(g, g', s, acts[..n], m);
    }
  }

  lemma RunSnoc(g: Regime, s: System, acts: seq<Action>, m: System, a: Action)
    requires Run(g, s, acts, m) && StepOk(g, m, a)
    ensures Run(g, s, acts + [a], Next(m, a))
  {
    assert (acts + [a])[..|acts|] == acts;
  }

  /** One link of a trace. */
  predicate LinkOk(g: Regime, states: seq<System>, acts: seq<Action>, i: nat)
    requires i < |acts| && |states| == |acts| + 1
  {
    StepOk(g, states[i], acts[i]) && states[i + 1] == Next(states[i], acts[i])
  }

  /** A run with all its intermediate states. */
  ghost predicate Trace(g: Regime, states: seq<System>, acts: seq<Action>) {
    |states| == |acts| + 1 && forall i :: 0 <= i < |acts| ==> LinkOk(g, states, acts, i)
  }

  lemma TraceSnoc(g: Regime, states: seq<System>, acts: seq<Action>, a: Action)
    requires Trace(g, states, acts) && StepOk(g, states[|acts|], a)
    ensures Trace(g, states + [Next(states[|acts|], a)], acts + [a])
  {
    var states' := states + [Next(states[|acts|], a)];
    forall i | 0 <= i < |acts + [a]| ensures LinkOk(g, states', acts + [a], i) {
      if i < |acts| {
        assert LinkOk(g, states, acts, i);
      }
    }
  }

  lemma TracePrefix(g: Regime, states: seq<System>, acts: seq<Action>)
    requires Trace(g, states, acts) && |acts| > 0
    ensures Trace(g, states[..|acts|], acts[..|acts| - 1])
  {
    var n := |acts| - 1;
    forall i | 0 <= i < n ensures LinkOk(g, states[..|acts|], acts[..n], i) {
      assert LinkOk(g, states, acts, i);
    }
  }

  /** The last link takes a run to the last state but one on to the last state. */
  lemma TraceLast(g: Regime, states: seq<System>, acts: seq<Action>)
    requires Trace(g, states, acts) && |acts| > 0
    requires Run(g, states[0], acts[..|acts| - 1], states[|acts| - 1])
    ensures Run(g, states[0], acts, states[|acts|])
  {
    var n := |acts| - 1;
    assert LinkOk(g, states, acts, n);
    RunSnoc(g, states[0], acts[..n], states[n], acts[n]);
    assert acts[..n] + [acts[n]] == acts;
  }

  lemma {:induction false} TraceIsRun(g: Regime, states: seq<System>, acts: seq<Action>)
    requires Trace(g, states, acts)
    ensures Run(g, states[0], acts, states[|acts|])
    decreases |acts|
  {
    if |acts| > 0 {
      TracePrefix(g, states, acts);
      TraceIsRun(g, states[..|acts|], acts[..|acts| - 1]);
      TraceLast(g, states, acts);
    }
  }

  /** Every state of a trace is reached by the actions before it. */
  lemma TraceTo(g: Regime, states: seq<System>, acts: seq<Action>, i: nat)
    requires Trace(g, states, acts) && i <= |acts|
    ensures Run(g, states[0], acts[..i], states[i])
  {
    var reached, steps := states[..i + 1], acts[..i];
    forall j | 0 <= j < |steps| ensures LinkOk(g, reached, steps, j) {
      assert LinkOk(g, states, acts, j);
    }
    TraceIsRun(g, reached, steps);
  }
}
