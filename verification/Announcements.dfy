/**
 Every stored state is announced at most once. With any number of workers and any
 faults, no event and no outbox row of a transfer is ever repeated, because a worker
 announces only the version that its own compare-and-set has stored. So a transfer
 never has more outbox rows than versions.
 */
module Announcements {
  import opened Ledger
  import opened Transfers
  import opened Protocol
  import opened History
  import EventLog

  /** The two logs of announcements. */
  datatype Log = Events | Outbox

  /** A state of a transfer that is to be announced once. */
  datatype Claim = Claim(id: TransferId, state: State)

  function StateFor(e: EventType): State {
    match e
    case TransferRequested => Pending
    case TransferDebited => Debited
    case TransferBankCalled => BankCalled
    case TransferCredited => Credited
    case TransferCompleted => Completed
    case TransferFailed => Failed
  }

  lemma StateForEvent(st: State)
    requires st != Compensating
    ensures StateFor(EventFor(st)) == st
  {
  }

  function EventClaim(e: Event): Claim {
    Claim(e.id, e.state)
  }

  function RowClaim(r: OutboxRow): Claim {
    Claim(r.id, StateFor(r.subject))
  }

  function EventClaims(events: seq<Event>): (c: seq<Claim>)
    ensures |c| == |events| && forall i :: 0 <= i < |c| ==> c[i] == EventClaim(events[i])
  {
    seq(|events|, i requires 0 <= i < |events| => EventClaim(events[i]))
  }

  function RowClaims(outbox: seq<OutboxRow>): (c: seq<Claim>)
    ensures |c| == |outbox| && forall i :: 0 <= i < |c| ==> c[i] == RowClaim(outbox[i])
  {
    seq(|outbox|, i requires 0 <= i < |outbox| => RowClaim(outbox[i]))
  }

  lemma EventClaimsSnoc(events: seq<Event>, e: Event)
    ensures EventClaims(events + [e]) == EventClaims(events) + [EventClaim(e)]
  {
  }

  lemma RowClaimsSnoc(outbox: seq<OutboxRow>, r: OutboxRow)
    ensures RowClaims(outbox + [r]) == RowClaims(outbox) + [RowClaim(r)]
  {
  }

  function Claims(log: Log, s: System): seq<Claim> {
    match log
    case Events => EventClaims(s.events)
    case Outbox => RowClaims(s.outbox)
  }

  // ---- The invariant ----

  /** The worker is still to make its announcement. */
  predicate Due(log: Log, pc: WorkerPc) {
    pc.Appending? || (log == Outbox && pc.Writing?)
  }

  predicate HandlerDue(log: Log, h: HandlerPc) {
    h == Saved || (log == Outbox && h == Logged)
  }

  predicate InHistory(history: map<TransferId, seq<Row>>, c: Claim) {
    c.id in history && exists k :: 0 <= k < |history[c.id]| && history[c.id][k].state == c.state
  }

  ghost predicate DoneOnce(history: map<TransferId, seq<Row>>, done: seq<Claim>) {
    && (forall i, j :: 0 <= i < j < |done| ==> done[i] != done[j])
    && (forall i :: 0 <= i < |done| ==> InHistory(history, done[i]))
  }

  function Owing(pc: WorkerPc): Claim
    requires HasCopy(pc)
  {
    Claim(pc.t.id, pc.t.state)
  }

  predicate SameDue(log: Log, a: WorkerPc, b: WorkerPc) {
    Due(log, a) && Due(log, b) && Owing(a) == Owing(b)
  }

  ghost predicate DueOnce(log: Log, history: map<TransferId, seq<Row>>, done: seq<Claim>,
                          workers: map<WorkerId, WorkerPc>)
  {
    && (forall w :: w in workers && Due(log, workers[w]) ==>
          Owing(workers[w]) !in done && InHistory(history, Owing(workers[w])) && workers[w].t.state != Pending)
    && (forall v, w :: v in workers && w in workers && SameDue(log, workers[v], workers[w]) ==> v == w)
  }

  ghost predicate RequestsOnce(log: Log, history: map<TransferId, seq<Row>>, done: seq<Claim>,
                               handlers: map<TransferId, HandlerPc>)
  {
    forall id :: id in handlers && HandlerDue(log, handlers[id]) ==> id in history && Claim(id, Pending) !in done
  }

  ghost predicate OnceOf(log: Log, history: map<TransferId, seq<Row>>, done: seq<Claim>,
                         workers: map<WorkerId, WorkerPc>, handlers: map<TransferId, HandlerPc>)
  {
    DoneOnce(history, done) && DueOnce(log, history, done, workers) && RequestsOnce(log, history, done, handlers)
  }

  ghost predicate Once(log: Log, s: System) {
    OnceOf(log, s.book.history, Claims(log, s), s.workers, s.handlers)
  }

  // ---- What the steps do to it ----

  /** A worker drops its announcement, or still has the same one to make. */
  lemma OnceGoto(log: Log, history: map<TransferId, seq<Row>>, done: seq<Claim>, workers: map<WorkerId, WorkerPc>,
                 handlers: map<TransferId, HandlerPc>, w: WorkerId, pc: WorkerPc)
    requires OnceOf(log, history, done, workers, handlers)
    requires Due(log, pc) ==> w in workers && Due(log, workers[w]) && Owing(pc) == Owing(workers[w])
    ensures OnceOf(log, history, done, workers[w := pc], handlers)
  {
  }

  /** A worker makes its announcement. */
  lemma OnceAnnounced(log: Log, history: map<TransferId, seq<Row>>, done: seq<Claim>, workers: map<WorkerId, WorkerPc>,
                      handlers: map<TransferId, HandlerPc>, w: WorkerId, pc: WorkerPc)
    requires OnceOf(log, history, done, workers, handlers)
    requires w in workers && Due(log, workers[w]) && !Due(log, pc)
    ensures OnceOf(log, history, done + [Owing(workers[w])], workers[w := pc], handlers)
  {
    var c := Owing(workers[w]);
    forall v | v in workers && v != w && Due(log, workers[v]) ensures Owing(workers[v]) != c {
      assert !SameDue(log, workers[v], workers[w]);
    }
    assert c.state != Pending;
  }

  /** The create handler makes its announcement. */
  lemma OnceRequested(log: Log, history: map<TransferId, seq<Row>>, done: seq<Claim>, workers: map<WorkerId, WorkerPc>,
                      handlers: map<TransferId, HandlerPc>, id: TransferId, h: HandlerPc)
    requires OnceOf(log, history, done, workers, handlers)
    requires id in handlers && HandlerDue(log, handlers[id]) && !HandlerDue(log, h)
    requires InHistory(history, Claim(id, Pending))
    ensures OnceOf(log, history, done + [Claim(id, Pending)], workers, handlers[id := h])
  {
  }

  lemma OnceHandler(log: Log, history: map<TransferId, seq<Row>>, done: seq<Claim>, workers: map<WorkerId, WorkerPc>,
                    handlers: map<TransferId, HandlerPc>, id: TransferId, h: HandlerPc)
    requires OnceOf(log, history, done, workers, handlers)
    requires HandlerDue(log, h) ==> id in handlers && HandlerDue(log, handlers[id])
    ensures OnceOf(log, history, done, workers, handlers[id := h])
  {
  }

  lemma InHistoryGrows(history: map<TransferId, seq<Row>>, history': map<TransferId, seq<Row>>, c: Claim)
    requires HistoryGrows(history, history') && InHistory(history, c)
    ensures InHistory(history', c)
  {
    var k :| 0 <= k < |history[c.id]| && history[c.id][k].state == c.state;
    assert history'[c.id][k].state == c.state;
  }

  lemma OnceGrows(log: Log, history: map<TransferId, seq<Row>>, history': map<TransferId, seq<Row>>, done: seq<Claim>,
                  workers: map<WorkerId, WorkerPc>, handlers: map<TransferId, HandlerPc>)
    requires OnceOf(log, history, done, workers, handlers) && HistoryGrows(history, history')
    ensures OnceOf(log, history', done, workers, handlers)
  {
    forall c | InHistory(history, c) ensures InHistory(history', c) {
      InHistoryGrows(history, history', c);
    }
  }

  /** A new version brings a new state: nobody has announced it or is about to. */
  lemma OnceStored(log: Log, history: map<TransferId, seq<Row>>, history': map<TransferId, seq<Row>>, done: seq<Claim>,
                   workers: map<WorkerId, WorkerPc>, handlers: map<TransferId, HandlerPc>, w: WorkerId, pc: WorkerPc)
    requires OnceOf(log, history, done, workers, handlers) && HistoryGrows(history, history')
    requires w in workers && !Due(log, workers[w])
    requires Due(log, pc) ==>
               InHistory(history', Owing(pc)) && !InHistory(history, Owing(pc)) && pc.t.state != Pending
    ensures OnceOf(log, history', done, workers[w := pc], handlers)
  {
    OnceGrows(log, history, history', done, workers, handlers);
  }

  // ---- Preservation ----

  lemma FreshState(h: seq<Row>, t: Row, k: nat)
    requires Path(h + [t]) && k < |h|
    ensures h[k].state != t.state
  {
    EventLog.PathOnce(h + [t]);
    EventLog.StateAt(h + [t], k);
    EventLog.StateAt(h + [t], |h|);
  }

  /** The state of a new version is not in the history so far. */
  lemma NewClaim(history: map<TransferId, seq<Row>>, t: Row)
    requires t.id in history && Path(history[t.id] + [t])
    ensures !InHistory(history, Claim(t.id, t.state))
    ensures InHistory(history[t.id := history[t.id] + [t]], Claim(t.id, t.state))
    ensures HistoryGrows(history, history[t.id := history[t.id] + [t]])
  {
    var h := history[t.id];
    forall k | 0 <= k < |h| ensures h[k].state != t.state {
      FreshState(h, t, k);
    }
    assert history[t.id := h + [t]][t.id][|h|].state == t.state;
  }

  lemma DueAfterUpdate(log: Log, msg: nat, t: Row)
    ensures Due(log, AfterUpdate(msg, t)) ==> Owing(AfterUpdate(msg, t)) == Claim(t.id, t.state)
    ensures Due(log, AfterUpdate(msg, t)) ==> AfterUpdate(msg, t).t == t
  {
  }

  lemma OnceSuccess(log: Log, s: System, w: WorkerId)
    requires Core(s) && Once(log, s) && Pc(s, w).Updating?
    requires s.book.rows[Pc(s, w).t.id].version == Pc(s, w).t.version - 1
    ensures Once(log, NextUpdate(s, w))
  {
    var pc := Pc(s, w);
    UpdateIsCurrent(s, w);
    UpdateSucceeds(s, w);
    NewClaim(s.book.history, pc.t);
    DueAfterUpdate(log, pc.msg, pc.t);
    OnceStored(log, s.book.history, s.book.history[pc.t.id := s.book.history[pc.t.id] + [pc.t]], Claims(log, s),
               s.workers, s.handlers, w, AfterUpdate(pc.msg, pc.t));
  }

  lemma OnceDrop(log: Log, s: System, w: WorkerId)
    requires Once(log, s)
    ensures Once(log, Drop(s, w))
  {
    OnceGoto(log, s.book.history, Claims(log, s), s.workers, s.handlers, w, Idle);
  }

  lemma OnceUpdate(log: Log, s: System, w: WorkerId)
    requires Core(s) && Once(log, s) && WorkerEnabled(s, w, Update)
    ensures Once(log, NextUpdate(s, w))
  {
    var t := Pc(s, w).t;
    if s.book.rows[t.id].version == t.version - 1 {
      OnceSuccess(log, s, w);
    } else {
      assert NextUpdate(s, w) == Drop(s, w);
      OnceDrop(log, s, w);
    }
  }

  lemma OnceAppend(log: Log, s: System, w: WorkerId)
    requires Core(s) && Once(log, s) && WorkerEnabled(s, w, Append)
    ensures Once(log, NextAppend(s, w))
  {
    var pc := Writing(Pc(s, w).msg, Pc(s, w).t);
    match log
    case Events =>
      OnceAnnounced(log, s.book.history, Claims(log, s), s.workers, s.handlers, w, pc);
      EventClaimsSnoc(s.events, Event(pc.t.id, EventFor(pc.t.state), pc.t.state));
    case Outbox => OnceGoto(log, s.book.history, Claims(log, s), s.workers, s.handlers, w, pc);
  }

  lemma WritingState(s: System, w: WorkerId)
    requires Core(s) && Pc(s, w).Writing?
    ensures StateFor(EventFor(Pc(s, w).t.state)) == Pc(s, w).t.state
  {
    assert PcOk(s.book.history, s.stream, Pc(s, w));
    StateForEvent(Pc(s, w).t.state);
  }

  lemma OnceWrite(log: Log, s: System, w: WorkerId)
    requires Core(s) && Once(log, s) && WorkerEnabled(s, w, Write)
    ensures Once(log, NextWrite(s, w))
  {
    var pc := Done(Pc(s, w).msg);
    match log
    case Outbox =>
      WritingState(s, w);
      OnceAnnounced(log, s.book.history, Claims(log, s), s.workers, s.handlers, w, pc);
      RowClaimsSnoc(s.outbox, OutboxRow(Pc(s, w).t.id, EventFor(Pc(s, w).t.state), false));
    case Events => OnceGoto(log, s.book.history, Claims(log, s), s.workers, s.handlers, w, pc);
  }

  /** Between storing a version and announcing it a worker does nothing else. */
  lemma NotDueAfter(log: Log, s: System, w: WorkerId, x: WorkerStep)
    requires WorkerEnabled(s, w, x) && !x.Update? && !x.Append? && !x.Write?
    ensures !Due(log, Pc(NextWorker(s, w, x), w))
  {
    match x
    case Load => NotDueAfterRead(log, s, w, x);
    case Lock => NotDueAfterRead(log, s, w, x);
    case Check => NotDueAfterRead(log, s, w, x);
    case Post => NotDueAfterPost(log, s, w);
    case Ask(reply) => assert NextWorker(s, w, x) == NextAsk(s, w, reply);
    case _ =>
  }

  lemma NotDueAfterRead(log: Log, s: System, w: WorkerId, x: WorkerStep)
    requires WorkerEnabled(s, w, x) && (x.Load? || x.Lock? || x.Check?)
    ensures !Due(log, Pc(NextWorker(s, w, x), w))
  {
    if x.Load? {
      assert NextWorker(s, w, x) == NextLoad(s, w);
    } else if x.Lock? {
      assert NextWorker(s, w, x) == NextLock(s, w);
    } else {
      assert NextWorker(s, w, x) == NextCheck(s, w);
    }
  }

  lemma NotDueAfterPost(log: Log, s: System, w: WorkerId)
    requires WorkerEnabled(s, w, Post)
    ensures !Due(log, Pc(NextPost(s, w), w))
  {
  }

  lemma OnceOther(log: Log, s: System, w: WorkerId, x: WorkerStep)
    requires Once(log, s) && WorkerEnabled(s, w, x) && !x.Update? && !x.Append? && !x.Write?
    ensures Once(log, NextWorker(s, w, x))
  {
    var s' := NextWorker(s, w, x);
    NotDueAfter(log, s, w, x);
    TableFrame(s, w, x);
    OtherFrame(s, w, x);
    OnceGoto(log, s.book.history, Claims(log, s), s.workers, s.handlers, w, s'.workers[w]);
  }

  lemma OtherFrame(s: System, w: WorkerId, x: WorkerStep)
    requires WorkerEnabled(s, w, x) && !x.Update? && !x.Append? && !x.Write?
    ensures var s' := NextWorker(s, w, x); OnlyWorker(s, s', w) && s'.outbox == s.outbox && s'.events == s.events
  {
    match x
    case Post => BookFrame(s, w, x);
    case Ask(_) => BookFrame(s, w, x);
    case Ack(_) =>
    case _ => ReadFrame(s, w, x);
  }

  lemma OnceWorker(log: Log, s: System, w: WorkerId, x: WorkerStep)
    requires Core(s) && Once(log, s) && WorkerEnabled(s, w, x)
    ensures Once(log, NextWorker(s, w, x))
  {
    match x
    case Update => OnceUpdate(log, s, w);
    case Append => OnceAppend(log, s, w);
    case Write => OnceWrite(log, s, w);
    case _ => OnceOther(log, s, w, x);
  }

  lemma PendingInHistory(s: System, id: TransferId)
    requires Core(s) && id in s.book.history
    ensures InHistory(s.book.history, Claim(id, Pending))
  {
    assert Path(s.book.history[id]);
    assert s.book.history[id][0].state == Pending;
  }

  lemma OnceSaved(log: Log, s: System, row: Row)
    requires Core(s) && Once(log, s) && HandlerEnabled(s, Save(row))
    ensures Once(log, NextHandler(s, Save(row)))
  {
    assert row.id !in s.book.history;
    OnceNew(log, s.book.history, Claims(log, s), s.workers, s.handlers, row);
  }

  /** A new transfer has no announcements yet. */
  lemma OnceNew(log: Log, history: map<TransferId, seq<Row>>, done: seq<Claim>, workers: map<WorkerId, WorkerPc>,
                handlers: map<TransferId, HandlerPc>, row: Row)
    requires OnceOf(log, history, done, workers, handlers) && row.id !in history
    ensures OnceOf(log, history[row.id := [row]], done, workers, handlers[row.id := Saved])
  {
    OnceGrows(log, history, history[row.id := [row]], done, workers, handlers);
  }

  lemma OnceLogged(log: Log, s: System, id: TransferId)
    requires Core(s) && Once(log, s) && HandlerEnabled(s, AppendRequested(id))
    ensures Once(log, NextHandler(s, AppendRequested(id)))
  {
    match log
    case Events =>
      PendingInHistory(s, id);
      OnceRequested(log, s.book.history, Claims(log, s), s.workers, s.handlers, id, Logged);
      EventClaimsSnoc(s.events, Event(id, TransferRequested, Pending));
    case Outbox => OnceHandler(log, s.book.history, Claims(log, s), s.workers, s.handlers, id, Logged);
  }

  lemma OnceEnqueued(log: Log, s: System, id: TransferId)
    requires Core(s) && Once(log, s) && HandlerEnabled(s, WriteRequested(id))
    ensures Once(log, NextHandler(s, WriteRequested(id)))
  {
    match log
    case Events => OnceHandler(log, s.book.history, Claims(log, s), s.workers, s.handlers, id, Gone);
    case Outbox =>
      PendingInHistory(s, id);
      OnceRequested(log, s.book.history, Claims(log, s), s.workers, s.handlers, id, Gone);
      RowClaimsSnoc(s.outbox, OutboxRow(id, TransferRequested, false));
  }

  lemma OnceHandlerStep(log: Log, s: System, h: HandlerStep)
    requires Core(s) && Once(log, s) && HandlerEnabled(s, h)
    ensures Once(log, NextHandler(s, h))
  {
    match h
    case Save(row) => OnceSaved(log, s, row);
    case HandlerGone(id) => OnceHandler(log, s.book.history, Claims(log, s), s.workers, s.handlers, id, Gone);
    case AppendRequested(id) => OnceLogged(log, s, id);
    case WriteRequested(id) => OnceEnqueued(log, s, id);
  }

  lemma OnceRelay(log: Log, s: System, r: RelayId, y: RelayStep)
    requires Once(log, s) && RelayEnabled(s, r, y)
    ensures Once(log, NextRelay(s, r, y))
  {
    assert Claims(log, NextRelay(s, r, y)) == Claims(log, s);
  }

  lemma OnceStep(log: Log, s: System, a: Action)
    requires Core(s) && Once(log, s) && Enabled(s, a)
    ensures Once(log, Next(s, a))
  {
    match a
    case Worker(w, x) => OnceWorker(log, s, w, x);
    case Handler(h) => OnceHandlerStep(log, s, h);
    case Relay(r, y) => OnceRelay(log, s, r, y);
    case SetStatus(_, _) => assert Claims(log, Next(s, a)) == Claims(log, s);
  }

  lemma {:induction false} OnceRun(log: Log, g: Regime, s0: System, acts: seq<Action>, s: System)
    requires Init(s0) && Run(g, s0, acts, s)
    ensures Once(log, s)
    decreases |acts|
  {
    if |acts| > 0 {
      var n := |acts| - 1;
      var m :| Run(g, s0, acts[..n], m) && StepOk(g, m, acts[n]) && s == Next(m, acts[n]);
      OnceRun(log, g, s0, acts[..n], m);
      CoreRun(g, s0, acts[..n], m);
      OnceStep(log, m, acts[n]);
    }
  }

  // ---- Event types ----

  /** Every event has the type that belongs to its state. */
  ghost predicate Typed(events: seq<Event>) {
    forall i :: 0 <= i < |events| ==>
      events[i].eventType == EventFor(events[i].state) && events[i].state != Compensating
  }

  lemma TypedAppend(s: System, w: WorkerId)
    requires Core(s) && Typed(s.events) && WorkerEnabled(s, w, Append)
    ensures Typed(NextAppend(s, w).events)
  {
    assert PcOk(s.book.history, s.stream, Pc(s, w));
  }

  lemma TypedWorker(s: System, w: WorkerId, x: WorkerStep)
    requires Core(s) && Typed(s.events) && WorkerEnabled(s, w, x)
    ensures Typed(NextWorker(s, w, x).events)
  {
    match x
    case Append => TypedAppend(s, w);
    case Update => BookFrame(s, w, x);
    case Write =>
    case _ => OtherFrame(s, w, x);
  }

  lemma TypedStep(s: System, a: Action)
    requires Core(s) && Typed(s.events) && Enabled(s, a)
    ensures Typed(Next(s, a).events)
  {
    match a
    case Worker(w, x) => TypedWorker(s, w, x);
    case Handler(h) => assert Next(s, a) == NextHandler(s, h);
    case _ => assert Next(s, a).events == s.events;
  }

  lemma {:induction false} TypedRun(g: Regime, s0: System, acts: seq<Action>, s: System)
    requires Init(s0) && Run(g, s0, acts, s)
    ensures Typed(s.events)
    decreases |acts|
  {
    if |acts| > 0 {
      var n := |acts| - 1;
      var m :| Run(g, s0, acts[..n], m) && StepOk(g, m, acts[n]) && s == Next(m, acts[n]);
      TypedRun(g, s0, acts[..n], m);
      CoreRun(g, s0, acts[..n], m);
      TypedStep(m, acts[n]);
    }
  }

  // ---- Counting ----

  /** How many announcements the transfer has. */
  function Count(done: seq<Claim>, id: TransferId): nat {
    if |done| == 0 then 0
    else Count(done[..|done| - 1], id) + (if done[|done| - 1].id == id then 1 else 0)
  }

  function Claimed(done: seq<Claim>, id: TransferId): set<State> {
    if |done| == 0 then {}
    else
      var c := done[|done| - 1];
      Claimed(done[..|done| - 1], id) + (if c.id == id then {c.state} else {})
  }

  lemma {:induction false} ClaimedBy(done: seq<Claim>, id: TransferId, st: State) returns (i: nat)
    requires st in Claimed(done, id)
    ensures i < |done| && done[i] == Claim(id, st)
  {
    i := |done| - 1;
    if done[i] != Claim(id, st) {
      i := ClaimedBy(done[..i], id, st);
    }
  }

  lemma {:induction false} CountIsClaimed(done: seq<Claim>, id: TransferId)
    requires forall i, j :: 0 <= i < j < |done| ==> done[i] != done[j]
    ensures Count(done, id) == |Claimed(done, id)|
  {
    if |done| > 0 {
      var n := |done| - 1;
      CountIsClaimed(done[..n], id);
      if done[n].id == id && done[n].state in Claimed(done[..n], id) {
        var i := ClaimedBy(done[..n], id, done[n].state);
      }
    }
  }

  function Visited(h: seq<Row>): set<State> {
    set k | 0 <= k < |h| :: h[k].state
  }

  lemma {:induction false} FewVisited(h: seq<Row>)
    ensures |Visited(h)| <= |h|
  {
    if |h| > 0 {
      var n := |h| - 1;
      FewVisited(h[..n]);
      assert Visited(h) == Visited(h[..n]) + {h[n].state};
    }
  }

  lemma Subset(a: set<State>, b: set<State>)
    requires a <= b
    ensures |a| <= |b|
  {
    assert b == a + (b - a);
  }

  lemma FewClaims(history: map<TransferId, seq<Row>>, done: seq<Claim>, id: TransferId)
    requires DoneOnce(history, done) && id in history
    ensures Count(done, id) <= |history[id]|
  {
    CountIsClaimed(done, id);
    FewVisited(history[id]);
    forall st | st in Claimed(done, id) ensures st in Visited(history[id]) {
      var i := ClaimedBy(done, id, st);
      assert InHistory(history, done[i]);
    }
    Subset(Claimed(done, id), Visited(history[id]));
  }

  // ---- Theorems ----

  /**
   In every run, with any number of workers and any faults: no state of a transfer is
   announced twice, neither in the event log nor in the outbox, and what is announced is
   a state its row has been in.
   */
  lemma AnnouncedOnce(g: Regime, s0: System, acts: seq<Action>, s: System, i: nat, j: nat)
    requires Init(s0) && Run(g, s0, acts, s)
    ensures i < j < |s.events| && s.events[i].id == s.events[j].id ==> s.events[i].state != s.events[j].state
    ensures i < |s.events| ==> InHistory(s.book.history, EventClaim(s.events[i]))
    ensures i < j < |s.outbox| && s.outbox[i].id == s.outbox[j].id ==> s.outbox[i].subject != s.outbox[j].subject
    ensures i < |s.outbox| ==> InHistory(s.book.history, RowClaim(s.outbox[i]))
  {
    OnceRun(Events, g, s0, acts, s);
    OnceRun(Outbox, g, s0, acts, s);
    if i < |s.events| {
      assert Claims(Events, s)[i] == EventClaim(s.events[i]);
      assert j < |s.events| ==> Claims(Events, s)[j] == EventClaim(s.events[j]);
    }
    if i < |s.outbox| {
      assert Claims(Outbox, s)[i] == RowClaim(s.outbox[i]);
      assert j < |s.outbox| ==> Claims(Outbox, s)[j] == RowClaim(s.outbox[j]);
    }
  }

  /** A transfer never has more events, or more outbox rows, than versions; events have the type of their state. */
  lemma AnnouncementsAreBounded(log: Log, g: Regime, s0: System, acts: seq<Action>, s: System, id: TransferId)
    requires Init(s0) && Run(g, s0, acts, s) && id in s.book.history
    ensures Count(Claims(log, s), id) <= |s.book.history[id]|
    ensures Typed(s.events)
  {
    OnceRun(log, g, s0, acts, s);
    TypedRun(g, s0, acts, s);
    FewClaims(s.book.history, Claims(log, s), id);
  }
}
