/**
 The event log agrees with the rows. With one message handled at a time and
 crashes anywhere, the events of a transfer are an in-order subsequence of the
 states its row went through; without faults they are exactly those states except
 COMPENSATING.
 */
module EventLog {
  import opened Ledger
  import opened Transfers
  import opened Protocol
  import opened History
  import opened Wakeups
  import opened Overdraft
  import opened OneAtATime

  // ---- State sequences ----

  /** The states announced by the events of one transfer, in order of appending. */
  function EventStates(events: seq<Event>, id: TransferId): seq<State> {
    if |events| == 0 then []
    else
      var n := |events| - 1;
      EventStates(events[..n], id) + (if events[n].id == id then [events[n].state] else [])
  }

  /** The states a row went through. */
  function StatesOf(h: seq<Row>): (r: seq<State>)
    ensures |r| == |h|
  {
    if |h| == 0 then [] else StatesOf(h[..|h| - 1]) + [h[|h| - 1].state]
  }

  /** The states that have an event. */
  function Announced(states: seq<State>): seq<State> {
    if |states| == 0 then []
    else
      var n := |states| - 1;
      Announced(states[..n]) + (if states[n] == Compensating then [] else [states[n]])
  }

  predicate Subsequence(a: seq<State>, b: seq<State>) {
    if |a| == 0 then true
    else if |b| == 0 then false
    else if a[|a| - 1] == b[|b| - 1] then Subsequence(a[..|a| - 1], b[..|b| - 1])
    else Subsequence(a, b[..|b| - 1])
  }

  lemma {:induction false} SubsequenceShorter(a: seq<State>, b: seq<State>)
    requires |a| > 0 && Subsequence(a, b)
    ensures Subsequence(a[..|a| - 1], b)
    decreases |b|, 0
  {
    var a' := a[..|a| - 1];
    var b' := b[..|b| - 1];
    if a[|a| - 1] == b[|b| - 1] {
      SubsequenceLonger(a', b', b[|b| - 1]);
      assert b == b' + [b[|b| - 1]];
    } else {
      SubsequenceShorter(a, b');
      SubsequenceLonger(a', b', b[|b| - 1]);
      assert b == b' + [b[|b| - 1]];
    }
  }

  lemma {:induction false} SubsequenceLonger(a: seq<State>, b: seq<State>, x: State)
    requires Subsequence(a, b)
    ensures Subsequence(a, b + [x])
    decreases |b|, 1
  {
    assert (b + [x])[..|b|] == b;
    if |a| > 0 && a[|a| - 1] == x {
      SubsequenceShorter(a, b);
    }
  }

  /** No state occurs twice. */
  predicate Once(a: seq<State>) {
    forall i, j :: 0 <= i < j < |a| ==> a[i] != a[j]
  }

  lemma {:induction false} SubsequenceOnce(a: seq<State>, b: seq<State>)
    requires Subsequence(a, b) && Once(b)
    ensures Once(a) && forall x :: x in a ==> x in b
  {
    if |a| > 0 {
      var a', b' := a[..|a| - 1], b[..|b| - 1];
      assert b == b' + [b[|b| - 1]];
      SubsequenceOnce(if a[|a| - 1] == b[|b| - 1] then a' else a, b');
      if a[|a| - 1] == b[|b| - 1] {
        assert b[|b| - 1] !in b';
        assert a == a' + [a[|a| - 1]];
      }
    }
  }

  lemma {:induction false} StateAt(h: seq<Row>, k: nat)
    requires k < |h|
    ensures StatesOf(h)[k] == h[k].state
  {
    if k < |h| - 1 {
      StateAt(h[..|h| - 1], k);
    }
  }

  /** No path visits a state twice: the state fixes the version, and nothing follows FAILED. */
  lemma PathOnce(h: seq<Row>)
    requires Path(h)
    ensures Once(StatesOf(h))
  {
    forall i, j | 0 <= i < j < |h| ensures StatesOf(h)[i] != StatesOf(h)[j] {
      StateAt(h, i);
      StateAt(h, j);
      assert StepAt(h, i + 1);
      assert h[i].version != h[j].version;
    }
  }

  /** What the regime promises: a subsequence under faults, exactly the announced states without. */
  predicate Agrees(g: Regime, events: seq<State>, states: seq<State>) {
    if g.faults then Subsequence(events, states) else events == Announced(states)
  }

  lemma AgreesEvent(g: Regime, events: seq<State>, states: seq<State>, x: State)
    requires Agrees(g, events, states) && x != Compensating
    ensures Agrees(g, events + [x], states + [x])
  {
    assert (events + [x])[..|events|] == events;
    assert (states + [x])[..|states|] == states;
  }

  /** A state without event: COMPENSATING, or any state when the event may be missing. */
  lemma AgreesSilent(g: Regime, events: seq<State>, states: seq<State>, x: State)
    requires Agrees(g, events, states) && (x == Compensating || g.faults)
    ensures Agrees(g, events, states + [x])
  {
    if g.faults {
      SubsequenceLonger(events, states, x);
    } else {
      assert (states + [x])[..|states|] == states;
    }
  }

  lemma StatesSnoc(h: seq<Row>, t: Row)
    ensures StatesOf(h + [t]) == StatesOf(h) + [t.state]
  {
    assert (h + [t])[..|h|] == h;
  }

  lemma EventStatesSnoc(events: seq<Event>, e: Event, id: TransferId)
    ensures EventStates(events + [e], id) == EventStates(events, id) + (if e.id == id then [e.state] else [])
  {
    assert (events + [e])[..|events|] == events;
  }

  lemma {:induction false} NoEvents(events: seq<Event>, id: TransferId)
    requires forall i :: 0 <= i < |events| ==> events[i].id != id
    ensures EventStates(events, id) == []
  {
    if |events| > 0 {
      NoEvents(events[..|events| - 1], id);
    }
  }

  // ---- Transfers whose first message is not out yet ----

  ghost predicate NoRowFor(outbox: seq<OutboxRow>, id: TransferId) {
    forall i :: 0 <= i < |outbox| ==> outbox[i].id != id
  }

  /** Events and outbox rows are of stored transfers. */
  ghost predicate Known(events: seq<Event>, outbox: seq<OutboxRow>, rows: map<TransferId, Row>) {
    && (forall i :: 0 <= i < |events| ==> events[i].id in rows)
    && (forall i :: 0 <= i < |outbox| ==> outbox[i].id in rows)
  }

  /** Between Save and the first outbox row nobody but the create handler touches the transfer. */
  ghost predicate Untouched(handlers: map<TransferId, HandlerPc>, history: map<TransferId, seq<Row>>,
                            outbox: seq<OutboxRow>)
  {
    forall id :: id in handlers ==>
      id in history && (handlers[id] != Gone ==> |history[id]| == 1 && NoRowFor(outbox, id))
  }

  ghost predicate Unannounced(s: System) {
    && Known(s.events, s.outbox, s.book.rows)
    && Untouched(s.handlers, s.book.history, s.outbox)
    && s.book.rows.Keys == s.book.history.Keys
  }

  /** A worker's transfer has an outbox row, so its create handler is through. */
  lemma CopyAnnounced(s: System, w: WorkerId)
    requires Core(s) && Awake(s) && Unannounced(s) && HasCopy(Pc(s, w))
    ensures var id := Pc(s, w).t.id;
            id in s.book.rows && id in s.book.history && !NoRowFor(s.outbox, id)
            && (id in s.handlers ==> s.handlers[id] == Gone)
  {
    var m := s.stream[Pc(s, w).msg];
    assert s.outbox[m.row].id == m.id;
  }

  lemma UnannouncedSame(s: System, s': System)
    requires Unannounced(s) && s'.events == s.events && s'.outbox == s.outbox && s'.handlers == s.handlers
    requires s'.book.rows == s.book.rows && s'.book.history == s.book.history
    ensures Unannounced(s')
  {
  }

  lemma UnannouncedQuiet(s: System, w: WorkerId, x: WorkerStep)
    requires Unannounced(s) && WorkerEnabled(s, w, x)
    requires !x.Post? && !x.Ask? && !x.Update? && !x.Append? && !x.Write?
    ensures Unannounced(NextWorker(s, w, x))
  {
    QuietWorker(s, w, x);
    if !x.Ack? {
      ReadFrame(s, w, x);
    }
    UnannouncedSame(s, NextWorker(s, w, x));
  }

  lemma UntouchedUpdated(handlers: map<TransferId, HandlerPc>, history: map<TransferId, seq<Row>>,
                         outbox: seq<OutboxRow>, t: Row)
    requires Untouched(handlers, history, outbox) && t.id in history
    requires t.id in handlers ==> handlers[t.id] == Gone
    ensures Untouched(handlers, history[t.id := history[t.id] + [t]], outbox)
  {
  }

  lemma UnannouncedStored(s: System, w: WorkerId, s': System, t: Row)
    requires Unannounced(s) && OnlyWorker(s, s', w) && s'.events == s.events && s'.outbox == s.outbox
    requires Stores(s.book, s'.book, t) && (t.id in s.handlers ==> s.handlers[t.id] == Gone)
    ensures Unannounced(s')
  {
    UntouchedUpdated(s.handlers, s.book.history, s.outbox, t);
  }

  lemma UnannouncedUpdate(s: System, w: WorkerId)
    requires Core(s) && Awake(s) && Unannounced(s) && WorkerEnabled(s, w, Update)
    ensures Unannounced(NextUpdate(s, w))
  {
    UpdateTable(s, w);
    BookFrame(s, w, Update);
    CopyAnnounced(s, w);
    if SameTable(s.book, NextUpdate(s, w).book) {
      UnannouncedSame(s, NextUpdate(s, w));
    } else {
      UnannouncedStored(s, w, NextUpdate(s, w), Pc(s, w).t);
    }
  }

  /** A new outbox row of a transfer whose handler is through. */
  lemma UntouchedRow(handlers: map<TransferId, HandlerPc>, history: map<TransferId, seq<Row>>,
                     outbox: seq<OutboxRow>, row: OutboxRow)
    requires Untouched(handlers, history, outbox)
    requires row.id in handlers ==> handlers[row.id] == Gone
    ensures Untouched(handlers, history, outbox + [row])
  {
    forall id | id in handlers && NoRowFor(outbox, id) && row.id != id ensures NoRowFor(outbox + [row], id) {
    }
  }

  lemma UnannouncedWrite(s: System, w: WorkerId)
    requires Core(s) && Awake(s) && Unannounced(s) && WorkerEnabled(s, w, Write)
    ensures Unannounced(NextWrite(s, w))
  {
    CopyAnnounced(s, w);
    UntouchedRow(s.handlers, s.book.history, s.outbox, NextWrite(s, w).outbox[|s.outbox|]);
  }

  lemma UnannouncedAppend(s: System, w: WorkerId)
    requires Core(s) && Awake(s) && Unannounced(s) && WorkerEnabled(s, w, Append)
    ensures Unannounced(NextAppend(s, w))
  {
    CopyAnnounced(s, w);
  }

  lemma UnannouncedBooking(s: System, w: WorkerId, x: WorkerStep)
    requires Unannounced(s) && WorkerEnabled(s, w, x) && (x.Post? || x.Ask?)
    ensures Unannounced(NextWorker(s, w, x))
  {
    BookFrame(s, w, x);
    TableFrame(s, w, x);
    UnannouncedSame(s, NextWorker(s, w, x));
  }

  lemma UnannouncedWorker(s: System, w: WorkerId, x: WorkerStep)
    requires Core(s) && Awake(s) && Unannounced(s) && WorkerEnabled(s, w, x)
    ensures Unannounced(NextWorker(s, w, x))
  {
    if x.Update? {
      UnannouncedUpdate(s, w);
    } else if x.Post? || x.Ask? {
      UnannouncedBooking(s, w, x);
    } else if x.Append? {
      UnannouncedAppend(s, w);
    } else if x.Write? {
      UnannouncedWrite(s, w);
    } else {
      UnannouncedQuiet(s, w, x);
    }
  }

  lemma UnannouncedSave(s: System, row: Row)
    requires Core(s) && Unannounced(s) && HandlerEnabled(s, Save(row))
    ensures Unannounced(NextHandler(s, Save(row)))
  {
    assert NoRowFor(s.outbox, row.id);
    assert s.book.rows[row.id := row].Keys == s.book.rows.Keys + {row.id};
    assert s.book.history[row.id := [row]].Keys == s.book.history.Keys + {row.id};
  }

  lemma UnannouncedRequest(s: System, id: TransferId)
    requires Unannounced(s) && HandlerEnabled(s, WriteRequested(id))
    ensures Unannounced(NextHandler(s, WriteRequested(id)))
  {
    UntouchedRow(s.handlers[id := Gone], s.book.history, s.outbox, OutboxRow(id, TransferRequested, false));
  }

  lemma UnannouncedProgress(s: System, h: HandlerStep, id: TransferId)
    requires Unannounced(s) && HandlerEnabled(s, h) && (h == AppendRequested(id) || h == HandlerGone(id))
    ensures Unannounced(NextHandler(s, h))
  {
  }

  lemma UnannouncedHandler(s: System, h: HandlerStep)
    requires Core(s) && Unannounced(s) && HandlerEnabled(s, h)
    ensures Unannounced(NextHandler(s, h))
  {
    match h {
      case Save(row) => UnannouncedSave(s, row);
      case WriteRequested(id) => UnannouncedRequest(s, id);
      case AppendRequested(id) => UnannouncedProgress(s, h, id);
      case HandlerGone(id) => UnannouncedProgress(s, h, id);
    }
  }

  lemma UnannouncedRelay(s: System, r: RelayId, y: RelayStep)
    requires Unannounced(s) && RelayEnabled(s, r, y)
    ensures Unannounced(NextRelay(s, r, y))
  {
    var outbox' := NextRelay(s, r, y).outbox;
    forall id | NoRowFor(s.outbox, id) ensures NoRowFor(outbox', id) {
    }
  }

  lemma UnannouncedStep(s: System, a: Action)
    requires Core(s) && Awake(s) && Unannounced(s) && Enabled(s, a)
    ensures Unannounced(Next(s, a))
  {
    match a {
      case Worker(w, x) => UnannouncedWorker(s, w, x);
      case Handler(h) => UnannouncedHandler(s, h);
      case Relay(r, y) => UnannouncedRelay(s, r, y);
      case SetStatus(_, _) =>
    }
  }

  /** In every run, outbox rows and events are of stored transfers, and nobody touches one before its first row. */
  lemma {:induction false} UnannouncedRun(g: Regime, s0: System, acts: seq<Action>, s: System)
    requires Init(s0) && Run(g, s0, acts, s)
    ensures Unannounced(s)
    decreases |acts|
  {
    if |acts| > 0 {
      var n := |acts| - 1;
      var m :| Run(g, s0, acts[..n], m) && StepOk(g, m, acts[n]) && s == Next(m, acts[n]);
      UnannouncedRun(g, s0, acts[..n], m);
      AwakeRun(g, s0, acts[..n], m);
      UnannouncedStep(m, acts[n]);
    }
  }

  // ---- Agreement ----

  ghost predicate AppendingFor(workers: map<WorkerId, WorkerPc>, id: TransferId) {
    exists w :: w in workers && workers[w].Appending? && workers[w].t.id == id
  }

  predicate HandlerOwes(handlers: map<TransferId, HandlerPc>, id: TransferId) {
    id in handlers && handlers[id] == Saved
  }

  /** The newest stored state's event has not been appended yet, but someone is about to. */
  ghost predicate OwedBy(handlers: map<TransferId, HandlerPc>, workers: map<WorkerId, WorkerPc>, id: TransferId) {
    HandlerOwes(handlers, id) || AppendingFor(workers, id)
  }

  ghost predicate Owed(s: System, id: TransferId) {
    OwedBy(s.handlers, s.workers, id)
  }

  predicate Consistent(g: Regime, events: seq<Event>, h: seq<Row>, id: TransferId, owed: bool) {
    && |h| > 0
    && if owed then
         h[|h| - 1].state != Compensating && Agrees(g, EventStates(events, id), StatesOf(h[..|h| - 1]))
       else Agrees(g, EventStates(events, id), StatesOf(h))
  }

  ghost predicate AgreeOf(g: Regime, events: seq<Event>, history: map<TransferId, seq<Row>>,
                          handlers: map<TransferId, HandlerPc>, workers: map<WorkerId, WorkerPc>)
  {
    forall id :: id in history ==> Consistent(g, events, history[id], id, OwedBy(handlers, workers, id))
  }

  ghost predicate EventsAgree(g: Regime, s: System) {
    AgreeOf(g, s.events, s.book.history, s.handlers, s.workers)
  }

  /** The newest state is announced. */
  lemma Announce(g: Regime, events: seq<Event>, h: seq<Row>, id: TransferId)
    requires Consistent(g, events, h, id, true)
    ensures var st := h[|h| - 1].state; Consistent(g, events + [Event(id, EventFor(st), st)], h, id, false)
  {
    var n := |h| - 1;
    var st := h[n].state;
    EventStatesSnoc(events, Event(id, EventFor(st), st), id);
    AgreesEvent(g, EventStates(events, id), StatesOf(h[..n]), st);
  }

  /** The newest state will never be announced. */
  lemma Forget(g: Regime, events: seq<Event>, h: seq<Row>, id: TransferId)
    requires Consistent(g, events, h, id, true) && g.faults
    ensures Consistent(g, events, h, id, false)
  {
    AgreesSilent(g, EventStates(events, id), StatesOf(h[..|h| - 1]), h[|h| - 1].state);
  }

  /** A new version is stored. */
  lemma Advance(g: Regime, events: seq<Event>, h: seq<Row>, t: Row, id: TransferId)
    requires Consistent(g, events, h, id, false)
    ensures Consistent(g, events, h + [t], id, t.state != Compensating)
  {
    assert (h + [t])[..|h|] == h;
    StatesSnoc(h, t);
    if t.state == Compensating {
      AgreesSilent(g, EventStates(events, id), StatesOf(h), t.state);
    }
  }

  lemma EventOfOther(g: Regime, events: seq<Event>, e: Event, h: seq<Row>, id: TransferId, owed: bool)
    requires Consistent(g, events, h, id, owed) && e.id != id
    ensures Consistent(g, events + [e], h, id, owed)
  {
    EventStatesSnoc(events, e, id);
    assert EventStates(events, id) + [] == EventStates(events, id);
  }

  /** A worker that neither was nor is about to append changes nothing that is owed. */
  lemma OwedSame(workers: map<WorkerId, WorkerPc>, w: WorkerId, pc: WorkerPc, id: TransferId)
    requires w in workers && workers[w].Appending? ==> workers[w].t.id != id
    requires pc.Appending? ==> pc.t.id != id
    ensures AppendingFor(workers[w := pc], id) <==> AppendingFor(workers, id)
  {
    if AppendingFor(workers, id) {
      var v :| v in workers && workers[v].Appending? && workers[v].t.id == id;
      assert workers[w := pc][v] == workers[v];
    }
    if AppendingFor(workers[w := pc], id) {
      var v :| v in workers[w := pc] && workers[w := pc][v].Appending? && workers[w := pc][v].t.id == id;
      assert v != w && workers[w := pc][v] == workers[v];
    }
  }

  /** When worker `w` is busy, nobody else is about to append. */
  lemma OnlyMine(s: System, w: WorkerId, id: TransferId)
    requires Alone(s) && w in s.workers && !s.workers[w].Idle?
    ensures AppendingFor(s.workers, id) <==> s.workers[w].Appending? && s.workers[w].t.id == id
  {
  }

  /** Steps that touch neither events nor history nor what is owed. */
  lemma AgreeSame(g: Regime, s: System, w: WorkerId, s': System)
    requires EventsAgree(g, s) && OnlyWorker(s, s', w)
    requires s'.events == s.events && s'.book.history == s.book.history
    requires w in s.workers ==> !s.workers[w].Appending?
    requires !s'.workers[w].Appending?
    ensures EventsAgree(g, s')
  {
    forall id | id in s.book.history ensures Owed(s', id) == Owed(s, id) {
      OwedSame(s.workers, w, s'.workers[w], id);
    }
  }

  lemma NotAppendingAfterRead(s: System, w: WorkerId, x: WorkerStep)
    requires WorkerEnabled(s, w, x) && (x.Deliver? || x.Load? || x.Lock? || x.Check? || x.Abort?)
    ensures !Pc(NextWorker(s, w, x), w).Appending?
  {
  }

  lemma NotAppendingAfterBook(s: System, w: WorkerId, x: WorkerStep)
    requires WorkerEnabled(s, w, x) && (x.Post? || x.Ask?)
    ensures !Pc(NextWorker(s, w, x), w).Appending?
  {
  }

  lemma AgreeRead(g: Regime, s: System, w: WorkerId, x: WorkerStep)
    requires EventsAgree(g, s) && WorkerEnabled(s, w, x) && !Pc(s, w).Appending?
    requires x.Deliver? || x.Load? || x.Lock? || x.Check? || x.Abort?
    ensures EventsAgree(g, NextWorker(s, w, x))
  {
    ReadFrame(s, w, x);
    QuietWorker(s, w, x);
    NotAppendingAfterRead(s, w, x);
    AgreeSame(g, s, w, NextWorker(s, w, x));
  }

  lemma AgreeBook(g: Regime, s: System, w: WorkerId, x: WorkerStep)
    requires EventsAgree(g, s) && WorkerEnabled(s, w, x) && (x.Post? || x.Ask?)
    ensures EventsAgree(g, NextWorker(s, w, x))
  {
    BookFrame(s, w, x);
    TableFrame(s, w, x);
    NotAppendingAfterBook(s, w, x);
    AgreeSame(g, s, w, NextWorker(s, w, x));
  }

  lemma AgreeAbort(g: Regime, s: System, w: WorkerId)
    requires EventsAgree(g, s) && Alone(s) && Pc(s, w).Appending? && g.faults
    ensures EventsAgree(g, Drop(s, w))
  {
    var s' := Drop(s, w);
    forall id | id in s.book.history ensures Consistent(g, s.events, s.book.history[id], id, Owed(s', id)) {
      OnlyMine(s, w, id);
      if id == Pc(s, w).t.id {
        if !Owed(s', id) {
          Forget(g, s.events, s.book.history[id], id);
        }
      } else {
        OwedSame(s.workers, w, Idle, id);
      }
    }
  }

  /** The newest state of `t` is announced; nothing is owed for it any more. */
  lemma AgreeAnnounced(g: Regime, events: seq<Event>, history: map<TransferId, seq<Row>>,
                       handlers: map<TransferId, HandlerPc>, workers: map<WorkerId, WorkerPc>,
                       handlers': map<TransferId, HandlerPc>, workers': map<WorkerId, WorkerPc>, id: TransferId)
    requires AgreeOf(g, events, history, handlers, workers)
    requires id in history && OwedBy(handlers, workers, id) && !OwedBy(handlers', workers', id)
    requires forall i :: i != id ==> OwedBy(handlers', workers', i) == OwedBy(handlers, workers, i)
    ensures var h := history[id];
            |h| > 0
            && var st := h[|h| - 1].state;
               AgreeOf(g, events + [Event(id, EventFor(st), st)], history, handlers', workers')
  {
    assert Consistent(g, events, history[id], id, true);
    var st := history[id][|history[id]| - 1].state;
    Announce(g, events, history[id], id);
    forall i | i in history && i != id
      ensures Consistent(g, events + [Event(id, EventFor(st), st)], history[i], i, OwedBy(handlers', workers', i))
    {
      EventOfOther(g, events, Event(id, EventFor(st), st), history[i], i, OwedBy(handlers, workers, i));
    }
  }

  lemma OwedAfterAppend(s: System, w: WorkerId, pc: WorkerPc)
    requires Alone(s) && Pc(s, w).Appending? && !pc.Appending?
    ensures OwedBy(s.handlers, s.workers, Pc(s, w).t.id)
    ensures !AppendingFor(s.workers[w := pc], Pc(s, w).t.id)
    ensures forall i :: i != Pc(s, w).t.id ==> AppendingFor(s.workers[w := pc], i) == AppendingFor(s.workers, i)
  {
    var id := Pc(s, w).t.id;
    forall i | i != id ensures AppendingFor(s.workers[w := pc], i) == AppendingFor(s.workers, i) {
      OwedSame(s.workers, w, pc, i);
    }
  }

  lemma AgreeAppend(g: Regime, s: System, w: WorkerId)
    requires Core(s) && Awake(s) && Unannounced(s) && EventsAgree(g, s)
    requires Alone(s) && CopiesCurrent(s) && WorkerEnabled(s, w, Append)
    ensures EventsAgree(g, NextAppend(s, w))
  {
    var pc := Pc(s, w);
    CopyAnnounced(s, w);
    OwedAfterAppend(s, w, Writing(pc.msg, pc.t));
    assert s.book.history[pc.t.id][|s.book.history[pc.t.id]| - 1] == pc.t;
    AgreeAnnounced(g, s.events, s.book.history, s.handlers, s.workers, s.handlers,
                   s.workers[w := Writing(pc.msg, pc.t)], pc.t.id);
  }

  lemma AgreeUpdate(g: Regime, s: System, w: WorkerId)
    requires Core(s) && Awake(s) && Unannounced(s) && EventsAgree(g, s)
    requires Alone(s) && CopiesCurrent(s) && WorkerEnabled(s, w, Update)
    ensures EventsAgree(g, NextUpdate(s, w))
  {
    var pc := Pc(s, w);
    CurrentUpdate(s, w);
    CopyAnnounced(s, w);
    UpdateLandsAppending(s, w);
    AgreeAdvanced(g, s, w, NextUpdate(s, w));
  }

  /** After a successful update the worker is about to append, unless it must compensate. */
  lemma UpdateLandsAppending(s: System, w: WorkerId)
    requires Core(s) && Pc(s, w).Updating?
    ensures var pc := Pc(s, w);
            var pc' := AfterUpdate(pc.msg, pc.t);
            (pc'.Appending? <==> pc.t.state != Compensating) && (pc'.Appending? ==> pc'.t == pc.t) && !pc'.Idle?
  {
  }

  lemma AgreeAdvanced(g: Regime, s: System, w: WorkerId, s': System)
    requires EventsAgree(g, s) && Alone(s) && Pc(s, w).Updating?
    requires var t := Pc(s, w).t;
             && t.id in s.book.history && (t.id in s.handlers ==> s.handlers[t.id] == Gone)
             && s'.book.history == s.book.history[t.id := s.book.history[t.id] + [t]]
             && OnlyWorker(s, s', w) && s'.events == s.events && !s'.workers[w].Idle?
             && (s'.workers[w].Appending? <==> t.state != Compensating)
             && (s'.workers[w].Appending? ==> s'.workers[w].t == t)
    ensures EventsAgree(g, s')
  {
    var t := Pc(s, w).t;
    forall id | id in s'.book.history ensures Consistent(g, s.events, s'.book.history[id], id, Owed(s', id)) {
      OnlyMine(s, w, id);
      OnlyMine(s', w, id);
      if id == t.id {
        Advance(g, s.events, s.book.history[id], t, id);
      }
    }
  }

  lemma AgreeWorker(g: Regime, s: System, w: WorkerId, x: WorkerStep)
    requires Core(s) && Awake(s) && Unannounced(s) && EventsAgree(g, s) && Alone(s) && CopiesCurrent(s)
    requires WorkerEnabled(s, w, x) && (x.Abort? ==> g.faults)
    ensures EventsAgree(g, NextWorker(s, w, x))
  {
    if x.Update? {
      AgreeUpdate(g, s, w);
    } else if x.Append? {
      AgreeAppend(g, s, w);
    } else if x.Post? || x.Ask? {
      AgreeBook(g, s, w, x);
    } else if x.Write? || x.Ack? {
      AgreeSame(g, s, w, NextWorker(s, w, x));
    } else if x.Abort? && Pc(s, w).Appending? {
      AgreeAbort(g, s, w);
    } else {
      AgreeRead(g, s, w, x);
    }
  }

  // ---- Create handler ----

  lemma FirstVersionOwed(g: Regime, events: seq<Event>, row: Row)
    requires row.state == Pending && forall i :: 0 <= i < |events| ==> events[i].id != row.id
    ensures Consistent(g, events, [row], row.id, true)
  {
    NoEvents(events, row.id);
    assert [row][..0] == [];
    assert StatesOf([]) == [];
  }

  lemma AgreeSaved(g: Regime, events: seq<Event>, history: map<TransferId, seq<Row>>,
                   handlers: map<TransferId, HandlerPc>, workers: map<WorkerId, WorkerPc>, row: Row)
    requires AgreeOf(g, events, history, handlers, workers)
    requires row.id !in history && row.state == Pending
    requires forall i :: 0 <= i < |events| ==> events[i].id != row.id
    ensures AgreeOf(g, events, history[row.id := [row]], handlers[row.id := Saved], workers)
  {
    FirstVersionOwed(g, events, row);
    forall i | i in history
      ensures Consistent(g, events, history[i], i, OwedBy(handlers[row.id := Saved], workers, i))
    {
      assert HandlerOwes(handlers[row.id := Saved], i) == HandlerOwes(handlers, i);
    }
  }

  lemma AgreeSave(g: Regime, s: System, row: Row)
    requires Unannounced(s) && EventsAgree(g, s) && HandlerEnabled(s, Save(row))
    ensures EventsAgree(g, NextHandler(s, Save(row)))
  {
    AgreeSaved(g, s.events, s.book.history, s.handlers, s.workers, row);
  }

  lemma AgreeLogged(g: Regime, events: seq<Event>, history: map<TransferId, seq<Row>>,
                    handlers: map<TransferId, HandlerPc>, workers: map<WorkerId, WorkerPc>, id: TransferId)
    requires AgreeOf(g, events, history, handlers, workers)
    requires HandlerOwes(handlers, id) && !AppendingFor(workers, id)
    requires id in history && |history[id]| == 1 && history[id][0].state == Pending
    ensures AgreeOf(g, events + [Event(id, TransferRequested, Pending)], history, handlers[id := Logged], workers)
  {
    forall i | i != id ensures OwedBy(handlers[id := Logged], workers, i) == OwedBy(handlers, workers, i) {
      assert HandlerOwes(handlers[id := Logged], i) == HandlerOwes(handlers, i);
    }
    AgreeAnnounced(g, events, history, handlers, workers, handlers[id := Logged], workers, id);
  }

  lemma AgreeRequested(g: Regime, s: System, id: TransferId)
    requires Core(s) && Awake(s) && Unannounced(s) && EventsAgree(g, s) && HandlerEnabled(s, AppendRequested(id))
    ensures EventsAgree(g, NextHandler(s, AppendRequested(id)))
  {
    NobodyOn(s, id);
    FirstIsPending(s, id);
    AgreeLogged(g, s.events, s.book.history, s.handlers, s.workers, id);
  }

  lemma FirstIsPending(s: System, id: TransferId)
    requires Core(s) && id in s.book.history && |s.book.history[id]| == 1
    ensures s.book.history[id][0].state == Pending
  {
    assert Path(s.book.history[id]);
  }

  /** No worker is on a transfer whose first outbox row does not exist yet. */
  lemma NobodyOn(s: System, id: TransferId)
    requires Core(s) && Awake(s) && Unannounced(s) && id in s.handlers && s.handlers[id] != Gone
    ensures !AppendingFor(s.workers, id)
  {
    if AppendingFor(s.workers, id) {
      var w :| w in s.workers && s.workers[w].Appending? && s.workers[w].t.id == id;
      CopyAnnounced(s, w);
    }
  }

  lemma AgreeHandlerLeaves(g: Regime, events: seq<Event>, history: map<TransferId, seq<Row>>,
                           handlers: map<TransferId, HandlerPc>, workers: map<WorkerId, WorkerPc>, id: TransferId)
    requires AgreeOf(g, events, history, handlers, workers)
    requires HandlerOwes(handlers, id) ==> g.faults && id in history
    ensures AgreeOf(g, events, history, handlers[id := Gone], workers)
  {
    assert forall i :: i != id ==> OwedBy(handlers[id := Gone], workers, i) == OwedBy(handlers, workers, i);
    if HandlerOwes(handlers, id) && !OwedBy(handlers[id := Gone], workers, id) {
      assert Consistent(g, events, history[id], id, true);
      Forget(g, events, history[id], id);
    }
  }

  lemma AgreeHandler(g: Regime, s: System, h: HandlerStep)
    requires Core(s) && Awake(s) && Unannounced(s) && EventsAgree(g, s)
    requires HandlerEnabled(s, h) && (h.HandlerGone? ==> g.faults)
    ensures EventsAgree(g, NextHandler(s, h))
  {
    match h {
      case Save(row) => AgreeSave(g, s, row);
      case AppendRequested(id) => AgreeRequested(g, s, id);
      case HandlerGone(id) => AgreeHandlerLeaves(g, s.events, s.book.history, s.handlers, s.workers, id);
      case WriteRequested(id) => AgreeHandlerLeaves(g, s.events, s.book.history, s.handlers, s.workers, id);
    }
  }

  lemma AgreeRelay(g: Regime, s: System, r: RelayId, y: RelayStep)
    requires EventsAgree(g, s) && RelayEnabled(s, r, y)
    ensures EventsAgree(g, NextRelay(s, r, y))
  {
  }

  lemma AgreeStep(g: Regime, s: System, a: Action)
    requires Core(s) && Awake(s) && Unannounced(s) && EventsAgree(g, s) && Alone(s) && CopiesCurrent(s)
    requires StepOk(g, s, a)
    ensures EventsAgree(g, Next(s, a))
  {
    match a {
      case Worker(w, x) => AgreeWorker(g, s, w, x);
      case Handler(h) => AgreeHandler(g, s, h);
      case Relay(r, y) => AgreeRelay(g, s, r, y);
      case SetStatus(_, _) =>
    }
  }

  lemma {:induction false} AgreeRun(g: Regime, s0: System, acts: seq<Action>, s: System)
    requires Single(g) && Init(s0) && Run(g, s0, acts, s)
    ensures EventsAgree(g, s)
    decreases |acts|
  {
    if |acts| > 0 {
      var n := |acts| - 1;
      var m :| Run(g, s0, acts[..n], m) && StepOk(g, m, acts[n]) && s == Next(m, acts[n]);
      AgreeRun(g, s0, acts[..n], m);
      AwakeRun(g, s0, acts[..n], m);
      UnannouncedRun(g, s0, acts[..n], m);
      SingleRun(g, s0, acts[..n], m);
      AgreeStep(g, m, acts[n]);
    }
  }

  // ---- Theorems ----

  /**
   One message at a time, crashes anywhere: the events of a transfer are, in order,
   some of the states its row went through, each at most once.
   */
  lemma EventsFollowTheRow(s0: System, acts: seq<Action>, s: System, id: TransferId)
    requires Init(s0) && Run(ONE_AT_A_TIME, s0, acts, s) && id in s.book.rows
    ensures id in s.book.history && Subsequence(EventStates(s.events, id), StatesOf(s.book.history[id]))
    ensures Once(EventStates(s.events, id))
  {
    AgreeRun(ONE_AT_A_TIME, s0, acts, s);
    CoreRun(ONE_AT_A_TIME, s0, acts, s);
    var h := s.book.history[id];
    if Owed(s, id) {
      Forget(ONE_AT_A_TIME, s.events, h, id);
    }
    PathOnce(h);
    SubsequenceOnce(EventStates(s.events, id), StatesOf(h));
  }

  /**
   Without faults, whenever nobody is about to append an event of the transfer, its
   events are exactly the states of its path except COMPENSATING, whatever other
   transfers are being processed.
   */
  lemma EventsAreThePath(s0: System, acts: seq<Action>, s: System, id: TransferId)
    requires Init(s0) && Run(FAULT_FREE, s0, acts, s) && id in s.book.rows && !Owed(s, id)
    ensures id in s.book.history && EventStates(s.events, id) == Announced(StatesOf(s.book.history[id]))
  {
    CoreRun(FAULT_FREE, s0, acts, s);
    AgreeRun(FAULT_FREE, s0, acts, s);
  }
}
