/**
 Idempotent creation of transfers: any number of Handle calls interleave at their
 port calls with each other and with the rest of the engine, each may fail or stop,
 and cached replies expire at any time. The UNIQUE index on the idempotency key, not
 the cache, is what keeps creation idempotent; and because a miss never looks the
 key up in the table, a key whose reply is gone can never succeed again.
 */
module CreateTransfer {
  import opened Ledger
  import opened Transfers
  import P = Protocol
  import History

  type CallId = nat

  /** Where a Handle call stands; past Save it carries the transfer it created. */
  datatype CallPc =
    | Asking(key: string)
    | Building(key: string)
    | Saving(row: Row)
    | Logging(key: string, id: TransferId)
    | Enqueuing(key: string, id: TransferId)
    | Caching(key: string, id: TransferId)
    | Ended

  predicate PastSave(pc: CallPc) {
    pc.Logging? || pc.Enqueuing? || pc.Caching?
  }

  /** The call still owes the transfer its first event or outbox row. */
  predicate Owing(pc: CallPc) {
    pc.Logging? || pc.Enqueuing?
  }

  /** A successful reply to the client. */
  datatype Answer = Answer(key: string, id: TransferId, cached: bool)

  /** The engine of `Protocol` together with the idempotency cache and the calls in progress. */
  datatype World = World(
    sys: P.System,
    cache: map<string, TransferId>,
    calls: map<CallId, CallPc>,
    answers: seq<Answer>)

  datatype Step =
    | Begin(c: CallId, key: string)
    | Get(c: CallId)
    | Build(c: CallId, id: TransferId, src: AccountId, dst: AccountId, amount: Money)
    | Save(c: CallId)
    | Log(c: CallId)
    | Enqueue(c: CallId)
    | SetIfAbsent(c: CallId, answered: bool)
    | Stop(c: CallId)
    | Expire(key: string)
    | Elsewhere(a: P.Action)

  function At(s: World, c: CallId): CallPc {
    if c in s.calls then s.calls[c] else Ended
  }

  predicate KeyTaken(rows: map<TransferId, Row>, key: string) {
    exists id :: id in rows && rows[id].key == key
  }

  /** What INSERT INTO transfers demands: a new id and a new idempotency key. */
  predicate Insertable(rows: map<TransferId, Row>, row: Row) {
    row.id !in rows && !KeyTaken(rows, row.key)
  }

  predicate Enabled(s: World, a: Step) {
    match a
    case Begin(c, _) => c !in s.calls
    case Get(c) => At(s, c).Asking?
    case Build(c, _, _, _, _) => At(s, c).Building?
    case Save(c) => At(s, c).Saving? && At(s, c).row.Fresh()
    case Log(c) => At(s, c).Logging? && P.HandlerEnabled(s.sys, P.AppendRequested(At(s, c).id))
    case Enqueue(c) => At(s, c).Enqueuing? && P.HandlerEnabled(s.sys, P.WriteRequested(At(s, c).id))
    case SetIfAbsent(c, _) => At(s, c).Caching?
    case Stop(c) => c in s.calls && (Owing(At(s, c)) ==> P.HandlerEnabled(s.sys, P.HandlerGone(At(s, c).id)))
    case Expire(_) => true
    case Elsewhere(a) => !a.Handler? && P.Enabled(s.sys, a)
  }

  function Goto(s: World, c: CallId, pc: CallPc): World {
    s.(calls := s.calls[c := pc])
  }

  /** checkIdempotency: a hit is answered from the cache. */
  function NextGet(s: World, c: CallId): World
    requires At(s, c).Asking?
  {
    var key := At(s, c).key;
    if key in s.cache then Goto(s, c, Ended).(answers := s.answers + [Answer(key, s.cache[key], true)])
    else Goto(s, c, Building(key))
  }

  function NextBuild(s: World, c: CallId, id: TransferId, src: AccountId, dst: AccountId, amount: Money): World
    requires At(s, c).Building?
  {
    match NewRow(id, At(s, c).key, src, dst, amount)
    case Ok(row) => Goto(s, c, Saving(row))
    case Err => Goto(s, c, Ended)
  }

  /** transfers.Save: an id or key that is taken is an error. */
  function NextSave(s: World, c: CallId): World
    requires At(s, c).Saving? && At(s, c).row.Fresh()
  {
    var row := At(s, c).row;
    if Insertable(s.sys.book.rows, row) then
      Goto(s, c, Logging(row.key, row.id)).(sys := P.NextHandler(s.sys, P.Save(row)))
    else Goto(s, c, Ended)
  }

  /** cacheResult: the first writer wins, and the call succeeds either way unless the store's answer is lost. */
  function NextSet(s: World, c: CallId, answered: bool): World
    requires At(s, c).Caching?
  {
    var pc := At(s, c);
    Goto(s, c, Ended).(
      cache := if pc.key in s.cache then s.cache else s.cache[pc.key := pc.id],
      answers := if answered then s.answers + [Answer(pc.key, pc.id, false)] else s.answers)
  }

  /** An error return or a crash; after Save the transfer is then left as it is. */
  function NextStop(s: World, c: CallId): World
    requires Enabled(s, Stop(c))
  {
    var pc := At(s, c);
    if Owing(pc) then Goto(s, c, Ended).(sys := P.NextHandler(s.sys, P.HandlerGone(pc.id))) else Goto(s, c, Ended)
  }

  function Next(s: World, a: Step): World
    requires Enabled(s, a)
  {
    match a
    case Begin(c, key) => Goto(s, c, Asking(key))
    case Get(c) => NextGet(s, c)
    case Build(c, id, src, dst, amount) => NextBuild(s, c, id, src, dst, amount)
    case Save(c) => NextSave(s, c)
    case Log(c) =>
      var pc := At(s, c);
      Goto(s, c, Enqueuing(pc.key, pc.id)).(sys := P.NextHandler(s.sys, P.AppendRequested(pc.id)))
    case Enqueue(c) =>
      var pc := At(s, c);
      Goto(s, c, Caching(pc.key, pc.id)).(sys := P.NextHandler(s.sys, P.WriteRequested(pc.id)))
    case SetIfAbsent(c, answered) => NextSet(s, c, answered)
    case Stop(c) => NextStop(s, c)
    case Expire(key) => s.(cache := s.cache - {key})
    case Elsewhere(a) => s.(sys := P.Next(s.sys, a))
  }

  ghost predicate Run(s: World, acts: seq<Step>, s': World)
    decreases |acts|
  {
    if |acts| == 0 then s' == s
    else
      var n := |acts| - 1;
      exists m :: Run(s, acts[..n], m) && Enabled(m, acts[n]) && s' == Next(m, acts[n])
  }

  /** One link of a trace. */
  predicate LinkOk(states: seq<World>, acts: seq<Step>, i: nat)
    requires i < |acts| && |states| == |acts| + 1
  {
    Enabled(states[i], acts[i]) && states[i + 1] == Next(states[i], acts[i])
  }

  /** A run with all its intermediate states. */
  ghost predicate Trace(states: seq<World>, acts: seq<Step>) {
    |states| == |acts| + 1 && forall i :: 0 <= i < |acts| ==> LinkOk(states, acts, i)
  }

  lemma TraceSnoc(states: seq<World>, acts: seq<Step>, a: Step)
    requires Trace(states, acts) && Enabled(states[|acts|], a)
    ensures Trace(states + [Next(states[|acts|], a)], acts + [a])
  {
    var states' := states + [Next(states[|acts|], a)];
    forall i | 0 <= i < |acts + [a]| ensures LinkOk(states', acts + [a], i) {
      if i < |acts| {
        assert LinkOk(states, acts, i);
      }
    }
  }

  lemma RunSnoc(s: World, acts: seq<Step>, m: World, a: Step)
    requires Run(s, acts, m) && Enabled(m, a)
    ensures Run(s, acts + [a], Next(m, a))
  {
    assert (acts + [a])[..|acts|] == acts;
  }

  lemma TracePrefix(states: seq<World>, acts: seq<Step>)
    requires Trace(states, acts) && |acts| > 0
    ensures Trace(states[..|acts|], acts[..|acts| - 1])
  {
    var n := |acts| - 1;
    forall i | 0 <= i < n ensures LinkOk(states[..|acts|], acts[..n], i) {
      assert LinkOk(states, acts, i);
    }
  }

  lemma RunLast(s: World, acts: seq<Step>, m: World, s': World)
    requires |acts| > 0 && Run(s, acts[..|acts| - 1], m) && Enabled(m, acts[|acts| - 1])
    requires s' == Next(m, acts[|acts| - 1])
    ensures Run(s, acts, s')
  {
  }

  /** The last link takes a run to the last state but one on to the last state. */
  lemma TraceLast(states: seq<World>, acts: seq<Step>)
    requires Trace(states, acts) && |acts| > 0
    requires Run(states[0], acts[..|acts| - 1], states[|acts| - 1])
    ensures Run(states[0], acts, states[|acts|])
  {
    var n := |acts| - 1;
    assert LinkOk(states, acts, n);
    RunLast(states[0], acts, states[n], states[n + 1]);
  }

  lemma {:induction false} TraceIsRun(states: seq<World>, acts: seq<Step>)
    requires Trace(states, acts)
    ensures Run(states[0], acts, states[|acts|])
    decreases |acts|
  {
    if |acts| > 0 {
      TracePrefix(states, acts);
      TraceIsRun(states[..|acts|], acts[..|acts| - 1]);
      TraceLast(states, acts);
    }
  }

  ghost predicate Init(s: World) {
    P.Init(s.sys) && s == World(s.sys, map[], map[], [])
  }

  // ---- Creation is part of the protocol ----

  /** The protocol actions a step performs: one or none. */
  function Image(s: World, a: Step): seq<P.Action>
    requires Enabled(s, a)
  {
    match a
    case Save(c) => if Insertable(s.sys.book.rows, At(s, c).row) then [P.Handler(P.Save(At(s, c).row))] else []
    case Log(c) => [P.Handler(P.AppendRequested(At(s, c).id))]
    case Enqueue(c) => [P.Handler(P.WriteRequested(At(s, c).id))]
    case Stop(c) => if Owing(At(s, c)) then [P.Handler(P.HandlerGone(At(s, c).id))] else []
    case Elsewhere(a) => [a]
    case _ => []
  }

  lemma ImageStep(s: World, a: Step)
    requires Enabled(s, a)
    ensures Image(s, a) == [] ==> Next(s, a).sys == s.sys
    ensures Image(s, a) != [] ==>
              var x := Image(s, a)[0];
              Image(s, a) == [x] && P.StepOk(P.ANY, s.sys, x) && Next(s, a).sys == P.Next(s.sys, x)
  {
  }

  /** Whatever the create handlers do, the engine underneath makes a run of the protocol. */
  lemma {:induction false} CreationRefinesProtocol(s0: World, acts: seq<Step>, s: World) returns (image: seq<P.Action>)
    requires Run(s0, acts, s)
    ensures P.Run(P.ANY, s0.sys, image, s.sys)
    decreases |acts|
  {
    image := [];
    if |acts| > 0 {
      var n := |acts| - 1;
      var m :| Run(s0, acts[..n], m) && Enabled(m, acts[n]) && s == Next(m, acts[n]);
      image := CreationRefinesProtocol(s0, acts[..n], m);
      ImageStep(m, acts[n]);
      if Image(m, acts[n]) != [] {
        P.RunSnoc(P.ANY, s0.sys, image, m.sys, Image(m, acts[n])[0]);
        image := image + Image(m, acts[n]);
      }
    }
  }

  // ---- The invariant ----

  /** The transfer with this id was created under this key. */
  predicate Created(rows: map<TransferId, Row>, key: string, id: TransferId) {
    id in rows && rows[id].key == key
  }

  ghost predicate Keyed(rows: map<TransferId, Row>) {
    && (forall i, j :: i in rows && j in rows && rows[i].key == rows[j].key ==> i == j)
    && (forall id :: id in rows ==> rows[id].id == id && rows[id].key != "")
  }

  predicate CallOk(rows: map<TransferId, Row>, handlers: map<TransferId, P.HandlerPc>, pc: CallPc) {
    && (pc.Saving? ==> pc.row.Fresh())
    && (PastSave(pc) ==> Created(rows, pc.key, pc.id))
    && (pc.Logging? ==> pc.id in handlers && handlers[pc.id] == P.Saved)
    && (pc.Enqueuing? ==> pc.id in handlers && handlers[pc.id] == P.Logged)
  }

  predicate SameTransfer(a: CallPc, b: CallPc) {
    PastSave(a) && PastSave(b) && a.id == b.id
  }

  /** A created transfer belongs to the one call that created it. */
  ghost predicate Separate(calls: map<CallId, CallPc>) {
    forall c, d :: c in calls && d in calls && SameTransfer(calls[c], calls[d]) ==> c == d
  }

  ghost predicate CallsOk(rows: map<TransferId, Row>, handlers: map<TransferId, P.HandlerPc>,
                          calls: map<CallId, CallPc>)
  {
    Separate(calls) && forall c :: c in calls ==> CallOk(rows, handlers, calls[c])
  }

  ghost predicate RepliesOk(rows: map<TransferId, Row>, cache: map<string, TransferId>, answers: seq<Answer>) {
    && (forall key :: key in cache ==> Created(rows, key, cache[key]))
    && (forall i :: 0 <= i < |answers| ==> Created(rows, answers[i].key, answers[i].id))
  }

  ghost predicate Idempotent(s: World) {
    && Keyed(s.sys.book.rows)
    && CallsOk(s.sys.book.rows, s.sys.handlers, s.calls)
    && RepliesOk(s.sys.book.rows, s.cache, s.answers)
  }

  /** Same transfers under the same keys. */
  ghost predicate SameKeys(rows: map<TransferId, Row>, rows': map<TransferId, Row>) {
    rows'.Keys == rows.Keys && forall id :: id in rows ==> rows'[id].key == rows[id].key && rows'[id].id == rows[id].id
  }

  lemma UpdateKeepsKeys(s: P.System, w: P.WorkerId)
    requires P.WorkerEnabled(s, w, P.Update) && Keyed(s.book.rows)
    ensures P.NextUpdate(s, w).handlers == s.handlers && SameKeys(s.book.rows, P.NextUpdate(s, w).book.rows)
  {
  }

  lemma WorkerKeepsKeys(s: P.System, w: P.WorkerId, x: P.WorkerStep)
    requires P.WorkerEnabled(s, w, x) && Keyed(s.book.rows)
    ensures SameKeys(s.book.rows, P.NextWorker(s, w, x).book.rows)
  {
    if x.Update? {
      UpdateKeepsKeys(s, w);
    } else {
      History.TableFrame(s, w, x);
    }
  }

  lemma WorkerKeepsHandlers(s: P.System, w: P.WorkerId, x: P.WorkerStep)
    requires P.WorkerEnabled(s, w, x)
    ensures P.NextWorker(s, w, x).handlers == s.handlers
  {
  }

  /** Outside the handlers only UpdateState writes rows, and it leaves id and key alone. */
  lemma ElsewhereKeepsKeys(s: P.System, a: P.Action)
    requires P.Enabled(s, a) && !a.Handler? && Keyed(s.book.rows)
    ensures P.Next(s, a).handlers == s.handlers && SameKeys(s.book.rows, P.Next(s, a).book.rows)
  {
    match a
    case Worker(w, x) => WorkerKeepsKeys(s, w, x); WorkerKeepsHandlers(s, w, x);
    case Relay(r, y) => assert P.Next(s, a) == P.NextRelay(s, r, y);
    case SetStatus(_, _) =>
  }

  lemma IdempotentElsewhere(s: World, a: P.Action)
    requires Idempotent(s) && Enabled(s, Elsewhere(a))
    ensures Idempotent(Next(s, Elsewhere(a)))
  {
    ElsewhereKeepsKeys(s.sys, a);
  }

  lemma SavedKeyed(rows: map<TransferId, Row>, row: Row)
    requires Keyed(rows) && row.Fresh() && Insertable(rows, row)
    ensures Keyed(rows[row.id := row])
  {
  }

  /** The new transfer is no other call's transfer. */
  lemma SavedCalls(rows: map<TransferId, Row>, handlers: map<TransferId, P.HandlerPc>, calls: map<CallId, CallPc>,
                   c: CallId, row: Row)
    requires CallsOk(rows, handlers, calls) && row.Fresh() && Insertable(rows, row)
    ensures CallsOk(rows[row.id := row], handlers[row.id := P.Saved], calls[c := Logging(row.key, row.id)])
  {
  }

  lemma IdempotentSave(s: World, c: CallId)
    requires Idempotent(s) && Enabled(s, Save(c))
    ensures Idempotent(NextSave(s, c))
  {
    var row := At(s, c).row;
    if Insertable(s.sys.book.rows, row) {
      SavedKeyed(s.sys.book.rows, row);
      SavedCalls(s.sys.book.rows, s.sys.handlers, s.calls, c, row);
      assert NextSave(s, c).sys == P.NextHandler(s.sys, P.Save(row));
    }
  }

  /** A call that moves on with its own transfer disturbs no other call. */
  lemma MovedCalls(rows: map<TransferId, Row>, handlers: map<TransferId, P.HandlerPc>, calls: map<CallId, CallPc>,
                   c: CallId, pc: CallPc, h: P.HandlerPc)
    requires CallsOk(rows, handlers, calls) && c in calls && PastSave(calls[c]) && PastSave(pc)
    requires pc.id == calls[c].id && CallOk(rows, handlers[pc.id := h], pc)
    ensures CallsOk(rows, handlers[pc.id := h], calls[c := pc])
  {
  }

  lemma IdempotentLog(s: World, c: CallId)
    requires Idempotent(s) && Enabled(s, Log(c))
    ensures Idempotent(Next(s, Log(c)))
  {
    var pc := At(s, c);
    MovedCalls(s.sys.book.rows, s.sys.handlers, s.calls, c, Enqueuing(pc.key, pc.id), P.Logged);
    assert Next(s, Log(c)).sys == P.NextHandler(s.sys, P.AppendRequested(pc.id));
  }

  lemma IdempotentEnqueue(s: World, c: CallId)
    requires Idempotent(s) && Enabled(s, Enqueue(c))
    ensures Idempotent(Next(s, Enqueue(c)))
  {
    var pc := At(s, c);
    MovedCalls(s.sys.book.rows, s.sys.handlers, s.calls, c, Caching(pc.key, pc.id), P.Gone);
    assert Next(s, Enqueue(c)).sys == P.NextHandler(s.sys, P.WriteRequested(pc.id));
  }

  /** A call that stops gives up its own transfer only. */
  lemma StoppedCalls(rows: map<TransferId, Row>, handlers: map<TransferId, P.HandlerPc>, calls: map<CallId, CallPc>,
                     c: CallId)
    requires CallsOk(rows, handlers, calls) && c in calls && Owing(calls[c])
    ensures CallsOk(rows, handlers[calls[c].id := P.Gone], calls[c := Ended])
  {
  }

  lemma IdempotentStop(s: World, c: CallId)
    requires Idempotent(s) && Enabled(s, Stop(c))
    ensures Idempotent(NextStop(s, c))
  {
    var pc := At(s, c);
    if Owing(pc) {
      StoppedCalls(s.sys.book.rows, s.sys.handlers, s.calls, c);
      assert NextStop(s, c).sys == P.NextHandler(s.sys, P.HandlerGone(pc.id));
    } else {
      CallGoes(s.sys.book.rows, s.sys.handlers, s.calls, c, Ended);
    }
  }

  /** A call that is not past Save goes elsewhere, or any call ends. */
  lemma CallGoes(rows: map<TransferId, Row>, handlers: map<TransferId, P.HandlerPc>, calls: map<CallId, CallPc>,
                 c: CallId, pc: CallPc)
    requires CallsOk(rows, handlers, calls) && !PastSave(pc) && CallOk(rows, handlers, pc)
    ensures CallsOk(rows, handlers, calls[c := pc])
  {
  }

  lemma IdempotentReply(s: World, a: Step)
    requires Idempotent(s) && (a.Get? || a.SetIfAbsent?) && Enabled(s, a)
    ensures Idempotent(Next(s, a))
  {
    var pc := At(Next(s, a), a.c);
    CallGoes(s.sys.book.rows, s.sys.handlers, s.calls, a.c, pc);
    assert Next(s, a).calls == s.calls[a.c := pc];
    assert CallOk(s.sys.book.rows, s.sys.handlers, s.calls[a.c]);
  }

  lemma IdempotentLocal(s: World, a: Step)
    requires Idempotent(s) && (a.Begin? || a.Build?) && Enabled(s, a)
    ensures Idempotent(Next(s, a))
  {
    CallGoes(s.sys.book.rows, s.sys.handlers, s.calls, a.c, At(Next(s, a), a.c));
    assert Next(s, a) == Goto(s, a.c, At(Next(s, a), a.c));
  }

  lemma IdempotentStep(s: World, a: Step)
    requires Idempotent(s) && Enabled(s, a)
    ensures Idempotent(Next(s, a))
  {
    match a
    case Save(c) => IdempotentSave(s, c);
    case Log(c) => IdempotentLog(s, c);
    case Enqueue(c) => IdempotentEnqueue(s, c);
    case Elsewhere(x) => IdempotentElsewhere(s, x);
    case Get(_) => IdempotentReply(s, a);
    case SetIfAbsent(_, _) => IdempotentReply(s, a);
    case Stop(c) => IdempotentStop(s, c);
    case Expire(_) =>
    case _ => IdempotentLocal(s, a);
  }

  lemma {:induction false} IdempotentRun(s0: World, acts: seq<Step>, s: World)
    requires Idempotent(s0) && Run(s0, acts, s)
    ensures Idempotent(s)
    decreases |acts|
  {
    if |acts| > 0 {
      var n := |acts| - 1;
      var m :| Run(s0, acts[..n], m) && Enabled(m, acts[n]) && s == Next(m, acts[n]);
      IdempotentRun(s0, acts[..n], m);
      IdempotentStep(m, acts[n]);
    }
  }

  /**
   One transfer per idempotency key, for any interleaving of calls, failures and cache
   expiries: at most one row has the key, every cached reply names it, and all
   successful replies carry its id.
   */
  lemma OneTransferPerKey(s0: World, acts: seq<Step>, s: World, key: string, i: nat, j: nat)
    requires Init(s0) && Run(s0, acts, s)
    ensures forall a, b :: Created(s.sys.book.rows, key, a) && Created(s.sys.book.rows, key, b) ==> a == b
    ensures key in s.cache ==> Created(s.sys.book.rows, key, s.cache[key])
    ensures i < |s.answers| && j < |s.answers| && s.answers[i].key == s.answers[j].key ==>
              s.answers[i].id == s.answers[j].id
  {
    IdempotentRun(s0, acts, s);
  }

  // ---- When a key can still be answered ----

  /** A call that created the key's transfer is still on its way to the client. */
  ghost predicate InProgress(s: World, key: string) {
    exists c :: c in s.calls && PastSave(s.calls[c]) && s.calls[c].key == key
  }

  /** A cached reply, a creating call in progress, or a key that is still free. */
  ghost predicate Answerable(s: World, key: string) {
    key in s.cache || InProgress(s, key) || (key != "" && !KeyTaken(s.sys.book.rows, key))
  }

  /** Between `s` and `s'` the key was answered successfully. */
  ghost predicate AnsweredSince(s: World, s': World, key: string) {
    exists i :: |s.answers| <= i < |s'.answers| && s'.answers[i].key == key
  }

  /** Transfers stay under their keys. */
  ghost predicate KeysGrow(rows: map<TransferId, Row>, rows': map<TransferId, Row>) {
    forall id :: id in rows ==> id in rows' && rows'[id].key == rows[id].key
  }

  lemma StepKeysGrow(s: World, a: Step)
    requires Idempotent(s) && Enabled(s, a)
    ensures KeysGrow(s.sys.book.rows, Next(s, a).sys.book.rows)
  {
    match a
    case Elsewhere(x) => ElsewhereKeepsKeys(s.sys, x);
    case Save(c) => assert Next(s, a) == NextSave(s, c);
    case Log(c) => assert Next(s, a).sys.book == s.sys.book;
    case Enqueue(c) => assert Next(s, a).sys.book == s.sys.book;
    case Stop(c) => assert Next(s, a).sys.book == s.sys.book;
    case _ => assert Next(s, a).sys == s.sys;
  }

  lemma TakenStays(rows: map<TransferId, Row>, rows': map<TransferId, Row>, key: string)
    requires KeysGrow(rows, rows') && KeyTaken(rows, key)
    ensures KeyTaken(rows', key)
  {
    var id :| id in rows && rows[id].key == key;
    assert id in rows' && rows'[id].key == key;
  }

  /** A step neither caches a reply for the key nor answers it nor creates its transfer. */
  lemma SpentReplies(s: World, a: Step, key: string)
    requires Idempotent(s) && Enabled(s, a) && !Answerable(s, key)
    ensures key !in Next(s, a).cache && !InProgress(Next(s, a), key)
    ensures s.answers <= Next(s, a).answers && !AnsweredSince(s, Next(s, a), key)
  {
    match a
    case Save(c) => assert Next(s, a) == NextSave(s, c);
    case Elsewhere(_) => assert Next(s, a).calls == s.calls;
    case _ =>
  }

  lemma SpentStep(s: World, a: Step, key: string)
    requires Idempotent(s) && Enabled(s, a) && !Answerable(s, key)
    ensures !Answerable(Next(s, a), key)
    ensures s.answers <= Next(s, a).answers && !AnsweredSince(s, Next(s, a), key)
  {
    SpentReplies(s, a, key);
    if key != "" {
      StepKeysGrow(s, a);
      TakenStays(s.sys.book.rows, Next(s, a).sys.book.rows, key);
    }
  }

  lemma {:induction false} SpentForever(s: World, acts: seq<Step>, s': World, key: string)
    requires Idempotent(s) && Run(s, acts, s') && !Answerable(s, key)
    ensures !Answerable(s', key) && s.answers <= s'.answers && !AnsweredSince(s, s', key)
    decreases |acts|
  {
    if |acts| > 0 {
      var n := |acts| - 1;
      var m :| Run(s, acts[..n], m) && Enabled(m, acts[n]) && s' == Next(m, acts[n]);
      IdempotentRun(s, acts[..n], m);
      SpentForever(s, acts[..n], m, key);
      SpentStep(m, acts[n], key);
    }
  }

  ghost predicate Leads(s: World, s': World) {
    exists acts :: Run(s, acts, s')
  }

  lemma LeadsNowhere(s: World)
    ensures Leads(s, s)
  {
    assert Run(s, [], s);
  }

  lemma LeadsOn(s: World, m: World, a: Step)
    requires Leads(s, m) && Enabled(m, a)
    ensures Leads(s, Next(m, a))
  {
    var acts :| Run(s, acts, m);
    RunSnoc(s, acts, m, a);
  }

  lemma {:induction false} Unused(used: set<nat>) returns (n: nat)
    ensures forall m :: m in used ==> m < n
    decreases |used|
  {
    n := 0;
    if used != {} {
      var x :| x in used;
      n := Unused(used - {x});
      assert forall m :: m in used ==> m == x || m in used - {x};
      n := if n > x then n else x + 1;
    }
  }

  /** A call past Save can run to its reply. */
  lemma FinishCall(s: World, m: World, c: CallId) returns (s': World)
    requires Idempotent(m) && Leads(s, m) && PastSave(At(m, c)) && |s.answers| <= |m.answers|
    ensures Leads(s, s') && AnsweredSince(s, s', At(m, c).key)
    decreases if At(m, c).Logging? then 2 else if At(m, c).Enqueuing? then 1 else 0
  {
    var a := if At(m, c).Logging? then Log(c) else if At(m, c).Enqueuing? then Enqueue(c) else SetIfAbsent(c, true);
    IdempotentStep(m, a);
    LeadsOn(s, m, a);
    s' := Next(m, a);
    if a.SetIfAbsent? {
      assert s'.answers[|m.answers|].key == At(m, c).key;
    } else {
      s' := FinishCall(s, s', c);
    }
  }

  /** A new call that misses the cache under a free key creates its transfer. */
  lemma CreateNow(s: World, m: World, c: CallId) returns (s': World)
    requires Idempotent(m) && Leads(s, m) && |s.answers| <= |m.answers| && At(m, c).Building?
    requires At(m, c).key != "" && !KeyTaken(m.sys.book.rows, At(m, c).key)
    ensures Leads(s, s') && AnsweredSince(s, s', At(m, c).key)
  {
    var id := Unused(m.sys.book.rows.Keys);
    var build := Build(c, id, 3, 4, Money(1, IDR));
    IdempotentStep(m, build);
    LeadsOn(s, m, build);
    var b := Next(m, build);
    IdempotentStep(b, Save(c));
    LeadsOn(s, b, Save(c));
    s' := FinishCall(s, Next(b, Save(c)), c);
  }

  lemma AnswerNow(s: World, key: string) returns (s': World)
    requires Idempotent(s) && Answerable(s, key)
    ensures Leads(s, s') && AnsweredSince(s, s', key)
  {
    LeadsNowhere(s);
    if key !in s.cache && InProgress(s, key) {
      var c :| c in s.calls && PastSave(s.calls[c]) && s.calls[c].key == key;
      s' := FinishCall(s, s, c);
    } else {
      var c := Unused(s.calls.Keys);
      IdempotentStep(s, Begin(c, key));
      LeadsOn(s, s, Begin(c, key));
      var b := Next(s, Begin(c, key));
      IdempotentStep(b, Get(c));
      LeadsOn(s, b, Get(c));
      s' := Next(b, Get(c));
      if key in s.cache {
        assert s'.answers[|s.answers|].key == key;
      } else {
        s' := CreateNow(s, s', c);
      }
    }
  }

  /**
   From any reachable state a key can still be answered successfully if and only if
   its reply is cached, its creating call is in progress, or no transfer has it. Once
   the reply has expired, or a handler stopped between Save and the cache, every retry
   fails for ever.
   */
  lemma AnswerableExactly(s0: World, acts: seq<Step>, s: World, key: string)
    requires Init(s0) && Run(s0, acts, s)
    ensures (exists s' :: Leads(s, s') && AnsweredSince(s, s', key)) <==> Answerable(s, key)
  {
    IdempotentRun(s0, acts, s);
    if Answerable(s, key) {
      var s' := AnswerNow(s, key);
    } else {
      forall s' | Leads(s, s') ensures !AnsweredSince(s, s', key) {
        var later :| Run(s, later, s');
        SpentForever(s, later, s', key);
      }
    }
  }

  /** An engine in which nothing has happened. */
  const EMPTY := World(
    P.System(map[], P.Book(map[], [], map[], [], [], []), [], [], [], map[], map[], map[]), map[], map[], [])

  /** A call that has built its transfer, */
  lemma BuildOne(key: string) returns (s: World, row: Row)
    requires key != ""
    ensures Leads(EMPTY, s) && row.Fresh() && row.id == 7 && row.key == key
    ensures s.sys == EMPTY.sys && s.cache == map[] && s.calls == map[0 := Saving(row)]
  {
    row := NewRow(7, key, 10, 11, Money(5, IDR)).value;
    LeadsNowhere(EMPTY);
    LeadsOn(EMPTY, EMPTY, Begin(0, key));
    s := Next(EMPTY, Begin(0, key));
    LeadsOn(EMPTY, s, Get(0));
    s := Next(s, Get(0));
    LeadsOn(EMPTY, s, Build(0, 7, 10, 11, Money(5, IDR)));
    s := Next(s, Build(0, 7, 10, 11, Money(5, IDR)));
  }

  /** and has saved it. */
  lemma SaveOne(key: string) returns (s: World, row: Row)
    requires key != ""
    ensures Leads(EMPTY, s) && row.id == 7 && row.key == key && s.sys.book.rows == map[7 := row]
    ensures s.sys.handlers == map[7 := P.Saved] && s.sys.outbox == []
    ensures s.cache == map[] && s.calls == map[0 := Logging(key, 7)]
  {
    s, row := BuildOne(key);
    assert Insertable(s.sys.book.rows, row);
    LeadsOn(EMPTY, s, Save(0));
    s := NextSave(s, 0);
  }

  /**
   One call that stops right after Save spends any key: its transfer exists, nothing is
   cached, and no outbox row will ever be written for it.
   */
  lemma CrashSpendsTheKey(key: string) returns (s: World)
    requires key != ""
    ensures Init(EMPTY) && Leads(EMPTY, s) && !Answerable(s, key)
    ensures Created(s.sys.book.rows, key, 7) && s.sys.handlers == map[7 := P.Gone] && s.sys.outbox == []
  {
    var row;
    s, row := SaveOne(key);
    LeadsOn(EMPTY, s, Stop(0));
    s := NextStop(s, 0);
    assert s.sys.book.rows[7].key == key;
  }
}
