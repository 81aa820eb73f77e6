/**
 Runs in which one message is handled at a time. The worker's copy is then always
 the current row, so no compare-and-set can fail; without faults nothing is ever
 lost, and every transfer takes effect exactly once however often its messages are
 repeated or reordered.
 */
module OneAtATime {
  import opened Ledger
  import opened Transfers
  import opened Protocol
  import opened History
  import opened Accounting
  import opened Balances
  import opened Overdraft

  /** The worker's copy is the current row, or its successor when about to be stored. */
  predicate CopyCurrent(rows: map<TransferId, Row>, pc: WorkerPc) {
    HasCopy(pc) ==>
      pc.t.id in rows && (if pc.Updating? then rows[pc.t.id].version == pc.t.version - 1 else pc.t == rows[pc.t.id])
  }

  ghost predicate CopiesCurrent(s: System) {
    forall w :: w in s.workers ==> CopyCurrent(s.book.rows, s.workers[w])
  }

  /** A copy of the current row that moves on stays one ahead of it. */
  lemma MovesKeepCurrent(rows: map<TransferId, Row>, msg: nat, t: Row)
    requires t.id in rows && t == rows[t.id]
    ensures forall next, slot :: CopyCurrent(rows, MoveTo(msg, t, next, slot))
    ensures forall reason, slot :: CopyCurrent(rows, FailWith(msg, t, reason, slot))
    ensures CopyCurrent(rows, Compensate(msg, t)) && CopyCurrent(rows, Dispatch(msg, t))
  {
  }

  lemma CurrentBooking(rows: map<TransferId, Row>, msg: nat, t: Row, k: Kind, i: nat)
    requires t.id in rows && t == rows[t.id]
    ensures CopyCurrent(rows, AfterPost(msg, t, k, i))
  {
    MovesKeepCurrent(rows, msg, t);
  }

  lemma CurrentAsking(rows: map<TransferId, Row>, msg: nat, t: Row, reply: Reply, i: nat)
    requires t.id in rows && t == rows[t.id]
    ensures CopyCurrent(rows, AfterBank(msg, t, reply, i))
  {
  }

  lemma CurrentUpdate(s: System, w: WorkerId)
    requires Core(s) && CopyCurrent(s.book.rows, Pc(s, w)) && WorkerEnabled(s, w, Update)
    ensures var pc := Pc(s, w);
            NextUpdate(s, w) == s.(book := UpdatedRow(s.book, pc.t, pc.slot),
                                   workers := s.workers[w := AfterUpdate(pc.msg, pc.t)])
    ensures CopyCurrent(NextUpdate(s, w).book.rows, Pc(NextUpdate(s, w), w))
  {
    var pc := Pc(s, w);
    UpdateSucceeds(s, w);
    MovesKeepCurrent(s.book.rows[pc.t.id := pc.t], pc.msg, pc.t);
  }

  lemma CurrentLoading(s: System, w: WorkerId)
    requires Core(s) && WorkerEnabled(s, w, Load)
    ensures CopyCurrent(s.book.rows, Pc(NextLoad(s, w), w))
  {
    var id := s.stream[Pc(s, w).msg].id;
    if id in s.book.rows {
      MovesKeepCurrent(s.book.rows, Pc(s, w).msg, s.book.rows[id]);
    }
  }

  lemma CurrentLocking(s: System, w: WorkerId)
    requires CopyCurrent(s.book.rows, Pc(s, w)) && WorkerEnabled(s, w, Lock)
    ensures CopyCurrent(s.book.rows, Pc(NextLock(s, w), w))
  {
    MovesKeepCurrent(s.book.rows, Pc(s, w).msg, Pc(s, w).t);
  }

  lemma CurrentChecking(s: System, w: WorkerId)
    requires CopyCurrent(s.book.rows, Pc(s, w)) && WorkerEnabled(s, w, Check)
    ensures CopyCurrent(s.book.rows, Pc(NextCheck(s, w), w))
  {
    MovesKeepCurrent(s.book.rows, Pc(s, w).msg, Pc(s, w).t);
  }

  lemma CurrentPosting(s: System, w: WorkerId)
    requires CopyCurrent(s.book.rows, Pc(s, w)) && WorkerEnabled(s, w, Post)
    ensures CopyCurrent(s.book.rows, Pc(NextPost(s, w), w)) && NextPost(s, w).book.rows == s.book.rows
  {
    var pc := Pc(s, w);
    CurrentBooking(s.book.rows, pc.msg, pc.t, pc.kind, |s.book.log|);
  }

  lemma CurrentQuiet(s: System, w: WorkerId, x: WorkerStep)
    requires CopyCurrent(s.book.rows, Pc(s, w)) && WorkerEnabled(s, w, x)
    requires x.Deliver? || x.Append? || x.Write? || x.Ack? || x.Abort?
    ensures CopyCurrent(s.book.rows, Pc(NextWorker(s, w, x), w)) && NextWorker(s, w, x).book.rows == s.book.rows
  {
  }

  lemma CurrentWorker(s: System, w: WorkerId, x: WorkerStep)
    requires Core(s) && CopyCurrent(s.book.rows, Pc(s, w)) && WorkerEnabled(s, w, x)
    ensures CopyCurrent(NextWorker(s, w, x).book.rows, Pc(NextWorker(s, w, x), w))
  {
    match x {
      case Update => CurrentUpdate(s, w);
      case Post => CurrentPosting(s, w);
      case Ask(reply) => CurrentAsking(s.book.rows, Pc(s, w).msg, Pc(s, w).t, reply, |s.book.log|);
      case Load =>
        QuietWorker(s, w, x);
        CurrentLoading(s, w);
      case Lock =>
        QuietWorker(s, w, x);
        CurrentLocking(s, w);
      case Check =>
        QuietWorker(s, w, x);
        CurrentChecking(s, w);
      case _ => CurrentQuiet(s, w, x);
    }
  }

  lemma CurrentStep(s: System, a: Action)
    requires Core(s) && Alone(s) && CopiesCurrent(s) && Enabled(s, a)
    ensures CopiesCurrent(Next(s, a))
  {
    match a {
      case Worker(w, x) =>
        WorkerFrame(s, w, x);
        CurrentWorker(s, w, x);
        CurrentOthers(s, w, x);
      case Handler(h) => CurrentHandler(s, h);
      case _ => assert Next(s, a).book == s.book && Next(s, a).workers == s.workers;
    }
  }

  lemma CurrentHandler(s: System, h: HandlerStep)
    requires CopiesCurrent(s) && HandlerEnabled(s, h)
    ensures CopiesCurrent(NextHandler(s, h))
  {
  }

  /** The others are idle, or there was no one to disturb. */
  lemma CurrentOthers(s: System, w: WorkerId, x: WorkerStep)
    requires Core(s) && Alone(s) && CopiesCurrent(s) && WorkerEnabled(s, w, x)
    requires OnlyWorker(s, NextWorker(s, w, x), w)
    ensures forall v :: v in s.workers && v != w ==> CopyCurrent(NextWorker(s, w, x).book.rows, s.workers[v])
  {
    if x.Deliver? {
      assert NextWorker(s, w, x).book == s.book;
    } else {
      assert w in s.workers && !s.workers[w].Idle?;
    }
  }

  // ---- Only crashes lose records ----

  /** Postings and bank calls of the transfer whose row update was lost. */
  function LostCount(log: seq<Record>, id: TransferId): nat {
    if |log| == 0 then 0
    else
      var r := log[|log| - 1];
      LostCount(log[..|log| - 1], id) + (if r.id == id && r.fate == Lost then 1 else 0)
  }

  /** A worker fails or stops after a posting or bank call of the transfer and before the row update. */
  predicate Crash(s: System, a: Action, id: TransferId) {
    a.Worker? && a.x.Abort? && Pc(s, a.w).Updating? && Pc(s, a.w).t.id == id
  }

  lemma LostSnoc(log: seq<Record>, r: Record, id: TransferId)
    ensures LostCount(log + [r], id) == LostCount(log, id) + (if r.id == id && r.fate == Lost then 1 else 0)
  {
    assert (log + [r])[..|log|] == log;
  }

  lemma {:induction false} LostSettle(log: seq<Record>, i: nat, fate: Fate, id: TransferId)
    requires i < |log|
    ensures LostCount(Settle(log, Some(i), fate), id)
            <= LostCount(log, id) + (if log[i].id == id && fate == Lost then 1 else 0)
  {
    var n := |log| - 1;
    var log' := Settle(log, Some(i), fate);
    if i < n {
      LostSettle(log[..n], i, fate, id);
      assert log'[..n] == Settle(log[..n], Some(i), fate);
    } else {
      assert log'[..n] == log[..n];
    }
  }

  lemma LostPost(s: System, w: WorkerId, id: TransferId)
    requires Core(s) && WorkerEnabled(s, w, Post)
    ensures LostCount(NextPost(s, w).book.log, id) == LostCount(s.book.log, id)
  {
    var pc := Pc(s, w);
    assert PcOk(s.book.history, s.stream, pc);
    match PostingFor(pc.kind, pc.t)
    case Ok(p) => LostSnoc(s.book.log, Record(pc.t.id, Posted(pc.kind), p.Entries(), Open(w)), id);
    case Err => assert Drop(s, w).book == s.book;
  }

  lemma LostAsk(s: System, w: WorkerId, reply: Reply, id: TransferId)
    requires WorkerEnabled(s, w, Ask(reply))
    ensures LostCount(NextAsk(s, w, reply).book.log, id) == LostCount(s.book.log, id)
  {
    LostSnoc(s.book.log, Record(Pc(s, w).t.id, Asked(reply.Accepted?), [], Open(w)), id);
  }

  lemma LostUpdate(s: System, w: WorkerId, id: TransferId)
    requires Core(s) && CopyCurrent(s.book.rows, Pc(s, w)) && WorkerEnabled(s, w, Update)
    ensures LostCount(NextUpdate(s, w).book.log, id) <= LostCount(s.book.log, id)
  {
    var slot := Pc(s, w).slot;
    CurrentUpdate(s, w);
    if slot.Some? && slot.value < |s.book.log| {
      LostSettle(s.book.log, slot.value, Applied, id);
    }
  }

  /** A worker that stops loses the record it was about to settle, if it has one. */
  lemma LostAbort(s: System, w: WorkerId, id: TransferId)
    requires Core(s) && WorkerEnabled(s, w, Abort)
    ensures LostCount(Drop(s, w).book.log, id)
            <= LostCount(s.book.log, id) + (if Crash(s, Worker(w, Abort), id) then 1 else 0)
  {
    var pc := Pc(s, w);
    SlotIsOwn(s, w);
    if Slot(pc).Some? {
      LostSettle(s.book.log, pc.slot.value, Lost, id);
    }
  }

  /** Only a worker about to store a row has a record to settle, and it is of its transfer. */
  lemma SlotIsOwn(s: System, w: WorkerId)
    requires Core(s)
    ensures var pc := Pc(s, w);
            Slot(pc).Some? ==>
              pc.Updating? && pc.slot.value < |s.book.log| && s.book.log[pc.slot.value].id == pc.t.id
  {
    var pc := Pc(s, w);
    if w in s.workers {
      assert PcOk(s.book.history, s.stream, pc) && SlotOk(s.book.log, w, pc);
    }
  }

  lemma LostQuiet(s: System, w: WorkerId, x: WorkerStep)
    requires WorkerEnabled(s, w, x) && !x.Post? && !x.Ask? && !x.Update? && !x.Abort?
    ensures NextWorker(s, w, x).book == s.book
  {
    QuietWorker(s, w, x);
    assert Slot(Pc(s, w)) == None;
    assert Drop(s, w).book == s.book;
  }

  lemma LostWorker(s: System, w: WorkerId, x: WorkerStep, id: TransferId)
    requires Core(s) && CopyCurrent(s.book.rows, Pc(s, w)) && WorkerEnabled(s, w, x)
    ensures LostCount(NextWorker(s, w, x).book.log, id)
            <= LostCount(s.book.log, id) + (if Crash(s, Worker(w, x), id) then 1 else 0)
  {
    match x
    case Update => LostUpdate(s, w, id);
    case Post => LostPost(s, w, id);
    case Ask(reply) => LostAsk(s, w, reply, id);
    case Abort => LostAbort(s, w, id);
    case _ => LostQuiet(s, w, x);
  }

  lemma LostStep(s: System, a: Action, id: TransferId)
    requires Core(s) && CopiesCurrent(s) && Enabled(s, a)
    ensures LostCount(Next(s, a).book.log, id) <= LostCount(s.book.log, id) + (if Crash(s, a, id) then 1 else 0)
  {
    if a.Worker? {
      LostWorker(s, a.w, a.x, id);
    } else {
      assert Next(s, a).book.log == s.book.log;
    }
  }

  ghost predicate NothingLost(s: System) {
    forall i :: 0 <= i < |s.book.log| ==> s.book.log[i].fate != Lost
  }

  lemma {:induction false} LostIsCounted(log: seq<Record>, i: nat)
    requires i < |log| && log[i].fate == Lost
    ensures LostCount(log, log[i].id) > 0
  {
    if i < |log| - 1 {
      LostIsCounted(log[..|log| - 1], i);
    }
  }

  lemma {:induction false} NoneToCount(log: seq<Record>, id: TransferId)
    requires forall i :: 0 <= i < |log| ==> log[i].fate != Lost
    ensures LostCount(log, id) == 0
  {
    if |log| > 0 {
      NoneToCount(log[..|log| - 1], id);
    }
  }

  lemma NothingLostStep(s: System, a: Action)
    requires Core(s) && CopiesCurrent(s) && NothingLost(s) && Enabled(s, a) && !(a.Worker? && a.x.Abort?)
    ensures NothingLost(Next(s, a))
  {
    var log' := Next(s, a).book.log;
    forall i | 0 <= i < |log'| ensures log'[i].fate != Lost {
      if log'[i].fate == Lost {
        LostIsCounted(log', i);
        LostStep(s, a, log'[i].id);
        NoneToCount(s.book.log, log'[i].id);
      }
    }
  }

  /** Runs with one worker at a time; with `g.faults` false also without errors or crashes. */
  predicate Single(g: Regime) {
    g.workers == Some(1)
  }

  /**
   One message at a time: every copy is current, so no compare-and-set fails; and without
   faults nothing is lost.
   */
  lemma {:induction false} SingleRun(g: Regime, s0: System, acts: seq<Action>, s: System)
    requires Single(g) && Init(s0) && Run(g, s0, acts, s)
    ensures Core(s) && Alone(s) && CopiesCurrent(s) && (!g.faults ==> NothingLost(s))
    decreases |acts|
  {
    if |acts| > 0 {
      var n := |acts| - 1;
      var m :| Run(g, s0, acts[..n], m) && StepOk(g, m, acts[n]) && s == Next(m, acts[n]);
      SingleRun(g, s0, acts[..n], m);
      CoreStep(m, acts[n]);
      AloneStep(m, acts[n]);
      CurrentStep(m, acts[n]);
      if !g.faults {
        NothingLostStep(m, acts[n]);
      }
    }
  }

  /** How often that happened to the transfer in a run. */
  function Crashes(states: seq<System>, acts: seq<Action>, id: TransferId): nat
    requires |states| == |acts| + 1
    decreases |acts|
  {
    if |acts| == 0 then 0
    else
      var n := |acts| - 1;
      Crashes(states[..|acts|], acts[..n], id) + (if Crash(states[n], acts[n], id) then 1 else 0)
  }

  /** One message at a time, a transfer loses at most one posting or bank call per crash of its own. */
  lemma {:induction false} LostByCrashes(g: Regime, states: seq<System>, acts: seq<Action>, id: TransferId)
    requires Single(g) && Trace(g, states, acts) && Init(states[0])
    ensures LostCount(states[|acts|].book.log, id) <= Crashes(states, acts, id)
    decreases |acts|
  {
    if |acts| > 0 {
      var n := |acts| - 1;
      TracePrefix(g, states, acts);
      LostByCrashes(g, states[..|acts|], acts[..n], id);
      TraceIsRun(g, states[..|acts|], acts[..n]);
      SingleRun(g, states[0], acts[..n], states[n]);
      assert LinkOk(g, states, acts, n);
      LostStep(states[n], acts[n], id);
    }
  }

  // ---- No effect is repeated ----

  lemma {:induction false} CountNotNegative(log: seq<Record>, q: LogQuery)
    requires q.measure == Number
    ensures Tally(log, q) >= 0
  {
    if |log| > 0 {
      CountNotNegative(log[..|log| - 1], q);
    }
  }

  /** Two postings of the same kind, or two bank calls. */
  predicate SameEffect(a: Tag, b: Tag) {
    a == b || (a.Asked? && b.Asked?)
  }

  predicate Repeated(log: seq<Record>, i: int, j: int) {
    0 <= i < j < |log| && log[i].id == log[j].id && SameEffect(log[i].tag, log[j].tag)
  }

  ghost predicate AtMostOnce(log: seq<Record>) {
    forall i, j :: !Repeated(log, i, j)
  }

  lemma {:induction false} CountedOnce(log: seq<Record>, q: LogQuery, i: nat)
    requires q.measure == Number && i < |log| && Matches(log[i], q)
    ensures Tally(log, q) >= 1
  {
    var n := |log| - 1;
    CountNotNegative(log[..n], q);
    if i < n {
      CountedOnce(log[..n], q, i);
    }
  }

  lemma {:induction false} CountedTwice(log: seq<Record>, q: LogQuery, i: nat, j: nat)
    requires q.measure == Number && i < j < |log| && Matches(log[i], q) && Matches(log[j], q)
    ensures Tally(log, q) >= 2
  {
    var n := |log| - 1;
    if j < n {
      CountedTwice(log[..n], q, i, j);
    } else {
      CountedOnce(log[..n], q, i);
    }
  }

  /** The current row shows every applied record of its transfer, */
  lemma AppliedShows(log: seq<Record>, r: Row, i: nat)
    requires CountsOk(log, r) && i < |log| && log[i].id == r.id && log[i].fate == Applied
    ensures Shows(r, log[i].tag)
  {
    CountedOnce(log, CountOf(r.id, log[i].tag, true), i);
  }

  /** each only once, */
  lemma AppliedOnce(log: seq<Record>, r: Row, i: nat, j: nat)
    requires CountsOk(log, r) && Repeated(log, i, j) && log[i].id == r.id
    ensures log[i].fate != Applied || log[j].fate != Applied
  {
    if log[i].fate == Applied && log[j].fate == Applied {
      AppliedShows(log, r, i);
      AppliedShows(log, r, j);
      CountedTwice(log, CountOf(r.id, log[i].tag, true), i, j);
    }
  }

  lemma NotShownBefore(b: Row, t: Row, tag: Tag)
    requires Shape(b) && Successor(b, t) && Evidence(t).Some? && SameEffect(Evidence(t).value, tag)
    ensures !Shows(b, tag)
  {
  }

  /** and an open one, whose worker holds the successor of the current row, not yet. */
  lemma OpenNotShown(s: System, i: nat, tag: Tag)
    requires Core(s) && CopiesCurrent(s) && i < |s.book.log| && s.book.log[i].fate.Open?
    requires SameEffect(s.book.log[i].tag, tag)
    ensures var id := s.book.log[i].id; id in s.book.rows && !Shows(s.book.rows[id], tag)
  {
    var w := s.book.log[i].fate.worker;
    var t := s.workers[w].t;
    assert SlotOk(s.book.log, w, s.workers[w]);
    UpdateIsCurrent(s, w);
    CurrentIsVersion(s, t.id);
    VersionShape(s, s.book.rows[t.id]);
    NotShownBefore(s.book.rows[t.id], t, tag);
  }

  /** With current copies, one worker and nothing lost, no effect is repeated. */
  lemma NotRepeated(s: System, i: nat, j: nat)
    requires Core(s) && Books(s) && Alone(s) && CopiesCurrent(s) && NothingLost(s)
    ensures !Repeated(s.book.log, i, j)
  {
    var log := s.book.log;
    if Repeated(log, i, j) {
      assert RecordOk(s.book.rows, log[i]);
      var r := s.book.rows[log[i].id];
      AppliedOnce(log, r, i, j);
      if log[i].fate.Open? {
        OpenNotShown(s, i, log[j].tag);
      }
      if log[j].fate.Open? {
        OpenNotShown(s, j, log[i].tag);
      }
      if log[i].fate == Applied {
        AppliedShows(log, r, i);
      } else if log[j].fate == Applied {
        AppliedShows(log, r, j);
      }
    }
  }

  lemma FaultFreeOnce(s0: System, acts: seq<Action>, s: System)
    requires Init(s0) && Run(FAULT_FREE, s0, acts, s)
    ensures AtMostOnce(s.book.log)
  {
    SingleRun(FAULT_FREE, s0, acts, s);
    BooksRun(FAULT_FREE, s0, acts, s);
    forall i, j ensures !Repeated(s.book.log, i, j) {
      if 0 <= i < j {
        NotRepeated(s, i, j);
      }
    }
  }

  // ---- Every transfer takes effect once ----

  /** A worker is about to store the next version of the transfer. */
  ghost predicate Storing(s: System, id: TransferId) {
    exists w :: w in s.workers && s.workers[w].Updating? && s.workers[w].t.id == id
  }

  lemma UpdatingUnfinished(s: System, w: WorkerId)
    requires Core(s) && CopyCurrent(s.book.rows, Pc(s, w)) && Pc(s, w).Updating?
    ensures var id := Pc(s, w).t.id; id in s.book.rows && !Terminal(s.book.rows[id].state)
  {
    UpdateIsCurrent(s, w);
  }

  /** A finished transfer has no next version. */
  lemma NotStoringFinished(s: System, id: TransferId)
    requires Core(s) && CopiesCurrent(s) && id in s.book.rows && Terminal(s.book.rows[id].state)
    ensures !Storing(s, id)
  {
    forall w | w in s.workers && s.workers[w].Updating? ensures s.workers[w].t.id != id {
      UpdatingUnfinished(s, w);
    }
  }

  lemma OpenMeansStoring(s: System, i: nat)
    requires Core(s) && i < |s.book.log| && s.book.log[i].fate.Open?
    ensures Storing(s, s.book.log[i].id)
  {
    var w := s.book.log[i].fate.worker;
    assert SlotOk(s.book.log, w, s.workers[w]);
  }

  lemma NotStoringMeansApplied(s: System, id: TransferId)
    requires Core(s) && NothingLost(s) && !Storing(s, id)
    ensures AppliedFor(s.book.log, id)
  {
    forall i | 0 <= i < |s.book.log| && s.book.log[i].id == id ensures s.book.log[i].fate == Applied {
      if s.book.log[i].fate.Open? {
        OpenMeansStoring(s, i);
      }
    }
  }

  /**
   Exactly-once effect, in every state of every fault-free run with one message at a
   time, whatever messages were repeated or reordered and whatever other transfers are
   or were being processed: no posting and no bank call of any transfer is repeated. A
   transfer that is finished, or whose next version nobody is about to store, has been
   debited, sent to the bank and credited exactly as often as its row shows; COMPLETED
   has moved the amount once, FAILED has moved nothing.
   */
  lemma ExactlyOnce(s0: System, acts: seq<Action>, s: System, id: TransferId, tag: Tag,
                    account: AccountId, currency: Currency)
    requires Init(s0) && Run(FAULT_FREE, s0, acts, s) && id in s.book.rows
    ensures AtMostOnce(s.book.log)
    ensures Terminal(s.book.rows[id].state) ==> !Storing(s, id)
    ensures !Storing(s, id) ==>
              && Times(s.book.log, id, tag) == (if Shows(s.book.rows[id], tag) then 1 else 0)
              && NetChange(s, id, account, currency) == RowEffect(s.book.rows[id], account, currency)
    ensures Terminal(s.book.rows[id].state) ==>
              NetChange(s, id, account, currency) == EffectOnce(s.book.rows[id], account, currency)
  {
    FaultFreeOnce(s0, acts, s);
    SingleRun(FAULT_FREE, s0, acts, s);
    if Terminal(s.book.rows[id].state) {
      NotStoringFinished(s, id);
    }
    if !Storing(s, id) {
      NotStoringMeansApplied(s, id);
      ExactlyOnceWhenApplied(FAULT_FREE, s0, acts, s, id, tag, account, currency);
    }
  }
}
