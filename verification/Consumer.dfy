/**
 The message loop of a worker: it acknowledges a message only after an Execute
 without error, which is what keeps every unfinished transfer awake.
 */
module Consumer {
  import opened Ledger
  import opened Transfers
  import opened Protocol
  import opened Backend
  import opened Saga
  import opened Wakeups

  /** Every transfer with an outbox row is finished, or has a pending row or an unacknowledged message. */
  ghost predicate NoWakeUpLost(rows: map<TransferId, Row>, outbox: seq<OutboxRow>, stream: seq<Message>) {
    forall i :: 0 <= i < |outbox| ==>
      || Finished(rows, outbox[i].id)
      || (exists j :: 0 <= j < |outbox| && outbox[j].id == outbox[i].id && !outbox[j].published)
      || (exists k :: 0 <= k < |stream| && stream[k].id == outbox[i].id && !stream[k].acked)
  }

  lemma StoreLosesNoWakeUp(db: Store)
    requires db.Valid()
    ensures NoWakeUpLost(db.rows, db.outbox, db.stream)
  {
    db.ReachedByRun();
    forall i | 0 <= i < |db.outbox|
      ensures Finished(db.rows, db.outbox[i].id) || PendingRow(db.sys, db.outbox[i].id)
              || UnackedMessage(db.sys, db.outbox[i].id)
    {
      WakeUpsAreNeverLost(ANY, db.states[0], db.trace, db.sys, db.outbox[i].id, i);
    }
  }

  // ---- What an undisturbed consumer does ----

  /** What executions change, and the world outside: accounts and the bank's answers. */
  datatype Work = Work(tables: Tables, asked: nat)

  datatype Outside = Outside(accounts: map<AccountId, Status>, replies: nat -> Reply)

  function Execution(out: Outside, k: Work, id: TransferId): Outcome {
    Executed(out.accounts, k.tables, id, out.replies(k.asked))
  }

  function AfterExecution(out: Outside, k: Work, id: TransferId): Work {
    Work(Execution(out, k, id).tables, k.asked + Asks(k.tables.rows, id))
  }

  /** Executions one after the other. */
  function Consumed(out: Outside, k: Work, ids: seq<TransferId>): Work
    decreases |ids|
  {
    if |ids| == 0 then k
    else AfterExecution(out, Consumed(out, k, ids[..|ids| - 1]), ids[|ids| - 1])
  }

  /** Which of them returned an error. */
  function Errors(out: Outside, k: Work, ids: seq<TransferId>): (errs: seq<bool>)
    ensures |errs| == |ids|
    decreases |ids|
  {
    if |ids| == 0 then []
    else
      var n := |ids| - 1;
      Errors(out, k, ids[..n]) + [Execution(out, Consumed(out, k, ids[..n]), ids[n]).err]
  }

  lemma ConsumedSnoc(out: Outside, k: Work, ids: seq<TransferId>, id: TransferId)
    ensures Consumed(out, k, ids + [id]) == AfterExecution(out, Consumed(out, k, ids), id)
    ensures Errors(out, k, ids + [id])
            == Errors(out, k, ids) + [Execution(out, Consumed(out, k, ids), id).err]
  {
    assert (ids + [id])[..|ids|] == ids;
  }

  predicate InStream(stream: seq<Message>, msgs: seq<nat>) {
    forall i :: 0 <= i < |msgs| ==> msgs[i] < |stream|
  }

  /** The transfers of the messages. */
  function Ids(stream: seq<Message>, msgs: seq<nat>): (ids: seq<TransferId>)
    requires InStream(stream, msgs)
    ensures |ids| == |msgs|
  {
    seq(|msgs|, i requires 0 <= i < |msgs| => stream[msgs[i]].id)
  }

  function Acked(stream: seq<Message>, msg: nat, err: bool): (stream': seq<Message>)
    requires msg < |stream|
    ensures |stream'| == |stream|
  {
    if err then stream else stream[msg := stream[msg].(acked := true)]
  }

  /** The stream after messages were handled with these errors. */
  function Acks(stream: seq<Message>, msgs: seq<nat>, errs: seq<bool>): (stream': seq<Message>)
    requires InStream(stream, msgs) && |errs| == |msgs|
    ensures |stream'| == |stream|
    decreases |msgs|
  {
    if |msgs| == 0 then stream
    else
      var n := |msgs| - 1;
      Acked(Acks(stream, msgs[..n], errs[..n]), msgs[n], errs[n])
  }

  /** Every message was unacknowledged when it was taken. */
  ghost predicate Deliveries(stream: seq<Message>, msgs: seq<nat>, errs: seq<bool>) {
    && InStream(stream, msgs) && |errs| == |msgs|
    && forall i :: 0 <= i < |msgs| ==> TakenUnacked(stream, msgs, errs, i)
  }

  predicate TakenUnacked(stream: seq<Message>, msgs: seq<nat>, errs: seq<bool>, i: nat)
    requires InStream(stream, msgs) && |errs| == |msgs| && i < |msgs|
  {
    !Acks(stream, msgs[..i], errs[..i])[msgs[i]].acked
  }

  lemma AcksSnoc(stream: seq<Message>, msgs: seq<nat>, errs: seq<bool>, msg: nat, err: bool)
    requires Deliveries(stream, msgs, errs) && msg < |stream| && !Acks(stream, msgs, errs)[msg].acked
    ensures Deliveries(stream, msgs + [msg], errs + [err])
    ensures Acks(stream, msgs + [msg], errs + [err]) == Acked(Acks(stream, msgs, errs), msg, err)
    ensures Ids(stream, msgs + [msg]) == Ids(stream, msgs) + [stream[msg].id]
  {
    var msgs', errs' := msgs + [msg], errs + [err];
    assert msgs'[..|msgs|] == msgs && errs'[..|msgs|] == errs;
    forall i | 0 <= i < |msgs'| ensures TakenUnacked(stream, msgs', errs', i) {
      if i < |msgs| {
        assert msgs'[..i] == msgs[..i] && errs'[..i] == errs[..i];
        assert TakenUnacked(stream, msgs, errs, i);
      }
    }
  }

  /**
   A message is acknowledged if and only if it was before or one of its executions
   returned nil; nothing else about any message changes.
   */
  lemma {:induction false} AckedExactly(stream: seq<Message>, msgs: seq<nat>, errs: seq<bool>, m: nat)
    requires InStream(stream, msgs) && |errs| == |msgs| && m < |stream|
    ensures var m' := Acks(stream, msgs, errs)[m];
            && m' == stream[m].(acked := m'.acked)
            && (m'.acked <==> stream[m].acked || exists i :: 0 <= i < |msgs| && msgs[i] == m && !errs[i])
    decreases |msgs|
  {
    if |msgs| > 0 {
      var n := |msgs| - 1;
      AckedExactly(stream, msgs[..n], errs[..n], m);
      assert forall i :: 0 <= i < n ==> msgs[..n][i] == msgs[i] && errs[..n][i] == errs[i];
    }
  }

  /** Messages not acknowledged. */
  function Unacked(stream: seq<Message>): nat {
    if |stream| == 0 then 0
    else Unacked(stream[..|stream| - 1]) + (if stream[|stream| - 1].acked then 0 else 1)
  }

  lemma {:induction false} UnackedOne(stream: seq<Message>, m: nat)
    requires m < |stream| && !stream[m].acked
    ensures Unacked(Acked(stream, m, false)) == Unacked(stream) - 1
  {
    var n := |stream| - 1;
    if m < n {
      UnackedOne(stream[..n], m);
      assert Acked(stream, m, false)[..n] == Acked(stream[..n], m, false);
    } else {
      assert Acked(stream, m, false)[..n] == stream[..n];
    }
  }

  /** Every delivery whose execution returns nil leaves one message less. */
  lemma {:induction false} ConsumedDrains(stream: seq<Message>, msgs: seq<nat>, errs: seq<bool>)
    requires Deliveries(stream, msgs, errs) && forall i :: 0 <= i < |msgs| ==> !errs[i]
    ensures Unacked(Acks(stream, msgs, errs)) == Unacked(stream) - |msgs|
    decreases |msgs|
  {
    if |msgs| > 0 {
      var n := |msgs| - 1;
      forall i | 0 <= i < n ensures TakenUnacked(stream, msgs[..n], errs[..n], i) {
        assert msgs[..n][..i] == msgs[..i] && errs[..n][..i] == errs[..i];
        assert TakenUnacked(stream, msgs, errs, i);
      }
      ConsumedDrains(stream, msgs[..n], errs[..n]);
      assert TakenUnacked(stream, msgs, errs, n);
      UnackedOne(Acks(stream, msgs[..n], errs[..n]), msgs[n]);
    }
  }

  /** As many nil executions as there were messages left acknowledge everything. */
  lemma EnoughRoundsDrain(stream: seq<Message>, msgs: seq<nat>, errs: seq<bool>, m: nat)
    requires Deliveries(stream, msgs, errs) && forall i :: 0 <= i < |msgs| ==> !errs[i]
    requires |msgs| == Unacked(stream) && m < |stream|
    ensures Acks(stream, msgs, errs)[m].acked
  {
    ConsumedDrains(stream, msgs, errs);
    NoneUnacked(Acks(stream, msgs, errs), m);
  }

  lemma {:induction false} NoneUnacked(stream: seq<Message>, m: nat)
    requires Unacked(stream) == 0 && m < |stream|
    ensures stream[m].acked
  {
    if m < |stream| - 1 {
      NoneUnacked(stream[..|stream| - 1], m);
    }
  }

  /** Handling these messages with these errors leads to this work and this stream. */
  ghost predicate HandledSo(out: Outside, k: Work, stream: seq<Message>, handled: seq<nat>, errs: seq<bool>,
                            k': Work, stream': seq<Message>)
  {
    && Deliveries(stream, handled, errs)
    && k' == Consumed(out, k, Ids(stream, handled)) && errs == Errors(out, k, Ids(stream, handled))
    && stream' == Acks(stream, handled, errs)
  }

  lemma HandledSnoc(out: Outside, k: Work, stream: seq<Message>, handled: seq<nat>, errs: seq<bool>,
                    k': Work, stream': seq<Message>, msg: nat)
    requires HandledSo(out, k, stream, handled, errs, k', stream') && msg < |stream'| && !stream'[msg].acked
    ensures var id := stream'[msg].id;
            var err := Execution(out, k', id).err;
            HandledSo(out, k, stream, handled + [msg], errs + [err],
                      AfterExecution(out, k', id), Acked(stream', msg, err))
  {
    var err := Execution(out, k', stream'[msg].id).err;
    AcksSnoc(stream, handled, errs, msg, err);
    AckedExactly(stream, handled, errs, msg);
    ConsumedSnoc(out, k, Ids(stream, handled), stream[msg].id);
  }

  ghost function WorkOf(db: Store): Work
    reads db
  {
    Work(TablesOf(db), db.asked)
  }

  class Subscriber {
    const saga: TransferSaga

    constructor (saga: TransferSaga)
      ensures this.saga == saga
    {
      this.saga := saga;
    }

    ghost function Out(): Outside
      reads saga.db
    {
      Outside(saga.db.accounts, saga.db.replies)
    }

    /** What `handled` messages with these errors have made of the work and the stream. */
    ghost predicate Handled(out: Outside, k: Work, stream: seq<Message>, handled: seq<nat>, errs: seq<bool>)
      reads saga.db
    {
      Out() == out && HandledSo(out, k, stream, handled, errs, WorkOf(saga.db), saga.db.stream)
    }

    /**
     Takes a message, runs the saga, acks only after a nil return and naks otherwise. The
     source loops until its context is cancelled; here for `rounds` rounds. `handled` are
     the messages taken and `errs` what their executions returned; undisturbed, every
     round takes a message as long as any is left.
     */
    method Subscribe(ghost w: WorkerId, rounds: nat) returns (handled: seq<nat>, errs: seq<bool>)
      requires saga.db.Valid() && saga.db.At(w) == Idle
      modifies saga.db
      ensures saga.db.Valid() && saga.db.After(old(saga.db.states), old(saga.db.trace)) && saga.db.At(w) == Idle
      ensures NoWakeUpLost(saga.db.rows, saga.db.outbox, saga.db.stream)
      ensures |handled| <= rounds
      ensures saga.db.reliable ==>
                && Handled(old(Out()), old(WorkOf(saga.db)), old(saga.db.stream), handled, errs)
                && (|handled| < rounds ==> forall k :: 0 <= k < |saga.db.stream| ==> saga.db.stream[k].acked)
    {
      handled, errs := [], [];
      ghost var out, start, stream := Out(), WorkOf(saga.db), saga.db.stream;
      for i := 0 to rounds
        invariant saga.db.Valid() && saga.db.After(old(saga.db.states), old(saga.db.trace)) && saga.db.At(w) == Idle
        invariant |handled| <= i
        invariant saga.db.reliable ==>
                    && Handled(out, start, stream, handled, errs)
                    && (|handled| < i ==> forall k :: 0 <= k < |saga.db.stream| ==> saga.db.stream[k].acked)
      {
        handled, errs := Turn(w, handled, errs, out, start, stream);
      }
      StoreLosesNoWakeUp(saga.db);
    }

    /** One round. */
    method Turn(ghost w: WorkerId, handled: seq<nat>, errs: seq<bool>,
                ghost out: Outside, ghost start: Work, ghost stream: seq<Message>)
      returns (handled': seq<nat>, errs': seq<bool>)
      requires saga.db.Valid() && saga.db.At(w) == Idle
      requires saga.db.reliable ==> Handled(out, start, stream, handled, errs)
      modifies saga.db
      ensures saga.db.Valid() && saga.db.After(old(saga.db.states), old(saga.db.trace)) && saga.db.At(w) == Idle
      ensures |handled| <= |handled'| <= |handled| + 1
      ensures |handled'| > |handled| ==> exists k :: 0 <= k < |old(saga.db.stream)| && !old(saga.db.stream)[k].acked
      ensures saga.db.reliable ==>
                && Handled(out, start, stream, handled', errs')
                && (|handled'| == |handled| ==> forall k :: 0 <= k < |saga.db.stream| ==> saga.db.stream[k].acked)
    {
      handled', errs' := handled, errs;
      var msg := saga.db.NextMessage(w);
      if msg.Some? {
        if saga.db.reliable {
          HandledSnoc(out, start, stream, handled, errs, WorkOf(saga.db), saga.db.stream, msg.value);
        }
        var err := HandleMessage(w, msg.value);
        handled', errs' := handled + [msg.value], errs + [err];
      }
      saga.db.Interfere(w);
    }

    /** Executes the message's transfer and acknowledges the message after a nil return only. */
    method HandleMessage(ghost w: WorkerId, msg: nat) returns (err: bool)
      requires saga.db.Valid() && msg < |saga.db.stream| && saga.db.At(w) == Loading(msg)
      modifies saga.db
      ensures saga.db.Valid() && saga.db.After(old(saga.db.states), old(saga.db.trace)) && saga.db.At(w) == Idle
      ensures saga.db.reliable ==>
                && Out() == old(Out())
                && Outcome(TablesOf(saga.db), err)
                   == Executed(old(saga.db.accounts), old(TablesOf(saga.db)), old(saga.db.stream)[msg].id,
                               saga.db.replies(old(saga.db.asked)))
                && saga.db.stream == (if err then old(saga.db.stream)
                                      else old(saga.db.stream)[msg := old(saga.db.stream)[msg].(acked := true)])
                && saga.db.asked == old(saga.db.asked) + Asks(old(saga.db.rows), old(saga.db.stream)[msg].id)
    {
      var id := Data(w, msg);
      err := saga.Execute(w, msg, id);
      if !err {
        Confirm(w, msg);
      }
    }

    /** The transfer id a message carries. */
    method Data(ghost w: WorkerId, msg: nat) returns (id: TransferId)
      requires saga.db.Valid() && msg < |saga.db.stream| && saga.db.At(w) == Loading(msg)
      modifies saga.db
      ensures saga.db.Valid() && saga.db.After(old(saga.db.states), old(saga.db.trace))
      ensures saga.db.At(w) == Loading(msg) && msg < |saga.db.stream| && saga.db.stream[msg].id == id
      ensures id == old(saga.db.stream)[msg].id
      ensures saga.db.reliable ==>
                TablesOf(saga.db) == old(TablesOf(saga.db)) && RestOf(saga.db) == old(RestOf(saga.db))
    {
      id := saga.db.stream[msg].id;
      ghost var before := saga.db.states;
      saga.db.Interfere(w);
      saga.db.MessageKept(before, msg);
    }

    /** msg.Ack. */
    method Confirm(ghost w: WorkerId, msg: nat)
      requires saga.db.Valid() && saga.db.At(w) == Done(msg)
      modifies saga.db
      ensures saga.db.Valid() && saga.db.After(old(saga.db.states), old(saga.db.trace)) && saga.db.At(w) == Idle
      ensures saga.db.reliable ==>
                && TablesOf(saga.db) == old(TablesOf(saga.db)) && msg < |old(saga.db.stream)|
                && RestOf(saga.db) == old(RestOf(saga.db)).(
                     stream := old(saga.db.stream)[msg := old(saga.db.stream)[msg].(acked := true)])
    {
      saga.db.Interfere(w);
      saga.db.MessageStays(w);
      saga.db.AckMessage(w, msg);
    }
  }
}
