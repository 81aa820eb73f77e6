/**
 The circuit breaker: a mutable object whose lock is released while the protected
 call runs, so any number of calls can be in flight between admission and outcome.
 */
module Breaker {
  import opened Arithmetic
  import opened Ledger

  datatype Mode = Closed | Open | HalfOpen

  /** The breaker's fields; times and timeout count the same unit. */
  datatype State = State(mode: Mode, fails: int, openedAt: int, maxFailures: int, resetTimeout: int)

  function Fresh(maxFailures: int, resetTimeout: int): State {
    State(Closed, 0, 0, maxFailures, resetTimeout)
  }

  /** The first critical section of Call: whether the call is let through, and the state after. */
  predicate Admits(s: State, now: int) {
    s.mode == Open ==> now - s.openedAt >= s.resetTimeout
  }

  function Entered(s: State, now: int): State {
    if s.mode == Open && Admits(s, now) then s.(mode := HalfOpen) else s
  }

  /** The second critical section: onFailure or onSuccess. */
  function Left(s: State, failed: bool, now: int): State {
    if !failed then s.(mode := Closed, fails := 0)
    else if s.mode == HalfOpen || s.fails + 1 >= s.maxFailures then s.(mode := Open, openedAt := now, fails := 0)
    else s.(fails := s.fails + 1)
  }

  class CircuitBreaker {
    var mode: Mode
    var consecutiveFails: int
    var openedAt: int
    const maxFailures: int
    const resetTimeout: int

    constructor (maxFailures: int, resetTimeout: int)
      ensures Value() == Fresh(maxFailures, resetTimeout)
    {
      mode, consecutiveFails, openedAt := Closed, 0, 0;
      this.maxFailures, this.resetTimeout := maxFailures, resetTimeout;
    }

    function Value(): State
      reads this
    {
      State(mode, consecutiveFails, openedAt, maxFailures, resetTimeout)
    }

    method Enter(now: int) returns (admitted: bool)
      modifies this
      ensures admitted <==> Admits(old(Value()), now)
      ensures Value() == Entered(old(Value()), now)
    {
      admitted := true;
      if mode == Open {
        if now - openedAt >= resetTimeout {
          mode := HalfOpen;
        } else {
          admitted := false;
        }
      }
    }

    method OnFailure(now: int)
      modifies this
      ensures Value() == Left(old(Value()), true, now)
    {
      consecutiveFails := consecutiveFails + 1;
      if mode == HalfOpen || consecutiveFails >= maxFailures {
        mode := Open;
        openedAt := now;
        consecutiveFails := 0;
      }
    }

    method OnSuccess(now: int)
      modifies this
      ensures Value() == Left(old(Value()), false, now)
    {
      mode := Closed;
      consecutiveFails := 0;
    }

    /**
     Call with nobody else using the breaker: `failed` and `end` are what the protected
     call does and when it returns.
     */
    method Call(start: int, end: int, failed: bool) returns (invoked: bool, err: bool)
      modifies this
      ensures invoked <==> Admits(old(Value()), start)
      ensures err <==> !invoked || failed
      ensures Value() == if invoked then Left(Entered(old(Value()), start), failed, end) else old(Value())
      ensures invoked && !failed ==> mode == Closed && consecutiveFails == 0
    {
      invoked := Enter(start);
      err := true;
      if invoked {
        if failed {
          OnFailure(end);
        } else {
          OnSuccess(end);
          err := false;
        }
      }
    }
  }

  // ---- Any number of calls in flight ----

  datatype Machine = Machine(breaker: State, inFlight: nat, now: int)

  /** Time passes, a call asks to enter, or an admitted call returns. */
  datatype Action = Tick(elapsed: nat) | Enter | Return(failed: bool)

  predicate Enabled(m: Machine, a: Action) {
    a.Return? ==> m.inFlight > 0
  }

  function Next(m: Machine, a: Action): Machine
    requires Enabled(m, a)
  {
    match a
    case Tick(elapsed) => m.(now := m.now + elapsed)
    case Enter =>
      m.(breaker := Entered(m.breaker, m.now), inFlight := m.inFlight + (if Admits(m.breaker, m.now) then 1 else 0))
    case Return(failed) => m.(breaker := Left(m.breaker, failed, m.now), inFlight := m.inFlight - 1)
  }

  /** How many calls the callers make at a time; None is any number. */
  predicate Permits(callers: Option<nat>, m: Machine, a: Action) {
    a.Enter? && callers.Some? ==> m.inFlight < callers.value
  }

  predicate StepOk(callers: Option<nat>, m: Machine, a: Action) {
    Enabled(m, a) && Permits(callers, m, a)
  }

  ghost predicate Run(callers: Option<nat>, m: Machine, acts: seq<Action>, m': Machine)
    decreases |acts|
  {
    if |acts| == 0 then m' == m
    else
      var n := |acts| - 1;
      exists p :: Run(callers, m, acts[..n], p) && StepOk(callers, p, acts[n]) && m' == Next(p, acts[n])
  }

  lemma RunSnoc(callers: Option<nat>, m: Machine, acts: seq<Action>, p: Machine, a: Action)
    requires Run(callers, m, acts, p) && StepOk(callers, p, a)
    ensures Run(callers, m, acts + [a], Next(p, a))
  {
    assert (acts + [a])[..|acts|] == acts;
  }

  function New(limit: int, timeout: int, start: int): Machine {
    Machine(Fresh(limit, timeout), 0, start)
  }

  /** What holds whenever the lock is free. */
  predicate Sound(m: Machine, limit: int, timeout: int) {
    && m.breaker.maxFailures == limit && m.breaker.resetTimeout == timeout
    && 0 <= m.breaker.fails < limit
    && (m.breaker.mode == HalfOpen ==> m.inFlight > 0)
    && (m.breaker.mode == Open ==> m.breaker.openedAt <= m.now)
  }

  /**
   Under all interleavings of in-flight calls: the failure count stays below the
   limit, HALF_OPEN means a call is in flight, OPEN was entered in the past, and no
   more calls are in flight than the callers make at a time.
   */
  lemma {:induction false} SoundRun(callers: Option<nat>, limit: int, timeout: int, start: int, acts: seq<Action>,
                                    m: Machine)
    requires limit >= 1 && Run(callers, New(limit, timeout, start), acts, m)
    ensures Sound(m, limit, timeout) && m.now >= start && (callers.Some? ==> m.inFlight <= callers.value)
    decreases |acts|
  {
    if |acts| > 0 {
      var n := |acts| - 1;
      var p :| Run(callers, New(limit, timeout, start), acts[..n], p) && StepOk(callers, p, acts[n])
               && m == Next(p, acts[n]);
      SoundRun(callers, limit, timeout, start, acts[..n], p);
    }
  }

  /** While OPEN, no call gets through before the timeout has passed since the breaker opened. */
  lemma OpenRejects(callers: Option<nat>, limit: int, timeout: int, start: int, acts: seq<Action>, m: Machine)
    requires limit >= 1 && Run(callers, New(limit, timeout, start), acts, m)
    requires m.breaker.mode == Open && m.now < m.breaker.openedAt + timeout
    ensures Next(m, Enter) == m
  {
    SoundRun(callers, limit, timeout, start, acts, m);
  }

  // ---- The documented single probe ----

  /** A new breaker after `n` failures, one call after the other and all at once. */
  function Failing(limit: nat, timeout: int, start: int, n: nat): Machine {
    var breaker := if n < limit then State(Closed, n, 0, limit, timeout) else State(Open, 0, start, limit, timeout);
    Machine(breaker, 0, start)
  }

  lemma FailOnce(limit: nat, timeout: int, start: int, n: nat)
    requires 0 < n <= limit
    ensures var m := Failing(limit, timeout, start, n - 1);
            && Next(m, Enter) == m.(inFlight := 1)
            && Next(m.(inFlight := 1), Return(true)) == Failing(limit, timeout, start, n)
  {
  }

  /** `n` failures, one call after the other, take a new breaker to its limit. */
  lemma {:induction false} FailInARow(callers: nat, limit: nat, timeout: int, start: int, n: nat)
    returns (acts: seq<Action>)
    requires callers >= 1 && 1 <= limit && n <= limit
    ensures Run(Some(callers), New(limit, timeout, start), acts, Failing(limit, timeout, start, n))
  {
    acts := [];
    if n > 0 {
      acts := FailInARow(callers, limit, timeout, start, n - 1);
      var m := Failing(limit, timeout, start, n - 1);
      FailOnce(limit, timeout, start, n);
      RunSnoc(Some(callers), New(limit, timeout, start), acts, m, Enter);
      RunSnoc(Some(callers), New(limit, timeout, start), acts + [Enter], m.(inFlight := 1), Return(true));
      acts := acts + [Enter] + [Return(true)];
    }
  }

  /** Once the timeout has passed, every caller gets through before the first probe returns. */
  lemma {:induction false} ProbeTogether(callers: nat, m0: Machine, acts: seq<Action>, m: Machine, n: nat)
    returns (acts': seq<Action>)
    requires Run(Some(callers), m0, acts, m) && m.breaker.mode == Open && Admits(m.breaker, m.now) && m.inFlight == 0
    requires 1 <= n <= callers
    ensures Run(Some(callers), m0, acts', m.(breaker := m.breaker.(mode := HalfOpen), inFlight := n))
  {
    if n == 1 {
      RunSnoc(Some(callers), m0, acts, m, Enter);
      acts' := acts + [Enter];
    } else {
      acts' := ProbeTogether(callers, m0, acts, m, n - 1);
      RunSnoc(Some(callers), m0, acts', m.(breaker := m.breaker.(mode := HalfOpen), inFlight := n - 1), Enter);
      acts' := acts' + [Enter];
    }
  }

  /** For every breaker and any number of callers, a run in which all of them probe at the same time. */
  lemma ManyProbes(callers: nat, limit: nat, timeout: int, start: int) returns (acts: seq<Action>, m: Machine)
    requires callers >= 1 && limit >= 1
    ensures Run(Some(callers), New(limit, timeout, start), acts, m) && m.breaker.mode == HalfOpen
    ensures m.inFlight == callers
  {
    var m0 := New(limit, timeout, start);
    acts := FailInARow(callers, limit, timeout, start, limit);
    m := Failing(limit, timeout, start, limit);
    var wait := Tick(if timeout > 0 then timeout else 0);
    RunSnoc(Some(callers), m0, acts, m, wait);
    acts, m := acts + [wait], Next(m, wait);
    acts := ProbeTogether(callers, m0, acts, m, callers);
    m := m.(breaker := m.breaker.(mode := HalfOpen), inFlight := callers);
  }

  /** In HALF_OPEN exactly one call is in flight, in every run with that many callers. */
  ghost predicate SingleProbe(callers: nat, limit: int, timeout: int) {
    forall start: int, acts: seq<Action>, m: Machine ::
      Run(Some(callers), New(limit, timeout, start), acts, m) && m.breaker.mode == HalfOpen ==> m.inFlight == 1
  }

  /** The documented single probe is kept exactly by callers that make one call at a time. */
  lemma SingleProbeIsOneCaller(callers: nat, limit: nat, timeout: int)
    requires limit >= 1
    ensures SingleProbe(callers, limit, timeout) <==> callers <= 1
  {
    if callers <= 1 {
      forall start: int, acts: seq<Action>, m: Machine
        | Run(Some(callers), New(limit, timeout, start), acts, m) && m.breaker.mode == HalfOpen
        ensures m.inFlight == 1
      {
        SoundRun(Some(callers), limit, timeout, start, acts, m);
      }
    } else {
      var acts, m := ManyProbes(callers, limit, timeout, 0);
    }
  }

  // ---- Sequential calls, whatever their outcomes ----

  datatype Attempt = Attempt(start: int, end: int, failed: bool)

  /** Calls follow one another on a monotone clock that began at `t0`. */
  predicate Ordered(t0: int, calls: seq<Attempt>) {
    && (forall i :: 0 <= i < |calls| ==> t0 <= calls[i].start <= calls[i].end)
    && (forall i, j :: 0 <= i < j < |calls| ==> calls[i].end <= calls[j].start)
  }

  /** A sequential schedule of calls between `t0` and `now`. */
  predicate Between(t0: int, now: int, calls: seq<Attempt>) {
    Ordered(t0, calls) && forall i :: 0 <= i < |calls| ==> calls[i].end <= now
  }

  /** The breaker after the calls, and how many of them reached the service. */
  function Served(s: State, calls: seq<Attempt>): (State, nat)
    decreases |calls|
  {
    if |calls| == 0 then (s, 0)
    else
      var n := |calls| - 1;
      var (s', k) := Served(s, calls[..n]);
      if Admits(s', calls[n].start) then
        (Left(Entered(s', calls[n].start), calls[n].failed, calls[n].end), k + 1)
      else (s', k)
  }

  /** What the k-th call finds a new breaker in. */
  function Found(limit: int, timeout: int, calls: seq<Attempt>, k: nat): State
    requires k <= |calls|
  {
    Served(Fresh(limit, timeout), calls[..k]).0
  }

  /** The k-th call finds the breaker CLOSED and fails. */
  predicate FailedClosed(limit: int, timeout: int, calls: seq<Attempt>, k: nat)
    requires k < |calls|
  {
    Found(limit, timeout, calls, k).mode == Closed && calls[k].failed
  }

  /** How many calls in a row just before the k-th found the breaker CLOSED and failed. */
  function Streak(limit: int, timeout: int, calls: seq<Attempt>, k: nat): nat
    requires k <= |calls|
  {
    if k > 0 && FailedClosed(limit, timeout, calls, k - 1) then Streak(limit, timeout, calls, k - 1) + 1 else 0
  }

  lemma {:induction false} StreakMeans(limit: int, timeout: int, calls: seq<Attempt>, k: nat, n: nat)
    requires k <= |calls|
    ensures Streak(limit, timeout, calls, k) >= n <==>
              n <= k && forall i :: k - n <= i < k ==> FailedClosed(limit, timeout, calls, i)
  {
    if k > 0 && n > 0 && FailedClosed(limit, timeout, calls, k - 1) {
      StreakMeans(limit, timeout, calls, k - 1, n - 1);
    }
  }

  /** One more call. */
  lemma FoundNext(limit: int, timeout: int, calls: seq<Attempt>, k: nat)
    requires k < |calls|
    ensures var s := Found(limit, timeout, calls, k);
            var call := calls[k];
            Found(limit, timeout, calls, k + 1)
            == if Admits(s, call.start) then Left(Entered(s, call.start), call.failed, call.end) else s
  {
    assert calls[..k + 1][..k] == calls[..k];
  }

  /** CLOSED, with the current streak of failures, or OPEN. */
  predicate Counted(limit: int, timeout: int, calls: seq<Attempt>, k: nat)
    requires k <= |calls|
  {
    var s := Found(limit, timeout, calls, k);
    && s.maxFailures == limit && s.resetTimeout == timeout
    && match s.mode
       case Closed => s.fails == Streak(limit, timeout, calls, k) < limit
       case Open => s.fails == 0
       case HalfOpen => false
  }

  lemma {:induction false} FoundCounts(limit: int, timeout: int, calls: seq<Attempt>, k: nat)
    requires limit >= 1 && k <= |calls|
    ensures Counted(limit, timeout, calls, k)
  {
    if k > 0 {
      FoundCounts(limit, timeout, calls, k - 1);
      FoundNext(limit, timeout, calls, k - 1);
    } else {
      assert calls[..0] == [];
    }
  }

  /** The last `limit` calls up to and including the k-th found the breaker CLOSED and failed. */
  predicate LimitReached(limit: int, timeout: int, calls: seq<Attempt>, k: nat)
    requires k < |calls|
  {
    limit <= k + 1 && forall i: nat :: k + 1 - limit <= i <= k ==> FailedClosed(limit, timeout, calls, i)
  }

  /**
   What a breaker does to calls made one after the other, whatever their outcomes. A call
   is invoked unless the breaker is OPEN and its timeout has not passed; a call that is not
   invoked changes nothing. After a success the breaker is CLOSED. After a failure it is
   OPEN, from the end of the call on, exactly if the call was a probe or completes
   `limit` calls in a row that found it CLOSED and failed. Otherwise it is CLOSED.
   */
  lemma SequentialCall(limit: int, timeout: int, calls: seq<Attempt>, k: nat)
    requires limit >= 1 && k < |calls|
    ensures var s, s' := Found(limit, timeout, calls, k), Found(limit, timeout, calls, k + 1);
            var call := calls[k];
            if s.mode == Open && call.start - s.openedAt < timeout then !Admits(s, call.start) && s' == s
            else
              && Admits(s, call.start)
              && (if call.failed && (s.mode == Open || LimitReached(limit, timeout, calls, k))
                  then s'.mode == Open && s'.openedAt == call.end
                  else s'.mode == Closed)
  {
    FoundCounts(limit, timeout, calls, k);
    FoundCounts(limit, timeout, calls, k + 1);
    FoundNext(limit, timeout, calls, k);
    StreakMeans(limit, timeout, calls, k + 1, limit);
    if LimitReached(limit, timeout, calls, k) {
      assert FailedClosed(limit, timeout, calls, k);
    }
  }

  /** The call after a success is always invoked. */
  lemma SuccessLetsTheNextThrough(limit: int, timeout: int, calls: seq<Attempt>, k: nat)
    requires limit >= 1 && k + 1 < |calls| && !calls[k].failed
    requires Admits(Found(limit, timeout, calls, k), calls[k].start)
    ensures Admits(Found(limit, timeout, calls, k + 1), calls[k + 1].start)
  {
    SequentialCall(limit, timeout, calls, k);
  }

  /** A service whose calls all succeed is invoked every time. */
  lemma {:induction false} HealthyServiceIsServed(limit: int, timeout: int, calls: seq<Attempt>)
    requires limit >= 1 && forall i :: 0 <= i < |calls| ==> !calls[i].failed
    ensures Served(Fresh(limit, timeout), calls).1 == |calls|
    ensures Found(limit, timeout, calls, |calls|).mode == Closed
    decreases |calls|
  {
    assert calls[..|calls|] == calls;
    if |calls| > 0 {
      var n := |calls| - 1;
      HealthyServiceIsServed(limit, timeout, calls[..n]);
      assert Found(limit, timeout, calls[..n], n) == Found(limit, timeout, calls, n) by {
        assert calls[..n][..n] == calls[..n];
      }
      SequentialCall(limit, timeout, calls, n);
    }
  }

  // ---- A service that always fails ----

  predicate AllFail(calls: seq<Attempt>) {
    forall i :: 0 <= i < |calls| ==> calls[i].failed
  }

  /** Until it first opens, the breaker lets through fewer calls than the limit; then one more per timeout at most. */
  predicate Paced(s: State, served: nat, t0: int, limit: int, timeout: int) {
    && s.maxFailures == limit && s.resetTimeout == timeout && 0 <= s.fails < limit
    && match s.mode
       case Closed => served == s.fails
       case Open => served >= limit && (served - limit) * timeout <= s.openedAt - t0
       case HalfOpen => false
  }

  lemma PacedStep(s: State, served: nat, t0: int, limit: int, timeout: int, call: Attempt)
    requires limit >= 1 && timeout > 0 && Paced(s, served, t0, limit, timeout)
    requires t0 <= call.start <= call.end
    ensures Admits(s, call.start) ==>
              Paced(Left(Entered(s, call.start), true, call.end), served + 1, t0, limit, timeout)
  {
    if s.mode == Open && Admits(s, call.start) {
      assert (served + 1 - limit) * timeout == (served - limit) * timeout + timeout;
    } else if s.mode == Closed {
      assert (limit - limit) * timeout == 0;
    }
  }

  lemma {:induction false} ServedPaced(limit: int, timeout: int, t0: int, calls: seq<Attempt>)
    requires limit >= 1 && timeout > 0 && Ordered(t0, calls) && AllFail(calls)
    ensures var (s, k) := Served(Fresh(limit, timeout), calls);
            && Paced(s, k, t0, limit, timeout)
            && (s.mode == Open ==> exists i :: 0 <= i < |calls| && s.openedAt == calls[i].end)
    decreases |calls|
  {
    if |calls| > 0 {
      var n := |calls| - 1;
      ServedPaced(limit, timeout, t0, calls[..n]);
      var (s, k) := Served(Fresh(limit, timeout), calls[..n]);
      PacedStep(s, k, t0, limit, timeout, calls[n]);
    }
  }

  /**
   Load bound: over the time from `t0` to `now`, a service that always fails is
   invoked at most maxFailures + (now - t0) / resetTimeout times.
   */
  lemma LoadBound(limit: int, timeout: int, t0: int, now: int, calls: seq<Attempt>)
    requires limit >= 1 && timeout > 0 && t0 <= now && Between(t0, now, calls) && AllFail(calls)
    ensures Served(Fresh(limit, timeout), calls).1 <= limit + (now - t0) / timeout
  {
    ServedPaced(limit, timeout, t0, calls);
    var (s, k) := Served(Fresh(limit, timeout), calls);
    PacedBound(s, k, t0, now, limit, timeout);
  }

  lemma PacedBound(s: State, served: nat, t0: int, now: int, limit: int, timeout: int)
    requires timeout > 0 && t0 <= now && Paced(s, served, t0, limit, timeout) && (s.mode == Open ==> s.openedAt <= now)
    ensures served <= limit + (now - t0) / timeout
  {
    if s.mode == Open {
      QuotientBound(served - limit, timeout, now - t0);
    } else {
      QuotientBound(0, timeout, now - t0);
    }
  }

  // ---- The bound is exact ----

  /** `limit` calls at once, then one call per elapsed timeout, all failing instantly. */
  function Pressing(limit: nat, timeout: int, t0: int, probes: nat): (calls: seq<Attempt>)
    ensures |calls| == limit + probes
    decreases probes, limit
  {
    if probes > 0 then
      Pressing(limit, timeout, t0, probes - 1) + [Attempt(t0 + probes * timeout, t0 + probes * timeout, true)]
    else if limit > 0 then Pressing(limit - 1, timeout, t0, 0) + [Attempt(t0, t0, true)]
    else []
  }

  lemma {:induction false} PressingOpens(limit: nat, n: nat, timeout: int, t0: int)
    requires n <= limit && limit >= 1 && timeout > 0
    ensures var (s, k) := Served(Fresh(limit, timeout), Pressing(n, timeout, t0, 0));
            && k == n
            && s == (if n < limit then State(Closed, n, 0, limit, timeout) else State(Open, 0, t0, limit, timeout))
  {
    if n > 0 {
      PressingOpens(limit, n - 1, timeout, t0);
      var calls := Pressing(n, timeout, t0, 0);
      assert calls[..n - 1] == Pressing(n - 1, timeout, t0, 0);
    }
  }

  /** One more probe, exactly one timeout after the breaker last opened, gets through and reopens it. */
  lemma PressingProbes(limit: nat, timeout: int, t0: int, probes: nat)
    requires limit >= 1 && timeout > 0 && probes > 0
    requires Served(Fresh(limit, timeout), Pressing(limit, timeout, t0, probes - 1))
             == (State(Open, 0, t0 + (probes - 1) * timeout, limit, timeout), limit + probes - 1)
    ensures Served(Fresh(limit, timeout), Pressing(limit, timeout, t0, probes))
            == (State(Open, 0, t0 + probes * timeout, limit, timeout), limit + probes)
  {
    var earlier, calls := Pressing(limit, timeout, t0, probes - 1), Pressing(limit, timeout, t0, probes);
    var at := t0 + probes * timeout;
    assert calls == earlier + [Attempt(at, at, true)];
    assert calls[..|calls| - 1] == earlier;
    assert at - (t0 + (probes - 1) * timeout) == timeout;
  }

  lemma {:induction false} PressingServed(limit: nat, timeout: int, t0: int, probes: nat)
    requires limit >= 1 && timeout > 0
    ensures Served(Fresh(limit, timeout), Pressing(limit, timeout, t0, probes))
            == (State(Open, 0, t0 + probes * timeout, limit, timeout), limit + probes)
  {
    if probes == 0 {
      PressingOpens(limit, limit, timeout, t0);
    } else {
      PressingServed(limit, timeout, t0, probes - 1);
      PressingProbes(limit, timeout, t0, probes);
    }
  }

  /** The calls of the schedule follow one another and end when the last timeout has passed. */
  lemma {:induction false} PressingIsOrdered(limit: nat, timeout: int, t0: int, probes: nat)
    requires timeout > 0
    ensures Between(t0, t0 + probes * timeout, Pressing(limit, timeout, t0, probes))
    ensures AllFail(Pressing(limit, timeout, t0, probes))
    decreases probes, limit
  {
    if probes > 0 {
      PressingIsOrdered(limit, timeout, t0, probes - 1);
      var last := t0 + probes * timeout;
      assert probes * timeout == (probes - 1) * timeout + timeout;
      LastOrdered(t0, last - timeout, Pressing(limit, timeout, t0, probes - 1), Attempt(last, last, true));
    } else if limit > 0 {
      PressingIsOrdered(limit - 1, timeout, t0, 0);
      LastOrdered(t0, t0, Pressing(limit - 1, timeout, t0, 0), Attempt(t0, t0, true));
    }
  }

  lemma LastOrdered(t0: int, now: int, calls: seq<Attempt>, call: Attempt)
    requires Between(t0, now, calls) && t0 <= now <= call.start <= call.end
    ensures Between(t0, call.end, calls + [call])
  {
  }

  /** The load bound is the best possible: at every multiple of the timeout some schedule has reached it. */
  lemma LoadBoundIsReached(limit: nat, timeout: int, t0: int, probes: nat, now: int)
    requires limit >= 1 && timeout > 0 && now == t0 + probes * timeout
    ensures exists calls ::
              && Between(t0, now, calls) && AllFail(calls)
              && Served(Fresh(limit, timeout), calls).1 == limit + (now - t0) / timeout
  {
    var calls := Pressing(limit, timeout, t0, probes);
    PressingServed(limit, timeout, t0, probes);
    PressingIsOrdered(limit, timeout, t0, probes);
    ExactQuotient(probes, timeout, now - t0);
  }
}
