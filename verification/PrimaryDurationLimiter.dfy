/** The primary-side sliding-window limiter, each method one synchronous stretch of the event loop. */
module PrimaryDurationLimiters {
  import opened Common
  import opened Environment
  import opened Int32Queues
  import opened ParallelQueues
  import opened Float64SortedQueues
  import opened SortedLog
  import opened DurationModel

  /** The longest delay a Node.js timer takes. */
  const MAX_TIMER_MS := 2_147_483_647

  function Min(a: int, b: int): int {
    if a < b then a else b
  }

  /** How long the oldest entry stays inside the window. */
  function TimeLeft(log: seq<int>, window: nat, now: int): nat {
    if log == [] || log[0] + window <= now then 0 else log[0] + window - now
  }

  lemma {:induction false} AtLeastTwice(s: seq<int>, a: int, b: int)
    requires a <= b
    ensures AtLeast(AtLeast(s, a), b) == AtLeast(s, b)
  {
    if s != [] {
      AtLeastTwice(s[1..], a, b);
      if s[0] >= a {
        assert AtLeast(s, a)[1..] == AtLeast(s[1..], a);
      }
    }
  }

  /** Sweeping a log that an earlier sweep may have visited: the result is that of a single sweep, and
      either shorter than before or unchanged and within the threshold. */
  lemma SweepEffect(log0: seq<int>, log1: seq<int>, a: int, b: int)
    requires Sorted(log0) && a <= b && (log1 == log0 || log1 == AtLeast(log0, a))
    ensures var log := AtLeast(log1, b);
      && log == AtLeast(log0, b) && Sorted(log)
      && (|log| < |log1| || (log == log1 && (log != [] ==> log[0] >= b)))
  {
    AtLeastTwice(log0, a, b);
    AtLeastIsSuffix(log0, a);
    AtLeastIsSuffix(log1, b);
  }

  class PrimaryDurationLimiter {
    const requestsIdParallelQueue: Int32Queue
    const clustersIdParallelQueue: Int32Queue
    const grantTimestampSortedLog: Float64SortedQueue
    const rateLimitDuration: nat
    const maxConcurrentRequests: nat
    const ticksPerMs: nat
    const clock: Clock
    var isGranting: bool
    ghost var pc: Pc
    ghost var now: int
    ghost var decisions: seq<Decision>
    ghost var arrived: seq<Request>

    ghost function Limits(): Config {
      Config(maxConcurrentRequests, rateLimitDuration)
    }

    /** Everything this limiter owns, and the clock it shares. */
    ghost function Repr(): set<object>
      reads this, requestsIdParallelQueue, clustersIdParallelQueue
    {
      {this, requestsIdParallelQueue, requestsIdParallelQueue.data, clustersIdParallelQueue,
       clustersIdParallelQueue.data, grantTimestampSortedLog, grantTimestampSortedLog.values, clock}
    }

    /** The parts are sound, separate, and the two wait queues run in parallel. */
    ghost predicate Structure()
      reads this, Repr()
    {
      && Limits().Valid()
      && requestsIdParallelQueue != clustersIdParallelQueue
      && requestsIdParallelQueue.data != clustersIdParallelQueue.data
      && requestsIdParallelQueue.Valid() && clustersIdParallelQueue.Valid() && grantTimestampSortedLog.Valid()
      && grantTimestampSortedLog.capacity == maxConcurrentRequests
      && ticksPerMs > 0
      && |requestsIdParallelQueue.Contents| == |clustersIdParallelQueue.Contents|
      && now <= clock.time
    }

    /** The model state this object represents. */
    ghost function Abs(): State
      requires Structure()
      reads this, Repr()
    {
      State(now, grantTimestampSortedLog.Contents,
            Paired(requestsIdParallelQueue.Contents, clustersIdParallelQueue.Contents),
            isGranting, pc, decisions, arrived)
    }

    ghost predicate Valid()
      reads this, Repr()
    {
      Structure() && Inv(Limits(), Abs())
    }

    /** The sleep the loop asks for: until the oldest entry expires, but no longer than a timer can be. */
    ghost function TimerAsked(): Option<int>
      requires Structure()
      reads this, Repr()
    {
      if pc.Sleeping? then Some(Min(Left(Limits(), Abs()), MAX_TIMER_MS * ticksPerMs)) else None
    }

    constructor (maxConcurrentRequests: nat, durationTicks: nat, ticksPerMs: nat, clock: Clock)
      requires 0 < maxConcurrentRequests < 0x8000_0000 && durationTicks > 0 && ticksPerMs > 0
      ensures Valid()
      ensures fresh(requestsIdParallelQueue) && fresh(requestsIdParallelQueue.data)
      ensures fresh(clustersIdParallelQueue) && fresh(clustersIdParallelQueue.data)
      ensures fresh(grantTimestampSortedLog) && fresh(grantTimestampSortedLog.values)
      ensures Abs() == Init(clock.time)
      ensures this.clock == clock && this.ticksPerMs == ticksPerMs
      ensures Limits() == Config(maxConcurrentRequests, durationTicks + 50 * ticksPerMs)
    {
      requestsIdParallelQueue := new Int32Queue();
      clustersIdParallelQueue := new Int32Queue();
      grantTimestampSortedLog := new Float64SortedQueue(maxConcurrentRequests);
      rateLimitDuration := durationTicks + 50 * ticksPerMs;
      this.maxConcurrentRequests := maxConcurrentRequests;
      this.ticksPerMs := ticksPerMs;
      this.clock := clock;
      isGranting := false;
      pc, now, decisions, arrived := Idle, clock.time, [], [];
      new;
      hide Inv, Int32Queue.Valid, Float64SortedQueue.Valid;
      assert Abs() == Init(clock.time);
      InitHolds(Limits(), now);
    }

    /** `removeBefore(performance.now() - duration)`: either entries go, or the oldest one has time left. */
    method Sweep(ghost log0: seq<int>, ghost before: int) returns (reading: int)
      requires grantTimestampSortedLog.Valid() && Sorted(log0) && before <= clock.time
      requires grantTimestampSortedLog.Contents == log0
            || grantTimestampSortedLog.Contents == AtLeast(log0, before - rateLimitDuration)
      modifies grantTimestampSortedLog, clock
      ensures grantTimestampSortedLog.Valid()
      ensures reading == clock.time >= old(clock.time)
      ensures clock.time == old(clock.time) ==> clock.patience < old(clock.patience)
      ensures grantTimestampSortedLog.Contents == AtLeast(log0, reading - rateLimitDuration)
      ensures Sorted(grantTimestampSortedLog.Contents)
      ensures var log := grantTimestampSortedLog.Contents;
        |log| < |old(grantTimestampSortedLog.Contents)|
        || (log == old(grantTimestampSortedLog.Contents) && (log != [] ==> log[0] >= reading - rateLimitDuration))
    {
      hide AtLeast, Boundary;
      ghost var log1 := grantTimestampSortedLog.Contents;
      AtLeastIsSuffix(log0, before - rateLimitDuration);
      reading := clock.Now();
      SweepEffect(log0, log1, before - rateLimitDuration, reading - rateLimitDuration);
      grantTimestampSortedLog.RemoveBefore(reading - rateLimitDuration);
    }

    /** From the start, or from the timer, to the next suspension or the end: prune, and if the log stays
        full, return how long to sleep. Terminates because a full log either empties or the clock moves. */
    method PruneGrantLog() returns (wait: Option<int>, ghost r: Readings)
      requires Structure() && LogOk(Limits(), now, grantTimestampSortedLog.Contents)
      requires requestsIdParallelQueue.Contents != []
      modifies this`pc, this`now, grantTimestampSortedLog, clock
      ensures Structure()
      ensures CanPrune(Limits(), old(Abs()), r) && Abs() == Prune(Limits(), old(Abs()), r)
      ensures wait == TimerAsked()
    {
      wait, r := SweepUntilFreeOrBlocked();
      now := r.end;
      pc := if wait.None? then Resumed else Sleeping(r.end);
    }

    /** The prune's loop, up to its `await` or its end. */
    method SweepUntilFreeOrBlocked() returns (wait: Option<int>, ghost r: Readings)
      requires grantTimestampSortedLog.Valid() && Sorted(grantTimestampSortedLog.Contents)
      requires 0 < maxConcurrentRequests && ticksPerMs > 0
      modifies grantTimestampSortedLog, clock
      ensures grantTimestampSortedLog.Valid()
      ensures old(clock.time) <= r.cut <= r.end <= clock.time
      ensures var log := grantTimestampSortedLog.Contents;
        && log == AtLeast(old(grantTimestampSortedLog.Contents), r.cut - rateLimitDuration)
        && (|log| < maxConcurrentRequests ==> wait == None)
        && (|log| >= maxConcurrentRequests ==>
              && r.end - log[0] < rateLimitDuration
              && wait == Some(Min(log[0] + rateLimitDuration - r.end, MAX_TIMER_MS * ticksPerMs)))
      ensures wait.Some? ==> 0 < wait.value <= 2_147_483_647 * ticksPerMs
    {
      ghost var log0 := grantTimestampSortedLog.Contents;
      var reading := Sweep(log0, clock.time);
      while grantTimestampSortedLog.size >= maxConcurrentRequests
        invariant grantTimestampSortedLog.Valid()
        invariant old(clock.time) <= reading <= clock.time
        invariant grantTimestampSortedLog.Contents == AtLeast(log0, reading - rateLimitDuration)
        decreases grantTimestampSortedLog.size,
                  TimeLeft(grantTimestampSortedLog.Contents, rateLimitDuration, clock.time),
                  clock.patience
      {
        var first := grantTimestampSortedLog.Peek();
        if first.None? {
          break;
        }
        var second := clock.Now();
        var remaining := rateLimitDuration - (second - first.value);
        if remaining > 0 {
          return Some(Min(remaining, MAX_TIMER_MS * ticksPerMs)), Readings(reading, second);
        }
        reading := Sweep(log0, reading);
      }
      return None, Readings(reading, reading);
    }

    /** The head of the loop: start the next prune, or free the lock. */
    method LoopHead() returns (wait: Option<int>, ghost r: Readings)
      requires Structure() && LogOk(Limits(), now, grantTimestampSortedLog.Contents) && isGranting
      modifies this`pc, this`now, this`isGranting, grantTimestampSortedLog, clock
      ensures Structure()
      ensures CanPrune(Limits(), old(Abs()), r) && Abs() == DurationModel.LoopHead(Limits(), old(Abs()), r)
      ensures wait == TimerAsked()
    {
      wait, r := None, Readings(now, now);
      if requestsIdParallelQueue.size > 0 {
        wait, r := PruneGrantLog();
      } else {
        isGranting := false;
        pc := Idle;
      }
    }

    /** Starts the grant loop unless it is already running somewhere. */
    method GrantPendingRequests() returns (wait: Option<int>, ghost r: Readings)
      requires Structure() && LogOk(Limits(), now, grantTimestampSortedLog.Contents)
      modifies this`pc, this`now, this`isGranting, grantTimestampSortedLog, clock
      ensures Structure()
      ensures CanGrantPending(Limits(), old(Abs()), r)
      ensures Abs() == GrantPending(Limits(), old(Abs()), r)
      ensures wait == if old(isGranting) then None else TimerAsked()
    {
      wait, r := None, Readings(now, now);
      if isGranting {
        return;
      }
      isGranting := true;
      wait, r := LoopHead();
    }

    /** Both parallel queues take their half of the request. */
    method EnqueueRequest(workerId: int, requestId: int)
      requires Structure()
      modifies requestsIdParallelQueue, requestsIdParallelQueue.data
      modifies clustersIdParallelQueue, clustersIdParallelQueue.data, this`arrived
      ensures Structure() && fresh(Repr() - old(Repr()))
      ensures var request := Stored(Request(workerId, requestId));
        Abs() == old(Abs()).(queue := old(Abs()).queue + [request], arrived := old(arrived) + [request])
    {
      hide Float64SortedQueue.Valid;
      PairedAppend(requestsIdParallelQueue.Contents, clustersIdParallelQueue.Contents,
                   ToInt32(requestId), ToInt32(workerId));
      requestsIdParallelQueue.Enqueue(requestId);
      clustersIdParallelQueue.Enqueue(workerId);
      arrived := arrived + [Stored(Request(workerId, requestId))];
    }

    method DequeueRequest() returns (clusterId: int, requestId: int)
      requires Structure() && Abs().queue != []
      modifies requestsIdParallelQueue, clustersIdParallelQueue
      ensures Structure() && Repr() == old(Repr())
      ensures Request(clusterId, requestId) == old(Abs()).queue[0]
      ensures Abs() == old(Abs()).(queue := old(Abs()).queue[1..])
    {
      PairedTail(requestsIdParallelQueue.Contents, clustersIdParallelQueue.Contents);
      var first := requestsIdParallelQueue.Dequeue();
      var second := clustersIdParallelQueue.Dequeue();
      return second.value, first.value;
    }

    method HandleHotMessage(workerId: int, opcode: Opcode, payload: int)
      returns (wait: Option<int>, ghost r: Readings)
      requires Valid()
      modifies Repr()
      ensures Valid() && fresh(Repr() - old(Repr()))
      ensures opcode != ACQUIRE ==> Abs() == old(Abs())
      ensures opcode == ACQUIRE ==>
        var e := Arrive(Request(workerId, payload), r);
        Enabled(Limits(), old(Abs()), e) && Abs() == Step(Limits(), old(Abs()), e)
      ensures wait == if opcode == ACQUIRE && old(pc) == Idle then TimerAsked() else None
    {
      wait, r := None, Readings(now, now);
      if opcode == ACQUIRE {
        ghost var s := Abs();
        EnqueueRequest(workerId, payload);
        wait, r := GrantPendingRequests();
        StepKeeps(Limits(), s, Arrive(Request(workerId, payload), r));
      }
    }

    method HandleExit() returns (wait: Option<int>, ghost r: Readings)
      requires Valid()
      modifies Repr()
      ensures Valid() && Repr() == old(Repr())
      ensures Enabled(Limits(), old(Abs()), WorkerExit(r))
      ensures Abs() == Step(Limits(), old(Abs()), WorkerExit(r))
      ensures wait == None
    {
      ghost var s := Abs();
      wait, r := GrantPendingRequests();
      StepKeeps(Limits(), s, WorkerExit(r));
    }

    /** The prune's timer fires. */
    method WakeFromTimer() returns (wait: Option<int>, ghost r: Readings)
      requires Valid() && pc.Sleeping?
      modifies Repr()
      ensures Valid() && Repr() == old(Repr())
      ensures Enabled(Limits(), old(Abs()), Wake(r)) && Abs() == Step(Limits(), old(Abs()), Wake(r))
      ensures wait == TimerAsked()
    {
      ghost var s := Abs();
      wait, r := PruneGrantLog();
      StepKeeps(Limits(), s, Wake(r));
    }

    /** Gives the slot of a failed transmission back, then tries to continue granting. */
    method RefundSlot(failedRequestTimestamp: int) returns (wait: Option<int>, ghost at: int, ghost r: Readings)
      requires Structure() && LogOk(Limits(), now, grantTimestampSortedLog.Contents)
      modifies this`pc, this`now, this`isGranting, grantTimestampSortedLog, clock
      ensures Structure() && old(now) <= at
      ensures var refunded := Refund(Limits(), old(Abs()), failedRequestTimestamp, at);
        CanGrantPending(Limits(), refunded, r) && Abs() == GrantPending(Limits(), refunded, r)
      ensures wait == if old(isGranting) then None else TimerAsked()
      ensures old(isGranting) || old(Abs()).queue == [] ==>
        var log := old(grantTimestampSortedLog.Contents);
        grantTimestampSortedLog.Contents
        == if at - failedRequestTimestamp < rateLimitDuration && log != [] then log[1..] else log
    {
      hide Int32Queue.Valid, Paired, AtLeast, CanPrune;
      var reading := clock.Now();
      now, at := reading, reading;
      var hasNaturallyExpired := reading - failedRequestTimestamp >= rateLimitDuration;
      if !hasNaturallyExpired && grantTimestampSortedLog.size > 0 {
        var dropped := grantTimestampSortedLog.Dequeue();
      }
      wait, r := GrantPendingRequests();
    }

    /** Gives up the transmission of the grant recorded as decision `i`. */
    method FailGrant(ghost i: nat, timestamp: int) returns (wait: Option<int>, ghost at: int, ghost r: Readings)
      requires Structure() && LogOk(Limits(), now, grantTimestampSortedLog.Contents)
      requires i < |decisions| && decisions[i].Granted? && decisions[i].time == timestamp
      modifies this`pc, this`now, this`isGranting, this`decisions, grantTimestampSortedLog, clock
      ensures Structure() && old(now) <= at
      ensures var refunded := GiveUp(Limits(), old(Abs()), i, at);
        CanGrantPending(Limits(), refunded, r) && Abs() == GrantPending(Limits(), refunded, r)
      ensures wait == if old(isGranting) then None else TimerAsked()
    {
      decisions := decisions[i := decisions[i].(status := Failed)];
      wait, at, r := RefundSlot(timestamp);
    }

    /** One attempt to transmit the grant recorded as decision `i`. */
    method GrantRequest(ghost i: nat, timestamp: int, retryCount: nat, throws: bool)
      returns (wait: Option<int>, ghost at: int, ghost r: Readings)
      requires Structure() && LogOk(Limits(), now, grantTimestampSortedLog.Contents)
      requires i < |decisions| && decisions[i].Granted? && decisions[i].time == timestamp
      modifies this`pc, this`now, this`isGranting, this`decisions, grantTimestampSortedLog, clock
      ensures Structure() && old(now) <= at
      ensures !throws ==> at == old(now) && Abs() == SetStatus(old(Abs()), i, InFlight(retryCount))
      ensures throws ==>
        var refunded := GiveUp(Limits(), old(Abs()), i, at);
        CanGrantPending(Limits(), refunded, r) && Abs() == GrantPending(Limits(), refunded, r)
      ensures wait == if old(isGranting) || !throws then None else TimerAsked()
    {
      wait, at, r := None, now, Readings(now, now);
      if throws {
        wait, at, r := FailGrant(i, timestamp);
      } else {
        decisions := decisions[i := decisions[i].(status := InFlight(retryCount))];
      }
    }

    /** Stamps a grant and logs it; the log has room for it. */
    method RecordGrant(request: Request) returns (timestamp: int)
      requires Structure() && LogOk(Limits(), now, grantTimestampSortedLog.Contents)
      requires |grantTimestampSortedLog.Contents| < maxConcurrentRequests
      modifies this`now, this`decisions, grantTimestampSortedLog, grantTimestampSortedLog.values, clock
      ensures Structure() && old(now) <= timestamp
      ensures Abs() == Grant(old(Abs()), request, timestamp)
      ensures LogOk(Limits(), now, grantTimestampSortedLog.Contents)
      ensures SetStatus(Abs(), |old(decisions)|, InFlight(0)) == Abs()
    {
      timestamp := clock.Now();
      now := timestamp;
      var queueFull := grantTimestampSortedLog.Enqueue(timestamp);
      assert !queueFull;
      decisions := decisions + [Granted(request, timestamp, InFlight(0))];
    }

    /** One turn of the grant loop after its prune: take the next request, and grant or skip it. */
    method GrantNext(cluster: Cluster, throws: bool) returns (ghost at: int, ghost refundAt: int)
      requires Structure() && LogOk(Limits(), now, grantTimestampSortedLog.Contents)
      requires Abs().queue != [] && |grantTimestampSortedLog.Contents| < maxConcurrentRequests && isGranting
      modifies this, requestsIdParallelQueue, clustersIdParallelQueue
      modifies grantTimestampSortedLog, grantTimestampSortedLog.values, clock
      ensures Structure() && Repr() == old(Repr())
      ensures old(now) <= at <= refundAt
      ensures var gone := !cluster.Reachable(old(Abs()).queue[0].worker);
        Abs() == AfterPrune(Limits(), old(Abs()), gone, at, throws, refundAt)
    {
      hide Sorted, Int32Queue.Valid, AtLeast, CanPrune;
      ghost var s := Abs();
      ghost var r: Readings;
      var wait: Option<int>;
      var clusterId, requestId := DequeueRequest();
      at, refundAt := now, now;
      if !cluster.Reachable(clusterId) {
        decisions := decisions + [Skipped(Request(clusterId, requestId))];
        return;
      }
      var timestamp := RecordGrant(Request(clusterId, requestId));
      at := timestamp;
      wait, refundAt, r := GrantRequest(|decisions| - 1, timestamp, 0, throws);
    }

    /** The grant loop resumes after the awaited prune. */
    method ContinueAfterPrune(cluster: Cluster, throws: bool) returns (wait: Option<int>, ghost e: Event)
      requires Valid() && pc == Resumed
      modifies Repr()
      ensures Valid() && Repr() == old(Repr())
      ensures wait == TimerAsked()
      ensures e.Continue? && e.gone == !cluster.Reachable(old(Abs()).queue[0].worker) && e.threw == throws
      ensures Enabled(Limits(), old(Abs()), e) && Abs() == Step(Limits(), old(Abs()), e)
    {
      hide TimesOrdered, StatusOk, Dominated, WindowSafe, Requests, AtLeast, CanPrune, Paired;
      hide Int32Queue.Valid, Float64SortedQueue.Valid, Sorted;
      ghost var s := Abs();
      ghost var gone := !cluster.Reachable(s.queue[0].worker);
      ghost var at, refundAt := GrantNext(cluster, throws);
      AfterPruneKeeps(Limits(), s, gone, at, throws, refundAt);
      ghost var r: Readings;
      wait, r := LoopHead();
      e := Continue(gone, at, throws, refundAt, r);
      StepKeeps(Limits(), s, e);
    }

    /** `worker.send` calls back for the attempt numbered `retryCount` of the grant recorded at `i`. The
        code reads the clock only for a refund; `when` is the time of the callback, for the history. */
    method SendCallback(ghost i: nat, worker: int, timestamp: int, retryCount: nat, err: bool, cluster: Cluster,
                        ghost when: int)
      returns (retryInMs: Option<int>, wait: Option<int>, ghost e: Event)
      requires Valid() && IsInFlight(Abs(), i) && now <= when <= clock.time
      requires decisions[i].request.worker == worker
      requires decisions[i].time == timestamp && decisions[i].status.retry == retryCount
      modifies Repr()
      ensures Valid() && Repr() == old(Repr())
      ensures if err then e.SendError? && e.index == i && e.dead == (worker in cluster.dead) else e == SendOk(i, when)
      ensures Enabled(Limits(), old(Abs()), e) && Abs() == Step(Limits(), old(Abs()), e)
      ensures retryInMs == if err && worker !in cluster.dead && retryCount < 3 then Some(50) else None
      ensures wait == None
    {
      hide TimesOrdered, StatusOk, Dominated, WindowSafe, Requests, AtLeast, CanPrune, Paired;
      hide Int32Queue.Valid, Float64SortedQueue.Valid, Sorted;
      ghost var s := Abs();
      retryInMs, wait := None, None;
      if err && (worker in cluster.dead || retryCount >= 3) {
        ghost var at, r;
        wait, at, r := FailGrant(i, timestamp);
        e := SendError(i, worker in cluster.dead, at, r);
      } else {
        now := when;
        decisions := decisions[i := decisions[i].(status := if err then Backoff(retryCount + 1) else Delivered(when))];
        e := if err then SendError(i, false, when, Readings(when, when)) else SendOk(i, when);
        retryInMs := if err then Some(50) else None;
      }
      StepKeeps(Limits(), s, e);
    }

    /** The 50 ms timer of a retry fires: the same grant, with its original timestamp, is sent again. */
    method RetryGrant(ghost i: nat, timestamp: int, retryCount: nat, throws: bool)
      returns (wait: Option<int>, ghost at: int, ghost r: Readings)
      requires Valid() && IsBackoff(Abs(), i)
      requires decisions[i].time == timestamp && decisions[i].status.retry == retryCount
      modifies Repr()
      ensures Valid() && Repr() == old(Repr())
      ensures var e := RetryTimer(i, throws, at, r);
        Enabled(Limits(), old(Abs()), e) && Abs() == Step(Limits(), old(Abs()), e)
      ensures wait == None
    {
      ghost var s := Abs();
      wait, at, r := GrantRequest(i, timestamp, retryCount, throws);
      StepKeeps(Limits(), s, RetryTimer(i, throws, at, r));
    }
  }
}
