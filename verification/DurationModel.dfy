/** The duration limiter as a state machine: one event is one synchronous stretch of the primary's
    event loop, cut exactly at the `await` points of the two async functions. */
module DurationModel {
  import opened Common
  import opened SortedLog

  /** `max` permits per `window` ticks. */
  datatype Config = Config(max: nat, window: nat) {
    predicate Valid() { max > 0 && window > 0 }
  }

  /** Where one granted permit's transmission stands. */
  datatype Status =
    | InFlight(retry: nat)    // handed to worker.send, outcome unknown
    | Backoff(retry: nat)     // waiting for the 50 ms timer of the next attempt
    | Delivered(at: int)      // took effect in the worker at this time
    | Failed                  // given up, slot refunded

  /** What became of one dequeued request. */
  datatype Decision =
    | Skipped(request: Request)
    | Granted(request: Request, time: int, status: Status)

  /** The continuation of `#grantPendingRequests`: not running, suspended in the prune's timer since the
      reading at which that was armed, or about to continue after the prune. */
  datatype Pc = Idle | Sleeping(armed: int) | Resumed

  datatype State = State(
    now: int,
    log: seq<int>,
    queue: seq<Request>,
    locked: bool,
    pc: Pc,
    decisions: seq<Decision>,   // history of dequeued requests
    arrived: seq<Request>       // history of ACQUIRE messages
  )

  function Init(now: int): State {
    State(now, [], [], false, Idle, [], [])
  }

  /** Clock readings of one synchronous stretch of the prune: `cut` is the reading behind its last
      `removeBefore`, `end` the last reading before the function suspends or returns. */
  datatype Readings = Readings(cut: int, end: int)

  datatype Event =
    | Arrive(request: Request, r: Readings)
    | WorkerExit(r: Readings)
    | Wake(r: Readings)
    | Continue(gone: bool, at: int, threw: bool, refundAt: int, r: Readings)
    | SendOk(index: nat, at: int)
    | SendError(index: nat, dead: bool, at: int, r: Readings)
    | RetryTimer(index: nat, threw: bool, at: int, r: Readings)

  // ----- the code, stretch by stretch

  function Prune(c: Config, s: State, r: Readings): State {
    var log := AtLeast(s.log, r.cut - c.window);
    s.(log := log, now := r.end, pc := if |log| < c.max then Resumed else Sleeping(r.end))
  }

  /** The head of the `while` loop: leave it and free the lock, or start pruning for the next request. */
  function LoopHead(c: Config, s: State, r: Readings): State {
    if s.queue == [] then s.(locked := false, pc := Idle) else Prune(c, s, r)
  }

  function GrantPending(c: Config, s: State, r: Readings): State {
    if s.locked then s else LoopHead(c, s.(locked := true), r)
  }

  /** `#refundSlot` up to its nested call: forget the oldest entry unless the failed one has expired. */
  function Refund(c: Config, s: State, failed: int, at: int): State {
    var log := if at - failed < c.window && s.log != [] then s.log[1..] else s.log;
    s.(now := at, log := log)
  }

  function SetStatus(s: State, i: nat, status: Status): State
    requires i < |s.decisions| && s.decisions[i].Granted?
  {
    s.(decisions := s.decisions[i := s.decisions[i].(status := status)])
  }

  /** The transmission of decision `i` is given up: its record fails and a slot is refunded. */
  function GiveUp(c: Config, s: State, i: nat, at: int): State
    requires i < |s.decisions| && s.decisions[i].Granted?
  {
    Refund(c, SetStatus(s, i, Failed), s.decisions[i].time, at)
  }

  /** The record of a fresh grant: log entry, history entry, first attempt under way. */
  function Grant(s: State, request: Request, at: int): State {
    s.(now := at, log := s.log + [at], decisions := s.decisions + [Granted(request, at, InFlight(0))])
  }

  /** After the awaited prune: dequeue one request, grant or skip it, and go round the loop. */
  function AfterPrune(c: Config, s: State, gone: bool, at: int, threw: bool, refundAt: int): State
    requires s.queue != []
  {
    var popped := s.(queue := s.queue[1..]);
    if gone then popped.(decisions := s.decisions + [Skipped(s.queue[0])])
    else
      var granted := Grant(popped, s.queue[0], at);
      if threw then GiveUp(c, granted, |s.decisions|, refundAt) else granted
  }

  predicate IsInFlight(s: State, i: nat) {
    i < |s.decisions| && s.decisions[i].Granted? && s.decisions[i].status.InFlight?
  }

  predicate IsBackoff(s: State, i: nat) {
    i < |s.decisions| && s.decisions[i].Granted? && s.decisions[i].status.Backoff?
  }

  /** Whether the loop, at its head with state `s`, could have made these readings: they do not go
      backwards, and the prune suspends only while the oldest entry still has time left. */
  predicate CanPrune(c: Config, s: State, r: Readings) {
    s.queue != [] ==>
      && s.now <= r.cut <= r.end
      && var log := AtLeast(s.log, r.cut - c.window);
      |log| >= c.max ==> |log| > 0 && r.end - log[0] < c.window
  }

  predicate CanGrantPending(c: Config, s: State, r: Readings) {
    !s.locked ==> CanPrune(c, s, r)
  }

  predicate Enabled(c: Config, s: State, e: Event) {
    match e
    case Arrive(q, r) => CanGrantPending(c, s.(queue := s.queue + [Stored(q)]), r)
    case WorkerExit(r) => CanGrantPending(c, s, r)
    case Wake(r) => s.pc.Sleeping? && CanPrune(c, s, r)
    case Continue(gone, at, threw, refundAt, r) =>
      && s.pc == Resumed && s.queue != [] && s.now <= at <= refundAt
      && CanPrune(c, AfterPrune(c, s, gone, at, threw, refundAt), r)
    case SendOk(i, at) => IsInFlight(s, i) && s.now <= at
    case SendError(i, dead, at, r) =>
      && IsInFlight(s, i) && s.now <= at
      && (dead || s.decisions[i].status.retry >= 3 ==> CanGrantPending(c, GiveUp(c, s, i, at), r))
    case RetryTimer(i, threw, at, r) =>
      && IsBackoff(s, i) && s.now <= at
      && (threw ==> CanGrantPending(c, GiveUp(c, s, i, at), r))
  }

  function Step(c: Config, s: State, e: Event): State
    requires Enabled(c, s, e)
  {
    match e
    case Arrive(q, r) =>
      GrantPending(c, s.(queue := s.queue + [Stored(q)], arrived := s.arrived + [Stored(q)]), r)
    case WorkerExit(r) => GrantPending(c, s, r)
    case Wake(r) => Prune(c, s, r)
    case Continue(gone, at, threw, refundAt, r) =>
      LoopHead(c, AfterPrune(c, s, gone, at, threw, refundAt), r)
    case SendOk(i, at) => SetStatus(s, i, Delivered(at)).(now := at)
    case SendError(i, dead, at, r) =>
      var k := s.decisions[i].status.retry;
      if dead || k >= 3 then GrantPending(c, GiveUp(c, s, i, at), r)
      else SetStatus(s, i, Backoff(k + 1)).(now := at)
    case RetryTimer(i, threw, at, r) =>
      if threw then GrantPending(c, GiveUp(c, s, i, at), r)
      else SetStatus(s, i, InFlight(s.decisions[i].status.retry)).(now := at)
  }

  /** The state after a whole run of events, if every event was possible where it happened. */
  ghost predicate Reaches(c: Config, s: State, events: seq<Event>, t: State)
    decreases |events|
  {
    if events == [] then s == t
    else Enabled(c, s, events[0]) && Reaches(c, Step(c, s, events[0]), events[1..], t)
  }

  // ----- what is counted

  /** A granted permit that has not been given up: it has taken effect, or still may. */
  predicate Live(d: Decision) {
    d.Granted? && !d.status.Failed?
  }

  function LiveFrom(ds: seq<Decision>, x: int): nat {
    if ds == [] then 0 else (if Live(ds[0]) && ds[0].time >= x then 1 else 0) + LiveFrom(ds[1..], x)
  }

  function LiveIn(ds: seq<Decision>, lo: int, hi: int): nat {
    if ds == [] then 0 else (if Live(ds[0]) && lo <= ds[0].time <= hi then 1 else 0) + LiveIn(ds[1..], lo, hi)
  }

  function Requests(ds: seq<Decision>): seq<Request> {
    seq(|ds|, i requires 0 <= i < |ds| => ds[i].request)
  }

  // ----- the invariant

  /** How long the oldest entry of a full log blocked when the timer was armed: the time the code computes
      before it sleeps, uncapped. */
  function Left(c: Config, s: State): int
    requires s.pc.Sleeping?
  {
    if |s.log| >= c.max && s.log != [] then s.log[0] + c.window - s.pc.armed else 0
  }

  /** For every threshold inside the current window, live grants are dominated by log entries. */
  ghost predicate Dominated(c: Config, now: int, log: seq<int>, ds: seq<Decision>) {
    forall x :: x >= now - c.window ==> LiveFrom(ds, x) <= CountFrom(log, x)
  }

  /** No closed window of the configured length ever holds more than `max` live grants. */
  ghost predicate WindowSafe(c: Config, ds: seq<Decision>) {
    forall a :: WindowHolds(c, ds, a)
  }

  ghost predicate WindowHolds(c: Config, ds: seq<Decision>, a: int) {
    LiveIn(ds, a, a + c.window) <= c.max
  }

  ghost predicate TimesOrdered(now: int, ds: seq<Decision>) {
    && (forall i :: 0 <= i < |ds| && ds[i].Granted? ==> ds[i].time <= now)
    && (forall i, j :: 0 <= i < j < |ds| && ds[i].Granted? && ds[j].Granted? ==> ds[i].time <= ds[j].time)
  }

  /** Attempts 0..3, and a delivery is not earlier than its grant. */
  ghost predicate StatusOk(d: Decision) {
    d.Granted? ==>
      && (d.status.InFlight? ==> d.status.retry <= 3)
      && (d.status.Backoff? ==> 1 <= d.status.retry <= 3)
      && (d.status.Delivered? ==> d.time <= d.status.at)
  }

  ghost predicate LogOk(c: Config, now: int, log: seq<int>) {
    && |log| <= c.max
    && Sorted(log)
    && (forall i :: 0 <= i < |log| ==> log[i] <= now)
  }

  /** The async lock: it is free exactly when no continuation is pending, and exactly when nothing waits. */
  ghost predicate LockOk(c: Config, s: State) {
    && (s.locked <==> s.pc != Idle)
    && (s.pc == Idle <==> s.queue == [])
    && (s.pc == Resumed ==> |s.log| < c.max)
    && (s.pc.Sleeping? ==> SleepOk(c, s))
  }

  /** While the log is full, it is the log for whose oldest entry the timer was armed. */
  ghost predicate SleepOk(c: Config, s: State)
    requires s.pc.Sleeping?
  {
    && s.pc.armed <= s.now
    && (s.log != [] && |s.log| >= c.max ==> s.log[0] <= s.pc.armed && Left(c, s) > 0)
  }

  ghost predicate HistoryOk(c: Config, s: State) {
    && LogOk(c, s.now, s.log)
    && TimesOrdered(s.now, s.decisions)
    && (forall i :: 0 <= i < |s.decisions| ==> StatusOk(s.decisions[i]))
    && Dominated(c, s.now, s.log, s.decisions)
    && WindowSafe(c, s.decisions)
    && s.arrived == Requests(s.decisions) + s.queue
  }

  ghost predicate Inv(c: Config, s: State) {
    HistoryOk(c, s) && LockOk(c, s)
  }

  // ----- counting lemmas

  lemma {:induction false} LiveFromAppend(ds: seq<Decision>, d: Decision, x: int)
    ensures LiveFrom(ds + [d], x) == LiveFrom(ds, x) + if Live(d) && d.time >= x then 1 else 0
  {
    if ds == [] {
      assert ds + [d] == [d];
    } else {
      assert (ds + [d])[1..] == ds[1..] + [d];
      LiveFromAppend(ds[1..], d, x);
    }
  }

  lemma {:induction false} LiveInAppend(ds: seq<Decision>, d: Decision, lo: int, hi: int)
    ensures LiveIn(ds + [d], lo, hi) == LiveIn(ds, lo, hi) + if Live(d) && lo <= d.time <= hi then 1 else 0
  {
    if ds == [] {
      assert ds + [d] == [d];
    } else {
      assert (ds + [d])[1..] == ds[1..] + [d];
      LiveInAppend(ds[1..], d, lo, hi);
    }
  }

  lemma {:induction false} LiveFromUpdate(ds: seq<Decision>, i: nat, d: Decision, x: int)
    requires i < |ds| && Live(ds[i]) && d.Granted? && d.time == ds[i].time
    ensures LiveFrom(ds[i := d], x) == LiveFrom(ds, x) - if !Live(d) && d.time >= x then 1 else 0
  {
    var ds' := ds[i := d];
    if i == 0 {
      assert ds'[1..] == ds[1..];
    } else {
      assert ds'[1..] == ds[1..][i - 1 := d];
      LiveFromUpdate(ds[1..], i - 1, d, x);
    }
  }

  lemma {:induction false} LiveInUpdate(ds: seq<Decision>, i: nat, d: Decision, lo: int, hi: int)
    requires i < |ds| && Live(ds[i]) && d.Granted? && d.time == ds[i].time
    ensures LiveIn(ds[i := d], lo, hi) <= LiveIn(ds, lo, hi)
  {
    var ds' := ds[i := d];
    if i == 0 {
      assert ds'[1..] == ds[1..];
    } else {
      assert ds'[1..] == ds[1..][i - 1 := d];
      LiveInUpdate(ds[1..], i - 1, d, lo, hi);
    }
  }

  lemma {:induction false} LiveInAtMostFrom(ds: seq<Decision>, lo: int, hi: int)
    ensures LiveIn(ds, lo, hi) <= LiveFrom(ds, lo)
  {
    if ds != [] {
      LiveInAtMostFrom(ds[1..], lo, hi);
    }
  }

  lemma {:induction false} LiveFromMonotone(ds: seq<Decision>, i: nat, x: int)
    requires i < |ds| && Live(ds[i]) && ds[i].time < x
    ensures LiveFrom(ds, x) < LiveFrom(ds, ds[i].time)
  {
    var y := ds[i].time;
    LiveFromWeaken(ds[1..], y, x);
    if i > 0 {
      assert ds[1..][i - 1] == ds[i];
      LiveFromMonotone(ds[1..], i - 1, x);
    }
  }

  lemma {:induction false} LiveFromWeaken(ds: seq<Decision>, y: int, x: int)
    requires y <= x
    ensures LiveFrom(ds, x) <= LiveFrom(ds, y)
  {
    if ds != [] {
      LiveFromWeaken(ds[1..], y, x);
    }
  }

  // ----- what each stretch keeps

  lemma InitHolds(c: Config, now: int)
    requires c.Valid()
    ensures Inv(c, Init(now))
  {
  }

  lemma PruneKeeps(c: Config, s: State, r: Readings)
    requires c.Valid() && HistoryOk(c, s) && s.queue != [] && CanPrune(c, s, r)
    ensures HistoryOk(c, Prune(c, s, r))
  {
    var t := Prune(c, s, r);
    AtLeastIsSuffix(s.log, r.cut - c.window);
    forall x | x >= t.now - c.window
      ensures LiveFrom(t.decisions, x) <= CountFrom(t.log, x)
    {
      CountKept(s.log, r.cut - c.window, x);
    }
  }

  lemma LoopHeadKeeps(c: Config, s: State, r: Readings)
    requires c.Valid() && HistoryOk(c, s) && s.locked && CanPrune(c, s, r)
    ensures Inv(c, LoopHead(c, s, r))
  {
    if s.queue != [] {
      PruneKeeps(c, s, r);
    }
  }

  lemma GrantPendingKeeps(c: Config, s: State, r: Readings)
    requires c.Valid() && HistoryOk(c, s) && CanGrantPending(c, s, r)
    requires s.locked ==> LockOk(c, s)
    ensures Inv(c, GrantPending(c, s, r))
  {
    if !s.locked {
      LoopHeadKeeps(c, s.(locked := true), r);
    }
  }

  /** A window that ends before the new grant holds what it held; any other is dominated by the log. */
  lemma GrantKeepsWindows(c: Config, ds: seq<Decision>, log: seq<int>, d: Decision)
    requires WindowSafe(c, ds) && d.Granted? && |log| < c.max
    requires Dominated(c, d.time, log + [d.time], ds + [d])
    ensures WindowSafe(c, ds + [d])
  {
    forall a
      ensures WindowHolds(c, ds + [d], a)
    {
      assert WindowHolds(c, ds, a);
      if a + c.window >= d.time {
        LiveInAtMostFrom(ds + [d], a, a + c.window);
        CountAtMostLength(log + [d.time], a);
      } else {
        LiveInAppend(ds, d, a, a + c.window);
      }
    }
  }

  /** A fresh grant pays for itself in the log, and the log's bound is the window's bound. */
  lemma GrantKeeps(c: Config, s: State, at: int)
    requires c.Valid() && HistoryOk(c, s) && |s.log| < c.max && s.now <= at
    requires s.queue != []
    ensures HistoryOk(c, Grant(s.(queue := s.queue[1..]), s.queue[0], at))
  {
    var d := Granted(s.queue[0], at, InFlight(0));
    var t := Grant(s.(queue := s.queue[1..]), s.queue[0], at);
    forall x
      ensures LiveFrom(t.decisions, x) == LiveFrom(s.decisions, x) + if at >= x then 1 else 0
      ensures CountFrom(t.log, x) == CountFrom(s.log, x) + if at >= x then 1 else 0
    {
      LiveFromAppend(s.decisions, d, x);
      CountAppend(s.log, at, x);
    }
    GrantKeepsWindows(c, s.decisions, s.log, d);
    assert Requests(s.decisions + [d]) == Requests(s.decisions) + [d.request];
  }

  lemma SkipKeeps(c: Config, s: State)
    requires HistoryOk(c, s) && s.queue != []
    ensures HistoryOk(c, s.(queue := s.queue[1..], decisions := s.decisions + [Skipped(s.queue[0])]))
  {
    var d := Skipped(s.queue[0]);
    var ds := s.decisions + [d];
    forall x ensures LiveFrom(ds, x) == LiveFrom(s.decisions, x) {
      LiveFromAppend(s.decisions, d, x);
    }
    forall a ensures WindowHolds(c, ds, a) {
      assert WindowHolds(c, s.decisions, a);
      LiveInAppend(s.decisions, d, a, a + c.window);
    }
    assert Requests(s.decisions + [d]) == Requests(s.decisions) + [d.request];
  }

  /** The refund rule. Dropping the oldest entry for the failed one keeps the domination, even when an
      earlier refund has already dropped the failed grant's own entry: then every entry is newer than
      the failed grant, which itself was counted among the live ones. */
  lemma RefundDominates(c: Config, s: State, i: nat, at: int)
    requires HistoryOk(c, s) && i < |s.decisions| && Live(s.decisions[i]) && s.now <= at
    ensures var t := GiveUp(c, s, i, at); Dominated(c, t.now, t.log, t.decisions)
  {
    var d := s.decisions[i];
    var t := GiveUp(c, s, i, at);
    forall x | x >= t.now - c.window
      ensures LiveFrom(t.decisions, x) <= CountFrom(t.log, x)
    {
      LiveFromUpdate(s.decisions, i, d.(status := Failed), x);
      if at - d.time < c.window && s.log != [] && s.log[0] >= x && d.time < x {
        LiveFromMonotone(s.decisions, i, x);
        CountAll(s.log, x);
        CountAtMostLength(s.log, d.time);
      }
    }
  }

  lemma StatusKeeps(c: Config, s: State, i: nat, status: Status, at: int)
    requires HistoryOk(c, s) && i < |s.decisions| && Live(s.decisions[i]) && s.now <= at
    requires StatusOk(s.decisions[i].(status := status)) && status != Failed
    ensures HistoryOk(c, SetStatus(s, i, status).(now := at))
  {
    var d := s.decisions[i].(status := status);
    var t := SetStatus(s, i, status).(now := at);
    forall x ensures LiveFrom(t.decisions, x) == LiveFrom(s.decisions, x) {
      LiveFromUpdate(s.decisions, i, d, x);
    }
    forall a ensures WindowHolds(c, t.decisions, a) {
      assert WindowHolds(c, s.decisions, a);
      LiveInUpdate(s.decisions, i, d, a, a + c.window);
    }
    assert Requests(t.decisions) == Requests(s.decisions);
  }

  lemma GiveUpKeeps(c: Config, s: State, i: nat, at: int)
    requires c.Valid() && HistoryOk(c, s) && i < |s.decisions| && Live(s.decisions[i]) && s.now <= at
    ensures HistoryOk(c, GiveUp(c, s, i, at))
    ensures |GiveUp(c, s, i, at).log| <= |s.log|
  {
    var d := s.decisions[i].(status := Failed);
    var t := GiveUp(c, s, i, at);
    RefundDominates(c, s, i, at);
    forall a ensures WindowHolds(c, t.decisions, a) {
      assert WindowHolds(c, s.decisions, a);
      LiveInUpdate(s.decisions, i, d, a, a + c.window);
    }
    assert Requests(t.decisions) == Requests(s.decisions);
  }

  lemma AfterPruneKeeps(c: Config, s: State, gone: bool, at: int, threw: bool, refundAt: int)
    requires c.Valid() && Inv(c, s) && s.pc == Resumed && s.now <= at <= refundAt
    ensures HistoryOk(c, AfterPrune(c, s, gone, at, threw, refundAt))
  {
    if gone {
      SkipKeeps(c, s);
    } else {
      var granted := Grant(s.(queue := s.queue[1..]), s.queue[0], at);
      GrantKeeps(c, s, at);
      if threw {
        GiveUpKeeps(c, granted, |s.decisions|, refundAt);
      }
    }
  }

  lemma ArriveKeeps(c: Config, s: State, q: Request, r: Readings)
    requires c.Valid() && Inv(c, s) && Enabled(c, s, Arrive(q, r))
    ensures Inv(c, Step(c, s, Arrive(q, r)))
  {
    hide LogOk, TimesOrdered, Dominated, WindowSafe, Requests, AtLeast;
    GrantPendingKeeps(c, s.(queue := s.queue + [Stored(q)], arrived := s.arrived + [Stored(q)]), r);
  }

  lemma FailureKeeps(c: Config, s: State, i: nat, at: int, r: Readings)
    requires c.Valid() && Inv(c, s) && i < |s.decisions| && Live(s.decisions[i]) && s.now <= at
    requires CanGrantPending(c, GiveUp(c, s, i, at), r)
    ensures Inv(c, GrantPending(c, GiveUp(c, s, i, at), r))
  {
    hide TimesOrdered, StatusOk, Dominated, WindowSafe, Requests, AtLeast, CanPrune;
    GiveUpKeeps(c, s, i, at);
    GrantPendingKeeps(c, GiveUp(c, s, i, at), r);
  }

  lemma StepKeeps(c: Config, s: State, e: Event)
    requires c.Valid() && Inv(c, s) && Enabled(c, s, e)
    ensures Inv(c, Step(c, s, e))
  {
    hide LogOk, Dominated, WindowSafe, Requests, AtLeast, CanPrune;
    match e
    case Arrive(q, r) => ArriveKeeps(c, s, q, r);
    case WorkerExit(r) => GrantPendingKeeps(c, s, r);
    case Wake(r) => LoopHeadKeeps(c, s, r);
    case Continue(gone, at, threw, refundAt, r) =>
      AfterPruneKeeps(c, s, gone, at, threw, refundAt);
      LoopHeadKeeps(c, AfterPrune(c, s, gone, at, threw, refundAt), r);
    case SendOk(i, at) => StatusKeeps(c, s, i, Delivered(at), at);
    case SendError(i, dead, at, r) =>
      var k := s.decisions[i].status.retry;
      if dead || k >= 3 {
        FailureKeeps(c, s, i, at, r);
      } else {
        StatusKeeps(c, s, i, Backoff(k + 1), at);
      }
    case RetryTimer(i, threw, at, r) =>
      if threw {
        FailureKeeps(c, s, i, at, r);
      } else {
        StatusKeeps(c, s, i, InFlight(s.decisions[i].status.retry), at);
      }
  }

  lemma {:induction false} RunKeeps(c: Config, s: State, events: seq<Event>, t: State)
    requires c.Valid() && Inv(c, s) && Reaches(c, s, events, t)
    ensures Inv(c, t)
    decreases |events|
  {
    if events != [] {
      StepKeeps(c, s, events[0]);
      RunKeeps(c, Step(c, s, events[0]), events[1..], t);
    }
  }
}
