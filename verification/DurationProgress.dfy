/** What each event of the duration limiter achieves, stated on the log, queue and history themselves: slots
    come back, attempts run out, nobody sleeps without cause, and every waiting request can be granted. */
module DurationProgress {
  import opened Common
  import opened SortedLog
  import opened DurationModel
  import opened DurationTheorems

  // ----- refunds

  /** The event gives up the transmission of grant `i` at time `at`. */
  predicate GivesUp(t: State, e: Event, i: nat, at: int) {
    match e
    case SendError(j, dead, a, _) => j == i && a == at && IsInFlight(t, i) && (dead || t.decisions[i].status.retry >= 3)
    case RetryTimer(j, threw, a, _) => j == i && a == at && IsBackoff(t, i) && threw
    case _ => false
  }

  /** A refund gives its slot back: giving up a grant that has not expired drops exactly the oldest entry, so
      that a full log has room again; giving up an expired one drops nothing. Nothing else changes but the
      grant's record; the nested restart finds the loop running or nothing waiting. */
  lemma GiveUpFreesASlot(c: Config, t: State, e: Event, i: nat, at: int)
    requires c.Valid() && Reachable(c, t) && Enabled(c, t, e) && GivesUp(t, e, i, at)
    ensures var u, d := Step(c, t, e), t.decisions[i];
      && (at - d.time < c.window ==> t.log != [] && u.log == t.log[1..] && |u.log| < c.max)
      && (at - d.time >= c.window ==> u.log == t.log)
      && u.decisions == t.decisions[i := Granted(d.request, d.time, Failed)]
      && u.queue == t.queue && u.pc == t.pc && u.locked == t.locked && u.now == at
  {
    ReachableInv(c, t);
    if at - t.decisions[i].time < c.window {
      RefundFindsAnEntry(c, t, i, at);
    }
    hide TimesOrdered, Dominated, WindowSafe, CanPrune, Prune;
  }

  // ----- the loop

  /** The log after one turn of the loop, before the next sweep. */
  function Turned(c: Config, log: seq<int>, gone: bool, at: int, threw: bool, refundAt: int): seq<int> {
    if gone then log else if threw && refundAt - at < c.window then (log + [at])[1..] else log + [at]
  }

  /** One turn of the loop decides exactly the first waiting request: skipped if its worker is gone, granted
      and logged otherwise. A send that throws gives a slot back at once. The loop then ends with the queue,
      or sweeps and sleeps exactly if the log is full. */
  lemma ContinueDecides(c: Config, t: State, gone: bool, at: int, threw: bool, refundAt: int, r: Readings)
    requires c.Valid() && Reachable(c, t) && Enabled(c, t, Continue(gone, at, threw, refundAt, r))
    ensures t.queue != []
    ensures var u, q := Step(c, t, Continue(gone, at, threw, refundAt, r)), t.queue[0];
      && u.decisions == t.decisions
                        + [if gone then Skipped(q) else Granted(q, at, if threw then Failed else InFlight(0))]
      && u.queue == t.queue[1..]
      && (u.queue == [] ==> u.log == Turned(c, t.log, gone, at, threw, refundAt) && u.pc == Idle && !u.locked)
      && (u.queue != [] ==>
            && u.log == AtLeast(Turned(c, t.log, gone, at, threw, refundAt), r.cut - c.window)
            && u.pc == (if |u.log| == c.max then Sleeping(r.end) else Resumed))
  {
    hide Reachable, LogOk, TimesOrdered, StatusOk, Dominated, WindowSafe, Requests, CanPrune;
    hide AfterPrune, LoopHead, Turned, AtLeast;
    ReachableInv(c, t);
    AfterPruneKeeps(c, t, gone, at, threw, refundAt);
    TurnEffect(c, t, gone, at, threw, refundAt);
    HeadEffect(c, AfterPrune(c, t, gone, at, threw, refundAt), r);
  }

  lemma HeadEffect(c: Config, s: State, r: Readings)
    requires LogOk(c, s.now, s.log)
    ensures var u := LoopHead(c, s, r);
      && u.queue == s.queue && u.decisions == s.decisions
      && (s.queue == [] ==> u.log == s.log && u.pc == Idle && !u.locked)
      && (s.queue != [] ==>
            && u.log == AtLeast(s.log, r.cut - c.window)
            && u.pc == (if |u.log| == c.max then Sleeping(r.end) else Resumed))
  {
    AtLeastIsSuffix(s.log, r.cut - c.window);
  }

  lemma TurnEffect(c: Config, s: State, gone: bool, at: int, threw: bool, refundAt: int)
    requires s.queue != []
    ensures var u, q := AfterPrune(c, s, gone, at, threw, refundAt), s.queue[0];
      && u.log == Turned(c, s.log, gone, at, threw, refundAt)
      && u.decisions == s.decisions
                        + [if gone then Skipped(q) else Granted(q, at, if threw then Failed else InFlight(0))]
      && u.queue == s.queue[1..] && u.locked == s.locked
  {
  }

  /** An ACQUIRE always joins the queue; if the loop is idle it starts, and sleeps exactly if the log is full. */
  lemma ArriveWaits(c: Config, t: State, q: Request, r: Readings)
    requires c.Valid() && Reachable(c, t) && Enabled(c, t, Arrive(q, r))
    ensures var u := Step(c, t, Arrive(q, r));
      && u.queue == t.queue + [Stored(q)] && u.decisions == t.decisions && u.locked
      && (t.pc != Idle ==> u.log == t.log && u.pc == t.pc)
      && (t.pc == Idle ==>
            && u.log == AtLeast(t.log, r.cut - c.window)
            && u.pc == (if |u.log| == c.max then Sleeping(r.end) else Resumed))
  {
    ReachableInv(c, t);
    AtLeastIsSuffix(t.log, r.cut - c.window);
    hide TimesOrdered, Dominated, WindowSafe, CanPrune;
  }

  /** A wake-up sweeps exactly the entries older than the window, and goes on unless the log is still full. */
  lemma WakeSweeps(c: Config, t: State, r: Readings)
    requires c.Valid() && Reachable(c, t) && Enabled(c, t, Wake(r))
    ensures var u := Step(c, t, Wake(r));
      && u.queue == t.queue && u.decisions == t.decisions
      && u.log == AtLeast(t.log, r.cut - c.window)
      && u.pc == (if |u.log| == c.max then Sleeping(r.end) else Resumed)
  {
    ReachableInv(c, t);
    AtLeastIsSuffix(t.log, r.cut - c.window);
    hide TimesOrdered, Dominated, WindowSafe, CanPrune;
  }

  // ----- attempts

  /** What becomes of a transmission that is not given up: delivered, or tried again under the next number
      after an error and under that same number when the timer fires. Nothing else changes. */
  lemma AttemptMovesOn(c: Config, t: State, e: Event)
    requires Enabled(c, t, e)
    requires e.SendOk? || (e.SendError? && !e.dead && t.decisions[e.index].status.retry < 3)
          || (e.RetryTimer? && !e.threw)
    ensures var d := t.decisions[e.index];
      var status := if e.SendOk? then Delivered(e.at)
                    else if e.SendError? then Backoff(d.status.retry + 1)
                    else InFlight(d.status.retry);
      Step(c, t, e) == t.(now := e.at, decisions := t.decisions[e.index := Granted(d.request, d.time, status)])
  {
  }

  /** How many more error callbacks, and retry timers, grant `i` can see. */
  function ErrorsLeft(ds: seq<Decision>, i: nat): int {
    if i >= |ds| then 4
    else match ds[i]
         case Granted(_, _, InFlight(k)) => 4 - k
         case Granted(_, _, Backoff(k)) => 4 - k
         case _ => 0
  }

  function TimersLeft(ds: seq<Decision>, i: nat): int {
    if i >= |ds| then 3
    else match ds[i]
         case Granted(_, _, InFlight(k)) => 3 - k
         case Granted(_, _, Backoff(k)) => 4 - k
         case _ => 0
  }

  function SendErrors(events: seq<Event>, i: nat): nat {
    if events == [] then 0
    else (if events[0].SendError? && events[0].index == i then 1 else 0) + SendErrors(events[1..], i)
  }

  function RetryTimers(events: seq<Event>, i: nat): nat {
    if events == [] then 0
    else (if events[0].RetryTimer? && events[0].index == i then 1 else 0) + RetryTimers(events[1..], i)
  }

  /** The record of grant `i` keeps its request and its timestamp. */
  predicate SameStamp(ds: seq<Decision>, ds': seq<Decision>, i: nat) {
    i < |ds| ==>
      && i < |ds'| && ds'[i].request == ds[i].request && ds'[i].Granted? == ds[i].Granted?
      && (ds[i].Granted? ==> ds'[i].time == ds[i].time)
  }

  lemma LoopKeepsRecords(c: Config, s: State, r: Readings)
    ensures LoopHead(c, s, r).decisions == s.decisions && GrantPending(c, s, r).decisions == s.decisions
  {
  }

  lemma TurnUsesAttempts(c: Config, s: State, gone: bool, at: int, threw: bool, refundAt: int, i: nat)
    requires s.queue != []
    ensures var ds, ds' := s.decisions, AfterPrune(c, s, gone, at, threw, refundAt).decisions;
      && ErrorsLeft(ds', i) <= ErrorsLeft(ds, i) && TimersLeft(ds', i) <= TimersLeft(ds, i)
      && SameStamp(ds, ds', i)
  {
  }

  lemma StatusUsesAttempts(s: State, j: nat, status: Status, i: nat, error: nat, timer: nat)
    requires j < |s.decisions| && s.decisions[j].Granted? && StatusOk(s.decisions[j])
    requires var ds, ds' := [s.decisions[j]], [s.decisions[j].(status := status)];
      ErrorsLeft(ds', 0) + error <= ErrorsLeft(ds, 0) && TimersLeft(ds', 0) + timer <= TimersLeft(ds, 0)
    ensures var ds, ds' := s.decisions, SetStatus(s, j, status).decisions;
      && ErrorsLeft(ds', i) + (if i == j then error else 0) <= ErrorsLeft(ds, i)
      && TimersLeft(ds', i) + (if i == j then timer else 0) <= TimersLeft(ds, i)
      && SameStamp(ds, ds', i)
  {
  }

  lemma StepUsesAttempts(c: Config, s: State, e: Event, i: nat)
    requires Inv(c, s) && Enabled(c, s, e)
    ensures var ds, ds' := s.decisions, Step(c, s, e).decisions;
      && ErrorsLeft(ds', i) + SendErrors([e], i) <= ErrorsLeft(ds, i)
      && TimersLeft(ds', i) + RetryTimers([e], i) <= TimersLeft(ds, i)
      && SameStamp(ds, ds', i)
  {
    hide LogOk, TimesOrdered, Dominated, WindowSafe, Requests, CanPrune, LockOk;
    hide LoopHead, GrantPending, AfterPrune, Prune, SetStatus;
    assert [e][1..] == [];
    match e
    case Arrive(q, r) =>
      LoopKeepsRecords(c, s.(queue := s.queue + [Stored(q)], arrived := s.arrived + [Stored(q)]), r);
    case WorkerExit(r) => LoopKeepsRecords(c, s, r);
    case Wake(r) => PruneKeepsRecords(c, s, r);
    case Continue(gone, at, threw, refundAt, r) =>
      TurnUsesAttempts(c, s, gone, at, threw, refundAt, i);
      LoopKeepsRecords(c, AfterPrune(c, s, gone, at, threw, refundAt), r);
    case SendOk(j, at) => StatusUsesAttempts(s, j, Delivered(at), i, 0, 0);
    case SendError(j, dead, at, r) =>
      var k := s.decisions[j].status.retry;
      LoopKeepsRecords(c, GiveUp(c, s, j, at), r);
      StatusUsesAttempts(s, j, if dead || k >= 3 then Failed else Backoff(k + 1), i, 1, 0);
    case RetryTimer(j, threw, at, r) =>
      LoopKeepsRecords(c, GiveUp(c, s, j, at), r);
      StatusUsesAttempts(s, j, if threw then Failed else InFlight(s.decisions[j].status.retry), i, 0, 1);
  }

  lemma PruneKeepsRecords(c: Config, s: State, r: Readings)
    ensures Prune(c, s, r).decisions == s.decisions
  {
  }

  lemma {:induction false} RunUsesAttempts(c: Config, s: State, events: seq<Event>, t: State, i: nat)
    requires c.Valid() && Inv(c, s) && Reaches(c, s, events, t)
    ensures ErrorsLeft(t.decisions, i) + SendErrors(events, i) <= ErrorsLeft(s.decisions, i)
    ensures TimersLeft(t.decisions, i) + RetryTimers(events, i) <= TimersLeft(s.decisions, i)
    ensures SameStamp(s.decisions, t.decisions, i)
    decreases |events|
  {
    if events != [] {
      hide Step, Enabled, Inv, ErrorsLeft, TimersLeft;
      StepUsesAttempts(c, s, events[0], i);
      StepKeeps(c, s, events[0]);
      RunUsesAttempts(c, Step(c, s, events[0]), events[1..], t, i);
      assert [events[0]][1..] == [];
    }
  }

  lemma AttemptsLeft(c: Config, t: State, i: nat)
    requires Inv(c, t)
    ensures ErrorsLeft(t.decisions, i) >= 0 && TimersLeft(t.decisions, i) >= 0
  {
    if i < |t.decisions| {
      assert StatusOk(t.decisions[i]);
    }
  }

  lemma NoAttemptsYet(now: int, i: nat)
    ensures ErrorsLeft(Init(now).decisions, i) == 4 && TimersLeft(Init(now).decisions, i) == 3
  {
  }

  /** Over a whole run a grant sees at most four error callbacks and three retry timers, and keeps from its
      first attempt to its last the request and the timestamp it was recorded with. */
  lemma AttemptsRunOut(c: Config, now: int, before: seq<Event>, s: State, events: seq<Event>, t: State, i: nat)
    requires c.Valid() && Reaches(c, Init(now), before, s) && Reaches(c, s, events, t)
    ensures SendErrors(before, i) + SendErrors(events, i) <= 4
    ensures RetryTimers(before, i) + RetryTimers(events, i) <= 3
    ensures SameStamp(s.decisions, t.decisions, i)
  {
    hide Reaches, Inv, ErrorsLeft, TimersLeft, SendErrors, RetryTimers, SameStamp;
    InitHolds(c, now);
    RunKeeps(c, Init(now), before, s);
    RunKeeps(c, s, events, t);
    NoAttemptsYet(now, i);
    RunUsesAttempts(c, Init(now), before, s, i);
    RunUsesAttempts(c, s, events, t, i);
    AttemptsLeft(c, t, i);
  }

  // ----- nobody sleeps without cause

  /** How many grants, given up or not, are stamped at or after `x`. */
  function GrantedFrom(ds: seq<Decision>, x: int): nat {
    if ds == [] then 0 else (if ds[0].Granted? && ds[0].time >= x then 1 else 0) + GrantedFrom(ds[1..], x)
  }

  /** Every entry of the log stands for a grant. */
  ghost predicate Backed(log: seq<int>, ds: seq<Decision>) {
    forall x :: CountFrom(log, x) <= GrantedFrom(ds, x)
  }

  lemma {:induction false} GrantedAppend(ds: seq<Decision>, d: Decision, x: int)
    ensures GrantedFrom(ds + [d], x) == GrantedFrom(ds, x) + if d.Granted? && d.time >= x then 1 else 0
  {
    if ds == [] {
      assert ds + [d] == [d];
    } else {
      assert (ds + [d])[1..] == ds[1..] + [d];
      GrantedAppend(ds[1..], d, x);
    }
  }

  lemma {:induction false} GrantedUpdate(ds: seq<Decision>, i: nat, d: Decision, x: int)
    requires i < |ds| && ds[i].Granted? && d.Granted? && d.time == ds[i].time
    ensures GrantedFrom(ds[i := d], x) == GrantedFrom(ds, x)
  {
    var ds' := ds[i := d];
    if i == 0 {
      assert ds'[1..] == ds[1..];
    } else {
      assert ds'[1..] == ds[1..][i - 1 := d];
      GrantedUpdate(ds[1..], i - 1, d, x);
    }
  }

  lemma {:induction false} CountSwept(log: seq<int>, t: int, x: int)
    ensures CountFrom(AtLeast(log, t), x) <= CountFrom(log, x)
  {
    if log != [] {
      CountSwept(log[1..], t, x);
      if log[0] >= t {
        assert AtLeast(log, t)[1..] == AtLeast(log[1..], t);
      }
    }
  }

  lemma SweepStaysBacked(log: seq<int>, ds: seq<Decision>, t: int)
    requires Backed(log, ds)
    ensures Backed(AtLeast(log, t), ds)
  {
    forall x ensures CountFrom(AtLeast(log, t), x) <= GrantedFrom(ds, x) {
      CountSwept(log, t, x);
    }
  }

  lemma LoopHeadStaysBacked(c: Config, s: State, r: Readings)
    requires Backed(s.log, s.decisions)
    ensures Backed(LoopHead(c, s, r).log, LoopHead(c, s, r).decisions)
  {
    hide Backed;
    SweepStaysBacked(s.log, s.decisions, r.cut - c.window);
  }

  lemma StatusStaysBacked(s: State, i: nat, status: Status)
    requires Backed(s.log, s.decisions) && i < |s.decisions| && s.decisions[i].Granted?
    ensures Backed(s.log, SetStatus(s, i, status).decisions)
  {
    forall x ensures CountFrom(s.log, x) <= GrantedFrom(SetStatus(s, i, status).decisions, x) {
      GrantedUpdate(s.decisions, i, s.decisions[i].(status := status), x);
    }
  }

  lemma GiveUpStaysBacked(c: Config, s: State, i: nat, at: int)
    requires Backed(s.log, s.decisions) && i < |s.decisions| && s.decisions[i].Granted?
    ensures Backed(GiveUp(c, s, i, at).log, GiveUp(c, s, i, at).decisions)
  {
    StatusStaysBacked(s, i, Failed);
  }

  lemma AppendStaysBacked(log: seq<int>, ds: seq<Decision>, d: Decision)
    requires Backed(log, ds)
    ensures Backed(if d.Granted? then log + [d.time] else log, ds + [d])
  {
    forall x
      ensures CountFrom(if d.Granted? then log + [d.time] else log, x) <= GrantedFrom(ds + [d], x)
    {
      GrantedAppend(ds, d, x);
      if d.Granted? {
        CountAppend(log, d.time, x);
      }
    }
  }

  lemma AfterPruneStaysBacked(c: Config, s: State, gone: bool, at: int, threw: bool, refundAt: int)
    requires Backed(s.log, s.decisions) && s.queue != []
    ensures var u := AfterPrune(c, s, gone, at, threw, refundAt); Backed(u.log, u.decisions)
  {
    hide Backed;
    var q := s.queue[0];
    AppendStaysBacked(s.log, s.decisions, if gone then Skipped(q) else Granted(q, at, InFlight(0)));
    if !gone && threw {
      GiveUpStaysBacked(c, Grant(s.(queue := s.queue[1..]), q, at), |s.decisions|, refundAt);
    }
  }

  lemma StepStaysBacked(c: Config, s: State, e: Event)
    requires Enabled(c, s, e) && Backed(s.log, s.decisions)
    ensures Backed(Step(c, s, e).log, Step(c, s, e).decisions)
  {
    hide Backed, CanPrune, Prune, LoopHead, AfterPrune, Refund;
    match e
    case Arrive(q, r) =>
      LoopHeadStaysBacked(c, s.(queue := s.queue + [Stored(q)], arrived := s.arrived + [Stored(q)], locked := true), r);
    case WorkerExit(r) => LoopHeadStaysBacked(c, s.(locked := true), r);
    case Wake(r) => PruneStaysBacked(c, s, r);
    case Continue(gone, at, threw, refundAt, r) =>
      AfterPruneStaysBacked(c, s, gone, at, threw, refundAt);
      LoopHeadStaysBacked(c, AfterPrune(c, s, gone, at, threw, refundAt), r);
    case SendOk(i, at) => StatusStaysBacked(s, i, Delivered(at));
    case SendError(i, dead, at, r) =>
      StatusStaysBacked(s, i, Backoff(s.decisions[i].status.retry + 1));
      GiveUpStaysBacked(c, s, i, at);
      LoopHeadStaysBacked(c, GiveUp(c, s, i, at).(locked := true), r);
    case RetryTimer(i, threw, at, r) =>
      StatusStaysBacked(s, i, InFlight(s.decisions[i].status.retry));
      GiveUpStaysBacked(c, s, i, at);
      LoopHeadStaysBacked(c, GiveUp(c, s, i, at).(locked := true), r);
  }

  lemma PruneStaysBacked(c: Config, s: State, r: Readings)
    requires Backed(s.log, s.decisions)
    ensures Backed(Prune(c, s, r).log, Prune(c, s, r).decisions)
  {
    hide Backed;
    SweepStaysBacked(s.log, s.decisions, r.cut - c.window);
  }

  lemma {:induction false} RunStaysBacked(c: Config, s: State, events: seq<Event>, t: State)
    requires Backed(s.log, s.decisions) && Reaches(c, s, events, t)
    ensures Backed(t.log, t.decisions)
    decreases |events|
  {
    hide Backed, Step, Enabled;
    if events != [] {
      StepStaysBacked(c, s, events[0]);
      RunStaysBacked(c, Step(c, s, events[0]), events[1..], t);
    }
  }

  lemma ReachableIsBacked(c: Config, t: State)
    requires Reachable(c, t)
    ensures Backed(t.log, t.decisions)
  {
    var now, events :| Reaches(c, Init(now), events, t);
    hide Reaches;
    RunStaysBacked(c, Init(now), events, t);
  }

  /** The loop sleeps only with cause: while it sleeps on a full log, at least `max` grants were stamped less
      than a window before it armed its timer. */
  lemma SleepIsJustified(c: Config, t: State)
    requires c.Valid() && Reachable(c, t) && t.pc.Sleeping? && |t.log| >= c.max
    ensures GrantedFrom(t.decisions, t.pc.armed - c.window + 1) >= c.max
  {
    ReachableInv(c, t);
    ReachableIsBacked(c, t);
    hide TimesOrdered, Dominated, WindowSafe, Reachable;
    CountAll(t.log, t.pc.armed - c.window + 1);
    assert CountFrom(t.log, t.pc.armed - c.window + 1) <= GrantedFrom(t.decisions, t.pc.armed - c.window + 1);
  }

  // ----- progress

  /** A resumed loop can grant the first waiting request at once, and not sleep after it. */
  lemma ResumedGrants(c: Config, t: State, e: Event, last: int)
    requires c.Valid() && Reachable(c, t) && t.pc == Resumed && last == t.now + c.window + 1
    requires e == Continue(false, t.now, false, t.now, Readings(last, last))
    ensures t.queue != [] && Enabled(c, t, e) && Reachable(c, Step(c, t, e))
    ensures var u := Step(c, t, e);
      u.queue == t.queue[1..] && u.decisions == t.decisions + [Granted(t.queue[0], t.now, InFlight(0))]
  {
    hide Reachable, TimesOrdered, Dominated, WindowSafe;
    ReachableInv(c, t);
    AtLeastNone(t.log + [t.now], last - c.window);
    StaysReachable(c, t, e);
    ContinueDecides(c, t, false, t.now, false, t.now, e.r);
  }

  /** A sleeping loop resumes when it wakes after everything logged has expired. */
  lemma SleeperResumes(c: Config, t: State, e: Event, later: int)
    requires c.Valid() && Reachable(c, t) && t.pc.Sleeping? && later == t.now + c.window + 1
    requires e == Wake(Readings(later, later))
    ensures Enabled(c, t, e) && Reachable(c, Step(c, t, e))
    ensures var u := Step(c, t, e);
      u.pc == Resumed && u.queue == t.queue && u.decisions == t.decisions
  {
    hide Reachable, TimesOrdered, Dominated, WindowSafe;
    ReachableInv(c, t);
    AtLeastNone(t.log, later - c.window);
    StaysReachable(c, t, e);
    WakeSweeps(c, t, e.r);
  }

  /** The first waiting request can be granted, if need be after one wake-up. */
  lemma FirstCanBeGranted(c: Config, t: State) returns (events: seq<Event>, u: State, d: Decision)
    requires c.Valid() && Reachable(c, t) && t.queue != []
    ensures Reaches(c, t, events, u) && Reachable(c, u)
    ensures u.queue == t.queue[1..]
    ensures u.decisions == t.decisions + [d] && Live(d) && d.request == t.queue[0]
  {
    hide Reachable, Enabled, Step;
    LockIsSound(c, t);
    var later := t.now + c.window + 1;
    var wake := Wake(Readings(later, later));
    var r := t;
    if t.pc.Sleeping? {
      SleeperResumes(c, t, wake, later);
      r := Step(c, t, wake);
    }
    var last := r.now + c.window + 1;
    var grant := Continue(false, r.now, false, r.now, Readings(last, last));
    ResumedGrants(c, r, grant, last);
    u, d := Step(c, r, grant), Granted(t.queue[0], r.now, InFlight(0));
    assert Reaches(c, u, [], u) && [grant][1..] == [];
    assert Reaches(c, r, [grant], u);
    events := [grant];
    if t.pc.Sleeping? {
      assert [wake, grant][1..] == [grant];
      events := [wake, grant];
    }
  }

  /** One live grant for each request, in order. */
  predicate GrantsFor(ds: seq<Decision>, queue: seq<Request>) {
    |ds| == |queue| && forall i :: 0 <= i < |ds| ==> Live(ds[i]) && ds[i].request == queue[i]
  }

  /** No request is ever stuck: from every reachable state the run can go on so that every waiting request is
      granted, in order. */
  lemma {:induction false} EveryRequestCanBeGranted(c: Config, t: State)
    returns (events: seq<Event>, u: State, granted: seq<Decision>)
    requires c.Valid() && Reachable(c, t)
    ensures Reaches(c, t, events, u) && u.queue == []
    ensures u.decisions == t.decisions + granted && GrantsFor(granted, t.queue)
    decreases |t.queue|
  {
    hide Reaches, Reachable, Live;
    if t.queue == [] {
      events, u, granted := [], t, [];
      NothingHappens(c, t);
    } else {
      var first, s, d := FirstCanBeGranted(c, t);
      var rest;
      rest, u, granted := EveryRequestCanBeGranted(c, s);
      ReachesJoin(c, t, first, s, rest, u);
      events := first + rest;
      assert t.decisions + [d] + granted == t.decisions + ([d] + granted);
      granted := [d] + granted;
    }
  }

  lemma NothingHappens(c: Config, t: State)
    ensures Reaches(c, t, [], t)
  {
  }

  lemma {:induction false} ReachesJoin(c: Config, s: State, first: seq<Event>, t: State, rest: seq<Event>, u: State)
    requires Reaches(c, s, first, t) && Reaches(c, t, rest, u)
    ensures Reaches(c, s, first + rest, u)
    decreases |first|
  {
    hide Step, Enabled;
    if first == [] {
      assert first + rest == rest;
    } else {
      assert (first + rest)[1..] == first[1..] + rest;
      ReachesJoin(c, Step(c, s, first[0]), first[1..], t, rest, u);
    }
  }
}
