/** What every run of the duration limiter guarantees, and exactly how late a permit may take effect. */
module DurationTheorems {
  import opened Common
  import opened SortedLog
  import opened DurationModel

  ghost predicate Reachable(c: Config, t: State) {
    exists now, events :: Reaches(c, Init(now), events, t)
  }

  lemma ReachableInv(c: Config, t: State)
    requires c.Valid() && Reachable(c, t)
    ensures Inv(c, t)
  {
    var now, events :| Reaches(c, Init(now), events, t);
    InitHolds(c, now);
    RunKeeps(c, Init(now), events, t);
  }

  /** Refund safety: whatever mix of grants, prunes, failures and refunds a run contains, no closed
      window of the configured length holds more than `max` grants that were not given up. */
  lemma WindowBound(c: Config, t: State, a: int)
    requires c.Valid() && Reachable(c, t)
    ensures LiveIn(t.decisions, a, a + c.window) <= c.max
  {
    ReachableInv(c, t);
    assert WindowHolds(c, t.decisions, a);
  }

  /** The async lock loses no wake-up, the log never overflows, and the loop never dequeues from an
      empty queue. */
  lemma LockIsSound(c: Config, t: State)
    requires c.Valid() && Reachable(c, t)
    ensures !t.locked <==> t.queue == []
    ensures !t.locked <==> t.pc == Idle
    ensures |t.log| <= c.max
    ensures t.pc == Resumed ==> |t.log| < c.max && t.queue != []
  {
    ReachableInv(c, t);
  }

  /** A worker's exit erases nothing: it changes no state that a run can reach. */
  lemma ExitPreservesEverything(c: Config, t: State, r: Readings)
    requires c.Valid() && Reachable(c, t)
    ensures Enabled(c, t, WorkerExit(r)) && Step(c, t, WorkerExit(r)) == t
  {
    ReachableInv(c, t);
  }

  /** The requests of the ACQUIRE messages of a run, as the wait queues store them. */
  function Arrivals(events: seq<Event>): seq<Request> {
    if events == [] then []
    else (if events[0].Arrive? then [Stored(events[0].request)] else []) + Arrivals(events[1..])
  }

  lemma ArrivalRecorded(c: Config, s: State, e: Event)
    requires Enabled(c, s, e)
    ensures Step(c, s, e).arrived == if e.Arrive? then s.arrived + [Stored(e.request)] else s.arrived
  {
    hide CanPrune, AtLeast;
    match e
    case Arrive(_, _) =>
    case WorkerExit(_) =>
    case Wake(_) =>
    case Continue(_, _, _, _, _) =>
    case SendOk(_, _) =>
    case SendError(_, _, _, _) =>
    case RetryTimer(_, _, _, _) =>
  }

  lemma {:induction false} ArrivalsRecorded(c: Config, s: State, events: seq<Event>, t: State)
    requires Reaches(c, s, events, t)
    ensures t.arrived == s.arrived + Arrivals(events)
    decreases |events|
  {
    hide Enabled, Step;
    if events != [] {
      ArrivalRecorded(c, s, events[0]);
      ArrivalsRecorded(c, Step(c, s, events[0]), events[1..], t);
    }
  }

  /** First come, first decided: the decisions taken so far, followed by what still waits, are the requests
      of the run's ACQUIRE messages, each once and in the order they arrived. */
  lemma FirstComeFirstServed(c: Config, now: int, events: seq<Event>, t: State)
    requires c.Valid() && Reaches(c, Init(now), events, t)
    ensures Requests(t.decisions) + t.queue == Arrivals(events)
  {
    hide Reaches, Arrivals, LogOk, TimesOrdered, StatusOk, Dominated, WindowSafe;
    InitHolds(c, now);
    RunKeeps(c, Init(now), events, t);
    ArrivalsRecorded(c, Init(now), events, t);
  }

  /** A refund inside the window always finds an entry to forget. */
  lemma RefundFindsAnEntry(c: Config, t: State, i: nat, at: int)
    requires c.Valid() && Reachable(c, t)
    requires i < |t.decisions| && Live(t.decisions[i])
    requires t.now <= at && at - t.decisions[i].time < c.window
    ensures t.log != []
  {
    ReachableInv(c, t);
    LiveFromHere(t.decisions, i);
    assert LiveFrom(t.decisions, t.decisions[i].time) <= CountFrom(t.log, t.decisions[i].time);
  }

  lemma {:induction false} LiveFromHere(ds: seq<Decision>, i: nat)
    requires i < |ds| && Live(ds[i])
    ensures LiveFrom(ds, ds[i].time) >= 1
  {
    if i > 0 {
      assert ds[1..][i - 1] == ds[i];
      LiveFromHere(ds[1..], i - 1);
    }
  }

  // ----- spacing of grants

  /** The timestamps of the grants that were not given up, in order. */
  function LiveTimes(ds: seq<Decision>): seq<int> {
    if ds == [] then []
    else if Live(ds[0]) then [ds[0].time] + LiveTimes(ds[1..])
    else LiveTimes(ds[1..])
  }

  lemma {:induction false} LiveTimesAbove(ds: seq<Decision>, lo: int)
    requires forall i :: 0 <= i < |ds| && ds[i].Granted? ==> lo <= ds[i].time
    ensures forall i :: 0 <= i < |LiveTimes(ds)| ==> lo <= LiveTimes(ds)[i]
  {
    if ds != [] {
      LiveTimesAbove(ds[1..], lo);
    }
  }

  lemma {:induction false} LiveTimesSorted(now: int, ds: seq<Decision>)
    requires TimesOrdered(now, ds)
    ensures Sorted(LiveTimes(ds))
  {
    if ds != [] {
      LiveTimesSorted(now, ds[1..]);
      if Live(ds[0]) {
        LiveTimesAbove(ds[1..], ds[0].time);
      }
    }
  }

  /** Entries `i..j` of the live timestamps all fall in a window that contains their two ends. */
  lemma {:induction false} LiveTimesInWindow(ds: seq<Decision>, i: nat, j: nat, lo: int, hi: int)
    requires i <= j < |LiveTimes(ds)|
    requires forall k :: i <= k <= j ==> lo <= LiveTimes(ds)[k] <= hi
    ensures LiveIn(ds, lo, hi) >= j - i + 1
    decreases |ds|
  {
    var times, rest := LiveTimes(ds), LiveTimes(ds[1..]);
    if !Live(ds[0]) {
      LiveTimesInWindow(ds[1..], i, j, lo, hi);
    } else {
      assert times[1..] == rest && times[0] == ds[0].time;
      assert forall k :: 0 < k <= j ==> times[k] == rest[k - 1];
      if i > 0 {
        LiveTimesInWindow(ds[1..], i - 1, j - 1, lo, hi);
      } else {
        assert lo <= times[0] <= hi;
        if j > 0 {
          LiveTimesInWindow(ds[1..], 0, j - 1, lo, hi);
        }
      }
    }
  }

  /** Any `max` consecutive live grants after one another take longer than the window. In a run without
      failed sends every grant is live, so this is t[i + max] - t[i] > window for all grants. */
  lemma Spacing(c: Config, t: State, i: nat)
    requires c.Valid() && Reachable(c, t) && i + c.max < |LiveTimes(t.decisions)|
    ensures LiveTimes(t.decisions)[i + c.max] - LiveTimes(t.decisions)[i] > c.window
  {
    ReachableInv(c, t);
    var times := LiveTimes(t.decisions);
    LiveTimesSorted(t.now, t.decisions);
    if times[i + c.max] - times[i] <= c.window {
      LiveTimesInWindow(t.decisions, i, i + c.max, times[i], times[i] + c.window);
      WindowBound(c, t, times[i]);
    }
  }

  lemma {:induction false} LiveInSplit(ds: seq<Decision>, lo: int, mid: int, hi: int)
    requires lo <= mid <= hi
    ensures LiveIn(ds, lo, hi) == LiveIn(ds, lo, mid) + LiveIn(ds, mid + 1, hi)
  {
    if ds != [] {
      LiveInSplit(ds[1..], lo, mid, hi);
    }
  }

  lemma {:induction false} LiveInNarrow(ds: seq<Decision>, lo: int, hi: int, lo': int, hi': int)
    requires lo <= lo' && hi' <= hi
    ensures LiveIn(ds, lo', hi') <= LiveIn(ds, lo, hi)
  {
    if ds != [] {
      LiveInNarrow(ds[1..], lo, hi, lo', hi');
    }
  }

  lemma OneWindowMore(max: nat, window: nat, length: nat)
    requires 0 < window <= length
    ensures max * (length / window + 1) == max + max * ((length - window) / window + 1)
  {
    var q, p, w := length / window, (length - window) / window, window;
    assert length == q * w + length % w;
    assert length - w == p * w + (length - w) % w;
    assert (p + 1) * w == p * w + w;
    QuotientUnique(w, q, length % w, p + 1, (length - w) % w);
    assert max * (q + 1) == max + max * q;
  }

  /** `max` for the first window of an interval and for every further one. */
  function PerWindow(max: nat, window: nat, length: nat): nat
    requires window > 0
  {
    if length < window then max else max + PerWindow(max, window, length - window)
  }

  lemma {:induction false} PerWindowClosedForm(max: nat, window: nat, length: nat)
    requires window > 0
    ensures PerWindow(max, window, length) == max * (length / window + 1)
  {
    if length < window {
      assert length / window == 0;
    } else {
      PerWindowClosedForm(max, window, length - window);
      OneWindowMore(max, window, length);
    }
  }

  lemma {:induction false} RateByWindows(c: Config, t: State, a: int, length: nat)
    requires c.Valid() && Reachable(c, t)
    ensures LiveIn(t.decisions, a, a + length) <= PerWindow(c.max, c.window, length)
    decreases length
  {
    var ds, w := t.decisions, c.window;
    WindowBound(c, t, a);
    if length < w {
      LiveInNarrow(ds, a, a + w, a, a + length);
    } else {
      LiveInSplit(ds, a, a + w, a + length);
      LiveInNarrow(ds, a + w, a + length, a + w + 1, a + length);
      RateByWindows(c, t, a + w, length - w);
      assert (a + w) + (length - w) == a + length;
    }
  }

  /** Long-run rate over any interval, by cutting it into windows. */
  lemma LongRunRate(c: Config, t: State, a: int, length: nat)
    requires c.Valid() && Reachable(c, t)
    ensures LiveIn(t.decisions, a, a + length) <= c.max * (length / c.window + 1)
  {
    RateByWindows(c, t, a, length);
    PerWindowClosedForm(c.max, c.window, length);
  }

  // ----- the prune loop ends

  /** The timer has run for `least` ticks since it was armed, or until the oldest entry's expiry. With the
      cap for `least` this is the timer the code asks for. */
  predicate TimerRan(c: Config, s: State, r: Readings, least: nat)
    requires s.pc.Sleeping?
  {
    s.pc.armed + (if least < Left(c, s) then least else Left(c, s)) <= r.cut
  }

  /** A run during which the grant loop never leaves the prune, in which every timer runs for `least` ticks
      or until the oldest entry's expiry, whatever else happens in the meantime. */
  ghost predicate StaysAsleep(c: Config, s: State, events: seq<Event>, least: nat)
    decreases |events|
  {
    && s.pc.Sleeping?
    && (events != [] ==>
          && Enabled(c, s, events[0])
          && (events[0].Wake? ==> TimerRan(c, s, events[0].r, least))
          && StaysAsleep(c, Step(c, s, events[0]), events[1..], least))
  }

  function Wakes(events: seq<Event>): nat {
    if events == [] then 0 else (if events[0].Wake? then 1 else 0) + Wakes(events[1..])
  }

  /** Nothing that happens during the sleep prolongs it: the armed timer stays, and the log at most loses
      entries. */
  lemma SleepIsNotProlonged(c: Config, s: State, e: Event)
    requires s.locked && s.pc.Sleeping? && Enabled(c, s, e) && !e.Wake?
    ensures var t := Step(c, s, e); t.pc == s.pc && (t.log == s.log || |t.log| < |s.log|)
  {
    hide CanPrune, LoopHead;
    match e
    case Arrive(_, _) =>
    case WorkerExit(_) =>
    case SendOk(_, _) =>
    case SendError(_, _, _, _) =>
    case RetryTimer(_, _, _, _) =>
  }

  /** Every wake-up that goes back to sleep uses up `least` ticks of what was left. */
  lemma WakeProgress(c: Config, s: State, r: Readings, least: nat)
    requires c.Valid() && LogOk(c, s.now, s.log) && s.queue != [] && s.pc.Sleeping?
    requires CanPrune(c, s, r) && TimerRan(c, s, r, least) && Prune(c, s, r).pc.Sleeping?
    ensures 0 < Left(c, Prune(c, s, r)) <= Left(c, s) - least
  {
    AtLeastIsSuffix(s.log, r.cut - c.window);
  }

  lemma SleepProgress(c: Config, s: State, e: Event, least: nat)
    requires c.Valid() && Inv(c, s) && s.pc.Sleeping? && Enabled(c, s, e)
    requires e.Wake? ==> TimerRan(c, s, e.r, least)
    requires Step(c, s, e).pc.Sleeping?
    ensures Left(c, Step(c, s, e)) <= Left(c, s)
    ensures e.Wake? ==> 0 < Left(c, Step(c, s, e)) <= Left(c, s) - least
  {
    hide LogOk, TimesOrdered, Dominated, WindowSafe, CanPrune, TimerRan;
    if e.Wake? {
      hide Prune;
      WakeProgress(c, s, e.r, least);
    } else {
      hide Step, Enabled;
      SleepIsNotProlonged(c, s, e);
      FullLogOnly(c, s);
    }
  }

  lemma FullLogOnly(c: Config, s: State)
    requires c.Valid() && Inv(c, s) && s.pc.Sleeping?
    ensures |s.log| <= c.max && Left(c, s) >= 0
  {
  }

  /** The ticks used up by the wake-ups of a run. */
  function Spent(events: seq<Event>, least: nat): nat {
    if events == [] then 0 else (if events[0].Wake? then least else 0) + Spent(events[1..], least)
  }

  lemma {:induction false} SpentIsProduct(events: seq<Event>, least: nat)
    ensures Spent(events, least) == Wakes(events) * least
  {
    if events != [] {
      SpentIsProduct(events[1..], least);
    }
  }

  lemma {:induction false} SleepIsSpent(c: Config, s: State, events: seq<Event>, least: nat)
    requires c.Valid() && Inv(c, s) && StaysAsleep(c, s, events, least)
    ensures Wakes(events) > 0 ==> Spent(events, least) < Left(c, s)
    decreases |events|
  {
    if events != [] {
      StepKeeps(c, s, events[0]);
      SleepProgress(c, s, events[0], least);
      SleepIsSpent(c, Step(c, s, events[0]), events[1..], least);
      if Wakes(events[1..]) == 0 {
        SpentIsProduct(events[1..], least);
      }
    }
  }

  /** The prune ends, whatever messages, callbacks, retries, refunds and exits come during the sleep: it
      goes back to sleep fewer than window/least times when every timer runs for at least `least` ticks
      (1 for timers that merely make the clock advance, the cap for those the code asks for), and not once
      when a single timer covers the window. */
  lemma PruneEnds(c: Config, s: State, events: seq<Event>, least: nat)
    requires c.Valid() && Reachable(c, s) && least >= 1 && StaysAsleep(c, s, events, least)
    ensures Wakes(events) > 0 ==> Wakes(events) * least < c.window
    ensures least >= c.window ==> Wakes(events) == 0
  {
    ReachableInv(c, s);
    SleepIsSpent(c, s, events, least);
    SpentIsProduct(events, least);
    if Wakes(events) > 0 {
      AtLeastOne(Wakes(events), least);
    }
  }

  // ----- when permits take effect

  /** How many permits take effect in the closed interval. */
  function StartsIn(ds: seq<Decision>, lo: int, hi: int): nat {
    if ds == [] then 0
    else (if ds[0].Granted? && ds[0].status.Delivered? && lo <= ds[0].status.at <= hi then 1 else 0)
         + StartsIn(ds[1..], lo, hi)
  }

  /** Every permit takes effect within `delay` of its recorded timestamp. */
  ghost predicate Punctual(ds: seq<Decision>, delay: int) {
    forall i :: 0 <= i < |ds| && ds[i].Granted? && ds[i].status.Delivered? ==>
      ds[i].time <= ds[i].status.at <= ds[i].time + delay
  }

  ghost predicate Advertised(ds: seq<Decision>, max: nat, duration: nat) {
    forall a :: StartsHold(ds, max, duration, a)
  }

  ghost predicate StartsHold(ds: seq<Decision>, max: nat, duration: nat, a: int) {
    StartsIn(ds, a, a + duration) <= max
  }

  /** The advertised limit over all runs whose permits are at most `delay` late. */
  ghost predicate AlwaysAdvertised(c: Config, duration: nat, delay: nat) {
    forall t :: Reachable(c, t) && Punctual(t.decisions, delay) ==> Advertised(t.decisions, c.max, duration)
  }

  lemma {:induction false} StartsAreLive(ds: seq<Decision>, delay: nat, lo: int, hi: int)
    requires Punctual(ds, delay)
    ensures StartsIn(ds, lo, hi) <= LiveIn(ds, lo - delay, hi)
  {
    if ds != [] {
      StartsAreLive(ds[1..], delay, lo, hi);
    }
  }

  /** With `jitter` ticks added to the advertised duration, the limiter honours the advertised limit for
      permits up to `delay` late if and only if `delay` does not exceed `jitter`. Retries keep the
      original timestamp, so a retried grant can be later than that. */
  lemma JitterCoversExactly(c: Config, duration: nat, jitter: nat, delay: nat)
    requires c.Valid() && duration > 0 && c.window == duration + jitter
    ensures AlwaysAdvertised(c, duration, delay) <==> delay <= jitter
  {
    if delay <= jitter {
      forall t | Reachable(c, t) && Punctual(t.decisions, delay)
        ensures Advertised(t.decisions, c.max, duration)
      {
        forall a ensures StartsHold(t.decisions, c.max, duration, a) {
          StartsAreLive(t.decisions, delay, a, a + duration);
          LiveInNarrow(t.decisions, a - jitter, a + duration, a - delay, a + duration);
          WindowBound(c, t, a - jitter);
        }
      }
    } else {
      var events, t := FillWindow(c, duration, jitter, 0);
      assert Fill(c, 0) == Init(0);
      assert Reachable(c, t);
      assert !StartsHold(t.decisions, c.max, duration, jitter + 1);
    }
  }

  // The run that breaks the advertised limit once a permit is `jitter + 1` late: `max` grants at time
  // 0 take effect late, and one more is granted as soon as the window has passed and takes effect at once.

  const SAMPLE := Request(0, 0)

  function Sent(k: nat): seq<Decision> {
    seq(k, i => Granted(SAMPLE, 0, InFlight(0)))
  }

  function Fill(c: Config, k: nat): State {
    State(0, seq(k, i => 0), [], false, Idle, Sent(k), seq(k, i => SAMPLE))
  }

  function Late(n: nat, k: nat, at: int): seq<Decision>
    requires k <= n
  {
    seq(n, i => Granted(SAMPLE, 0, if i < k then Delivered(at) else InFlight(0)))
  }

  /** Full, one request waiting, `k` of the grants already delivered. */
  function Waiting(c: Config, jitter: nat, k: nat): State
    requires k <= c.max
  {
    State(if k == 0 then 0 else jitter + 1, seq(c.max, i => 0), [SAMPLE], true, Sleeping(0),
          Late(c.max, k, jitter + 1), seq(c.max + 1, i => SAMPLE))
  }

  ghost predicate Breaks(c: Config, duration: nat, jitter: nat, t: State) {
    Punctual(t.decisions, jitter + 1) && StartsIn(t.decisions, jitter + 1, jitter + 1 + duration) > c.max
  }

  const AT_ZERO := Readings(0, 0)

  /** One request arrives at time 0: while there is room it is granted at once, and after that it waits. */
  lemma FillStep(c: Config, jitter: nat, k: nat)
    requires c.Valid() && k <= c.max
    ensures var e, grant := Arrive(SAMPLE, AT_ZERO), Continue(false, 0, false, 0, AT_ZERO);
      && Enabled(c, Fill(c, k), e)
      && var s := Step(c, Fill(c, k), e);
      && (k < c.max ==> Enabled(c, s, grant) && Step(c, s, grant) == Fill(c, k + 1))
      && (k == c.max ==> s == Waiting(c, jitter, 0))
  {
    AtLeastAll(seq(k, i => 0), 0 - c.window);
  }

  lemma FillWindow(c: Config, duration: nat, jitter: nat, k: nat) returns (events: seq<Event>, t: State)
    requires c.Valid() && duration > 0 && c.window == duration + jitter && k <= c.max
    ensures Reaches(c, Fill(c, k), events, t) && Breaks(c, duration, jitter, t)
    decreases c.max - k
  {
    hide Enabled, Step, Fill, Waiting, Breaks;
    FillStep(c, jitter, k);
    if k < c.max {
      var e := Continue(false, 0, false, 0, AT_ZERO);
      events, t := FillWindow(c, duration, jitter, k + 1);
      assert ([e] + events)[1..] == events;
      events := [e] + events;
    } else {
      events, t := DeliverLate(c, duration, jitter, 0);
    }
    assert ([Arrive(SAMPLE, AT_ZERO)] + events)[1..] == events;
    events := [Arrive(SAMPLE, AT_ZERO)] + events;
  }

  lemma DeliverLate(c: Config, duration: nat, jitter: nat, k: nat) returns (events: seq<Event>, t: State)
    requires c.Valid() && duration > 0 && c.window == duration + jitter && k <= c.max
    ensures Reaches(c, Waiting(c, jitter, k), events, t) && Breaks(c, duration, jitter, t)
    decreases c.max - k
  {
    var s := Waiting(c, jitter, k);
    if k < c.max {
      var e := SendOk(k, jitter + 1);
      assert Step(c, s, e) == Waiting(c, jitter, k + 1);
      events, t := DeliverLate(c, duration, jitter, k + 1);
      assert ([e] + events)[1..] == events;
      events := [e] + events;
    } else {
      events, t := OneMore(c, duration, jitter);
    }
  }

  /** The window has passed: the log is empty again. */
  function Woken(c: Config, jitter: nat): State {
    Waiting(c, jitter, c.max).(now := c.window + 1, log := [], pc := Resumed)
  }

  function Overfull(c: Config, jitter: nat, status: Status): State {
    State(c.window + 1, [c.window + 1], [], false, Idle,
          Late(c.max, c.max, jitter + 1) + [Granted(SAMPLE, c.window + 1, status)], seq(c.max + 1, i => SAMPLE))
  }

  lemma OneMore(c: Config, duration: nat, jitter: nat) returns (events: seq<Event>, t: State)
    requires c.Valid() && duration > 0 && c.window == duration + jitter
    ensures Reaches(c, Waiting(c, jitter, c.max), events, t) && Breaks(c, duration, jitter, t)
  {
    var at := c.window + 1;
    var r := Readings(at, at);
    var wake, grant, deliver := Wake(r), Continue(false, at, false, at, r), SendOk(c.max, at);
    t := Overfull(c, jitter, Delivered(at));
    OneMoreSteps(c, duration, jitter);
    assert Reaches(c, t, [], t);
    assert [deliver][1..] == [] && Reaches(c, Overfull(c, jitter, InFlight(0)), [deliver], t);
    assert [grant, deliver][1..] == [deliver] && Reaches(c, Woken(c, jitter), [grant, deliver], t);
    events := [wake, grant, deliver];
    assert events[1..] == [grant, deliver];
    OverfullBreaks(c, duration, jitter);
  }

  lemma OneMoreSteps(c: Config, duration: nat, jitter: nat)
    requires c.Valid() && duration > 0 && c.window == duration + jitter
    ensures var at := c.window + 1;
      var r := Readings(at, at);
      var wake, grant, deliver := Wake(r), Continue(false, at, false, at, r), SendOk(c.max, at);
      && Enabled(c, Waiting(c, jitter, c.max), wake)
      && Step(c, Waiting(c, jitter, c.max), wake) == Woken(c, jitter)
      && Enabled(c, Woken(c, jitter), grant)
      && Step(c, Woken(c, jitter), grant) == Overfull(c, jitter, InFlight(0))
      && Enabled(c, Overfull(c, jitter, InFlight(0)), deliver)
      && Step(c, Overfull(c, jitter, InFlight(0)), deliver) == Overfull(c, jitter, Delivered(at))
  {
    AtLeastNone(Waiting(c, jitter, c.max).log, 1);
  }

  lemma OverfullBreaks(c: Config, duration: nat, jitter: nat)
    requires c.Valid() && c.window == duration + jitter
    ensures Breaks(c, duration, jitter, Overfull(c, jitter, Delivered(c.window + 1)))
  {
    var at := c.window + 1;
    AllStart(Late(c.max, c.max, jitter + 1), jitter + 1, at);
    StartsAppend(Late(c.max, c.max, jitter + 1), Granted(SAMPLE, at, Delivered(at)), jitter + 1, at);
    assert at == jitter + 1 + duration;
  }

  lemma {:induction false} AtLeastNone(s: seq<int>, t: int)
    requires forall i :: 0 <= i < |s| ==> s[i] < t
    ensures AtLeast(s, t) == []
  {
    if s != [] {
      AtLeastNone(s[1..], t);
    }
  }

  lemma {:induction false} AllStart(ds: seq<Decision>, lo: int, hi: int)
    requires forall i :: 0 <= i < |ds| ==> ds[i].Granted? && ds[i].status == Delivered(lo)
    requires lo <= hi
    ensures StartsIn(ds, lo, hi) == |ds|
  {
    if ds != [] {
      AllStart(ds[1..], lo, hi);
    }
  }

  lemma {:induction false} StartsAppend(ds: seq<Decision>, d: Decision, lo: int, hi: int)
    ensures StartsIn(ds + [d], lo, hi) == StartsIn(ds, lo, hi) + StartsIn([d], lo, hi)
  {
    if ds == [] {
      assert ds + [d] == [d];
    } else {
      assert (ds + [d])[1..] == ds[1..] + [d];
      StartsAppend(ds[1..], d, lo, hi);
    }
  }

  lemma {:induction false} ReachesAppend(c: Config, s: State, events: seq<Event>, t: State, e: Event)
    requires Reaches(c, s, events, t) && Enabled(c, t, e)
    ensures Reaches(c, s, events + [e], Step(c, t, e))
    decreases |events|
  {
    if events == [] {
      assert [e][1..] == [] && [] + [e] == [e];
      assert Reaches(c, Step(c, t, e), [], Step(c, t, e));
    } else {
      assert (events + [e])[1..] == events[1..] + [e];
      ReachesAppend(c, Step(c, s, events[0]), events[1..], t, e);
    }
  }

  lemma StaysReachable(c: Config, s: State, e: Event)
    requires Reachable(c, s) && Enabled(c, s, e)
    ensures Reachable(c, Step(c, s, e))
  {
    var now, events :| Reaches(c, Init(now), events, s);
    ReachesAppend(c, Init(now), events, s, e);
  }

  // The failing case at its smallest: one permit per 1000 ticks, 50 ticks of jitter, one retry.

  const ONE_PER_SECOND := Config(1, 1050)

  /** The first permit, recorded at time 0, with its transmission at the given stage. */
  function First(now: int, status: Status): State {
    State(now, [0], [], false, Idle, [Granted(SAMPLE, 0, status)], [SAMPLE])
  }

  /** The second request waits for the window of the first permit to pass. */
  function SecondWaits(now: int, log: seq<int>, pc: Pc): State {
    State(now, log, [SAMPLE], true, pc, [Granted(SAMPLE, 0, Delivered(150))], [SAMPLE, SAMPLE])
  }

  function Second(status: Status): State {
    State(1051, [1051], [], false, Idle,
          [Granted(SAMPLE, 0, Delivered(150)), Granted(SAMPLE, 1051, status)], [SAMPLE, SAMPLE])
  }

  lemma FirstIsGranted()
    ensures Reachable(ONE_PER_SECOND, First(0, InFlight(0)))
  {
    var c, zero := ONE_PER_SECOND, Readings(0, 0);
    var s1 := Step(c, Init(0), Arrive(SAMPLE, zero));
    assert Reaches(c, Init(0), [], Init(0));
    StaysReachable(c, Init(0), Arrive(SAMPLE, zero));
    StaysReachable(c, s1, Continue(false, 0, false, 0, zero));
    assert Step(c, s1, Continue(false, 0, false, 0, zero)) == First(0, InFlight(0));
  }

  lemma FirstIsRetried()
    requires Reachable(ONE_PER_SECOND, First(0, InFlight(0)))
    ensures Reachable(ONE_PER_SECOND, First(150, Delivered(150)))
  {
    var c, zero := ONE_PER_SECOND, Readings(0, 0);
    StaysReachable(c, First(0, InFlight(0)), SendError(0, false, 100, zero));
    assert Step(c, First(0, InFlight(0)), SendError(0, false, 100, zero)) == First(100, Backoff(1));
    StaysReachable(c, First(100, Backoff(1)), RetryTimer(0, false, 150, zero));
    assert Step(c, First(100, Backoff(1)), RetryTimer(0, false, 150, zero)) == First(150, InFlight(1));
    StaysReachable(c, First(150, InFlight(1)), SendOk(0, 150));
    assert Step(c, First(150, InFlight(1)), SendOk(0, 150)) == First(150, Delivered(150));
  }

  lemma SecondWakes()
    requires Reachable(ONE_PER_SECOND, First(150, Delivered(150)))
    ensures Reachable(ONE_PER_SECOND, SecondWaits(1051, [], Resumed))
  {
    var c, early, late := ONE_PER_SECOND, Readings(150, 150), Readings(1051, 1051);
    AtLeastAll([0], 150 - 1050);
    AtLeastNone([0], 1051 - 1050);
    assert Step(c, First(150, Delivered(150)), Arrive(SAMPLE, early)) == SecondWaits(150, [0], Sleeping(150));
    StaysReachable(c, First(150, Delivered(150)), Arrive(SAMPLE, early));
    assert Step(c, SecondWaits(150, [0], Sleeping(150)), Wake(late)) == SecondWaits(1051, [], Resumed);
    StaysReachable(c, SecondWaits(150, [0], Sleeping(150)), Wake(late));
  }

  lemma SecondIsDelivered()
    requires Reachable(ONE_PER_SECOND, SecondWaits(1051, [], Resumed))
    ensures Reachable(ONE_PER_SECOND, Second(Delivered(1051)))
  {
    var c, late := ONE_PER_SECOND, Readings(1051, 1051);
    assert Step(c, SecondWaits(1051, [], Resumed), Continue(false, 1051, false, 1051, late)) == Second(InFlight(0));
    StaysReachable(c, SecondWaits(1051, [], Resumed), Continue(false, 1051, false, 1051, late));
    assert Step(c, Second(InFlight(0)), SendOk(1, 1051)) == Second(Delivered(1051));
    StaysReachable(c, Second(InFlight(0)), SendOk(1, 1051));
  }

  /** A grant whose first attempt fails takes effect at 150, and the next one at 1051: two starts within
      1000 ticks, although the limit is one. */
  lemma RetryBreaksTheAdvertisedLimit()
    ensures Reachable(ONE_PER_SECOND, Second(Delivered(1051)))
    ensures StartsIn(Second(Delivered(1051)).decisions, 150, 150 + 1000) == 2
  {
    FirstIsGranted();
    FirstIsRetried();
    SecondWakes();
    SecondIsDelivered();
    var ds := Second(Delivered(1051)).decisions;
    assert ds[1..] == [Granted(SAMPLE, 1051, Delivered(1051))];
    assert StartsIn(ds[1..], 150, 1150) == 1;
  }
}
