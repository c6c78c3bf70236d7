/** What the semaphore protocol achieves: permits go round and come back, failed sends are repeated a bounded
    number of times and then end the lease, and arrivals are served in order. Everything here is stated on
    the messages, leases and tokens themselves. */
module SemaphoreProgress {
  import opened Common
  import opened Environment
  import opened RequestIds
  import opened WorkerRules
  import opened SemaphoreProtocol
  import H = Handshake
  import M = SemaphoreModel

  // ----- the end of a caller

  /** A settled caller gives its permit back: its release leaves at once if the channel takes it, and is
      reported lost exactly if it does not; nothing else changes. */
  lemma SettledCallerReleases(max: nat, s: World, q: Request, channel: H.Channel)
    requires Reachable(max, s) && Running(q) in s.acts && q.worker in s.alive
    ensures Enabled(s, Settle(q, channel)) && q in s.p.leases
    ensures Step(s, Settle(q, channel))
         == s.(acts := s.acts - multiset{Running(q)} + multiset{if channel.Accepts? then Releasing(q, 0) else Lost(q)})
  {
    hide Reachable, CallsFor, HoldersFor, SerialsOk;
    ReachableInv(max, s);
    assert Fine(s, q);
    ActCounts(s.acts, Running(q));
  }

  /** The permit of a settled caller returns: its release can be read, which ends the lease, and frees a token
      unless a waiting request takes it. */
  lemma SettledTokenReturns(max: nat, s: World, q: Request, env: M.Env) returns (s1: World, t: World)
    requires Reachable(max, s) && Running(q) in s.acts && q.worker in s.alive && env.cluster.dead == s.dead
    ensures Enabled(s, Settle(q, H.Accepts)) && s1 == Step(s, Settle(q, H.Accepts))
    ensures q in s.p.leases && s1.p == s.p
    ensures Enabled(s1, ReleaseArrives(q, 0, env)) && t == Step(s1, ReleaseArrives(q, 0, env))
    ensures Reachable(max, t) && q !in t.p.leases
    ensures t.p.tokens + |t.p.leases| == max && M.WorkConserving(t.p)
    ensures s.p.queue == [] ==> t.p.tokens == s.p.tokens + 1
  {
    SettledCallerReleases(max, s, q, H.Accepts);
    s1 := Step(s, Settle(q, H.Accepts));
    assert Releasing(q, 0) in s1.acts && s1.p == s.p && s1.dead == s.dead;
    hide Step, Enabled, Reachable;
    StaysReachable(max, s, Settle(q, H.Accepts));
    ReleaseIsRead(max, s1, q, 0, env);
    t := Step(s1, ReleaseArrives(q, 0, env));
    ReachableInv(max, t);
  }

  // ----- failed sends

  /** An error callback of a release leads to the next attempt until the fifth has failed, and only then to
      the report; the timer of a retry sends the same attempt number again. */
  lemma ReleaseIsRepeated(s: World, q: Request, k: nat, channel: H.Channel)
    ensures Enabled(s, ReleaseError(q, k)) ==>
      Step(s, ReleaseError(q, k))
      == s.(acts := s.acts - multiset{Releasing(q, k)} + multiset{if k < 4 then Resending(q, k + 1) else Lost(q)})
    ensures Enabled(s, ReleaseTimer(q, k, channel)) ==>
      Step(s, ReleaseTimer(q, k, channel))
      == s.(acts := s.acts - multiset{Resending(q, k)}
                    + multiset{if channel.Accepts? then Releasing(q, k) else Lost(q)})
  {
  }

  /** An error callback of a grant to a worker not known dead leads to the next attempt until the fourth has
      failed; the timer of a retry sends the same attempt number again. Until then the lease stays. */
  lemma GrantIsRepeated(s: World, q: Request, k: nat, env: M.Env)
    ensures Enabled(s, GrantError(q, k, env)) && q.worker !in s.dead && k < 3 ==>
      Step(s, GrantError(q, k, env))
      == s.(p := s.p.(calls := s.p.calls - multiset{M.Sending(q, k)} + multiset{M.Waiting(q, k + 1)}))
    ensures Enabled(s, GrantTimer(q, k, false, env)) ==>
      Step(s, GrantTimer(q, k, false, env))
      == s.(p := s.p.(calls := s.p.calls - multiset{M.Waiting(q, k)} + multiset{M.Sending(q, k)}))
  {
  }

  /** The event ends the transmission of the grant for `q` for good. */
  ghost predicate EndsGrant(s: World, e: Event, q: Request) {
    match e
    case GrantError(r, k, _) => r == q && (q.worker in s.dead || k >= 3)
    case GrantTimer(r, _, throws, _) => r == q && throws
    case _ => false
  }

  /** A transmission that ends for good ends the lease with it: after the fourth error, an error of a dead
      worker or a retry that throws, the request is neither leased nor being sent, and no token is lost. */
  lemma EndedGrantFreesItsToken(max: nat, s: World, e: Event, q: Request)
    requires Reachable(max, s) && Enabled(s, e) && EndsGrant(s, e, q)
    ensures var t := Step(s, e);
      && Reachable(max, t) && q !in t.p.leases && CallsFor(t.p.calls, q) == 0
      && t.p.tokens + |t.p.leases| == max && M.WorkConserving(t.p)
      && t.acts == s.acts
  {
    hide Reachable, SerialsOk, Fine;
    var c := if e.GrantError? then M.Sending(q, e.retry) else M.Waiting(q, e.retry);
    assert c in s.p.calls;
    ReachableInv(max, s);
    StaysReachable(max, s, e);
    ReachableInv(max, Step(s, e));
    EndedGrantIsGone(max, s, c, e.env);
  }

  lemma EndedGrantIsGone(max: nat, s: World, c: M.Call, env: M.Env)
    requires Inv(max, s) && c in s.p.calls
    ensures var q, p := c.request, s.p.(calls := s.p.calls - multiset{c});
      && q !in M.HandleExit(p, q.worker, env).leases && CallsFor(M.HandleExit(p, q.worker, env).calls, q) == 0
      && q !in M.HandleRelease(p, q, env).leases && CallsFor(M.HandleRelease(p, q, env).calls, q) == 0
  {
    hide CallsFor, HoldersFor, SerialsOk, ErrorsLeft, TimersLeft, M.Reclaim, M.WorkConserving;
    var q, p := c.request, s.p.(calls := s.p.calls - multiset{c});
    OnlyCall(max, s, c);
    M.ReclaimTotal(p, q.worker);
    assert M.Reclaim(p, q.worker).calls == p.calls && M.Reclaim(p, q.worker).queue == p.queue by {
      ReclaimFrame(p, q.worker);
    }
    DrainLeavesOthers(M.Reclaim(p, q.worker), env, q);
    DrainLeavesOthers(M.Release(p, q), env, q);
  }

  lemma ReclaimFrame(p: M.State, w: int)
    ensures M.Reclaim(p, w).calls == p.calls && M.Reclaim(p, w).queue == p.queue
  {
  }

  lemma OnlyCall(max: nat, s: World, c: M.Call)
    requires Inv(max, s) && c in s.p.calls
    ensures CallsFor(s.p.calls - multiset{c}, c.request) == 0 && c.request !in s.p.queue
  {
    hide CallsFor, HoldersFor, SerialsOk;
    assert Fine(s, c.request);
    CallCounts(s.p.calls, c);
    CallDropped(s.p.calls, c, c.request);
  }

  /** The grant loop does nothing for a request that does not wait. */
  lemma {:induction false} DrainLeavesOthers(p: M.State, env: M.Env, q: Request)
    requires q !in p.queue
    ensures var u := M.Drain(p, env);
      && (q in u.leases <==> q in p.leases)
      && CallsFor(u.calls, q) == CallsFor(p.calls, q)
      && ErrorsLeft(u.calls, q) == ErrorsLeft(p.calls, q) && TimersLeft(u.calls, q) == TimersLeft(p.calls, q)
    decreases |p.queue|
  {
    hide CallsFor, ErrorsLeft, TimersLeft;
    if p.queue != [] && p.tokens > 0 {
      var head := M.Sending(p.queue[0], 0);
      CallAdded(p.calls, head, q);
      CallWeighed(p.calls, head, q);
      DrainLeavesOthers(M.GrantHead(p, env), env, q);
    }
  }

  // ----- how a lease ends

  /** The events that can end the lease of `q`: its release is read, its own transmission ends, or its worker
      is found dead. */
  ghost predicate MayEndLease(s: World, e: Event, q: Request) {
    match e
    case ReleaseArrives(r, _, _) => r == q
    case GrantError(r, k, _) => (r == q && k >= 3) || (r.worker == q.worker && q.worker in s.dead)
    case GrantTimer(r, _, throws, _) => throws && (r == q || (r.worker == q.worker && q.worker in s.dead))
    case Exit(w, _) => w == q.worker
    case _ => false
  }

  /** Nothing else ends a lease: whatever happens to other requests, a lease stays. */
  lemma OnlyItsOwnEventsEndALease(max: nat, s: World, e: Event, q: Request)
    requires Reachable(max, s) && Enabled(s, e) && q in s.p.leases && !MayEndLease(s, e, q)
    ensures q in Step(s, e).p.leases
  {
    hide Reachable, Inv;
    ReachableInv(max, s);
    LeasedDoesNotWait(max, s, q);
    if AtPrimary(e) {
      LeaseStays(max, s, e, q);
    } else {
      hide Step, Enabled;
      PrimaryUntouched(s, e);
    }
  }

  lemma LeaseStays(max: nat, s: World, e: Event, q: Request)
    requires Inv(max, s) && Enabled(s, e) && AtPrimary(e) && q in s.p.leases && q !in s.p.queue
    requires !MayEndLease(s, e, q)
    ensures q in Step(s, e).p.leases
  {
    hide Inv, CallsFor, ErrorsLeft, TimersLeft, Reacting, Replace;
    match e
    case AcquireArrives(r, env) => ArrivalUsesNone(max, s, r, env, q);
    case GrantArrives(_, _, _) =>
    case GrantVanishes(_, _) =>
    case GrantError(r, k, env) => OthersStay(M.SendOk(s.p, r, k), r, env, q);
    case GrantTimer(r, k, _, env) => OthersStay(s.p.(calls := s.p.calls - multiset{M.Waiting(r, k)}), r, env, q);
    case ReleaseArrives(r, _, env) => OthersStay(s.p, r, env, q);
    case Exit(w, env) => OthersStay(s.p, Request(w, 0), env, q);
  }

  lemma OthersStay(p: M.State, r: Request, env: M.Env, q: Request)
    requires q in p.leases && q !in p.queue
    ensures r != q ==> q in M.HandleRelease(p, r, env).leases
    ensures r.worker != q.worker ==> q in M.HandleExit(p, r.worker, env).leases
  {
    hide CallsFor, ErrorsLeft, TimersLeft;
    DrainLeavesOthers(M.Release(p, r), env, q);
    DrainLeavesOthers(M.Reclaim(p, r.worker), env, q);
  }

  /** A worker found dead, by its exit or by a failed send to it, keeps no lease, and no token is lost. */
  lemma DeadWorkerKeepsNothing(max: nat, s: World, e: Event, w: int)
    requires Reachable(max, s) && Enabled(s, e)
    requires (e.Exit? && e.worker == w)
          || (e.GrantError? && e.request.worker == w && w in s.dead)
          || (e.GrantTimer? && e.throws && e.request.worker == w && w in s.dead)
    ensures var t := Step(s, e);
      && (forall q :: q in t.p.leases ==> q.worker != w)
      && t.p.tokens + |t.p.leases| == max && M.WorkConserving(t.p)
  {
    hide Reachable, Fine, SerialsOk;
    ReachableInv(max, s);
    StaysReachable(max, s, e);
    ReachableInv(max, Step(s, e));
    var p := if e.Exit? then s.p
             else if e.GrantError? then M.SendOk(s.p, e.request, e.retry)
             else s.p.(calls := s.p.calls - multiset{M.Waiting(e.request, e.retry)});
    assert !e.env.cluster.Reachable(w);
    M.DrainLeases(M.Reclaim(p, w), e.env);
    M.ReclaimTotal(p, w);
  }

  // ----- attempts run out

  /** How many more error callbacks, and retry timers, the grant for `q` can see. */
  function ErrorsLeft(calls: multiset<M.Call>, q: Request): nat {
    4 * CallsAt(calls, q, 0) + 3 * CallsAt(calls, q, 1) + 2 * CallsAt(calls, q, 2) + CallsAt(calls, q, 3)
  }

  function TimersLeft(calls: multiset<M.Call>, q: Request): nat {
    3 * calls[M.Sending(q, 0)] + 2 * calls[M.Sending(q, 1)] + calls[M.Sending(q, 2)]
    + 3 * calls[M.Waiting(q, 1)] + 2 * calls[M.Waiting(q, 2)] + calls[M.Waiting(q, 3)]
  }

  function Timers(c: M.Call): nat
    requires Counted(c)
  {
    if c.Sending? then 3 - c.retry else 4 - c.retry
  }

  lemma CallAtAdded(calls: multiset<M.Call>, c: M.Call, q: Request, k: nat)
    ensures (calls + multiset{c})[M.Sending(q, k)] == calls[M.Sending(q, k)] + Count(c == M.Sending(q, k))
    ensures (calls + multiset{c})[M.Waiting(q, k)] == calls[M.Waiting(q, k)] + Count(c == M.Waiting(q, k))
  {
  }

  lemma CallWeighed(calls: multiset<M.Call>, c: M.Call, q: Request)
    requires Counted(c)
    ensures ErrorsLeft(calls + multiset{c}, q) == ErrorsLeft(calls, q) + if c.request == q then 4 - c.retry else 0
    ensures TimersLeft(calls + multiset{c}, q) == TimersLeft(calls, q) + if c.request == q then Timers(c) else 0
  {
    CallAtAdded(calls, c, q, 0);
    CallAtAdded(calls, c, q, 1);
    CallAtAdded(calls, c, q, 2);
    CallAtAdded(calls, c, q, 3);
  }

  lemma CallUnweighed(calls: multiset<M.Call>, c: M.Call, q: Request)
    requires Counted(c) && c in calls
    ensures ErrorsLeft(calls - multiset{c}, q) == ErrorsLeft(calls, q) - if c.request == q then 4 - c.retry else 0
    ensures TimersLeft(calls - multiset{c}, q) == TimersLeft(calls, q) - if c.request == q then Timers(c) else 0
  {
    assert calls - multiset{c} + multiset{c} == calls;
    CallWeighed(calls - multiset{c}, c, q);
  }

  function GrantErrors(events: seq<Event>, q: Request): nat {
    if events == [] then 0
    else (if events[0].GrantError? && events[0].request == q then 1 else 0) + GrantErrors(events[1..], q)
  }

  function GrantTimers(events: seq<Event>, q: Request): nat {
    if events == [] then 0
    else (if events[0].GrantTimer? && events[0].request == q then 1 else 0) + GrantTimers(events[1..], q)
  }

  /** A run during which `q` stays leased, up to its last event. */
  ghost predicate LeasedThroughout(s: World, events: seq<Event>, q: Request)
    decreases |events|
  {
    events != [] ==> q in s.p.leases && LeasedThroughout(Step(s, events[0]), events[1..], q)
  }

  /** The event changes something at the primary. */
  predicate AtPrimary(e: Event) {
    e.AcquireArrives? || e.GrantArrives? || e.GrantError? || e.GrantVanishes? || e.GrantTimer? || e.ReleaseArrives?
    || e.Exit?
  }

  lemma PrimaryUntouched(s: World, e: Event)
    requires !AtPrimary(e)
    ensures Step(s, e).p == s.p
  {
    hide NthId, Replace, ReleaseAttempt, Resent, Reacting;
    hide M.HandleAcquire, M.HandleRelease, M.HandleExit, M.SendError, M.SendOk, M.RetryTimer;
  }

  /** While `q` is leased it does not wait, so only its own transmission concerns its calls. */
  lemma GrantUsesAttempts(max: nat, s: World, e: Event, q: Request)
    requires Inv(max, s) && Enabled(s, e) && q in s.p.leases
    ensures ErrorsLeft(Step(s, e).p.calls, q) + GrantErrors([e], q) <= ErrorsLeft(s.p.calls, q)
    ensures TimersLeft(Step(s, e).p.calls, q) + GrantTimers([e], q) <= TimersLeft(s.p.calls, q)
  {
    hide Inv, Step, Enabled, ErrorsLeft, TimersLeft;
    if AtPrimary(e) {
      PrimaryUsesAttempts(max, s, e, q);
    } else {
      PrimaryUntouched(s, e);
      assert [e][1..] == [];
    }
  }

  lemma PrimaryUsesAttempts(max: nat, s: World, e: Event, q: Request)
    requires Inv(max, s) && Enabled(s, e) && q in s.p.leases && AtPrimary(e)
    ensures ErrorsLeft(Step(s, e).p.calls, q) + GrantErrors([e], q) <= ErrorsLeft(s.p.calls, q)
    ensures TimersLeft(Step(s, e).p.calls, q) + GrantTimers([e], q) <= TimersLeft(s.p.calls, q)
  {
    hide ErrorsLeft, TimersLeft, SerialsOk, Fine, Reacting, Replace, M.WorkConserving, Unlapped;
    hide M.HandleAcquire, M.HandleRelease, M.HandleExit, M.SendError, M.RetryTimer;
    LeasedDoesNotWait(max, s, q);
    assert [e][1..] == [];
    match e
    case AcquireArrives(r, env) => ArrivalUsesNone(max, s, r, env, q);
    case GrantArrives(r, k, _) => CallUnweighed(s.p.calls, M.Sending(r, k), q);
    case GrantVanishes(r, k) => CallUnweighed(s.p.calls, M.Sending(r, k), q);
    case GrantError(r, k, env) => ErrorUsesOne(max, s, r, k, env, q);
    case GrantTimer(r, k, throws, env) => TimerUsesOne(max, s, r, k, throws, env, q);
    case ReleaseArrives(r, k, env) => HandlersUseNone(s.p, r, env, q);
    case Exit(w, env) => HandlersUseNone(s.p, Request(w, 0), env, q);
  }

  lemma LeasedDoesNotWait(max: nat, s: World, q: Request)
    requires Inv(max, s) && q in s.p.leases
    ensures q !in s.p.queue
  {
    hide CallsFor, HoldersFor, SerialsOk;
    assert Fine(s, q);
  }

  lemma HandlersUseNone(p: M.State, r: Request, env: M.Env, q: Request)
    requires q !in p.queue
    ensures ErrorsLeft(M.HandleRelease(p, r, env).calls, q) == ErrorsLeft(p.calls, q)
    ensures TimersLeft(M.HandleRelease(p, r, env).calls, q) == TimersLeft(p.calls, q)
    ensures ErrorsLeft(M.HandleExit(p, r.worker, env).calls, q) == ErrorsLeft(p.calls, q)
    ensures TimersLeft(M.HandleExit(p, r.worker, env).calls, q) == TimersLeft(p.calls, q)
  {
    hide ErrorsLeft, TimersLeft;
    DrainLeavesOthers(M.Release(p, r), env, q);
    DrainLeavesOthers(M.Reclaim(p, r.worker), env, q);
  }

  lemma ArrivalUsesNone(max: nat, s: World, r: Request, env: M.Env, q: Request)
    requires Inv(max, s) && Acquiring(r) in s.acts && q in s.p.leases
    ensures q in M.HandleAcquire(s.p, r, env).leases
    ensures ErrorsLeft(M.HandleAcquire(s.p, r, env).calls, q) == ErrorsLeft(s.p.calls, q)
    ensures TimersLeft(M.HandleAcquire(s.p, r, env).calls, q) == TimersLeft(s.p.calls, q)
  {
    hide CallsFor, HoldersFor, ErrorsLeft, TimersLeft, NthId;
    assert Fine(s, q) && q !in s.p.queue;
    assert Fine(s, r) && r != q;
    IdsFitTheQueue(MIN_SMI, s.serial[r]);
    assert Stored(r) == r;
    DrainLeavesOthers(s.p.(queue := s.p.queue + [r], arrived := s.p.arrived + [r]), env, q);
  }

  lemma ErrorUsesOne(max: nat, s: World, r: Request, k: nat, env: M.Env, q: Request)
    requires Inv(max, s) && M.Sending(r, k) in s.p.calls && q !in s.p.queue
    ensures var u, spent := M.SendError(s.p, r, k, env).calls, if r == q then 1 else 0;
      ErrorsLeft(u, q) + spent <= ErrorsLeft(s.p.calls, q) && TimersLeft(u, q) <= TimersLeft(s.p.calls, q)
  {
    hide CallsFor, ErrorsLeft, TimersLeft, Fine, SerialsOk;
    var c, p := M.Sending(r, k), M.SendOk(s.p, r, k);
    CallUnweighed(s.p.calls, c, q);
    if k < 3 {
      CallWeighed(p.calls, M.Waiting(r, k + 1), q);
    }
    DrainLeavesOthers(M.Reclaim(p, r.worker), env, q);
    DrainLeavesOthers(M.Release(p, r), env, q);
  }

  lemma TimerUsesOne(max: nat, s: World, r: Request, k: nat, throws: bool, env: M.Env, q: Request)
    requires Inv(max, s) && M.Waiting(r, k) in s.p.calls && q !in s.p.queue
    ensures var u, spent := M.RetryTimer(s.p, r, k, throws, env).calls, if r == q then 1 else 0;
      ErrorsLeft(u, q) <= ErrorsLeft(s.p.calls, q) && TimersLeft(u, q) + spent <= TimersLeft(s.p.calls, q)
  {
    hide CallsFor, ErrorsLeft, TimersLeft, Fine, SerialsOk;
    var c := M.Waiting(r, k);
    var p := s.p.(calls := s.p.calls - multiset{c});
    CallUnweighed(s.p.calls, c, q);
    CallWeighed(p.calls, M.Sending(r, k), q);
    DrainLeavesOthers(M.Reclaim(p, r.worker), env, q);
    DrainLeavesOthers(M.Release(p, r), env, q);
  }

  lemma {:induction false} RunUsesAttempts(max: nat, s: World, events: seq<Event>, t: World, q: Request)
    requires Inv(max, s) && Reaches(s, events, t) && LeasedThroughout(s, events, q)
    ensures GrantErrors(events, q) <= ErrorsLeft(s.p.calls, q)
    ensures GrantTimers(events, q) <= TimersLeft(s.p.calls, q)
    decreases |events|
  {
    hide Inv, Enabled, Step, ErrorsLeft, TimersLeft;
    if events != [] {
      GrantUsesAttempts(max, s, events[0], q);
      StepKeeps(max, s, events[0]);
      RunUsesAttempts(max, Step(s, events[0]), events[1..], t, q);
      assert [events[0]][1..] == [];
    }
  }

  /** While a request stays leased, at most four error callbacks and three retry timers come for its grant,
      whatever else happens; and the error that is the fourth ends the lease (`EndedGrantFreesItsToken`). */
  lemma GrantAttemptsRunOut(max: nat, s: World, events: seq<Event>, t: World, q: Request)
    requires Reachable(max, s) && Reaches(s, events, t) && LeasedThroughout(s, events, q)
    ensures GrantErrors(events, q) <= 4 && GrantTimers(events, q) <= 3
  {
    hide Reachable, Reaches, LeasedThroughout, HoldersFor, GrantErrors, GrantTimers;
    ReachableInv(max, s);
    RunUsesAttempts(max, s, events, t, q);
    assert Fine(s, q);
    if s.p.calls[M.Waiting(q, 0)] > 0 {
      assert M.Waiting(q, 0) in s.p.calls;
    }
  }

  // ----- release attempts run out

  function ReleaseErrorsLeft(acts: multiset<Act>, q: Request): nat {
    5 * ReleasesAt(acts, q, 0) + 4 * ReleasesAt(acts, q, 1) + 3 * ReleasesAt(acts, q, 2) + 2 * ReleasesAt(acts, q, 3)
    + ReleasesAt(acts, q, 4)
  }

  function ReleaseTimersLeft(acts: multiset<Act>, q: Request): nat {
    4 * acts[Releasing(q, 0)] + 3 * acts[Releasing(q, 1)] + 2 * acts[Releasing(q, 2)] + acts[Releasing(q, 3)]
    + 4 * acts[Resending(q, 1)] + 3 * acts[Resending(q, 2)] + 2 * acts[Resending(q, 3)] + acts[Resending(q, 4)]
  }

  function ReleaseErrors(events: seq<Event>, q: Request): nat {
    if events == [] then 0
    else (if events[0].ReleaseError? && events[0].request == q then 1 else 0) + ReleaseErrors(events[1..], q)
  }

  function ReleaseTimers(events: seq<Event>, q: Request): nat {
    if events == [] then 0
    else (if events[0].ReleaseTimer? && events[0].request == q then 1 else 0) + ReleaseTimers(events[1..], q)
  }

  /** A run during which a release of `q` is under way, up to its last event. */
  ghost predicate ReleasingThroughout(s: World, events: seq<Event>, q: Request)
    decreases |events|
  {
    events != [] ==> ReleaseUnderWay(s, q) && ReleasingThroughout(Step(s, events[0]), events[1..], q)
  }

  function ActErrors(a: Act): nat
    requires Numbered(a)
  {
    if a.Releasing? || a.Resending? then 5 - a.retry else 0
  }

  function ActTimers(a: Act): nat
    requires Numbered(a)
  {
    if a.Releasing? then 4 - a.retry else if a.Resending? then 5 - a.retry else 0
  }

  lemma ActWeighed(acts: multiset<Act>, a: Act, q: Request)
    requires Numbered(a)
    ensures ReleaseErrorsLeft(acts + multiset{a}, q)
         == ReleaseErrorsLeft(acts, q) + if a.request == q then ActErrors(a) else 0
    ensures ReleaseTimersLeft(acts + multiset{a}, q)
         == ReleaseTimersLeft(acts, q) + if a.request == q then ActTimers(a) else 0
  {
    ActAtAdded(acts, a, q, 0);
    ActAtAdded(acts, a, q, 1);
    ActAtAdded(acts, a, q, 2);
    ActAtAdded(acts, a, q, 3);
    ActAtAdded(acts, a, q, 4);
  }

  lemma ActUnweighed(acts: multiset<Act>, a: Act, q: Request)
    requires Numbered(a) && a in acts
    ensures ReleaseErrorsLeft(acts - multiset{a}, q)
         == ReleaseErrorsLeft(acts, q) - if a.request == q then ActErrors(a) else 0
    ensures ReleaseTimersLeft(acts - multiset{a}, q)
         == ReleaseTimersLeft(acts, q) - if a.request == q then ActTimers(a) else 0
  {
    assert acts - multiset{a} + multiset{a} == acts;
    ActWeighed(acts - multiset{a}, a, q);
  }

  /** While a release of `q` is under way, nothing starts another one. */
  lemma OnlyItsOwnEvents(max: nat, s: World, e: Event, q: Request)
    requires Inv(max, s) && Enabled(s, e) && ReleaseUnderWay(s, q)
    ensures e.GrantArrives? || e.Settle? ==> e.request != q
    ensures e.Acquire? ==> NextRequest(s, e.worker) != q
  {
    hide CallsFor, HoldersFor, SerialsOk, NthId, Unlapped;
    assert Fine(s, q);
    var a :| a in s.acts && (a.Releasing? || a.Resending?) && a.request == q;
    ActCounts(s.acts, a);
    match e
    case GrantArrives(r, k, _) => CallCounts(s.p.calls, M.Sending(r, k));
    case Settle(r, _) =>
      if r == q {
        TwoHolders(s.acts, a, Running(q));
      }
    case Acquire(w, _) => FreshExactly(max, s, w);
    case _ =>
  }

  lemma TwoHolders(acts: multiset<Act>, a: Act, b: Act)
    requires a in acts && b in acts && a != b && a.request == b.request && Numbered(a) && Numbered(b)
    requires !a.Acquiring? && !b.Acquiring?
    ensures HoldersFor(acts, a.request) >= 2
  {
    var rest := acts - multiset{a};
    ActDropped(acts, a, a.request);
    ActCounts(rest, b);
  }

  /** The event changes what a worker has under way. */
  predicate AtWorker(e: Event) {
    e.Acquire? || e.AcquireArrives? || e.AcquireError? || e.GrantArrives? || e.Settle? || e.ReleaseArrives?
    || e.ReleaseError? || e.ReleaseTimer?
  }

  lemma WorkersUntouched(s: World, e: Event)
    requires !AtWorker(e)
    ensures Step(s, e).acts == s.acts
  {
    hide M.HandleAcquire, M.HandleRelease, M.HandleExit, M.SendError, M.SendOk, M.RetryTimer;
    hide Replace, Reacting, ReleaseAttempt, Resent;
  }

  lemma ReleaseUsesAttempts(max: nat, s: World, e: Event, q: Request)
    requires Inv(max, s) && Enabled(s, e) && ReleaseUnderWay(s, q)
    ensures ReleaseErrorsLeft(Step(s, e).acts, q) + ReleaseErrors([e], q) <= ReleaseErrorsLeft(s.acts, q)
    ensures ReleaseTimersLeft(Step(s, e).acts, q) + ReleaseTimers([e], q) <= ReleaseTimersLeft(s.acts, q)
  {
    hide Inv, Step, Enabled, ReleaseErrorsLeft, ReleaseTimersLeft, ReleaseUnderWay;
    assert [e][1..] == [];
    if !AtWorker(e) {
      WorkersUntouched(s, e);
    } else {
      OnlyItsOwnEvents(max, s, e, q);
      if e.Settle? || e.ReleaseError? || e.ReleaseTimer? {
        HolderUsesAttempts(max, s, e, q);
      } else {
        MessageUsesNone(max, s, e, q);
      }
    }
  }

  lemma HolderUsesAttempts(max: nat, s: World, e: Event, q: Request)
    requires Inv(max, s) && Enabled(s, e) && (e.Settle? || e.ReleaseError? || e.ReleaseTimer?)
    requires e.Settle? ==> e.request != q
    ensures ReleaseErrorsLeft(Step(s, e).acts, q) + ReleaseErrors([e], q) <= ReleaseErrorsLeft(s.acts, q)
    ensures ReleaseTimersLeft(Step(s, e).acts, q) + ReleaseTimers([e], q) <= ReleaseTimersLeft(s.acts, q)
  {
    hide ReleaseErrorsLeft, ReleaseTimersLeft, SerialsOk, Fine, Replace, M.WorkConserving;
    assert [e][1..] == [];
    match e
    case Settle(r, channel) => MoveWeighed(s.acts, Running(r), ReleaseAttempt(r, 0, channel), q);
    case ReleaseError(r, k) => MoveWeighed(s.acts, Releasing(r, k), Resent(r, OnReleaseError(k)), q);
    case ReleaseTimer(r, k, channel) => MoveWeighed(s.acts, Resending(r, k), ReleaseAttempt(r, k, channel), q);
  }

  lemma MessageUsesNone(max: nat, s: World, e: Event, q: Request)
    requires Inv(max, s) && Enabled(s, e)
    requires e.Acquire? || e.AcquireArrives? || e.AcquireError? || e.GrantArrives? || e.ReleaseArrives?
    requires (e.GrantArrives? ==> e.request != q) && (e.Acquire? ==> NextRequest(s, e.worker) != q)
    ensures ReleaseErrorsLeft(Step(s, e).acts, q) + ReleaseErrors([e], q) <= ReleaseErrorsLeft(s.acts, q)
    ensures ReleaseTimersLeft(Step(s, e).acts, q) + ReleaseTimers([e], q) <= ReleaseTimersLeft(s.acts, q)
  {
    hide ReleaseErrorsLeft, ReleaseTimersLeft, Core, Unlapped, NthId;
    assert [e][1..] == [];
    match e
    case Acquire(w, channel) => ActWeighed(s.acts, Acquiring(NextRequest(s, w)), q);
    case GrantArrives(r, k, channel) =>
      var b := Reacting(r, OnGrant(H.Semaphore, r in s.pending), channel);
      ActWeighed(s.acts, b, q);
      assert Step(s, e).acts == s.acts + multiset{b};
    case AcquireArrives(r, _) => TakenUsesNone(s, e, Acquiring(r), q);
    case AcquireError(r) => TakenUsesNone(s, e, Acquiring(r), q);
    case ReleaseArrives(r, k, _) =>
      ReleaseIsNumbered(max, s, r, k);
      TakenUsesNone(s, e, Releasing(r, k), q);
  }

  lemma ReleaseIsNumbered(max: nat, s: World, q: Request, k: nat)
    requires Inv(max, s) && Releasing(q, k) in s.acts
    ensures Numbered(Releasing(q, k))
  {
  }

  lemma TakenUsesNone(s: World, e: Event, a: Act, q: Request)
    requires a in s.acts && Numbered(a)
    requires match e
             case AcquireArrives(r, _) => a == Acquiring(r)
             case AcquireError(r) => a == Acquiring(r)
             case ReleaseArrives(r, k, _) => a == Releasing(r, k)
             case _ => false
    ensures ReleaseErrorsLeft(Step(s, e).acts, q) <= ReleaseErrorsLeft(s.acts, q)
    ensures ReleaseTimersLeft(Step(s, e).acts, q) <= ReleaseTimersLeft(s.acts, q)
  {
    hide ReleaseErrorsLeft, ReleaseTimersLeft, M.HandleAcquire, M.HandleRelease;
    ActUnweighed(s.acts, a, q);
    assert Step(s, e).acts == s.acts - multiset{a};
  }

  lemma MoveWeighed(acts: multiset<Act>, a: Act, b: Act, q: Request)
    requires a in acts && Numbered(a) && Numbered(b) && a.request == b.request
    ensures ReleaseErrorsLeft(Replace(acts, a, b), q)
         == ReleaseErrorsLeft(acts, q) + if a.request == q then ActErrors(b) - ActErrors(a) else 0
    ensures ReleaseTimersLeft(Replace(acts, a, b), q)
         == ReleaseTimersLeft(acts, q) + if a.request == q then ActTimers(b) - ActTimers(a) else 0
  {
    hide ReleaseErrorsLeft, ReleaseTimersLeft;
    ActUnweighed(acts, a, q);
    ActWeighed(acts - multiset{a}, b, q);
  }

  lemma {:induction false} RunUsesReleases(max: nat, s: World, events: seq<Event>, t: World, q: Request)
    requires Inv(max, s) && Reaches(s, events, t) && ReleasingThroughout(s, events, q)
    ensures ReleaseErrors(events, q) <= ReleaseErrorsLeft(s.acts, q)
    ensures ReleaseTimers(events, q) <= ReleaseTimersLeft(s.acts, q)
    decreases |events|
  {
    hide Inv, Enabled, Step, ReleaseErrorsLeft, ReleaseTimersLeft, ReleaseUnderWay;
    if events != [] {
      ReleaseUsesAttempts(max, s, events[0], q);
      StepKeeps(max, s, events[0]);
      RunUsesReleases(max, Step(s, events[0]), events[1..], t, q);
      assert [events[0]][1..] == [];
    }
  }

  /** While a release is under way, at most five error callbacks and four retry timers come for it. */
  lemma ReleaseAttemptsRunOut(max: nat, s: World, events: seq<Event>, t: World, q: Request)
    requires Reachable(max, s) && Reaches(s, events, t) && ReleasingThroughout(s, events, q)
    ensures ReleaseErrors(events, q) <= 5 && ReleaseTimers(events, q) <= 4
  {
    hide Reachable, Reaches, ReleasingThroughout, CallsFor, ReleaseErrors, ReleaseTimers;
    ReachableInv(max, s);
    RunUsesReleases(max, s, events, t, q);
    assert Fine(s, q);
    if s.acts[Resending(q, 0)] > 0 {
      assert Resending(q, 0) in s.acts;
    }
  }

  // ----- whole rounds

  /** A call of `run` sends its ACQUIRE exactly if the channel takes it; the primary hears nothing yet. */
  lemma AskSendsExactly(s: World, w: int, channel: H.Channel)
    ensures Step(s, Acquire(w, channel)).p == s.p
    ensures Step(s, Acquire(w, channel)).acts
         == if channel.Accepts? then s.acts + multiset{Acquiring(NextRequest(s, w))} else s.acts
  {
  }

  /** A worker asks for a permit, and the primary, with a token free, leases it and sends the grant. */
  lemma RequestIsGranted(max: nat, s: World, w: int, env: M.Env) returns (q: Request, s1: World, s2: World)
    requires Reachable(max, s) && w in s.alive && Unlapped(s, w) && s.p.tokens > 0
    requires env.cluster.dead == s.dead && env.cluster.Reachable(w) && env.throwing == {}
    ensures Enabled(s, Acquire(w, H.Accepts)) && s1 == Step(s, Acquire(w, H.Accepts))
    ensures q == NextRequest(s, w) && !Outstanding(s, q)
    ensures Enabled(s1, AcquireArrives(q, env)) && s2 == Step(s1, AcquireArrives(q, env))
    ensures Reachable(max, s1) && Reachable(max, s2)
    ensures s1.p == s.p && s1.acts == s.acts + multiset{Acquiring(q)} && s1.pending == s.pending + {q}
    ensures s2.acts == s.acts && s2.pending == s.pending + {q} && s2.alive == s.alive && s2.dead == s.dead
    ensures s.p.queue == [] && s2.p.queue == [] && s2.p.leases == s.p.leases + {q} && s2.p.tokens == s.p.tokens - 1
    ensures s2.p.calls == s.p.calls + multiset{M.Sending(q, 0)}
  {
    hide Reachable, Fine, AttemptsBounded, NthId, Outstanding, Unlapped;
    q := NextRequest(s, w);
    ReachableInv(max, s);
    FreshExactly(max, s, w);
    StaysReachable(max, s, Acquire(w, H.Accepts));
    s1 := Step(s, Acquire(w, H.Accepts));
    IdsFitTheQueue(MIN_SMI, Issued(s, w) + 1);
    assert Stored(q) == q && s.p.queue == [];
    assert Acquiring(q) in s1.acts;
    M.LoneAcquire(s.p, q, env);
    StaysReachable(max, s1, AcquireArrives(q, env));
    s2 := Step(s1, AcquireArrives(q, env));
    assert s1.acts - multiset{Acquiring(q)} == s.acts;
  }

  /** A permit goes round: in every reachable state with a token free, a live worker's call of `run` can be
      granted, runs its caller while the lease is held, and after the caller has settled the books are
      exactly what they were. */
  lemma PermitGoesRound(max: nat, s: World, w: int, env: M.Env)
    returns (q: Request, s2: World, s3: World, s4: World, t: World)
    requires Reachable(max, s) && w in s.alive && Unlapped(s, w) && s.p.tokens > 0
    requires env.cluster.dead == s.dead && env.cluster.Reachable(w) && env.throwing == {}
    ensures q == NextRequest(s, w) && Enabled(s, Acquire(w, H.Accepts))
    ensures Enabled(Step(s, Acquire(w, H.Accepts)), AcquireArrives(q, env))
    ensures s2 == Step(Step(s, Acquire(w, H.Accepts)), AcquireArrives(q, env))
    ensures Enabled(s2, GrantArrives(q, 0, H.Accepts)) && s3 == Step(s2, GrantArrives(q, 0, H.Accepts))
    ensures Running(q) in s3.acts && q in s3.p.leases && s3.p.tokens == s.p.tokens - 1
    ensures Enabled(s3, Settle(q, H.Accepts)) && s4 == Step(s3, Settle(q, H.Accepts))
    ensures Enabled(s4, ReleaseArrives(q, 0, env)) && t == Step(s4, ReleaseArrives(q, 0, env))
    ensures Reachable(max, t) && t.p.leases == s.p.leases && t.p.tokens == s.p.tokens && t.p.calls == s.p.calls
    ensures t.p.queue == [] && t.acts == s.acts && q !in t.pending
  {
    var s1;
    q, s1, s2 := RequestIsGranted(max, s, w, env);
    GrantRuns(max, s2, q);
    s3 := Step(s2, GrantArrives(q, 0, H.Accepts));
    SettledCallerReleases(max, s3, q, H.Accepts);
    s4 := Step(s3, Settle(q, H.Accepts));
    t := Step(s4, ReleaseArrives(q, 0, env));
    hide Step, Enabled, Reachable;
    StaysReachable(max, s3, Settle(q, H.Accepts));
    RoundEnds(max, s, s4, q, env);
  }

  /** The grant reaches a worker where it is awaited. */
  lemma GrantRuns(max: nat, s: World, q: Request)
    requires Reachable(max, s) && M.Sending(q, 0) in s.p.calls && q.worker in s.alive && q in s.pending
    ensures var e := GrantArrives(q, 0, H.Accepts);
      var t := Step(s, e);
      && Enabled(s, e) && Reachable(max, t) && t.acts == s.acts + multiset{Running(q)}
      && t.pending == s.pending - {q} && t.p == M.SendOk(s.p, q, 0) && t.alive == s.alive && t.dead == s.dead
  {
    hide Reachable;
    StaysReachable(max, s, GrantArrives(q, 0, H.Accepts));
  }

  /** The release is read when nobody waits: lease and token are back where they were. */
  lemma RoundEnds(max: nat, s: World, s4: World, q: Request, env: M.Env)
    requires Reachable(max, s4) && env.cluster.dead == s4.dead && !Outstanding(s, q)
    requires s4.acts == s.acts + multiset{Releasing(q, 0)} && q !in s4.pending
    requires s4.p.leases == s.p.leases + {q} && s4.p.tokens == s.p.tokens - 1 && s4.p.queue == []
    requires s4.p.calls == s.p.calls
    ensures var e := ReleaseArrives(q, 0, env);
      var t := Step(s4, e);
      && Enabled(s4, e) && Reachable(max, t) && t.p.leases == s.p.leases && t.p.tokens == s.p.tokens
      && t.p.calls == s.p.calls && t.p.queue == [] && t.acts == s.acts && q !in t.pending
  {
    hide Reachable;
    assert q !in s.p.leases;
    StaysReachable(max, s4, ReleaseArrives(q, 0, env));
    assert s4.acts - multiset{Releasing(q, 0)} == s.acts;
    assert s.p.leases + {q} - {q} == s.p.leases;
  }

  /** A request that times out before its grant arrives costs nothing: its grant still comes, runs no caller,
      and when its answer has been read the books are exactly what they were. */
  lemma TimedOutGoesRound(max: nat, s: World, w: int, env: M.Env)
    returns (q: Request, s2: World, s3: World, s4: World, t: World)
    requires Reachable(max, s) && w in s.alive && Unlapped(s, w) && s.p.tokens > 0
    requires env.cluster.dead == s.dead && env.cluster.Reachable(w) && env.throwing == {}
    ensures q == NextRequest(s, w) && Enabled(s, Acquire(w, H.Accepts))
    ensures Enabled(Step(s, Acquire(w, H.Accepts)), AcquireArrives(q, env))
    ensures s2 == Step(Step(s, Acquire(w, H.Accepts)), AcquireArrives(q, env))
    ensures Enabled(s2, Timeout(q)) && s3 == Step(s2, Timeout(q))
    ensures q in s3.p.leases && s3.p.tokens == s.p.tokens - 1
    ensures Enabled(s3, GrantArrives(q, 0, H.Accepts)) && s4 == Step(s3, GrantArrives(q, 0, H.Accepts))
    ensures Running(q) !in s4.acts
    ensures Enabled(s4, ReleaseArrives(q, 0, env)) && t == Step(s4, ReleaseArrives(q, 0, env))
    ensures Reachable(max, t) && t.p.leases == s.p.leases && t.p.tokens == s.p.tokens && t.p.calls == s.p.calls
    ensures t.p.queue == [] && t.acts == s.acts && q !in t.pending
  {
    var s1;
    q, s1, s2 := RequestIsGranted(max, s, w, env);
    hide Reachable;
    s3 := Step(s2, Timeout(q));
    s4 := Step(s3, GrantArrives(q, 0, H.Accepts));
    t := Step(s4, ReleaseArrives(q, 0, env));
    hide Step, Enabled;
    GrantComesTooLate(max, s2, q);
    RoundEnds(max, s, s4, q, env);
  }

  /** The request times out, and its grant then finds nobody waiting. */
  lemma GrantComesTooLate(max: nat, s: World, q: Request)
    requires Reachable(max, s) && M.Sending(q, 0) in s.p.calls && q.worker in s.alive && q in s.pending
    ensures var s1 := Step(s, Timeout(q));
      var t := Step(s1, GrantArrives(q, 0, H.Accepts));
      && Enabled(s, Timeout(q)) && s1.p == s.p && Enabled(s1, GrantArrives(q, 0, H.Accepts)) && Reachable(max, t)
      && t.acts == s.acts + multiset{Releasing(q, 0)} && Running(q) !in t.acts
      && q !in t.pending && t.p == M.SendOk(s.p, q, 0) && t.dead == s.dead
  {
    hide Reachable;
    StaysReachable(max, s, Timeout(q));
    var s1 := Step(s, Timeout(q));
    assert s1 == s.(pending := s.pending - {q});
    GrantIsAnswered(max, s1, q, 0, H.Accepts);
  }

  /** A request whose ACQUIRE is reported as not sent leaves nothing behind anywhere. */
  lemma FailedAcquireLeavesNothing(max: nat, s: World, q: Request)
    requires Reachable(max, s) && Enabled(s, AcquireError(q))
    ensures !Outstanding(Step(s, AcquireError(q)), q)
  {
    hide Reachable, CallsFor, HoldersFor, SerialsOk, Outstanding;
    var t := Step(s, AcquireError(q));
    ReachableInv(max, s);
    AcquireGoneKeeps(max, s, q);
    StaysReachable(max, s, AcquireError(q));
    ReachableInv(max, t);
    OutstandingCounts(max, t, q);
  }
}
