/** The semaphore limiter's handlers as functions on its abstract state: a token counter, the set of
    leased (worker, request) pairs, and one queue of waiting requests. */
module SemaphoreModel {
  import opened Common
  import opened Environment

  /** A transmission the primary still has to hear about: a send whose callback is outstanding, or the
      50 ms timer before the next attempt. */
  datatype Call = Sending(request: Request, retry: nat) | Waiting(request: Request, retry: nat)

  datatype Decision = Decision(request: Request, reachable: bool)

  datatype State = State(
    tokens: int,
    leases: set<Request>,
    queue: seq<Request>,
    calls: multiset<Call>,
    decisions: seq<Decision>,   // history of dequeued requests
    arrived: seq<Request>       // history of ACQUIRE messages
  )

  /** What one event-loop step sees: the workers, and which grant sends of this step's loop throw
      synchronously, each named by how many requests are still queued when it is made. */
  datatype Env = Env(cluster: Cluster, throwing: set<nat>)

  function Init(max: nat): State {
    State(max, {}, [], multiset{}, [], [])
  }

  // ----- the bookkeeping operations

  function Lease(s: State, q: Request): State {
    s.(leases := s.leases + {q}, tokens := s.tokens - 1)
  }

  function Release(s: State, q: Request): State {
    if q in s.leases then s.(leases := s.leases - {q}, tokens := s.tokens + 1) else s
  }

  function LeasesOf(leases: set<Request>, w: int): set<Request> {
    set q | q in leases && q.worker == w
  }

  function Reclaim(s: State, w: int): State {
    var mine := LeasesOf(s.leases, w);
    s.(leases := s.leases - mine, tokens := s.tokens + |mine|)
  }

  // ----- the grant loop

  /** One turn: dequeue, skip the request of an unreachable worker, else lease and send; a send that
      throws gives the lease straight back. */
  function GrantHead(s: State, env: Env): State
    requires s.queue != []
  {
    var q := s.queue[0];
    var reachable := env.cluster.Reachable(q.worker);
    var popped := s.(queue := s.queue[1..], decisions := s.decisions + [Decision(q, reachable)]);
    if !reachable then popped
    else if |popped.queue| in env.throwing then Release(Lease(popped, q), q)
    else Lease(popped, q).(calls := popped.calls + multiset{Sending(q, 0)})
  }

  function Drain(s: State, env: Env): State
    decreases |s.queue|
  {
    if s.queue == [] || s.tokens <= 0 then s else Drain(GrantHead(s, env), env)
  }

  // ----- the handlers

  function HandleAcquire(s: State, q: Request, env: Env): State {
    Drain(s.(queue := s.queue + [Stored(q)], arrived := s.arrived + [Stored(q)]), env)
  }

  /** `#decrementWorkerUsage`: only a release that finds its lease restarts the loop. */
  function HandleRelease(s: State, q: Request, env: Env): State {
    if q in s.leases then Drain(Release(s, q), env) else s
  }

  function HandleExit(s: State, w: int, env: Env): State {
    Drain(Reclaim(s, w), env)
  }

  function SendOk(s: State, q: Request, k: nat): State {
    s.(calls := s.calls - multiset{Sending(q, k)})
  }

  function SendError(s: State, q: Request, k: nat, env: Env): State {
    var s1 := s.(calls := s.calls - multiset{Sending(q, k)});
    if q.worker in env.cluster.dead then HandleExit(s1, q.worker, env)
    else if k < 3 then s1.(calls := s1.calls + multiset{Waiting(q, k + 1)})
    else HandleRelease(s1, q, env)
  }

  function RetryTimer(s: State, q: Request, k: nat, throws: bool, env: Env): State {
    var s1 := s.(calls := s.calls - multiset{Waiting(q, k)});
    if !throws then s1.(calls := s1.calls + multiset{Sending(q, k)})
    else if q.worker in env.cluster.dead then HandleExit(s1, q.worker, env)
    else HandleRelease(s1, q, env)
  }

  datatype Event =
    | Acquire(request: Request, env: Env)
    | ReleaseMessage(request: Request, env: Env)
    | WorkerExit(worker: int, env: Env)
    | CallbackOk(request: Request, retry: nat)
    | CallbackError(request: Request, retry: nat, env: Env)
    | TimerFires(request: Request, retry: nat, throws: bool, env: Env)

  function Step(s: State, e: Event): State {
    match e
    case Acquire(q, env) => HandleAcquire(s, q, env)
    case ReleaseMessage(q, env) => HandleRelease(s, q, env)
    case WorkerExit(w, env) => HandleExit(s, w, env)
    case CallbackOk(q, k) => SendOk(s, q, k)
    case CallbackError(q, k, env) => SendError(s, q, k, env)
    case TimerFires(q, k, throws, env) => RetryTimer(s, q, k, throws, env)
  }

  function Run(s: State, events: seq<Event>): State
    decreases |events|
  {
    if events == [] then s else Run(Step(s, events[0]), events[1..])
  }

  // ----- what every run keeps, whatever the ids

  function Total(s: State): int {
    s.tokens + |s.leases|
  }

  function Requests(ds: seq<Decision>): seq<Request> {
    seq(|ds|, i requires 0 <= i < |ds| => ds[i].request)
  }

  ghost predicate Bounded(max: nat, s: State) {
    s.tokens >= 0 && Total(s) <= max
  }

  ghost predicate InOrder(s: State) {
    s.arrived == Requests(s.decisions) + s.queue
  }

  /** Nothing waits while a token is free. */
  ghost predicate WorkConserving(s: State) {
    s.queue == [] || s.tokens == 0
  }

  ghost predicate Inv(max: nat, s: State) {
    Bounded(max, s) && InOrder(s) && WorkConserving(s)
  }

  /** A turn of the loop loses a token exactly when it grants an id that is already leased. */
  lemma GrantHeadTotal(s: State, env: Env)
    requires s.queue != []
    ensures Total(GrantHead(s, env))
         == Total(s) - if env.cluster.Reachable(s.queue[0].worker) && s.queue[0] in s.leases then 1 else 0
  {
  }

  lemma {:induction false} DrainKeeps(max: nat, s: State, env: Env)
    requires Bounded(max, s) && InOrder(s)
    ensures Inv(max, Drain(s, env))
    decreases |s.queue|
  {
    if s.queue != [] && s.tokens > 0 {
      GrantHeadTotal(s, env);
      assert Requests(GrantHead(s, env).decisions) == Requests(s.decisions) + [s.queue[0]];
      DrainKeeps(max, GrantHead(s, env), env);
    }
  }

  lemma ReclaimTotal(s: State, w: int)
    ensures Total(Reclaim(s, w)) == Total(s)
    ensures forall q :: q in Reclaim(s, w).leases <==> q in s.leases && q.worker != w
  {
  }

  lemma ReleaseTotal(s: State, q: Request)
    ensures Total(Release(s, q)) == Total(s)
  {
  }

  lemma StepKeeps(max: nat, s: State, e: Event)
    requires Inv(max, s)
    ensures Inv(max, Step(s, e))
  {
    match e
    case Acquire(q, env) =>
      DrainKeeps(max, s.(queue := s.queue + [Stored(q)], arrived := s.arrived + [Stored(q)]), env);
    case ReleaseMessage(q, env) => HandleReleaseKeeps(max, s, q, env);
    case WorkerExit(w, env) => HandleExitKeeps(max, s, w, env);
    case CallbackOk(q, k) =>
    case CallbackError(q, k, env) =>
      if q.worker in env.cluster.dead {
        HandleExitKeeps(max, SendOk(s, q, k), q.worker, env);
      } else if k >= 3 {
        HandleReleaseKeeps(max, SendOk(s, q, k), q, env);
      }
    case TimerFires(q, k, throws, env) =>
      var s1 := s.(calls := s.calls - multiset{Waiting(q, k)});
      if throws && q.worker in env.cluster.dead {
        HandleExitKeeps(max, s1, q.worker, env);
      } else if throws {
        HandleReleaseKeeps(max, s1, q, env);
      }
  }

  lemma HandleReleaseKeeps(max: nat, s: State, q: Request, env: Env)
    requires Inv(max, s)
    ensures Inv(max, HandleRelease(s, q, env))
  {
    ReleaseTotal(s, q);
    DrainKeeps(max, Release(s, q), env);
  }

  lemma HandleExitKeeps(max: nat, s: State, w: int, env: Env)
    requires Inv(max, s)
    ensures Inv(max, HandleExit(s, w, env))
  {
    ReclaimTotal(s, w);
    DrainKeeps(max, Reclaim(s, w), env);
  }

  lemma {:induction false} RunKeeps(max: nat, s: State, events: seq<Event>)
    requires Inv(max, s)
    ensures Inv(max, Run(s, events))
    decreases |events|
  {
    if events != [] {
      StepKeeps(max, s, events[0]);
      RunKeeps(max, Step(s, events[0]), events[1..]);
    }
  }

  /** The requests of the ACQUIRE messages of a run, as the wait queues store them. */
  function Arrivals(events: seq<Event>): seq<Request> {
    if events == [] then []
    else (if events[0].Acquire? then [Stored(events[0].request)] else []) + Arrivals(events[1..])
  }

  lemma {:induction false} DrainRecordsNone(s: State, env: Env)
    ensures Drain(s, env).arrived == s.arrived
    decreases |s.queue|
  {
    if s.queue != [] && s.tokens > 0 {
      DrainRecordsNone(GrantHead(s, env), env);
    }
  }

  lemma ArrivalRecorded(s: State, e: Event)
    ensures Step(s, e).arrived == if e.Acquire? then s.arrived + [Stored(e.request)] else s.arrived
  {
    hide Drain;
    match LoopStart(s, e)
    case None =>
    case Some((t, env)) => DrainRecordsNone(t, env);
  }

  lemma {:induction false} ArrivalsRecorded(s: State, events: seq<Event>)
    ensures Run(s, events).arrived == s.arrived + Arrivals(events)
    decreases |events|
  {
    hide Step;
    if events != [] {
      ArrivalRecorded(s, events[0]);
      ArrivalsRecorded(Step(s, events[0]), events[1..]);
    }
  }

  /** Over every run of handlers, with any ids, any crashes and any synchronous send failures: tokens
      never go negative, tokens and leases never exceed the limit, nothing waits while a token is free,
      and the requests decided and waiting are those of the run's ACQUIRE messages, each once and in order. */
  lemma HandlersKeepTheLimit(max: nat, events: seq<Event>)
    ensures var s := Run(Init(max), events);
      && s.tokens >= 0 && s.tokens + |s.leases| <= max
      && (s.queue == [] || s.tokens == 0)
      && Requests(s.decisions) + s.queue == Arrivals(events)
  {
    hide Run, Arrivals;
    RunKeeps(max, Init(max), events);
    ArrivalsRecorded(Init(max), events);
  }

  // ----- first come, first served within one loop

  /** The first attempt made for the head of a queue: none for an unreachable worker or a send that throws. */
  function HeadAttempt(queue: seq<Request>, env: Env): multiset<Call>
    requires queue != []
  {
    if env.cluster.Reachable(queue[0].worker) && |queue| - 1 !in env.throwing
    then multiset{Sending(queue[0], 0)} else multiset{}
  }

  function Attempts(queue: seq<Request>, k: nat, env: Env): multiset<Call>
    requires k <= |queue|
  {
    if k == 0 then multiset{} else HeadAttempt(queue, env) + Attempts(queue[1..], k - 1, env)
  }

  function Decided(queue: seq<Request>, k: nat, cluster: Cluster): seq<Decision>
    requires k <= |queue|
  {
    if k == 0 then []
    else [Decision(queue[0], cluster.Reachable(queue[0].worker))] + Decided(queue[1..], k - 1, cluster)
  }

  lemma GrantHeadEffect(s: State, env: Env)
    requires s.queue != [] && s.tokens > 0
    ensures var t := GrantHead(s, env);
      && t.queue == s.queue[1..] && t.tokens >= 0
      && t.calls == s.calls + HeadAttempt(s.queue, env)
      && t.decisions == s.decisions + [Decision(s.queue[0], env.cluster.Reachable(s.queue[0].worker))]
  {
  }

  /** The loop decides a prefix of the queue, in order, sends exactly the grants of that prefix, and stops
      early only when the tokens run out. */
  lemma {:induction false} DrainServesAPrefix(s: State, env: Env) returns (k: nat)
    requires s.tokens >= 0
    ensures k <= |s.queue| && Drain(s, env).queue == s.queue[k..]
    ensures Drain(s, env).calls == s.calls + Attempts(s.queue, k, env)
    ensures Drain(s, env).decisions == s.decisions + Decided(s.queue, k, env.cluster)
    ensures k < |s.queue| ==> Drain(s, env).tokens == 0
    decreases |s.queue|
  {
    if s.queue == [] || s.tokens <= 0 {
      k := 0;
    } else {
      hide GrantHead, HeadAttempt, Cluster.Reachable;
      GrantHeadEffect(s, env);
      var t := GrantHead(s, env);
      var j := DrainServesAPrefix(t, env);
      k := j + 1;
      assert s.queue[1..][j..] == s.queue[k..];
      var d := Decision(s.queue[0], env.cluster.Reachable(s.queue[0].worker));
      assert s.decisions + [d] + Decided(s.queue[1..], j, env.cluster)
          == s.decisions + ([d] + Decided(s.queue[1..], j, env.cluster));
    }
  }

  // ----- exact conservation

  /** How many of the grants a loop makes repeat an id that is still leased. */
  function Repeats(s: State, env: Env): nat
    decreases |s.queue|
  {
    if s.queue == [] || s.tokens <= 0 then 0
    else
      (if env.cluster.Reachable(s.queue[0].worker) && s.queue[0] in s.leases then 1 else 0)
      + Repeats(GrantHead(s, env), env)
  }

  /** The loop loses exactly one token for each repeated id, and so none exactly when ids are fresh. */
  lemma {:induction false} DrainTotal(s: State, env: Env)
    ensures Total(Drain(s, env)) == Total(s) - Repeats(s, env)
    decreases |s.queue|
  {
    if s.queue != [] && s.tokens > 0 {
      GrantHeadTotal(s, env);
      DrainTotal(GrantHead(s, env), env);
    }
  }

  /** The state and surroundings in which a handler starts the grant loop, if it does. */
  function LoopStart(s: State, e: Event): Option<(State, Env)> {
    match e
    case Acquire(q, env) =>
      Some((s.(queue := s.queue + [Stored(q)], arrived := s.arrived + [Stored(q)]), env))
    case ReleaseMessage(q, env) => ReleaseStart(s, q, env)
    case WorkerExit(w, env) => Some((Reclaim(s, w), env))
    case CallbackOk(q, k) => None
    case CallbackError(q, k, env) =>
      if q.worker in env.cluster.dead then Some((Reclaim(SendOk(s, q, k), q.worker), env))
      else if k < 3 then None
      else ReleaseStart(SendOk(s, q, k), q, env)
    case TimerFires(q, k, throws, env) =>
      var s1 := s.(calls := s.calls - multiset{Waiting(q, k)});
      if !throws then None
      else if q.worker in env.cluster.dead then Some((Reclaim(s1, q.worker), env))
      else ReleaseStart(s1, q, env)
  }

  function ReleaseStart(s: State, q: Request, env: Env): Option<(State, Env)> {
    if q in s.leases then Some((Release(s, q), env)) else None
  }

  function StepRepeats(s: State, e: Event): nat {
    match LoopStart(s, e)
    case None => 0
    case Some((t, env)) => Repeats(t, env)
  }

  function RunRepeats(s: State, events: seq<Event>): nat
    decreases |events|
  {
    if events == [] then 0 else StepRepeats(s, events[0]) + RunRepeats(Step(s, events[0]), events[1..])
  }

  lemma StepTotal(s: State, e: Event)
    ensures Total(Step(s, e)) == Total(s) - StepRepeats(s, e)
  {
    hide Drain, Repeats;
    if e.WorkerExit? {
      ReclaimTotal(s, e.worker);
    } else if e.CallbackError? {
      ReclaimTotal(SendOk(s, e.request, e.retry), e.request.worker);
    } else if e.TimerFires? {
      ReclaimTotal(s.(calls := s.calls - multiset{Waiting(e.request, e.retry)}), e.request.worker);
    }
    match LoopStart(s, e)
    case None =>
    case Some((t, env)) => DrainTotal(t, env);
  }

  lemma {:induction false} RunTotal(s: State, events: seq<Event>)
    ensures Total(Run(s, events)) == Total(s) - RunRepeats(s, events)
    decreases |events|
  {
    if events != [] {
      StepTotal(s, events[0]);
      RunTotal(Step(s, events[0]), events[1..]);
    }
  }

  /** Exact conservation, both ways: tokens and leases add up to the limit after a run if and only if no
      grant of the run repeated an id that was still leased. */
  lemma ConservedExactlyWhenIdsAreFresh(max: nat, events: seq<Event>)
    ensures var s := Run(Init(max), events);
      s.tokens + |s.leases| == max <==> RunRepeats(Init(max), events) == 0
  {
    RunTotal(Init(max), events);
  }

  lemma LoneAcquire(s: State, q: Request, env: Env)
    requires s.queue == [] && s.tokens > 0 && Stored(q) == q
    requires env.cluster.Reachable(q.worker) && env.throwing == {}
    ensures var t := Step(s, Acquire(q, env));
      t.leases == s.leases + {q} && t.tokens == s.tokens - 1 && t.queue == []
      && t.calls == s.calls + multiset{Sending(q, 0)}
  {
    var s1 := s.(queue := s.queue + [q], arrived := s.arrived + [q]);
    assert s1.queue == [q] && [q][1..] == [];
    assert Drain(s1, env) == Drain(GrantHead(s1, env), env) == GrantHead(s1, env);
  }

  /** Without fresh ids a token can be lost for good: one id granted twice and released twice. */
  lemma RepeatedIdLosesAToken(env: Env)
    requires env.cluster.Reachable(0) && env.throwing == {}
    ensures var q := Request(0, 0);
      var s := Run(Init(2), [Acquire(q, env), Acquire(q, env), ReleaseMessage(q, env), ReleaseMessage(q, env)]);
      s.tokens == 1 && s.leases == {} && s.queue == []
  {
    var q := Request(0, 0);
    var acquire, release := Acquire(q, env), ReleaseMessage(q, env);
    var s1 := Step(Init(2), acquire);
    LoneAcquire(Init(2), q, env);
    var s2 := Step(s1, acquire);
    LoneAcquire(s1, q, env);
    var s3 := Step(s2, release);
    assert s3.leases == {} && s3.tokens == 1 && s3.queue == [];
    assert [acquire, acquire, release, release][1..] == [acquire, release, release];
    assert [acquire, release, release][1..] == [release, release];
    assert [release, release][1..] == [release] && [release][1..] == [];
    assert Run(s3, [release]) == Run(s3, []) == s3;
    assert Run(s2, [release, release]) == s3;
    assert Run(s1, [acquire, release, release]) == s3;
  }

  // ----- a worker's exit

  lemma {:induction false} DrainLeases(s: State, env: Env)
    ensures forall q :: q in Drain(s, env).leases ==> q in s.leases || env.cluster.Reachable(q.worker)
    decreases |s.queue|
  {
    if s.queue != [] && s.tokens > 0 {
      DrainLeases(GrantHead(s, env), env);
    }
  }

  /** After an exit the worker holds nothing, and hearing of the same exit again changes nothing. */
  lemma ExitIsIdempotent(max: nat, s: State, w: int, env: Env, again: Env)
    requires Bounded(max, s) && InOrder(s) && !env.cluster.Reachable(w)
    ensures LeasesOf(HandleExit(s, w, env).leases, w) == {}
    ensures HandleExit(HandleExit(s, w, env), w, again) == HandleExit(s, w, env)
  {
    var t := HandleExit(s, w, env);
    ReclaimTotal(s, w);
    DrainKeeps(max, Reclaim(s, w), env);
    DrainLeases(Reclaim(s, w), env);
    assert LeasesOf(t.leases, w) == {};
    assert Reclaim(t, w) == t;
  }
}
