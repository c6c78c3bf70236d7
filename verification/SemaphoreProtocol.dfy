/** One primary in semaphore mode, any number of workers, and the messages between them. Everything the
    process tree may do is an event: deliveries and failed sends in either order, timeouts, retries,
    settling callers, dying workers, and exits the primary hears of late. */
module SemaphoreProtocol {
  import opened Common
  import opened Environment
  import opened RequestIds
  import opened WorkerRules
  import H = Handshake
  import M = SemaphoreModel

  /** What a worker has under way for one of its requests. */
  datatype Act =
    | Acquiring(request: Request)              // ACQUIRE handed to process.send, outcome unknown
    | Running(request: Request)                // the caller executes
    | Releasing(request: Request, retry: nat)  // RELEASE handed to process.send, outcome unknown
    | Resending(request: Request, retry: nat)  // waiting for the 50 ms timer of the next attempt
    | Lost(request: Request)                   // release reported as permanently failed

  datatype World = World(
    p: M.State,
    acts: multiset<Act>,
    pending: set<Request>,   // entries of the workers' pendingRequests maps
    known: set<int>,         // workers ever forked
    alive: set<int>,         // workers whose process still runs
    dead: set<int>,          // workers whose isDead() is true
    exited: set<int>,        // workers whose exit event the limiter has handled
    issued: map<int, nat>,   // how many request ids each worker has used
    serial: map<Request, nat>   // history: which request of its worker, counted from 1, last used that id
  )

  datatype Event =
    | Spawn(worker: int)
    | Acquire(worker: int, channel: H.Channel)
    | AcquireArrives(request: Request, env: M.Env)
    | AcquireError(request: Request)
    | Timeout(request: Request)
    | GrantArrives(request: Request, retry: nat, channel: H.Channel)
    | GrantError(request: Request, retry: nat, env: M.Env)
    | GrantVanishes(request: Request, retry: nat)
    | GrantTimer(request: Request, retry: nat, throws: bool, env: M.Env)
    | Settle(request: Request, channel: H.Channel)
    | ReleaseArrives(request: Request, retry: nat, env: M.Env)
    | ReleaseError(request: Request, retry: nat)
    | ReleaseTimer(request: Request, retry: nat, channel: H.Channel)
    | Die(worker: int)
    | Dead(worker: int)
    | Exit(worker: int, env: M.Env)

  function Init(max: nat): World {
    World(M.Init(max), multiset{}, {}, {}, {}, {}, {}, map[], map[])
  }

  function Issued(s: World, w: int): nat {
    if w in s.issued then s.issued[w] else 0
  }

  /** The request a worker's next call of `run` makes: its id comes from the generator. */
  function NextRequest(s: World, w: int): Request {
    Request(w, NthId(MIN_SMI, Issued(s, w) + 1))
  }

  /** Something in the system still refers to the request: a pending entry, the wait queue, a lease, a
      message, a timer or a caller. */
  ghost predicate Outstanding(s: World, q: Request) {
    || q in s.pending || q in s.p.queue || q in s.p.leases
    || (exists c :: c in s.p.calls && c.request == q)
    || (exists a :: a in s.acts && a.request == q)
  }

  /** How many requests of its worker ago the request was made, seen from the next one. */
  function Age(s: World, q: Request): int {
    Issued(s, q.worker) + 1 - (if q in s.serial then s.serial[q] else 0)
  }

  /** No outstanding request of the worker was made a whole number of id cycles ago. */
  ghost predicate Unlapped(s: World, w: int) {
    forall q :: Outstanding(s, q) && q.worker == w ==> Age(s, q) % CYCLE != 0
  }

  ghost predicate Enabled(s: World, e: Event) {
    match e
    case Spawn(w) => w !in s.known && ToInt32(w) == w
    case Acquire(w, _) => w in s.alive && Unlapped(s, w)
    case AcquireArrives(q, env) => Acquiring(q) in s.acts && env.cluster.dead == s.dead
    case AcquireError(q) => Acquiring(q) in s.acts && q.worker in s.alive
    case Timeout(q) => q in s.pending && q.worker in s.alive
    case GrantArrives(q, k, _) => M.Sending(q, k) in s.p.calls && q.worker in s.alive
    case GrantError(q, k, env) => M.Sending(q, k) in s.p.calls && env.cluster.dead == s.dead
    case GrantVanishes(q, k) => M.Sending(q, k) in s.p.calls && q.worker !in s.alive
    case GrantTimer(q, k, _, env) => M.Waiting(q, k) in s.p.calls && env.cluster.dead == s.dead
    case Settle(q, _) => Running(q) in s.acts && q.worker in s.alive
    case ReleaseArrives(q, k, env) => Releasing(q, k) in s.acts && env.cluster.dead == s.dead
    case ReleaseError(q, k) => Releasing(q, k) in s.acts && q.worker in s.alive
    case ReleaseTimer(q, k, _) => Resending(q, k) in s.acts && q.worker in s.alive
    case Die(w) => w in s.alive
    case Dead(w) => w in s.known && w !in s.alive
    case Exit(w, env) => w in s.dead && env.cluster.dead == s.dead
  }

  function Replace(acts: multiset<Act>, a: Act, b: Act): multiset<Act> {
    acts - multiset{a} + multiset{b}
  }

  function ReleaseAttempt(q: Request, k: nat, channel: H.Channel): Act {
    if OnReleaseSend(channel) == InTransit then Releasing(q, k) else Lost(q)
  }

  function Resent(q: Request, step: ReleaseStep): Act {
    match step
    case RetryAfter50ms(k) => Resending(q, k)
    case _ => Lost(q)
  }

  function Reacting(q: Request, reaction: Reaction, channel: H.Channel): Act {
    if reaction == RunCaller then Running(q) else ReleaseAttempt(q, 0, channel)
  }

  /** The worker's generator moves on. */
  function Issue(s: World, w: int): World {
    var n := Issued(s, w) + 1;
    s.(issued := s.issued[w := n], serial := s.serial[NextRequest(s, w) := n])
  }

  /** A permit request: a closed channel ends it at once, a send that throws leaves its pending entry. */
  function Ask(s: World, w: int, channel: H.Channel): World {
    var q := NextRequest(s, w);
    match channel
    case Closed => Issue(s, w)
    case Throws => Issue(s, w).(pending := s.pending + {q})
    case Accepts => Issue(s, w).(pending := s.pending + {q}, acts := s.acts + multiset{Acquiring(q)})
  }

  function Step(s: World, e: Event): World {
    match e
    case Spawn(w) => s.(known := s.known + {w}, alive := s.alive + {w})
    case Acquire(w, channel) => Ask(s, w, channel)
    case AcquireArrives(q, env) =>
      s.(acts := s.acts - multiset{Acquiring(q)}, p := M.HandleAcquire(s.p, q, env))
    case AcquireError(q) => s.(pending := s.pending - {q}, acts := s.acts - multiset{Acquiring(q)})
    case Timeout(q) => s.(pending := s.pending - {q})
    case GrantArrives(q, k, channel) =>
      s.(p := M.SendOk(s.p, q, k), pending := s.pending - {q},
         acts := s.acts + multiset{Reacting(q, OnGrant(H.Semaphore, q in s.pending), channel)})
    case GrantError(q, k, env) => s.(p := M.SendError(s.p, q, k, env))
    case GrantVanishes(q, k) => s.(p := M.SendOk(s.p, q, k))
    case GrantTimer(q, k, throws, env) => s.(p := M.RetryTimer(s.p, q, k, throws, env))
    case Settle(q, channel) => s.(acts := Replace(s.acts, Running(q), ReleaseAttempt(q, 0, channel)))
    case ReleaseArrives(q, k, env) =>
      s.(acts := s.acts - multiset{Releasing(q, k)}, p := M.HandleRelease(s.p, q, env))
    case ReleaseError(q, k) =>
      s.(acts := Replace(s.acts, Releasing(q, k), Resent(q, OnReleaseError(k))))
    case ReleaseTimer(q, k, channel) => s.(acts := Replace(s.acts, Resending(q, k), ReleaseAttempt(q, k, channel)))
    case Die(w) => s.(alive := s.alive - {w})
    case Dead(w) => s.(dead := s.dead + {w})
    case Exit(w, env) => s.(exited := s.exited + {w}, p := M.HandleExit(s.p, w, env))
  }

  ghost predicate Reaches(s: World, events: seq<Event>, t: World)
    decreases |events|
  {
    if events == [] then s == t
    else Enabled(s, events[0]) && Reaches(Step(s, events[0]), events[1..], t)
  }

  // ----- the invariant

  function CallsAt(calls: multiset<M.Call>, q: Request, k: nat): nat {
    calls[M.Sending(q, k)] + calls[M.Waiting(q, k)]
  }

  /** How many transmissions of the request's grant are under way, over all attempts. */
  function CallsFor(calls: multiset<M.Call>, q: Request): nat {
    CallsAt(calls, q, 0) + CallsAt(calls, q, 1) + CallsAt(calls, q, 2) + CallsAt(calls, q, 3)
  }

  function ReleasesAt(acts: multiset<Act>, q: Request, k: nat): nat {
    acts[Releasing(q, k)] + acts[Resending(q, k)]
  }

  function ReleasesFor(acts: multiset<Act>, q: Request): nat {
    ReleasesAt(acts, q, 0) + ReleasesAt(acts, q, 1) + ReleasesAt(acts, q, 2) + ReleasesAt(acts, q, 3)
    + ReleasesAt(acts, q, 4)
  }

  /** How many callers and releases its worker has for the request, lost releases included. */
  function HoldersFor(acts: multiset<Act>, q: Request): nat {
    acts[Running(q)] + acts[Lost(q)] + ReleasesFor(acts, q)
  }

  /** Where one request stands: in one place at most, not leased before its grant, on a live worker leased
      exactly while something there or on the way there accounts for it, and made before all that. */
  ghost predicate Fine(s: World, q: Request) {
    var calls, holders := CallsFor(s.p.calls, q), HoldersFor(s.acts, q);
    var asks, waits := s.acts[Acquiring(q)], multiset(s.p.queue)[q];
    && calls + holders + asks + waits <= 1
    && (asks + waits > 0 ==> q !in s.p.leases)
    && (q.worker in s.alive ==> (q in s.p.leases <==> calls + holders == 1))
    && (calls + holders + asks + waits > 0 || q in s.p.leases ==> q in s.serial)
  }

  /** Attempts are numbered from 0, and what waits for a timer has failed at least once. */
  ghost predicate AttemptsBounded(calls: multiset<M.Call>, acts: multiset<Act>) {
    && (forall c :: c in calls ==> Counted(c))
    && (forall a :: a in acts ==> Numbered(a))
  }

  predicate Counted(c: M.Call) {
    c.retry <= 3 && (c.Waiting? ==> c.retry >= 1)
  }

  predicate Numbered(a: Act) {
    (a.Releasing? || a.Resending? ==> a.retry <= 4) && (a.Resending? ==> a.retry >= 1)
  }

  /** Requests carry the ids that their workers' generators gave them. */
  ghost predicate SerialsOk(serial: map<Request, nat>, issued: map<int, nat>, known: set<int>) {
    && (forall q :: q in serial ==>
          && q.worker in known && q.worker in issued && 1 <= serial[q] <= issued[q.worker]
          && q.id == NthId(MIN_SMI, serial[q]))
    && (forall w :: w in known ==> ToInt32(w) == w)
  }

  ghost predicate Core(max: nat, s: World) {
    && s.p.tokens >= 0 && M.Total(s.p) == max
    && (forall q :: Fine(s, q))
    && AttemptsBounded(s.p.calls, s.acts)
    && (forall q :: q in s.p.leases ==> q.worker !in s.exited)
    && s.alive <= s.known && s.dead <= s.known && s.alive !! s.dead && s.exited <= s.dead
    && SerialsOk(s.serial, s.issued, s.known) && s.pending <= s.serial.Keys
  }

  ghost predicate Inv(max: nat, s: World) {
    Core(max, s) && M.WorkConserving(s.p)
  }

  // ----- counting

  function Count(b: bool): nat {
    if b then 1 else 0
  }

  lemma CallAdded(calls: multiset<M.Call>, c: M.Call, q: Request)
    requires c.retry <= 3
    ensures CallsFor(calls + multiset{c}, q) == CallsFor(calls, q) + Count(c.request == q)
  {
  }

  lemma CallDropped(calls: multiset<M.Call>, c: M.Call, q: Request)
    requires c in calls && c.retry <= 3
    ensures CallsFor(calls - multiset{c}, q) == CallsFor(calls, q) - Count(c.request == q)
  {
    assert calls - multiset{c} + multiset{c} == calls;
    CallAdded(calls - multiset{c}, c, q);
  }

  lemma ActAtAdded(acts: multiset<Act>, a: Act, q: Request, k: nat)
    ensures (acts + multiset{a})[Releasing(q, k)] == acts[Releasing(q, k)] + Count(a == Releasing(q, k))
    ensures (acts + multiset{a})[Resending(q, k)] == acts[Resending(q, k)] + Count(a == Resending(q, k))
  {
  }

  lemma ActAdded(acts: multiset<Act>, a: Act, q: Request)
    requires Numbered(a)
    ensures HoldersFor(acts + multiset{a}, q) == HoldersFor(acts, q) + Count(!a.Acquiring? && a.request == q)
    ensures (acts + multiset{a})[Acquiring(q)] == acts[Acquiring(q)] + Count(a == Acquiring(q))
  {
    ActAtAdded(acts, a, q, 0);
    ActAtAdded(acts, a, q, 1);
    ActAtAdded(acts, a, q, 2);
    ActAtAdded(acts, a, q, 3);
    ActAtAdded(acts, a, q, 4);
  }

  lemma ActDropped(acts: multiset<Act>, a: Act, q: Request)
    requires a in acts && Numbered(a)
    ensures HoldersFor(acts - multiset{a}, q) == HoldersFor(acts, q) - Count(!a.Acquiring? && a.request == q)
    ensures (acts - multiset{a})[Acquiring(q)] == acts[Acquiring(q)] - Count(a == Acquiring(q))
  {
    assert acts - multiset{a} + multiset{a} == acts;
    ActAdded(acts - multiset{a}, a, q);
  }

  lemma CallCounts(calls: multiset<M.Call>, c: M.Call)
    requires c in calls && c.retry <= 3
    ensures CallsFor(calls, c.request) >= calls[c] >= 1
  {
  }

  lemma ActCounts(acts: multiset<Act>, a: Act)
    requires a in acts && !a.Acquiring? && Numbered(a)
    ensures HoldersFor(acts, a.request) >= acts[a] >= 1
  {
  }

  lemma SomeCall(calls: multiset<M.Call>, q: Request) returns (c: M.Call)
    requires CallsFor(calls, q) > 0
    ensures c in calls && c.request == q
  {
    var k: nat :| k <= 3 && CallsAt(calls, q, k) > 0;
    c := if calls[M.Sending(q, k)] > 0 then M.Sending(q, k) else M.Waiting(q, k);
  }

  lemma SomeHolder(acts: multiset<Act>, q: Request) returns (a: Act)
    requires HoldersFor(acts, q) > 0
    ensures a in acts && a.request == q && !a.Acquiring?
  {
    if acts[Running(q)] > 0 {
      a := Running(q);
    } else if acts[Lost(q)] > 0 {
      a := Lost(q);
    } else {
      var k: nat :| k <= 4 && ReleasesAt(acts, q, k) > 0;
      a := if acts[Releasing(q, k)] > 0 then Releasing(q, k) else Resending(q, k);
    }
  }

  // ----- the grant loop keeps it

  lemma PopKeeps(max: nat, s: World, d: M.Decision)
    requires Core(max, s) && s.p.queue != []
    ensures Core(max, s.(p := s.p.(queue := s.p.queue[1..], decisions := s.p.decisions + [d])))
    ensures Vacant(s.(p := s.p.(queue := s.p.queue[1..], decisions := s.p.decisions + [d])), s.p.queue[0])
  {
    hide CallsFor, HoldersFor, AttemptsBounded, SerialsOk;
    var t := s.(p := s.p.(queue := s.p.queue[1..], decisions := s.p.decisions + [d]));
    assert s.p.queue == [s.p.queue[0]] + t.p.queue;
    forall r ensures Fine(t, r) {
      assert Fine(s, r);
    }
    assert Fine(s, s.p.queue[0]);
  }

  /** A request that was made and is nowhere now. */
  ghost predicate Vacant(s: World, q: Request) {
    && q in s.serial && q !in s.p.leases
    && CallsFor(s.p.calls, q) + HoldersFor(s.acts, q) + s.acts[Acquiring(q)] + multiset(s.p.queue)[q] == 0
  }

  /** Leasing a request that has no other place, together with its first transmission. */
  lemma LeaseAndSendKeeps(max: nat, s: World, q: Request)
    requires Core(max, s) && s.p.tokens > 0 && Vacant(s, q) && q.worker !in s.exited
    ensures Core(max, s.(p := M.Lease(s.p, q).(calls := s.p.calls + multiset{M.Sending(q, 0)})))
  {
    hide CallsFor, HoldersFor, SerialsOk;
    var t := s.(p := M.Lease(s.p, q).(calls := s.p.calls + multiset{M.Sending(q, 0)}));
    forall r ensures Fine(t, r) {
      assert Fine(s, r);
      CallAdded(s.p.calls, M.Sending(q, 0), r);
    }
  }

  lemma GrantHeadKeeps(max: nat, s: World, env: M.Env)
    requires Core(max, s) && s.p.queue != [] && s.p.tokens > 0 && env.cluster.dead == s.dead
    ensures Core(max, s.(p := M.GrantHead(s.p, env)))
  {
    hide Fine, AttemptsBounded, SerialsOk;
    var q := s.p.queue[0];
    var d := M.Decision(q, env.cluster.Reachable(q.worker));
    var popped := s.(p := s.p.(queue := s.p.queue[1..], decisions := s.p.decisions + [d]));
    PopKeeps(max, s, d);
    if env.cluster.Reachable(q.worker) {
      if |popped.p.queue| in env.throwing {
        assert popped.p.leases + {q} - {q} == popped.p.leases;
        assert s.(p := M.GrantHead(s.p, env)) == popped;
      } else {
        LeaseAndSendKeeps(max, popped, q);
        assert s.(p := M.GrantHead(s.p, env))
            == popped.(p := M.Lease(popped.p, q).(calls := popped.p.calls + multiset{M.Sending(q, 0)}));
      }
    } else {
      assert s.(p := M.GrantHead(s.p, env)) == popped;
    }
  }

  lemma {:induction false} DrainKeeps(max: nat, s: World, env: M.Env)
    requires Core(max, s) && env.cluster.dead == s.dead
    ensures Inv(max, s.(p := M.Drain(s.p, env)))
    decreases |s.p.queue|
  {
    hide Fine, AttemptsBounded, SerialsOk;
    if s.p.queue != [] && s.p.tokens > 0 {
      GrantHeadKeeps(max, s, env);
      var t := s.(p := M.GrantHead(s.p, env));
      DrainKeeps(max, t, env);
      assert t.(p := M.Drain(t.p, env)) == s.(p := M.Drain(s.p, env));
    }
  }

  // ----- what is under way moves on

  /** Something outstanding is in one of the places that are counted. */
  lemma OutstandingCounts(max: nat, s: World, q: Request)
    requires Core(max, s) && q in s.serial
    ensures Outstanding(s, q) <==> q in s.pending || !Vacant(s, q)
  {
    hide CallsFor, HoldersFor, SerialsOk;
    if Outstanding(s, q) {
      if c :| c in s.p.calls && c.request == q {
        CallCounts(s.p.calls, c);
      }
      if a :| a in s.acts && a.request == q && !a.Acquiring? {
        ActCounts(s.acts, a);
      }
    } else if CallsFor(s.p.calls, q) > 0 {
      var c := SomeCall(s.p.calls, q);
    } else if HoldersFor(s.acts, q) > 0 {
      var a := SomeHolder(s.acts, q);
    }
  }

  lemma OutstandingIsMade(max: nat, s: World, q: Request)
    requires Core(max, s) && Outstanding(s, q)
    ensures q in s.serial
  {
    hide CallsFor, HoldersFor, SerialsOk;
    assert Fine(s, q);
    if c :| c in s.p.calls && c.request == q {
      CallCounts(s.p.calls, c);
    }
    if a :| a in s.acts && a.request == q {
      if !a.Acquiring? {
        ActCounts(s.acts, a);
      }
    }
  }

  /** The next id is in use nowhere exactly when no outstanding request of the worker lies a whole number
      of cycles back; so certainly if every outstanding request lies less than one cycle back. */
  lemma FreshExactly(max: nat, s: World, w: int)
    requires Core(max, s)
    ensures !Outstanding(s, NextRequest(s, w)) <==> Unlapped(s, w)
    ensures (forall q :: Outstanding(s, q) && q.worker == w ==> Age(s, q) < CYCLE) ==> Unlapped(s, w)
  {
    hide NthId, Outstanding, Fine, AttemptsBounded;
    forall q | Outstanding(s, q) && q.worker == w
      ensures 1 <= Age(s, q) && (q == NextRequest(s, w) <==> Age(s, q) % CYCLE == 0)
    {
      OutstandingIsMade(max, s, q);
      SameIdExactly(MIN_SMI, Issued(s, w) + 1, s.serial[q]);
    }
  }

  lemma IssueKeeps(max: nat, s: World, w: int)
    requires Core(max, s) && w in s.known
    ensures Core(max, Issue(s, w))
    ensures Outstanding(Issue(s, w), NextRequest(s, w)) == Outstanding(s, NextRequest(s, w))
  {
    hide NthId, CallsFor, HoldersFor, AttemptsBounded;
    forall r ensures Fine(Issue(s, w), r) {
      assert Fine(s, r);
    }
  }

  lemma SendAcquireKeeps(max: nat, s: World, q: Request)
    requires Core(max, s) && Vacant(s, q)
    ensures Core(max, s.(acts := s.acts + multiset{Acquiring(q)}))
  {
    hide CallsFor, HoldersFor, SerialsOk;
    var t := s.(acts := s.acts + multiset{Acquiring(q)});
    forall r ensures Fine(t, r) {
      assert Fine(s, r);
      ActAdded(s.acts, Acquiring(q), r);
    }
  }

  lemma AskKeeps(max: nat, s: World, w: int, channel: H.Channel)
    requires Inv(max, s) && w in s.alive && Unlapped(s, w)
    ensures Inv(max, Ask(s, w, channel))
  {
    hide NthId, Outstanding, Unlapped, Fine, AttemptsBounded, SerialsOk;
    var q, s1 := NextRequest(s, w), Issue(s, w);
    FreshExactly(max, s, w);
    IssueKeeps(max, s, w);
    OutstandingCounts(max, s1, q);
    if channel.Throws? {
      PendingKeeps(max, s1, s.pending + {q});
    } else if channel.Accepts? {
      SendAcquireKeeps(max, s1, q);
      PendingKeeps(max, s1.(acts := s.acts + multiset{Acquiring(q)}), s.pending + {q});
    }
  }

  /** An ACQUIRE that is no longer under way. */
  lemma AcquireGoneKeeps(max: nat, s: World, q: Request)
    requires Core(max, s) && Acquiring(q) in s.acts
    ensures Core(max, s.(acts := s.acts - multiset{Acquiring(q)}))
    ensures Vacant(s.(acts := s.acts - multiset{Acquiring(q)}), q)
  {
    hide CallsFor, HoldersFor, SerialsOk;
    var t := s.(acts := s.acts - multiset{Acquiring(q)});
    forall r ensures Fine(t, r) {
      assert Fine(s, r);
      ActDropped(s.acts, Acquiring(q), r);
    }
    assert Fine(s, q);
    ActDropped(s.acts, Acquiring(q), q);
  }

  lemma EnqueueKeeps(max: nat, s: World, q: Request)
    requires Core(max, s) && Vacant(s, q)
    ensures Core(max, s.(p := s.p.(queue := s.p.queue + [q], arrived := s.p.arrived + [q])))
  {
    hide CallsFor, HoldersFor, AttemptsBounded, SerialsOk;
    var t := s.(p := s.p.(queue := s.p.queue + [q], arrived := s.p.arrived + [q]));
    forall r ensures Fine(t, r) {
      assert Fine(s, r);
    }
  }

  /** A holder becomes another holder of the same request. */
  lemma ReplaceKeeps(max: nat, s: World, a: Act, b: Act)
    requires Core(max, s) && a in s.acts && !a.Acquiring? && !b.Acquiring? && a.request == b.request && Numbered(b)
    ensures Core(max, s.(acts := Replace(s.acts, a, b)))
  {
    hide CallsFor, HoldersFor, SerialsOk;
    var t := s.(acts := Replace(s.acts, a, b));
    forall r ensures Fine(t, r) {
      assert Fine(s, r);
      ActDropped(s.acts, a, r);
      ActAdded(s.acts - multiset{a}, b, r);
    }
  }

  /** The grant reaches its worker: the call's place is taken by the caller, or by a release. */
  lemma GrantArrivesKeeps(max: nat, s: World, c: M.Call, b: Act)
    requires Core(max, s) && c in s.p.calls && b.request == c.request && !b.Acquiring? && Numbered(b)
    ensures Core(max, s.(p := s.p.(calls := s.p.calls - multiset{c}), acts := s.acts + multiset{b}))
  {
    hide CallsFor, HoldersFor, SerialsOk;
    var t := s.(p := s.p.(calls := s.p.calls - multiset{c}), acts := s.acts + multiset{b});
    forall r ensures Fine(t, r) {
      assert Fine(s, r);
      CallDropped(s.p.calls, c, r);
      ActAdded(s.acts, b, r);
    }
  }

  /** A call becomes another call for the same request. */
  lemma RecallKeeps(max: nat, s: World, c: M.Call, d: M.Call)
    requires Core(max, s) && c in s.p.calls && c.request == d.request && Counted(d)
    ensures Core(max, s.(p := s.p.(calls := s.p.calls - multiset{c} + multiset{d})))
  {
    hide CallsFor, HoldersFor, SerialsOk;
    var t := s.(p := s.p.(calls := s.p.calls - multiset{c} + multiset{d}));
    forall r ensures Fine(t, r) {
      assert Fine(s, r);
      CallDropped(s.p.calls, c, r);
      CallAdded(s.p.calls - multiset{c}, d, r);
    }
  }

  /** A transmission given up together with its lease. */
  lemma CallAndLeaseGoneKeeps(max: nat, s: World, c: M.Call)
    requires Core(max, s) && c in s.p.calls
    ensures Core(max, s.(p := M.Release(s.p.(calls := s.p.calls - multiset{c}), c.request)))
  {
    hide CallsFor, HoldersFor, SerialsOk;
    var p := s.p.(calls := s.p.calls - multiset{c});
    var t := s.(p := M.Release(p, c.request));
    M.ReleaseTotal(p, c.request);
    forall r ensures Fine(t, r) {
      assert Fine(s, r);
      CallDropped(s.p.calls, c, r);
    }
  }

  /** A transmission to a worker that is gone. */
  lemma CallGoneKeeps(max: nat, s: World, c: M.Call)
    requires Core(max, s) && c in s.p.calls && c.request.worker !in s.alive
    ensures Core(max, s.(p := s.p.(calls := s.p.calls - multiset{c})))
  {
    hide CallsFor, HoldersFor, SerialsOk;
    var t := s.(p := s.p.(calls := s.p.calls - multiset{c}));
    forall r ensures Fine(t, r) {
      assert Fine(s, r);
      CallDropped(s.p.calls, c, r);
    }
  }

  /** A release message read by the primary: its lease, if still held, goes with it. */
  lemma ReleaseReadKeeps(max: nat, s: World, a: Act)
    requires Core(max, s) && a in s.acts && !a.Acquiring?
    ensures Core(max, s.(acts := s.acts - multiset{a}, p := M.Release(s.p, a.request)))
  {
    hide CallsFor, HoldersFor, SerialsOk;
    var t := s.(acts := s.acts - multiset{a}, p := M.Release(s.p, a.request));
    M.ReleaseTotal(s.p, a.request);
    forall r ensures Fine(t, r) {
      assert Fine(s, r);
      ActDropped(s.acts, a, r);
    }
  }

  /** All leases of a dead worker are taken back. */
  lemma ReclaimKeeps(max: nat, s: World, w: int, exited: set<int>)
    requires Core(max, s) && w in s.dead && s.exited <= exited <= s.exited + {w}
    ensures Core(max, s.(p := M.Reclaim(s.p, w), exited := exited))
  {
    hide CallsFor, HoldersFor, AttemptsBounded, SerialsOk;
    var t := s.(p := M.Reclaim(s.p, w), exited := exited);
    M.ReclaimTotal(s.p, w);
    forall r ensures Fine(t, r) {
      assert Fine(s, r);
    }
  }

  /** A transmission that ends for good: its lease is released, or its dead worker's are reclaimed. */
  lemma GiveUpKeeps(max: nat, s: World, c: M.Call, env: M.Env)
    requires Inv(max, s) && c in s.p.calls && env.cluster.dead == s.dead
    ensures var p := s.p.(calls := s.p.calls - multiset{c});
      && (c.request.worker in s.dead ==> Inv(max, s.(p := M.HandleExit(p, c.request.worker, env))))
      && (c.request.worker !in s.dead ==> Inv(max, s.(p := M.HandleRelease(p, c.request, env))))
  {
    hide Fine, AttemptsBounded, SerialsOk;
    var p := s.p.(calls := s.p.calls - multiset{c});
    if c.request.worker in s.dead {
      CallGoneKeeps(max, s, c);
      ReclaimKeeps(max, s.(p := p), c.request.worker, s.exited);
      DrainKeeps(max, s.(p := M.Reclaim(p, c.request.worker)), env);
    } else if c.request in p.leases {
      CallAndLeaseGoneKeeps(max, s, c);
      DrainKeeps(max, s.(p := M.Release(p, c.request)), env);
    } else {
      CallAndLeaseGoneKeeps(max, s, c);
      assert M.Release(p, c.request) == p;
    }
  }

  // ----- every event keeps it

  lemma PopulationKeeps(max: nat, s: World, e: Event)
    requires Inv(max, s) && Enabled(s, e) && (e.Spawn? || e.Die? || e.Dead?)
    ensures Inv(max, Step(s, e))
  {
    hide CallsFor, HoldersFor, AttemptsBounded, NthId;
    var t := Step(s, e);
    forall r ensures Fine(t, r) {
      assert Fine(s, r);
    }
  }

  /** The invariant does not depend on which requests are pending. */
  lemma PendingKeeps(max: nat, s: World, pending: set<Request>)
    requires Inv(max, s) && pending <= s.serial.Keys
    ensures Inv(max, s.(pending := pending))
  {
    hide CallsFor, HoldersFor, AttemptsBounded, SerialsOk;
    forall r ensures Fine(s.(pending := pending), r) {
      assert Fine(s, r);
    }
  }

  /** Events at the worker's end of an ACQUIRE. */
  lemma AcquireSideKeeps(max: nat, s: World, e: Event)
    requires Inv(max, s) && Enabled(s, e)
    requires e.Acquire? || e.AcquireError? || e.Timeout?
    ensures Inv(max, Step(s, e))
  {
    hide Fine, AttemptsBounded, SerialsOk;
    if e.Acquire? {
      AskKeeps(max, s, e.worker, e.channel);
    } else if e.AcquireError? {
      AcquireGoneKeeps(max, s, e.request);
      PendingKeeps(max, s.(acts := s.acts - multiset{Acquiring(e.request)}), s.pending - {e.request});
    } else {
      PendingKeeps(max, s, s.pending - {e.request});
    }
  }

  lemma GrantArrivesStep(max: nat, s: World, q: Request, k: nat, channel: H.Channel)
    requires Inv(max, s) && Enabled(s, GrantArrives(q, k, channel))
    ensures Inv(max, Step(s, GrantArrives(q, k, channel)))
  {
    hide Fine, AttemptsBounded, SerialsOk;
    var b := Reacting(q, OnGrant(H.Semaphore, q in s.pending), channel);
    GrantArrivesKeeps(max, s, M.Sending(q, k), b);
    PendingKeeps(max, s.(p := M.SendOk(s.p, q, k), acts := s.acts + multiset{b}), s.pending - {q});
  }

  lemma GrantErrorKeeps(max: nat, s: World, q: Request, k: nat, env: M.Env)
    requires Inv(max, s) && Enabled(s, GrantError(q, k, env))
    ensures Inv(max, Step(s, GrantError(q, k, env)))
  {
    hide Fine, AttemptsBounded, SerialsOk;
    if q.worker in s.dead || k >= 3 {
      GiveUpKeeps(max, s, M.Sending(q, k), env);
    } else {
      RecallKeeps(max, s, M.Sending(q, k), M.Waiting(q, k + 1));
    }
  }

  lemma GrantTimerKeeps(max: nat, s: World, q: Request, k: nat, throws: bool, env: M.Env)
    requires Inv(max, s) && Enabled(s, GrantTimer(q, k, throws, env))
    ensures Inv(max, Step(s, GrantTimer(q, k, throws, env)))
  {
    hide Fine, SerialsOk;
    if throws {
      GiveUpKeeps(max, s, M.Waiting(q, k), env);
    } else {
      RecallKeeps(max, s, M.Waiting(q, k), M.Sending(q, k));
    }
  }

  /** Events in which a caller or release attempt of a live worker moves on. */
  lemma ReleaseSideKeeps(max: nat, s: World, e: Event)
    requires Inv(max, s) && Enabled(s, e)
    requires e.Settle? || e.ReleaseError? || e.ReleaseTimer?
    ensures Inv(max, Step(s, e))
  {
    hide Fine, SerialsOk;
    match e
    case Settle(q, channel) => ReplaceKeeps(max, s, Running(q), ReleaseAttempt(q, 0, channel));
    case ReleaseError(q, k) =>
      ReplaceKeeps(max, s, Releasing(q, k), Resent(q, OnReleaseError(k)));
    case ReleaseTimer(q, k, channel) => ReplaceKeeps(max, s, Resending(q, k), ReleaseAttempt(q, k, channel));
  }

  lemma ExitKeeps(max: nat, s: World, w: int, env: M.Env)
    requires Inv(max, s) && Enabled(s, Exit(w, env))
    ensures Inv(max, Step(s, Exit(w, env)))
  {
    hide Fine, AttemptsBounded, SerialsOk;
    ReclaimKeeps(max, s, w, s.exited + {w});
    DrainKeeps(max, s.(p := M.Reclaim(s.p, w), exited := s.exited + {w}), env);
  }

  lemma AcquireArrivesKeeps(max: nat, s: World, q: Request, env: M.Env)
    requires Inv(max, s) && Acquiring(q) in s.acts && env.cluster.dead == s.dead
    ensures Inv(max, Step(s, AcquireArrives(q, env)))
  {
    hide CallsFor, HoldersFor, AttemptsBounded, NthId;
    var s1 := s.(acts := s.acts - multiset{Acquiring(q)});
    AcquireGoneKeeps(max, s, q);
    IdsFitTheQueue(MIN_SMI, s.serial[q]);
    assert Stored(q) == q;
    EnqueueKeeps(max, s1, q);
    var s2 := s1.(p := s.p.(queue := s.p.queue + [q], arrived := s.p.arrived + [q]));
    DrainKeeps(max, s2, env);
    assert Step(s, AcquireArrives(q, env)) == s2.(p := M.Drain(s2.p, env));
  }

  lemma ReleaseArrivesKeeps(max: nat, s: World, q: Request, k: nat, env: M.Env)
    requires Inv(max, s) && Releasing(q, k) in s.acts && env.cluster.dead == s.dead
    ensures Inv(max, Step(s, ReleaseArrives(q, k, env)))
  {
    hide Fine, AttemptsBounded, SerialsOk;
    ReleaseReadKeeps(max, s, Releasing(q, k));
    var s1 := s.(acts := s.acts - multiset{Releasing(q, k)}, p := M.Release(s.p, q));
    if q in s.p.leases {
      DrainKeeps(max, s1, env);
      assert Step(s, ReleaseArrives(q, k, env)) == s1.(p := M.Drain(s1.p, env));
    } else {
      assert Step(s, ReleaseArrives(q, k, env)) == s1;
    }
  }

  lemma MessageKeeps(max: nat, s: World, e: Event)
    requires Inv(max, s) && Enabled(s, e)
    requires e.AcquireArrives? || e.GrantArrives? || e.GrantError? || e.GrantVanishes? || e.GrantTimer?
          || e.ReleaseArrives? || e.Exit?
    ensures Inv(max, Step(s, e))
  {
    hide Fine, AttemptsBounded, SerialsOk;
    match e
    case AcquireArrives(q, env) => AcquireArrivesKeeps(max, s, q, env);
    case GrantArrives(q, k, channel) => GrantArrivesStep(max, s, q, k, channel);
    case GrantError(q, k, env) => GrantErrorKeeps(max, s, q, k, env);
    case GrantVanishes(q, k) => CallGoneKeeps(max, s, M.Sending(q, k));
    case GrantTimer(q, k, throws, env) => GrantTimerKeeps(max, s, q, k, throws, env);
    case ReleaseArrives(q, k, env) => ReleaseArrivesKeeps(max, s, q, k, env);
    case Exit(w, env) => ExitKeeps(max, s, w, env);
  }

  lemma StepKeeps(max: nat, s: World, e: Event)
    requires Inv(max, s) && Enabled(s, e)
    ensures Inv(max, Step(s, e))
  {
    hide Core, M.WorkConserving;
    if e.Spawn? || e.Die? || e.Dead? {
      PopulationKeeps(max, s, e);
    } else if e.Acquire? || e.AcquireError? || e.Timeout? {
      AcquireSideKeeps(max, s, e);
    } else if e.Settle? || e.ReleaseError? || e.ReleaseTimer? {
      ReleaseSideKeeps(max, s, e);
    } else {
      MessageKeeps(max, s, e);
    }
  }

  lemma {:induction false} RunKeeps(max: nat, s: World, events: seq<Event>, t: World)
    requires Inv(max, s) && Reaches(s, events, t)
    ensures Inv(max, t)
    decreases |events|
  {
    if events != [] {
      StepKeeps(max, s, events[0]);
      RunKeeps(max, Step(s, events[0]), events[1..], t);
    }
  }

  // ----- what the system guarantees

  ghost predicate Reachable(max: nat, t: World) {
    exists events :: Reaches(Init(max), events, t)
  }

  lemma ReachableInv(max: nat, t: World)
    requires Reachable(max, t)
    ensures Inv(max, t)
  {
    var events :| Reaches(Init(max), events, t);
    RunKeeps(max, Init(max), events, t);
  }

  /** The callers that execute now. */
  function Executing(s: World): set<Request> {
    set a | a in s.acts && a.Running? && a.request.worker in s.alive :: a.request
  }

  lemma {:induction false} SubsetCount<T>(a: set<T>, b: set<T>)
    requires a <= b
    ensures |a| <= |b|
  {
    assert b == a + (b - a);
    assert |b| == |a| + |b - a|;
  }

  /** End-to-end safety: whatever times out, fails, is retried or crashes, the callers executing on live
      workers number at most `max`, since each of them holds a lease of its own at the primary. */
  lemma AtMostMaxExecuting(max: nat, t: World)
    requires Reachable(max, t)
    ensures |Executing(t)| <= |t.p.leases| <= max
    ensures forall q :: q in Executing(t) ==> t.acts[Running(q)] == 1 && q in t.p.leases
  {
    hide HoldersFor, CallsFor;
    ReachableInv(max, t);
    forall q | q in Executing(t) ensures t.acts[Running(q)] == 1 && q in t.p.leases {
      assert Fine(t, q);
      ActCounts(t.acts, Running(q));
    }
    SubsetCount(Executing(t), t.p.leases);
  }

  /** What accounts for one lease. */
  ghost predicate GrantUnderWay(s: World, q: Request) { exists c :: c in s.p.calls && c.request == q }
  ghost predicate CallerRuns(s: World, q: Request) { Running(q) in s.acts }
  ghost predicate ReleaseUnderWay(s: World, q: Request) {
    exists a :: a in s.acts && (a.Releasing? || a.Resending?) && a.request == q
  }
  ghost predicate ReleaseLost(s: World, q: Request) { Lost(q) in s.acts }

  lemma GrantIsCounted(max: nat, s: World, q: Request)
    requires Core(max, s)
    ensures GrantUnderWay(s, q) <==> CallsFor(s.p.calls, q) > 0
  {
    hide CallsFor;
    if c :| c in s.p.calls && c.request == q {
      CallCounts(s.p.calls, c);
    } else if CallsFor(s.p.calls, q) > 0 {
      var c := SomeCall(s.p.calls, q);
    }
  }

  lemma ReleaseIsCounted(max: nat, s: World, q: Request)
    requires Core(max, s)
    ensures ReleaseUnderWay(s, q) <==> ReleasesFor(s.acts, q) > 0
  {
    if ReleasesFor(s.acts, q) > 0 {
      var k: nat :| k <= 4 && ReleasesAt(s.acts, q, k) > 0;
      assert Releasing(q, k) in s.acts || Resending(q, k) in s.acts;
    }
  }

  /** No token leaks: tokens and leases always add up to the limit, and the lease of a live worker is
      accounted for by exactly one of a grant under way, a running caller, a release under way, or a
      release reported as failed. */
  lemma EveryLeaseAccountedFor(max: nat, t: World, q: Request)
    requires Reachable(max, t) && q in t.p.leases
    ensures t.p.tokens + |t.p.leases| == max
    ensures q.worker in t.alive ==>
      Count(GrantUnderWay(t, q)) + Count(CallerRuns(t, q)) + Count(ReleaseUnderWay(t, q)) + Count(ReleaseLost(t, q))
      == 1
    ensures q.worker !in t.alive ==> q.worker in t.known - t.exited
  {
    hide CallsFor, ReleasesFor, GrantUnderWay, ReleaseUnderWay, AttemptsBounded;
    ReachableInv(max, t);
    assert Fine(t, q);
    GrantIsCounted(max, t, q);
    ReleaseIsCounted(max, t, q);
  }

  /** Nothing is under way on a live worker any more, and every death is known to the limiter. */
  ghost predicate Settled(s: World) {
    && (forall c :: c in s.p.calls ==> c.request.worker !in s.alive)
    && (forall a :: a in s.acts && !a.Lost? ==> a.request.worker !in s.alive)
    && s.known - s.alive <= s.exited
  }

  /** The requests whose release a live worker has reported as failed for good. */
  function LostRequests(s: World): set<Request> {
    set a | a in s.acts && a.Lost? && a.request.worker in s.alive :: a.request
  }

  lemma LeaseIsLost(max: nat, t: World, q: Request)
    requires Inv(max, t) && Settled(t) && q in t.p.leases
    ensures q in LostRequests(t)
  {
    hide CallsFor, HoldersFor;
    assert Fine(t, q);
    assert q.worker in t.alive;
    if CallsFor(t.p.calls, q) > 0 {
      var c := SomeCall(t.p.calls, q);
    } else {
      var a := SomeHolder(t.acts, q);
    }
  }

  /** Once everything has settled, exactly the lost releases are missing: all tokens are back, including
      those of requests that had timed out before their grant arrived, if and only if no live worker has
      lost a release; and somebody can wait only if every token is lost. */
  lemma SettledMissesExactlyTheLost(max: nat, t: World)
    requires Reachable(max, t) && Settled(t)
    ensures t.p.leases == LostRequests(t) && t.p.tokens == max - |LostRequests(t)|
    ensures t.p.tokens == max <==> LostRequests(t) == {}
    ensures t.p.queue != [] ==> |LostRequests(t)| == max
  {
    ReachableInv(max, t);
    forall q | q in t.p.leases ensures q in LostRequests(t) {
      LeaseIsLost(max, t, q);
    }
    forall q | q in LostRequests(t) ensures q in t.p.leases {
      assert Fine(t, q);
      ActCounts(t.acts, Lost(q));
    }
  }

  /** At most four attempts per grant and five per release, in every reachable state. */
  lemma AttemptsAreBounded(max: nat, t: World)
    requires Reachable(max, t)
    ensures forall c :: c in t.p.calls ==> c.retry < 4
    ensures forall a :: a in t.acts && (a.Releasing? || a.Resending?) ==> a.retry < 5
  {
    ReachableInv(max, t);
  }

  /** The act a step adds, if it adds one. */
  function Added(s: World, e: Event): Option<Act> {
    match e
    case Acquire(w, channel) => if channel.Accepts? then Some(Acquiring(NextRequest(s, w))) else None
    case GrantArrives(q, k, channel) => Some(Reacting(q, OnGrant(H.Semaphore, q in s.pending), channel))
    case Settle(q, channel) => Some(ReleaseAttempt(q, 0, channel))
    case ReleaseError(q, k) => Some(Resent(q, OnReleaseError(k)))
    case ReleaseTimer(q, k, channel) => Some(ReleaseAttempt(q, k, channel))
    case _ => None
  }

  lemma InReplace(acts: multiset<Act>, a: Act, b: Act, x: Act)
    requires x in Replace(acts, a, b)
    ensures x in acts || x == b
  {
  }

  lemma ActsComeFrom(s: World, e: Event, a: Act)
    requires a in Step(s, e).acts
    ensures a in s.acts || Added(s, e) == Some(a)
  {
    hide M.HandleAcquire, M.HandleRelease, M.HandleExit, M.SendError, M.SendOk, M.RetryTimer;
    hide Reacting, ReleaseAttempt, Resent, NextRequest, OnGrant, OnReleaseError, NthId, Replace;
    match e
    case Acquire(_, _) =>
    case GrantArrives(_, _, _) =>
    case Settle(q, channel) => InReplace(s.acts, Running(q), ReleaseAttempt(q, 0, channel), a);
    case ReleaseError(q, k) => InReplace(s.acts, Releasing(q, k), Resent(q, OnReleaseError(k)), a);
    case ReleaseTimer(q, k, channel) => InReplace(s.acts, Resending(q, k), ReleaseAttempt(q, k, channel), a);
    case AcquireArrives(_, _) =>
    case AcquireError(_) =>
    case ReleaseArrives(_, _, _) =>
    case _ => assert Step(s, e).acts == s.acts;
  }

  /** Only a grant for a pending request starts a caller. */
  lemma CallerIsAdded(s: World, e: Event, q: Request)
    requires Added(s, e) == Some(Running(q))
    ensures q in s.pending
  {
  }

  /** The request an event takes off its worker's pending map. */
  function Forgotten(e: Event): Option<Request> {
    match e
    case AcquireError(q) => Some(q)
    case Timeout(q) => Some(q)
    case GrantArrives(q, _, _) => Some(q)
    case _ => None
  }

  function Without(pending: set<Request>, q: Option<Request>): set<Request> {
    if q.None? then pending else pending - {q.value}
  }

  /** The workers' own books are the same in both worlds, but for one request no longer pending. */
  ghost predicate SameBooks(s: World, t: World, gone: Option<Request>) {
    t.issued == s.issued && t.serial == s.serial
    && t.pending == if gone.None? then s.pending else s.pending - {gone.value}
  }

  lemma PrimaryEvents(s: World, e: Event)
    requires e.AcquireArrives? || e.GrantError? || e.GrantVanishes? || e.GrantTimer? || e.ReleaseArrives? || e.Exit?
    ensures SameBooks(s, Step(s, e), None)
  {
    hide M.HandleAcquire, M.HandleRelease, M.HandleExit, M.SendError, M.SendOk, M.RetryTimer;
  }

  lemma WorkerEvents(s: World, e: Event)
    requires e.AcquireError? || e.Timeout? || e.GrantArrives? || e.Settle? || e.ReleaseError? || e.ReleaseTimer?
    ensures SameBooks(s, Step(s, e), Forgotten(e))
  {
    hide M.SendOk, Replace, Reacting, ReleaseAttempt, Resent;
  }

  lemma PopulationEvents(s: World, e: Event)
    requires e.Spawn? || e.Die? || e.Dead?
    ensures SameBooks(s, Step(s, e), None)
  {
  }

  /** Only a call of `run` adds to the workers' own books. */
  lemma OtherEvents(s: World, e: Event)
    requires !e.Acquire?
    ensures SameBooks(s, Step(s, e), Forgotten(e))
  {
    hide SameBooks, Step;
    if e.Spawn? || e.Die? || e.Dead? {
      PopulationEvents(s, e);
    } else if e.AcquireError? || e.Timeout? || e.GrantArrives? || e.Settle? || e.ReleaseError? || e.ReleaseTimer? {
      WorkerEvents(s, e);
    } else {
      PrimaryEvents(s, e);
    }
  }

  /** A request that waits or runs was made after the first `n` of its worker. */
  ghost predicate StartsAfter(s: World, q: Request, n: nat) {
    && Issued(s, q.worker) >= n
    && (q in s.pending || Running(q) in s.acts ==> q in s.serial && s.serial[q] > n)
  }

  lemma AskStartsLater(s: World, w: int, channel: H.Channel, q: Request, n: nat)
    requires StartsAfter(s, q, n)
    ensures StartsAfter(Ask(s, w, channel), q, n)
  {
    hide NthId;
    var t := Ask(s, w, channel);
    assert Running(q) in t.acts ==> Running(q) in s.acts;
    assert q in t.pending ==> q in s.pending || q == NextRequest(s, w);
  }

  /** A step starts the caller of a request only if the request was pending. */
  lemma OnlyPendingStarts(s: World, e: Event, q: Request, n: nat)
    requires StartsAfter(s, q, n)
    ensures StartsAfter(Step(s, e), q, n)
  {
    if e.Acquire? {
      hide Ask, StartsAfter;
      AskStartsLater(s, e.worker, e.channel, q, n);
    } else {
      hide Step, Added;
      OtherEvents(s, e);
      if Running(q) in Step(s, e).acts {
        ActsComeFrom(s, e, Running(q));
        if Added(s, e) == Some(Running(q)) {
          CallerIsAdded(s, e, q);
        }
      }
    }
  }

  lemma {:induction false} StartsAfterKept(s: World, events: seq<Event>, t: World, q: Request, n: nat)
    requires Reaches(s, events, t) && StartsAfter(s, q, n)
    ensures StartsAfter(t, q, n)
    decreases |events|
  {
    if events != [] {
      OnlyPendingStarts(s, events[0], q, n);
      StartsAfterKept(Step(s, events[0]), events[1..], t, q, n);
    }
  }

  /** A request that has timed out, or was never sent, never runs: whatever happens later, and however late
      a grant for it arrives, a caller that runs under its id belongs to a later request of the worker. */
  lemma TimedOutNeverRuns(s: World, events: seq<Event>, t: World, q: Request)
    requires Reaches(s, events, t) && q !in s.pending && Running(q) !in s.acts
    ensures Running(q) in t.acts ==> q in t.serial && t.serial[q] > Issued(s, q.worker)
  {
    StartsAfterKept(s, events, t, q, Issued(s, q.worker));
  }

  lemma {:induction false} ReachesAppend(s: World, events: seq<Event>, t: World, e: Event)
    requires Reaches(s, events, t) && Enabled(t, e)
    ensures Reaches(s, events + [e], Step(t, e))
    decreases |events|
  {
    hide Enabled, Step;
    if events == [] {
      assert [] + [e] == [e] && [e][1..] == [];
      assert Reaches(Step(t, e), [], Step(t, e));
    } else {
      assert (events + [e])[1..] == events[1..] + [e];
      ReachesAppend(Step(s, events[0]), events[1..], t, e);
    }
  }

  lemma StaysReachable(max: nat, s: World, e: Event)
    requires Reachable(max, s) && Enabled(s, e)
    ensures Reachable(max, Step(s, e))
  {
    hide Enabled, Step;
    var events :| Reaches(Init(max), events, s);
    ReachesAppend(Init(max), events, s, e);
  }

  lemma {:induction false} DrainLeasesQueued(p: M.State, env: M.Env)
    ensures forall q :: q in M.Drain(p, env).leases ==> q in p.leases || q in p.queue
    decreases |p.queue|
  {
    if p.queue != [] && p.tokens > 0 {
      DrainLeasesQueued(M.GrantHead(p, env), env);
    }
  }

  /** What a grant does when it arrives: it starts the caller exactly if the request still waits for it;
      otherwise the worker gives it back, or reports that it cannot. Either way the lease stays till then. */
  lemma GrantIsAnswered(max: nat, s: World, q: Request, k: nat, channel: H.Channel)
    requires Reachable(max, s) && M.Sending(q, k) in s.p.calls && q.worker in s.alive
    ensures var e := GrantArrives(q, k, channel);
      var t := Step(s, e);
      && Enabled(s, e) && Reachable(max, t) && q in s.p.leases && t.p == M.SendOk(s.p, q, k)
      && t.dead == s.dead && t.alive == s.alive
      && (Running(q) in t.acts <==> q in s.pending)
      && (q !in s.pending ==>
            t.acts == s.acts + multiset{if channel.Accepts? then Releasing(q, 0) else Lost(q)})
  {
    hide CallsFor, HoldersFor, Reachable, SerialsOk;
    ReachableInv(max, s);
    StaysReachable(max, s, GrantArrives(q, k, channel));
    assert Fine(s, q);
    CallCounts(s.p.calls, M.Sending(q, k));
    if Running(q) in s.acts {
      ActCounts(s.acts, Running(q));
    }
  }

  /** A release of a leased request is read. */
  lemma ReleaseIsRead(max: nat, s: World, q: Request, k: nat, env: M.Env)
    requires Reachable(max, s) && Releasing(q, k) in s.acts && q in s.p.leases && env.cluster.dead == s.dead
    ensures var e := ReleaseArrives(q, k, env);
      var t := Step(s, e);
      && Enabled(s, e) && Reachable(max, t) && q !in t.p.leases
      && t.p == M.Drain(M.Release(s.p, q), env)
      && (s.p.queue == [] ==> t.p.tokens == s.p.tokens + 1)
  {
    hide CallsFor, HoldersFor, Reachable, SerialsOk;
    ReachableInv(max, s);
    StaysReachable(max, s, ReleaseArrives(q, k, env));
    assert Fine(s, q);
    ActCounts(s.acts, Releasing(q, k));
    DrainLeasesQueued(M.Release(s.p, q), env);
  }

  /** Every orphaned grant gives its token back: in any reachable state, a grant under way to a live worker
      that no longer waits for it can arrive, runs no caller but is answered with a release, and when that
      is read the lease is gone and its token free, unless a waiting request takes it. */
  lemma OrphanedTokenReturns(max: nat, s: World, q: Request, k: nat, env: M.Env) returns (s1: World, t: World)
    requires Reachable(max, s) && M.Sending(q, k) in s.p.calls && q !in s.pending && q.worker in s.alive
    requires env.cluster.dead == s.dead
    ensures Enabled(s, GrantArrives(q, k, H.Accepts)) && s1 == Step(s, GrantArrives(q, k, H.Accepts))
    ensures q in s.p.leases && q in s1.p.leases && Running(q) !in s1.acts
    ensures Enabled(s1, ReleaseArrives(q, 0, env)) && t == Step(s1, ReleaseArrives(q, 0, env))
    ensures Reachable(max, t) && q !in t.p.leases
    ensures t.p.tokens + |t.p.leases| == max && M.WorkConserving(t.p)
    ensures s.p.queue == [] ==> t.p.tokens == s.p.tokens + 1
  {
    hide Step, Enabled, Reachable;
    GrantIsAnswered(max, s, q, k, H.Accepts);
    s1 := Step(s, GrantArrives(q, k, H.Accepts));
    assert Releasing(q, 0) in s1.acts;
    ReleaseIsRead(max, s1, q, 0, env);
    t := Step(s1, ReleaseArrives(q, 0, env));
    ReachableInv(max, t);
  }

  // ----- the workers' side of it

  /** A worker's next id is in use nowhere, in any reachable state, exactly when no outstanding request of
      the worker lies a whole number of cycles back; the generator alone guarantees it for 2^31 requests. */
  lemma NextIdIsFreshExactly(max: nat, t: World, w: int)
    requires Reachable(max, t)
    ensures !Outstanding(t, NextRequest(t, w)) <==> Unlapped(t, w)
    ensures (forall q :: Outstanding(t, q) && q.worker == w ==> Age(t, q) < CYCLE) ==> Unlapped(t, w)
    ensures Issued(t, w) < CYCLE ==> Unlapped(t, w)
  {
    hide NthId, Fine, AttemptsBounded, Outstanding;
    ReachableInv(max, t);
    FreshExactly(max, t, w);
    forall q | Outstanding(t, q) && q.worker == w
      ensures Age(t, q) <= Issued(t, w)
    {
      OutstandingIsMade(max, t, q);
    }
  }

  /** What the limiter object inside worker `w` holds of all this. */
  function PermitsOf(s: World, w: int): Permits {
    Permits(set q | q in s.pending && q.worker == w :: q.id, Issued(s, w))
  }

  /** What an event is for the limiter object inside worker `w`. */
  function SeenBy(e: Event, w: int): Option<PermitEvent> {
    match e
    case Acquire(v, channel) => if v == w then Some(PermitEvent.Ask(channel)) else None
    case AcquireError(q) => if q.worker == w then Some(Forget(q.id)) else None
    case Timeout(q) => if q.worker == w then Some(Forget(q.id)) else None
    case GrantArrives(q, _, _) => if q.worker == w then Some(Forget(q.id)) else None
    case _ => None
  }

  function WorkerView(s: World, e: Event, w: int): Permits {
    match SeenBy(e, w)
    case Some(f) => PermitStep(PermitsOf(s, w), f)
    case None => PermitsOf(s, w)
  }

  lemma PermitsAreOf(s: World, w: int, id: int)
    ensures id in PermitsOf(s, w).pending <==> Request(w, id) in s.pending
  {
  }

  lemma AskIsSeen(s: World, v: int, channel: H.Channel, w: int)
    ensures PermitsOf(Ask(s, v, channel), w) == WorkerView(s, Acquire(v, channel), w)
  {
    hide NthId;
    var t, e := Ask(s, v, channel), Acquire(v, channel);
    forall id ensures id in PermitsOf(t, w).pending <==> id in WorkerView(s, e, w).pending {
      PermitsAreOf(s, w, id);
      PermitsAreOf(t, w, id);
    }
  }

  lemma OtherIsSeen(s: World, e: Event, w: int)
    requires !e.Acquire?
    ensures PermitsOf(Step(s, e), w) == WorkerView(s, e, w)
  {
    hide Step, PermitsOf;
    OtherEvents(s, e);
    var t := Step(s, e);
    forall id ensures id in PermitsOf(t, w).pending <==> id in WorkerView(s, e, w).pending {
      PermitsAreOf(s, w, id);
      PermitsAreOf(t, w, id);
    }
    IssuedIsOf(s, w);
    IssuedIsOf(t, w);
  }

  lemma IssuedIsOf(s: World, w: int)
    ensures PermitsOf(s, w).issued == Issued(s, w)
  {
  }

  /** The protocol projects onto each worker's own bookkeeping: every event does to it what the limiter
      object there does, or nothing. */
  lemma WorkerViewSteps(s: World, e: Event, w: int)
    ensures PermitsOf(Step(s, e), w) == WorkerView(s, e, w)
    ensures forall id :: id in PermitsOf(s, w).pending <==> Request(w, id) in s.pending
    ensures UpcomingId(PermitsOf(s, w)) == NextRequest(s, w).id
  {
    hide NthId, Ask, PermitsOf, WorkerView;
    if e.Acquire? {
      AskIsSeen(s, e.worker, e.channel, w);
    } else {
      OtherIsSeen(s, e, w);
    }
    forall id {
      PermitsAreOf(s, w, id);
    }
    IssuedIsOf(s, w);
  }
}
