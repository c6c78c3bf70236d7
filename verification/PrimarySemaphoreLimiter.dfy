/** The primary-side concurrency limiter. Its handlers call each other: a send that throws inside the
    grant loop releases its token, which tries to restart the loop and is stopped by the lock. */
module PrimarySemaphoreLimiters {
  import opened Common
  import opened Environment
  import opened Int32Queues
  import opened ParallelQueues
  import opened SemaphoreModel

  /** The set of leases that the map of id sets stands for. */
  function Leases(usage: map<int, set<int>>): set<Request> {
    set w, id | w in usage && id in usage[w] :: Request(w, id)
  }

  lemma {:induction false} TaggedCount(w: int, ids: set<int>, tagged: set<Request>)
    requires forall q :: q in tagged <==> q.worker == w && q.id in ids
    ensures |tagged| == |ids|
  {
    if tagged == {} {
      forall id ensures id !in ids {
        assert Request(w, id) !in tagged;
      }
      assert ids == {};
    } else {
      var q :| q in tagged;
      TaggedCount(w, ids - {q.id}, tagged - {q});
    }
  }

  /** A worker holds as many leases as its set has ids. */
  lemma LeasesOfWorker(usage: map<int, set<int>>, w: int)
    ensures |LeasesOf(Leases(usage), w)| == if w in usage then |usage[w]| else 0
  {
    TaggedCount(w, if w in usage then usage[w] else {}, LeasesOf(Leases(usage), w));
  }

  /** The map without one leased id, and without the worker once its set is empty. */
  function DropLease(usage: map<int, set<int>>, w: int, id: int): map<int, set<int>>
    requires w in usage
  {
    var rest := usage[w] - {id};
    if rest == {} then usage - {w} else usage[w := rest]
  }

  lemma DropLeaseDrops(usage: map<int, set<int>>, w: int, id: int)
    requires w in usage && id in usage[w]
    ensures Leases(DropLease(usage, w, id)) == Leases(usage) - {Request(w, id)}
  {
    var after := DropLease(usage, w, id);
    forall q
      ensures q in Leases(after) <==> q in Leases(usage) && q != Request(w, id)
    {
      if q.worker == w && q.id in usage[w] && q.id != id {
        assert q.id in usage[w] - {id};
      }
    }
  }

  class PrimarySemaphoreLimiter {
    const requestsIdParallelQueue: Int32Queue
    const clustersIdParallelQueue: Int32Queue
    var clusterPendingRequests: map<int, set<int>>
    var remainingTokens: int
    var isGranting: bool
    ghost var calls: multiset<Call>
    ghost var decisions: seq<Decision>
    ghost var arrived: seq<Request>

    ghost function Repr(): set<object>
      reads this, requestsIdParallelQueue, clustersIdParallelQueue
    {
      {this, requestsIdParallelQueue, requestsIdParallelQueue.data, clustersIdParallelQueue,
       clustersIdParallelQueue.data}
    }

    /** The parts are sound and separate, the queues run in parallel, and no worker has an empty set. */
    ghost predicate Valid()
      reads this, Repr()
    {
      && requestsIdParallelQueue != clustersIdParallelQueue
      && requestsIdParallelQueue.data != clustersIdParallelQueue.data
      && requestsIdParallelQueue.Valid() && clustersIdParallelQueue.Valid()
      && |requestsIdParallelQueue.Contents| == |clustersIdParallelQueue.Contents|
      && (forall w :: w in clusterPendingRequests ==> clusterPendingRequests[w] != {})
    }

    ghost function Abs(): State
      requires Valid()
      reads this, Repr()
    {
      State(remainingTokens, Leases(clusterPendingRequests),
            Paired(requestsIdParallelQueue.Contents, clustersIdParallelQueue.Contents),
            calls, decisions, arrived)
    }

    /** What a restart of the loop makes of `s`: nothing while the loop is already running. */
    ghost function Restart(locked: bool, s: State, env: Env): State {
      if locked then s else Drain(s, env)
    }

    constructor (maxConcurrentRequests: nat)
      ensures Valid() && !isGranting && Abs() == Init(maxConcurrentRequests)
      ensures fresh(requestsIdParallelQueue) && fresh(requestsIdParallelQueue.data)
      ensures fresh(clustersIdParallelQueue) && fresh(clustersIdParallelQueue.data)
    {
      requestsIdParallelQueue := new Int32Queue();
      clustersIdParallelQueue := new Int32Queue();
      clusterPendingRequests := map[];
      remainingTokens := maxConcurrentRequests;
      isGranting := false;
      calls, decisions, arrived := multiset{}, [], [];
    }

    method IncrementWorkerUsage(clusterId: int, requestId: int)
      requires Valid()
      modifies this`clusterPendingRequests, this`remainingTokens
      ensures Valid() && Abs() == Lease(old(Abs()), Request(clusterId, requestId))
    {
      if clusterId in clusterPendingRequests {
        clusterPendingRequests := clusterPendingRequests[clusterId := clusterPendingRequests[clusterId] + {requestId}];
      } else {
        clusterPendingRequests := clusterPendingRequests[clusterId := {requestId}];
      }
      remainingTokens := remainingTokens - 1;
      assert Abs().leases == old(Abs()).leases + {Request(clusterId, requestId)};
    }

    method DecrementWorkerUsage(clusterId: int, requestId: int, env: Env)
      requires Valid()
      modifies this, requestsIdParallelQueue, clustersIdParallelQueue
      ensures Valid() && isGranting == old(isGranting) && Repr() == old(Repr())
      ensures var q := Request(clusterId, requestId);
        Abs() == if q in old(Abs()).leases then Restart(isGranting, Release(old(Abs()), q), env) else old(Abs())
      decreases if isGranting then 0 else 1, 2
    {
      if clusterId !in clusterPendingRequests || requestId !in clusterPendingRequests[clusterId] {
        return;
      }
      DropLeaseDrops(clusterPendingRequests, clusterId, requestId);
      clusterPendingRequests := DropLease(clusterPendingRequests, clusterId, requestId);
      remainingTokens := remainingTokens + 1;
      GrantPendingRequests(env);
    }

    method ReclaimDeadWorkerTokens(clusterId: int)
      requires Valid()
      modifies this`clusterPendingRequests, this`remainingTokens
      ensures Valid() && Abs() == Reclaim(old(Abs()), clusterId)
    {
      LeasesOfWorker(clusterPendingRequests, clusterId);
      var held := if clusterId in clusterPendingRequests then |clusterPendingRequests[clusterId]| else 0;
      clusterPendingRequests := clusterPendingRequests - {clusterId};
      remainingTokens := remainingTokens + held;
      assert Abs().leases == Reclaim(old(Abs()), clusterId).leases;
    }

    method HandleWorkerExit(workerId: int, env: Env)
      requires Valid()
      modifies this, requestsIdParallelQueue, clustersIdParallelQueue
      ensures Valid() && isGranting == old(isGranting) && Repr() == old(Repr())
      ensures Abs() == Restart(isGranting, Reclaim(old(Abs()), workerId), env)
      decreases if isGranting then 0 else 1, 2
    {
      ReclaimDeadWorkerTokens(workerId);
      GrantPendingRequests(env);
    }

    method GrantRequest(worker: int, requestId: int, retryCount: nat, throws: bool, env: Env)
      requires Valid()
      modifies this, requestsIdParallelQueue, clustersIdParallelQueue
      ensures Valid() && isGranting == old(isGranting) && Repr() == old(Repr())
      ensures var q := Request(worker, requestId);
        Abs() == if !throws then old(Abs()).(calls := old(calls) + multiset{Sending(q, retryCount)})
                 else if worker in env.cluster.dead then Restart(isGranting, Reclaim(old(Abs()), worker), env)
                 else if q in old(Abs()).leases then Restart(isGranting, Release(old(Abs()), q), env)
                 else old(Abs())
      decreases if isGranting then 0 else 1, 4
    {
      if throws {
        FailGrant(worker, requestId, env);
      } else {
        calls := calls + multiset{Sending(Request(worker, requestId), retryCount)};
      }
    }

    method DequeueRequest() returns (clusterId: int, requestId: int)
      requires Valid() && Abs().queue != []
      modifies requestsIdParallelQueue, clustersIdParallelQueue
      ensures Valid() && Repr() == old(Repr())
      ensures Request(clusterId, requestId) == old(Abs()).queue[0]
      ensures Abs() == old(Abs()).(queue := old(Abs()).queue[1..])
    {
      PairedTail(requestsIdParallelQueue.Contents, clustersIdParallelQueue.Contents);
      var first := requestsIdParallelQueue.Dequeue();
      var second := clustersIdParallelQueue.Dequeue();
      return second.value, first.value;
    }

    /** One turn of the grant loop. */
    method GrantNext(env: Env)
      requires Valid() && isGranting && Abs().queue != []
      modifies this, requestsIdParallelQueue, clustersIdParallelQueue
      ensures Valid() && isGranting && Repr() == old(Repr())
      ensures Abs() == GrantHead(old(Abs()), env)
      decreases 0, 5
    {
      var clusterId, requestId := DequeueRequest();
      var reachable := env.cluster.Reachable(clusterId);
      decisions := decisions + [Decision(Request(clusterId, requestId), reachable)];
      if reachable {
        IncrementWorkerUsage(clusterId, requestId);
        GrantRequest(clusterId, requestId, 0, requestsIdParallelQueue.size in env.throwing, env);
      }
    }

    /** Dispatches free tokens in FIFO order, unless a loop further up the stack already does. */
    method GrantPendingRequests(env: Env)
      requires Valid()
      modifies this, requestsIdParallelQueue, clustersIdParallelQueue
      ensures Valid() && isGranting == old(isGranting) && Repr() == old(Repr())
      ensures Abs() == Restart(isGranting, old(Abs()), env)
      decreases if isGranting then 0 else 1, 1
    {
      hide Leases, LeasesOf;
      if isGranting {
        return;
      }
      isGranting := true;
      while requestsIdParallelQueue.size > 0
        invariant Valid() && isGranting && Repr() == old(Repr())
        invariant Drain(Abs(), env) == Drain(old(Abs()), env)
        decreases requestsIdParallelQueue.size
      {
        if remainingTokens <= 0 {
          break;
        }
        ghost var queue := Abs().queue;
        GrantNext(env);
        assert Abs().queue == queue[1..];
      }
      isGranting := false;
    }

    method EnqueueRequest(workerId: int, requestId: int)
      requires Valid()
      modifies requestsIdParallelQueue, requestsIdParallelQueue.data
      modifies clustersIdParallelQueue, clustersIdParallelQueue.data, this`arrived
      ensures Valid() && fresh(Repr() - old(Repr()))
      ensures var q := Stored(Request(workerId, requestId));
        Abs() == old(Abs()).(queue := old(Abs()).queue + [q], arrived := old(arrived) + [q])
    {
      PairedAppend(requestsIdParallelQueue.Contents, clustersIdParallelQueue.Contents,
                   ToInt32(requestId), ToInt32(workerId));
      requestsIdParallelQueue.Enqueue(requestId);
      clustersIdParallelQueue.Enqueue(workerId);
      arrived := arrived + [Stored(Request(workerId, requestId))];
    }

    method HandleHotMessage(workerId: int, opcode: Opcode, payload: int, env: Env)
      requires Valid() && !isGranting
      modifies Repr()
      ensures Valid() && !isGranting && fresh(Repr() - old(Repr()))
      ensures var q := Request(workerId, payload);
        Abs() == match opcode
                 case ACQUIRE => Step(old(Abs()), Acquire(q, env))
                 case RELEASE => Step(old(Abs()), ReleaseMessage(q, env))
                 case GRANT => old(Abs())
    {
      if opcode == ACQUIRE {
        EnqueueRequest(workerId, payload);
        GrantPendingRequests(env);
      } else if opcode == RELEASE {
        DecrementWorkerUsage(workerId, payload, env);
      }
    }

    /** The cluster's `exit` event. */
    method HandleExit(workerId: int, env: Env)
      requires Valid() && !isGranting
      modifies Repr()
      ensures Valid() && !isGranting && Repr() == old(Repr())
      ensures Abs() == Step(old(Abs()), WorkerExit(workerId, env))
    {
      HandleWorkerExit(workerId, env);
    }

    /** `worker.send` calls back for one attempt. */
    method SendCallback(worker: int, requestId: int, retryCount: nat, err: bool, env: Env)
      returns (retryInMs: Option<int>)
      requires Valid() && !isGranting && Sending(Request(worker, requestId), retryCount) in calls
      modifies Repr()
      ensures Valid() && !isGranting && Repr() == old(Repr())
      ensures var q := Request(worker, requestId);
        Abs() == Step(old(Abs()), if err then CallbackError(q, retryCount, env) else CallbackOk(q, retryCount))
      ensures retryInMs == if err && worker !in env.cluster.dead && retryCount < 3 then Some(50) else None
    {
      hide Drain, Leases, Paired, LeasesOf, Reclaim, Release, Int32Queue.Valid;
      retryInMs := None;
      ghost var s1 := SendOk(Abs(), Request(worker, requestId), retryCount);
      calls := calls - multiset{Sending(Request(worker, requestId), retryCount)};
      assert Abs() == s1;
      if err && worker !in env.cluster.dead && retryCount < 3 {
        calls := calls + multiset{Waiting(Request(worker, requestId), retryCount + 1)};
        retryInMs := Some(50);
      } else if err {
        FailGrant(worker, requestId, env);
      }
    }

    /** Takes back the lease of a transmission that is given up, or all leases of a dead worker. */
    method FailGrant(worker: int, requestId: int, env: Env)
      requires Valid()
      modifies this, requestsIdParallelQueue, clustersIdParallelQueue
      ensures Valid() && isGranting == old(isGranting) && Repr() == old(Repr())
      ensures var q := Request(worker, requestId);
        Abs() == if worker in env.cluster.dead then Restart(isGranting, Reclaim(old(Abs()), worker), env)
                 else if q in old(Abs()).leases then Restart(isGranting, Release(old(Abs()), q), env)
                 else old(Abs())
      decreases if isGranting then 0 else 1, 3
    {
      if worker in env.cluster.dead {
        HandleWorkerExit(worker, env);
      } else {
        DecrementWorkerUsage(worker, requestId, env);
      }
    }

    /** The 50 ms timer of a retry fires. */
    method RetryGrant(worker: int, requestId: int, retryCount: nat, throws: bool, env: Env)
      requires Valid() && !isGranting && Waiting(Request(worker, requestId), retryCount) in calls
      modifies Repr()
      ensures Valid() && !isGranting && Repr() == old(Repr())
      ensures Abs() == Step(old(Abs()), TimerFires(Request(worker, requestId), retryCount, throws, env))
    {
      hide Drain, Leases, Paired, LeasesOf, Reclaim, Release, Int32Queue.Valid;
      ghost var s1 := Abs().(calls := calls - multiset{Waiting(Request(worker, requestId), retryCount)});
      calls := calls - multiset{Waiting(Request(worker, requestId), retryCount)};
      assert Abs() == s1;
      GrantRequest(worker, requestId, retryCount, throws, env);
    }
  }
}
