/** Two 32-bit queues kept in step, read as one queue of requests. */
module ParallelQueues {
  import opened Common

  /** The one queue of requests that two parallel queues stand for. */
  function Paired(ids: seq<int>, workers: seq<int>): seq<Request>
    requires |ids| == |workers|
  {
    seq(|ids|, i requires 0 <= i < |ids| => Request(workers[i], ids[i]))
  }

  lemma PairedAppend(ids: seq<int>, workers: seq<int>, id: int, worker: int)
    requires |ids| == |workers|
    ensures Paired(ids + [id], workers + [worker]) == Paired(ids, workers) + [Request(worker, id)]
  {
  }

  lemma PairedTail(ids: seq<int>, workers: seq<int>)
    requires |ids| == |workers| > 0
    ensures Paired(ids[1..], workers[1..]) == Paired(ids, workers)[1..]
    ensures Paired(ids, workers)[0] == Request(workers[0], ids[0])
  {
  }
}
