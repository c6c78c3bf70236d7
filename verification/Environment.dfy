/** What the limiters see of the Node.js process around them. */
module Environment {
  /** `performance.now()` in integer ticks. Readings never go backwards, and only finitely many in a row
      may coincide: `patience` bounds how many. */
  class Clock {
    var time: int
    var patience: nat

    constructor (time: int, patience: nat)
      ensures this.time == time
    {
      this.time := time;
      this.patience := patience;
    }

    method Now() returns (t: int)
      modifies this
      ensures t == time >= old(time)
      ensures time == old(time) ==> patience < old(patience)
    {
      var advance: nat :| advance >= 0;
      if advance == 0 && patience > 0 {
        patience := patience - 1;
      } else {
        time := time + advance + 1;
        var renewed: nat :| renewed >= 0;
        patience := renewed;
      }
      t := time;
    }
  }

  /** `cluster.workers` and the workers whose `isDead()` is true, as seen during one event-loop step. */
  datatype Cluster = Cluster(workers: set<int>, dead: set<int>) {
    predicate Reachable(w: int) {
      w in workers && w !in dead
    }
  }

  datatype Opcode = ACQUIRE | GRANT | RELEASE
}
