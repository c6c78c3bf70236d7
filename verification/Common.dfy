/** Values shared by the queues, the limiters and the protocol. */
module Common {
  datatype Option<+T> = None | Some(value: T)

  /** The values an `Int32Array` cell can hold. */
  type int32 = x: int | -0x8000_0000 <= x < 0x8000_0000

  /** The conversion a store into an `Int32Array` performs: reduce modulo 2^32 into the signed range. */
  function ToInt32(v: int): (r: int32)
    ensures -0x8000_0000 <= v < 0x8000_0000 ==> r == v
    ensures (v - r) % 0x1_0000_0000 == 0
  {
    var m := v % 0x1_0000_0000;
    if m < 0x8000_0000 then m else m - 0x1_0000_0000
  }

  /** One queued permit request: which worker asked, and under which local request id. */
  datatype Request = Request(worker: int, id: int)

  /** What two parallel 32-bit queues keep of a request. */
  function Stored(r: Request): Request {
    Request(ToInt32(r.worker), ToInt32(r.id))
  }

  // ----- division by a variable

  lemma AtLeastOne(k: int, w: int)
    requires k >= 1 && w > 0
    ensures k * w >= w
  {
  }

  /** Quotient and remainder are unique. */
  lemma QuotientUnique(w: int, p: int, r: int, q: int, r': int)
    requires 0 <= r < w && 0 <= r' < w && p * w + r == q * w + r'
    ensures p == q && r == r'
  {
    assert (p - q) * w == p * w - q * w;
    assert (q - p) * w == q * w - p * w;
    if p > q {
      AtLeastOne(p - q, w);
    } else if p < q {
      AtLeastOne(q - p, w);
    }
  }

  // ----- rings

  /** Where the `i`-th element after `head` lives in a ring of `capacity` cells. */
  function Slot(head: nat, i: nat, capacity: nat): nat
    requires head < capacity && i <= capacity
  {
    if head + i < capacity then head + i else head + i - capacity
  }

  lemma SlotIsModulo(head: nat, i: nat, capacity: nat)
    requires head < capacity && i <= capacity
    ensures (head + i) % capacity == Slot(head, i, capacity)
  {
    var n := head + i;
    assert n == (n / capacity) * capacity + n % capacity;
    QuotientUnique(capacity, n / capacity, n % capacity, if n < capacity then 0 else 1, Slot(head, i, capacity));
  }
}
