/** The growing ring buffer of 32-bit integers behind the limiters' wait queues. */
module Int32Queues {
  import opened Common

  class Int32Queue {
    ghost var Contents: seq<int>    // what a plain FIFO would hold
    ghost var enqueued: nat         // number of enqueues so far
    ghost var copied: nat           // number of cells moved by growth so far
    ghost const initialCapacity: nat
    var data: array<int32>
    var capacity: nat
    var head: nat
    var tail: nat
    var size: nat

    ghost predicate Valid()
      reads this, data
    {
      && 0 < initialCapacity <= capacity == data.Length
      && head < capacity && size <= capacity
      && tail == Slot(head, size, capacity)
      && |Contents| == size
      && (forall i :: 0 <= i < size ==> Contents[i] == data[Slot(head, i, capacity)])
      && copied == capacity - initialCapacity
      && size <= enqueued
      && (copied > 0 ==> capacity <= 2 * enqueued)
    }

    constructor (initialCapacity: nat := 1024)
      requires initialCapacity > 0
      ensures Valid() && fresh(data) && Contents == [] && capacity == initialCapacity
    {
      this.initialCapacity := initialCapacity;
      capacity := initialCapacity;
      data := new int32[initialCapacity];
      head, tail, size := 0, 0, 0;
      Contents, enqueued, copied := [], 0, 0;
    }

    /** Stores the value as an `Int32Array` does; never refuses, growing when full. */
    method Enqueue(value: int)
      requires Valid()
      modifies this, data
      ensures Valid() && (data == old(data) || fresh(data))
      ensures Contents == old(Contents) + [ToInt32(value)]
      ensures enqueued == old(enqueued) + 1
    {
      if size == capacity {
        Grow();
      }
      SlotIsModulo(head, size, capacity);
      SlotIsModulo(tail, 1, capacity);
      data[tail] := ToInt32(value);
      tail := (tail + 1) % capacity;
      size := size + 1;
      Contents := Contents + [ToInt32(value)];
      enqueued := enqueued + 1;
      SlotIsModulo(head, size, capacity);
    }

    method Dequeue() returns (value: Option<int>)
      requires Valid()
      modifies this
      ensures Valid() && data == old(data)
      ensures old(Contents) == [] ==> value == None && Contents == []
      ensures old(Contents) != [] ==> value == Some(old(Contents)[0]) && Contents == old(Contents)[1..]
      ensures enqueued == old(enqueued) && copied == old(copied)
    {
      if size == 0 {
        return None;
      }
      value := Some(data[head]);
      SlotIsModulo(head, 1, capacity);
      SlotIsModulo(head, size, capacity);
      head := (head + 1) % capacity;
      size := size - 1;
      Contents := Contents[1..];
      SlotIsModulo(head, size, capacity);
    }

    method Clear()
      requires Valid()
      modifies this
      ensures Valid() && data == old(data) && Contents == []
      ensures enqueued == old(enqueued) && copied == old(copied)
    {
      head, tail, size := 0, 0, 0;
      Contents := [];
    }

    /** Doubles a full ring, unrolling it from any wrap position into a flat one. */
    method Grow()
      requires Valid() && size == capacity
      modifies this
      ensures Valid() && fresh(data) && capacity == 2 * old(capacity)
      ensures Contents == old(Contents) && size == old(size) && enqueued == old(enqueued)
      ensures copied == old(copied) + old(size)
      ensures head == 0 && tail == size
    {
      SlotIsModulo(head, size, capacity);
      var newCapacity := capacity * 2;
      var newData := new int32[newCapacity];
      forall i | 0 <= i < capacity - head {
        newData[i] := data[head + i];
      }
      forall i | 0 <= i < tail {
        newData[capacity - head + i] := data[i];
      }
      copied := copied + capacity;
      data := newData;
      head := 0;
      tail := capacity;
      capacity := newCapacity;
      assert tail == Slot(head, size, capacity);
    }

    /** Growth is paid for by the enqueues: fewer than two cells moved per enqueue. */
    lemma GrowthIsAmortised()
      requires Valid()
      ensures copied == 0 || copied < 2 * enqueued
    {
    }
  }
}
