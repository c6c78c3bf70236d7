/** The fixed ring buffer of timestamps behind the duration limiter's log. */
module Float64SortedQueues {
  import opened Common
  import opened SortedLog

  /** JavaScript's `x >> 1` on a number: truncate to 32 bits, then shift arithmetically. */
  function ShiftRight1(x: int): int {
    ToInt32(x) / 2
  }

  /** The shift halves exactly the numbers that fit in 32 signed bits. */
  lemma ShiftHalvesExactly(x: nat)
    ensures ShiftRight1(x) == x / 2 <==> x < 0x8000_0000
  {
  }

  class Float64SortedQueue {
    ghost var Contents: seq<int>
    const capacity: nat
    const values: array<int>
    var headIndex: nat
    var tailIndex: nat
    var size: nat

    ghost predicate Valid()
      reads this, values
    {
      && 0 < capacity == values.Length < 0x8000_0000
      && headIndex < capacity && size <= capacity
      && tailIndex == Slot(headIndex, size, capacity)
      && |Contents| == size
      && (forall i :: 0 <= i < size ==> Contents[i] == values[Slot(headIndex, i, capacity)])
    }

    constructor (capacity: nat)
      requires 0 < capacity < 0x8000_0000
      ensures Valid() && fresh(values) && Contents == [] && this.capacity == capacity
    {
      this.capacity := capacity;
      values := new int[capacity];
      headIndex, tailIndex, size := 0, 0, 0;
      Contents := [];
    }

    /** Appends, or reports QUEUE_FULL and changes nothing. */
    method Enqueue(item: int) returns (queueFull: bool)
      requires Valid()
      modifies this, values
      ensures Valid()
      ensures queueFull <==> |old(Contents)| == capacity
      ensures Contents == if queueFull then old(Contents) else old(Contents) + [item]
    {
      if size == capacity {
        return true;
      }
      SlotIsModulo(headIndex, size, capacity);
      SlotIsModulo(tailIndex, 1, capacity);
      values[tailIndex] := item;
      tailIndex := (tailIndex + 1) % capacity;
      size := size + 1;
      Contents := Contents + [item];
      SlotIsModulo(headIndex, size, capacity);
      return false;
    }

    method Dequeue() returns (item: Option<int>)
      requires Valid()
      modifies this
      ensures Valid()
      ensures old(Contents) == [] ==> item == None && Contents == []
      ensures old(Contents) != [] ==> item == Some(old(Contents)[0]) && Contents == old(Contents)[1..]
    {
      if size == 0 {
        return None;
      }
      item := Some(values[headIndex]);
      SlotIsModulo(headIndex, 1, capacity);
      SlotIsModulo(headIndex, size, capacity);
      headIndex := (headIndex + 1) % capacity;
      size := size - 1;
      Contents := Contents[1..];
      SlotIsModulo(headIndex, size, capacity);
    }

    method Clear()
      requires Valid()
      modifies this
      ensures Valid() && Contents == []
    {
      headIndex, tailIndex, size := 0, 0, 0;
      Contents := [];
    }

    method Peek() returns (item: Option<int>)
      requires Valid()
      ensures item == if Contents == [] then None else Some(Contents[0])
    {
      if size == 0 {
        return None;
      }
      item := Some(values[headIndex]);
    }

    /** The wrapped binary search: on any contents it stops at a boundary; on sorted contents that is
        the number of items strictly below the target. */
    method BinarySearchLowerBound(target: int) returns (count: nat)
      requires Valid()
      ensures Boundary(Contents, count, target)
      ensures Sorted(Contents) ==> count == size - CountFrom(Contents, target)
    {
      var left, right := 0, size;
      while left < right
        invariant 0 <= left <= right <= size
        invariant left > 0 ==> Contents[left - 1] < target
        invariant right < size ==> Contents[right] >= target
      {
        ShiftHalvesExactly(right - left);
        var mid := left + ShiftRight1(right - left);
        SlotIsModulo(headIndex, mid, capacity);
        var midPhysical := (headIndex + mid) % capacity;
        if values[midPhysical] < target {
          left := mid + 1;
        } else {
          right := mid;
        }
      }
      count := left;
      if Sorted(Contents) {
        BoundaryIsExact(Contents, count, target);
      }
    }

    /** Drops a prefix up to a boundary; from a sorted log exactly the items below the target. */
    method RemoveBefore(target: int)
      requires Valid()
      modifies this
      ensures Valid()
      ensures exists k: nat :: Boundary(old(Contents), k, target) && Contents == old(Contents)[k..]
      ensures Sorted(old(Contents)) ==> Contents == AtLeast(old(Contents), target)
    {
      if size == 0 {
        assert Boundary(Contents, 0, target);
        return;
      }
      var count := BinarySearchLowerBound(target);
      if Sorted(Contents) {
        BoundaryIsExact(Contents, count, target);
      }
      ghost var kept := Contents[count..];
      if count == 0 {
        return;
      }
      if count == size {
        Clear();
        assert Contents == kept;
        return;
      }
      SlotIsModulo(headIndex, count, capacity);
      SlotIsModulo(headIndex, size, capacity);
      headIndex := (headIndex + count) % capacity;
      size := size - count;
      Contents := kept;
      SlotIsModulo(headIndex, size, capacity);
    }
  }
}
