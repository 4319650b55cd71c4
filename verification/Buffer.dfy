/** buffer.c: a circular buffer in a fixed array, and the bounded FIFO queue it implements. */
module Buffers {

  /** size_t is 64 bits wide and a pointer takes 8 bytes, so an allocation holds fewer than 2^61 of them. */
  const SIZE_T: nat := 0x1_0000_0000_0000_0000
  const CELL_BYTES: nat := 8

  datatype Status = BufferSuccess | BufferError

  // ---------- the queue ----------

  /** What is kept of an offered value: appended when there is room, refused otherwise. */
  function Offer<T>(q: seq<T>, capacity: nat, x: T): seq<T> {
    if |q| < capacity then q + [x] else q
  }

  function Poll<T>(q: seq<T>): seq<T> {
    if q == [] then q else q[1..]
  }

  class Buffer<T(0)> {
    var size: nat
    var next: nat
    const capacity: nat
    const data: array<T>

    ghost predicate Valid()
      reads this
    {
      && data.Length == capacity && capacity * CELL_BYTES < SIZE_T
      && size <= capacity && (if capacity == 0 then next == 0 else next < capacity)
    }

    /** The cell of the element `i` places behind the oldest one. */
    function Cell(i: nat): (p: nat)
      requires Valid() && i < capacity
      reads this
      ensures p < capacity
    {
      if next + i >= capacity then next + i - capacity else next + i
    }

    /** One conditional subtraction is the whole of the wrapping. */
    lemma CellIsModulo(i: nat)
      requires Valid() && i < capacity
      ensures Cell(i) == (next + i) % capacity
    {
      if next + i >= capacity {
        assert next + i == capacity + (next + i - capacity);
      }
    }

    /** The queue held: `size` elements, oldest first. */
    ghost function Contents(): (q: seq<T>)
      requires Valid()
      reads this, data
      ensures |q| == size
    {
      seq(size, i requires 0 <= i < size && Valid() reads this, data => data[Cell(i)])
    }

    constructor (capacity: nat)
      requires capacity * CELL_BYTES < SIZE_T
      ensures Valid() && fresh(data) && this.capacity == capacity && Contents() == []
    {
      data := new T[capacity];
      size := 0;
      next := 0;
      this.capacity := capacity;
    }

    /** The 64-bit sums never wrap. */
    method Add(x: T) returns (status: Status)
      requires Valid()
      modifies `size, data
      ensures Valid()
      ensures status.BufferSuccess? <==> old(size) < capacity
      ensures Contents() == Offer(old(Contents()), capacity, x)
    {
      if size >= capacity {
        return BufferError;
      }
      var pos := (next + size) % SIZE_T;
      if pos >= capacity {
        pos := (pos - capacity) % SIZE_T;
      }
      assert pos == Cell(size);
      data[pos] := x;
      size := size + 1;
      assert Contents() == old(Contents()) + [x];
      return BufferSuccess;
    }

    method Remove() returns (status: Status, x: T)
      requires Valid()
      modifies this
      ensures Valid()
      ensures status.BufferSuccess? <==> old(size) > 0
      ensures old(size) > 0 ==> x == old(Contents())[0]
      ensures Contents() == Poll(old(Contents()))
    {
      if size > 0 {
        x := data[next];
        size := size - 1;
        next := next + 1;
        if next >= capacity {
          next := next - capacity;
        }
        assert Contents() == old(Contents())[1..];
        return BufferSuccess, x;
      }
      x := *;
      return BufferError, x;
    }

    method CurrentSize() returns (n: nat)
      requires Valid()
      ensures n == |Contents()|
    {
      return size;
    }
  }

  // ---------- any sequence of operations ----------

  datatype Op<T> = AddOp(x: T) | RemoveOp

  /** The values an operation sequence gets accepted, the values it gets back, and what it leaves. */
  datatype Trace<T> = Trace(accepted: seq<T>, returned: seq<T>, held: seq<T>)

  function Run<T>(ops: seq<Op<T>>, capacity: nat): (t: Trace<T>)
  {
    if ops == [] then Trace([], [], [])
    else
      var t := Run(ops[..|ops| - 1], capacity);
      match ops[|ops| - 1]
      case AddOp(x) => t.(accepted := if |t.held| < capacity then t.accepted + [x] else t.accepted,
                          held := Offer(t.held, capacity, x))
      case RemoveOp => t.(returned := if t.held == [] then t.returned else t.returned + [t.held[0]],
                          held := Poll(t.held))
  }

  /** First in, first out, nothing lost, nothing invented, never more than the capacity. */
  lemma {:induction false} FirstInFirstOut<T>(ops: seq<Op<T>>, capacity: nat)
    ensures var t := Run(ops, capacity); t.accepted == t.returned + t.held && |t.held| <= capacity
  {
    if ops != [] {
      FirstInFirstOut(ops[..|ops| - 1], capacity);
      var t := Run(ops[..|ops| - 1], capacity);
      if ops[|ops| - 1].RemoveOp? && t.held != [] {
        assert t.returned + [t.held[0]] + t.held[1..] == t.returned + t.held;
      }
    }
  }
}
