/** The queue the two threads share (server/safe_queue); each operation is one atomic step. */
module SafeQueues {
  import opened Types

  class SafeQueue<T> {
    const nullItem: T
    var q: seq<T>

    constructor (nullItem: T)
      ensures q == [] && this.nullItem == nullItem
    {
      this.nullItem := nullItem;
      q := [];
    }

    method Enqueue(t: T)
      modifies this
      ensures q == old(q) + [t]
    {
      q := q + [t];
    }

    /** One pass of the loop that waits for an element: None keeps waiting. */
    method Dequeue() returns (val: Option<T>)
      modifies this
      ensures if old(q) == [] then val == None && q == [] else val.Some? && old(q) == [val.value] + q
    {
      if q == [] {
        return None;
      }
      val := Some(q[0]);
      q := q[1..];
    }

    /** The front element, or the null item of an empty queue. */
    method Poll() returns (val: T)
      modifies this
      ensures if old(q) == [] then val == nullItem && q == [] else old(q) == [val] + q
    {
      if q == [] {
        return nullItem;
      }
      val := q[0];
      q := q[1..];
    }
  }

  /** A history of one queue: what was put in and what came out. */
  datatype Op<T> = Push(t: T) | Pull(val: T)

  /** The queue after the operations, or None if some pull did not give the front. */
  function Replay<T(==)>(ops: seq<Op<T>>, nullItem: T): Option<seq<T>> {
    if ops == [] then Some([]) else
    match Replay(ops[..|ops| - 1], nullItem)
    case None => None
    case Some(q) =>
      match ops[|ops| - 1]
      case Push(t) => Some(q + [t])
      case Pull(val) =>
        if q == [] then (if val == nullItem then Some([]) else None)
        else if q[0] == val then Some(q[1..]) else None
  }

  function Puts<T>(ops: seq<Op<T>>): seq<T> {
    if ops == [] then [] else
    Puts(ops[..|ops| - 1]) + if ops[|ops| - 1].Push? then [ops[|ops| - 1].t] else []
  }

  /** The elements polled from a non-empty queue. */
  function Taken<T(==)>(ops: seq<Op<T>>, nullItem: T): seq<T> {
    if ops == [] then [] else
    var before := ops[..|ops| - 1];
    Taken(before, nullItem) +
    if ops[|ops| - 1].Pull? && Replay(before, nullItem).Some? && Replay(before, nullItem).value != []
    then [ops[|ops| - 1].val] else []
  }

  /** First in, first out: in every history the elements taken, then those left, are the
      elements put in, in order. */
  lemma {:induction false} Fifo<T>(ops: seq<Op<T>>, nullItem: T)
    requires Replay(ops, nullItem).Some?
    ensures Taken(ops, nullItem) + Replay(ops, nullItem).value == Puts(ops)
  {
    if ops != [] {
      Fifo(ops[..|ops| - 1], nullItem);
    }
  }
}
