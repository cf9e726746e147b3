/**
 The bounded FIFO queue between callers and the worker.
 */
module CommandQueue {
  import opened Options

  datatype Policy = RejectNew | DropOldest

  datatype Queue<T> = Queue(items: seq<T>, closed: bool)

  function Push<T>(q: Queue<T>, capacity: nat, policy: Policy, x: T): (r: (Queue<T>, bool))
  {
    if q.closed || (|q.items| == capacity && policy == RejectNew) then (q, false)
    else
      var kept := if |q.items| == capacity && q.items != [] then q.items[1..] else q.items;
      (q.(items := kept + [x]), true)
  }

  function Pop<T>(q: Queue<T>): (Queue<T>, Option<T>)
  {
    if q.items == [] then (q, None) else (q.(items := q.items[1..]), Some(q.items[0]))
  }

  class ThreadSafeQueue<T> {
    const capacity: nat
    const policy: Policy
    var items: seq<T>
    var closed: bool

    ghost predicate Valid()
      reads this
    {
      capacity > 0 && |items| <= capacity
    }

    function Value(): Queue<T>
      reads this
    {
      Queue(items, closed)
    }

    constructor (cap: nat, overflow: Policy)
      requires cap > 0
      ensures Valid() && capacity == cap && policy == overflow && Value() == Queue([], false)
    {
      capacity, policy, items, closed := cap, overflow, [], false;
    }

    method TryPush(x: T) returns (ok: bool)
      requires Valid()
      modifies this
      ensures Valid() && (Value(), ok) == Push(old(Value()), capacity, policy, x)
    {
      if closed { return false; }
      if |items| == capacity {
        if policy == RejectNew { return false; }
        items := items[1..];
      }
      items := items + [x];
      ok := true;
    }

    method TryPop() returns (x: Option<T>)
      requires Valid()
      modifies this
      ensures Valid() && (Value(), x) == Pop(old(Value()))
    {
      if items == [] { return None; }
      x := Some(items[0]);
      items := items[1..];
    }

    method Close()
      requires Valid()
      modifies this
      ensures Valid() && Value() == old(Value()).(closed := true)
    {
      closed := true;
    }

    // Positive exactly when the next pop yields an item, and within capacity.
    method Size() returns (n: nat)
      requires Valid()
      ensures n == |items| <= capacity && (n > 0 <==> Pop(Value()).1.Some?)
    {
      n := |items|;
    }
  }

  // Construction; a zero capacity is the source's invalid_argument exception.
  method Create<T>(capacity: nat, policy: Policy) returns (q: Option<ThreadSafeQueue<T>>)
    ensures q.Some? <==> capacity > 0
    ensures q.Some? ==> fresh(q.value) && q.value.Valid() && q.value.Value() == Queue([], false)
    ensures q.Some? ==> q.value.capacity == capacity && q.value.policy == policy
  {
    if capacity == 0 { return None; }
    var made := new ThreadSafeQueue<T>(capacity, policy);
    q := Some(made);
  }

  // ---------- runs ----------

  datatype Op<T> = Put(x: T) | Take | Shut

  // Queue, accepted items and taken items after a run.
  datatype Trace<T> = Trace(queue: Queue<T>, accepted: seq<T>, taken: seq<T>)

  function Run<T>(capacity: nat, policy: Policy, ops: seq<Op<T>>): Trace<T>
  {
    if ops == [] then Trace(Queue([], false), [], [])
    else
      var t := Run(capacity, policy, ops[..|ops| - 1]);
      match ops[|ops| - 1]
      case Put(x) =>
        var (q, ok) := Push(t.queue, capacity, policy, x);
        t.(queue := q, accepted := if ok then t.accepted + [x] else t.accepted)
      case Take =>
        var (q, x) := Pop(t.queue);
        t.(queue := q, taken := if x.Some? then t.taken + [x.value] else t.taken)
      case Shut => t.(queue := t.queue.(closed := true))
  }

  // With RejectNew no accepted item is ever lost, duplicated or reordered.
  lemma {:induction false} RejectNewIsLossless<T>(capacity: nat, ops: seq<Op<T>>)
    requires capacity > 0
    ensures var t := Run(capacity, RejectNew, ops);
            t.taken + t.queue.items == t.accepted && |t.queue.items| <= capacity
  {
    if ops != [] { RejectNewIsLossless(capacity, ops[..|ops| - 1]); }
  }

  // With DropOldest the queue always holds the newest accepted items.
  lemma {:induction false} DropOldestKeepsNewest<T>(capacity: nat, ops: seq<Op<T>>)
    requires capacity > 0
    ensures var t := Run(capacity, DropOldest, ops);
            && |t.queue.items| <= capacity && |t.queue.items| <= |t.accepted|
            && t.queue.items == t.accepted[|t.accepted| - |t.queue.items|..]
  {
    if ops != [] { DropOldestKeepsNewest(capacity, ops[..|ops| - 1]); }
  }

  // A closed queue accepts nothing and stays closed, but still hands out what it
  // holds; an open one with room accepts everything.
  lemma ClosingStopsPushes<T>(capacity: nat, policy: Policy, ops: seq<Op<T>>, x: T)
    requires capacity > 0
    ensures var t, u := Run(capacity, policy, ops), Run(capacity, policy, ops + [Put(x)]);
            && (t.queue.closed ==> u == t)
            && (!t.queue.closed && |t.queue.items| < capacity ==>
                  u.accepted == t.accepted + [x] && u.queue.items == t.queue.items + [x])
    ensures var t, u := Run(capacity, policy, ops), Run(capacity, policy, ops + [Take]);
            if t.queue.items == [] then u == t
            else u.taken == t.taken + [t.queue.items[0]] && u.queue.items == t.queue.items[1..]
    ensures var t, u := Run(capacity, policy, ops), Run(capacity, policy, ops + [Shut]);
            u.queue.closed && u.queue.items == t.queue.items
  {
    assert (ops + [Put(x)])[..|ops|] == ops && (ops + [Take])[..|ops|] == ops && (ops + [Shut])[..|ops|] == ops;
  }

  // Once closed, always closed.
  lemma {:induction false} ClosedStays<T>(capacity: nat, policy: Policy, ops: seq<Op<T>>)
    ensures Run(capacity, policy, ops).queue.closed <==> exists i :: 0 <= i < |ops| && ops[i] == Shut
  {
    if ops != [] {
      var n := |ops| - 1;
      ClosedStays(capacity, policy, ops[..n]);
      if i :| 0 <= i < n && ops[i] == Shut { assert ops[..n][i] == Shut; }
      if i :| 0 <= i < n && ops[..n][i] == Shut { assert ops[i] == Shut; }
    }
  }
}
