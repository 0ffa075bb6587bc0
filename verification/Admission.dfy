/** The bounded admission queue and the requests waiting in it. */
module Admission {
  import opened Types

  /** A dispatch future; every state but `Pending` is final. */
  datatype Future = Pending | Result(target: BackendTarget) | ScheduleError | Cancelled

  /** What the scheduler reads of a waiting request. */
  datatype Ticket = Ticket(done: bool, arrived: real, cl: RequestClass)

  class PendingRequest {
    const arrived: real
    const cl: RequestClass
    var future: Future
    var cancelled: bool

    constructor (arrived: real, cl: RequestClass)
      ensures this.arrived == arrived && this.cl == cl && future == Pending && !cancelled
    {
      this.arrived, this.cl := arrived, cl;
      future, cancelled := Pending, false;
    }

    function View(): Ticket
      reads this
    {
      Ticket(cancelled || future != Pending, arrived, cl)
    }
  }

  /** How many items a pop of up to `n` takes. */
  function BatchSize(depth: nat, n: int): (size: nat)
    ensures size <= depth && size <= Max(0, n) && (size == depth || size == Max(0, n))
  {
    if n <= 0 then 0 else if n <= depth then n else depth
  }

  class AdmissionQueue {
    const maxSize: int
    var items: seq<PendingRequest>

    constructor (maxSize: int)
      ensures this.maxSize == maxSize && items == []
    {
      this.maxSize := maxSize;
      items := [];
    }

    /** Refuses, leaving the queue as it is, when the queue is at capacity. */
    method Enqueue(item: PendingRequest) returns (accepted: bool)
      modifies this
      ensures accepted <==> |old(items)| < maxSize
      ensures items == if accepted then old(items) + [item] else old(items)
    {
      if |items| >= maxSize {
        return false;
      }
      items := items + [item];
      return true;
    }

    method PopBatch(n: int) returns (batch: seq<PendingRequest>)
      modifies this
      ensures batch == old(items)[..BatchSize(|old(items)|, n)]
      ensures items == old(items)[BatchSize(|old(items)|, n)..]
      ensures batch + items == old(items) && |batch| <= Max(0, n) && (items == [] || |batch| == Max(0, n))
    {
      batch := [];
      while items != [] && |batch| < n
        invariant batch + items == old(items)
        invariant |batch| <= Max(0, n)
        decreases |items|
      {
        batch := batch + [items[0]];
        items := items[1..];
      }
      assert batch == (batch + items)[..|batch|] && items == (batch + items)[|batch|..];
    }

    /** Pushes to the front from the last item to the first, so the order is kept. No size check. */
    method RequeueFront(back: seq<PendingRequest>)
      modifies this
      ensures items == back + old(items)
    {
      var i := |back|;
      while i > 0
        invariant 0 <= i <= |back|
        invariant items == back[i..] + old(items)
      {
        i := i - 1;
        items := [back[i]] + items;
      }
    }
  }
}
