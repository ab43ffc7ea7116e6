/** The bounded drop-oldest queue as one thread sees it: a flume channel, two
    64-bit atomics, and a sender that holds both ends of its own channel. */
module DropOldest {
  import opened Base

  datatype PushResult<T> = Accepted | Returned(item: T)
  datatype RecvResult<T> = Item(item: T) | Empty | Disconnected

  /** The newest `capacity` elements of `s`: what a drop-oldest queue keeps. */
  function Newest<T>(capacity: nat, s: seq<T>): (r: seq<T>)
    ensures |r| == if |s| < capacity then |s| else capacity
  {
    if |s| <= capacity then s else s[|s| - capacity..]
  }

  /** Keeping the newest part at every push is keeping the newest part of everything pushed. */
  lemma {:induction false} NewestOfNewest<T>(capacity: nat, s: seq<T>, x: T)
    ensures Newest(capacity, Newest(capacity, s) + [x]) == Newest(capacity, s + [x])
  {
    if |s| > capacity {
      var kept := s[|s| - capacity..];
      assert (kept + [x])[1..] == (s + [x])[|s| + 1 - capacity..];
    }
  }

  class Queue<T> {
    const capacity: nat
    var items: seq<T>
    var pending: nat     // AtomicU64
    var dropped: nat     // AtomicU64
    var senders: nat     // live DropOldestSender clones, each holding a tx and a drop_rx
    var receivers: nat   // live DropOldestReceiver clones, each holding an rx

    ghost predicate Valid() reads this {
      |items| <= capacity && pending < U64 && dropped < U64
    }

    constructor (capacity: nat)
      ensures Valid() && this.capacity == capacity && items == []
      ensures pending == 0 && dropped == 0 && senders == 1 && receivers == 1
    {
      this.capacity := capacity;
      items, pending, dropped, senders, receivers := [], 0, 0, 1, 1;
    }

    /** Alone on the queue, a push sees Full at most once, drops at most one item (the
        oldest), never returns the item, and leaves the newest part of the old contents
        with the new item at the end. */
    method Push(item: T) returns (r: PushResult<T>, fulls: nat)
      requires Valid() && capacity >= 1
      requires senders >= 1   // the caller's own
      modifies this`items, this`pending, this`dropped
      ensures Valid()
      ensures r == Accepted
      ensures items == Newest(capacity, old(items) + [item])
      ensures fulls == if |old(items)| < capacity then 0 else 1
      ensures dropped == (old(dropped) + fulls) % U64
      ensures pending == (old(pending) + 1 - fulls) % U64
    {
      fulls := 0;
      while true
        invariant Valid()
        invariant fulls == 0 || (fulls == 1 && |old(items)| == capacity)
        invariant items == old(items)[fulls..]
        invariant dropped == (old(dropped) + fulls) % U64
        invariant pending == (old(pending) - fulls) % U64
        decreases |items|
      {
        if senders + receivers == 0 {            // try_send: Disconnected
          return Returned(item), fulls;
        } else if |items| < capacity {           // try_send: Ok
          items := items + [item];
          pending := (pending + 1) % U64;
          assert |old(items)| == capacity ==> items == (old(items) + [item])[1..];
          return Accepted, fulls;
        }
        fulls := fulls + 1;                      // try_send: Full
        if items != [] {                         // try_recv: Ok
          items := items[1..];
          dropped := (dropped + 1) % U64;
          pending := (pending - 1) % U64;
        } else if senders == 0 {                 // try_recv: Disconnected
          return Returned(item), fulls;
        }
      }
    }

    method TryRecv() returns (r: RecvResult<T>)
      requires Valid()
      modifies this`items
      ensures Valid()
      ensures old(items) != [] ==> r == Item(old(items)[0]) && items == old(items)[1..]
      ensures old(items) == [] ==> items == [] && r == if senders == 0 then Disconnected else Empty
    {
      if items != [] {
        r := Item(items[0]);
        items := items[1..];
      } else {
        r := if senders == 0 then Disconnected else Empty;
      }
    }

    method ProcessedOne()
      requires Valid()
      modifies this`pending
      ensures Valid() && pending == (old(pending) - 1) % U64
    {
      pending := (pending - 1) % U64;
    }
  }

  /** Any burst pushed by one thread without a receive: the queue ends with the newest
      `capacity` items of everything it was given and has counted exactly the rest. */
  method PushAll<T>(q: Queue<T>, burst: seq<T>)
    requires q.Valid() && q.capacity >= 1 && q.senders >= 1
    requires q.dropped + |burst| < U64
    modifies q
    ensures q.Valid()
    ensures q.items == Newest(q.capacity, old(q.items) + burst)
    ensures q.dropped - old(q.dropped) == |old(q.items)| + |burst| - |q.items|
  {
    assert old(q.items) + burst[..0] == old(q.items);
    for i := 0 to |burst|
      invariant q.Valid() && q.senders >= 1
      invariant q.items == Newest(q.capacity, old(q.items) + burst[..i])
      invariant q.dropped - old(q.dropped) == |old(q.items)| + i - |q.items|
    {
      NewestOfNewest(q.capacity, old(q.items) + burst[..i], burst[i]);
      assert old(q.items) + burst[..i] + [burst[i]] == old(q.items) + burst[..i + 1];
      var r, fulls := q.Push(burst[i]);
    }
    assert burst[..|burst|] == burst;
  }
}
