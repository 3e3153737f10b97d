/** The shared FIFO work queue: a `Queue.Queue` used from a single thread of control. */
module Queues {

  class WorkQueue<T> {
    /** The items still waiting, head first. */
    var items: seq<T>

    /** `Queue.Queue()` */
    constructor ()
      ensures items == []
    {
      items := [];
    }

    /** `queue.put(x)`: appends at the tail. */
    method Put(x: T)
      modifies this
      ensures items == old(items) + [x]
    {
      items := items + [x];
    }

    /** `map(queue.put, xs)`: appends every element of xs, in order. */
    method PutAll(xs: seq<T>)
      modifies this
      ensures items == old(items) + xs
    {
      for i := 0 to |xs|
        invariant items == old(items) + xs[..i]
      {
        assert xs[..i + 1] == xs[..i] + [xs[i]];
        Put(xs[i]);
      }
      assert xs[..|xs|] == xs;
    }

    /** `queue.empty()` */
    method Empty() returns (e: bool)
      ensures e <==> items == []
    {
      e := items == [];
    }

    /** `queue.get()`: removes and returns the head. Every caller checks `empty()` first. */
    method Get() returns (x: T)
      requires items != []
      modifies this
      ensures x == old(items)[0]
      ensures items == old(items)[1..]
    {
      x := items[0];
      items := items[1..];
    }
  }
}
