/** The `std::queue<arma::mat>` that the walker fills and the distributor
    drains. Both work on the same queue object, so it is a class whose
    contents the operations replace. */
module StatsQueues {
  import opened Tensors

  class StatsQueue {
    /** Front of the queue first. */
    var items: seq<Matrix>

    constructor ()
      ensures items == []
    {
      items := [];
    }

    method Push(m: Matrix)
      modifies this
      ensures items == old(items) + [m]
    {
      items := items + [m];
    }

    /** `front()` on an empty std::queue is undefined, so callers must not. */
    method Front() returns (m: Matrix)
      requires items != []
      ensures m == items[0]
    {
      m := items[0];
    }

    method Pop()
      requires items != []
      modifies this
      ensures items == old(items)[1..]
    {
      items := items[1..];
    }

    predicate Empty()
      reads this
    {
      items == []
    }
  }
}
