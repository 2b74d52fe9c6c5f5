/** The counter of the integration guide: a count with a single action,
    `increment`. */
module IntegrationCounter {

  class CounterStore {
    var count: int

    /** A new counter starts at zero. */
    constructor ()
      ensures count == 0
    {
      count := 0;
    }

    /** The `increment` action: one up, so the count never goes down. */
    method Increment()
      modifies this
      ensures count == old(count) + 1
      ensures count > old(count)
    {
      count := count + 1;
    }
  }

  /** Clicks the button `n` times: the count grows by exactly `n`. */
  method Click(counter: CounterStore, n: nat)
    modifies counter
    ensures counter.count == old(counter.count) + n
  {
    var i := 0;
    while i < n
      invariant 0 <= i <= n
      invariant counter.count == old(counter.count) + i
    {
      counter.Increment();
      i := i + 1;
    }
  }

  /** A fresh counter clicked `n` times shows `n`. */
  method CountClicks(n: nat) returns (count: int)
    ensures count == n
  {
    var counter := new CounterStore();
    Click(counter, n);
    count := counter.count;
  }
}
