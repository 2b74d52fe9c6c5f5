/** The counter store of the counter snippet and of the two live React
    counters: one number, moved up or down by one per action. */
module Counter {

  /** The two actions of a counter, in the order a user or a timer invokes them. */
  datatype Action = Increment | Decrement

  /** The count reached from `count` after performing `actions` one by one. */
  function Run(count: int, actions: seq<Action>): int
    decreases |actions|
  {
    if actions == [] then count
    else
      var next := if actions[0] == Increment then count + 1 else count - 1;
      Run(next, actions[1..])
  }

  /** Performing two runs one after the other is one run of both. */
  lemma {:induction false} RunAppend(count: int, xs: seq<Action>, ys: seq<Action>)
    ensures Run(count, xs + ys) == Run(Run(count, xs), ys)
    decreases |xs|
  {
    if xs == [] {
      assert xs + ys == ys;
    } else {
      assert (xs + ys)[1..] == xs[1..] + ys;
      var next := if xs[0] == Increment then count + 1 else count - 1;
      RunAppend(next, xs[1..], ys);
    }
  }

  /** Only the number of increments and decrements matters, not their order:
      the count moves by increments minus decrements. */
  lemma {:induction false} RunIsNet(count: int, actions: seq<Action>)
    ensures Run(count, actions) == count + multiset(actions)[Increment] - multiset(actions)[Decrement]
    decreases |actions|
  {
    if actions != [] {
      assert actions == [actions[0]] + actions[1..];
      var next := if actions[0] == Increment then count + 1 else count - 1;
      RunIsNet(next, actions[1..]);
    }
  }

  /** An increment directly followed by a decrement, or the other way round,
      can be dropped from any sequence of actions without changing the count. */
  lemma Cancel(count: int, xs: seq<Action>, pair: seq<Action>, ys: seq<Action>)
    requires pair == [Increment, Decrement] || pair == [Decrement, Increment]
    ensures Run(count, xs + pair + ys) == Run(count, xs + ys)
  {
    RunIsNet(count, xs + pair + ys);
    RunIsNet(count, xs + ys);
    assert multiset(xs + pair + ys) == multiset(xs + ys) + multiset{Increment, Decrement};
  }

  class CounterStore {
    var count: int

    /** A new counter starts at zero. */
    constructor ()
      ensures count == 0
    {
      count := 0;
    }

    /** The `increment` action: one up. */
    method Increment()
      modifies this
      ensures count == old(count) + 1
    {
      count := count + 1;
    }

    /** The `decrement` action: one down. */
    method Decrement()
      modifies this
      ensures count == old(count) - 1
    {
      count := count - 1;
    }
  }

  /** Invokes the actions on the counter one after the other, as clicks on the
      two buttons or ticks of an interval timer do; the counter ends where
      `Run` says. */
  method Dispatch(counter: CounterStore, actions: seq<Action>)
    modifies counter
    ensures counter.count == Run(old(counter.count), actions)
  {
    var i := 0;
    while i < |actions|
      invariant 0 <= i <= |actions|
      invariant counter.count == Run(old(counter.count), actions[..i])
    {
      RunAppend(old(counter.count), actions[..i], [actions[i]]);
      assert actions[..i + 1] == actions[..i] + [actions[i]];
      if actions[i] == Increment {
        counter.Increment();
      } else {
        counter.Decrement();
      }
      i := i + 1;
    }
    assert actions[..i] == actions;
  }

  /** A fresh counter driven by `actions` shows increments minus decrements. */
  method Replay(actions: seq<Action>) returns (count: int)
    ensures count == multiset(actions)[Increment] as int - multiset(actions)[Decrement]
  {
    var counter := new CounterStore();
    Dispatch(counter, actions);
    RunIsNet(0, actions);
    count := counter.count;
  }
}
