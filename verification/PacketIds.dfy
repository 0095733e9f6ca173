/** `checked_increment`: packet IDs from a shared counter, by compare and
    exchange, with any number of threads. */
module PacketIds {
  import opened Wrappers

  /** A thread is idle, or inside the loop with the value it last saw; `start`
      is the value it first loaded and `lost` counts its genuine failures. */
  datatype Thread = Idle | Looping(current: nat, start: nat, lost: nat)

  /** `max` is the largest value of the counter's type. `issued` lists the
      returned IDs in the order of the successful exchanges. */
  datatype Counter = Counter(max: nat, first: nat, value: nat, issued: seq<nat>, exhausted: bool, threads: seq<Thread>)

  /** Relaxed loads may be late: `seen` is any value the counter has held. */
  datatype Action =
    | Load(id: nat, seen: nat)
    | Exchange(id: nat)
    | Fail(id: nat, seen: nat)
    | GiveUp(id: nat)

  /** `current.checked_add(1).filter(|n| n != MAX)`. */
  function Next(max: nat, current: nat): Option<nat> {
    if current + 1 > max || current + 1 == max then None else Some(current + 1)
  }

  function Set(c: Counter, i: nat, t: Thread): Counter
    requires i < |c.threads|
  {
    c.(threads := c.threads[i := t])
  }

  function Step(c: Counter, a: Action): Option<Counter> {
    if a.id >= |c.threads| then None
    else
      var i, t := a.id, c.threads[a.id];
      match a
      case Load(_, seen) =>
        if t.Idle? && c.first <= seen <= c.value then Some(Set(c, i, Looping(seen, seen, 0))) else None
      case Exchange(_) =>
        if t.Looping? && t.current == c.value && Next(c.max, t.current).Some?
        then Some(Set(c, i, Idle).(value := t.current + 1, issued := c.issued + [t.current + 1]))
        else None
      case Fail(_, seen) =>
        // a weak exchange may fail with the expected value still in place
        if t.Looping? && Next(c.max, t.current).Some? && t.current <= seen <= c.value
        then Some(Set(c, i, Looping(seen, t.start, if seen == t.current then t.lost else t.lost + 1)))
        else None
      case GiveUp(_) =>
        if t.Looping? && Next(c.max, t.current).None? then Some(Set(c, i, Idle).(exhausted := true)) else None
  }

  function Run(c: Counter, actions: seq<Action>): Option<Counter>
    decreases |actions|
  {
    if actions == [] then Some(c)
    else match Step(c, actions[0]) case Some(c') => Run(c', actions[1..]) case None => None
  }

  ghost predicate ThreadOk(c: Counter, t: Thread) {
    t.Looping? ==> c.first <= t.start <= t.current <= c.value && t.lost <= t.current - t.start
  }

  ghost predicate Inv(c: Counter) {
    && c.first <= c.value && |c.issued| == c.value - c.first
    && (forall k :: 0 <= k < |c.issued| ==> c.issued[k] == c.first + 1 + k)
    && (c.value != c.first ==> c.value < c.max)
    && (c.exhausted ==> c.value + 1 >= c.max)
    && (forall i :: 0 <= i < |c.threads| ==> ThreadOk(c, c.threads[i]))
  }

  lemma {:induction false} StepKeeps(c: Counter, a: Action)
    requires Inv(c) && Step(c, a).Some?
    ensures var c' := Step(c, a).value; Inv(c') && c'.first == c.first && c'.max == c.max && c.value <= c'.value
  {
    var t := c.threads[a.id];
    assert ThreadOk(c, t);
    var c' := Step(c, a).value;
    forall i | 0 <= i < |c'.threads| ensures ThreadOk(c', c'.threads[i]) {
      if i != a.id { assert ThreadOk(c, c.threads[i]); }
    }
  }

  lemma {:induction false} RunKeeps(c: Counter, actions: seq<Action>)
    requires Inv(c) && Run(c, actions).Some?
    ensures var c' := Run(c, actions).value; Inv(c') && c'.first == c.first && c'.max == c.max && c.value <= c'.value
    decreases |actions|
  {
    if actions == [] {
    } else {
      StepKeeps(c, actions[0]);
      RunKeeps(Step(c, actions[0]).value, actions[1..]);
    }
  }

  function Start(max: nat, first: nat, threads: nat): Counter {
    Counter(max, first, first, [], false, seq(threads, _ => Idle))
  }

  /** `lo + 1` up to `hi`. */
  function Interval(lo: nat, hi: nat): seq<nat>
    requires lo <= hi
  {
    seq(hi - lo, k requires 0 <= k => lo + 1 + k)
  }

  /** In every run the returned IDs are exactly `first + 1` up to the current
      value, in order and so pairwise distinct, the maximum is never among
      them, and no call loses the exchange more often than others won it
      since the value it started from. */
  lemma {:induction false} IdsAreTheInterval(max: nat, first: nat, threads: nat, actions: seq<Action>)
    requires Run(Start(max, first, threads), actions).Some?
    ensures var c := Run(Start(max, first, threads), actions).value;
            && first <= c.value && c.issued == Interval(first, c.value)
            && max !in c.issued
            && forall i :: 0 <= i < |c.threads| && c.threads[i].Looping?
                ==> c.threads[i].lost <= c.value - c.threads[i].start
  {
    RunKeeps(Start(max, first, threads), actions);
    var c := Run(Start(max, first, threads), actions).value;
    forall i | 0 <= i < |c.threads| && c.threads[i].Looping? ensures c.threads[i].lost <= c.value - c.threads[i].start {
      assert ThreadOk(c, c.threads[i]);
    }
  }

  /** Once a call was refused, none is ever served again. */
  lemma {:induction false} ExhaustionIsPermanent(c: Counter, actions: seq<Action>)
    requires Inv(c) && c.exhausted && Run(c, actions).Some?
    ensures Run(c, actions).value.issued == c.issued && Run(c, actions).value.value == c.value
    decreases |actions|
  {
    if actions == [] {
    } else {
      StepKeeps(c, actions[0]);
      assert actions[0].Exchange? ==> Next(c.max, c.value).None?;
      ExhaustionIsPermanent(Step(c, actions[0]).value, actions[1..]);
    }
  }

  /** What happens between a call's read and its exchange: other calls take
      that many IDs, or as many as are left, and the exchange may fail for no
      reason. */
  datatype Meanwhile = Meanwhile(others: nat, spurious: bool)

  function Room(max: nat, value: nat, wanted: nat): (n: nat)
    ensures n > 0 ==> value + n < max
  {
    if value + wanted < max then wanted else if value + 1 < max then max - 1 - value else 0
  }

  /** The loop of one call against any interference: it takes the one ID that
      follows all IDs the others took meanwhile, and gives up exactly when
      nothing is left. */
  method CheckedIncrement(
      max: nat, counter: nat, schedule: seq<Meanwhile>)
    returns (r: Option<nat>, taken: nat, after: nat)
    ensures r.Some? ==> counter + taken < r.value == after < max && r.value !in Interval(counter, counter + taken)
    ensures r.None? ==> after == counter + taken && after + 1 >= max
    ensures after == counter + taken + if r.Some? then 1 else 0
  {
    var shared := counter;
    var current := shared;
    var i := 0;
    taken := 0;
    while true
      invariant i <= |schedule| && current == shared == counter + taken
      decreases |schedule| - i
    {
      var next := Next(max, current);
      if next.None? { return None, taken, shared; }
      var moved, spurious := 0, false;
      if i < |schedule| {
        moved, spurious := Room(max, shared, schedule[i].others), schedule[i].spurious;
      }
      shared := shared + moved;
      taken := taken + moved;
      if shared == current && !spurious { return next, taken, next.value; }
      current := shared;
      i := i + 1;
    }
  }
}
