/** The shared sampler of the traffic and memory feeds: started by the first
    subscriber, stopped after the last one, with the exit re-checked under
    the lock that guards the slot. */
module SamplerFeed {
  import opened Wrappers

  /** A sampler task: not spawned yet, sampling, on its way out after seeing
      no receiver, or gone. */
  datatype Sampler = Spawning | Running | Leaving | Exited

  datatype Channel = Channel(receivers: nat, sampler: Sampler)

  datatype Feed = Feed(channels: seq<Channel>, slot: Option<nat>)

  datatype Action =
    | Subscribe
    | Spawned(id: nat)
    | Tick(id: nat)
    | Recheck(id: nat)
    | Disconnect(id: nat)

  function With(f: Feed, i: nat, c: Channel): Feed
    requires i < |f.channels|
  {
    f.(channels := f.channels[i := c])
  }

  /** Under the lock: join the channel in the slot, or open one. Returns the
      channel joined. */
  function Subscribed(f: Feed): (r: (Feed, nat)) {
    match f.slot
    case Some(i) =>
      if i < |f.channels|
      then (With(f, i, f.channels[i].(receivers := f.channels[i].receivers + 1)), i)
      else (f, i)
    case None => (Feed(f.channels + [Channel(1, Spawning)], Some(|f.channels|)), |f.channels|)
  }

  function Step(f: Feed, a: Action): Option<Feed> {
    if a.Subscribe? then Some(Subscribed(f).0)
    else if a.id >= |f.channels| then None
    else
      var i, c := a.id, f.channels[a.id];
      match a
      case Spawned(_) => if c.sampler.Spawning? then Some(With(f, i, c.(sampler := Running))) else None
      case Tick(_) =>
        if !c.sampler.Running? then None
        else if c.receivers == 0 then Some(With(f, i, c.(sampler := Leaving)))
        else Some(f)
      case Recheck(_) =>
        if !c.sampler.Leaving? then None
        else if c.receivers == 0 then Some(With(f, i, c.(sampler := Exited)).(slot := None))
        else Some(With(f, i, c.(sampler := Running)))
      case Disconnect(_) => if c.receivers > 0 then Some(With(f, i, c.(receivers := c.receivers - 1))) else None
  }

  function Run(f: Feed, actions: seq<Action>): Option<Feed>
    decreases |actions|
  {
    if actions == [] then Some(f)
    else match Step(f, actions[0]) case Some(f') => Run(f', actions[1..]) case None => None
  }

  /** A channel outside the slot has neither a sampler nor a receiver. */
  ghost predicate Inv(f: Feed) {
    && (f.slot.Some? ==> f.slot.value < |f.channels| && !f.channels[f.slot.value].sampler.Exited?)
    && forall i :: 0 <= i < |f.channels| && f.slot != Some(i) ==> f.channels[i] == Channel(0, Exited)
  }

  lemma {:induction false} StepKeeps(f: Feed, a: Action)
    requires Inv(f) && Step(f, a).Some?
    ensures Inv(Step(f, a).value)
  {
  }

  lemma {:induction false} RunKeeps(f: Feed, actions: seq<Action>)
    requires Inv(f) && Run(f, actions).Some?
    ensures Inv(Run(f, actions).value)
    decreases |actions|
  {
    if actions == [] {
    } else {
      StepKeeps(f, actions[0]);
      RunKeeps(Step(f, actions[0]).value, actions[1..]);
    }
  }

  /** Over every interleaving of subscribers, disconnects, ticks and exits:
      a channel with a receiver is the one in the slot and its sampler is
      running or about to; at most one sampler exists; a new subscriber joins
      a channel whose sampler has not exited. */
  lemma {:induction false} FeedSafety(actions: seq<Action>)
    requires Run(Feed([], None), actions).Some?
    ensures var f := Run(Feed([], None), actions).value;
            && (forall i :: 0 <= i < |f.channels| && f.channels[i].receivers > 0 ==>
                  f.slot == Some(i) && !f.channels[i].sampler.Exited?)
            && (forall i, j :: 0 <= i < j < |f.channels| ==>
                  f.channels[i].sampler.Exited? || f.channels[j].sampler.Exited?)
            && var (f', i) := Subscribed(f);
               i < |f'.channels| && f'.slot == Some(i) && f'.channels[i].receivers > 0
                   && !f'.channels[i].sampler.Exited?
  {
    RunKeeps(Feed([], None), actions);
  }

  /** A running sampler leaves by its two looks if nobody listens, and then
      the next subscriber opens a new channel; it goes on if somebody does, or
      joins between the looks. */
  lemma {:induction false} StopsWithTheLast(f: Feed, i: nat)
    requires Inv(f) && f.slot == Some(i) && f.channels[i].sampler.Running?
    ensures if f.channels[i].receivers > 0 then Step(f, Tick(i)) == Some(f)
            else
              match Step(f, Tick(i))
              case None => false
              case Some(f') =>
                && Step(f', Recheck(i)) == Some(Feed(f.channels[i := Channel(0, Exited)], None))
                && Step(Subscribed(f').0, Recheck(i)) == Some(Feed(f.channels[i := Channel(1, Running)], Some(i)))
  {
    var left, joined := f.channels[i := Channel(0, Leaving)], Channel(1, Running);
    assert left[i := Channel(0, Exited)] == f.channels[i := Channel(0, Exited)];
    assert left[i := Channel(1, Leaving)][i := joined] == f.channels[i := joined];
  }

  /** Who listens to the channel in the slot; no other has a receiver. */
  function Listening(f: Feed): nat {
    if f.slot.Some? && f.slot.value < |f.channels| then f.channels[f.slot.value].receivers else 0
  }

  function Subscriptions(actions: seq<Action>): nat {
    if actions == [] then 0 else (if actions[0].Subscribe? then 1 else 0) + Subscriptions(actions[1..])
  }

  function Disconnects(actions: seq<Action>): nat {
    if actions == [] then 0 else (if actions[0].Disconnect? then 1 else 0) + Disconnects(actions[1..])
  }

  lemma {:induction false} StepCounts(f: Feed, a: Action)
    requires Inv(f) && Step(f, a).Some?
    ensures Listening(Step(f, a).value) + (if a.Disconnect? then 1 else 0)
         == Listening(f) + (if a.Subscribe? then 1 else 0)
  {
  }

  /** Every subscriber is counted until it disconnects, whatever samplers come
      and go. */
  lemma {:induction false} SubscribersConserved(f: Feed, actions: seq<Action>)
    requires Inv(f) && Run(f, actions).Some?
    ensures Listening(Run(f, actions).value) + Disconnects(actions) == Listening(f) + Subscriptions(actions)
    decreases |actions|
  {
    if actions == [] {
    } else {
      StepKeeps(f, actions[0]);
      StepCounts(f, actions[0]);
      SubscribersConserved(Step(f, actions[0]).value, actions[1..]);
    }
  }

  /** Leaving on the first look, without the second one under the lock. */
  function HastyExit(f: Feed, i: nat): Feed
    requires i < |f.channels|
  {
    With(f, i, f.channels[i].(sampler := Exited)).(slot := None)
  }

  /** Why the second look is needed: a subscriber between the two would be
      left on a channel nobody samples. */
  lemma {:induction false} HastyExitStrands()
    ensures var run := Run(Feed([], None), [Subscribe, Spawned(0), Disconnect(0), Tick(0), Subscribe]);
            run.Some? && |run.value.channels| == 1
            && HastyExit(run.value, 0).channels[0] == Channel(1, Exited) && HastyExit(run.value, 0).slot == None
  {
    var f1 := Step(Feed([], None), Subscribe).value;
    assert f1.channels == [Channel(1, Spawning)];
    var f2 := Step(f1, Spawned(0)).value;
    var f3 := Step(f2, Disconnect(0)).value;
    var f4 := Step(f3, Tick(0)).value;
    assert f4.channels == [Channel(0, Leaving)];
    var f5 := Step(f4, Subscribe).value;
    assert Run(f5, []) == Some(f5) && Run(f4, [Subscribe]) == Run(f5, [Subscribe][1..]);
    assert Run(f3, [Tick(0), Subscribe]) == Run(f4, [Tick(0), Subscribe][1..]);
    assert Run(f2, [Disconnect(0), Tick(0), Subscribe]) == Run(f3, [Disconnect(0), Tick(0), Subscribe][1..]);
    assert [Spawned(0), Disconnect(0), Tick(0), Subscribe][1..] == [Disconnect(0), Tick(0), Subscribe];
    assert Run(f1, [Spawned(0), Disconnect(0), Tick(0), Subscribe]) == Run(f2, [Disconnect(0), Tick(0), Subscribe]);
    assert [Subscribe, Spawned(0), Disconnect(0), Tick(0), Subscribe][1..]
        == [Spawned(0), Disconnect(0), Tick(0), Subscribe];
  }
}
