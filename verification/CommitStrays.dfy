/** No listener runs that nobody could stop. */
module CommitStrays {
  import opened CommitResolvers
  import opened CommitState
  import opened CommitTun
  import opened Wrappers

  predicate Running(l: Listener) { l.phase.Starting? || l.phase.Live? }

  /** Somebody will stop listener `i`: it is stored, or awaited by the lane
      holder, or the startup task is still to decide about it. */
  predicate Owned(s: State, i: nat) {
    || s.tun.slot == Some(i)
    || (s.lane.Awaiting? && s.lane.id == i)
    || (i == BOOT && s.tun.startup.Pending? && !s.lane.RollingBack?)
  }

  ghost predicate NoStray(s: State) {
    forall i :: 0 <= i < |s.tun.listeners| && Running(s.tun.listeners[i]) ==> Owned(s, i)
  }

  /** The handler is dropped while it waits for a listener that runs. */
  predicate Strands(s: State, a: Action) {
    a.Cancel? && s.lane.Awaiting? && s.lane.id < |s.tun.listeners| && Running(s.tun.listeners[s.lane.id])
  }

  ghost predicate StraysKept(r: Option<State>) { forall s :: r == Some(s) ==> NoStray(s) }

  lemma {:induction false} BuildStrays(env: Env, s: State, a: Action)
    requires NoStray(s) && (a.Begin? || Builds(a) || Publishes(a))
    ensures StraysKept(Step(env, s, a))
  {
  }

  lemma {:induction false} ReconciledStrays(env: Env, s: State)
    requires Shape(s.tun) && NoStray(s)
    ensures StraysKept(Reconciled(env, s))
  {
  }

  lemma {:induction false} SpawnedStrays(env: Env, s: State)
    requires Shape(s.tun) && NoStray(s)
    ensures StraysKept(Spawned(env, s))
  {
  }

  lemma {:induction false} ReadyStrays(env: Env, s: State)
    requires TunOk(env, Slots, s) && NoStray(s)
    ensures StraysKept(ReadySeen(s)) && StraysKept(SpawnGivesUp(s))
  {
  }

  lemma {:induction false} SpawnStrays(env: Env, s: State, a: Action)
    requires TunInv(env, Slots, s) && NoStray(s) && Spawns(a)
    ensures StraysKept(Step(env, s, a))
  {
    ReconciledStrays(env, s);
    SpawnedStrays(env, s);
    ReadyStrays(env, s);
  }

  lemma {:induction false} BootStrays(env: Env, s: State)
    requires Shape(s.tun) && NoStray(s)
    ensures StraysKept(BootPublished(env, s)) && StraysKept(BootRolled(s))
  {
    assert ListenerOk(s.tun.listeners[BOOT]);
  }

  lemma {:induction false} CloseStrays(env: Env, s: State, a: Action)
    requires TunInv(env, Slots, s) && NoStray(s) && Closes(a) && !Strands(s, a)
    ensures StraysKept(Step(env, s, a))
  {
    BootStrays(env, s);
  }

  lemma {:induction false} QuietStrays(env: Env, s: State, a: Action)
    requires NoStray(s) && Quiet(a)
    ensures StraysKept(Step(env, s, a))
  {
  }

  lemma {:induction false} StepStrays(env: Env, s: State, a: Action)
    requires TunInv(env, Slots, s) && NoStray(s) && !Strands(s, a)
    ensures StraysKept(Step(env, s, a))
  {
    if Quiet(a) { QuietStrays(env, s, a); }
    else if Spawns(a) { SpawnStrays(env, s, a); }
    else if Closes(a) { CloseStrays(env, s, a); }
    else { BuildStrays(env, s, a); }
  }

  lemma {:induction false} StrandsShows(env: Env, s: State, a: Action)
    requires TunInv(env, Slots, s) && Strands(s, a)
    ensures Step(env, s, a).Some? && !NoStray(Step(env, s, a).value)
  {
    assert Step(env, s, a) == Cancelled(s);
    assert Running(Cancelled(s).value.tun.listeners[s.lane.id]);
  }

  ghost predicate NeverStrays(env: Env, s: State, actions: seq<Action>)
    decreases |actions|
  {
    NoStray(s) &&
    (actions != [] && Step(env, s, actions[0]).Some? ==> NeverStrays(env, Step(env, s, actions[0]).value, actions[1..]))
  }

  predicate NeverStrands(env: Env, s: State, actions: seq<Action>)
    decreases |actions|
  {
    actions == [] ||
    (!Strands(s, actions[0])
     && (Step(env, s, actions[0]).Some? ==> NeverStrands(env, Step(env, s, actions[0]).value, actions[1..])))
  }

  lemma {:induction false} StraysExactFrom(env: Env, s: State, actions: seq<Action>)
    requires TunInv(env, Slots, s) && NoStray(s)
    ensures NeverStrays(env, s, actions) <==> NeverStrands(env, s, actions)
    decreases |actions|
  {
    if actions == [] {
    } else if Strands(s, actions[0]) {
      StrandsShows(env, s, actions[0]);
    } else if Step(env, s, actions[0]).Some? {
      var s' := Step(env, s, actions[0]).value;
      StepStrays(env, s, actions[0]);
      assert Step(env, s, actions[0]) == Some(s');
      StepKeepsTun(env, Slots, s, actions[0]);
      StraysExactFrom(env, s', actions[1..]);
    }
  }

  /** Over every run, forced or not: at every point each listener that runs is
      the stored one, the awaited one or the undecided boot listener, if and
      only if no handler was dropped while the listener it waited for ran. */
  lemma {:induction false} StraysExact(env: Env, boot: State, actions: seq<Action>)
    requires Boot(env, boot)
    ensures NeverStrays(env, boot, actions) <==> NeverStrands(env, boot, actions)
  {
    BootIsTruthful(env, Slots, boot);
    StraysExactFrom(env, boot, actions);
  }

  // ---- what is started ----

  /** Every listener started after boot was to be on. */
  ghost predicate StartedOn(t: TunState) { forall i :: BOOT < i < |t.listeners| ==> t.listeners[i].cfg.enable }

  ghost predicate StartsKept(r: Option<State>) {
    forall s :: r == Some(s) ==> s.tun.listeners != [] && StartedOn(s.tun)
  }

  lemma {:induction false} LaneStarts(env: Env, s: State, a: Action)
    requires s.tun.listeners != [] && StartedOn(s.tun) && (a.Begin? || Builds(a) || Publishes(a))
    ensures StartsKept(Step(env, s, a))
  {
  }

  lemma {:induction false} SpawnStarts(env: Env, s: State)
    requires s.tun.listeners != [] && StartedOn(s.tun)
    ensures StartsKept(Spawned(env, s))
  {
  }

  lemma {:induction false} StopStarts(env: Env, s: State, a: Action)
    requires s.tun.listeners != [] && StartedOn(s.tun) && (a.Reconcile? || a.SpawnReady? || a.SpawnFails?)
    ensures StartsKept(Step(env, s, a))
  {
  }

  lemma {:induction false} OtherStarts(env: Env, s: State, a: Action)
    requires s.tun.listeners != [] && StartedOn(s.tun) && (Closes(a) || Quiet(a))
    ensures StartsKept(Step(env, s, a))
  {
  }

  /** Over every run: a section that parses but is off starts no listener. */
  lemma {:induction false} OnlyOnStarts(env: Env, s: State, actions: seq<Action>)
    requires s.tun.listeners != [] && StartedOn(s.tun) && Run(env, s, actions).Some?
    ensures StartedOn(Run(env, s, actions).value.tun)
    decreases |actions|
  {
    if actions == [] {
    } else {
      var a := actions[0];
      if a.Begin? || Builds(a) || Publishes(a) { LaneStarts(env, s, a); }
      else if a.Spawn? { SpawnStarts(env, s); }
      else if Spawns(a) { StopStarts(env, s, a); }
      else { OtherStarts(env, s, a); }
      assert Step(env, s, a) == Some(Step(env, s, a).value);
      OnlyOnStarts(env, Step(env, s, a).value, actions[1..]);
    }
  }
}
