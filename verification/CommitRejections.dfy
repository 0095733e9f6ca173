/** Rejected mutations leave no trace, and no mutation leaves its binding
    behind. */
module CommitRejections {
  import opened CommitState
  import opened Sequences
  import opened Wrappers

  /** The lane is held and nothing is published yet. */
  predicate Unpublished(lane: Lane) { lane.Building? || lane.Parsing? }

  /** Everything a mutation may publish, but for the binding. */
  predicate SamePublic(a: State, b: State) {
    && a.raw == b.raw && a.tun.slot == b.tun.slot && a.run.geo == b.run.geo
    && a.run.routes == b.run.routes && a.run.tunnel == b.run.tunnel && a.run.hook == b.run.hook
    && a.run.dns == b.run.dns
    && a.run.ruleProviders == b.run.ruleProviders && a.run.proxyProviders == b.run.proxyProviders
  }

  /** The bindings of `a` are still there, and only listeners added more. */
  predicate OwnAdded(a: seq<Install>, b: seq<Install>) {
    a <= b && forall k :: |a| <= k < |b| ==> b[k].guard.InListener?
  }

  /** No binding is held by the lane. */
  predicate NoneInLane(installs: seq<Install>) { forall k :: 0 <= k < |installs| ==> installs[k].guard.InListener? }

  lemma {:induction false} DroppedNone(installs: seq<Install>)
    ensures NoneInLane(Dropped(installs))
    ensures NoneInLane(installs) ==> Dropped(installs) == installs
  {
    var p := (install: Install) => install.guard.InListener?;
    FilterElements(installs, p);
    forall k | 0 <= k < |Dropped(installs)| ensures Dropped(installs)[k].guard.InListener? {
      assert Dropped(installs)[k] in Filter(installs, p);
    }
    if NoneInLane(installs) { FilterAll(installs, p); }
  }

  lemma {:induction false} DroppedParts(a: seq<Install>, mine: seq<Install>, late: seq<Install>)
    requires NoneInLane(a) && NoneInLane(late) && |mine| <= 1 && (mine != [] ==> mine[0].guard.InLane?)
    ensures Dropped(a + (mine + late)) == a + late
  {
    var p := (install: Install) => install.guard.InListener?;
    FilterConcat(a, mine + late, p);
    FilterConcat(mine, late, p);
    DroppedNone(a);
    DroppedNone(late);
    if mine != [] { assert mine[..0] == []; }
    assert Filter(mine, p) == [];
  }

  /** Dropping the mutation's binding leaves what was there before it. */
  lemma {:induction false} DropRestores(a: seq<Install>, bound: Option<Doc>, b: seq<Install>)
    requires NoneInLane(a) && OwnAdded(Installed(a, bound), b)
    ensures OwnAdded(a, Dropped(b))
  {
    var mine: seq<Install> := if bound.Some? then [Install(bound.value, InLane)] else [];
    var late := b[|a| + |mine|..];
    assert Installed(a, bound) == a + mine;
    assert b == a + (mine + late) by { assert b[..|a| + |mine|] == a + mine; }
    assert NoneInLane(late);
    DroppedParts(a, mine, late);
  }

  lemma {:induction false} ReleasedNone(env: Env, s: State, a: Action)
    requires Step(env, s, a).Some? && !Quiet(a) && Step(env, s, a).value.lane == Free
    ensures Step(env, s, a).value.installs == Dropped(s.installs)
  {
    if a.Begin? { BegunDrops(env, s, a.job, a.bound); }
    else if Builds(a) || Publishes(a) { BuildDrops(env, s, a); }
    else if Spawns(a) { SpawnDrops(env, s, a); }
    else { CloseDrops(env, s, a); }
  }

  lemma {:induction false} BegunDrops(env: Env, s: State, job: Job, bound: Option<Doc>)
    requires Begun(env, s, job, bound).Some? && Begun(env, s, job, bound).value.lane == Free
    ensures Begun(env, s, job, bound).value.installs == Dropped(s.installs)
  {
  }

  lemma {:induction false} BuildDrops(env: Env, s: State, a: Action)
    requires Step(env, s, a).Some? && (Builds(a) || Publishes(a)) && Step(env, s, a).value.lane == Free
    ensures Step(env, s, a).value.installs == Dropped(s.installs)
  {
  }

  lemma {:induction false} SpawnDrops(env: Env, s: State, a: Action)
    requires Step(env, s, a).Some? && Spawns(a) && Step(env, s, a).value.lane == Free
    ensures Step(env, s, a).value.installs == Dropped(s.installs)
  {
  }

  lemma {:induction false} CloseDrops(env: Env, s: State, a: Action)
    requires Step(env, s, a).Some? && Closes(a) && Step(env, s, a).value.lane == Free
    ensures Step(env, s, a).value.installs == Dropped(s.installs)
  {
  }

  lemma {:induction false} StepGuards(env: Env, s: State, a: Action)
    requires (s.lane == Free ==> NoneInLane(s.installs)) && Step(env, s, a).Some?
    ensures Step(env, s, a).value.lane == Free ==> NoneInLane(Step(env, s, a).value.installs)
  {
    if Quiet(a) {
      QuietFrame(env, s, a);
      QuietInstalls(env, s, a);
    } else if Step(env, s, a).value.lane == Free {
      ReleasedNone(env, s, a);
      DroppedNone(s.installs);
    }
  }

  lemma {:induction false} QuietInstalls(env: Env, s: State, a: Action)
    requires Quiet(a) && Step(env, s, a).Some?
    ensures OwnAdded(s.installs, Step(env, s, a).value.installs)
  {
  }

  /** Over every run, cut, forced or rolled back: no mutation leaves its
      binding behind. */
  lemma {:induction false} GuardsDropped(env: Env, s: State, actions: seq<Action>)
    requires (s.lane == Free ==> NoneInLane(s.installs)) && Run(env, s, actions).Some?
    ensures var s' := Run(env, s, actions).value; s'.lane == Free ==> NoneInLane(s'.installs)
    decreases |actions|
  {
    if actions == [] {
    } else {
      StepGuards(env, s, actions[0]);
      GuardsDropped(env, Step(env, s, actions[0]).value, actions[1..]);
    }
  }

  /** `actions` leads from `s` to `after`, and the lane is held at every
      point in between. */
  predicate HeldUntil(env: Env, s: State, actions: seq<Action>, after: State)
    decreases |actions|
  {
    && actions != []
    && match Step(env, s, actions[0])
       case None => false
       case Some(s') =>
         if |actions| == 1 then s' == after else s'.lane != Free && HeldUntil(env, s', actions[1..], after)
  }

  lemma {:induction false} HeldKeepsLog(env: Env, s: State, a: Action)
    requires Step(env, s, a).Some? && s.lane != Free && !s.lane.RollingBack? && Step(env, s, a).value.lane != Free
    ensures Step(env, s, a).value.log == s.log && !Step(env, s, a).value.lane.RollingBack?
  {
  }

  /** Nothing goes back to being unpublished. */
  lemma {:induction false} OtherNotUnpublished(env: Env, s: State, a: Action)
    requires Step(env, s, a).Some? && s.lane != Free && !Quiet(a) && !Builds(a)
    ensures !Unpublished(Step(env, s, a).value.lane)
  {
    if Publishes(a) { PublishesOn(env, s, a); } else { LeavesOrSpawns(env, s, a); }
  }

  lemma {:induction false} PublishesOn(env: Env, s: State, a: Action)
    requires Step(env, s, a).Some? && Publishes(a)
    ensures !Unpublished(Step(env, s, a).value.lane)
  {
  }

  lemma {:induction false} LeavesOrSpawns(env: Env, s: State, a: Action)
    requires Step(env, s, a).Some? && s.lane != Free && (a.Begin? || Spawns(a) || Closes(a))
    ensures !Unpublished(Step(env, s, a).value.lane)
  {
  }

  lemma {:induction false} UnpublishedStep(env: Env, s: State, a: Action)
    requires Step(env, s, a).Some? && s.lane != Free && Unpublished(Step(env, s, a).value.lane)
    ensures SamePublic(s, Step(env, s, a).value) && Unpublished(s.lane) && Step(env, s, a).value.lane.job == s.lane.job
    ensures OwnAdded(s.installs, Step(env, s, a).value.installs)
  {
    if Quiet(a) { QuietFrame(env, s, a); QuietInstalls(env, s, a); }
    else if Builds(a) { UnpublishedBuild(env, s, a); }
    else { OtherNotUnpublished(env, s, a); }
  }

  lemma {:induction false} UnpublishedBuild(env: Env, s: State, a: Action)
    requires Step(env, s, a).Some? && Unpublished(Step(env, s, a).value.lane) && Builds(a)
    ensures Unpublished(s.lane) && SamePublic(s, Step(env, s, a).value) && Step(env, s, a).value.lane.job == s.lane.job
    ensures s.installs == Step(env, s, a).value.installs
  {
    if a.Rebuilt? { RebuiltUnpublished(env, s, a.ok); } else { ParsedPublishes(env, s, a.ok, a.stripped); }
  }

  lemma {:induction false} RebuiltUnpublished(env: Env, s: State, ok: bool)
    requires AfterRebuild(env, s, ok).Some? && Unpublished(AfterRebuild(env, s, ok).value.lane)
    ensures var s' := AfterRebuild(env, s, ok).value;
            Unpublished(s.lane) && SamePublic(s, s') && s'.lane.job == s.lane.job && s.installs == s'.installs
  {
  }

  lemma {:induction false} ParsedPublishes(env: Env, s: State, ok: bool, stripped: bool)
    requires AfterParse(env, s, ok, stripped).Some?
    ensures !Unpublished(AfterParse(env, s, ok, stripped).value.lane)
  {
  }

  lemma {:induction false} RejectingStep(env: Env, s: State, a: Action, job: Job)
    requires Step(env, s, a).Some? && Unpublished(s.lane) && Step(env, s, a).value.log == s.log + [Entry(job, Rejected)]
    ensures Step(env, s, a).value == Refuse(s, s.lane.job)
  {
    var e := Step(env, s, a).value.log[|s.log|];
    assert e.outcome == Rejected;
  }

  /** Nothing can be rejected once the first consumer has been switched. */
  lemma {:induction false} NoLateRejection(env: Env, s: State, a: Action, job: Job)
    requires Step(env, s, a).Some? && Step(env, s, a).value.log == s.log + [Entry(job, Rejected)]
    ensures s.lane == Free || Unpublished(s.lane) || s.lane.RollingBack?
  {
    assert s.log + [Entry(job, Rejected)] != s.log;
    var e := Step(env, s, a).value.log[|s.log|];
    assert e.outcome == Rejected;
  }

  /** A held mutation that ends rejected was never published: it is refused
      from a state that differs only by what listeners did. */
  lemma {:induction false} HeldRejection(
      env: Env, s: State, actions: seq<Action>, after: State, job: Job)
    returns (held: State)
    requires s.lane != Free && !s.lane.RollingBack? && HeldUntil(env, s, actions, after)
    requires after.log == s.log + [Entry(job, Rejected)]
    ensures Unpublished(s.lane) && SamePublic(s, held) && OwnAdded(s.installs, held.installs)
    ensures after == Refuse(held, s.lane.job)
    decreases |actions|
  {
    var s' := Step(env, s, actions[0]).value;
    if |actions| == 1 {
      NoLateRejection(env, s, actions[0], job);
      RejectingStep(env, s, actions[0], job);
      held := s;
    } else {
      HeldKeepsLog(env, s, actions[0]);
      held := HeldRejection(env, s', actions[1..], after, job);
      UnpublishedStep(env, s, actions[0]);
    }
  }

  lemma {:induction false} RejectedFrom(
      env: Env, s: State, job: Job, bound: Option<Doc>, actions: seq<Action>, after: State)
    requires s.lane == Free && NoneInLane(s.installs)
    requires HeldUntil(env, s, [Begin(job, bound)] + actions, after) && after.log == s.log + [Entry(job, Rejected)]
    ensures SamePublic(s, after.(raw := s.raw)) && OwnAdded(s.installs, after.installs)
    ensures after.raw
         == if job.LoopRefresh? && Candidate(env, job, s.raw).Some? then Stamped(s.raw, job.name, job.now) else s.raw
  {
    var begun := Begun(env, s, job, bound).value;
    assert ([Begin(job, bound)] + actions)[1..] == actions;
    if actions == [] {
      RejectedAtOnce(env, s, job, bound);
    } else {
      BegunHeld(env, s, job, bound);
      var held := HeldRejection(env, begun, actions, after, job);
      BegunUnpublished(env, s, job, bound);
      DropRestores(s.installs, bound, held.installs);
    }
  }

  lemma {:induction false} RejectedAtOnce(env: Env, s: State, job: Job, bound: Option<Doc>)
    requires s.lane == Free && NoneInLane(s.installs) && Begun(env, s, job, bound).Some?
    requires Begun(env, s, job, bound).value.log == s.log + [Entry(job, Rejected)]
    ensures Begun(env, s, job, bound).value == Release(s, job, Rejected) && Dropped(s.installs) == s.installs
    ensures Candidate(env, job, s.raw).None?
  {
    var e := Begun(env, s, job, bound).value.log[|s.log|];
    assert e.outcome == Rejected;
    DroppedNone(s.installs);
  }

  lemma {:induction false} BegunHeld(env: Env, s: State, job: Job, bound: Option<Doc>)
    requires Begun(env, s, job, bound).Some? && Begun(env, s, job, bound).value.lane != Free
    ensures Begun(env, s, job, bound).value.log == s.log && !Begun(env, s, job, bound).value.lane.RollingBack?
  {
  }

  lemma {:induction false} BegunUnpublished(env: Env, s: State, job: Job, bound: Option<Doc>)
    requires Begun(env, s, job, bound).Some? && Unpublished(Begun(env, s, job, bound).value.lane)
    ensures var begun := Begun(env, s, job, bound).value;
            && SamePublic(s, begun) && begun.lane.job == job && begun.installs == Installed(s.installs, bound)
            && Candidate(env, job, s.raw).Some?
  {
  }

  /** In every run, a mutation that ends rejected, at once or after any number
      of steps of its own and of others, leaves the document, the routes, all
      resolver consumers, both provider registries and the TUN slot as it
      found them, and of the bindings all that were there. Only the
      background refresh leaves its stamp. */
  lemma {:induction false} RejectionChangesNothing(
      env: Env, boot: State, before: seq<Action>, s: State, job: Job, bound: Option<Doc>, actions: seq<Action>,
      after: State)
    requires Boot(env, boot) && Run(env, boot, before) == Some(s) && s.lane == Free
    requires HeldUntil(env, s, [Begin(job, bound)] + actions, after) && after.log == s.log + [Entry(job, Rejected)]
    ensures SamePublic(s, after.(raw := s.raw)) && OwnAdded(s.installs, after.installs)
    ensures after.raw
         == if job.LoopRefresh? && Candidate(env, job, s.raw).Some? then Stamped(s.raw, job.name, job.now) else s.raw
  {
    GuardsDropped(env, boot, before);
    RejectedFrom(env, s, job, bound, actions, after);
  }

  // ---- the interface in effect ----

  /** A listener goes away, or installs a binding of its own. */
  predicate Stirs(a: Action) { a.Exit? || a.InstallOwn? || a.BootGivesUp? }

  predicate Undisturbed(actions: seq<Action>) { forall i :: 0 <= i < |actions| ==> !Stirs(actions[i]) }

  /** The same listeners hold their bindings. */
  ghost predicate SameGuards(t: TunState, t': TunState) { forall g :: GuardAlive(t, g) == GuardAlive(t', g) }

  lemma {:induction false} SteadyStep(env: Env, s: State, a: Action)
    requires Step(env, s, a).Some? && Unpublished(s.lane) && !Stirs(a)
    ensures SameGuards(s.tun, Step(env, s, a).value.tun)
    ensures Step(env, s, a).value.lane != Free ==> Step(env, s, a).value.installs == s.installs
    ensures Step(env, s, a).value.lane == Free ==> Step(env, s, a).value.installs == Dropped(s.installs)
  {
    if Quiet(a) {
      QuietFrame(env, s, a);
      SteadyListener(env, s, a);
    } else {
      SteadyLane(env, s, a);
      if Step(env, s, a).value.lane == Free { ReleasedNone(env, s, a); }
    }
  }

  lemma {:induction false} SteadyListener(env: Env, s: State, a: Action)
    requires Step(env, s, a).Some? && Quiet(a) && !Stirs(a)
    ensures SameGuards(s.tun, Step(env, s, a).value.tun) && Step(env, s, a).value.installs == s.installs
  {
  }

  lemma {:induction false} SteadyLane(env: Env, s: State, a: Action)
    requires Step(env, s, a).Some? && !Quiet(a) && Unpublished(s.lane)
    ensures Step(env, s, a).value.tun == s.tun
    ensures Step(env, s, a).value.lane != Free ==> Step(env, s, a).value.installs == s.installs
  {
  }

  lemma {:induction false} HeldSteady(env: Env, s: State, actions: seq<Action>, after: State, job: Job)
    requires s.lane != Free && !s.lane.RollingBack? && HeldUntil(env, s, actions, after) && Undisturbed(actions)
    requires after.log == s.log + [Entry(job, Rejected)]
    ensures SameGuards(s.tun, after.tun) && after.installs == Dropped(s.installs)
    decreases |actions|
  {
    var held := HeldRejection(env, s, actions, after, job);
    SteadyStep(env, s, actions[0]);
    if |actions| == 1 {
    } else {
      HeldKeepsLog(env, s, actions[0]);
      HeldSteady(env, Step(env, s, actions[0]).value, actions[1..], after, job);
    }
  }

  /** The interface in effect depends only on who still holds a binding. */
  lemma {:induction false} EffectiveSame(installs: seq<Install>, t: TunState, t': TunState)
    requires SameGuards(t, t')
    ensures Effective(installs, t) == Effective(installs, t')
  {
    if installs == [] {
    } else {
      EffectiveSame(installs[..|installs| - 1], t, t');
    }
  }

  lemma {:induction false} SteadyFrom(
      env: Env, s: State, job: Job, bound: Option<Doc>, actions: seq<Action>, after: State)
    requires s.lane == Free && NoneInLane(s.installs) && Undisturbed(actions)
    requires HeldUntil(env, s, [Begin(job, bound)] + actions, after) && after.log == s.log + [Entry(job, Rejected)]
    ensures after.installs == s.installs && SameGuards(s.tun, after.tun)
  {
    var begun := Begun(env, s, job, bound).value;
    assert ([Begin(job, bound)] + actions)[1..] == actions;
    if actions == [] {
      RejectedAtOnce(env, s, job, bound);
    } else {
      BegunHeld(env, s, job, bound);
      HeldSteady(env, begun, actions, after, job);
      var held := HeldRejection(env, begun, actions, after, job);
      BegunUnpublished(env, s, job, bound);
      BegunTun(env, s, job, bound);
      InstalledDrops(s.installs, bound);
    }
  }

  lemma {:induction false} BegunTun(env: Env, s: State, job: Job, bound: Option<Doc>)
    requires Begun(env, s, job, bound).Some?
    ensures Begun(env, s, job, bound).value.tun == s.tun
  {
  }

  lemma {:induction false} InstalledDrops(a: seq<Install>, bound: Option<Doc>)
    requires NoneInLane(a)
    ensures Dropped(Installed(a, bound)) == a
  {
    var mine: seq<Install> := if bound.Some? then [Install(bound.value, InLane)] else [];
    assert Installed(a, bound) == a + (mine + []);
    DroppedParts(a, mine, []);
    assert a + [] == a;
  }

  /** In every run, a mutation that ends rejected gives the interface in effect
      back as it found it, whatever binding it had installed, unless a listener
      went away or installed one of its own meanwhile. */
  lemma {:induction false} RejectionRestoresBinding(
      env: Env, boot: State, before: seq<Action>, s: State, job: Job, bound: Option<Doc>, actions: seq<Action>,
      after: State)
    requires Boot(env, boot) && Run(env, boot, before) == Some(s) && s.lane == Free
    requires HeldUntil(env, s, [Begin(job, bound)] + actions, after) && after.log == s.log + [Entry(job, Rejected)]
    requires Undisturbed(actions)
    ensures after.installs == s.installs && Effective(after.installs, after.tun) == Effective(s.installs, s.tun)
  {
    GuardsDropped(env, boot, before);
    SteadyFrom(env, s, job, bound, actions, after);
    EffectiveSame(s.installs, s.tun, after.tun);
  }

  // ---- a geodata tick whose parse fails ----

  lemma {:induction false} KeptStep(env: Env, s: State, a: Action)
    requires Step(env, s, a).Some? && Step(env, s, a).value.run.geo.kept != s.run.geo.kept
    ensures s.lane.Parsing? && s.lane.job.GeoTick? && Step(env, s, a).value.lane == Free
    ensures var geo := s.run.geo;
            Step(env, s, a).value.run == s.run.(geo := geo.(rules := geo.rules + 1, kept := geo.kept + 1))
    ensures Step(env, s, a).value.raw == s.raw && Step(env, s, a).value.tun == s.tun
  {
    if Quiet(a) { QuietFrame(env, s, a); }
    else if Builds(a) { }
    else if Publishes(a) { PublishKeepsKept(env, s, a); }
    else { OtherKeepsKept(env, s, a); }
  }

  lemma {:induction false} PublishKeepsKept(env: Env, s: State, a: Action)
    requires Step(env, s, a).Some? && Publishes(a)
    ensures Step(env, s, a).value.run.geo.kept == s.run.geo.kept
  {
  }

  lemma {:induction false} OtherKeepsKept(env: Env, s: State, a: Action)
    requires Step(env, s, a).Some? && (a.Begin? || Spawns(a) || Closes(a))
    ensures Step(env, s, a).value.run.geo.kept == s.run.geo.kept
  {
  }

  /** The last step is the failed parse, so nothing was published before. */
  lemma {:induction false} HeldTick(env: Env, s: State, actions: seq<Action>, after: State) returns (held: State)
    requires s.lane != Free && HeldUntil(env, s, actions, after) && after.run.geo.kept != s.run.geo.kept
    ensures Unpublished(s.lane) && SamePublic(s, held) && held.lane.Parsing?
    ensures after.run == held.run.(geo := held.run.geo.(rules := held.run.geo.rules + 1, kept := held.run.geo.kept + 1))
    ensures after.raw == held.raw && after.tun == held.tun
    decreases |actions|
  {
    if |actions| == 1 {
      KeptStep(env, s, actions[0]);
      held := s;
    } else {
      var s' := Step(env, s, actions[0]).value;
      if s'.run.geo.kept != s.run.geo.kept { KeptStep(env, s, actions[0]); }
      held := HeldTick(env, s', actions[1..], after);
      UnpublishedStep(env, s, actions[0]);
    }
  }

  /** A geodata tick, from any state and whatever listeners do meanwhile, whose
      parse fails: the tunnel, the host hook and the DNS server keep their
      resolver, and routes, registries, document and slot stay; only the rules
      are replaced. */
  lemma {:induction false} FailedTickKeepsResolver(
      env: Env, s: State, bound: Option<Doc>, actions: seq<Action>, after: State)
    requires HeldUntil(env, s, [Begin(GeoTick, bound)] + actions, after) && after.run.geo.kept != s.run.geo.kept
    ensures SamePublic(s, after.(run := after.run.(geo := s.run.geo)))
    ensures after.run.geo == s.run.geo.(rules := s.run.geo.rules + 1, kept := s.run.geo.kept + 1)
  {
    var begun := Begun(env, s, GeoTick, bound).value;
    assert ([Begin(GeoTick, bound)] + actions)[1..] == actions;
    assert begun.run == s.run && begun.lane == Building(GeoTick, s.raw);
    var held := HeldTick(env, begun, actions, after);
    BegunUnpublished(env, s, GeoTick, bound);
  }
}
