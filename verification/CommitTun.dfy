/** TUN truthfulness: what the committed document says about the listener
    against what runs. */
module CommitTun {
  import opened Wrappers
  import opened CommitState
  import opened CommitResolvers

  /** The fake-IP inputs a listener captured, as far as it has. */
  predicate Clean(env: Env, l: Listener, a: Resolver, b: Resolver) {
    && (l.gateway.Some? ==>
          l.gateway.value == env.gateway(a.inputs.dns) || l.gateway.value == env.gateway(b.inputs.dns))
    && (l.network.Some? ==>
          l.network.value == env.network(a.inputs.dns) || l.network.value == env.network(b.inputs.dns))
  }

  /** The listener was built on the fake-IP inputs of `r`. */
  predicate Fresh(env: Env, l: Listener, r: Resolver) {
    l.gateway == Some(env.gateway(r.inputs.dns)) && l.network == Some(env.network(r.inputs.dns))
  }

  /** What is claimed. `Sections`: what runs is what the document asks for.
      `Listeners`: also that listeners have the resolver's fake-IP inputs, the
      boot listener only if it cannot be overtaken by them; of unforced runs.
      `Exact`: only that all listeners do, as long as no step makes one
      stale. `Slots`: only who may be stored. */
  datatype Mode = Sections | Listeners(calm: bool) | Exact | Slots

  predicate ForSections(mode: Mode) { mode.Sections? || mode.Listeners? }

  predicate ForInputs(mode: Mode) { mode.Listeners? || mode.Exact? }

  predicate ForBoot(mode: Mode) { mode.Exact? || IsCalm(mode) }

  predicate IsCalm(mode: Mode) { mode.Listeners? && mode.calm }

  predicate Claimed(mode: Mode, s: State) { mode.Listeners? ==> !s.forced }

  predicate StartupPending(t: TunState) { !t.startup.Settled? }

  /** Facts about the listeners alone: one network core at a time, and only
      behind the gate. */
  ghost predicate Shape(t: TunState) {
    && t.listeners != []
    && (forall i :: 0 <= i < |t.listeners| ==> ListenerOk(t.listeners[i]))
    && (forall i, j :: 0 <= i < j < |t.listeners| ==> !(CoreAlive(t.listeners[i]) && CoreAlive(t.listeners[j])))
    && (t.slot.Some? ==> t.slot.value < |t.listeners| && t.listeners[t.slot.value].ready)
    && (StartupPending(t) ==> t.slot != Some(BOOT))
    && (t.startup.Failed? ==> !t.listeners[BOOT].phase.Live? && !t.listeners[BOOT].phase.Starting?)
  }

  predicate ListenerOk(l: Listener) {
    && (CoreAlive(l) ==> l.ready)
    && (l.ready ==> l.gateway.Some? && l.network.Some? && !l.phase.Starting?)
    && (l.network.Some? ==> l.gateway.Some?)
  }

  /** The boot listener may still be offered to the document. */
  predicate Promising(t: TunState) {
    t.startup.Pending? && t.listeners != [] && (t.listeners[BOOT].ready || t.listeners[BOOT].phase.Starting?)
  }

  /** The document `raw` tells the truth about the listener when the resolver
      is `r`; `r'` is what a starting listener may meanwhile be reading.
      `mode` says what is claimed. */
  ghost predicate Truthful(env: Env, mode: Mode, t: TunState, raw: Raw, r: Resolver, r': Resolver)
    requires t.listeners != []
  {
    && (HasTun(t) ==>
          var l := t.listeners[t.slot.value];
          && (ForSections(mode) ==> Enabled(raw) && Parse(env, raw) == Some(l.cfg))
          && (ForInputs(mode) && (ForBoot(mode) || t.slot != Some(BOOT)) ==> Fresh(env, l, r)))
    && (ForSections(mode) && Enabled(raw) && !StartupPending(t) ==> t.slot.Some?)
    && (Enabled(raw) && Promising(t) && t.slot.None? ==>
          && (ForSections(mode) ==> Parse(env, raw) == Some(t.listeners[BOOT].cfg))
          && (IsCalm(mode) ==> Clean(env, t.listeners[BOOT], r, r')))
    && (IsCalm(mode) && StartupPending(t) && t.slot.Some? ==> HasTun(t))
  }

  /** Listener `id` is being started for `raw` under the resolver `r`. */
  ghost predicate Awaited(env: Env, mode: Mode, t: TunState, raw: Raw, r: Resolver, id: nat) {
    && t.slot.None? && BOOT < id < |t.listeners|
    && (ForSections(mode) ==> Enabled(raw) && Parse(env, raw) == Some(t.listeners[id].cfg))
    && (ForInputs(mode) ==> Clean(env, t.listeners[id], r, r))
    && (IsCalm(mode) && StartupPending(t) && t.listeners[id].ready ==> t.listeners[id].phase.Live?)
  }

  ghost predicate TunOk(env: Env, mode: Mode, s: State) {
    && Shape(s.tun)
    && match s.lane
       case Installing(_, _, _, _, prior, _) => Truthful(env, mode, s.tun, s.raw, prior, s.run.tunnel)
       case Swapping(_, _, _, _, prior) => Truthful(env, mode, s.tun, s.raw, prior, s.run.tunnel)
       case Writing(_, _, _, prior) => Truthful(env, mode, s.tun, s.raw, prior, s.run.tunnel)
       case Publishing(_, before, _, prior) => Truthful(env, mode, s.tun, before, prior, s.run.tunnel)
       case Reconciling(_, before, _, prior) => Truthful(env, mode, s.tun, before, prior, s.run.tunnel)
       case Spawning(_, _) => s.tun.slot.None? && (ForSections(mode) ==> Enabled(s.raw))
       case Awaiting(_, _, id) => Awaited(env, mode, s.tun, s.raw, s.run.tunnel, id)
       case _ => Truthful(env, mode, s.tun, s.raw, s.run.tunnel, s.run.tunnel)
  }

  // ---- steps that can break a claim ----

  /** The handler that published the document owed the listener nothing: what
      runs is what the new section asks for, and a section it turned on has
      a handle already or a startup to wait for. */
  predicate NothingLeft(env: Env, s: State, before: Raw) {
    && (HasTun(s.tun) ==> Enabled(s.raw) && Parse(env, s.raw) == Parse(env, before))
    && (Enabled(s.raw) && !Enabled(before) ==> StartupPending(s.tun) || s.tun.slot.Some?)
  }

  /** A handler dropped here leaves the section true for the moment. */
  predicate CutHarmless(env: Env, s: State) {
    match s.lane
    case Publishing(_, before, _, _) => NothingLeft(env, s, before)
    case Reconciling(_, before, _, _) => NothingLeft(env, s, before)
    case Spawning(_, _) => StartupPending(s.tun)
    case Awaiting(_, _, _) => StartupPending(s.tun)
    case _ => true
  }

  /** The boot listener, if it is to fill the empty slot, is the one the
      section asks for. */
  predicate BootFits(env: Env, raw: Raw, t: TunState) {
    Enabled(raw) && t.slot.None? && Promising(t) ==> Parse(env, raw) == Some(t.listeners[BOOT].cfg)
  }

  /** A handler dropped here leaves the section true for good. */
  predicate SafeCut(env: Env, s: State) {
    CutHarmless(env, s) && (PastWrite(s.lane) ==> BootFits(env, s.raw, s.tun))
  }

  predicate PastWrite(lane: Lane) { lane.Publishing? || lane.Reconciling? || lane.Spawning? || lane.Awaiting? }

  /** The lane holder is about to leave a running listener alone although the
      fake-IP inputs changed: it is dropped, or it skips the reconcile, or the
      section is off before and after. */
  predicate StaleLeave(env: Env, s: State, a: Action) {
    HasTun(s.tun) &&
    match s.lane
    case Publishing(job, _, _, prior) =>
      !SameFake(env, prior, s.run.tunnel) && (a.Cancel? || (a.DnsPublished? && SkipsReconcile(job)))
    case Reconciling(_, before, _, prior) =>
      !SameFake(env, prior, s.run.tunnel) && (a.Cancel? || (a.Reconcile? && !Enabled(before) && !Enabled(s.raw)))
    case _ => false
  }

  /** The startup task is about to store a boot listener that runs what the
      document asks for, on fake-IP inputs that have changed since. */
  predicate StalePublish(env: Env, s: State, a: Action) {
    && a.BootPublish? && s.lane == Free && s.tun.startup.Pending? && s.tun.listeners != []
    && var l := s.tun.listeners[BOOT];
       l.ready && l.phase.Live? && Enabled(s.raw) && Parse(env, s.raw) == Some(l.cfg) && !Fresh(env, l, s.run.tunnel)
  }

  /** The boot listener can be overtaken by changed inputs: while startup is
      pending another listener goes away by itself, or a handler is dropped
      that left the slot to a boot listener with other inputs. */
  predicate Disturbs(env: Env, s: State, a: Action) {
    || (&& a.Exit? && a.id != BOOT && a.id < |s.tun.listeners| && s.tun.listeners[a.id].phase.Live?
        && StartupPending(s.tun))
    || (&& a.Cancel? && PastWrite(s.lane) && Enabled(s.raw) && s.tun.slot.None? && Promising(s.tun)
        && !Clean(env, s.tun.listeners[BOOT], s.run.tunnel, s.run.tunnel))
  }

  predicate Allowed(env: Env, mode: Mode, s: State, a: Action) {
    match mode
    case Sections => a.Cancel? ==> SafeCut(env, s)
    case Listeners(calm) =>
      s.forced || ((a.Cancel? ==> SafeCut(env, s) && !StaleLeave(env, s, a)) && (calm ==> !Disturbs(env, s, a)))
    case Exact => !StalePublish(env, s, a) && !StaleLeave(env, s, a)
    case Slots => true
  }

  /** Where the tunnel's resolver comes from during a commit; a patch brings
      none. */
  predicate TunnelOk(s: State) {
    match s.lane
    case Building(job, _) => !job.Patch?
    case Parsing(job, _, _) => !job.Patch?
    case Installing(job, _, _, res, prior, stage) => !job.Patch? && s.run.tunnel == if stage > 0 then res else prior
    case Swapping(job, _, _, dns, prior) => !job.Patch? && s.run.tunnel == Either(dns, prior)
    case Writing(job, _, dns, prior) => (job.Patch? ==> dns.None?) && s.run.tunnel == Either(dns, prior)
    case Publishing(job, _, dns, prior) => (job.Patch? ==> dns.None?) && s.run.tunnel == Either(dns, prior)
    case Reconciling(job, _, dns, prior) => (job.Patch? ==> dns.None?) && s.run.tunnel == Either(dns, prior)
    case _ => true
  }

  function Either(dns: Option<Resolver>, prior: Resolver): Resolver { if dns.Some? then dns.value else prior }

  ghost predicate ListenersOk(env: Env, mode: Mode, s: State) {
    TunnelOk(s) && (Claimed(mode, s) ==> TunOk(env, mode, s) && JobKeepsTun(env, s))
  }

  ghost predicate TunInv(env: Env, mode: Mode, s: State) {
    ResolverInv(env, s) && ListenersOk(env, mode, s)
  }

  /** Candidates that skip the TUN reconcile leave its inputs alone. */
  ghost predicate JobKeepsTun(env: Env, s: State) {
    match s.lane
    case Building(job, cand) => SkipsReconcile(job) ==> SameTun(s.raw, cand)
    case Parsing(job, cand, _) => SkipsReconcile(job) ==> SameTun(s.raw, cand)
    case Installing(job, cand, _, _, _, _) => SkipsReconcile(job) ==> SameTun(s.raw, cand)
    case Swapping(job, cand, _, _, _) => SkipsReconcile(job) ==> SameTun(s.raw, cand)
    case Writing(job, cand, _, _) => SkipsReconcile(job) ==> SameTun(s.raw, cand)
    case Publishing(job, before, _, _) => SkipsReconcile(job) ==> SameTun(before, s.raw)
    case _ => true
  }

  predicate SameTun(a: Raw, b: Raw) { a.tun == b.tun && a.maxConnections == b.maxConnections && a.dns == b.dns }

  /** What a step must keep: none of its results is a bad state. */
  ghost predicate Goal(env: Env, mode: Mode, r: Option<State>) {
    forall s :: r == Some(s) && Claimed(mode, s) ==> TunOk(env, mode, s) && JobKeepsTun(env, s)
  }

  ghost predicate TunnelKept(r: Option<State>) { forall s :: r == Some(s) ==> TunnelOk(s) }

  lemma {:induction false} BuildTunnel(env: Env, s: State, a: Action)
    requires TunnelOk(s) && (a.Begin? || Builds(a))
    ensures TunnelKept(Step(env, s, a))
  {
  }

  lemma {:induction false} PublishTunnel(env: Env, s: State, a: Action)
    requires ResolverInv(env, s) && TunnelOk(s) && Publishes(a)
    ensures TunnelKept(Step(env, s, a))
  {
  }

  lemma {:induction false} CloseTunnel(env: Env, s: State, a: Action)
    requires TunnelOk(s) && (Spawns(a) || Closes(a))
    ensures TunnelKept(Step(env, s, a))
  {
  }

  lemma {:induction false} StepTunnel(env: Env, s: State, a: Action)
    requires ResolverInv(env, s) && TunnelOk(s)
    ensures TunnelKept(Step(env, s, a))
  {
    if a.Begin? || Builds(a) { BuildTunnel(env, s, a); }
    else if Publishes(a) { PublishTunnel(env, s, a); }
    else if Spawns(a) || Closes(a) { CloseTunnel(env, s, a); }
    else if Step(env, s, a).Some? { QuietFrame(env, s, a); }
  }

  lemma {:induction false} SkipsAreSame(env: Env, job: Job, raw: Raw)
    requires SkipsReconcile(job) && Candidate(env, job, raw).Some?
    ensures SameTun(raw, Candidate(env, job, raw).value)
  {
  }

  lemma {:induction false} StampIsSame(raw: Raw, name: Doc, now: int)
    ensures SameTun(raw, Stamped(raw, name, now))
  {
  }

  /** How a mutation enters a free lane, as far as TUN is concerned. */
  predicate EntersAs(s: State, s': State) {
    && s'.tun == s.tun && s'.run == s.run && s'.forced == s.forced
    && match s'.lane
       case Free => SameTun(s.raw, s'.raw)
       case Finishing(_, _) => s'.raw == s.raw
       case Writing(job, _, _, prior) => s'.raw == s.raw && prior == s.run.tunnel && !SkipsReconcile(job)
       case Building(job, cand) => s'.raw == s.raw && (SkipsReconcile(job) ==> SameTun(s.raw, cand))
       case _ => false
  }

  lemma {:induction false} BegunEnters(env: Env, s: State, job: Job, bound: Option<Doc>)
    requires Begun(env, s, job, bound).Some?
    ensures s.lane == Free && EntersAs(s, Begun(env, s, job, bound).value)
  {
    if SkipsReconcile(job) && Candidate(env, job, s.raw).Some? { SkipsAreSame(env, job, s.raw); }
    if job.Stamp? { StampIsSame(s.raw, job.name, job.now); }
  }

  lemma {:induction false} EntersTruth(env: Env, mode: Mode, s: State, s': State)
    requires ListenersOk(env, mode, s) && s.lane == Free && EntersAs(s, s')
    ensures Claimed(mode, s') ==> TunOk(env, mode, s') && JobKeepsTun(env, s')
  {
  }

  lemma {:induction false} BegunTruth(env: Env, mode: Mode, s: State, job: Job, bound: Option<Doc>)
    requires ListenersOk(env, mode, s)
    ensures Goal(env, mode, Begun(env, s, job, bound))
  {
    if Begun(env, s, job, bound).Some? {
      BegunEnters(env, s, job, bound);
      EntersTruth(env, mode, s, Begun(env, s, job, bound).value);
    }
  }

  lemma {:induction false} RebuiltTruth(env: Env, mode: Mode, s: State, ok: bool)
    requires ListenersOk(env, mode, s)
    ensures Goal(env, mode, AfterRebuild(env, s, ok))
  {
  }

  lemma {:induction false} ForcedParseTruth(env: Env, mode: Mode, s: State, stripped: bool)
    requires ListenersOk(env, mode, s) && s.lane.Parsing? && s.lane.job.ForcedPut?
    ensures Goal(env, mode, Some(ForcedParse(env, s, s.lane.job, s.lane.cand, s.lane.gen, stripped)))
  {
  }

  lemma {:induction false} GeoParsedTruth(env: Env, mode: Mode, s: State, ok: bool, stripped: bool)
    requires ListenersOk(env, mode, s) && s.lane.Parsing? && s.lane.job.GeoTick?
    ensures Goal(env, mode, AfterParse(env, s, ok, stripped))
  {
  }

  lemma {:induction false} ParsedTruth(env: Env, mode: Mode, s: State, ok: bool, stripped: bool)
    requires ListenersOk(env, mode, s)
    ensures Goal(env, mode, AfterParse(env, s, ok, stripped))
  {
    if s.lane.Parsing? {
      if s.lane.job.GeoTick? { GeoParsedTruth(env, mode, s, ok, stripped); }
      else if s.lane.job.ForcedPut? { ForcedParseTruth(env, mode, s, stripped); }
    }
  }

  lemma {:induction false} PublishedTruth(env: Env, mode: Mode, s: State)
    requires ListenersOk(env, mode, s)
    ensures Goal(env, mode, Published(env, s))
  {
  }

  lemma {:induction false} DnsUpTruth(env: Env, mode: Mode, s: State, up: bool)
    requires TunInv(env, mode, s) && Allowed(env, mode, s, DnsPublished(up))
    ensures Goal(env, mode, DnsUp(env, s, up))
  {
  }

  /** The listener already running is the one the new document asks for. */
  lemma {:induction false} NothingOwed(
      env: Env, mode: Mode, t: TunState, before: Raw, raw: Raw, prior: Resolver, r: Resolver)
    requires Shape(t) && Truthful(env, mode, t, before, prior, r) && Enabled(before) == Enabled(raw)
    requires Enabled(before) ==> (ForInputs(mode) ==> SameFake(env, prior, r)) && !TunChanged(env, before, raw)
    requires !Enabled(before) && HasTun(t) ==> (ForInputs(mode) ==> SameFake(env, prior, r))
    ensures Truthful(env, mode, t, raw, r, r)
  {
  }

  lemma {:induction false} StopShape(t: TunState)
    requires Shape(t)
    ensures Shape(Stopped(t)) && Stopped(t).slot.None? && Stopped(t).startup == t.startup
  {
  }

  lemma {:induction false} ReconciledTruth(env: Env, mode: Mode, s: State)
    requires TunInv(env, mode, s) && Allowed(env, mode, s, Reconcile)
    ensures Goal(env, mode, Reconciled(env, s))
  {
    if s.lane.Reconciling? && Claimed(mode, s) {
      StopShape(s.tun);
      if Enabled(s.lane.before) == Enabled(s.raw) { KeptOrRestarted(env, mode, s); }
      else { SwitchedTruth(env, mode, s); }
    }
  }

  lemma {:induction false} KeptTruth(env: Env, mode: Mode, s: State, job: Job, before: Raw)
    requires Shape(s.tun) && Truthful(env, mode, s.tun, s.raw, s.run.tunnel, s.run.tunnel)
    ensures Goal(env, mode, Some(Done(s, job, before)))
  {
  }

  lemma {:induction false} RestartTruth(env: Env, mode: Mode, s: State, job: Job, before: Raw)
    requires Shape(Stopped(s.tun)) && Stopped(s.tun).slot.None? && Enabled(s.raw)
    ensures Goal(env, mode, Some(s.(tun := Stopped(s.tun), lane := Spawning(job, before))))
  {
  }

  lemma {:induction false} KeptOrRestarted(env: Env, mode: Mode, s: State)
    requires TunInv(env, mode, s) && Allowed(env, mode, s, Reconcile) && s.lane.Reconciling? && Claimed(mode, s)
    requires Enabled(s.lane.before) == Enabled(s.raw) && Shape(Stopped(s.tun)) && Stopped(s.tun).slot.None?
    ensures Goal(env, mode, Reconciled(env, s))
  {
    var (job, before, prior) := (s.lane.job, s.lane.before, s.lane.prior);
    if Enabled(before) ==> (ForInputs(mode) ==> SameFake(env, prior, s.run.tunnel)) && !TunChanged(env, before, s.raw) {
      assert !Enabled(before) && HasTun(s.tun) && ForInputs(mode) ==> SameFake(env, prior, s.run.tunnel);
      NothingOwed(env, mode, s.tun, before, s.raw, prior, s.run.tunnel);
      KeptTruth(env, mode, s, job, before);
    }
    if Enabled(before) { RestartTruth(env, mode, s, job, before); }
  }

  lemma {:induction false} SwitchedTruth(env: Env, mode: Mode, s: State)
    requires ListenersOk(env, mode, s) && s.lane.Reconciling? && Claimed(mode, s)
    requires Enabled(s.lane.before) != Enabled(s.raw) && Shape(Stopped(s.tun)) && Stopped(s.tun).slot.None?
    ensures Goal(env, mode, Reconciled(env, s))
  {
  }

  lemma {:induction false} SpawnedTruth(env: Env, mode: Mode, s: State)
    requires ListenersOk(env, mode, s)
    ensures Goal(env, mode, Spawned(env, s))
  {
  }

  lemma {:induction false} ReadyTruth(env: Env, mode: Mode, s: State)
    requires ListenersOk(env, mode, s)
    ensures Goal(env, mode, ReadySeen(s))
  {
  }

  lemma {:induction false} GivesUpTruth(env: Env, mode: Mode, s: State)
    requires ListenersOk(env, mode, s)
    ensures Goal(env, mode, SpawnGivesUp(s))
  {
  }

  /** One listener moves on: it may capture from `r`, come up or go away. */
  ghost predicate Moves(env: Env, mode: Mode, t: TunState, t': TunState, i: nat, r: Resolver) {
    && i < |t.listeners| && t'.slot == t.slot && t'.startup == t.startup
    && |t'.listeners| == |t.listeners| && t' == t.(listeners := t.listeners[i := t'.listeners[i]])
    && var l, l' := t.listeners[i], t'.listeners[i];
       && l'.cfg == l.cfg && ListenerOk(l')
       && (l'.gateway == l.gateway || (!l.ready && l'.gateway == Some(env.gateway(r.inputs.dns))))
       && (l'.network == l.network || (!l.ready && l'.network == Some(env.network(r.inputs.dns))))
       && (l.ready ==> l'.ready && (l'.phase.Live? ==> l.phase.Live?))
       && (l'.ready || l'.phase.Starting? ==> l.ready || l.phase.Starting?)
       && (CoreAlive(l') ==> CoreAlive(l) || forall j :: 0 <= j < |t.listeners| ==> !CoreAlive(t.listeners[j]))
       && (IsCalm(mode) && StartupPending(t) && i != BOOT ==>
             (l.phase.Live? ==> l'.phase.Live?) && (!l.ready && l'.ready ==> l'.phase.Live?))
       && (t.startup.Failed? && i == BOOT ==> !l'.phase.Live? && !l'.phase.Starting?)
  }

  lemma {:induction false} ListenerMoves(env: Env, mode: Mode, s: State, a: Action)
    requires Shape(s.tun) && Allowed(env, mode, s, a) && Claimed(mode, s)
    requires a.CaptureGateway? || a.CaptureNetwork? || a.PassGate? || a.Exit? || a.CoreDone?
    requires ListenerStep(env, s, a).Some?
    ensures Moves(env, mode, s.tun, ListenerStep(env, s, a).value.tun, a.id, s.run.tunnel)
  {
    assert ListenerOk(s.tun.listeners[a.id]);
  }

  /** Whatever a lane position needs of the listeners is true of `t'` too. */
  ghost predicate Carries(env: Env, mode: Mode, t: TunState, t': TunState, r': Resolver) {
    && Shape(t) && Shape(t') && (t.slot.None? ==> t'.slot.None?)
    && (forall raw, r :: Truthful(env, mode, t, raw, r, r') ==> Truthful(env, mode, t', raw, r, r'))
    && (forall raw, id :: Awaited(env, mode, t, raw, r', id) ==> Awaited(env, mode, t', raw, r', id))
  }

  lemma {:induction false} CarryTruth(env: Env, mode: Mode, s: State, t': TunState)
    requires ListenersOk(env, mode, s) && (Claimed(mode, s) ==> Carries(env, mode, s.tun, t', s.run.tunnel))
    ensures Goal(env, mode, Some(s.(tun := t')))
  {
  }

  lemma {:induction false} MoveCarries(env: Env, mode: Mode, t: TunState, t': TunState, i: nat, r': Resolver)
    requires Shape(t) && Moves(env, mode, t, t', i, r')
    ensures Carries(env, mode, t, t', r')
  {
  }

  lemma {:induction false} ListenerTruth(env: Env, mode: Mode, s: State, a: Action)
    requires ListenersOk(env, mode, s) && Allowed(env, mode, s, a)
    requires a.CaptureGateway? || a.CaptureNetwork? || a.PassGate? || a.Exit? || a.CoreDone?
    ensures Goal(env, mode, ListenerStep(env, s, a))
  {
    if ListenerStep(env, s, a).Some? && Claimed(mode, s) {
      var t' := ListenerStep(env, s, a).value.tun;
      ListenerMoves(env, mode, s, a);
      MoveCarries(env, mode, s.tun, t', a.id, s.run.tunnel);
      CarryTruth(env, mode, s, t');
    }
  }

  lemma {:induction false} OwnInstallTruth(env: Env, mode: Mode, s: State, i: nat, iface: Doc)
    requires ListenersOk(env, mode, s)
    ensures Goal(env, mode, OwnInstalled(s, i, iface))
  {
  }

  lemma {:induction false} FailureCarries(env: Env, mode: Mode, t: TunState, r': Resolver)
    requires Shape(t) && t.startup.Pending?
    ensures Carries(env, mode, t, Abort(t, BOOT).(startup := Failed), r')
  {
  }

  lemma {:induction false} BootFailsTruth(env: Env, mode: Mode, s: State)
    requires ListenersOk(env, mode, s)
    ensures Goal(env, mode, BootFails(s))
  {
    if BootFails(s).Some? && Claimed(mode, s) {
      FailureCarries(env, mode, s.tun, s.run.tunnel);
      CarryTruth(env, mode, s, BootFails(s).value.tun);
    }
  }

  lemma {:induction false} BootRolledTruth(env: Env, mode: Mode, s: State)
    requires ListenersOk(env, mode, s)
    ensures Goal(env, mode, BootRolled(s))
  {
  }

  /** The boot listener is not what the document asks for. */
  lemma {:induction false} BootRefused(env: Env, mode: Mode, t: TunState, raw: Raw, r: Resolver)
    requires Shape(t) && Truthful(env, mode, t, raw, r, r) && t.startup.Pending? && t.listeners[BOOT].ready
    requires !(Enabled(raw) && Parse(env, raw) == Some(t.listeners[BOOT].cfg))
    ensures var t' := Abort(t, BOOT).(startup := Settled); Shape(t') && Truthful(env, mode, t', raw, r, r)
  {
  }

  /** It is, and runs. */
  lemma {:induction false} BootAccepted(env: Env, mode: Mode, t: TunState, raw: Raw, r: Resolver)
    requires Shape(t) && Truthful(env, mode, t, raw, r, r) && t.startup.Pending?
    requires Enabled(raw) && Parse(env, raw) == Some(t.listeners[BOOT].cfg)
    requires t.listeners[BOOT].ready && t.listeners[BOOT].phase.Live?
    requires mode.Exact? ==> Fresh(env, t.listeners[BOOT], r)
    ensures var t' := Stored(t, BOOT).(startup := Settled); Shape(t') && Truthful(env, mode, t', raw, r, r)
  {
    assert ListenerOk(t.listeners[BOOT]);
    StopShape(t);
  }

  lemma {:induction false} BootPublishedTruth(env: Env, mode: Mode, s: State)
    requires ListenersOk(env, mode, s) && Allowed(env, mode, s, BootPublish)
    ensures Goal(env, mode, BootPublished(env, s))
  {
    if BootPublished(env, s).Some? && Claimed(mode, s) {
      var l := s.tun.listeners[BOOT];
      if !(Enabled(s.raw) && Parse(env, s.raw) == Some(l.cfg)) {
        BootRefused(env, mode, s.tun, s.raw, s.run.tunnel);
      } else if l.phase.Live? {
        BootAccepted(env, mode, s.tun, s.raw, s.run.tunnel);
      }
    }
  }

  lemma {:induction false} FinishTruth(env: Env, mode: Mode, s: State, ok: bool)
    requires ListenersOk(env, mode, s)
    ensures Goal(env, mode, Finished(env, s, ok))
  {
  }

  lemma {:induction false} CancelTruth(env: Env, mode: Mode, s: State)
    requires TunInv(env, mode, s) && Allowed(env, mode, s, Cancel)
    ensures Goal(env, mode, Cancelled(s))
  {
  }

  lemma {:induction false} StepKeepsTun(env: Env, mode: Mode, s: State, a: Action)
    requires TunInv(env, mode, s) && Step(env, s, a).Some? && Allowed(env, mode, s, a)
    ensures TunInv(env, mode, Step(env, s, a).value)
  {
    StepKeepsResolvers(env, s, a);
    StepTunnel(env, s, a);
    StepTruth(env, mode, s, a);
    assert Step(env, s, a) == Some(Step(env, s, a).value);
  }

  lemma {:induction false} StepTruth(env: Env, mode: Mode, s: State, a: Action)
    requires TunInv(env, mode, s) && Allowed(env, mode, s, a)
    ensures Goal(env, mode, Step(env, s, a))
  {
    if a.Begin? { BegunTruth(env, mode, s, a.job, a.bound); }
    else if Builds(a) || Publishes(a) { BuildTruth(env, mode, s, a); }
    else if Spawns(a) { SpawnTruth(env, mode, s, a); }
    else if Closes(a) { CloseTruth(env, mode, s, a); }
    else if a.BootGivesUp? { BootFailsTruth(env, mode, s); }
    else if a.InstallOwn? { OwnInstallTruth(env, mode, s, a.id, a.iface); }
    else { ListenerTruth(env, mode, s, a); }
  }

  lemma {:induction false} BuildTruth(env: Env, mode: Mode, s: State, a: Action)
    requires TunInv(env, mode, s) && Allowed(env, mode, s, a) && (Builds(a) || Publishes(a))
    ensures Goal(env, mode, Step(env, s, a))
  {
    match a {
      case Rebuilt(ok) => RebuiltTruth(env, mode, s, ok);
      case Parsed(ok, stripped) => ParsedTruth(env, mode, s, ok, stripped);
      case Publication => PublishedTruth(env, mode, s);
      case DnsPublished(up) => DnsUpTruth(env, mode, s, up);
    }
  }

  lemma {:induction false} SpawnTruth(env: Env, mode: Mode, s: State, a: Action)
    requires TunInv(env, mode, s) && Allowed(env, mode, s, a) && Spawns(a)
    ensures Goal(env, mode, Step(env, s, a))
  {
    match a {
      case Reconcile => ReconciledTruth(env, mode, s);
      case Spawn => SpawnedTruth(env, mode, s);
      case SpawnReady => ReadyTruth(env, mode, s);
      case SpawnFails => GivesUpTruth(env, mode, s);
    }
  }

  lemma {:induction false} CloseTruth(env: Env, mode: Mode, s: State, a: Action)
    requires TunInv(env, mode, s) && Allowed(env, mode, s, a) && Closes(a)
    ensures Goal(env, mode, Step(env, s, a))
  {
    match a {
      case Finish(ok) => FinishTruth(env, mode, s, ok);
      case Cancel => CancelTruth(env, mode, s);
      case BootPublish => BootPublishedTruth(env, mode, s);
      case BootRollsBack => BootRolledTruth(env, mode, s);
    }
  }

  /** Every step of the run is one the mode allows. */
  predicate AllAllowed(env: Env, mode: Mode, s: State, actions: seq<Action>)
    decreases |actions|
  {
    actions == [] ||
    (Allowed(env, mode, s, actions[0])
     && (Step(env, s, actions[0]).Some? ==> AllAllowed(env, mode, Step(env, s, actions[0]).value, actions[1..])))
  }

  /** Every handler the run drops is one that can be. */
  predicate CutsSafe(env: Env, s: State, actions: seq<Action>) { AllAllowed(env, Sections, s, actions) }

  /** And none leaves a running listener with changed inputs; `calm` adds that
      the boot listener is never overtaken. */
  predicate CutsKeepInputs(env: Env, s: State, actions: seq<Action>, calm: bool) {
    AllAllowed(env, Listeners(calm), s, actions)
  }

  /** Nothing makes a listener stale. */
  predicate NeverStale(env: Env, s: State, actions: seq<Action>) { AllAllowed(env, Exact, s, actions) }

  lemma {:induction false} RunKeepsTun(env: Env, mode: Mode, s: State, actions: seq<Action>)
    requires TunInv(env, mode, s) && Run(env, s, actions).Some? && AllAllowed(env, mode, s, actions)
    ensures TunInv(env, mode, Run(env, s, actions).value)
    decreases |actions|
  {
    if actions == [] {
    } else {
      StepKeepsTun(env, mode, s, actions[0]);
      RunKeepsTun(env, mode, Step(env, s, actions[0]).value, actions[1..]);
    }
  }

  /** The document and the slot agree: a stored listener that runs is enabled
      and was built from the committed section, and an enabled section has a
      handle stored once startup is over. */
  predicate SectionTruth(env: Env, s: State) {
    && (HasTun(s.tun) ==> Enabled(s.raw) && Parse(env, s.raw) == Some(s.tun.listeners[s.tun.slot.value].cfg))
    && (Enabled(s.raw) && !StartupPending(s.tun) ==> s.tun.slot.Some?)
  }

  /** The running listener uses the live resolver's fake-IP inputs. */
  predicate FakeIpTruth(env: Env, s: State) {
    HasTun(s.tun) ==> Fresh(env, s.tun.listeners[s.tun.slot.value], s.run.tunnel)
  }

  lemma {:induction false} BootIsTruthful(env: Env, mode: Mode, boot: State)
    requires Boot(env, boot)
    ensures TunInv(env, mode, boot)
  {
  }

  lemma {:induction false} FromBoot(env: Env, mode: Mode, boot: State, actions: seq<Action>)
    requires Boot(env, boot) && Run(env, boot, actions).Some? && AllAllowed(env, mode, boot, actions)
    ensures TunInv(env, mode, Run(env, boot, actions).value)
  {
    BootIsTruthful(env, mode, boot);
    RunKeepsTun(env, mode, boot, actions);
  }

  /** At every lane-free point of every run, forced or not, whose dropped
      handlers could be dropped, the section tells the truth; and in unforced
      runs the fake-IP inputs do, as far as no handler was dropped over a
      change of them and the boot listener was not overtaken. */
  lemma {:induction false} TunTruthfulness(env: Env, boot: State, actions: seq<Action>)
    requires Boot(env, boot) && Run(env, boot, actions).Some? && Run(env, boot, actions).value.lane == Free
    ensures CutsSafe(env, boot, actions) ==> SectionTruth(env, Run(env, boot, actions).value)
    ensures var s := Run(env, boot, actions).value;
            && (!s.forced && CutsKeepInputs(env, boot, actions, false) && s.tun.slot != Some(BOOT) ==>
                  FakeIpTruth(env, s))
            && (!s.forced && CutsKeepInputs(env, boot, actions, true) ==> FakeIpTruth(env, s))
  {
    if CutsSafe(env, boot, actions) { FromBoot(env, Sections, boot, actions); }
    if CutsKeepInputs(env, boot, actions, false) { FromBoot(env, Listeners(false), boot, actions); }
    if CutsKeepInputs(env, boot, actions, true) { FromBoot(env, Listeners(true), boot, actions); }
  }

  // ---- exactly when the fake-IP inputs stay true ----

  predicate FakeIpHere(env: Env, s: State) { s.lane == Free ==> FakeIpTruth(env, s) }

  /** Every lane-free point of the run has the right fake-IP inputs. */
  predicate FakeIpAlways(env: Env, s: State, actions: seq<Action>)
    decreases |actions|
  {
    FakeIpHere(env, s) &&
    (actions != [] && Step(env, s, actions[0]).Some? ==>
       FakeIpAlways(env, Step(env, s, actions[0]).value, actions[1..]))
  }

  /** The step is possible and shows. */
  ghost predicate Shows(env: Env, r: Option<State>) { r.Some? && !FakeIpHere(env, r.value) }

  lemma {:induction false} StalePublishShows(env: Env, s: State)
    requires ListenersOk(env, Exact, s) && StalePublish(env, s, BootPublish)
    ensures Shows(env, BootPublished(env, s))
  {
  }

  lemma {:induction false} StaleLeaveShows(env: Env, s: State, a: Action)
    requires ListenersOk(env, Exact, s) && StaleLeave(env, s, a)
    ensures Shows(env, Step(env, s, a))
  {
    match a {
      case Cancel => assert Step(env, s, a) == Cancelled(s);
      case DnsPublished(up) => assert Step(env, s, a) == DnsUp(env, s, up);
      case Reconcile => assert Step(env, s, a) == Reconciled(env, s);
    }
  }

  /** Over every run, forced, cut or not: the fake-IP inputs are right at every
      lane-free point if and only if no publication of the boot listener
      stores outdated ones and no lane holder leaves a running listener alone
      over a change of them. */
  lemma {:induction false} FakeIpExact(env: Env, s: State, actions: seq<Action>)
    requires TunInv(env, Exact, s)
    ensures FakeIpAlways(env, s, actions) <==> NeverStale(env, s, actions)
    decreases |actions|
  {
    if actions == [] {
    } else if StalePublish(env, s, actions[0]) {
      StalePublishShows(env, s);
    } else if StaleLeave(env, s, actions[0]) {
      StaleLeaveShows(env, s, actions[0]);
    } else if Step(env, s, actions[0]).Some? {
      StepKeepsTun(env, Exact, s, actions[0]);
      FakeIpExact(env, Step(env, s, actions[0]).value, actions[1..]);
    }
  }

  lemma {:induction false} FakeIpExactFromBoot(env: Env, boot: State, actions: seq<Action>)
    requires Boot(env, boot)
    ensures FakeIpAlways(env, boot, actions) <==> NeverStale(env, boot, actions)
  {
    BootIsTruthful(env, Exact, boot);
    FakeIpExact(env, boot, actions);
  }
}
