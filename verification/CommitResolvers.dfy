/** Resolver consumers and registry generations over every run. */
module CommitResolvers {
  import opened Wrappers
  import opened CommitState

  /** Consumer `c` serves `r`, or nothing. */
  predicate Serves(c: Option<Resolver>, r: Resolver) { c.Some? ==> c.value == r }

  /** The runtime belongs to `raw`: one resolver everywhere, the host hook
      set exactly if DNS is enabled, built from its compared inputs, bound to
      the live generation if it has references. */
  predicate Matched(env: Env, run: Runtime, raw: Raw) {
    && run.tunnel.inputs == InputsOf(env, raw)
    && run.hook == Hook(env, run.tunnel) && Serves(run.dns, run.tunnel)
    && (Refs(env, run.tunnel) ==> run.tunnel.gen == run.routes)
  }

  /** While the consumers are being switched from `prior` to `res`. */
  predicate Switching(
      env: Env, run: Runtime, raw: Raw, cand: Raw, gen: nat, res: Resolver, prior: Resolver, stage: nat) {
    && res == Resolver(InputsOf(env, cand), gen)
    && prior.inputs == InputsOf(env, raw) && (Refs(env, prior) ==> prior.gen == run.routes)
    && run.tunnel == (if stage > 0 then res else prior)
    && run.hook == Hook(env, if stage > 1 then res else prior)
    && Serves(run.dns, if stage > 2 then res else prior)
  }

  ghost predicate RuntimeOk(env: Env, s: State) {
    match s.lane
    case Installing(_, cand, gen, res, prior, stage) =>
      stage < 3 && Switching(env, s.run, s.raw, cand, gen, res, prior, stage)
    case Swapping(_, cand, gen, Some(res), prior) => Switching(env, s.run, s.raw, cand, gen, res, prior, 3)
    case Swapping(_, cand, gen, None, prior) =>
      Matched(env, s.run, s.raw) && prior == s.run.tunnel && Unchanged(env, s.raw, cand)
    case Writing(_, cand, dns, prior) =>
      && Matched(env, s.run, cand) && prior.inputs == InputsOf(env, s.raw)
      && (match dns case Some(r) => r == s.run.tunnel case None => prior == s.run.tunnel)
    case Publishing(_, before, dns, prior) =>
      && Matched(env, s.run, s.raw) && prior.inputs == InputsOf(env, before)
      && (match dns case Some(r) => r == s.run.tunnel case None => prior == s.run.tunnel)
    case Reconciling(_, before, dns, prior) =>
      && Matched(env, s.run, s.raw) && prior.inputs == InputsOf(env, before)
      && (match dns case Some(r) => r == s.run.tunnel case None => prior == s.run.tunnel)
    case _ => Matched(env, s.run, s.raw)
  }

  /** The candidates that may skip the DNS reconcile keep its inputs. */
  ghost predicate JobOk(env: Env, s: State) {
    match s.lane
    case Building(job, cand) => job.GeoTick? ==> cand == s.raw
    case Parsing(job, cand, gen) => job.GeoTick? ==> cand == s.raw && gen == s.run.routes
    case Installing(job, cand, gen, _, _, _) => job.GeoTick? ==> cand == s.raw && gen == s.run.routes
    case Swapping(job, cand, gen, _, _) => job.GeoTick? ==> cand == s.raw && gen == s.run.routes
    case _ => true
  }

  ghost predicate ResolverInv(env: Env, s: State) { !s.forced ==> RuntimeOk(env, s) && JobOk(env, s) }

  /** The generation the lane holder keeps alive besides the route table's. */
  function InFlight(lane: Lane): Option<nat> {
    match lane
    case Parsing(_, _, gen) => Some(gen)
    case Installing(_, _, gen, _, _, _) => Some(gen)
    case Swapping(_, _, gen, _, _) => Some(gen)
    case _ => None
  }

  predicate Alive(env: Env, s: State, c: Option<Resolver>) {
    c.Some? && Refs(env, c.value) ==> c.value.gen == s.run.routes || Some(c.value.gen) == InFlight(s.lane)
  }

  /** No consumer holds a `#name` resolver of a dropped generation. */
  predicate GenerationsAlive(env: Env, s: State) {
    Alive(env, s, Some(s.run.tunnel)) && Alive(env, s, s.run.hook) && Alive(env, s, s.run.dns)
  }

  lemma {:induction false} InvKeepsAlive(env: Env, s: State)
    requires ResolverInv(env, s) && !s.forced
    ensures GenerationsAlive(env, s)
  {
  }

  /** No result of the step breaks the invariant. */
  ghost predicate Kept(env: Env, r: Option<State>) { forall s :: r == Some(s) ==> ResolverInv(env, s) }

  lemma {:induction false} BegunKeeps(env: Env, s: State, job: Job, bound: Option<Doc>)
    requires ResolverInv(env, s)
    ensures Kept(env, Begun(env, s, job, bound))
  {
  }

  lemma {:induction false} RebuiltKeeps(env: Env, s: State, ok: bool)
    requires ResolverInv(env, s)
    ensures Kept(env, AfterRebuild(env, s, ok))
  {
  }

  lemma {:induction false} ParsedKeeps(env: Env, s: State, ok: bool, stripped: bool)
    requires ResolverInv(env, s)
    ensures Kept(env, AfterParse(env, s, ok, stripped))
  {
  }

  lemma {:induction false} InstalledKeeps(env: Env, s: State)
    requires ResolverInv(env, s) && s.lane.Installing?
    ensures Kept(env, Published(env, s))
  {
  }

  lemma {:induction false} PublishedKeeps(env: Env, s: State)
    requires ResolverInv(env, s)
    ensures Kept(env, Published(env, s))
  {
    if s.lane.Installing? { InstalledKeeps(env, s); }
  }

  lemma {:induction false} DnsUpKeeps(env: Env, s: State, up: bool)
    requires ResolverInv(env, s)
    ensures Kept(env, DnsUp(env, s, up))
  {
  }

  lemma {:induction false} ReconciledKeeps(env: Env, s: State)
    requires ResolverInv(env, s)
    ensures Kept(env, Reconciled(env, s))
  {
  }

  lemma {:induction false} SpawnKeeps(env: Env, s: State, a: Action)
    requires ResolverInv(env, s) && (a.Spawn? || a.SpawnReady? || a.SpawnFails?)
    ensures Kept(env, Step(env, s, a))
  {
  }

  lemma {:induction false} CloseKeeps(env: Env, s: State, a: Action)
    requires ResolverInv(env, s) && Closes(a)
    ensures Kept(env, Step(env, s, a))
  {
  }

  lemma {:induction false} BuildKeeps(env: Env, s: State, a: Action)
    requires ResolverInv(env, s) && (a.Begin? || Builds(a) || Publishes(a) || a.Reconcile?)
    ensures Kept(env, Step(env, s, a))
  {
    match a {
      case Begin(job, bound) => BegunKeeps(env, s, job, bound);
      case Rebuilt(ok) => RebuiltKeeps(env, s, ok);
      case Parsed(ok, stripped) => ParsedKeeps(env, s, ok, stripped);
      case Publication => PublishedKeeps(env, s);
      case DnsPublished(up) => DnsUpKeeps(env, s, up);
      case Reconcile => ReconciledKeeps(env, s);
    }
  }

  lemma {:induction false} StepKeepsResolvers(env: Env, s: State, a: Action)
    requires ResolverInv(env, s)
    ensures Kept(env, Step(env, s, a))
  {
    if a.Begin? || Builds(a) || Publishes(a) || a.Reconcile? { BuildKeeps(env, s, a); }
    else if Closes(a) { CloseKeeps(env, s, a); }
    else if Quiet(a) { if Step(env, s, a).Some? { QuietFrame(env, s, a); } }
    else { SpawnKeeps(env, s, a); }
  }

  lemma {:induction false} RunKeepsResolvers(env: Env, s: State, actions: seq<Action>)
    requires ResolverInv(env, s) && Run(env, s, actions).Some?
    ensures ResolverInv(env, Run(env, s, actions).value)
    decreases |actions|
  {
    if actions == [] {
    } else {
      StepKeepsResolvers(env, s, actions[0]);
      var s' := Step(env, s, actions[0]).value;
      assert Step(env, s, actions[0]) == Some(s');
      RunKeepsResolvers(env, s', actions[1..]);
    }
  }

  /** At every point of every run without a forced commit, inside a commit
      or between commits, cancelled or not: every `#name` resolver a consumer
      holds belongs to a generation that still exists. */
  lemma {:induction false} GenerationLiveness(env: Env, boot: State, actions: seq<Action>)
    requires Boot(env, boot) && Run(env, boot, actions).Some? && !Run(env, boot, actions).value.forced
    ensures GenerationsAlive(env, Run(env, boot, actions).value)
  {
    RunKeepsResolvers(env, boot, actions);
    InvKeepsAlive(env, Run(env, boot, actions).value);
  }

  /** Whenever the lane is free, all consumers serve one resolver, built from
      the committed document: its dns section, and with references the objects
      they name. The host hook has it exactly if DNS is enabled. */
  lemma {:induction false} ResolverMatchesCommitted(env: Env, boot: State, actions: seq<Action>)
    requires Boot(env, boot) && Run(env, boot, actions).Some? && !Run(env, boot, actions).value.forced
    requires Run(env, boot, actions).value.lane == Free
    ensures var s := Run(env, boot, actions).value; Matched(env, s.run, s.raw)
    ensures var (run, raw) := (Run(env, boot, actions).value.run, Run(env, boot, actions).value.raw);
            && run.tunnel.inputs.dns == raw.dns
            && run.tunnel.inputs.proxies == (if env.runtimeRefs(raw.dns) then Some(raw.proxies) else None)
            && run.hook == (if env.dnsEnabled(raw.dns) then Some(run.tunnel) else None)
  {
    RunKeepsResolvers(env, boot, actions);
  }

  // ---- the provider registries ----

  /** Both registries are those of the rebuild the routes come from. A tick
      works on the routes it found. */
  predicate RegistriesOk(s: State) {
    && s.run.ruleProviders == s.run.routes && s.run.proxyProviders == s.run.routes
    && match s.lane
       case Parsing(job, _, gen) => job.GeoTick? ==> gen == s.run.routes
       case Installing(job, _, gen, _, _, _) => job.GeoTick? ==> gen == s.run.routes
       case Swapping(job, _, gen, _, _) => job.GeoTick? ==> gen == s.run.routes
       case _ => true
  }

  lemma {:induction false} StepKeepsRegistries(env: Env, s: State, a: Action)
    requires RegistriesOk(s) && Step(env, s, a).Some?
    ensures RegistriesOk(Step(env, s, a).value)
  {
    if Builds(a) || Publishes(a) { BuildKeepsRegistries(env, s, a); }
    else if Quiet(a) { QuietFrame(env, s, a); }
    else { OtherKeepsRegistries(env, s, a); }
  }

  lemma {:induction false} BuildKeepsRegistries(env: Env, s: State, a: Action)
    requires RegistriesOk(s) && Step(env, s, a).Some? && (Builds(a) || Publishes(a))
    ensures RegistriesOk(Step(env, s, a).value)
  {
  }

  lemma {:induction false} OtherKeepsRegistries(env: Env, s: State, a: Action)
    requires RegistriesOk(s) && Step(env, s, a).Some? && (a.Begin? || Spawns(a) || Closes(a))
    ensures RegistriesOk(Step(env, s, a).value)
  {
  }

  /** At every point of every run, forced and cut ones too, both provider
      registries belong to the live routes. */
  lemma {:induction false} RegistriesFollowRoutes(env: Env, s: State, actions: seq<Action>)
    requires RegistriesOk(s) && Run(env, s, actions).Some?
    ensures RegistriesOk(Run(env, s, actions).value)
    decreases |actions|
  {
    if actions == [] {
    } else {
      StepKeepsRegistries(env, s, actions[0]);
      RegistriesFollowRoutes(env, Step(env, s, actions[0]).value, actions[1..]);
    }
  }

  // ---- skipping the DNS rebuild ----

  /** Generations are handed out once. */
  predicate GenInv(s: State) {
    && s.run.routes < s.run.next
    && match s.lane
       case Parsing(job, _, gen) => gen < s.run.next && (job.GeoTick? || s.run.routes < gen)
       case Installing(job, _, gen, _, _, _) => gen < s.run.next && (job.GeoTick? || s.run.routes < gen)
       case Swapping(job, _, gen, _, _) => gen < s.run.next && (job.GeoTick? || s.run.routes < gen)
       case _ => true
  }

  /** Rules and resolver move together except inside the synchronous part. */
  predicate GeoInv(s: State) {
    var geo := s.run.geo;
    if s.lane.Installing? && s.lane.job.GeoTick?
    then geo.rules == geo.resolver + geo.kept + 1
    else geo.rules == geo.resolver + geo.kept
  }

  /** Other steps neither touch the runtime nor enter the part of a commit
      that owns a generation. */
  ghost predicate RuntimeKept(s: State, s': State) {
    s'.run == s.run && (s'.lane == s.lane
        || (!s'.lane.Parsing? && !s'.lane.Installing? && !s'.lane.Swapping? && !s.lane.Installing?))
  }

  lemma {:induction false} SpawnFrame(env: Env, s: State, a: Action)
    requires Step(env, s, a).Some? && (a.Begin? || Spawns(a))
    ensures RuntimeKept(s, Step(env, s, a).value)
  {
  }

  lemma {:induction false} CloseFrame(env: Env, s: State, a: Action)
    requires Step(env, s, a).Some? && Closes(a)
    ensures RuntimeKept(s, Step(env, s, a).value)
  {
  }

  lemma {:induction false} CountersPublished(env: Env, s: State)
    requires GenInv(s) && GeoInv(s) && Published(env, s).Some?
    ensures GenInv(Published(env, s).value) && GeoInv(Published(env, s).value)
  {
  }

  lemma {:induction false} CountersKept(env: Env, s: State, a: Action)
    requires GenInv(s) && GeoInv(s) && Step(env, s, a).Some?
    ensures GenInv(Step(env, s, a).value) && GeoInv(Step(env, s, a).value)
  {
    if Builds(a) { CountersBuilt(env, s, a); }
    else if a.Publication? { CountersPublished(env, s); }
    else if a.DnsPublished? { assert Step(env, s, a) == DnsUp(env, s, a.up); }
    else if Quiet(a) { QuietFrame(env, s, a); }
    else if Closes(a) { CloseFrame(env, s, a); }
    else { SpawnFrame(env, s, a); }
  }

  lemma {:induction false} CountersBuilt(env: Env, s: State, a: Action)
    requires GenInv(s) && GeoInv(s) && Builds(a) && Step(env, s, a).Some?
    ensures GenInv(Step(env, s, a).value) && GeoInv(Step(env, s, a).value)
  {
  }

  lemma {:induction false} RunKeepsCounters(env: Env, s: State, actions: seq<Action>)
    requires GenInv(s) && GeoInv(s) && Run(env, s, actions).Some?
    ensures GenInv(Run(env, s, actions).value) && GeoInv(Run(env, s, actions).value)
    decreases |actions|
  {
    if actions == [] {
    } else {
      CountersKept(env, s, actions[0]);
      RunKeepsCounters(env, Step(env, s, actions[0]).value, actions[1..]);
    }
  }

  /** What a resolver does: its inputs, and its generation only if an
      upstream resolves through it. */
  function Behaviour(env: Env, r: Resolver): (Inputs, Option<nat>) {
    (r.inputs, if Refs(env, r) then Some(r.gen) else None)
  }

  /** At the point where a commit decides about the resolver, the skip rule
      holds exactly when rebuilding would give the same resolver. */
  lemma {:induction false} SkipIsExact(env: Env, boot: State, actions: seq<Action>)
    requires Boot(env, boot) && Run(env, boot, actions).Some? && !Run(env, boot, actions).value.forced
    requires Run(env, boot, actions).value.lane.Parsing? && !Run(env, boot, actions).value.lane.job.GeoTick?
    ensures var s := Run(env, boot, actions).value;
            Unchanged(env, s.raw, s.lane.cand)
            <==> Behaviour(env, s.run.tunnel) == Behaviour(env, Resolver(InputsOf(env, s.lane.cand), s.lane.gen))
  {
    RunKeepsResolvers(env, boot, actions);
    RunKeepsCounters(env, boot, actions);
  }

  /** Cancelled at any await or not, a geodata refresh reached both the rules
      and the resolver or neither, or its parse failed and only the rules
      were replaced. */
  lemma {:induction false} GeodataPaired(env: Env, boot: State, actions: seq<Action>)
    requires Boot(env, boot) && Run(env, boot, actions).Some?
    ensures var s := Run(env, boot, actions).value;
            !s.lane.Installing? ==> s.run.geo.rules == s.run.geo.resolver + s.run.geo.kept
  {
    RunKeepsCounters(env, boot, actions);
  }

  // ---- exactly what forcing costs ----

  /** The runtime once `n` more publications are through. */
  function PublishedTimes(env: Env, s: State, n: nat): Option<State>
    decreases n
  {
    if n == 0 then Some(s)
    else match Published(env, s) case Some(s') => PublishedTimes(env, s', n - 1) case None => None
  }

  /** Every run: a forced document of which nothing builds still matches the
      resolver once it is written if and only if it has the old document's
      dns inputs. */
  lemma {:induction false} ForcedRebuildExact(env: Env, boot: State, actions: seq<Action>)
    requires Boot(env, boot) && Run(env, boot, actions).Some? && !Run(env, boot, actions).value.forced
    requires var s := Run(env, boot, actions).value; s.lane.Building? && s.lane.job.ForcedPut?
    ensures var s := Run(env, boot, actions).value;
            var written := Published(env, AfterRebuild(env, s, false).value);
            && written.Some? && written.value.forced && written.value.raw == s.lane.cand
            && (Matched(env, written.value.run, written.value.raw)
                <==> InputsOf(env, s.raw) == InputsOf(env, s.lane.cand))
  {
    RunKeepsResolvers(env, boot, actions);
  }

  /** The runtime and document of a forced commit whose `dns:` section did
      not parse, once they are written. */
  function ForcedWritten(env: Env, s: State, stripped: bool): Option<State>
    requires s.lane.Parsing? && s.lane.job.ForcedPut? && !Unchanged(env, s.raw, s.lane.cand)
  {
    var steps := if env.runtimeRefs(s.raw.dns) && stripped then 5 else 2;
    PublishedTimes(env, AfterParse(env, s, false, stripped).value, steps)
  }

  /** Every run: a forced document whose `dns:` section does not parse never
      matches the resolver it keeps, be it for want of references or because
      the parse without the section failed, too. It matches the one built
      without the section if and only if leaving it out changes no input. */
  lemma {:induction false} ForcedParseExact(env: Env, boot: State, actions: seq<Action>, stripped: bool)
    requires Boot(env, boot) && Run(env, boot, actions).Some? && !Run(env, boot, actions).value.forced
    requires var s := Run(env, boot, actions).value;
             s.lane.Parsing? && s.lane.job.ForcedPut? && !Unchanged(env, s.raw, s.lane.cand)
    ensures var s := Run(env, boot, actions).value;
            var bare := s.lane.cand.(dns := env.withoutDns(s.lane.cand.dns));
            var written := ForcedWritten(env, s, stripped);
            && written.Some? && written.value.forced && written.value.raw == s.lane.cand
            && (Matched(env, written.value.run, written.value.raw)
                <==> env.runtimeRefs(s.raw.dns) && stripped && InputsOf(env, bare) == InputsOf(env, s.lane.cand))
  {
    RunKeepsResolvers(env, boot, actions);
    RunKeepsCounters(env, boot, actions);
    var s := Run(env, boot, actions).value;
    if env.runtimeRefs(s.raw.dns) && stripped { StrippedParse(env, s); } else { KeptParse(env, s, stripped); }
  }

  lemma {:induction false} KeptParse(env: Env, s: State, stripped: bool)
    requires ResolverInv(env, s) && GenInv(s) && !s.forced && !(env.runtimeRefs(s.raw.dns) && stripped)
    requires s.lane.Parsing? && s.lane.job.ForcedPut? && !Unchanged(env, s.raw, s.lane.cand)
    ensures var written := ForcedWritten(env, s, stripped);
            && written.Some? && written.value.forced && written.value.raw == s.lane.cand
            && !Matched(env, written.value.run, written.value.raw)
  {
    Twice(env, ForcedParse(env, s, s.lane.job, s.lane.cand, s.lane.gen, stripped));
  }

  lemma {:induction false} StrippedParse(env: Env, s: State)
    requires ResolverInv(env, s) && !s.forced && env.runtimeRefs(s.raw.dns)
    requires s.lane.Parsing? && s.lane.job.ForcedPut? && !Unchanged(env, s.raw, s.lane.cand)
    ensures var bare := s.lane.cand.(dns := env.withoutDns(s.lane.cand.dns));
            var written := ForcedWritten(env, s, true);
            && written.Some? && written.value.forced && written.value.raw == s.lane.cand
            && (Matched(env, written.value.run, written.value.raw)
                <==> InputsOf(env, bare) == InputsOf(env, s.lane.cand))
  {
    var (job, cand, gen) := (s.lane.job, s.lane.cand, s.lane.gen);
    var s0 := ForcedParse(env, s, job, cand, gen, true);
    var bare := Resolver(InputsOf(env, cand.(dns := env.withoutDns(cand.dns))), gen);
    var s1 := Published(env, s0).value;
    var s2 := Published(env, s1).value;
    var s3 := Published(env, s2).value;
    assert s3.run.tunnel == bare && s3.run.hook == Hook(env, bare) && Serves(s3.run.dns, bare);
    Twice(env, s3);
    assert PublishedTimes(env, s2, 3) == PublishedTimes(env, s3, 2);
    assert PublishedTimes(env, s1, 4) == PublishedTimes(env, s3, 2);
  }

  /** The route swap and the write. */
  lemma {:induction false} Twice(env: Env, s: State)
    requires s.lane.Swapping?
    ensures PublishedTimes(env, s, 2).Some?
    ensures var s' := PublishedTimes(env, s, 2).value;
            && s'.run == Swapped(s.run, s.lane.job, s.lane.gen) && s'.raw == s.lane.cand && s'.forced == s.forced
  {
    var s1 := Published(env, s).value;
    assert PublishedTimes(env, s1, 1) == PublishedTimes(env, Published(env, s1).value, 0);
  }
}
