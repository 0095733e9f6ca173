/** What a mutation does from entering the lane to leaving it: which failures
    reject it, what it publishes, and when it restarts the TUN listener. */
module CommitOutcomes {
  import opened CommitRejections
  import opened CommitState
  import opened CommitTun
  import opened Wrappers

  // ---- the mutation on its way through the lane ----

  predicate FakeDiffers(env: Env, r: Resolver, r': Resolver) {
    env.gateway(r.inputs.dns) != env.gateway(r'.inputs.dns) || env.network(r.inputs.dns) != env.network(r'.inputs.dns)
  }

  /** One of the three raw inputs of the section changed, and so did what they
      parse to, or one does not parse. */
  predicate SectionDiffers(env: Env, before: Raw, after: Raw) {
    && (before.tun != after.tun || before.maxConnections != after.maxConnections
        || env.fakeIpRange(before.dns) != env.fakeIpRange(after.dns))
    && (Parse(env, before).None? || Parse(env, after).None? || Parse(env, before) != Parse(env, after))
  }

  /** A commit from `before` to `after` under the resolvers `r` and `r'` has to
      start a listener. */
  predicate MustSpawn(env: Env, before: Raw, after: Raw, r: Resolver, r': Resolver) {
    Enabled(after) && (!Enabled(before) || FakeDiffers(env, r, r') || SectionDiffers(env, before, after))
  }

  /** `u` is reached by `job` with the candidate `cand` from the free lane
      `s`. */
  ghost predicate Track(env: Env, s: State, job: Job, cand: Raw, u: State) {
    u.log == s.log &&
    match u.lane
    case Building(j, c) => j == job && c == cand && u.raw == s.raw && u.run.tunnel == s.run.tunnel
    case Parsing(j, c, _) => j == job && c == cand && u.raw == s.raw && u.run.tunnel == s.run.tunnel
    case Installing(j, c, _, res, prior, stage) =>
      && j == job && c == cand && u.raw == s.raw
      && prior == s.run.tunnel && u.run.tunnel == if stage > 0 then res else prior
    case Swapping(j, c, _, dns, prior) =>
      j == job && c == cand && u.raw == s.raw && prior == s.run.tunnel && u.run.tunnel == Either(dns, prior)
    case Writing(j, c, dns, prior) =>
      j == job && c == cand && u.raw == s.raw && prior == s.run.tunnel && u.run.tunnel == Either(dns, prior)
    case Publishing(j, before, dns, prior) =>
      j == job && before == s.raw && u.raw == cand && prior == s.run.tunnel && u.run.tunnel == Either(dns, prior)
    case Reconciling(j, before, dns, prior) =>
      j == job && before == s.raw && u.raw == cand && prior == s.run.tunnel && u.run.tunnel == Either(dns, prior)
    case Spawning(j, _) => j == job && u.raw == cand && MustSpawn(env, s.raw, cand, s.run.tunnel, u.run.tunnel)
    case Awaiting(j, _, _) => j == job && u.raw == cand && Enabled(cand)
    case Finishing(j, _) => j == job && u.raw == cand
    case _ => false
  }

  lemma {:induction false} BegunTracks(env: Env, s: State, job: Job, bound: Option<Doc>)
    requires Begun(env, s, job, bound).Some? && Begun(env, s, job, bound).value.lane != Free
    ensures Candidate(env, job, s.raw).Some?
    ensures Track(env, s, job, Candidate(env, job, s.raw).value, Begun(env, s, job, bound).value)
    ensures Begun(env, s, job, bound).value.tun == s.tun && Begun(env, s, job, bound).value.run == s.run
  {
  }

  /** What a step from a tracked state gives, if the lane stays held. */
  ghost predicate Tracks(env: Env, s: State, job: Job, cand: Raw, r: Option<State>) {
    forall u :: r == Some(u) && u.lane != Free ==> Track(env, s, job, cand, u)
  }

  lemma {:induction false} BuildTracks(env: Env, s: State, job: Job, cand: Raw, u: State, a: Action)
    requires Track(env, s, job, cand, u) && Builds(a)
    ensures Tracks(env, s, job, cand, Step(env, u, a))
  {
  }

  lemma {:induction false} PublishTracks(env: Env, s: State, job: Job, cand: Raw, u: State)
    requires Track(env, s, job, cand, u)
    ensures Tracks(env, s, job, cand, Published(env, u))
  {
  }

  lemma {:induction false} DnsUpTracks(env: Env, s: State, job: Job, cand: Raw, u: State, up: bool)
    requires Track(env, s, job, cand, u)
    ensures Tracks(env, s, job, cand, DnsUp(env, u, up))
  {
  }

  lemma {:induction false} ReconcileTracks(env: Env, s: State, job: Job, cand: Raw, u: State)
    requires Track(env, s, job, cand, u)
    ensures Tracks(env, s, job, cand, Reconciled(env, u))
  {
  }

  lemma {:induction false} SpawnTracks(env: Env, s: State, job: Job, cand: Raw, u: State, a: Action)
    requires Track(env, s, job, cand, u) && (a.Begin? || a.Spawn? || a.SpawnReady? || a.SpawnFails? || Closes(a))
    ensures Tracks(env, s, job, cand, Step(env, u, a))
  {
  }

  lemma {:induction false} StepTracks(env: Env, s: State, job: Job, cand: Raw, u: State, a: Action)
    requires Track(env, s, job, cand, u)
    ensures Tracks(env, s, job, cand, Step(env, u, a))
  {
    if Builds(a) { BuildTracks(env, s, job, cand, u, a); }
    else if a.Publication? { PublishTracks(env, s, job, cand, u); }
    else if a.DnsPublished? { DnsUpTracks(env, s, job, cand, u, a.up); }
    else if a.Reconcile? { ReconcileTracks(env, s, job, cand, u); }
    else if Quiet(a) { if Step(env, u, a).Some? { QuietFrame(env, u, a); } }
    else { SpawnTracks(env, s, job, cand, u, a); }
  }

  // ---- a failed build rejects ----

  /** The resolver has to be rebuilt: its section changed, or it refers to
      objects of the old generation. */
  predicate ResolverDue(env: Env, before: Raw, after: Raw) {
    before.dns != after.dns || env.runtimeRefs(before.dns) || env.runtimeRefs(after.dns)
  }

  /** A step that fails the build of an unforced candidate. */
  predicate FailsBuild(env: Env, job: Job, before: Raw, cand: Raw, a: Action) {
    || (a.Rebuilt? && (!a.ok || (job.Put? && Parse(env, cand).None?)))
    || (a.Parsed? && !a.ok && !job.GeoTick? && ResolverDue(env, before, cand))
  }

  predicate AnyFails(env: Env, job: Job, before: Raw, cand: Raw, actions: seq<Action>) {
    exists i :: 0 <= i < |actions| && FailsBuild(env, job, before, cand, actions[i])
  }

  lemma {:induction false} FailingStep(env: Env, s: State, job: Job, cand: Raw, u: State, a: Action)
    requires Track(env, s, job, cand, u) && !job.ForcedPut? && FailsBuild(env, job, s.raw, cand, a)
    requires Step(env, u, a).Some?
    ensures Step(env, u, a).value.lane == Free && Step(env, u, a).value.log == s.log + [Entry(job, Rejected)]
  {
    if a.Rebuilt? { FailingRebuild(env, s, job, cand, u, a.ok); }
    else { FailingParse(env, s, job, cand, u, a.stripped); }
  }

  lemma {:induction false} FailingRebuild(env: Env, s: State, job: Job, cand: Raw, u: State, ok: bool)
    requires Track(env, s, job, cand, u) && !job.ForcedPut? && AfterRebuild(env, u, ok).Some?
    requires !ok || (job.Put? && Parse(env, cand).None?)
    ensures AfterRebuild(env, u, ok).value.lane == Free
    ensures AfterRebuild(env, u, ok).value.log == s.log + [Entry(job, Rejected)]
  {
  }

  lemma {:induction false} FailingParse(env: Env, s: State, job: Job, cand: Raw, u: State, stripped: bool)
    requires Track(env, s, job, cand, u) && !job.ForcedPut? && !job.GeoTick? && ResolverDue(env, s.raw, cand)
    requires AfterParse(env, u, false, stripped).Some?
    ensures AfterParse(env, u, false, stripped).value.lane == Free
    ensures AfterParse(env, u, false, stripped).value.log == s.log + [Entry(job, Rejected)]
  {
  }

  lemma {:induction false} HeldFailure(
      env: Env, s: State, job: Job, cand: Raw, u: State, actions: seq<Action>, after: State)
    requires Track(env, s, job, cand, u) && !job.ForcedPut? && HeldUntil(env, u, actions, after)
    requires AnyFails(env, job, s.raw, cand, actions)
    ensures after.lane == Free && after.log == s.log + [Entry(job, Rejected)]
    decreases |actions|
  {
    var u' := Step(env, u, actions[0]).value;
    if FailsBuild(env, job, s.raw, cand, actions[0]) {
      FailingStep(env, s, job, cand, u, actions[0]);
    } else {
      var i :| 0 <= i < |actions| && FailsBuild(env, job, s.raw, cand, actions[i]);
      assert actions[1..][i - 1] == actions[i];
      StepTracks(env, s, job, cand, u, actions[0]);
      HeldFailure(env, s, job, cand, u', actions[1..], after);
    }
  }

  /** Every unforced mutation, from any free lane: if its rebuild fails, or a
      rewrite's section does not parse, or the resolver was due and its parse
      fails, it ends rejected at that step. */
  lemma {:induction false} FailedBuildRejects(
      env: Env, s: State, job: Job, bound: Option<Doc>, actions: seq<Action>, after: State)
    requires s.lane == Free && HeldUntil(env, s, [Begin(job, bound)] + actions, after) && !job.ForcedPut?
    requires Candidate(env, job, s.raw).Some? && AnyFails(env, job, s.raw, Candidate(env, job, s.raw).value, actions)
    ensures after.lane == Free && after.log == s.log + [Entry(job, Rejected)]
  {
    assert ([Begin(job, bound)] + actions)[1..] == actions;
    BegunTracks(env, s, job, bound);
    HeldFailure(env, s, job, Candidate(env, job, s.raw).value, Begun(env, s, job, bound).value, actions, after);
  }

  /** Neither turned away nor dropped. */
  predicate Completed(outcome: Outcome) { outcome.Committed? || outcome.RolledBack? || outcome.Partial? }

  /** Mutations that rebuild, and may not be forced past a failure. */
  predicate Rebuilds(job: Job) { !job.Patch? && !job.Stamp? && !job.ForcedPut? && !FromStartup(job) }

  predicate AnyRebuilt(actions: seq<Action>) { exists i :: 0 <= i < |actions| && actions[i] == Rebuilt(true) }

  lemma {:induction false} BuildingStep(env: Env, s: State, job: Job, cand: Raw, u: State, a: Action)
    requires Track(env, s, job, cand, u) && u.lane.Building? && Step(env, u, a).Some?
    ensures Step(env, u, a).value.lane != Free ==> a.Rebuilt? || Step(env, u, a).value.lane == u.lane
    ensures var u' := Step(env, u, a).value;
            u'.lane == Free ==> |s.log| < |u'.log| && !Completed(u'.log[|s.log|].outcome)
  {
    if Quiet(a) { QuietFrame(env, u, a); }
  }

  lemma {:induction false} HeldBuild(
      env: Env, s: State, job: Job, cand: Raw, u: State, actions: seq<Action>, after: State)
    requires Track(env, s, job, cand, u) && u.lane.Building? && !job.ForcedPut? && HeldUntil(env, u, actions, after)
    requires !AnyFails(env, job, s.raw, cand, actions) && after.lane == Free
    requires |s.log| < |after.log| && Completed(after.log[|s.log|].outcome)
    ensures AnyRebuilt(actions)
    decreases |actions|
  {
    BuildingStep(env, s, job, cand, u, actions[0]);
    if actions[0].Rebuilt? {
      assert !FailsBuild(env, job, s.raw, cand, actions[0]);
    } else if |actions| == 1 {
    } else {
      StepTracks(env, s, job, cand, u, actions[0]);
      forall i | 0 <= i < |actions[1..]| ensures !FailsBuild(env, job, s.raw, cand, actions[1..][i]) {
        assert actions[1..][i] == actions[i + 1];
      }
      HeldBuild(env, s, job, cand, Step(env, u, actions[0]).value, actions[1..], after);
      var i :| 0 <= i < |actions[1..]| && actions[1..][i] == Rebuilt(true);
      assert actions[i + 1] == Rebuilt(true);
    }
  }

  /** And so one that completes was built: its rebuild succeeded, nothing
      failed, and a rewrite's section parses. */
  lemma {:induction false} CompletedWasBuilt(
      env: Env, s: State, job: Job, bound: Option<Doc>, actions: seq<Action>, after: State)
    requires s.lane == Free && HeldUntil(env, s, [Begin(job, bound)] + actions, after) && Rebuilds(job)
    requires after.lane == Free && |s.log| < |after.log| && Completed(after.log[|s.log|].outcome)
    ensures Candidate(env, job, s.raw).Some? && AnyRebuilt(actions)
    ensures !AnyFails(env, job, s.raw, Candidate(env, job, s.raw).value, actions)
    ensures job.Put? ==> Parse(env, Candidate(env, job, s.raw).value).Some?
  {
    assert ([Begin(job, bound)] + actions)[1..] == actions;
    BegunTracks(env, s, job, bound);
    var cand := Candidate(env, job, s.raw).value;
    if AnyFails(env, job, s.raw, cand, actions) {
      FailedBuildRejects(env, s, job, bound, actions, after);
    }
    HeldBuild(env, s, job, cand, Begun(env, s, job, bound).value, actions, after);
    var i :| 0 <= i < |actions| && actions[i] == Rebuilt(true);
    assert !FailsBuild(env, job, s.raw, cand, actions[i]);
  }

  // ---- what a commit publishes ----

  /** A tick always rebuilds the resolver. */
  predicate Due(env: Env, s: State, job: Job, cand: Raw) { job.GeoTick? || ResolverDue(env, s.raw, cand) }

  /** The rebuild's number: a new one, or that of the routes a tick keeps. */
  function Gen(s: State, job: Job): nat { if job.GeoTick? then s.run.routes else s.run.next }

  /** The resolver of the candidate: its section, and with references the
      objects they name, of that rebuild. */
  function Built(env: Env, s: State, job: Job, cand: Raw): Resolver {
    Resolver(Inputs(cand.dns, if env.runtimeRefs(cand.dns) then Some(cand.proxies) else None), Gen(s, job))
  }

  function HookOf(env: Env, cand: Raw, r: Resolver): Option<Resolver> {
    if env.dnsEnabled(cand.dns) then Some(r) else None
  }

  /** Routes and registries before the swap. */
  predicate OldRoutes(s: State, run: Runtime) {
    && run.routes == s.run.routes && run.ruleProviders == s.run.ruleProviders
    && run.proxyProviders == s.run.proxyProviders
  }

  /** And after it. */
  predicate NewRoutes(s: State, job: Job, run: Runtime) {
    && run.routes == Gen(s, job)
    && (if job.GeoTick? then run.ruleProviders == s.run.ruleProviders && run.proxyProviders == s.run.proxyProviders
        else run.ruleProviders == Gen(s, job) && run.proxyProviders == Gen(s, job))
  }

  predicate OldConsumers(s: State, run: Runtime) {
    run.tunnel == s.run.tunnel && run.hook == s.run.hook && run.dns == s.run.dns
  }

  /** Tunnel and hook serve the new resolver if one was due. */
  predicate Consumers(env: Env, s: State, job: Job, cand: Raw, run: Runtime) {
    if Due(env, s, job, cand)
    then run.tunnel == Built(env, s, job, cand) && run.hook == HookOf(env, cand, run.tunnel)
    else OldConsumers(s, run)
  }

  /** The runtime of a tracked state. `up` is what the DNS publication said. */
  ghost predicate RunTrack(env: Env, s: State, job: Job, cand: Raw, u: State, up: Option<bool>) {
    var due, res := Due(env, s, job, cand), Built(env, s, job, cand);
    match u.lane
    case Building(_, _) => u.run == s.run && up.None?
    case Parsing(_, _, gen) => gen == Gen(s, job) && OldRoutes(s, u.run) && OldConsumers(s, u.run) && up.None?
    case Installing(_, _, gen, r, _, stage) =>
      && due && gen == Gen(s, job) && r == res && stage < 3 && OldRoutes(s, u.run) && up.None?
      && u.run.tunnel == (if stage > 0 then res else s.run.tunnel)
      && u.run.hook == (if stage > 1 then HookOf(env, cand, res) else s.run.hook)
      && u.run.dns == s.run.dns
    case Swapping(_, _, gen, dns, _) =>
      && gen == Gen(s, job) && dns == (if due then Some(res) else None) && OldRoutes(s, u.run)
      && Consumers(env, s, job, cand, u.run) && up.None?
    case Writing(_, _, dns, _) =>
      && dns == (if due then Some(res) else None) && NewRoutes(s, job, u.run)
      && Consumers(env, s, job, cand, u.run) && up.None?
    case Publishing(_, _, dns, _) =>
      && dns == (if due then Some(res) else None) && NewRoutes(s, job, u.run)
      && Consumers(env, s, job, cand, u.run) && up.None?
    case _ => Ran(env, s, job, cand, u.run, up)
  }

  /** The runtime after the DNS publication. */
  predicate Ran(env: Env, s: State, job: Job, cand: Raw, run: Runtime, up: Option<bool>) {
    && up.Some? && NewRoutes(s, job, run) && Consumers(env, s, job, cand, run)
    && (Due(env, s, job, cand) ==> run.dns == if up.value then Some(run.tunnel) else None)
  }

  function UpBy(a: Action): Option<bool> { if a.DnsPublished? then Some(a.up) else None }

  function FirstUp(actions: seq<Action>): Option<bool> {
    if actions == [] then None
    else if UpBy(actions[0]).Some? then UpBy(actions[0])
    else FirstUp(actions[1..])
  }

  /** The mutation that found the lane free in `s` has left it completed; a
      geodata tick only if its parse succeeded. */
  predicate Ended(s: State, u: State) {
    && u.lane == Free && |s.log| < |u.log| && Completed(u.log[|s.log|].outcome)
    && u.run.geo.kept == s.run.geo.kept
  }

  /** The document a completed mutation leaves. */
  predicate Wrote(s: State, cand: Raw, u: State)
    requires |s.log| < |u.log|
  {
    u.raw == if u.log[|s.log|].outcome.RolledBack? then Disabled(cand) else cand
  }

  /** What a step from a tracked state gives: a tracked state again, or the
      end with everything published. */
  ghost predicate RunTracks(env: Env, s: State, job: Job, cand: Raw, r: Option<State>, up: Option<bool>) {
    && (forall u :: r == Some(u) && u.lane != Free ==> RunTrack(env, s, job, cand, u, up))
    && (forall u :: r == Some(u) && Ended(s, u) ==> Ran(env, s, job, cand, u.run, up) && Wrote(s, cand, u))
  }

  lemma {:induction false} RebuiltRuns(env: Env, s: State, job: Job, cand: Raw, u: State, ok: bool)
    requires Rebuilds(job) && Track(env, s, job, cand, u) && RunTrack(env, s, job, cand, u, None) && KeptSame(s, u)
    ensures RunTracks(env, s, job, cand, AfterRebuild(env, u, ok), None)
  {
  }

  lemma {:induction false} ParsedRuns(env: Env, s: State, job: Job, cand: Raw, u: State, ok: bool, stripped: bool)
    requires Rebuilds(job) && Track(env, s, job, cand, u) && RunTrack(env, s, job, cand, u, None) && KeptSame(s, u)
    ensures RunTracks(env, s, job, cand, AfterParse(env, u, ok, stripped), None)
  {
  }

  lemma {:induction false} InstallRuns(env: Env, s: State, job: Job, cand: Raw, u: State)
    requires Rebuilds(job) && Track(env, s, job, cand, u) && RunTrack(env, s, job, cand, u, None)
    requires u.lane.Installing?
    ensures RunTracks(env, s, job, cand, Published(env, u), None)
  {
  }

  lemma {:induction false} PublishRuns(env: Env, s: State, job: Job, cand: Raw, u: State)
    requires Rebuilds(job) && Track(env, s, job, cand, u) && RunTrack(env, s, job, cand, u, None)
    ensures RunTracks(env, s, job, cand, Published(env, u), None)
  {
    if u.lane.Installing? { InstallRuns(env, s, job, cand, u); }
  }

  /** The counter of failed parses stands. */
  predicate KeptSame(s: State, u: State) { u.run.geo.kept == s.run.geo.kept }

  lemma {:induction false} DnsUpRuns(env: Env, s: State, job: Job, cand: Raw, u: State, up: bool)
    requires Rebuilds(job) && Track(env, s, job, cand, u) && RunTrack(env, s, job, cand, u, None)
    ensures RunTracks(env, s, job, cand, DnsUp(env, u, up), Some(up))
  {
  }

  lemma {:induction false} ReconcileRuns(env: Env, s: State, job: Job, cand: Raw, u: State, up: Option<bool>)
    requires Rebuilds(job) && Track(env, s, job, cand, u) && RunTrack(env, s, job, cand, u, up)
    ensures RunTracks(env, s, job, cand, Reconciled(env, u), up)
  {
  }

  lemma {:induction false} SpawnRuns(env: Env, s: State, job: Job, cand: Raw, u: State, a: Action, up: Option<bool>)
    requires Rebuilds(job) && Track(env, s, job, cand, u) && RunTrack(env, s, job, cand, u, up)
    requires a.Spawn? || a.SpawnReady? || a.SpawnFails?
    ensures RunTracks(env, s, job, cand, Step(env, u, a), up)
  {
  }

  lemma {:induction false} CancelRuns(env: Env, s: State, job: Job, cand: Raw, u: State, up: Option<bool>)
    requires Track(env, s, job, cand, u)
    ensures RunTracks(env, s, job, cand, Cancelled(u), up)
  {
  }

  lemma {:induction false} CloseRuns(env: Env, s: State, job: Job, cand: Raw, u: State, a: Action, up: Option<bool>)
    requires Rebuilds(job) && Track(env, s, job, cand, u) && RunTrack(env, s, job, cand, u, up)
    requires a.Begin? || Closes(a)
    ensures RunTracks(env, s, job, cand, Step(env, u, a), up)
  {
    if a.Cancel? { CancelRuns(env, s, job, cand, u, up); }
  }

  lemma {:induction false} QuietRuns(env: Env, s: State, job: Job, cand: Raw, u: State, a: Action, up: Option<bool>)
    requires Track(env, s, job, cand, u) && RunTrack(env, s, job, cand, u, up) && Quiet(a)
    ensures RunTracks(env, s, job, cand, Step(env, u, a), up)
  {
    if Step(env, u, a).Some? { QuietFrame(env, u, a); }
  }

  /** Building and publishing come before the DNS publication. */
  lemma {:induction false} EarlyRuns(env: Env, s: State, job: Job, cand: Raw, u: State, a: Action, up: Option<bool>)
    requires Track(env, s, job, cand, u) && RunTrack(env, s, job, cand, u, up)
    requires (Builds(a) || Publishes(a)) && Step(env, u, a).Some?
    ensures up.None?
  {
  }

  lemma {:induction false} EarlyStepRuns(env: Env, s: State, job: Job, cand: Raw, u: State, a: Action)
    requires Rebuilds(job) && Track(env, s, job, cand, u) && RunTrack(env, s, job, cand, u, None) && KeptSame(s, u)
    requires Builds(a) || Publishes(a)
    ensures RunTracks(env, s, job, cand, Step(env, u, a), UpBy(a))
  {
    match a {
      case Publication => PublishRuns(env, s, job, cand, u);
      case DnsPublished(ok) => DnsUpRuns(env, s, job, cand, u, ok);
      case Rebuilt(ok) => RebuiltRuns(env, s, job, cand, u, ok);
      case Parsed(ok, stripped) => ParsedRuns(env, s, job, cand, u, ok, stripped);
    }
  }

  lemma {:induction false} StepRuns(env: Env, s: State, job: Job, cand: Raw, u: State, a: Action, up: Option<bool>)
    requires Rebuilds(job) && Track(env, s, job, cand, u) && RunTrack(env, s, job, cand, u, up) && KeptSame(s, u)
    requires Step(env, u, a).Some?
    ensures RunTracks(env, s, job, cand, Step(env, u, a), if up.Some? then up else UpBy(a))
  {
    if Builds(a) || Publishes(a) {
      EarlyRuns(env, s, job, cand, u, a, up);
      EarlyStepRuns(env, s, job, cand, u, a);
    }
    else if a.Reconcile? { ReconcileRuns(env, s, job, cand, u, up); }
    else if Quiet(a) { QuietRuns(env, s, job, cand, u, a, up); }
    else if Spawns(a) { SpawnRuns(env, s, job, cand, u, a, up); }
    else { CloseRuns(env, s, job, cand, u, a, up); }
  }

  /** A step that counts a failed parse ends the mutation. */
  lemma {:induction false} HeldKept(env: Env, s: State, a: Action)
    requires Step(env, s, a).Some? && Step(env, s, a).value.lane != Free
    ensures Step(env, s, a).value.run.geo.kept == s.run.geo.kept
  {
    if Step(env, s, a).value.run.geo.kept != s.run.geo.kept { KeptStep(env, s, a); }
  }

  lemma {:induction false} HeldRuns(
      env: Env, s: State, job: Job, cand: Raw, u: State, up: Option<bool>, actions: seq<Action>, after: State)
    requires Rebuilds(job) && Track(env, s, job, cand, u) && RunTrack(env, s, job, cand, u, up) && KeptSame(s, u)
    requires HeldUntil(env, u, actions, after) && Ended(s, after)
    ensures Ran(env, s, job, cand, after.run, if up.Some? then up else FirstUp(actions)) && Wrote(s, cand, after)
    decreases |actions|
  {
    var u', up' := Step(env, u, actions[0]).value, if up.Some? then up else UpBy(actions[0]);
    StepRuns(env, s, job, cand, u, actions[0], up);
    assert Step(env, u, actions[0]) == Some(u');
    if |actions| == 1 {
      assert up'.Some?;
    } else {
      StepTracks(env, s, job, cand, u, actions[0]);
      HeldKept(env, u, actions[0]);
      HeldRuns(env, s, job, cand, u', up', actions[1..], after);
    }
  }

  /** Every mutation that rebuilds, from any free lane and whatever others do
      meanwhile, once it completes: the document is the candidate, switched off
      if the listener failed; the routes are those of its own rebuild, and so
      are both provider registries, which only a tick leaves alone; and if the
      resolver was due, the tunnel serves the one built from the candidate, the
      host hook the same one or none as the section says, and the DNS server
      the same one if it came up. Otherwise all three are as before. */
  lemma {:induction false} CommitPublishes(
      env: Env, s: State, job: Job, bound: Option<Doc>, actions: seq<Action>, after: State)
    requires s.lane == Free && HeldUntil(env, s, [Begin(job, bound)] + actions, after)
    requires Rebuilds(job) && Ended(s, after)
    ensures Candidate(env, job, s.raw).Some?
    ensures var cand := Candidate(env, job, s.raw).value;
            Ran(env, s, job, cand, after.run, FirstUp(actions)) && Wrote(s, cand, after)
  {
    assert ([Begin(job, bound)] + actions)[1..] == actions;
    BegunTracks(env, s, job, bound);
    HeldRuns(env, s, job, Candidate(env, job, s.raw).value, Begun(env, s, job, bound).value, None, actions, after);
  }
}
