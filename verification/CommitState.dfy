/** The configuration-commit protocol as a transition system.

    Every mutation runs inside one lane. A step is one action of one task
    between two points where another task may run: a single publication
    inside the synchronous part of a commit, or the stretch between two
    awaits elsewhere. Listener tasks and the startup task step at any time,
    also while the lane is held. */
module CommitState {
  import opened Sequences
  import opened Wrappers

  /** A configuration section, compared only for equality. */
  type Doc = nat

  // ---- the committed document ----

  datatype Tun = Tun(enable: bool, settings: Doc)

  /** What a subscription last contributed, and where it came from. */
  datatype Payload = Payload(url: Doc, content: Doc)

  datatype Sub = Sub(name: Doc, url: Doc, interval: Option<nat>, lastUpdated: Option<int>, applied: Option<Payload>)

  /** `dns` stands for `dns:`, `hosts:`, `ipv6`, `geodata:` and `geox-url`;
      `proxies` for proxies, groups and rule providers; `other` for rules,
      mode, log level and the rest. */
  datatype Raw = Raw(tun: Option<Tun>, maxConnections: Doc, dns: Doc, proxies: Doc, other: Doc, subs: seq<Sub>)

  datatype TunConfig = TunConfig(enable: bool, settings: Doc)

  // ---- code outside the model, as deterministic functions ----

  datatype Env = Env(
    parseTun: (Option<Tun>, Doc, Doc) -> Option<TunConfig>,
    fakeIpRange: Doc -> Doc,
    /** `#name` or `rule-set:` references in a dns section. */
    runtimeRefs: Doc -> bool,
    gateway: Doc -> Doc,
    network: Doc -> Doc,
    /** DNS is enabled, or the platform is a VPN one. */
    dnsEnabled: Doc -> bool,
    mergeTun: (Doc, Option<Tun>) -> Tun,
    general: (Doc, Doc) -> Doc,
    /** A rule or group edit of `proxies` and `other`, or its rejection. */
    edit: (Doc, Doc, Doc) -> Option<(Doc, Doc)>,
    /** Sections after merging, dropping or clamping a contribution. */
    merge: (Doc, Doc, Option<Payload>, Doc) -> (Doc, Doc),
    drop: (Doc, Doc, Option<Payload>) -> (Doc, Doc),
    clamp: (Doc, Doc, Doc) -> Doc,
    /** The dns inputs of a document whose `dns:` section is left out. */
    withoutDns: Doc -> Doc,
    /** An enabled TUN in global route scope. */
    globalRoute: Option<Tun> -> bool)

  predicate Enabled(raw: Raw) { raw.tun.Some? && raw.tun.value.enable }

  function Parse(env: Env, raw: Raw): Option<TunConfig> {
    env.parseTun(raw.tun, raw.maxConnections, env.fakeIpRange(raw.dns))
  }

  function Disabled(raw: Raw): Raw {
    if raw.tun.Some? then raw.(tun := Some(raw.tun.value.(enable := false))) else raw
  }

  // ---- resolver consumers and the route table ----

  /** The tuple `dns_inputs_equal` compares. */
  datatype Inputs = Inputs(dns: Doc, proxies: Option<Doc>)

  function InputsOf(env: Env, raw: Raw): Inputs {
    Inputs(raw.dns, if env.runtimeRefs(raw.dns) then Some(raw.proxies) else None)
  }

  /** A resolver, and the registry generation its `#name` upstreams use. */
  datatype Resolver = Resolver(inputs: Inputs, gen: nat)

  predicate Refs(env: Env, r: Resolver) { env.runtimeRefs(r.inputs.dns) }

  /** `rules` and `resolver` count the geodata refreshes that reached each,
      `kept` those whose DNS parse failed. */
  datatype Geo = Geo(rules: nat, resolver: nat, kept: nat)

  /** The route table and the two provider registries are named after the
      rebuild they come from; `next` numbers the next rebuild. */
  datatype Runtime = Runtime(
    routes: nat, tunnel: Resolver, hook: Option<Resolver>, dns: Option<Resolver>, next: nat, geo: Geo,
    ruleProviders: nat, proxyProviders: nat)

  // ---- TUN listeners ----

  /** `Closing`: its task is gone, its network core not yet. */
  datatype Phase = Starting | Live | Closing | Dead

  datatype Listener = Listener(cfg: TunConfig, gateway: Option<Doc>, network: Option<Doc>, phase: Phase, ready: bool)

  datatype Startup = Settled | Pending | Failed

  /** Listener 0 is the one started at boot. */
  datatype TunState = TunState(listeners: seq<Listener>, slot: Option<nat>, startup: Startup)

  const BOOT: nat := 0

  predicate CoreAlive(l: Listener) { l.phase.Live? || l.phase.Closing? }

  function Aborted(l: Listener): Listener {
    l.(phase := match l.phase case Starting => Dead case Live => Closing case p => p)
  }

  function Abort(t: TunState, i: nat): TunState
    requires i < |t.listeners|
  {
    t.(listeners := t.listeners[i := Aborted(t.listeners[i])])
  }

  predicate HasTun(t: TunState) {
    t.slot.Some? && t.slot.value < |t.listeners| && t.listeners[t.slot.value].phase.Live?
  }

  /** `stop_tun`. */
  function Stopped(t: TunState): TunState {
    match t.slot
    case Some(i) => if i < |t.listeners| then Abort(t, i).(slot := None) else t.(slot := None)
    case None => t
  }

  /** `set_tun_handle`. */
  function Stored(t: TunState, i: nat): TunState { Stopped(t).(slot := Some(i)) }

  // ---- the outbound-interface binding ----

  /** Who holds an installed binding: the mutation in the lane, or a
      listener. */
  datatype Guard = InLane | InListener(id: nat)

  datatype Install = Install(iface: Doc, guard: Guard)

  predicate GuardAlive(t: TunState, guard: Guard) {
    match guard
    case InLane => true
    case InListener(i) => i < |t.listeners| && (t.listeners[i].phase.Starting? || t.listeners[i].phase.Live?)
  }

  /** The interface in effect: that of the newest binding still held. */
  function Effective(installs: seq<Install>, t: TunState): Option<Doc> {
    if installs == [] then None
    else
      var last := installs[|installs| - 1];
      if GuardAlive(t, last.guard) then Some(last.iface) else Effective(installs[..|installs| - 1], t)
  }

  /** The mutation's own binding is dropped. */
  function Dropped(installs: seq<Install>): seq<Install> {
    Filter(installs, (install: Install) => install.guard.InListener?)
  }

  /** It moves into listener `id`. */
  function Taken(installs: seq<Install>, id: nat): (r: seq<Install>)
    ensures |r| == |installs|
    ensures forall i :: 0 <= i < |r| ==>
              r[i] == if installs[i].guard.InLane? then installs[i].(guard := InListener(id)) else installs[i]
  {
    seq(|installs|, i requires 0 <= i < |installs| =>
      if installs[i].guard.InLane? then installs[i].(guard := InListener(id)) else installs[i])
  }

  // ---- mutations ----

  datatype Job =
    | Put(doc: Raw)
    | ForcedPut(doc: Raw)
    | Patch(tun: Option<Doc>, general: Doc)
    | Edit(edit: Doc)
    | Add(name: Doc, url: Doc, interval: Option<nat>, content: Doc, now: int)
    | Delete(name: Doc)
    | Refresh(name: Doc, url: Doc, content: Doc, now: int)
    | LoopRefresh(name: Doc, url: Doc, content: Doc, now: int)
    | Stamp(name: Doc, now: int)
    | GeoTick
    | BootRollback
    | BootPublication

  /** The startup task enters the lane by itself. */
  predicate FromStartup(job: Job) { job.BootRollback? || job.BootPublication? }

  /** Mutations that install the candidate's binding before their first
      dial. */
  predicate Preinstalls(job: Job) {
    job.Put? || job.ForcedPut? || job.Patch? || job.Edit? || job.Add? || job.Delete? || job.Refresh?
  }

  /** The first entry called `name`. */
  function FindNamed(subs: seq<Sub>, name: Doc): (r: Option<nat>)
    ensures match r
            case Some(i) => i < |subs| && subs[i].name == name && forall j :: 0 <= j < i ==> subs[j].name != name
            case None => forall j :: 0 <= j < |subs| ==> subs[j].name != name
  {
    FirstIndex(subs, (sub: Sub) => sub.name == name)
  }

  /** The first entry called `name` and fed from `url`. */
  function FindSource(subs: seq<Sub>, name: Doc, url: Doc): (r: Option<nat>)
    ensures match r
            case Some(i) =>
              && i < |subs| && subs[i].name == name && subs[i].url == url
              && forall j :: 0 <= j < i ==> subs[j].name != name || subs[j].url != url
            case None => forall j :: 0 <= j < |subs| ==> subs[j].name != name || subs[j].url != url
  {
    FirstIndex(subs, (sub: Sub) => sub.name == name && sub.url == url)
  }

  predicate UniqueNames(subs: seq<Sub>) {
    forall i, j :: 0 <= i < j < |subs| ==> subs[i].name != subs[j].name
  }

  /** Same name and same url keep the live contribution; anything else
      starts without one. */
  function Inherit(env: Env, doc: Raw, live: seq<Sub>, sub: Sub): Sub {
    match FindSource(live, sub.name, sub.url)
    case Some(i) =>
      (match live[i].applied
       case Some(p) => sub.(applied := Some(Payload(p.url, env.clamp(doc.proxies, doc.other, p.content))))
       case None => sub.(applied := None))
    case None => sub.(applied := None)
  }

  function InheritAll(env: Env, doc: Raw, live: seq<Sub>): (r: seq<Sub>)
    ensures |r| == |doc.subs|
    ensures forall i :: 0 <= i < |r| ==> r[i] == Inherit(env, doc, live, doc.subs[i])
  {
    seq(|doc.subs|, i requires 0 <= i < |doc.subs| => Inherit(env, doc, live, doc.subs[i]))
  }

  function Merged(env: Env, raw: Raw, i: nat, payload: Payload, now: int): Raw
    requires i < |raw.subs|
  {
    var sub := raw.subs[i];
    var (proxies, other) := env.merge(raw.proxies, raw.other, sub.applied, payload.content);
    raw.(proxies := proxies, other := other,
         subs := raw.subs[i := sub.(lastUpdated := Some(now), applied := Some(payload))])
  }

  function Stamped(raw: Raw, name: Doc, now: int): Raw {
    match FindNamed(raw.subs, name)
    case Some(i) => raw.(subs := raw.subs[i := raw.subs[i].(lastUpdated := Some(now))])
    case None => raw
  }

  /** The candidate a mutation builds from the raw it finds in the lane, or
      `None` when it is turned away at once. */
  function Candidate(env: Env, job: Job, raw: Raw): Option<Raw> {
    match job
    case Put(doc) => if UniqueNames(doc.subs) then Some(doc.(subs := InheritAll(env, doc, raw.subs))) else None
    case ForcedPut(doc) => if UniqueNames(doc.subs) then Some(doc.(subs := InheritAll(env, doc, raw.subs))) else None
    case Patch(None, _) => Some(raw)
    case Patch(Some(patch), _) =>
      var c := raw.(tun := Some(env.mergeTun(patch, raw.tun)));
      if Parse(env, c).Some? then Some(c) else None
    case Edit(edit) =>
      (match env.edit(edit, raw.proxies, raw.other)
       case Some((proxies, other)) => Some(raw.(proxies := proxies, other := other))
       case None => None)
    case Add(name, url, interval, content, now) =>
      if FindNamed(raw.subs, name).Some? then None
      else
        var c := raw.(subs := raw.subs + [Sub(name, url, interval, Some(now), None)]);
        Some(Merged(env, c, |raw.subs|, Payload(url, content), now))
    case Delete(name) =>
      (match FindNamed(raw.subs, name)
       case Some(i) =>
         var (proxies, other) := env.drop(raw.proxies, raw.other, raw.subs[i].applied);
         Some(raw.(proxies := proxies, other := other, subs := Others(raw.subs, name)))
       case None => None)
    case Refresh(name, url, content, now) =>
      (match FindNamed(raw.subs, name)
       case Some(i) => if raw.subs[i].url == url then Some(Merged(env, raw, i, Payload(url, content), now)) else None
       case None => None)
    case LoopRefresh(name, url, content, now) =>
      (match FindSource(raw.subs, name, url)
       case Some(i) => Some(Merged(env, raw, i, Payload(url, content), now))
       case None => None)
    case Stamp(name, now) => Some(Stamped(raw, name, now))
    case GeoTick => Some(raw)
    case BootRollback => Some(raw)
    case BootPublication => Some(raw)
  }

  /** `retain(|s| s.name != name)`. */
  function Others(subs: seq<Sub>, name: Doc): seq<Sub> { Filter(subs, (sub: Sub) => sub.name != name) }

  /** How a mutation left the lane. */
  datatype Outcome = Rejected | Committed | RolledBack | Cut(written: bool) | Partial

  datatype Entry = Entry(job: Job, outcome: Outcome)

  // ---- the lane ----

  /** Where the lane holder is. `before` and `prior` are its copies of what was
      live before it published. */
  datatype Lane =
    | Free
    | Building(job: Job, cand: Raw)
    | Parsing(job: Job, cand: Raw, gen: nat)
    | Installing(job: Job, cand: Raw, gen: nat, res: Resolver, prior: Resolver, stage: nat)
    | Swapping(job: Job, cand: Raw, gen: nat, dns: Option<Resolver>, prior: Resolver)
    | Writing(job: Job, cand: Raw, dns: Option<Resolver>, prior: Resolver)
    | Publishing(job: Job, before: Raw, dns: Option<Resolver>, prior: Resolver)
    | Reconciling(job: Job, before: Raw, dns: Option<Resolver>, prior: Resolver)
    | Spawning(job: Job, before: Raw)
    | Awaiting(job: Job, before: Raw, id: nat)
    | Finishing(job: Job, before: Raw)
    | RollingBack

  /** `installs` are the outbound-interface bindings, oldest first. */
  datatype State = State(
    raw: Raw, run: Runtime, tun: TunState, lane: Lane, log: seq<Entry>, forced: bool, installs: seq<Install>)

  /** `bound` is the interface the mutation installed, if it did. */
  datatype Action =
    | Begin(job: Job, bound: Option<Doc>)
    | Rebuilt(ok: bool)
    | Parsed(ok: bool, stripped: bool)
    | Publication
    | DnsPublished(up: bool)
    | Reconcile
    | Spawn
    | SpawnReady
    | SpawnFails
    | Finish(ok: bool)
    | Cancel
    | CaptureGateway(id: nat)
    | CaptureNetwork(id: nat)
    | PassGate(id: nat)
    | Exit(id: nat)
    | CoreDone(id: nat)
    | InstallOwn(id: nat, iface: Doc)
    | BootGivesUp
    | BootPublish
    | BootRollsBack

  function Release(s: State, job: Job, outcome: Outcome): State {
    s.(lane := Free, log := s.log + [Entry(job, outcome)], installs := Dropped(s.installs))
  }

  function Installed(installs: seq<Install>, bound: Option<Doc>): seq<Install> {
    if bound.Some? then installs + [Install(bound.value, InLane)] else installs
  }

  /** A binding can be installed for this candidate: the document is to be
      rebuilt or its `tun:` section changed, and it asks for a global route. */
  predicate MayInstall(env: Env, s: State, job: Job, cand: Raw) {
    Preinstalls(job) && (job.Patch? ==> cand != s.raw) && env.globalRoute(cand.tun)
  }

  function Begun(env: Env, s: State, job: Job, bound: Option<Doc>): Option<State> {
    if s.lane != Free || FromStartup(job) then None
    else match Candidate(env, job, s.raw)
      case None => if bound.Some? then None else Some(Release(s, job, Rejected))
      case Some(c) =>
        var installs := Installed(s.installs, bound);
        if bound.Some? && !MayInstall(env, s, job, c) then None
        else if job.Stamp? then Some(Release(s.(raw := c), job, Committed))
        else if job.Patch? && c == s.raw then Some(s.(lane := Finishing(job, s.raw)))
        else if job.Patch? then Some(s.(lane := Writing(job, c, None, s.run.tunnel), installs := installs))
        else Some(s.(lane := Building(job, c), installs := installs))
  }

  /** A refused candidate; the background loop still stamps its entry. */
  function Refuse(s: State, job: Job): State {
    if job.LoopRefresh? then Release(s.(raw := Stamped(s.raw, job.name, job.now)), job, Rejected)
    else Release(s, job, Rejected)
  }

  /** The rebuild finished. A forced document of which nothing builds is
      committed over the old routes and resolver. */
  function AfterRebuild(env: Env, s: State, ok: bool): Option<State> {
    if !s.lane.Building? then None
    else
      var (job, cand) := (s.lane.job, s.lane.cand);
      if ok && (job.Put? ==> Parse(env, cand).Some?) then
        if job.GeoTick? then Some(s.(lane := Parsing(job, cand, s.run.routes)))
        else Some(s.(lane := Parsing(job, cand, s.run.next), run := s.run.(next := s.run.next + 1)))
      else if !ok && job.ForcedPut? then Some(s.(lane := Writing(job, cand, None, s.run.tunnel), forced := true))
      else Some(Refuse(s, job))
  }

  /** `dns_inputs_equal` and no runtime reference on either side. */
  predicate Unchanged(env: Env, before: Raw, cand: Raw) {
    InputsOf(env, before) == InputsOf(env, cand) && !env.runtimeRefs(before.dns) && !env.runtimeRefs(cand.dns)
  }

  /** `reconcile_dns_config`, or the geodata parse with the rules commit that
      follows it. */
  function AfterParse(env: Env, s: State, ok: bool, stripped: bool): Option<State> {
    if !s.lane.Parsing? then None
    else
      var (job, cand, gen, geo) := (s.lane.job, s.lane.cand, s.lane.gen, s.run.geo);
      var install := Installing(job, cand, gen, Resolver(InputsOf(env, cand), gen), s.run.tunnel, 0);
      if job.GeoTick? then
        if ok then Some(s.(lane := install, run := s.run.(geo := geo.(rules := geo.rules + 1))))
        else Some(Release(s.(run := s.run.(geo := geo.(rules := geo.rules + 1, kept := geo.kept + 1))), job, Committed))
      else if Unchanged(env, s.raw, cand) then Some(s.(lane := Swapping(job, cand, gen, None, s.run.tunnel)))
      else if ok then Some(s.(lane := install))
      else if job.ForcedPut? then Some(ForcedParse(env, s, job, cand, gen, stripped))
      else Some(Refuse(s, job))
  }

  /** A forced document whose `dns:` section does not parse keeps the old
      resolver, or gets one built without the section if the old one would
      lose its references and that parse succeeds. */
  function ForcedParse(env: Env, s: State, job: Job, cand: Raw, gen: nat, stripped: bool): State {
    var bare := Resolver(InputsOf(env, cand.(dns := env.withoutDns(cand.dns))), gen);
    if env.runtimeRefs(s.raw.dns) && stripped
    then s.(lane := Installing(job, cand, gen, bare, s.run.tunnel, 0), forced := true)
    else s.(lane := Swapping(job, cand, gen, None, s.run.tunnel), forced := true)
  }

  function Hook(env: Env, r: Resolver): Option<Resolver> { if env.dnsEnabled(r.inputs.dns) then Some(r) else None }

  /** A rebuild brings its provider registries along; a geodata tick leaves
      them alone. */
  function Swapped(run: Runtime, job: Job, gen: nat): Runtime {
    if job.GeoTick? then run.(routes := gen)
    else run.(routes := gen, ruleProviders := gen, proxyProviders := gen)
  }

  /** One publication of the synchronous part: three resolver consumers, the
      route table with the provider registries, then the document. */
  function Published(env: Env, s: State): Option<State> {
    match s.lane
    case Installing(job, cand, gen, res, prior, stage) =>
      if stage == 0 then Some(s.(run := s.run.(tunnel := res), lane := s.lane.(stage := 1)))
      else if stage == 1 then Some(s.(run := s.run.(hook := Hook(env, res)), lane := s.lane.(stage := 2)))
      else
        var geo := if job.GeoTick? then s.run.geo.(resolver := s.run.geo.resolver + 1) else s.run.geo;
        Some(s.(run := s.run.(dns := if s.run.dns.Some? then Some(res) else None, geo := geo),
                lane := Swapping(job, cand, gen, Some(res), prior)))
    case Swapping(job, cand, gen, dns, prior) =>
      Some(s.(run := Swapped(s.run, job, gen), lane := Writing(job, cand, dns, prior)))
    case Writing(job, cand, dns, prior) =>
      Some(s.(raw := cand, lane := Publishing(job, s.raw, dns, prior)))
    case _ => None
  }

  /** Jobs whose candidate can owe no TUN reconcile. */
  predicate SkipsReconcile(job: Job) { job.LoopRefresh? || job.GeoTick? }

  function DnsUp(env: Env, s: State, up: bool): Option<State> {
    if !s.lane.Publishing? then None
    else
      var run := match s.lane.dns
        case None => s.run
        case Some(r) => s.run.(tunnel := r, hook := Hook(env, r), dns := if up then Some(r) else None);
      if SkipsReconcile(s.lane.job) then Some(Release(s.(run := run), s.lane.job, Committed))
      else Some(s.(run := run, lane := Reconciling(s.lane.job, s.lane.before, s.lane.dns, s.lane.prior)))
  }

  predicate TunChanged(env: Env, before: Raw, after: Raw) {
    if before.tun == after.tun && before.maxConnections == after.maxConnections
       && env.fakeIpRange(before.dns) == env.fakeIpRange(after.dns)
    then false
    else Parse(env, before).None? || Parse(env, after).None? || Parse(env, before) != Parse(env, after)
  }

  predicate SameFake(env: Env, a: Resolver, b: Resolver) {
    env.gateway(a.inputs.dns) == env.gateway(b.inputs.dns) && env.network(a.inputs.dns) == env.network(b.inputs.dns)
  }

  function Done(s: State, job: Job, before: Raw): State {
    if job.Patch? then s.(lane := Finishing(job, before), installs := Dropped(s.installs))
    else Release(s, job, Committed)
  }

  /** The decision of `swap_config_and_reconcile_tun`, with the stop that
      precedes a spawn. */
  function Reconciled(env: Env, s: State): Option<State> {
    if !s.lane.Reconciling? then None
    else
      var (job, before, dns, prior) := (s.lane.job, s.lane.before, s.lane.dns, s.lane.prior);
      var fakeChanged := dns.Some? && !SameFake(env, prior, s.run.tunnel);
      var spawn := s.(tun := Stopped(s.tun), lane := Spawning(job, before));
      if Enabled(before) == Enabled(s.raw) then
        if Enabled(before) && (fakeChanged || TunChanged(env, before, s.raw)) then Some(spawn)
        else Some(Done(s, job, before))
      else if Enabled(s.raw) then Some(spawn)
      else Some(Done(s.(tun := Stopped(s.tun)), job, before))
  }

  function RollBack(s: State, job: Job): State { Release(s.(raw := Disabled(s.raw)), job, RolledBack) }

  function Spawned(env: Env, s: State): Option<State> {
    if !s.lane.Spawning? then None
    else match Parse(env, s.raw)
      case None => Some(RollBack(s, s.lane.job))
      case Some(cfg) =>
        if !cfg.enable then Some(RollBack(s, s.lane.job))
        else
          var l := Listener(cfg, None, None, Starting, false);
          Some(s.(tun := s.tun.(listeners := s.tun.listeners + [l]),
                  lane := Awaiting(s.lane.job, s.lane.before, |s.tun.listeners|),
                  installs := Taken(s.installs, |s.tun.listeners|)))
  }

  function ReadySeen(s: State): Option<State> {
    if s.lane.Awaiting? && s.lane.id < |s.tun.listeners| && s.tun.listeners[s.lane.id].ready then
      Some(Done(s.(tun := Stored(s.tun, s.lane.id)), s.lane.job, s.lane.before))
    else None
  }

  /** The listener failed or the readiness wait timed out. */
  function SpawnGivesUp(s: State): Option<State> {
    if s.lane.Awaiting? && s.lane.id < |s.tun.listeners| then
      Some(RollBack(s.(tun := Abort(s.tun, s.lane.id)), s.lane.job))
    else None
  }

  /** The last part of `PATCH /configs`; a failed log-level reload skips it. */
  function Finished(env: Env, s: State, ok: bool): Option<State> {
    if !s.lane.Finishing? || !s.lane.job.Patch? then None
    else if ok then
      Some(Release(s.(raw := s.raw.(other := env.general(s.lane.job.general, s.raw.other))), s.lane.job, Committed))
    else Some(Release(s, s.lane.job, Partial))
  }

  /** The handler is dropped at an await; a listener it was waiting for runs
      on without a stored handle. */
  function Cancelled(s: State): Option<State> {
    match s.lane
    case Building(job, _) => Some(Release(s, job, Cut(false)))
    case Parsing(job, _, _) => Some(Release(s, job, Cut(false)))
    case Publishing(job, _, _, _) => Some(Release(s, job, Cut(true)))
    case Reconciling(job, _, _, _) => Some(Release(s, job, Cut(true)))
    case Spawning(job, _) => Some(Release(s, job, Cut(true)))
    case Awaiting(job, _, _) => Some(Release(s, job, Cut(true)))
    case _ => None
  }

  // ---- listener tasks ----

  function SetListener(s: State, i: nat, l: Listener): State
    requires i < |s.tun.listeners|
  {
    s.(tun := s.tun.(listeners := s.tun.listeners[i := l]))
  }

  function ListenerStep(env: Env, s: State, a: Action): Option<State>
    requires a.CaptureGateway? || a.CaptureNetwork? || a.PassGate? || a.Exit? || a.CoreDone?
  {
    if a.id >= |s.tun.listeners| then None
    else
      var i, l := a.id, s.tun.listeners[a.id];
      match a
      case CaptureGateway(_) =>
        if l.phase.Starting? && l.gateway.None?
        then Some(SetListener(s, i, l.(gateway := Some(env.gateway(s.run.tunnel.inputs.dns))))) else None
      case CaptureNetwork(_) =>
        if l.phase.Starting? && l.gateway.Some? && l.network.None?
        then Some(SetListener(s, i, l.(network := Some(env.network(s.run.tunnel.inputs.dns))))) else None
      case PassGate(_) =>
        if l.phase.Starting? && l.network.Some?
           && (forall j :: 0 <= j < |s.tun.listeners| ==> !CoreAlive(s.tun.listeners[j]))
        then Some(SetListener(s, i, l.(phase := Live, ready := true))) else None
      case Exit(_) =>
        if l.phase.Starting? || l.phase.Live? then Some(SetListener(s, i, Aborted(l))) else None
      case CoreDone(_) =>
        if l.phase.Closing? then Some(SetListener(s, i, l.(phase := Dead))) else None
  }

  /** A starting listener that was handed no binding installs its own. */
  function OwnInstalled(s: State, i: nat, iface: Doc): Option<State> {
    if i < |s.tun.listeners| && s.tun.listeners[i].phase.Starting?
       && (forall k :: 0 <= k < |s.installs| ==> s.installs[k].guard != InListener(i))
    then Some(s.(installs := s.installs + [Install(iface, InListener(i))]))
    else None
  }

  // ---- the startup task ----

  function BootFails(s: State): Option<State> {
    if s.tun.startup.Pending? && s.tun.listeners != [] then
      Some(s.(tun := Abort(s.tun, BOOT).(startup := Failed)))
    else None
  }

  /** `rollback_committed_enable` at the end of startup. */
  function BootRolled(s: State): Option<State> {
    if (s.lane == Free && s.tun.startup.Failed?) || s.lane.RollingBack? then
      var raw := if HasTun(s.tun) then s.raw else Disabled(s.raw);
      Some(Release(s.(raw := raw, tun := s.tun.(startup := Settled)),
                   if s.lane == Free then BootRollback else BootPublication,
                   if HasTun(s.tun) then Rejected else RolledBack))
    else None
  }

  /** `publish_tun_if_committed`. */
  function BootPublished(env: Env, s: State): Option<State> {
    if s.lane != Free || !s.tun.startup.Pending? || s.tun.listeners == [] || !s.tun.listeners[BOOT].ready then None
    else
      var l := s.tun.listeners[BOOT];
      if !(Enabled(s.raw) && Parse(env, s.raw) == Some(l.cfg)) then
        Some(Release(s.(tun := Abort(s.tun, BOOT).(startup := Settled)), BootPublication, Rejected))
      else if !l.phase.Live? then Some(s.(lane := RollingBack))
      else Some(Release(s.(tun := Stored(s.tun, BOOT).(startup := Settled)), BootPublication, Committed))
  }

  function Step(env: Env, s: State, a: Action): Option<State> {
    match a
    case Begin(job, bound) => Begun(env, s, job, bound)
    case Rebuilt(ok) => AfterRebuild(env, s, ok)
    case Parsed(ok, stripped) => AfterParse(env, s, ok, stripped)
    case Publication => Published(env, s)
    case DnsPublished(up) => DnsUp(env, s, up)
    case Reconcile => Reconciled(env, s)
    case Spawn => Spawned(env, s)
    case SpawnReady => ReadySeen(s)
    case SpawnFails => SpawnGivesUp(s)
    case Finish(ok) => Finished(env, s, ok)
    case Cancel => Cancelled(s)
    case InstallOwn(id, iface) => OwnInstalled(s, id, iface)
    case BootGivesUp => BootFails(s)
    case BootPublish => BootPublished(env, s)
    case BootRollsBack => BootRolled(s)
    case _ => ListenerStep(env, s, a)
  }

  // ---- kinds of steps ----

  predicate Builds(a: Action) { a.Rebuilt? || a.Parsed? }

  predicate Publishes(a: Action) { a.Publication? || a.DnsPublished? }

  predicate Spawns(a: Action) { a.Reconcile? || a.Spawn? || a.SpawnReady? || a.SpawnFails? }

  predicate Closes(a: Action) { a.Finish? || a.Cancel? || a.BootPublish? || a.BootRollsBack? }

  /** Steps of listeners and of a startup that gives up touch listeners and
      their bindings only. */
  predicate Quiet(a: Action) { !a.Begin? && !Builds(a) && !Publishes(a) && !Spawns(a) && !Closes(a) }

  lemma {:induction false} QuietFrame(env: Env, s: State, a: Action)
    requires Quiet(a) && Step(env, s, a).Some?
    ensures Step(env, s, a).value == s.(tun := Step(env, s, a).value.tun, installs := Step(env, s, a).value.installs)
    ensures Step(env, s, a).value.tun.slot == s.tun.slot
  {
  }

  function Run(env: Env, s: State, actions: seq<Action>): Option<State>
    decreases |actions|
  {
    if actions == [] then Some(s)
    else match Step(env, s, actions[0])
      case None => None
      case Some(s') => Run(env, s', actions[1..])
  }

  lemma {:induction false} RunConcat(env: Env, s: State, a: seq<Action>, b: seq<Action>)
    requires Run(env, s, a).Some?
    ensures Run(env, s, a + b) == Run(env, Run(env, s, a).value, b)
    decreases |a|
  {
    if a == [] {
      assert a + b == b;
    } else {
      assert (a + b)[1..] == a[1..] + b;
      RunConcat(env, Step(env, s, a[0]).value, a[1..], b);
    }
  }

  /** After loading the configuration: resolver and routes are built from it,
      and the boot listener exists if TUN is on. */
  predicate Boot(env: Env, s: State) {
    && s.lane == Free && s.log == [] && !s.forced
    && s.run.tunnel == Resolver(InputsOf(env, s.raw), s.run.routes) && s.run.routes < s.run.next
    && s.run.hook == Hook(env, s.run.tunnel)
    && (s.run.dns.Some? ==> s.run.dns.value == s.run.tunnel)
    && s.run.geo == Geo(0, 0, 0) && s.run.ruleProviders == s.run.proxyProviders == s.run.routes
    && (forall i :: 0 <= i < |s.installs| ==> s.installs[i].guard == InListener(BOOT))
    && s.tun.slot == None && |s.tun.listeners| == 1
    && (forall i :: 0 <= i < |s.raw.subs| && s.raw.subs[i].applied.Some? ==>
          s.raw.subs[i].applied.value.url == s.raw.subs[i].url)
    && var l := s.tun.listeners[BOOT];
       if Enabled(s.raw) then
         s.tun.startup.Pending? && Parse(env, s.raw) == Some(l.cfg) && l == Listener(l.cfg, None, None, Starting, false)
       else
         s.tun.startup.Settled? && l == Listener(l.cfg, None, None, Dead, false)
  }
}
