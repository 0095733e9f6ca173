/** The outbound-interface binding a mutation installs: in effect from its
    first dial to the end of the spawn, then the listener's or gone. */
module CommitBindings {
  import opened CommitOutcomes
  import opened CommitRejections
  import opened CommitState
  import opened Sequences
  import opened Wrappers

  /** The newest binding whose holder is there is the one in effect, and none
      is exactly if no holder is. */
  lemma {:induction false} EffectiveExact(installs: seq<Install>, t: TunState, k: nat)
    ensures Effective(installs, t).None? <==> forall i :: 0 <= i < |installs| ==> !GuardAlive(t, installs[i].guard)
    ensures k < |installs| && GuardAlive(t, installs[k].guard)
              && (forall i :: k < i < |installs| ==> !GuardAlive(t, installs[i].guard)) ==>
              Effective(installs, t) == Some(installs[k].iface)
  {
    if installs == [] {
    } else {
      EffectiveExact(installs[..|installs| - 1], t, k);
    }
  }

  // ---- one mutation ----

  function Mine(bound: Option<Doc>, guard: Guard): seq<Install> {
    if bound.Some? then [Install(bound.value, guard)] else []
  }

  /** The bindings of `u`, which `s` became with the mutation in the lane: its
      own comes last until the spawn hands it to the new listener, or until
      there turns out to be none. */
  predicate Binds(s: State, bound: Option<Doc>, u: State) {
    var n := |s.tun.listeners|;
    if u.lane == Free || u.lane.Finishing? then
      || (|u.tun.listeners| == n && u.installs == s.installs)
      || (|u.tun.listeners| == n + 1 && u.installs == s.installs + Mine(bound, InListener(n)))
    else if u.lane.Awaiting? then
      |u.tun.listeners| == n + 1 && u.lane.id == n && u.installs == s.installs + Mine(bound, InListener(n))
    else |u.tun.listeners| == n && u.installs == s.installs + Mine(bound, InLane)
  }

  lemma {:induction false} DropMine(installs: seq<Install>, bound: Option<Doc>, guard: Guard)
    requires NoneInLane(installs)
    ensures Dropped(installs + Mine(bound, guard)) == installs + if guard.InLane? then [] else Mine(bound, guard)
  {
    if guard.InLane? {
      DroppedParts(installs, Mine(bound, guard), []);
      assert installs + (Mine(bound, guard) + []) == installs + Mine(bound, guard);
    } else {
      DroppedNone(installs + Mine(bound, guard));
    }
  }

  lemma {:induction false} TakeMine(installs: seq<Install>, bound: Option<Doc>, id: nat)
    requires NoneInLane(installs)
    ensures Taken(installs + Mine(bound, InLane), id) == installs + Mine(bound, InListener(id))
  {
  }

  ghost predicate BindsOn(s: State, bound: Option<Doc>, r: Option<State>) {
    forall u :: r == Some(u) ==> Binds(s, bound, u)
  }

  /** What the lemmas above say about the places the binding can be. */
  ghost predicate Drops(s: State, bound: Option<Doc>) {
    var n := |s.tun.listeners|;
    && Dropped(s.installs) == s.installs
    && Dropped(s.installs + Mine(bound, InLane)) == s.installs
    && Dropped(s.installs + Mine(bound, InListener(n))) == s.installs + Mine(bound, InListener(n))
    && Taken(s.installs + Mine(bound, InLane), n) == s.installs + Mine(bound, InListener(n))
  }

  lemma {:induction false} DropsAll(s: State, bound: Option<Doc>)
    requires NoneInLane(s.installs)
    ensures Drops(s, bound)
  {
    DroppedNone(s.installs);
    DropMine(s.installs, bound, InLane);
    DropMine(s.installs, bound, InListener(|s.tun.listeners|));
    TakeMine(s.installs, bound, |s.tun.listeners|);
  }

  /** How the bindings look after entering the lane. */
  lemma {:induction false} BegunInstalls(env: Env, s: State, job: Job, bound: Option<Doc>)
    requires Begun(env, s, job, bound).Some?
    ensures var u := Begun(env, s, job, bound).value;
            && u.tun == s.tun && !u.lane.Awaiting?
            && u.installs == (if u.lane == Free then Dropped(s.installs) else if u.lane.Finishing? then s.installs
                              else Installed(s.installs, bound))
  {
  }

  lemma {:induction false} BegunBinds(env: Env, s: State, job: Job, bound: Option<Doc>)
    requires NoneInLane(s.installs) && Begun(env, s, job, bound).Some?
    ensures Binds(s, bound, Begun(env, s, job, bound).value)
  {
    BegunInstalls(env, s, job, bound);
    DroppedNone(s.installs);
    assert Installed(s.installs, bound) == s.installs + Mine(bound, InLane);
  }

  /** A binding is installed for a candidate that asks for a global route, by
      a patch only if it changes the section, by a tick, a background refresh
      or a stamp never. */
  predicate MayBind(env: Env, s: State, job: Job) {
    match Candidate(env, job, s.raw)
    case None => false
    case Some(c) =>
      env.globalRoute(c.tun) && (job.Patch? ==> c != s.raw) && !job.GeoTick? && !job.LoopRefresh? && !job.Stamp?
  }

  /** So exactly: a mutation may enter a free lane with a binding. */
  lemma {:induction false} BindsExactly(env: Env, s: State, job: Job, iface: Doc)
    requires s.lane == Free && !FromStartup(job)
    ensures Begun(env, s, job, Some(iface)).Some? <==> MayBind(env, s, job)
  {
  }

  /** A step before the reconcile: the binding stays, or goes with the lane. */
  ghost predicate PlainOn(u: State, r: Option<State>) {
    forall u' :: r == Some(u') ==>
      && |u'.tun.listeners| == |u.tun.listeners| && !u'.lane.Awaiting? && !u'.lane.Finishing?
      && !u.lane.Awaiting? && !u.lane.Finishing?
      && u'.installs == if u'.lane == Free then Dropped(u.installs) else u.installs
  }

  lemma {:induction false} RebuiltPlain(env: Env, u: State, ok: bool)
    ensures PlainOn(u, AfterRebuild(env, u, ok))
  {
  }

  lemma {:induction false} ParsedPlain(env: Env, u: State, ok: bool, stripped: bool)
    ensures PlainOn(u, AfterParse(env, u, ok, stripped))
  {
  }

  lemma {:induction false} PublishPlain(env: Env, u: State, a: Action)
    requires Publishes(a)
    ensures PlainOn(u, Step(env, u, a))
  {
  }

  lemma {:induction false} BuildPlain(env: Env, u: State, a: Action)
    requires Builds(a) || Publishes(a)
    ensures PlainOn(u, Step(env, u, a))
  {
    match a {
      case Rebuilt(ok) => RebuiltPlain(env, u, ok);
      case Parsed(ok, stripped) => ParsedPlain(env, u, ok, stripped);
      case _ => PublishPlain(env, u, a);
    }
  }

  lemma {:induction false} PlainBinds(s: State, bound: Option<Doc>, u: State, r: Option<State>)
    requires Drops(s, bound) && Binds(s, bound, u) && u.lane != Free && PlainOn(u, r)
    ensures BindsOn(s, bound, r)
  {
  }

  /** The reconcile keeps the binding for the spawn, or drops it. */
  ghost predicate ReconciledOn(u: State, r: Option<State>) {
    forall u' :: r == Some(u') ==>
      && |u'.tun.listeners| == |u.tun.listeners| && u.lane.Reconciling?
      && if u'.lane == Free || u'.lane.Finishing? then u'.installs == Dropped(u.installs)
         else u'.lane.Spawning? && u'.installs == u.installs
  }

  lemma {:induction false} ReconcilePlain(env: Env, u: State)
    ensures ReconciledOn(u, Reconciled(env, u))
  {
  }

  lemma {:induction false} ReconcileBinds(env: Env, s: State, bound: Option<Doc>, u: State, r: Option<State>)
    requires Drops(s, bound) && Binds(s, bound, u) && ReconciledOn(u, r)
    ensures BindsOn(s, bound, r)
  {
  }

  lemma {:induction false} SpawnBinds(env: Env, s: State, bound: Option<Doc>, u: State)
    requires Drops(s, bound) && Binds(s, bound, u)
    ensures BindsOn(s, bound, Spawned(env, u))
  {
  }

  lemma {:induction false} AwaitBinds(s: State, bound: Option<Doc>, u: State)
    requires Drops(s, bound) && Binds(s, bound, u)
    ensures BindsOn(s, bound, ReadySeen(u)) && BindsOn(s, bound, SpawnGivesUp(u))
  {
  }

  /** The end of a mutation drops what the lane still holds. */
  ghost predicate FreedOn(u: State, r: Option<State>) {
    forall u' :: r == Some(u') ==>
      u'.lane == Free && |u'.tun.listeners| == |u.tun.listeners| && u'.installs == Dropped(u.installs)
  }

  lemma {:induction false} CloseFrees(env: Env, u: State, a: Action)
    requires u.lane != Free && !u.lane.RollingBack? && (a.Begin? || Closes(a))
    ensures FreedOn(u, Step(env, u, a))
  {
  }

  lemma {:induction false} FreedBinds(s: State, bound: Option<Doc>, u: State, r: Option<State>)
    requires Drops(s, bound) && Binds(s, bound, u) && FreedOn(u, r)
    ensures BindsOn(s, bound, r)
  {
  }

  lemma {:induction false} QuietBinds(env: Env, s: State, bound: Option<Doc>, u: State, a: Action)
    requires Binds(s, bound, u) && Quiet(a) && !a.InstallOwn?
    ensures BindsOn(s, bound, Step(env, u, a))
  {
  }

  lemma {:induction false} StepBinds(env: Env, s: State, bound: Option<Doc>, u: State, a: Action)
    requires NoneInLane(s.installs) && Binds(s, bound, u) && u.lane != Free && !u.lane.RollingBack? && !a.InstallOwn?
    ensures BindsOn(s, bound, Step(env, u, a))
  {
    DropsAll(s, bound);
    if Builds(a) || Publishes(a) {
      BuildPlain(env, u, a);
      PlainBinds(s, bound, u, Step(env, u, a));
    }
    else if Quiet(a) { QuietBinds(env, s, bound, u, a); }
    else if a.Reconcile? {
      ReconcilePlain(env, u);
      ReconcileBinds(env, s, bound, u, Reconciled(env, u));
    }
    else if a.Spawn? { SpawnBinds(env, s, bound, u); }
    else if Spawns(a) { AwaitBinds(s, bound, u); }
    else {
      CloseFrees(env, u, a);
      FreedBinds(s, bound, u, Step(env, u, a));
    }
  }

  predicate NoOwn(actions: seq<Action>) { forall i :: 0 <= i < |actions| ==> !actions[i].InstallOwn? }

  lemma {:induction false} HeldBinds(
      env: Env, s: State, bound: Option<Doc>, u: State, actions: seq<Action>, after: State)
    requires NoneInLane(s.installs) && Binds(s, bound, u) && u.lane != Free && !u.lane.RollingBack?
    requires HeldUntil(env, u, actions, after) && NoOwn(actions)
    ensures Binds(s, bound, after)
    decreases |actions|
  {
    var u' := Step(env, u, actions[0]).value;
    StepBinds(env, s, bound, u, actions[0]);
    assert Step(env, u, actions[0]) == Some(u');
    if |actions| == 1 {
    } else {
      HeldKeepsLog(env, u, actions[0]);
      HeldBinds(env, s, bound, u', actions[1..], after);
    }
  }

  lemma {:induction false} LastInEffect(installs: seq<Install>, iface: Doc, guard: Guard, t: TunState)
    requires GuardAlive(t, guard)
    ensures Effective(installs + [Install(iface, guard)], t) == Some(iface)
  {
  }

  /** In every run, for every mutation and every point up to its end, as long
      as listeners install nothing themselves: the interface it installed is
      the one in effect until the spawn, and after it as long as the new
      listener lives. A mutation that starts no listener leaves the bindings it
      found, one that does adds exactly its own, in the listener's hands. */
  lemma {:induction false} BindingInEffect(
      env: Env, boot: State, before: seq<Action>, s: State, job: Job, bound: Option<Doc>, actions: seq<Action>,
      u: State)
    requires Boot(env, boot) && Run(env, boot, before) == Some(s) && s.lane == Free
    requires HeldUntil(env, s, [Begin(job, bound)] + actions, u) && NoOwn(actions)
    ensures bound.Some? ==> MayBind(env, s, job)
    ensures bound.Some? && (u.lane != Free && !u.lane.Finishing? && !u.lane.Awaiting?) ==>
              Effective(u.installs, u.tun) == bound
    ensures var n := |s.tun.listeners|;
            if |u.tun.listeners| > n then
              && u.installs == s.installs + Mine(bound, InListener(n))
              && (bound.Some? && GuardAlive(u.tun, InListener(n)) ==> Effective(u.installs, u.tun) == bound)
            else u.lane == Free || u.lane.Finishing? ==> u.installs == s.installs
  {
    GuardsDropped(env, boot, before);
    assert ([Begin(job, bound)] + actions)[1..] == actions;
    BegunBinds(env, s, job, bound);
    if actions != [] {
      BegunHeld(env, s, job, bound);
      HeldBinds(env, s, bound, Begun(env, s, job, bound).value, actions, u);
    }
    if bound.Some? {
      BindsExactly(env, s, job, bound.value);
      if u.lane != Free && !u.lane.Finishing? && !u.lane.Awaiting? {
        LastInEffect(s.installs, bound.value, InLane, u.tun);
      }
      if |u.tun.listeners| > |s.tun.listeners| && GuardAlive(u.tun, InListener(|s.tun.listeners|)) {
        LastInEffect(s.installs, bound.value, InListener(|s.tun.listeners|), u.tun);
      }
    }
  }

  // ---- one binding each ----

  /** No two bindings have the same holder, and holders exist. */
  predicate OneEach(s: State) {
    && (forall i, j :: 0 <= i < j < |s.installs| ==> s.installs[i].guard != s.installs[j].guard)
    && (forall i :: 0 <= i < |s.installs| && s.installs[i].guard.InListener? ==>
          s.installs[i].guard.id < |s.tun.listeners|)
    && (s.lane == Free ==> NoneInLane(s.installs))
  }

  lemma {:induction false} DropKeepsOne(installs: seq<Install>)
    requires forall i, j :: 0 <= i < j < |installs| ==> installs[i].guard != installs[j].guard
    ensures var r := Dropped(installs);
            && (forall i, j :: 0 <= i < j < |r| ==> r[i].guard != r[j].guard)
            && (forall i :: 0 <= i < |r| ==> r[i] in installs && r[i].guard.InListener?)
  {
    if installs == [] {
    } else {
      var n := |installs| - 1;
      var r, x := Dropped(installs[..n]), installs[n];
      DropKeepsOne(installs[..n]);
      assert Dropped(installs) == r + if x.guard.InListener? then [x] else [];
      forall i | 0 <= i < |r| ensures r[i].guard != x.guard && r[i] in installs {
        var k :| 0 <= k < n && installs[..n][k] == r[i];
        assert installs[k] == r[i];
      }
    }
  }

  /** A step that leaves the bindings, or drops the lane's. */
  predicate LeavesOrDrops(s: State, s': State) {
    && |s'.tun.listeners| == |s.tun.listeners|
    && (s'.installs == Dropped(s.installs) || (s'.installs == s.installs && (s'.lane == Free ==> s.lane == Free)))
  }

  lemma {:induction false} BuildInstalls(env: Env, s: State, a: Action)
    requires Step(env, s, a).Some? && (Builds(a) || Publishes(a))
    ensures LeavesOrDrops(s, Step(env, s, a).value)
  {
    BuildPlain(env, s, a);
    assert Step(env, s, a) == Some(Step(env, s, a).value);
  }

  lemma {:induction false} LateInstalls(env: Env, s: State, a: Action)
    requires Step(env, s, a).Some? && (a.Reconcile? || a.SpawnReady? || a.SpawnFails? || Closes(a))
    ensures LeavesOrDrops(s, Step(env, s, a).value)
  {
  }

  lemma {:induction false} ListenerInstalls(env: Env, s: State, a: Action)
    requires Step(env, s, a).Some? && Quiet(a) && !a.InstallOwn?
    ensures LeavesOrDrops(s, Step(env, s, a).value)
  {
    QuietFrame(env, s, a);
  }

  lemma {:induction false} LeavesOrDropsOne(s: State, s': State)
    requires OneEach(s) && LeavesOrDrops(s, s')
    ensures OneEach(s')
  {
    DropKeepsOne(s.installs);
  }

  lemma {:induction false} BeginKeepsOne(env: Env, s: State, job: Job, bound: Option<Doc>)
    requires OneEach(s) && Begun(env, s, job, bound).Some?
    ensures OneEach(Begun(env, s, job, bound).value)
  {
    BegunInstalls(env, s, job, bound);
    DropKeepsOne(s.installs);
    assert s.lane == Free;
  }

  lemma {:induction false} SpawnKeepsOne(env: Env, s: State)
    requires OneEach(s) && Spawned(env, s).Some?
    ensures OneEach(Spawned(env, s).value)
  {
    DropKeepsOne(s.installs);
  }

  lemma {:induction false} OwnKeepsOne(s: State, i: nat, iface: Doc)
    requires OneEach(s) && OwnInstalled(s, i, iface).Some?
    ensures OneEach(OwnInstalled(s, i, iface).value)
  {
  }

  lemma {:induction false} StepKeepsOne(env: Env, s: State, a: Action)
    requires OneEach(s) && Step(env, s, a).Some?
    ensures OneEach(Step(env, s, a).value)
  {
    if a.Begin? { BeginKeepsOne(env, s, a.job, a.bound); }
    else if a.Spawn? { SpawnKeepsOne(env, s); }
    else if a.InstallOwn? { OwnKeepsOne(s, a.id, a.iface); }
    else {
      if Builds(a) || Publishes(a) { BuildInstalls(env, s, a); }
      else if Quiet(a) { ListenerInstalls(env, s, a); }
      else { LateInstalls(env, s, a); }
      LeavesOrDropsOne(s, Step(env, s, a).value);
    }
  }

  /** Over every run nobody holds two bindings: a listener that was handed one
      installs none of its own. */
  lemma {:induction false} NobodyHoldsTwo(env: Env, s: State, actions: seq<Action>)
    requires OneEach(s) && Run(env, s, actions).Some?
    ensures OneEach(Run(env, s, actions).value)
    decreases |actions|
  {
    if actions == [] {
    } else {
      StepKeepsOne(env, s, actions[0]);
      NobodyHoldsTwo(env, Step(env, s, actions[0]).value, actions[1..]);
    }
  }
}
