/** When a commit restarts the TUN listener, and when it leaves it alone. */
module CommitRestarts {
  import opened CommitOutcomes
  import opened CommitRejections
  import opened CommitState
  import opened Wrappers

  predicate HasSpawn(actions: seq<Action>) { exists i :: 0 <= i < |actions| && actions[i].Spawn? }

  /** No step of the lane touches the slot or a listener; what changes them is
      what listeners and startup do themselves. */
  predicate LaneLeavesTun(env: Env, s: State, actions: seq<Action>)
    decreases |actions|
  {
    actions == [] ||
    match Step(env, s, actions[0])
    case None => true
    case Some(s') => (!Quiet(actions[0]) ==> s'.tun == s.tun) && LaneLeavesTun(env, s', actions[1..])
  }

  /** Listener `i` is gone, and the slot belongs to nobody or to a listener
      from number `n` on. */
  predicate Gone(t: TunState, i: nat, n: nat) {
    && i < n <= |t.listeners| && !t.listeners[i].phase.Starting? && !t.listeners[i].phase.Live?
    && (t.slot.Some? ==> n <= t.slot.value)
  }

  /** The listener stored in `t` has been stopped, and is not the one stored
      now. */
  predicate Retired(t: TunState, t': TunState) {
    && (t'.slot.Some? ==> |t.listeners| <= t'.slot.value)
    && (t.slot.Some? && t.slot.value < |t.listeners| ==> Gone(t', t.slot.value, |t.listeners|))
  }

  // ---- after the decision ----

  predicate Late(lane: Lane) { lane.Reconciling? || lane.Spawning? || lane.Awaiting? || lane.Finishing? }

  lemma {:induction false} LateStep(env: Env, u: State, a: Action)
    requires Late(u.lane) && Step(env, u, a).Some?
    ensures Step(env, u, a).value.run == u.run
    ensures Step(env, u, a).value.lane == Free || Late(Step(env, u, a).value.lane)
  {
    if Quiet(a) { QuietFrame(env, u, a); }
  }

  lemma {:induction false} HeldLate(env: Env, u: State, actions: seq<Action>, after: State)
    requires Late(u.lane) && HeldUntil(env, u, actions, after)
    ensures after.run == u.run
    decreases |actions|
  {
    LateStep(env, u, actions[0]);
    if |actions| == 1 {
    } else {
      HeldLate(env, Step(env, u, actions[0]).value, actions[1..], after);
    }
  }

  lemma {:induction false} SpawnTail(a: Action, actions: seq<Action>)
    ensures HasSpawn([a] + actions) <==> a.Spawn? || HasSpawn(actions)
  {
    var all := [a] + actions;
    if HasSpawn(actions) {
      var i :| 0 <= i < |actions| && actions[i].Spawn?;
      assert all[i + 1].Spawn?;
    }
    if HasSpawn(all) {
      var i :| 0 <= i < |all| && all[i].Spawn?;
      if i > 0 { assert actions[i - 1].Spawn?; }
    }
    if a.Spawn? { assert all[0].Spawn?; }
  }

  lemma {:induction false} SpawnRest(actions: seq<Action>)
    requires actions != []
    ensures HasSpawn(actions) <==> actions[0].Spawn? || HasSpawn(actions[1..])
  {
    assert actions == [actions[0]] + actions[1..];
    SpawnTail(actions[0], actions[1..]);
  }

  lemma {:induction false} FinishingStep(env: Env, u: State, a: Action)
    requires u.lane.Finishing? && Step(env, u, a).Some?
    ensures var u' := Step(env, u, a).value;
            if u'.lane == Free then |u'.log| == |u.log| + 1 && Completed(u'.log[|u.log|].outcome)
            else u'.lane == u.lane && u'.log == u.log
    ensures !a.Spawn? && (!Quiet(a) ==> Step(env, u, a).value.tun == u.tun)
  {
    if Quiet(a) { QuietFrame(env, u, a); }
  }

  /** The rest of a patch leaves listeners alone, and cannot be dropped. */
  lemma {:induction false} HeldFinishing(env: Env, u: State, actions: seq<Action>, after: State)
    requires u.lane.Finishing? && HeldUntil(env, u, actions, after)
    ensures !HasSpawn(actions) && LaneLeavesTun(env, u, actions)
    ensures after.lane == Free ==> |u.log| < |after.log| && Completed(after.log[|u.log|].outcome)
    decreases |actions|
  {
    FinishingStep(env, u, actions[0]);
    SpawnRest(actions);
    if |actions| == 1 {
    } else {
      HeldFinishing(env, Step(env, u, actions[0]).value, actions[1..], after);
    }
  }

  /** A listener is being started, in place of one that is gone. */
  predicate Starts(u: State, i: nat, n: nat) {
    && (u.lane.Spawning? || u.lane.Awaiting? || u.lane.Finishing?)
    && (i < n ==> Gone(u.tun, i, n)) && n <= |u.tun.listeners| && (u.tun.slot.Some? ==> n <= u.tun.slot.value)
    && (u.lane.Awaiting? ==> n <= u.lane.id)
  }

  lemma {:induction false} QuietGone(env: Env, u: State, a: Action, i: nat, n: nat)
    requires Quiet(a) && Step(env, u, a).Some? && Gone(u.tun, i, n)
    ensures Gone(Step(env, u, a).value.tun, i, n)
  {
  }

  lemma {:induction false} QuietCount(env: Env, u: State, a: Action)
    requires Quiet(a) && Step(env, u, a).Some?
    ensures |Step(env, u, a).value.tun.listeners| == |u.tun.listeners|
  {
  }

  lemma {:induction false} StartsStep(env: Env, u: State, a: Action, i: nat, n: nat)
    requires Starts(u, i, n) && Step(env, u, a).Some?
    ensures var u' := Step(env, u, a).value;
            && (u'.lane != Free ==> Starts(u', i, n)) && (i < n ==> Gone(u'.tun, i, n))
            && (u'.tun.slot.Some? ==> n <= u'.tun.slot.value)
  {
    if Quiet(a) {
      QuietFrame(env, u, a);
      QuietCount(env, u, a);
      if i < n { QuietGone(env, u, a, i, n); }
    }
  }

  lemma {:induction false} HeldStarts(env: Env, u: State, actions: seq<Action>, after: State, i: nat, n: nat)
    requires Starts(u, i, n) && HeldUntil(env, u, actions, after)
    ensures (i < n ==> Gone(after.tun, i, n)) && (after.tun.slot.Some? ==> n <= after.tun.slot.value)
    decreases |actions|
  {
    StartsStep(env, u, actions[0], i, n);
    if |actions| == 1 {
    } else {
      HeldStarts(env, Step(env, u, actions[0]).value, actions[1..], after, i, n);
    }
  }

  /** The mutation logged after `log` completed or was dropped late. */
  predicate CompletedOrCut(log: seq<Entry>, after: State) {
    |log| < |after.log| && (Completed(after.log[|log|].outcome) || after.log[|log|].outcome == Cut(true))
  }

  lemma {:induction false} AwaitingStep(env: Env, u: State, a: Action)
    requires u.lane.Awaiting? && Step(env, u, a).Some?
    ensures var u' := Step(env, u, a).value;
            if u'.lane == Free then CompletedOrCut(u.log, u')
            else (u'.lane == u.lane || u'.lane.Finishing?) && u'.log == u.log
    ensures !a.Spawn?
  {
    if Quiet(a) { QuietFrame(env, u, a); }
  }

  lemma {:induction false} HeldAwaiting(env: Env, u: State, actions: seq<Action>, after: State)
    requires u.lane.Awaiting? && HeldUntil(env, u, actions, after)
    ensures !HasSpawn(actions) && (after.lane == Free ==> CompletedOrCut(u.log, after))
    decreases |actions|
  {
    AwaitingStep(env, u, actions[0]);
    SpawnRest(actions);
    if |actions| == 1 {
    } else {
      var u' := Step(env, u, actions[0]).value;
      if u'.lane.Finishing? { HeldFinishing(env, u', actions[1..], after); }
      else { HeldAwaiting(env, u', actions[1..], after); }
    }
  }

  lemma {:induction false} SpawningStep(env: Env, u: State, a: Action)
    requires u.lane.Spawning? && Step(env, u, a).Some?
    ensures var u' := Step(env, u, a).value;
            if u'.lane == Free then CompletedOrCut(u.log, u') && (a.Spawn? || u'.log[|u.log|].outcome == Cut(true))
            else u'.log == u.log && if a.Spawn? then u'.lane.Awaiting? else u'.lane == u.lane
  {
    if Quiet(a) { QuietFrame(env, u, a); }
  }

  lemma {:induction false} HeldSpawning(env: Env, u: State, actions: seq<Action>, after: State)
    requires u.lane.Spawning? && HeldUntil(env, u, actions, after) && after.lane == Free
    ensures CompletedOrCut(u.log, after) && (Completed(after.log[|u.log|].outcome) ==> HasSpawn(actions))
    decreases |actions|
  {
    SpawningStep(env, u, actions[0]);
    SpawnRest(actions);
    if |actions| == 1 {
    } else {
      var u' := Step(env, u, actions[0]).value;
      if u'.lane.Awaiting? { HeldAwaiting(env, u', actions[1..], after); }
      else { HeldSpawning(env, u', actions[1..], after); }
    }
  }

  // ---- the decision ----

  /** The listener has to be stopped: it is restarted or switched off. */
  predicate MustStop(env: Env, before: Raw, after: Raw, r: Resolver, r': Resolver) {
    MustSpawn(env, before, after, r, r') || (Enabled(before) && !Enabled(after))
  }

  lemma {:induction false} Decides(env: Env, s: State, job: Job, cand: Raw, u: State)
    requires Track(env, s, job, cand, u) && Reconciled(env, u).Some?
    ensures var u' := Reconciled(env, u).value;
            && (u'.lane.Spawning? <==> MustSpawn(env, s.raw, cand, s.run.tunnel, u.run.tunnel))
            && (if MustStop(env, s.raw, cand, s.run.tunnel, u.run.tunnel) then u'.tun == Stopped(u.tun)
                else u'.tun == u.tun)
            && (u'.lane == Free || u'.lane.Spawning? || u'.lane.Finishing?)
            && (u'.lane == Free ==> u'.log == s.log + [Entry(job, Committed)])
            && (u'.lane != Free ==> u'.log == s.log)
  {
  }

  /** What the rest of a mutation does to the listeners, given the resolver it
      ends with. */
  predicate Restarts(env: Env, s: State, cand: Raw, u: State, actions: seq<Action>, after: State) {
    && (HasSpawn(actions) <==> MustSpawn(env, s.raw, cand, s.run.tunnel, after.run.tunnel))
    && (if MustStop(env, s.raw, cand, s.run.tunnel, after.run.tunnel) then Retired(u.tun, after.tun)
        else LaneLeavesTun(env, u, actions))
  }

  lemma {:induction false} StopRetires(env: Env, u: State, u': State, actions: seq<Action>, after: State)
    requires u'.tun == Stopped(u.tun)
    requires if actions == [] then after == u' else HeldUntil(env, u', actions, after)
    requires actions != [] ==> u'.lane.Spawning? || u'.lane.Finishing?
    ensures Retired(u.tun, after.tun)
  {
    var n := |u.tun.listeners|;
    var i := if u.tun.slot.Some? then u.tun.slot.value else n;
    assert i < n ==> Gone(u'.tun, i, n);
    if actions != [] { HeldStarts(env, u', actions, after, i, n); }
  }

  lemma {:induction false} DecidedRestarts(
      env: Env, s: State, job: Job, cand: Raw, u: State, actions: seq<Action>, after: State)
    requires Track(env, s, job, cand, u) && u.lane.Reconciling?
    requires HeldUntil(env, u, actions, after) && after.lane == Free
    requires actions[0].Reconcile?
    ensures CompletedOrCut(s.log, after)
    ensures Completed(after.log[|s.log|].outcome) ==> Restarts(env, s, cand, u, actions, after)
  {
    var u' := Step(env, u, actions[0]).value;
    Decides(env, s, job, cand, u);
    HeldLate(env, u, actions, after);
    SpawnRest(actions);
    if MustStop(env, s.raw, cand, s.run.tunnel, u.run.tunnel) { StopRetires(env, u, u', actions[1..], after); }
    if |actions| == 1 {
    } else if u'.lane.Spawning? {
      HeldSpawning(env, u', actions[1..], after);
    } else {
      HeldFinishing(env, u', actions[1..], after);
    }
  }

  lemma {:induction false} ReconcilingStep(env: Env, u: State, a: Action)
    requires u.lane.Reconciling? && Step(env, u, a).Some? && !a.Reconcile?
    ensures var u' := Step(env, u, a).value;
            if u'.lane == Free then u'.log == u.log + [Entry(u.lane.job, Cut(true))]
            else u'.lane == u.lane && u'.log == u.log
    ensures Step(env, u, a).value.lane != Free ==> Quiet(a)
    ensures !a.Spawn?
  {
    if Quiet(a) { QuietFrame(env, u, a); }
  }

  /** A step of others leaves slot and number of listeners. */
  lemma {:induction false} QuietRestarts(
      env: Env, s: State, cand: Raw, u: State, actions: seq<Action>, after: State)
    requires actions != [] && Step(env, u, actions[0]).Some? && !actions[0].Spawn?
    requires Quiet(actions[0]) || Step(env, u, actions[0]).value.tun == u.tun
    requires Restarts(env, s, cand, Step(env, u, actions[0]).value, actions[1..], after)
    ensures Restarts(env, s, cand, u, actions, after)
  {
    SpawnRest(actions);
    if Quiet(actions[0]) {
      QuietFrame(env, u, actions[0]);
      QuietCount(env, u, actions[0]);
    }
  }

  lemma {:induction false} HeldReconciling(
      env: Env, s: State, job: Job, cand: Raw, u: State, actions: seq<Action>, after: State)
    requires Track(env, s, job, cand, u) && u.lane.Reconciling?
    requires HeldUntil(env, u, actions, after) && after.lane == Free
    ensures CompletedOrCut(s.log, after)
    ensures Completed(after.log[|s.log|].outcome) ==> Restarts(env, s, cand, u, actions, after)
    decreases |actions|
  {
    if actions[0].Reconcile? {
      DecidedRestarts(env, s, job, cand, u, actions, after);
    } else {
      ReconcilingStep(env, u, actions[0]);
      if |actions| == 1 {
      } else {
        var u' := Step(env, u, actions[0]).value;
        StepTracks(env, s, job, cand, u, actions[0]);
        HeldReconciling(env, s, job, cand, u', actions[1..], after);
        if Completed(after.log[|s.log|].outcome) { QuietRestarts(env, s, cand, u, actions, after); }
      }
    }
  }

  // ---- before it ----

  predicate Early(lane: Lane) {
    lane.Building? || lane.Parsing? || lane.Installing? || lane.Swapping? || lane.Writing? || lane.Publishing?
  }

  /** What a step of an early lane gives. */
  ghost predicate EarlyOn(s: State, job: Job, u: State, r: Option<State>) {
    forall u' :: r == Some(u') ==>
      && u'.tun == u.tun
      && if u'.lane == Free then |s.log| < |u'.log| && (Completed(u'.log[|s.log|].outcome) ==> SkipsReconcile(job))
         else Early(u'.lane) || (u'.lane.Reconciling? && !SkipsReconcile(job))
  }

  lemma {:induction false} EarlyBuild(env: Env, s: State, job: Job, cand: Raw, u: State, a: Action)
    requires Track(env, s, job, cand, u) && Early(u.lane) && Builds(a)
    ensures EarlyOn(s, job, u, Step(env, u, a))
  {
  }

  lemma {:induction false} EarlyPublish(env: Env, s: State, job: Job, cand: Raw, u: State, a: Action)
    requires Track(env, s, job, cand, u) && Early(u.lane) && Publishes(a)
    ensures EarlyOn(s, job, u, Step(env, u, a))
  {
  }

  lemma {:induction false} EarlyCut(env: Env, s: State, job: Job, cand: Raw, u: State, a: Action)
    requires Track(env, s, job, cand, u) && Early(u.lane) && (a.Begin? || Spawns(a) || Closes(a))
    ensures EarlyOn(s, job, u, Step(env, u, a)) && (a.Spawn? ==> Step(env, u, a).None?)
  {
  }

  lemma {:induction false} EarlyStep(env: Env, s: State, job: Job, cand: Raw, u: State, a: Action)
    requires Track(env, s, job, cand, u) && Early(u.lane) && Step(env, u, a).Some?
    ensures !a.Spawn? && (Quiet(a) || Step(env, u, a).value.tun == u.tun)
    ensures var u' := Step(env, u, a).value;
            if u'.lane == Free then
              |s.log| < |u'.log| && (Completed(u'.log[|s.log|].outcome) ==> SkipsReconcile(job))
            else Early(u'.lane) || (u'.lane.Reconciling? && !SkipsReconcile(job))
  {
    assert Step(env, u, a) == Some(Step(env, u, a).value);
    if Quiet(a) { QuietFrame(env, u, a); }
    else if Builds(a) { EarlyBuild(env, s, job, cand, u, a); }
    else if Publishes(a) { EarlyPublish(env, s, job, cand, u, a); }
    else { EarlyCut(env, s, job, cand, u, a); }
  }

  lemma {:induction false} HeldEarly(
      env: Env, s: State, job: Job, cand: Raw, u: State, actions: seq<Action>, after: State)
    requires Track(env, s, job, cand, u) && Early(u.lane) && HeldUntil(env, u, actions, after) && after.lane == Free
    ensures |s.log| < |after.log|
    ensures Completed(after.log[|s.log|].outcome) && !SkipsReconcile(job) ==> Restarts(env, s, cand, u, actions, after)
    ensures SkipsReconcile(job) || !CompletedOrCut(s.log, after) ==>
              !HasSpawn(actions) && LaneLeavesTun(env, u, actions)
    decreases |actions|
  {
    EarlyStep(env, s, job, cand, u, actions[0]);
    SpawnRest(actions);
    if |actions| == 1 {
    } else {
      var u' := Step(env, u, actions[0]).value;
      StepTracks(env, s, job, cand, u, actions[0]);
      if u'.lane.Reconciling? { HeldReconciling(env, s, job, cand, u', actions[1..], after); }
      else { HeldEarly(env, s, job, cand, u', actions[1..], after); }
      if Completed(after.log[|s.log|].outcome) && !SkipsReconcile(job) {
        QuietRestarts(env, s, cand, u, actions, after);
      }
    }
  }

  // ---- every mutation ----

  /** A section that did not change asks for nothing. */
  lemma {:induction false} SameAsksNothing(env: Env, before: Raw, after: Raw, r: Resolver)
    requires before.tun == after.tun && before.maxConnections == after.maxConnections && before.dns == after.dns
    ensures !MustStop(env, before, after, r, r)
  {
  }

  lemma {:induction false} BegunRestarts(
      env: Env, s: State, job: Job, bound: Option<Doc>, cand: Raw, actions: seq<Action>, after: State)
    requires Begun(env, s, job, bound).Some? && Candidate(env, job, s.raw) == Some(cand) && after.lane == Free
    requires if actions == [] then after == Begun(env, s, job, bound).value
             else HeldUntil(env, Begun(env, s, job, bound).value, actions, after)
    requires actions != [] ==> Begun(env, s, job, bound).value.lane != Free
    requires |s.log| < |after.log| && Completed(after.log[|s.log|].outcome) && !SkipsReconcile(job)
    ensures Restarts(env, s, cand, Begun(env, s, job, bound).value, actions, after)
  {
    var u := Begun(env, s, job, bound).value;
    if actions == [] {
      SameAsksNothing(env, s.raw, cand, s.run.tunnel);
    } else {
      BegunTracks(env, s, job, bound);
      if u.lane.Finishing? {
        HeldFinishing(env, u, actions, after);
        HeldLate(env, u, actions, after);
        SameAsksNothing(env, s.raw, cand, s.run.tunnel);
      } else {
        HeldEarly(env, s, job, cand, u, actions, after);
      }
    }
  }

  /** Every mutation that reconciles, from any free lane and whatever others do
      meanwhile, once it completes. It starts a listener if and only if the new
      section is on and the old one was off, or the gateway or network of the
      resolvers before and after differ, or the section, the connection limit or
      the fake-IP range changed and so did what they parse to, or one does not
      parse. Then, or when it switches the section off, the stored listener is
      stopped; otherwise the lane touches neither slot nor listeners. */
  lemma {:induction false} RestartExact(
      env: Env, s: State, job: Job, bound: Option<Doc>, actions: seq<Action>, after: State)
    requires s.lane == Free && HeldUntil(env, s, [Begin(job, bound)] + actions, after) && after.lane == Free
    requires |s.log| < |after.log| && Completed(after.log[|s.log|].outcome) && !job.GeoTick? && !job.LoopRefresh?
    ensures Candidate(env, job, s.raw).Some?
    ensures var (before, cand, r, r') := (s.raw, Candidate(env, job, s.raw).value, s.run.tunnel, after.run.tunnel);
            && (HasSpawn(actions) <==> MustSpawn(env, before, cand, r, r'))
            && (if MustSpawn(env, before, cand, r, r') || (Enabled(before) && !Enabled(cand))
                then Retired(s.tun, after.tun)
                else LaneLeavesTun(env, s, [Begin(job, bound)] + actions))
  {
    var all := [Begin(job, bound)] + actions;
    assert all[1..] == actions;
    var cand := Candidate(env, job, s.raw).value;
    BegunTun(env, s, job, bound);
    BegunRestarts(env, s, job, bound, cand, actions, after);
    QuietRestarts(env, s, cand, s, all, after);
  }

  /** A geodata tick, a background refresh, and every mutation that is rejected
      or dropped before it wrote the document never touches slot or
      listeners. */
  lemma {:induction false} OthersLeaveTun(
      env: Env, s: State, job: Job, bound: Option<Doc>, actions: seq<Action>, after: State)
    requires s.lane == Free && HeldUntil(env, s, [Begin(job, bound)] + actions, after) && after.lane == Free
    requires job.GeoTick? || job.LoopRefresh? || !CompletedOrCut(s.log, after)
    ensures !HasSpawn(actions) && LaneLeavesTun(env, s, [Begin(job, bound)] + actions)
  {
    var all := [Begin(job, bound)] + actions;
    assert all[1..] == actions;
    BegunTun(env, s, job, bound);
    if actions == [] {
    } else {
      var u := Begun(env, s, job, bound).value;
      BegunTracks(env, s, job, bound);
      if u.lane.Finishing? { HeldFinishing(env, u, actions, after); }
      else { HeldEarly(env, s, job, Candidate(env, job, s.raw).value, u, actions, after); }
    }
  }

  // ---- the boot listener ----

  /** `r` is `raw` with the section switched off. */
  predicate SwitchedOff(raw: Raw, r: Raw) {
    && (raw.tun.None? ==> r == raw)
    && (raw.tun.Some? ==> r == raw.(tun := Some(Tun(false, raw.tun.value.settings))))
  }

  /** The end of a startup that found its listener gone, or never up. */
  predicate StartupOver(s: State, job: Job, after: State) {
    && after.lane == Free && after.tun.startup.Settled? && after.tun.slot == s.tun.slot
    && after.log == s.log + [Entry(job, if HasTun(after.tun) then Rejected else RolledBack)]
    && (if HasTun(after.tun) then after.raw == s.raw else SwitchedOff(s.raw, after.raw))
  }

  predicate BootStopped(t: TunState) {
    t.listeners != [] && !t.listeners[BOOT].phase.Starting? && !t.listeners[BOOT].phase.Live?
  }

  lemma {:induction false} RollingBackStep(env: Env, u: State, a: Action)
    requires u.lane.RollingBack? && Step(env, u, a).Some?
    ensures if a.BootRollsBack? then StartupOver(u, BootPublication, Step(env, u, a).value) else Quiet(a)
  {
  }

  lemma {:induction false} HeldRollingBack(env: Env, u: State, actions: seq<Action>, after: State)
    requires u.lane.RollingBack? && HeldUntil(env, u, actions, after) && after.lane == Free
    ensures StartupOver(u, BootPublication, after)
    decreases |actions|
  {
    RollingBackStep(env, u, actions[0]);
    if Quiet(actions[0]) { QuietFrame(env, u, actions[0]); }
    if |actions| == 1 {
    } else {
      HeldRollingBack(env, Step(env, u, actions[0]).value, actions[1..], after);
    }
  }

  lemma {:induction false} BootDecides(env: Env, s: State)
    requires BootPublished(env, s).Some?
    ensures s.lane == Free && s.tun.listeners != []
    ensures var (l, u) := (s.tun.listeners[BOOT], BootPublished(env, s).value);
            if Enabled(s.raw) && Parse(env, s.raw) == Some(l.cfg) then
              if l.phase.Live? then
                && u.lane == Free && u.log == s.log + [Entry(BootPublication, Committed)] && u.raw == s.raw
                && u.tun.startup.Settled? && u.tun.slot == Some(BOOT)
              else u == s.(lane := RollingBack)
            else
              && u.lane == Free && u.log == s.log + [Entry(BootPublication, Rejected)] && u.raw == s.raw
              && u.tun.startup.Settled? && u.tun.slot == s.tun.slot && BootStopped(u.tun)
  {
  }

  /** When startup has its listener up and enters the lane, whatever others do
      meanwhile. It stores the listener if and only if the section is on, parses
      to what the listener was built from and the listener still runs. One the
      section does not ask for is stopped and the document left alone. One that
      is gone switches the section off unless another runs. */
  lemma {:induction false} BootOutcome(env: Env, s: State, actions: seq<Action>, after: State)
    requires HeldUntil(env, s, [BootPublish] + actions, after) && after.lane == Free
    ensures s.lane == Free && s.tun.listeners != [] && after.tun.startup.Settled? && |after.log| == |s.log| + 1
    ensures var l := s.tun.listeners[BOOT];
            var wanted := Enabled(s.raw) && Parse(env, s.raw) == Some(l.cfg);
            && (after.log[|s.log|] == Entry(BootPublication, Committed) <==> wanted && l.phase.Live?)
            && (wanted && l.phase.Live? ==> after.tun.slot == Some(BOOT) && after.raw == s.raw)
            && (!wanted ==> after.tun.slot == s.tun.slot && after.raw == s.raw && BootStopped(after.tun))
            && (wanted && !l.phase.Live? ==> StartupOver(s, BootPublication, after))
  {
    assert ([BootPublish] + actions)[1..] == actions;
    BootDecides(env, s);
    if actions != [] { HeldRollingBack(env, BootPublished(env, s).value, actions, after); }
  }

  /** A startup whose listener failed to come up. */
  lemma {:induction false} FailedBootOutcome(env: Env, s: State)
    requires s.lane == Free && Step(env, s, BootRollsBack).Some?
    ensures s.tun.startup.Failed? && StartupOver(s, BootRollback, Step(env, s, BootRollsBack).value)
  {
    assert Step(env, s, BootRollsBack) == BootRolled(s);
  }
}
