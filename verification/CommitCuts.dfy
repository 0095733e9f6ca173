/** Handlers dropped at an await: which of them leave the document and the
    listener in agreement, at once and for good. */
module CommitCuts {
  import opened CommitResolvers
  import opened CommitState
  import opened CommitTun
  import opened Wrappers

  // ---- at once ----

  lemma {:induction false} CutSection(env: Env, mode: Mode, s: State)
    requires ListenersOk(env, mode, s) && Claimed(mode, s) && ForSections(mode) && Cancelled(s).Some?
    ensures SectionTruth(env, Cancelled(s).value) <==> CutHarmless(env, s)
  {
  }

  lemma {:induction false} CutInputs(env: Env, mode: Mode, s: State)
    requires ListenersOk(env, mode, s) && Claimed(mode, s) && Cancelled(s).Some?
    requires ForInputs(mode) && (ForBoot(mode) || s.tun.slot != Some(BOOT))
    ensures FakeIpTruth(env, Cancelled(s).value) <==> !StaleLeave(env, s, Cancel)
  {
  }

  // ---- a run nobody interferes with ----

  /** Only listeners and the startup task step. */
  predicate LeftAlone(actions: seq<Action>) {
    forall i :: 0 <= i < |actions| ==> Quiet(actions[i]) || actions[i].BootPublish? || actions[i].BootRollsBack?
  }

  lemma {:induction false} AloneConcat(a: seq<Action>, b: seq<Action>)
    requires LeftAlone(a) && LeftAlone(b)
    ensures LeftAlone(a + b)
  {
  }

  lemma {:induction false} OneStep(env: Env, s: State, a: Action)
    requires Step(env, s, a).Some?
    ensures Run(env, s, [a]) == Step(env, s, a)
  {
    assert [a][1..] == [];
  }

  /** Only the listeners differ. */
  ghost predicate OnlyListeners(s: State, s': State) {
    && s' == s.(tun := s'.tun) && s'.tun == s.tun.(listeners := s'.tun.listeners)
    && |s'.tun.listeners| == |s.tun.listeners|
  }

  /** Listener `j` and its network core go away. */
  lemma {:induction false} CoreGoes(env: Env, s: State, j: nat) returns (actions: seq<Action>, s': State)
    requires j < |s.tun.listeners| && CoreAlive(s.tun.listeners[j])
    ensures Run(env, s, actions) == Some(s') && LeftAlone(actions) && OnlyListeners(s, s')
    ensures s'.tun == s.tun.(listeners := s.tun.listeners[j := s.tun.listeners[j].(phase := Dead)])
  {
    if s.tun.listeners[j].phase.Live? {
      var s1 := Step(env, s, Exit(j)).value;
      OneStep(env, s, Exit(j));
      OneStep(env, s1, CoreDone(j));
      RunConcat(env, s, [Exit(j)], [CoreDone(j)]);
      actions, s' := [Exit(j)] + [CoreDone(j)], Step(env, s1, CoreDone(j)).value;
    } else {
      OneStep(env, s, CoreDone(j));
      actions, s' := [CoreDone(j)], Step(env, s, CoreDone(j)).value;
    }
  }

  lemma {:induction false} NoCoreLeft(t: TunState, j: nat)
    requires Shape(t) && j < |t.listeners| && CoreAlive(t.listeners[j])
    ensures var t' := t.(listeners := t.listeners[j := t.listeners[j].(phase := Dead)]);
            Shape(t') && forall i :: 0 <= i < |t'.listeners| ==> !CoreAlive(t'.listeners[i])
  {
    var t' := t.(listeners := t.listeners[j := t.listeners[j].(phase := Dead)]);
    forall i | 0 <= i < |t'.listeners| ensures !CoreAlive(t'.listeners[i]) && ListenerOk(t'.listeners[i]) {
      assert ListenerOk(t.listeners[i]) && (i != j ==> t'.listeners[i] == t.listeners[i]);
    }
  }

  /** The network core in the way, if there is one, goes away. */
  lemma {:induction false} ClearGate(env: Env, s: State) returns (actions: seq<Action>, s': State)
    requires Shape(s.tun) && s.tun.listeners[BOOT].phase.Starting?
    ensures Run(env, s, actions) == Some(s') && LeftAlone(actions) && OnlyListeners(s, s')
    ensures Shape(s'.tun) && s'.tun.listeners[BOOT] == s.tun.listeners[BOOT]
    ensures forall j :: 0 <= j < |s'.tun.listeners| ==> !CoreAlive(s'.tun.listeners[j])
  {
    if j :| 0 <= j < |s.tun.listeners| && CoreAlive(s.tun.listeners[j]) {
      actions, s' := CoreGoes(env, s, j);
      NoCoreLeft(s.tun, j);
    } else {
      actions, s' := [], s;
    }
  }

  /** What a listener holds once it has captured all its inputs under `r`. */
  function Captured(env: Env, l: Listener, r: Resolver): Listener {
    l.(gateway := Some(if l.gateway.Some? then l.gateway.value else env.gateway(r.inputs.dns)),
       network := Some(if l.network.Some? then l.network.value else env.network(r.inputs.dns)))
  }

  lemma {:induction false} CaptureAll(env: Env, s: State) returns (actions: seq<Action>, s': State)
    requires s.tun.listeners != [] && s.tun.listeners[BOOT].phase.Starting? && ListenerOk(s.tun.listeners[BOOT])
    ensures Run(env, s, actions) == Some(s') && LeftAlone(actions)
    ensures s' == SetListener(s, BOOT, Captured(env, s.tun.listeners[BOOT], s.run.tunnel))
  {
    var l := s.tun.listeners[BOOT];
    var s1, first := s, [];
    if l.gateway.None? {
      OneStep(env, s, CaptureGateway(BOOT));
      s1, first := Step(env, s, CaptureGateway(BOOT)).value, [CaptureGateway(BOOT)];
    }
    if l.network.None? {
      OneStep(env, s1, CaptureNetwork(BOOT));
      RunConcat(env, s, first, [CaptureNetwork(BOOT)]);
      AloneConcat(first, [CaptureNetwork(BOOT)]);
      actions, s' := first + [CaptureNetwork(BOOT)], Step(env, s1, CaptureNetwork(BOOT)).value;
    } else {
      actions, s' := first, s1;
      assert s.tun.listeners[BOOT := l] == s.tun.listeners;
    }
  }

  /** The boot listener comes up, with the inputs it had captured before. */
  lemma {:induction false} BringUp(env: Env, s: State) returns (actions: seq<Action>, s': State)
    requires Shape(s.tun) && s.tun.listeners[BOOT].phase.Starting? && s.tun.startup.Pending?
    ensures Run(env, s, actions) == Some(s') && LeftAlone(actions) && OnlyListeners(s, s') && Shape(s'.tun)
    ensures s'.tun.listeners[BOOT]
         == Captured(env, s.tun.listeners[BOOT], s.run.tunnel).(phase := Live, ready := true)
  {
    var a1, s1 := ClearGate(env, s);
    assert ListenerOk(s1.tun.listeners[BOOT]);
    var a2, s2 := CaptureAll(env, s1);
    OneStep(env, s2, PassGate(BOOT));
    s' := Step(env, s2, PassGate(BOOT)).value;
    RunConcat(env, s, a1, a2);
    RunConcat(env, s, a1 + a2, [PassGate(BOOT)]);
    AloneConcat(a1, a2);
    AloneConcat(a1 + a2, [PassGate(BOOT)]);
    actions := a1 + a2 + [PassGate(BOOT)];
    PassedShape(s1.tun, s'.tun);
  }

  lemma {:induction false} PassedShape(t: TunState, t': TunState)
    requires Shape(t) && t'.listeners != [] && t' == t.(listeners := t.listeners[BOOT := t'.listeners[BOOT]])
    requires forall j :: 0 <= j < |t.listeners| ==> !CoreAlive(t.listeners[j])
    requires ListenerOk(t'.listeners[BOOT]) && t'.listeners[BOOT].ready && t.startup.Pending?
    ensures Shape(t')
  {
  }

  // ---- the section, for good ----

  /** Whatever runs from `c` on, cut again where it can be: the section tells
      the truth at every lane-free point. */
  ghost predicate SectionsHold(env: Env, c: State) {
    forall rest: seq<Action> :: Run(env, c, rest).Some? && CutsSafe(env, c, rest)
                                && Run(env, c, rest).value.lane == Free
      ==> SectionTruth(env, Run(env, c, rest).value)
  }

  lemma {:induction false} SafeHolds(env: Env, c: State)
    requires TunInv(env, Sections, c)
    ensures SectionsHold(env, c)
  {
    forall rest: seq<Action> | Run(env, c, rest).Some? && CutsSafe(env, c, rest)
                               && Run(env, c, rest).value.lane == Free
      ensures SectionTruth(env, Run(env, c, rest).value)
    {
      RunKeepsTun(env, Sections, c, rest);
    }
  }

  lemma {:induction false} AloneIsSafe(env: Env, s: State, actions: seq<Action>)
    requires LeftAlone(actions)
    ensures CutsSafe(env, s, actions)
    decreases |actions|
  {
    if actions == [] {
    } else {
      assert !actions[0].Cancel?;
      if Step(env, s, actions[0]).Some? { AloneIsSafe(env, Step(env, s, actions[0]).value, actions[1..]); }
    }
  }

  /** The section asks for another listener than the one startup will offer. */
  ghost predicate Doomed(env: Env, s: State) {
    s.lane == Free && Shape(s.tun) && Enabled(s.raw) && s.tun.slot.None? && !BootFits(env, s.raw, s.tun)
  }

  lemma {:induction false} RefusedBoot(env: Env, s: State)
    requires Doomed(env, s) && s.tun.listeners[BOOT].ready
    ensures Step(env, s, BootPublish).Some?
    ensures var s' := Step(env, s, BootPublish).value; s'.lane == Free && !SectionTruth(env, s')
  {
  }

  /** Left alone, startup tears its listener down and the section stays on
      with nothing stored. */
  lemma {:induction false} DoomedBreaks(env: Env, s: State) returns (actions: seq<Action>)
    requires Doomed(env, s)
    ensures LeftAlone(actions) && Run(env, s, actions).Some?
    ensures var s' := Run(env, s, actions).value; s'.lane == Free && !SectionTruth(env, s')
  {
    var up, s1 := [], s;
    if !s.tun.listeners[BOOT].ready { up, s1 := BringUp(env, s); }
    RefusedBoot(env, s1);
    OneStep(env, s1, BootPublish);
    RunConcat(env, s, up, [BootPublish]);
    AloneConcat(up, [BootPublish]);
    actions := up + [BootPublish];
  }

  lemma {:induction false} UnsafeBreaks(env: Env, s: State) returns (actions: seq<Action>)
    requires TunInv(env, Sections, s) && Cancelled(s).Some? && !SafeCut(env, s)
    ensures LeftAlone(actions) && Run(env, Cancelled(s).value, actions).Some?
    ensures var s' := Run(env, Cancelled(s).value, actions).value; s'.lane == Free && !SectionTruth(env, s')
  {
    if !CutHarmless(env, s) {
      CutSection(env, Sections, s);
      actions := [];
    } else {
      actions := DoomedBreaks(env, Cancelled(s).value);
    }
  }

  /** Every handler of every run, dropped at any await. At once the section
      tells the truth if and only if the handler owed the listener nothing. It
      goes on telling it, whatever runs next, if and only if also the boot
      listener, should it be about to fill the slot, is the one the section
      asks for; otherwise a run of listeners and startup alone breaks it. */
  lemma {:induction false} CutExact(env: Env, boot: State, actions: seq<Action>)
    requires Boot(env, boot) && Run(env, boot, actions).Some? && CutsSafe(env, boot, actions)
    requires Cancelled(Run(env, boot, actions).value).Some?
    ensures var s := Run(env, boot, actions).value;
            var c := Cancelled(s).value;
            && (SectionTruth(env, c) <==> CutHarmless(env, s))
            && (SectionsHold(env, c) <==> SafeCut(env, s))
            && (!SafeCut(env, s) ==> exists rest: seq<Action> ::
                  && LeftAlone(rest) && Run(env, c, rest).Some? && Run(env, c, rest).value.lane == Free
                  && !SectionTruth(env, Run(env, c, rest).value))
  {
    var s := Run(env, boot, actions).value;
    FromBoot(env, Sections, boot, actions);
    CutSection(env, Sections, s);
    if SafeCut(env, s) {
      StepKeepsTun(env, Sections, s, Cancel);
      SafeHolds(env, Cancelled(s).value);
    } else {
      var rest := UnsafeBreaks(env, s);
      AloneIsSafe(env, Cancelled(s).value, rest);
    }
  }

  // ---- the fake-IP inputs, left alone ----

  /** The boot listener, if startup is about to store it, has captured no
      other inputs than the resolver's. */
  predicate BootClean(env: Env, s: State) {
    && s.tun.listeners != []
    && var l := s.tun.listeners[BOOT];
       s.tun.startup.Pending? && (l.phase.Starting? || l.phase.Live?)
       && Enabled(s.raw) && Parse(env, s.raw) == Some(l.cfg)
       ==> Clean(env, l, s.run.tunnel, s.run.tunnel)
  }

  /** Left alone from `c` on, the fake-IP inputs are right at every lane-free
      point. */
  ghost predicate InputsHold(env: Env, c: State) {
    forall rest: seq<Action> :: LeftAlone(rest) && Run(env, c, rest).Some? && Run(env, c, rest).value.lane == Free
      ==> FakeIpTruth(env, Run(env, c, rest).value)
  }

  predicate Idle(lane: Lane) { lane == Free || lane == RollingBack }

  lemma {:induction false} AloneStep(env: Env, s: State, a: Action)
    requires TunInv(env, Exact, s) && BootClean(env, s) && Idle(s.lane) && LeftAlone([a]) && Step(env, s, a).Some?
    ensures Allowed(env, Exact, s, a)
    ensures BootClean(env, Step(env, s, a).value) && Idle(Step(env, s, a).value.lane)
  {
    assert Quiet(a) || a.BootPublish? || a.BootRollsBack? by { assert LeftAlone([a]) && [a][0] == a; }
    assert ListenerOk(s.tun.listeners[BOOT]);
    if Quiet(a) {
      QuietFrame(env, s, a);
      QuietClean(env, s, a);
    }
  }

  lemma {:induction false} QuietClean(env: Env, s: State, a: Action)
    requires BootClean(env, s) && Shape(s.tun) && Quiet(a) && Step(env, s, a).Some?
    ensures BootClean(env, Step(env, s, a).value)
  {
  }

  lemma {:induction false} CleanHolds(env: Env, s: State, actions: seq<Action>)
    requires TunInv(env, Exact, s) && BootClean(env, s) && Idle(s.lane)
    requires LeftAlone(actions) && Run(env, s, actions).Some?
    ensures Run(env, s, actions).value.lane == Free ==> FakeIpTruth(env, Run(env, s, actions).value)
    decreases |actions|
  {
    if actions == [] {
    } else {
      AloneStep(env, s, actions[0]);
      StepKeepsTun(env, Exact, s, actions[0]);
      CleanHolds(env, Step(env, s, actions[0]).value, actions[1..]);
    }
  }

  lemma {:induction false} StoredStale(env: Env, s: State)
    requires s.lane == Free && Shape(s.tun) && s.tun.startup.Pending? && s.tun.listeners[BOOT].phase.Live?
    requires Enabled(s.raw) && Parse(env, s.raw) == Some(s.tun.listeners[BOOT].cfg)
    requires !Fresh(env, s.tun.listeners[BOOT], s.run.tunnel)
    ensures Step(env, s, BootPublish).Some?
    ensures var s' := Step(env, s, BootPublish).value; s'.lane == Free && !FakeIpTruth(env, s')
  {
    assert ListenerOk(s.tun.listeners[BOOT]);
  }

  /** Left alone, a boot listener that captured other inputs is stored. */
  lemma {:induction false} UncleanBreaks(env: Env, s: State) returns (actions: seq<Action>)
    requires s.lane == Free && Shape(s.tun) && !BootClean(env, s)
    ensures LeftAlone(actions) && Run(env, s, actions).Some?
    ensures var s' := Run(env, s, actions).value; s'.lane == Free && !FakeIpTruth(env, s')
  {
    var up, s1 := [], s;
    assert ListenerOk(s.tun.listeners[BOOT]);
    if s.tun.listeners[BOOT].phase.Starting? { up, s1 := BringUp(env, s); }
    StoredStale(env, s1);
    OneStep(env, s1, BootPublish);
    RunConcat(env, s, up, [BootPublish]);
    AloneConcat(up, [BootPublish]);
    actions := up + [BootPublish];
  }

  lemma {:induction false} InputsHoldExact(env: Env, c: State)
    requires TunInv(env, Exact, c) && c.lane == Free
    ensures InputsHold(env, c) <==> BootClean(env, c)
  {
    if BootClean(env, c) {
      forall rest: seq<Action> | LeftAlone(rest) && Run(env, c, rest).Some? && Run(env, c, rest).value.lane == Free
        ensures FakeIpTruth(env, Run(env, c, rest).value)
      {
        CleanHolds(env, c, rest);
      }
    } else {
      var rest := UncleanBreaks(env, c);
    }
  }

  /** Every handler of every run in which nothing became stale, forced or cut
      before or not, dropped at any await: at once the fake-IP inputs are right
      if and only if the handler did not change them under a running listener.
      Left alone they stay right if and only if also the boot listener, should
      it be about to be stored, has captured no others. */
  lemma {:induction false} CutInputsExact(env: Env, boot: State, actions: seq<Action>)
    requires Boot(env, boot) && Run(env, boot, actions).Some? && NeverStale(env, boot, actions)
    requires Cancelled(Run(env, boot, actions).value).Some?
    ensures var s := Run(env, boot, actions).value;
            var c := Cancelled(s).value;
            && (FakeIpTruth(env, c) <==> !StaleLeave(env, s, Cancel))
            && (InputsHold(env, c) <==> !StaleLeave(env, s, Cancel) && BootClean(env, s))
  {
    var s := Run(env, boot, actions).value;
    var c := Cancelled(s).value;
    FromBoot(env, Exact, boot, actions);
    CutInputs(env, Exact, s);
    assert Run(env, c, []) == Some(c) && LeftAlone([]);
    if !StaleLeave(env, s, Cancel) {
      StepKeepsTun(env, Exact, s, Cancel);
      InputsHoldExact(env, c);
    }
  }

  // ---- handlers that owed nothing ----

  /** The dropped handler had published nothing, or skips the reconcile. */
  predicate OwesNothing(lane: Lane) { !PastWrite(lane) || (lane.Publishing? && SkipsReconcile(lane.job)) }

  predicate NoOwedCut(env: Env, s: State, actions: seq<Action>)
    decreases |actions|
  {
    actions == [] ||
    ((actions[0].Cancel? ==> OwesNothing(s.lane))
     && (Step(env, s, actions[0]).Some? ==> NoOwedCut(env, Step(env, s, actions[0]).value, actions[1..])))
  }

  /** No listener of a mutation exits by itself while startup is pending. */
  predicate NoEarlyExit(env: Env, s: State, actions: seq<Action>)
    decreases |actions|
  {
    actions == [] ||
    (!(actions[0].Exit? && Disturbs(env, s, actions[0]))
     && (Step(env, s, actions[0]).Some? ==> NoEarlyExit(env, Step(env, s, actions[0]).value, actions[1..])))
  }

  lemma {:induction false} UnowedIsAllowed(env: Env, mode: Mode, s: State)
    requires TunInv(env, mode, s) && OwesNothing(s.lane) && ForSections(mode)
    ensures Allowed(env, mode, s, Cancel)
  {
  }

  lemma {:induction false} UnowedRun(env: Env, mode: Mode, s: State, actions: seq<Action>)
    requires TunInv(env, mode, s) && ForSections(mode) && NoOwedCut(env, s, actions)
    requires IsCalm(mode) ==> NoEarlyExit(env, s, actions)
    ensures AllAllowed(env, mode, s, actions)
    decreases |actions|
  {
    if actions == [] {
    } else {
      if actions[0].Cancel? { UnowedIsAllowed(env, mode, s); }
      if Step(env, s, actions[0]).Some? {
        StepKeepsTun(env, mode, s, actions[0]);
        UnowedRun(env, mode, Step(env, s, actions[0]).value, actions[1..]);
      }
    }
  }

  /** Runs in which no handler is dropped that owed a reconcile meet the
      hypotheses of `TunTruthfulness`; calm ones if no other listener goes
      away by itself while startup is pending. */
  lemma {:induction false} UnowedIsSafe(env: Env, boot: State, actions: seq<Action>)
    requires Boot(env, boot) && NoOwedCut(env, boot, actions)
    ensures CutsSafe(env, boot, actions) && CutsKeepInputs(env, boot, actions, false)
    ensures NoEarlyExit(env, boot, actions) ==> CutsKeepInputs(env, boot, actions, true)
  {
    BootIsTruthful(env, Sections, boot);
    UnowedRun(env, Sections, boot, actions);
    BootIsTruthful(env, Listeners(false), boot);
    UnowedRun(env, Listeners(false), boot, actions);
    if NoEarlyExit(env, boot, actions) {
      BootIsTruthful(env, Listeners(true), boot);
      UnowedRun(env, Listeners(true), boot, actions);
    }
  }
}
