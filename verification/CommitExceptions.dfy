/** Runs showing that the hypotheses of the commit theorems are needed. */
module CommitExceptions {
  import opened Wrappers
  import opened CommitState
  import opened CommitResolvers
  import opened CommitCuts
  import opened CommitTun

  function PlainTun(tun: Option<Tun>): Option<TunConfig> {
    match tun case Some(t) => Some(TunConfig(t.enable, t.settings)) case None => Some(TunConfig(false, 0))
  }

  /** Sections that parse to themselves; `refs` says whether dns sections
      hold runtime references. */
  function PlainEnv(refs: bool): Env {
    Env((tun: Option<Tun>, _: Doc, _: Doc) => PlainTun(tun), (_: Doc) => 0, (_: Doc) => refs,
        (dns: Doc) => dns, (dns: Doc) => dns, (_: Doc) => true,
        (patch: Doc, _: Option<Tun>) => Tun(true, patch), (_: Doc, other: Doc) => other,
        (edit: Doc, _: Doc, other: Doc) => Some((edit, other)),
        (_: Doc, other: Doc, _: Option<Payload>, content: Doc) => (content, other),
        (_: Doc, other: Doc, _: Option<Payload>) => (0, other), (_: Doc, _: Doc, content: Doc) => content,
        (_: Doc) => 0, (_: Option<Tun>) => false)
  }

  function Document(on: bool, dns: Doc): Raw { Raw(Some(Tun(on, 0)), 0, dns, 0, 0, []) }

  function BootState(env: Env, raw: Raw): State {
    var r := Resolver(InputsOf(env, raw), 0);
    var l := Listener(TunConfig(true, 0), None, None, if Enabled(raw) then Starting else Dead, false);
    State(raw, Runtime(0, r, Some(r), None, 1, Geo(0, 0, 0), 0, 0),
          TunState([l], None, if Enabled(raw) then Pending else Settled), Free, [], false, [])
  }

  /** Actions performed one after the other, written as a chain. */
  function Then(env: Env, s: Option<State>, a: Action): Option<State> {
    if s.Some? then Step(env, s.value, a) else None
  }

  lemma {:induction false} RunThen(env: Env, s: State, actions: seq<Action>, a: Action)
    ensures Run(env, s, actions + [a]) == Then(env, Run(env, s, actions), a)
    decreases |actions|
  {
    if actions == [] {
      assert [a][1..] == [];
    } else if Step(env, s, actions[0]).Some? {
      assert (actions + [a])[1..] == actions[1..] + [a];
      RunThen(env, Step(env, s, actions[0]).value, actions[1..], a);
    }
  }

  /** No handler is dropped. */
  predicate NoCancel(actions: seq<Action>) { forall i :: 0 <= i < |actions| ==> !actions[i].Cancel? }

  /** `actions` leads from `s` to `s'`. */
  ghost predicate Leads(env: Env, s: State, actions: seq<Action>, s': State) { Run(env, s, actions) == Some(s') }

  lemma {:induction false} Lead(env: Env, s: State, actions: seq<Action>, m: State, a: Action)
    requires Leads(env, s, actions, m) && Step(env, m, a).Some?
    ensures Leads(env, s, actions + [a], Step(env, m, a).value)
  {
    RunThen(env, s, actions, a);
  }

  lemma {:induction false} Lead3(env: Env, s: State, actions: seq<Action>, m: State, a: Action, b: Action, c: Action)
    returns (m': State)
    requires Leads(env, s, actions, m) && Step(env, m, a).Some?
    requires Step(env, Step(env, m, a).value, b).Some?
    requires Step(env, Step(env, Step(env, m, a).value, b).value, c).Some?
    ensures m' == Step(env, Step(env, Step(env, m, a).value, b).value, c).value
    ensures Leads(env, s, actions + [a, b, c], m')
  {
    var m1 := Step(env, m, a).value;
    var m2 := Step(env, m1, b).value;
    m' := Step(env, m2, c).value;
    Lead(env, s, actions, m, a);
    Lead(env, s, actions + [a], m1, b);
    Lead(env, s, actions + [a] + [b], m2, c);
    assert actions + [a] + [b] + [c] == actions + [a, b, c];
  }

  /** A commit that skips the resolver rebuild is forced. Then the resolver no
      longer matches the document. */
  lemma {:induction false} ForcedBreaksResolver() returns (env: Env, boot: State, actions: seq<Action>, s: State)
    ensures Boot(env, boot) && Leads(env, boot, actions, s)
    ensures s.lane == Free && s.forced && !Matched(env, s.run, s.raw)
  {
    env := PlainEnv(false);
    boot := BootState(env, Document(false, 1));
    assert Leads(env, boot, [], boot);
    s := Lead3(env, boot, [], boot, Begin(ForcedPut(Document(false, 2)), None), Rebuilt(false), Publication);
    actions := [] + [Begin(ForcedPut(Document(false, 2)), None), Rebuilt(false), Publication];
    s := Lead3(env, boot, actions, s, DnsPublished(true), Reconcile, Begin(Stamp(0, 0), None));
    actions := actions + [DnsPublished(true), Reconcile, Begin(Stamp(0, 0), None)];
  }

  /** A handler dropped after its document was written leaves an enabled
      section with no listener stored and no startup to wait for. */
  lemma {:induction false} CutBreaksTun() returns (env: Env, boot: State, actions: seq<Action>, s: State)
    ensures Boot(env, boot) && Leads(env, boot, actions, s)
    ensures s.lane == Free && !s.forced && !SectionTruth(env, s)
  {
    env := PlainEnv(false);
    boot := BootState(env, Document(false, 1));
    assert Leads(env, boot, [], boot);
    s := Lead3(env, boot, [], boot, Begin(Patch(Some(0), 0), None), Publication, DnsPublished(true));
    actions := [] + [Begin(Patch(Some(0), 0), None), Publication, DnsPublished(true)];
    s := Lead3(env, boot, actions, s, Reconcile, Cancel, Begin(Stamp(0, 0), None));
    actions := actions + [Reconcile, Cancel, Begin(Stamp(0, 0), None)];
  }

  // ---- a cut that breaks only later ----

  const PATCHED := Document(true, 1).(tun := Some(Tun(true, 5)))
  const PATCH := Patch(Some(5), 0)
  const STARTING := Listener(TunConfig(true, 0), None, None, Starting, false)
  const BOOTING := TunState([STARTING], None, Pending)
  const CUT_LOG := [Entry(PATCH, Cut(true))]
  const REFUSED_LOG := CUT_LOG + [Entry(BootPublication, Rejected)]

  lemma {:induction false} PatchPublishes()
    ensures Step3(PlainEnv(false), BootState(PlainEnv(false), OLD), Begin(PATCH, None), Publication, DnsPublished(true))
         == Some(Snap(PATCHED, RUN_OLD, BOOTING, Reconciling(PATCH, OLD, None, OLD_RESOLVER), []))
  {
  }

  lemma {:induction false} PatchIsCut()
    ensures Then(PlainEnv(false),
                 Step(PlainEnv(false), Snap(PATCHED, RUN_OLD, BOOTING, Reconciling(PATCH, OLD, None, OLD_RESOLVER), []),
                      Reconcile),
                 Cancel)
         == Some(Snap(PATCHED, RUN_OLD, BOOTING, Free, CUT_LOG))
  {
    var env := PlainEnv(false);
    var s0 := Snap(PATCHED, RUN_OLD, BOOTING, Reconciling(PATCH, OLD, None, OLD_RESOLVER), []);
    var s1 := Step(env, s0, Reconcile).value;
    assert s1 == Snap(PATCHED, RUN_OLD, BOOTING, Spawning(PATCH, OLD), []);
    var s2 := Step(env, s1, Cancel).value;
    assert s2.log == CUT_LOG && s2.tun == BOOTING;
  }

  lemma {:induction false} BootComesUpAlone()
    ensures Step3(PlainEnv(false), Snap(PATCHED, RUN_OLD, BOOTING, Free, CUT_LOG),
                  CaptureGateway(0), CaptureNetwork(0), PassGate(0))
         == Some(Snap(PATCHED, RUN_OLD, TunState([Captured(1, Live)], None, Pending), Free, CUT_LOG))
  {
    var env := PlainEnv(false);
    var s1 := Step(env, Snap(PATCHED, RUN_OLD, BOOTING, Free, CUT_LOG), CaptureGateway(0)).value;
    assert s1.tun.listeners == [STARTING.(gateway := Some(1))];
    var s2 := Step(env, s1, CaptureNetwork(0)).value;
    assert s2.tun.listeners == [Captured(1, Starting)];
    assert Step(env, s2, PassGate(0)).value.tun.listeners == [Captured(1, Live)];
  }

  lemma {:induction false} BootIsRefused()
    ensures Step(PlainEnv(false), Snap(PATCHED, RUN_OLD, TunState([Captured(1, Live)], None, Pending), Free, CUT_LOG),
                 BootPublish)
         == Some(Snap(PATCHED, RUN_OLD, TunState([Captured(1, Closing)], None, Settled), Free, REFUSED_LOG))
  {
    var env := PlainEnv(false);
    var s0 := Snap(PATCHED, RUN_OLD, TunState([Captured(1, Live)], None, Pending), Free, CUT_LOG);
    assert Step(env, s0, BootPublish).value.tun.listeners == [Captured(1, Closing)];
  }

  /** Why the boot listener is in the exact condition: a patch of the section
      during bring-up is dropped before it spawns. Startup is pending, so the
      section is still true; then startup no longer recognises its listener
      and tears it down. */
  lemma {:induction false} CutBreaksLater()
    returns (env: Env, boot: State, before: seq<Action>, c: State, rest: seq<Action>, s: State)
    ensures Boot(env, boot) && Leads(env, boot, before + [Cancel], c) && NoCancel(before)
    ensures c.lane == Free && SectionTruth(env, c)
    ensures Leads(env, c, rest, s) && LeftAlone(rest) && s.lane == Free && !s.forced && !SectionTruth(env, s)
  {
    env := PlainEnv(false);
    boot := BootState(env, OLD);
    c := Snap(PATCHED, RUN_OLD, BOOTING, Free, CUT_LOG);
    before := PatchRun(boot, c);
    rest, s := RefusalRun(c);
  }

  lemma {:induction false} PatchRun(boot: State, c: State) returns (before: seq<Action>)
    requires boot == BootState(PlainEnv(false), OLD) && c == Snap(PATCHED, RUN_OLD, BOOTING, Free, CUT_LOG)
    ensures Leads(PlainEnv(false), boot, before + [Cancel], c) && NoCancel(before)
  {
    var env := PlainEnv(false);
    var s1 := Snap(PATCHED, RUN_OLD, BOOTING, Reconciling(PATCH, OLD, None, OLD_RESOLVER), []);
    assert Leads(env, boot, [], boot);
    PatchPublishes();
    Extend3(env, boot, [], boot, Begin(PATCH, None), Publication, DnsPublished(true), s1);
    before := [] + [Begin(PATCH, None), Publication, DnsPublished(true)];
    PatchIsCut();
    Lead(env, boot, before, s1, Reconcile);
    before := before + [Reconcile];
    Lead(env, boot, before, Step(env, s1, Reconcile).value, Cancel);
  }

  lemma {:induction false} RefusalRun(c: State) returns (rest: seq<Action>, s: State)
    requires c == Snap(PATCHED, RUN_OLD, BOOTING, Free, CUT_LOG)
    ensures Leads(PlainEnv(false), c, rest, s) && LeftAlone(rest)
    ensures s == Snap(PATCHED, RUN_OLD, TunState([Captured(1, Closing)], None, Settled), Free, REFUSED_LOG)
  {
    var env := PlainEnv(false);
    var s1 := Snap(PATCHED, RUN_OLD, TunState([Captured(1, Live)], None, Pending), Free, CUT_LOG);
    assert Leads(env, c, [], c);
    BootComesUpAlone();
    Extend3(env, c, [], c, CaptureGateway(0), CaptureNetwork(0), PassGate(0), s1);
    rest := [] + [CaptureGateway(0), CaptureNetwork(0), PassGate(0)];
    BootIsRefused();
    Lead(env, c, rest, s1, BootPublish);
    rest, s := rest + [BootPublish], Step(env, s1, BootPublish).value;
  }

  // ---- the stale boot listener ----

  function Step3(env: Env, s: State, a: Action, b: Action, c: Action): Option<State> {
    Then(env, Then(env, Step(env, s, a), b), c)
  }

  const OLD := Document(true, 1)
  const NEW := Document(true, 2)
  const OLD_RESOLVER := Resolver(Inputs(1, None), 0)
  const NEW_RESOLVER := Resolver(Inputs(2, None), 1)

  function Captured(dns: Doc, phase: Phase): Listener {
    Listener(TunConfig(true, 0), Some(dns), Some(dns), phase, !phase.Starting?)
  }

  /** The state of the run: which resolver is installed where, the
      listeners, and the lane. */
  function Snap(raw: Raw, run: Runtime, t: TunState, lane: Lane, log: seq<Entry>): State {
    State(raw, run, t, lane, log, false, [])
  }

  const RUN_OLD := Runtime(0, OLD_RESOLVER, Some(OLD_RESOLVER), None, 1, Geo(0, 0, 0), 0, 0)
  const RUN_MID := Runtime(0, NEW_RESOLVER, Some(OLD_RESOLVER), None, 2, Geo(0, 0, 0), 0, 0)
  const RUN_NEW := Runtime(1, NEW_RESOLVER, Some(NEW_RESOLVER), None, 2, Geo(0, 0, 0), 1, 1)
  const RUN_UP := RUN_NEW.(dns := Some(NEW_RESOLVER))
  const WAITING := TunState([Captured(1, Starting)], None, Pending)
  const SPAWNED := TunState([Captured(1, Starting), Captured(2, Starting)], None, Pending)
  const DYING := TunState([Captured(1, Starting), Captured(2, Closing)], Some(1), Pending)
  const STALE := TunState([Captured(1, Live), Captured(2, Dead)], Some(0), Settled)
  const LOG := [Entry(Put(NEW), Committed)]
  const FINAL_LOG := LOG + [Entry(BootPublication, Committed)]

  lemma {:induction false} StaleBegins()
    ensures Step3(PlainEnv(false), BootState(PlainEnv(false), OLD), CaptureGateway(0), CaptureNetwork(0),
        Begin(Put(NEW), None))
         == Some(Snap(OLD, RUN_OLD, WAITING, Building(Put(NEW), NEW), []))
  {
    var env := PlainEnv(false);
    assert InheritAll(env, NEW, []) == [];
    var s1 := Step(env, BootState(env, OLD), CaptureGateway(0)).value;
    assert s1.tun.listeners == [Listener(TunConfig(true, 0), Some(1), None, Starting, false)];
    var s2 := Step(env, s1, CaptureNetwork(0)).value;
    assert s2.tun.listeners == [Captured(1, Starting)];
  }

  lemma {:induction false} StaleInstalls()
    ensures Step3(PlainEnv(false), Snap(OLD, RUN_OLD, WAITING, Building(Put(NEW), NEW), []), Rebuilt(true),
        Parsed(true, true), Publication)
         == Some(Snap(OLD, RUN_MID, WAITING, Installing(Put(NEW), NEW, 1, NEW_RESOLVER, OLD_RESOLVER, 1), []))
  {
  }

  lemma {:induction false} StaleSwaps()
    ensures Step3(PlainEnv(false),
        Snap(OLD, RUN_MID, WAITING, Installing(Put(NEW), NEW, 1, NEW_RESOLVER, OLD_RESOLVER, 1), []),
                  Publication, Publication, Publication)
         == Some(Snap(OLD, RUN_NEW, WAITING, Writing(Put(NEW), NEW, Some(NEW_RESOLVER), OLD_RESOLVER), []))
  {
  }

  lemma {:induction false} StaleReconciles()
    ensures Step3(PlainEnv(false),
        Snap(OLD, RUN_NEW, WAITING, Writing(Put(NEW), NEW, Some(NEW_RESOLVER), OLD_RESOLVER), []),
                  Publication, DnsPublished(true), Reconcile)
         == Some(Snap(NEW, RUN_UP, WAITING, Spawning(Put(NEW), OLD), []))
  {
  }

  lemma {:induction false} StaleSpawns()
    ensures Step3(PlainEnv(false), Snap(NEW, RUN_UP, WAITING, Spawning(Put(NEW), OLD), []), Spawn, CaptureGateway(1),
        CaptureNetwork(1))
         == Some(Snap(NEW, RUN_UP, SPAWNED, Awaiting(Put(NEW), OLD, 1), []))
  {
    var env := PlainEnv(false);
    var s1 := Step(env, Snap(NEW, RUN_UP, WAITING, Spawning(Put(NEW), OLD), []), Spawn).value;
    var s2 := Step(env, s1, CaptureGateway(1)).value;
    assert s2.tun.listeners == [Captured(1, Starting), Listener(TunConfig(true, 0), Some(2), None, Starting, false)];
    assert Step(env, s2, CaptureNetwork(1)).value.tun.listeners == SPAWNED.listeners;
  }

  lemma {:induction false} StaleDies()
    ensures Step3(PlainEnv(false), Snap(NEW, RUN_UP, SPAWNED, Awaiting(Put(NEW), OLD, 1), []), PassGate(1),
        SpawnReady, Exit(1))
         == Some(Snap(NEW, RUN_UP, DYING, Free, LOG))
  {
    var env := PlainEnv(false);
    var s1 := Step(env, Snap(NEW, RUN_UP, SPAWNED, Awaiting(Put(NEW), OLD, 1), []), PassGate(1)).value;
    assert s1.tun.listeners == [Captured(1, Starting), Captured(2, Live)];
    var s2 := Step(env, s1, SpawnReady).value;
    assert s2.log == LOG && s2.tun.listeners == s1.tun.listeners;
    assert Step(env, s2, Exit(1)).value.tun.listeners == DYING.listeners;
  }

  lemma {:induction false} StaleIsStored()
    ensures Step3(PlainEnv(false), Snap(NEW, RUN_UP, DYING, Free, LOG), CoreDone(1), PassGate(0), BootPublish)
         == Some(Snap(NEW, RUN_UP, STALE, Free, FINAL_LOG))
  {
    var env := PlainEnv(false);
    var s1 := Step(env, Snap(NEW, RUN_UP, DYING, Free, LOG), CoreDone(1)).value;
    assert s1.tun.listeners == [Captured(1, Starting), Captured(2, Dead)];
    var s2 := Step(env, s1, PassGate(0)).value;
    assert s2.tun.listeners == STALE.listeners;
    assert Step(env, s2, BootPublish).value.tun.listeners == STALE.listeners;
  }

  lemma {:induction false} Extend3(
      env: Env, s: State, actions: seq<Action>, m: State, a: Action, b: Action, c: Action, m': State)
    requires Leads(env, s, actions, m) && Step3(env, m, a, b, c) == Some(m')
    ensures Leads(env, s, actions + [a, b, c], m')
  {
    var last := Lead3(env, s, actions, m, a, b, c);
  }

  /** Why the calm hypothesis is needed: the boot listener reads its fake-IP
      inputs and waits at the gate; a `PUT` with the same `tun:` section and
      other fake-IP inputs starts its own listener, which then dies; the boot
      listener comes up, still matches the section, and is stored with the
      old inputs. */
  lemma {:induction false} StaleBootListener() returns (env: Env, boot: State, actions: seq<Action>, s: State)
    ensures Boot(env, boot) && Leads(env, boot, actions, s)
    ensures s.lane == Free && !s.forced && NoCancel(actions) && SectionTruth(env, s) && !FakeIpTruth(env, s)
  {
    env := PlainEnv(false);
    boot := BootState(env, OLD);
    assert Leads(env, boot, [], boot);
    StaleBegins();
    Extend3(env, boot, [], boot, CaptureGateway(0), CaptureNetwork(0), Begin(Put(NEW), None),
        Snap(OLD, RUN_OLD, WAITING, Building(Put(NEW), NEW), []));
    s, actions := StaleContinues(boot, [] + [CaptureGateway(0), CaptureNetwork(0), Begin(Put(NEW), None)]);
  }

  lemma {:induction false} StaleContinues(boot: State, actions: seq<Action>) returns (s: State, all: seq<Action>)
    requires Leads(PlainEnv(false), boot, actions, Snap(OLD, RUN_OLD, WAITING, Building(Put(NEW), NEW), []))
    ensures s == Snap(NEW, RUN_UP, STALE, Free, FINAL_LOG) && Leads(PlainEnv(false), boot, all, s)
    ensures NoCancel(actions) ==> NoCancel(all)
  {
    var env := PlainEnv(false);
    var s3 := Snap(NEW, RUN_UP, WAITING, Spawning(Put(NEW), OLD), []);
    var s4 := Snap(NEW, RUN_UP, SPAWNED, Awaiting(Put(NEW), OLD, 1), []);
    var s5 := Snap(NEW, RUN_UP, DYING, Free, LOG);
    s := Snap(NEW, RUN_UP, STALE, Free, FINAL_LOG);
    all := UpToSpawn(boot, actions);
    StaleSpawns();
    Extend3(env, boot, all, s3, Spawn, CaptureGateway(1), CaptureNetwork(1), s4);
    all := all + [Spawn, CaptureGateway(1), CaptureNetwork(1)];
    StaleDies();
    Extend3(env, boot, all, s4, PassGate(1), SpawnReady, Exit(1), s5);
    all := all + [PassGate(1), SpawnReady, Exit(1)];
    StaleIsStored();
    Extend3(env, boot, all, s5, CoreDone(1), PassGate(0), BootPublish, s);
    all := all + [CoreDone(1), PassGate(0), BootPublish];
  }

  lemma {:induction false} UpToSpawn(boot: State, actions: seq<Action>) returns (all: seq<Action>)
    requires Leads(PlainEnv(false), boot, actions, Snap(OLD, RUN_OLD, WAITING, Building(Put(NEW), NEW), []))
    ensures Leads(PlainEnv(false), boot, all, Snap(NEW, RUN_UP, WAITING, Spawning(Put(NEW), OLD), []))
    ensures NoCancel(actions) ==> NoCancel(all)
  {
    var env := PlainEnv(false);
    var s0 := Snap(OLD, RUN_OLD, WAITING, Building(Put(NEW), NEW), []);
    var s1 := Snap(OLD, RUN_MID, WAITING, Installing(Put(NEW), NEW, 1, NEW_RESOLVER, OLD_RESOLVER, 1), []);
    var s2 := Snap(OLD, RUN_NEW, WAITING, Writing(Put(NEW), NEW, Some(NEW_RESOLVER), OLD_RESOLVER), []);
    var s3 := Snap(NEW, RUN_UP, WAITING, Spawning(Put(NEW), OLD), []);
    all := actions + [Rebuilt(true), Parsed(true, true), Publication];
    StaleInstalls();
    Extend3(env, boot, actions, s0, Rebuilt(true), Parsed(true, true), Publication, s1);
    StaleSwaps();
    Extend3(env, boot, all, s1, Publication, Publication, Publication, s2);
    all := all + [Publication, Publication, Publication];
    StaleReconciles();
    Extend3(env, boot, all, s2, Publication, DnsPublished(true), Reconcile, s3);
    all := all + [Publication, DnsPublished(true), Reconcile];
  }

  // ---- a cut that leaves the boot listener behind ----

  const CUT_STALE := TunState([Captured(1, Live)], Some(0), Settled)
  const PUT_CUT_LOG := [Entry(Put(NEW), Cut(true))]
  const PUT_CUT_STALE_LOG := PUT_CUT_LOG + [Entry(BootPublication, Committed)]

  lemma {:induction false} PutIsCut()
    ensures Step(PlainEnv(false), Snap(NEW, RUN_UP, WAITING, Spawning(Put(NEW), OLD), []), Cancel)
         == Some(Snap(NEW, RUN_UP, WAITING, Free, PUT_CUT_LOG))
  {
    var s := Step(PlainEnv(false), Snap(NEW, RUN_UP, WAITING, Spawning(Put(NEW), OLD), []), Cancel).value;
    assert s.log == PUT_CUT_LOG && s.tun == WAITING;
  }

  lemma {:induction false} StaleAfterCut()
    ensures Then(PlainEnv(false), Step(PlainEnv(false), Snap(NEW, RUN_UP, WAITING, Free, PUT_CUT_LOG), PassGate(0)),
                 BootPublish)
         == Some(Snap(NEW, RUN_UP, CUT_STALE, Free, PUT_CUT_STALE_LOG))
  {
    var env := PlainEnv(false);
    var s1 := Step(env, Snap(NEW, RUN_UP, WAITING, Free, PUT_CUT_LOG), PassGate(0)).value;
    assert s1.tun.listeners == [Captured(1, Live)];
    assert Step(env, s1, BootPublish).value.tun.listeners == [Captured(1, Live)];
  }

  /** The same for the fake-IP inputs: nothing runs when a `PUT` that changed
      them is dropped before it spawns, and then startup stores the boot
      listener with the old ones. */
  lemma {:induction false} CutInputsBreakLater()
    returns (env: Env, boot: State, before: seq<Action>, c: State, rest: seq<Action>, s: State)
    ensures Boot(env, boot) && Leads(env, boot, before + [Cancel], c) && NoCancel(before)
    ensures c.lane == Free && FakeIpTruth(env, c)
    ensures Leads(env, c, rest, s) && LeftAlone(rest) && s.lane == Free && !s.forced && !FakeIpTruth(env, s)
  {
    env := PlainEnv(false);
    boot := BootState(env, OLD);
    c := Snap(NEW, RUN_UP, WAITING, Free, PUT_CUT_LOG);
    s := Snap(NEW, RUN_UP, CUT_STALE, Free, PUT_CUT_STALE_LOG);
    before := PutRun(boot, c);
    assert Leads(env, c, [], c);
    StaleAfterCut();
    Lead(env, c, [], c, PassGate(0));
    Lead(env, c, [] + [PassGate(0)], Step(env, c, PassGate(0)).value, BootPublish);
    rest := [] + [PassGate(0)] + [BootPublish];
  }

  lemma {:induction false} PutRun(boot: State, c: State) returns (before: seq<Action>)
    requires boot == BootState(PlainEnv(false), OLD) && c == Snap(NEW, RUN_UP, WAITING, Free, PUT_CUT_LOG)
    ensures Leads(PlainEnv(false), boot, before + [Cancel], c) && NoCancel(before)
  {
    var env := PlainEnv(false);
    var s0 := Snap(OLD, RUN_OLD, WAITING, Building(Put(NEW), NEW), []);
    assert Leads(env, boot, [], boot);
    StaleBegins();
    Extend3(env, boot, [], boot, CaptureGateway(0), CaptureNetwork(0), Begin(Put(NEW), None), s0);
    before := UpToSpawn(boot, [] + [CaptureGateway(0), CaptureNetwork(0), Begin(Put(NEW), None)]);
    PutIsCut();
    Lead(env, boot, before, Snap(NEW, RUN_UP, WAITING, Spawning(Put(NEW), OLD), []), Cancel);
  }

  // ---- a refresh after a forced commit ----

  /** States of the run, with `forced` spelled out. */
  function ForcedSnap(raw: Raw, run: Runtime, lane: Lane, log: seq<Entry>, forced: bool): State {
    State(raw, run, UP, lane, log, forced, [])
  }

  const UP := TunState([Captured(1, Live)], Some(0), Settled)
  const REFRESHED := Resolver(Inputs(2, None), 0)
  const RUN_TICK := RUN_OLD.(geo := Geo(1, 0, 0))
  const RUN_DONE := Runtime(0, REFRESHED, Some(REFRESHED), None, 1, Geo(1, 1, 0), 0, 0)
  const BOOT_LOG := [Entry(BootPublication, Committed)]
  const FORCED_LOG := BOOT_LOG + [Entry(ForcedPut(NEW), Committed)]
  const TICK_LOG := FORCED_LOG + [Entry(GeoTick, Committed)]

  lemma {:induction false} BootComesUp()
    ensures Step3(PlainEnv(false), BootState(PlainEnv(false), OLD), CaptureGateway(0), CaptureNetwork(0), PassGate(0))
         == Some(State(OLD, RUN_OLD, UP.(slot := None, startup := Pending), Free, [], false, []))
  {
    var env := PlainEnv(false);
    var s1 := Step(env, BootState(env, OLD), CaptureGateway(0)).value;
    assert s1.tun.listeners == [Listener(TunConfig(true, 0), Some(1), None, Starting, false)];
    var s2 := Step(env, s1, CaptureNetwork(0)).value;
    assert s2.tun.listeners == [Captured(1, Starting)];
    assert Step(env, s2, PassGate(0)).value.tun.listeners == [Captured(1, Live)];
  }

  lemma {:induction false} ForcedBegins()
    ensures Step3(PlainEnv(false),
        State(OLD, RUN_OLD, UP.(slot := None, startup := Pending), Free, [], false, []),
                  BootPublish, Begin(ForcedPut(NEW), None), Rebuilt(false))
         == Some(ForcedSnap(OLD, RUN_OLD, Writing(ForcedPut(NEW), NEW, None, OLD_RESOLVER), BOOT_LOG, true))
  {
    var env := PlainEnv(false);
    assert InheritAll(env, NEW, []) == [];
    var s0 := State(OLD, RUN_OLD, UP.(slot := None, startup := Pending), Free, [], false, []);
    var s1 := Step(env, s0, BootPublish).value;
    assert s1.log == BOOT_LOG && s1.tun.listeners == UP.listeners;
  }

  lemma {:induction false} ForcedCommits()
    ensures Step3(PlainEnv(false),
        ForcedSnap(OLD, RUN_OLD, Writing(ForcedPut(NEW), NEW, None, OLD_RESOLVER), BOOT_LOG, true),
                  Publication, DnsPublished(true), Reconcile)
         == Some(ForcedSnap(NEW, RUN_OLD, Free, FORCED_LOG, true))
  {
  }

  lemma {:induction false} TickBegins()
    ensures Step3(PlainEnv(false), ForcedSnap(NEW, RUN_OLD, Free, FORCED_LOG, true),
                  Begin(GeoTick, None), Rebuilt(true), Parsed(true, true))
         == Some(ForcedSnap(NEW, RUN_TICK, Installing(GeoTick, NEW, 0, REFRESHED, OLD_RESOLVER, 0), FORCED_LOG, true))
  {
  }

  lemma {:induction false} TickInstalls()
    ensures Step3(PlainEnv(false),
                  ForcedSnap(NEW, RUN_TICK, Installing(GeoTick, NEW, 0, REFRESHED, OLD_RESOLVER, 0), FORCED_LOG, true),
                  Publication, Publication, Publication)
         == Some(ForcedSnap(NEW, RUN_DONE, Swapping(GeoTick, NEW, 0, Some(REFRESHED), OLD_RESOLVER), FORCED_LOG, true))
  {
  }

  lemma {:induction false} TickEnds()
    ensures Step3(PlainEnv(false),
                  ForcedSnap(NEW, RUN_DONE, Swapping(GeoTick, NEW, 0, Some(REFRESHED), OLD_RESOLVER), FORCED_LOG, true),
                  Publication, Publication, DnsPublished(false))
         == Some(ForcedSnap(NEW, RUN_DONE, Free, TICK_LOG, true))
  {
  }

  /** Why a skipped reconcile is in the exact condition: a forced document of
      which nothing builds keeps the old resolver; the next geodata tick
      builds the resolver of that document and, with its own candidate
      unchanged, restarts no listener. */
  lemma {:induction false} ForcedBreaksFakeIp() returns (env: Env, boot: State, actions: seq<Action>, s: State)
    ensures Boot(env, boot) && Leads(env, boot, actions, s)
    ensures s.lane == Free && NoCancel(actions) && s.forced && SectionTruth(env, s) && !FakeIpTruth(env, s)
  {
    env := PlainEnv(false);
    boot := BootState(env, OLD);
    var s1 := State(OLD, RUN_OLD, UP.(slot := None, startup := Pending), Free, [], false, []);
    var s2 := ForcedSnap(OLD, RUN_OLD, Writing(ForcedPut(NEW), NEW, None, OLD_RESOLVER), BOOT_LOG, true);
    var s3 := ForcedSnap(NEW, RUN_OLD, Free, FORCED_LOG, true);
    assert Leads(env, boot, [], boot);
    BootComesUp();
    Extend3(env, boot, [], boot, CaptureGateway(0), CaptureNetwork(0), PassGate(0), s1);
    actions := [] + [CaptureGateway(0), CaptureNetwork(0), PassGate(0)];
    ForcedBegins();
    Extend3(env, boot, actions, s1, BootPublish, Begin(ForcedPut(NEW), None), Rebuilt(false), s2);
    actions := actions + [BootPublish, Begin(ForcedPut(NEW), None), Rebuilt(false)];
    ForcedCommits();
    Extend3(env, boot, actions, s2, Publication, DnsPublished(true), Reconcile, s3);
    actions := actions + [Publication, DnsPublished(true), Reconcile];
    s, actions := TickContinues(boot, actions);
  }

  lemma {:induction false} TickContinues(boot: State, actions: seq<Action>) returns (s: State, all: seq<Action>)
    requires Leads(PlainEnv(false), boot, actions, ForcedSnap(NEW, RUN_OLD, Free, FORCED_LOG, true))
    ensures s == ForcedSnap(NEW, RUN_DONE, Free, TICK_LOG, true) && Leads(PlainEnv(false), boot, all, s)
    ensures NoCancel(actions) ==> NoCancel(all)
  {
    var env := PlainEnv(false);
    var s0 := ForcedSnap(NEW, RUN_OLD, Free, FORCED_LOG, true);
    var s1 := ForcedSnap(NEW, RUN_TICK, Installing(GeoTick, NEW, 0, REFRESHED, OLD_RESOLVER, 0), FORCED_LOG, true);
    var s2 := ForcedSnap(NEW, RUN_DONE, Swapping(GeoTick, NEW, 0, Some(REFRESHED), OLD_RESOLVER), FORCED_LOG, true);
    s := ForcedSnap(NEW, RUN_DONE, Free, TICK_LOG, true);
    TickBegins();
    Extend3(env, boot, actions, s0, Begin(GeoTick, None), Rebuilt(true), Parsed(true, true), s1);
    all := actions + [Begin(GeoTick, None), Rebuilt(true), Parsed(true, true)];
    TickInstalls();
    Extend3(env, boot, all, s1, Publication, Publication, Publication, s2);
    all := all + [Publication, Publication, Publication];
    TickEnds();
    Extend3(env, boot, all, s2, Publication, Publication, DnsPublished(false), s);
    all := all + [Publication, Publication, DnsPublished(false)];
  }
}
