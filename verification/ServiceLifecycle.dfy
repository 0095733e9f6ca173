/** The Windows service lifecycle: control handler, startup reporter, ready
    callback and main thread around one lock. */
module ServiceLifecycle {
  import opened Wrappers

  const U32_MAX: nat := 0xFFFF_FFFF

  datatype Phase = Starting | Running | Stopping | Stopped

  /** What the service manager is told, and by whom. */
  datatype Report = StartPending(checkpoint: nat, reporter: bool) | RunningReport | StopPending | StoppedReport

  /** The reporter has not looked yet, waits on the condition variable, or
      has returned. */
  datatype Reporter = Fresh | Waiting | Returned

  /** Main is before its first report, has reported, or has finished. */
  datatype Main = Registered | Started | Finished

  datatype Service = Service(
    phase: Phase, handle: bool, shutdown: bool, sent: nat, checkpoint: nat,
    reporter: Reporter, ready: bool, main: Main, reports: seq<Report>)

  datatype Action =
    | Stop
    | FirstReport
    | Look
    | Wake(ok: bool)
    | Ready(ok: bool)
    | Finish

  function Tell(s: Service, r: Report): Service { s.(reports := s.reports + [r]) }

  /** Each action is one critical section. */
  function Step(s: Service, a: Action): Option<Service> {
    match a
    case Stop =>
      var told := if s.handle then Tell(s, StopPending) else s;
      Some(told.(phase := Stopping, shutdown := false, sent := if s.shutdown then s.sent + 1 else s.sent))
    case FirstReport =>
      if s.main.Registered? then Some(Tell(s, StartPending(s.checkpoint, false)).(handle := true, main := Started))
      else None
    case Look =>
      if s.reporter.Fresh? && !s.main.Registered?
      then Some(s.(reporter := if s.phase.Starting? then Waiting else Returned)) else None
    case Wake(ok) =>
      if !s.reporter.Waiting? then None
      else if !s.phase.Starting? then Some(s.(reporter := Returned))
      else
        var next := if s.checkpoint == U32_MAX then U32_MAX else s.checkpoint + 1;
        if ok then Some(Tell(s, StartPending(next, true)).(checkpoint := next))
        else Some(s.(checkpoint := next, reporter := Returned))
    case Ready(ok) =>
      if !s.ready || !s.main.Started? then None
      else if s.phase.Starting? && ok then Some(Tell(s, RunningReport).(phase := Running, ready := false))
      else Some(s.(ready := false))
    case Finish =>
      if s.main.Started? then Some(Tell(s, StoppedReport).(phase := Stopped, main := Finished)) else None
  }

  function Run(s: Service, actions: seq<Action>): Option<Service>
    decreases |actions|
  {
    if actions == [] then Some(s)
    else match Step(s, actions[0]) case Some(s') => Run(s', actions[1..]) case None => None
  }

  const BOOT := Service(Starting, false, true, 0, 1, Fresh, true, Registered, [])

  /** How often Running was told. */
  function RunningReports(reports: seq<Report>): nat {
    if reports == [] then 0
    else RunningReports(reports[..|reports| - 1]) + if reports[|reports| - 1].RunningReport? then 1 else 0
  }

  /** Report `r` moves the checkpoint on. */
  predicate MovesOn(r: Report) { r.StartPending? && r.reporter && r.checkpoint < U32_MAX }

  /** Checkpoints told so far do not exceed `bound` and never drop; the
      reporter's always grow until they saturate. */
  ghost predicate Ascending(reports: seq<Report>, bound: nat) {
    && (forall i :: 0 <= i < |reports| && reports[i].StartPending? ==> reports[i].checkpoint <= bound)
    && (forall i, j :: 0 <= i < j < |reports| && reports[i].StartPending? && reports[j].StartPending? ==>
          reports[i].checkpoint <= reports[j].checkpoint)
    && (forall i, j :: 0 <= i < j < |reports| && reports[i].StartPending? && MovesOn(reports[j]) ==>
          reports[i].checkpoint < reports[j].checkpoint)
  }

  lemma {:induction false} Told(reports: seq<Report>, r: Report, bound: nat, bound': nat)
    requires Ascending(reports, bound) && bound <= bound' && (r.StartPending? ==> r.checkpoint == bound')
    requires MovesOn(r) ==> bound < bound'
    ensures RunningReports(reports + [r]) == RunningReports(reports) + if r.RunningReport? then 1 else 0
    ensures Ascending(reports + [r], bound')
  {
    assert (reports + [r])[..|reports|] == reports;
  }

  ghost predicate Inv(s: Service) {
    && (s.sent == if s.shutdown then 0 else 1)
    && (s.phase.Starting? ==> RunningReports(s.reports) == 0) && (s.phase.Running? ==> !s.ready)
    && RunningReports(s.reports) <= (if s.ready then 0 else 1)
    && Ascending(s.reports, s.checkpoint) && (s.main.Registered? ==> s.reporter.Fresh? && s.ready)
  }

  /** One step, as seen from outside: the phase does not come back to
      Starting, Running is told only from Starting, and the reporter tells
      StartPending only while Starting, and as long as it is. Whoever changes
      the phase says so: a stop as soon as there is a handle. */
  ghost predicate StepFair(s: Service, a: Action, s': Service) {
    && (s'.phase.Starting? ==> s.phase.Starting?)
    && (a.Stop? ==> s'.phase.Stopping? && s'.reports == s.reports + if s.handle then [StopPending] else [])
    && (a.Finish? ==> s'.phase.Stopped? && s'.reports == s.reports + [StoppedReport])
    && (s'.phase.Running? && !s.phase.Running? ==> s'.reports == s.reports + [RunningReport])
    && (a.FirstReport? ==> s'.handle && |s'.reports| > |s.reports|)
    && (s'.phase != s.phase ==> a.Stop? || a.Finish? || a == Ready(true))
    && (a == Ready(true) && s.phase.Starting? ==> s'.phase.Running?) && (a.Ready? ==> !s'.ready)
    && (a == Wake(true) && s.phase.Starting? ==> s'.reports == s.reports + [StartPending(s'.checkpoint, true)])
    && (a.Look? || a == Wake(true) ==> (s'.reporter.Waiting? <==> s.phase.Starting?))
    && (s'.reports == s.reports || (|s'.reports| == |s.reports| + 1 && s'.reports[..|s.reports|] == s.reports))
    && (s'.reports != s.reports ==>
          var r := s'.reports[|s.reports|];
          && (r.RunningReport? ==> s.phase.Starting? && s'.phase.Running?)
          && (r.StartPending? && r.reporter ==> s.phase.Starting? && s'.phase.Starting?))
    && s.sent <= s'.sent <= 1 && s.checkpoint <= s'.checkpoint
  }

  lemma {:induction false} StepIsFair(s: Service, a: Action)
    requires Inv(s) && Step(s, a).Some?
    ensures StepFair(s, a, Step(s, a).value)
  {
  }

  lemma {:induction false} StepKeeps(s: Service, a: Action)
    requires Inv(s) && Step(s, a).Some?
    ensures Inv(Step(s, a).value)
  {
    var s' := Step(s, a).value;
    match a {
      case Stop => if s.handle { Told(s.reports, StopPending, s.checkpoint, s.checkpoint); }
      case FirstReport => Told(s.reports, StartPending(s.checkpoint, false), s.checkpoint, s.checkpoint);
      case Look =>
      case Wake(ok) =>
        if s.phase.Starting? && ok { Told(s.reports, StartPending(s'.checkpoint, true), s.checkpoint, s'.checkpoint); }
      case Ready(ok) => if s.phase.Starting? && ok { Told(s.reports, RunningReport, s.checkpoint, s.checkpoint); }
      case Finish => Told(s.reports, StoppedReport, s.checkpoint, s.checkpoint);
    }
  }

  /** Every step of every interleaving is fair. */
  ghost predicate AllFair(s: Service, actions: seq<Action>)
    decreases |actions|
  {
    actions == [] ||
    match Step(s, actions[0])
    case None => true
    case Some(s') => StepFair(s, actions[0], s') && AllFair(s', actions[1..])
  }

  lemma {:induction false} RunKeeps(s: Service, actions: seq<Action>)
    requires Inv(s)
    ensures AllFair(s, actions) && (Run(s, actions).Some? ==> Inv(Run(s, actions).value))
    decreases |actions|
  {
    if actions == [] || Step(s, actions[0]).None? {
    } else {
      StepKeeps(s, actions[0]);
      StepIsFair(s, actions[0]);
      RunKeeps(Step(s, actions[0]).value, actions[1..]);
    }
  }

  predicate Stops(actions: seq<Action>) { exists i :: 0 <= i < |actions| && actions[i].Stop? }

  lemma {:induction false} SentExact(s: Service, actions: seq<Action>)
    requires Inv(s) && Run(s, actions).Some?
    ensures Run(s, actions).value.sent == if s.sent == 1 || Stops(actions) then 1 else 0
    decreases |actions|
  {
    if actions == [] {
    } else {
      StepKeeps(s, actions[0]);
      SentExact(Step(s, actions[0]).value, actions[1..]);
      if Stops(actions[1..]) {
        var i :| 0 <= i < |actions[1..]| && actions[1..][i].Stop?;
        assert actions[i + 1].Stop?;
      } else if Stops(actions) {
        var i :| 0 <= i < |actions| && actions[i].Stop?;
        if i > 0 { assert actions[1..][i - 1].Stop?; }
      }
    }
  }

  /** Over every interleaving: each step is fair, Running is told at most
      once, checkpoints never decrease, and grow with every report of the
      reporter until they saturate, and shutdown is sent once if a stop came
      and never otherwise. */
  lemma {:induction false} LifecycleSafety(actions: seq<Action>)
    ensures AllFair(BOOT, actions)
    ensures Run(BOOT, actions).Some? ==>
              var s := Run(BOOT, actions).value;
              && RunningReports(s.reports) <= 1 && Ascending(s.reports, s.checkpoint)
              && s.sent == if Stops(actions) then 1 else 0
  {
    RunKeeps(BOOT, actions);
    if Run(BOOT, actions).Some? { SentExact(BOOT, actions); }
  }

  // ---- the main thread's own report ----

  /** The main thread tells StartPending when the phase is not Starting. */
  predicate ToldLate(s: Service, actions: seq<Action>)
    decreases |actions|
  {
    && actions != [] && Step(s, actions[0]).Some?
    && ((actions[0].FirstReport? && !s.phase.Starting?) || ToldLate(Step(s, actions[0]).value, actions[1..]))
  }

  predicate Reports(actions: seq<Action>) { exists j :: 0 <= j < |actions| && actions[j].FirstReport? }

  predicate StopsFirst(actions: seq<Action>) {
    exists i, j :: 0 <= i < j < |actions| && actions[i].Stop? && actions[j].FirstReport?
  }

  lemma {:induction false} ReportsTail(actions: seq<Action>)
    requires actions != []
    ensures Reports(actions) <==> actions[0].FirstReport? || Reports(actions[1..])
    ensures StopsFirst(actions) <==> (actions[0].Stop? && Reports(actions[1..])) || StopsFirst(actions[1..])
  {
    var rest := actions[1..];
    if Reports(actions) {
      var j :| 0 <= j < |actions| && actions[j].FirstReport?;
      if j > 0 { assert rest[j - 1].FirstReport?; }
    }
    if j :| 0 <= j < |rest| && rest[j].FirstReport? { assert actions[j + 1].FirstReport?; }
    if StopsFirst(actions) {
      var i, j :| 0 <= i < j < |actions| && actions[i].Stop? && actions[j].FirstReport?;
      assert rest[j - 1].FirstReport?;
      if i > 0 { assert rest[i - 1].Stop?; }
    }
    if i, j :| 0 <= i < j < |rest| && rest[i].Stop? && rest[j].FirstReport? {
      assert actions[i + 1].Stop? && actions[j + 1].FirstReport?;
    }
  }

  /** Once the main thread has told it, it does not again. */
  lemma {:induction false} ReportedOnce(s: Service, actions: seq<Action>)
    requires !s.main.Registered? && Run(s, actions).Some?
    ensures !Reports(actions) && !ToldLate(s, actions) && !StopsFirst(actions)
    decreases |actions|
  {
    if actions == [] {
    } else {
      ReportedOnce(Step(s, actions[0]).value, actions[1..]);
      ReportsTail(actions);
    }
  }

  lemma {:induction false} LateFrom(s: Service, actions: seq<Action>)
    requires Inv(s) && s.main.Registered? && Run(s, actions).Some?
    ensures ToldLate(s, actions) <==> if s.phase.Starting? then StopsFirst(actions) else Reports(actions)
    decreases |actions|
  {
    if actions == [] {
    } else {
      var s' := Step(s, actions[0]).value;
      StepKeeps(s, actions[0]);
      if actions[0].FirstReport? {
        ReportedOnce(s', actions[1..]);
      } else {
        assert actions[0].Stop?;
        LateFrom(s', actions[1..]);
        if StopsFirst(actions[1..]) { assert Reports(actions[1..]); }
      }
      ReportsTail(actions);
    }
  }

  /** In every interleaving the main thread tells StartPending outside
      Starting if and only if a stop came before its first report. */
  lemma {:induction false} LateReportExact(actions: seq<Action>)
    requires Run(BOOT, actions).Some?
    ensures ToldLate(BOOT, actions) <==> StopsFirst(actions)
  {
    LateFrom(BOOT, actions);
  }
}
