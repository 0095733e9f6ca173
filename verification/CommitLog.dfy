/** What the committed document is made of: serialisability, and the source
    of subscription content. */
module CommitLog {
  import opened Sequences
  import opened Wrappers
  import opened CommitState

  // ---- one mutation at a time ----

  /** The in-lane part of a mutation run alone on `raw`, ended by `outcome`. */
  function Effect(env: Env, raw: Raw, e: Entry): Raw {
    var cand := match Candidate(env, e.job, raw) case Some(c) => c case None => raw;
    match e.outcome
    case Rejected =>
      if e.job.LoopRefresh? && Candidate(env, e.job, raw).Some? then Stamped(raw, e.job.name, e.job.now) else raw
    case Committed => if e.job.Patch? then cand.(other := env.general(e.job.general, cand.other)) else cand
    case RolledBack => Disabled(cand)
    case Cut(written) => if written then cand else raw
    case Partial => cand
  }

  /** The mutations of the log one after the other. */
  function Replay(env: Env, raw: Raw, log: seq<Entry>): Raw
    decreases |log|
  {
    if log == [] then raw else Effect(env, Replay(env, raw, log[..|log| - 1]), log[|log| - 1])
  }

  lemma {:induction false} ReplayAppend(env: Env, raw: Raw, log: seq<Entry>, e: Entry)
    ensures Replay(env, raw, log + [e]) == Effect(env, Replay(env, raw, log), e)
  {
    assert (log + [e])[..|log|] == log;
  }

  /** `raw` is the replayed log, up to the progress of the lane holder, whose
      candidate was built on the replayed log too. */
  ghost predicate Serial(env: Env, base: Raw, s: State) {
    match s.lane
    case Building(job, cand) => s.raw == base && Candidate(env, job, base) == Some(cand)
    case Parsing(job, cand, _) => s.raw == base && Candidate(env, job, base) == Some(cand)
    case Installing(job, cand, _, _, _, _) => s.raw == base && Candidate(env, job, base) == Some(cand)
    case Swapping(job, cand, _, _, _) => s.raw == base && Candidate(env, job, base) == Some(cand)
    case Writing(job, cand, _, _) => s.raw == base && Candidate(env, job, base) == Some(cand)
    case Publishing(job, _, _, _) => Candidate(env, job, base) == Some(s.raw)
    case Reconciling(job, _, _, _) => Candidate(env, job, base) == Some(s.raw)
    case Spawning(job, _) => Candidate(env, job, base) == Some(s.raw)
    case Awaiting(job, _, _) => Candidate(env, job, base) == Some(s.raw)
    case Finishing(job, _) => Candidate(env, job, base) == Some(s.raw)
    case _ => s.raw == base
  }

  /** A step either leaves the log alone and stays serial over the same base,
      or appends one entry whose effect it is. */
  ghost predicate SerialStep(env: Env, base: Raw, s: State, s': State) {
    || (s'.log == s.log && Serial(env, base, s'))
    || (exists e :: s'.log == s.log + [e] && Serial(env, Effect(env, base, e), s'))
  }

  lemma {:induction false} OneEntry(env: Env, base: Raw, s: State, s': State, e: Entry)
    requires s'.log == s.log + [e] && Serial(env, Effect(env, base, e), s')
    ensures SerialStep(env, base, s, s')
  {
  }

  lemma {:induction false} BegunSerial(env: Env, base: Raw, s: State, job: Job, bound: Option<Doc>)
    requires Serial(env, base, s) && Begun(env, s, job, bound).Some?
    ensures SerialStep(env, base, s, Begun(env, s, job, bound).value)
  {
    var s' := Begun(env, s, job, bound).value;
    if s'.log != s.log { OneEntry(env, base, s, s', s'.log[|s.log|]); }
  }

  lemma {:induction false} BuildSerial(env: Env, base: Raw, s: State, a: Action)
    requires Serial(env, base, s) && Step(env, s, a).Some? && Builds(a)
    ensures SerialStep(env, base, s, Step(env, s, a).value)
  {
    var s' := Step(env, s, a).value;
    if s'.log != s.log { OneEntry(env, base, s, s', s'.log[|s.log|]); }
  }

  lemma {:induction false} PublishSerial(env: Env, base: Raw, s: State, a: Action)
    requires Serial(env, base, s) && Step(env, s, a).Some? && Publishes(a)
    ensures SerialStep(env, base, s, Step(env, s, a).value)
  {
    var s' := Step(env, s, a).value;
    if s'.log != s.log { OneEntry(env, base, s, s', s'.log[|s.log|]); }
  }

  lemma {:induction false} SpawnSerial(env: Env, base: Raw, s: State, a: Action)
    requires Serial(env, base, s) && Step(env, s, a).Some? && Spawns(a)
    ensures SerialStep(env, base, s, Step(env, s, a).value)
  {
    var s' := Step(env, s, a).value;
    if s'.log != s.log { OneEntry(env, base, s, s', s'.log[|s.log|]); }
  }

  lemma {:induction false} FinishSerial(env: Env, base: Raw, s: State, a: Action)
    requires Serial(env, base, s) && Step(env, s, a).Some? && (a.Finish? || a.Cancel?)
    ensures SerialStep(env, base, s, Step(env, s, a).value)
  {
    var s' := Step(env, s, a).value;
    OneEntry(env, base, s, s', s'.log[|s.log|]);
  }

  lemma {:induction false} StartupSerial(env: Env, base: Raw, s: State, a: Action)
    requires Serial(env, base, s) && Step(env, s, a).Some? && (a.BootPublish? || a.BootRollsBack?)
    ensures SerialStep(env, base, s, Step(env, s, a).value)
  {
    var s' := Step(env, s, a).value;
    if s'.log != s.log { OneEntry(env, base, s, s', s'.log[|s.log|]); }
  }

  lemma {:induction false} StepSerial(env: Env, base: Raw, s: State, a: Action)
    requires Serial(env, base, s) && Step(env, s, a).Some?
    ensures SerialStep(env, base, s, Step(env, s, a).value)
  {
    if a.Begin? { BegunSerial(env, base, s, a.job, a.bound); }
    else if Builds(a) { BuildSerial(env, base, s, a); }
    else if Publishes(a) { PublishSerial(env, base, s, a); }
    else if Spawns(a) { SpawnSerial(env, base, s, a); }
    else if a.Finish? || a.Cancel? { FinishSerial(env, base, s, a); }
    else if Closes(a) { StartupSerial(env, base, s, a); }
    else { QuietFrame(env, s, a); }
  }

  lemma {:induction false} RunSerial(env: Env, raw: Raw, s: State, actions: seq<Action>)
    requires Serial(env, Replay(env, raw, s.log), s) && Run(env, s, actions).Some?
    ensures var s' := Run(env, s, actions).value; Serial(env, Replay(env, raw, s'.log), s')
    decreases |actions|
  {
    if actions == [] {
    } else {
      var s' := Step(env, s, actions[0]).value;
      StepSerial(env, Replay(env, raw, s.log), s, actions[0]);
      if s'.log != s.log {
        var e :| s'.log == s.log + [e] && Serial(env, Effect(env, Replay(env, raw, s.log), e), s');
        ReplayAppend(env, raw, s.log, e);
      }
      RunSerial(env, raw, s', actions[1..]);
    }
  }

  /** Whenever the lane is free, the committed document is what the finished
      mutations give when run one at a time: no commit, stamp or rollback is
      lost, whatever was interleaved, cut or forced. */
  lemma {:induction false} Serialisability(env: Env, boot: State, actions: seq<Action>)
    requires Boot(env, boot) && Run(env, boot, actions).Some?
    ensures var s := Run(env, boot, actions).value; s.lane == Free ==> s.raw == Replay(env, boot.raw, s.log)
  {
    RunSerial(env, boot.raw, boot, actions);
  }

  // ---- the order is the order of entering the lane ----

  function Holder(lane: Lane): seq<Job> {
    match lane
    case Free => []
    case RollingBack => [BootPublication]
    case Building(job, _) => [job]
    case Parsing(job, _, _) => [job]
    case Installing(job, _, _, _, _, _) => [job]
    case Swapping(job, _, _, _, _) => [job]
    case Writing(job, _, _, _) => [job]
    case Publishing(job, _, _, _) => [job]
    case Reconciling(job, _, _, _) => [job]
    case Spawning(job, _) => [job]
    case Awaiting(job, _, _) => [job]
    case Finishing(job, _) => [job]
  }

  /** The mutation that enters the lane by `a`; the startup task enters to
      store its listener, or to roll back after a failure. */
  function EnteredBy(s: State, a: Action): seq<Job> {
    if a.Begin? then [a.job]
    else if a.BootPublish? then [BootPublication]
    else if a.BootRollsBack? && s.lane == Free then [BootRollback]
    else []
  }

  /** The mutations in the order they entered the lane. */
  function Entered(env: Env, s: State, actions: seq<Action>): seq<Job>
    decreases |actions|
  {
    if actions == [] then []
    else match Step(env, s, actions[0])
      case Some(s') => EnteredBy(s, actions[0]) + Entered(env, s', actions[1..])
      case None => []
  }

  function Logged(log: seq<Entry>): seq<Job> {
    if log == [] then [] else Logged(log[..|log| - 1]) + [log[|log| - 1].job]
  }

  function Seen(s: State): seq<Job> { Logged(s.log) + Holder(s.lane) }

  lemma {:induction false} LoggedAppend(log: seq<Entry>, e: Entry)
    ensures Logged(log + [e]) == Logged(log) + [e.job]
  {
    assert (log + [e])[..|log|] == log;
  }

  /** Seen so far, given that `s.log` grew by at most one entry. */
  lemma {:induction false} SeenMoves(s: State, s': State, entered: seq<Job>)
    requires s'.log == s.log || (|s'.log| == |s.log| + 1 && s'.log[..|s.log|] == s.log)
    requires s'.log == s.log ==> Holder(s'.lane) == Holder(s.lane) + entered
    requires s'.log != s.log ==> Holder(s'.lane) == [] && Holder(s.lane) + entered == [s'.log[|s.log|].job]
    ensures Seen(s') == Seen(s) + entered
  {
    if s'.log != s.log {
      assert s'.log == s.log + [s'.log[|s.log|]];
      LoggedAppend(s.log, s'.log[|s.log|]);
    }
    Regroup(Logged(s.log), Holder(s.lane), entered);
  }

  lemma {:induction false} BegunSeen(env: Env, s: State, job: Job, bound: Option<Doc>)
    requires Begun(env, s, job, bound).Some?
    ensures Seen(Begun(env, s, job, bound).value) == Seen(s) + [job]
  {
    SeenMoves(s, Begun(env, s, job, bound).value, [job]);
  }

  lemma {:induction false} BuildSeen(env: Env, s: State, a: Action)
    requires Step(env, s, a).Some? && Builds(a)
    ensures Seen(Step(env, s, a).value) == Seen(s)
  {
    SeenMoves(s, Step(env, s, a).value, []);
  }

  lemma {:induction false} PublishSeen(env: Env, s: State, a: Action)
    requires Step(env, s, a).Some? && Publishes(a)
    ensures Seen(Step(env, s, a).value) == Seen(s)
  {
    SeenMoves(s, Step(env, s, a).value, []);
  }

  lemma {:induction false} SpawnSeen(env: Env, s: State, a: Action)
    requires Step(env, s, a).Some? && Spawns(a)
    ensures Seen(Step(env, s, a).value) == Seen(s)
  {
    SeenMoves(s, Step(env, s, a).value, []);
  }

  lemma {:induction false} CloseSeen(env: Env, s: State, a: Action)
    requires Step(env, s, a).Some? && Closes(a)
    ensures Seen(Step(env, s, a).value) == Seen(s) + EnteredBy(s, a)
  {
    SeenMoves(s, Step(env, s, a).value, EnteredBy(s, a));
  }

  lemma {:induction false} StepSeen(env: Env, s: State, a: Action)
    requires Step(env, s, a).Some?
    ensures Seen(Step(env, s, a).value) == Seen(s) + EnteredBy(s, a)
  {
    if a.Begin? { BegunSeen(env, s, a.job, a.bound); }
    else if Builds(a) { BuildSeen(env, s, a); }
    else if Publishes(a) { PublishSeen(env, s, a); }
    else if Spawns(a) { SpawnSeen(env, s, a); }
    else if Closes(a) { CloseSeen(env, s, a); }
    else { QuietFrame(env, s, a); }
  }

  /** The log, and then the lane holder, list the mutations and the startup
      task's own in the order they entered the lane, each once. */
  lemma {:induction false} LogFollowsLane(env: Env, s: State, actions: seq<Action>)
    requires Run(env, s, actions).Some?
    ensures Seen(Run(env, s, actions).value) == Seen(s) + Entered(env, s, actions)
    decreases |actions|
  {
    if actions == [] {
    } else {
      var s' := Step(env, s, actions[0]).value;
      StepSeen(env, s, actions[0]);
      LogFollowsLane(env, s', actions[1..]);
      Regroup(Seen(s), EnteredBy(s, actions[0]), Entered(env, s', actions[1..]));
    }
  }

  // ---- where subscription content comes from ----

  predicate SourceOk(sub: Sub) { sub.applied.Some? ==> sub.applied.value.url == sub.url }

  /** No entry carries content fetched from another url. */
  predicate SourcesOk(subs: seq<Sub>) { forall i :: 0 <= i < |subs| ==> SourceOk(subs[i]) }

  lemma {:induction false} OthersOk(subs: seq<Sub>, name: Doc)
    ensures SourcesOk(subs) ==> SourcesOk(Others(subs, name))
    ensures forall i :: 0 <= i < |Others(subs, name)| ==>
              Others(subs, name)[i] in subs && Others(subs, name)[i].name != name
  {
    var p := (sub: Sub) => sub.name != name;
    FilterElements(subs, p);
    assert forall i :: 0 <= i < |Others(subs, name)| ==> Others(subs, name)[i] in Filter(subs, p);
  }

  lemma {:induction false} CandidateSources(env: Env, job: Job, raw: Raw)
    requires SourcesOk(raw.subs) && Candidate(env, job, raw).Some?
    ensures SourcesOk(Candidate(env, job, raw).value.subs)
  {
    if job.Delete? { OthersOk(raw.subs, job.name); }
  }

  lemma {:induction false} EffectSources(env: Env, raw: Raw, e: Entry)
    requires SourcesOk(raw.subs)
    ensures SourcesOk(Effect(env, raw, e).subs)
  {
    if Candidate(env, e.job, raw).Some? { CandidateSources(env, e.job, raw); }
  }

  lemma {:induction false} ReplaySources(env: Env, raw: Raw, log: seq<Entry>)
    requires SourcesOk(raw.subs)
    ensures SourcesOk(Replay(env, raw, log).subs)
    decreases |log|
  {
    if log == [] {
    } else {
      ReplaySources(env, raw, log[..|log| - 1]);
      EffectSources(env, Replay(env, raw, log[..|log| - 1]), log[|log| - 1]);
    }
  }

  /** At every point of every run, a re-pointed subscription never carries the
      old source's content. */
  lemma {:induction false} ContentMatchesUrl(env: Env, boot: State, actions: seq<Action>)
    requires Boot(env, boot) && Run(env, boot, actions).Some?
    ensures SourcesOk(Run(env, boot, actions).value.raw.subs)
  {
    var s := Run(env, boot, actions).value;
    var base := Replay(env, boot.raw, s.log);
    RunSerial(env, boot.raw, boot, actions);
    ReplaySources(env, boot.raw, s.log);
    if Holder(s.lane) != [] {
      var job := Holder(s.lane)[0];
      if Candidate(env, job, base) == Some(s.raw) { CandidateSources(env, job, base); }
    }
  }

  // ---- a removed subscription stays removed ----

  predicate Absent(subs: seq<Sub>, name: Doc) { forall i :: 0 <= i < |subs| ==> subs[i].name != name }

  /** Mutations that may bring an entry called `name` into being. */
  predicate Introduces(job: Job, name: Doc) { job.Put? || job.ForcedPut? || (job.Add? && job.name == name) }

  lemma {:induction false} CandidateAbsent(env: Env, job: Job, raw: Raw, name: Doc)
    requires Absent(raw.subs, name) && !Introduces(job, name) && Candidate(env, job, raw).Some?
    ensures Absent(Candidate(env, job, raw).value.subs, name)
  {
    if job.Delete? {
      OthersOk(raw.subs, job.name);
      forall i | 0 <= i < |Others(raw.subs, job.name)| ensures Others(raw.subs, job.name)[i].name != name { }
    }
  }

  /** The entries under other names, in order. */
  function Without(subs: seq<Sub>, name: Doc): (r: seq<Sub>)
    ensures forall i :: 0 <= i < |r| ==> r[i].name != name
  {
    if subs == [] then []
    else if subs[0].name == name then Without(subs[1..], name)
    else [subs[0]] + Without(subs[1..], name)
  }

  lemma {:induction false} OthersIsWithout(subs: seq<Sub>, name: Doc)
    ensures Others(subs, name) == Without(subs, name)
  {
    var p := (sub: Sub) => sub.name != name;
    if subs == [] {
    } else {
      FilterConcat([subs[0]], subs[1..], p);
      FilterAppend([], subs[0], p);
      assert [] + [subs[0]] == [subs[0]] && subs == [subs[0]] + subs[1..];
      OthersIsWithout(subs[1..], name);
    }
  }

  /** A delete leaves exactly the entries under other names, in their order. */
  lemma {:induction false} DeleteRemoves(env: Env, raw: Raw, name: Doc)
    requires Candidate(env, Delete(name), raw).Some?
    ensures Absent(Candidate(env, Delete(name), raw).value.subs, name)
    ensures Candidate(env, Delete(name), raw).value.subs == Without(raw.subs, name)
  {
    OthersIsWithout(raw.subs, name);
  }

  function Held(lane: Lane): Option<Raw> {
    match lane
    case Building(_, cand) => Some(cand)
    case Parsing(_, cand, _) => Some(cand)
    case Installing(_, cand, _, _, _, _) => Some(cand)
    case Swapping(_, cand, _, _, _) => Some(cand)
    case Writing(_, cand, _, _) => Some(cand)
    case _ => None
  }

  /** Neither the document nor the candidate in the lane knows `name`. */
  predicate Gone(s: State, name: Doc) {
    Absent(s.raw.subs, name) && (Held(s.lane).Some? ==> Absent(Held(s.lane).value.subs, name))
  }

  lemma {:induction false} BegunGone(env: Env, s: State, job: Job, bound: Option<Doc>, name: Doc)
    requires Gone(s, name) && Begun(env, s, job, bound).Some? && !Introduces(job, name)
    ensures Gone(Begun(env, s, job, bound).value, name)
  {
    if Candidate(env, job, s.raw).Some? { CandidateAbsent(env, job, s.raw, name); }
  }

  lemma {:induction false} BuildGone(env: Env, s: State, a: Action, name: Doc)
    requires Gone(s, name) && Step(env, s, a).Some? && (Builds(a) || Publishes(a))
    ensures Gone(Step(env, s, a).value, name)
  {
  }

  lemma {:induction false} CloseGone(env: Env, s: State, a: Action, name: Doc)
    requires Gone(s, name) && Step(env, s, a).Some? && (Spawns(a) || Closes(a))
    ensures Gone(Step(env, s, a).value, name)
  {
  }

  lemma {:induction false} StepGone(env: Env, s: State, a: Action, name: Doc)
    requires Gone(s, name) && Step(env, s, a).Some? && !a.Begin?
    ensures Gone(Step(env, s, a).value, name)
  {
    if Builds(a) || Publishes(a) { BuildGone(env, s, a, name); }
    else if Spawns(a) || Closes(a) { CloseGone(env, s, a, name); }
    else { QuietFrame(env, s, a); }
  }

  /** Fetches that were under way when a subscription was removed never bring
      it back: it is absent from every later document until a full rewrite or
      an add of that name enters the lane. */
  lemma {:induction false} NeverResurrected(env: Env, s: State, actions: seq<Action>, name: Doc)
    requires Gone(s, name) && Run(env, s, actions).Some?
    requires forall i :: 0 <= i < |actions| && actions[i].Begin? ==> !Introduces(actions[i].job, name)
    ensures Gone(Run(env, s, actions).value, name)
    decreases |actions|
  {
    if actions == [] {
    } else {
      var s' := Step(env, s, actions[0]).value;
      if actions[0].Begin? { BegunGone(env, s, actions[0].job, actions[0].bound, name); }
      else { StepGone(env, s, actions[0], name); }
      NeverResurrected(env, s', actions[1..], name);
    }
  }

  // ---- due times ----

  const MAX_DURATION_SECS: int := 10 * 365 * 24 * 60 * 60
  const I64_MAX: int := 0x7FFF_FFFF_FFFF_FFFF

  /** `i64::saturating_sub`. */
  function SaturatingSub(a: int, b: int): int {
    var d := a - b;
    if d > I64_MAX then I64_MAX else if d < -I64_MAX - 1 then -I64_MAX - 1 else d
  }

  /** The filter of the refresh loop. */
  predicate Due(sub: Sub, now: int) {
    match (sub.interval, sub.lastUpdated)
    case (_, None) => true
    case (Some(interval), Some(last)) =>
      SaturatingSub(now, last) >= (if interval < MAX_DURATION_SECS then interval else MAX_DURATION_SECS)
    case (None, Some(_)) => false
  }

  /** An entry that was never stamped is due, with or without an interval. A
      stamp is honoured however large the interval is: the entry stays off the
      list for the interval, capped at ten years, and comes back after; without
      one it never does. */
  lemma {:induction false} DueExact(sub: Sub, now: int)
    requires -I64_MAX <= now <= I64_MAX
    requires sub.lastUpdated.Some? ==> -I64_MAX <= sub.lastUpdated.value <= I64_MAX
    ensures Due(sub, now) <==>
              match sub.lastUpdated
              case None => true
              case Some(last) =>
                sub.interval.Some? && (now - last >= sub.interval.value || now - last >= MAX_DURATION_SECS)
  {
  }

  /** The failure stamps look the entry up by name alone. A subscription that
      was re-pointed while the fetch of its old url failed is stamped as if
      its own url had been tried, and without an interval it is never due
      again. */
  lemma {:induction false} StampHitsRepointed(name: Doc, url: Doc, now: int, later: int)
    ensures var repointed := Sub(name, url, None, None, None);
            var raw := Raw(None, 0, 0, 0, 0, [repointed]);
            Due(repointed, later) && !Due(Stamped(raw, name, now).subs[0], later)
  {
  }

  /** A stamp for a fetch from `url` leaves every entry with another url alone
      if and only if the url is still that of the entry found by name, or the
      entry already carries that very time. */
  lemma {:induction false} StampExact(raw: Raw, name: Doc, url: Doc, now: int)
    ensures (forall i :: 0 <= i < |raw.subs| && raw.subs[i].url != url ==>
               Stamped(raw, name, now).subs[i] == raw.subs[i])
       <==> match FindNamed(raw.subs, name)
            case None => true
            case Some(i) => raw.subs[i].url == url || raw.subs[i].lastUpdated == Some(now)
  {
    match FindNamed(raw.subs, name) {
      case None =>
      case Some(i) => assert Stamped(raw, name, now).subs[i] == raw.subs[i].(lastUpdated := Some(now));
    }
  }
}
