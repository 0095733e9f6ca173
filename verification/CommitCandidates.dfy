/** What each mutation does to the document, entry by entry and section by
    section, and over whole runs. */
module CommitCandidates {
  import opened CommitLog
  import opened CommitOutcomes
  import opened CommitRejections
  import opened CommitState
  import opened Sequences
  import opened Wrappers

  // ---- the change each mutation stands for ----

  predicate IsFirst(subs: seq<Sub>, name: Doc, i: nat) {
    i < |subs| && subs[i].name == name && forall j :: 0 <= j < i ==> subs[j].name != name
  }

  predicate IsFirstFrom(subs: seq<Sub>, name: Doc, url: Doc, i: nat) {
    && i < |subs| && subs[i].name == name && subs[i].url == url
    && forall j :: 0 <= j < i ==> !(subs[j].name == name && subs[j].url == url)
  }

  /** The sections no subscription contributes to. */
  predicate SameRest(a: Raw, b: Raw) { a.tun == b.tun && a.maxConnections == b.maxConnections && a.dns == b.dns }

  /** Nothing changed but the entry `i`, which now carries `content`. */
  predicate Refreshed(env: Env, raw: Raw, c: Raw, i: nat, url: Doc, content: Doc, now: int)
    requires i < |raw.subs|
  {
    && SameRest(raw, c) && |c.subs| == |raw.subs|
    && (c.proxies, c.other) == env.merge(raw.proxies, raw.other, raw.subs[i].applied, content)
    && forall j :: 0 <= j < |c.subs| ==>
         c.subs[j] == if j == i then Sub(raw.subs[i].name, raw.subs[i].url, raw.subs[i].interval, Some(now),
                                         Some(Payload(url, content)))
                      else raw.subs[j]
  }

  /** A rewritten entry is the new document's, with the contribution the live
      entry of the same name and url had, clamped to the new sections. */
  ghost predicate Inherited(env: Env, doc: Raw, live: seq<Sub>, sub: Sub, r: Sub) {
    && r.name == sub.name && r.url == sub.url && r.interval == sub.interval && r.lastUpdated == sub.lastUpdated
    && ((forall i :: 0 <= i < |live| ==> !(live[i].name == sub.name && live[i].url == sub.url)) ==> r.applied.None?)
    && (forall i: nat :: IsFirstFrom(live, sub.name, sub.url, i) ==>
          match live[i].applied
          case None => r.applied.None?
          case Some(p) => r.applied == Some(Payload(p.url, env.clamp(doc.proxies, doc.other, p.content))))
  }

  ghost predicate Rewritten(env: Env, doc: Raw, raw: Raw, c: Raw) {
    && SameRest(doc, c) && c.proxies == doc.proxies && c.other == doc.other && |c.subs| == |doc.subs|
    && forall j :: 0 <= j < |c.subs| ==> Inherited(env, doc, raw.subs, doc.subs[j], c.subs[j])
  }

  predicate NamesDiffer(subs: seq<Sub>) {
    forall i, j :: 0 <= i < |subs| && 0 <= j < |subs| && subs[i].name == subs[j].name ==> i == j
  }

  /** The mutation is not turned away at once. */
  ghost predicate Accepts(env: Env, job: Job, raw: Raw) {
    match job
    case Put(doc) => NamesDiffer(doc.subs)
    case ForcedPut(doc) => NamesDiffer(doc.subs)
    case Patch(Some(patch), _) =>
      env.parseTun(Some(env.mergeTun(patch, raw.tun)), raw.maxConnections, env.fakeIpRange(raw.dns)).Some?
    case Edit(edit) => env.edit(edit, raw.proxies, raw.other).Some?
    case Add(name, _, _, _, _) => forall i :: 0 <= i < |raw.subs| ==> raw.subs[i].name != name
    case Delete(name) => exists i: nat :: IsFirst(raw.subs, name, i)
    case Refresh(name, url, _, _) => exists i: nat :: IsFirst(raw.subs, name, i) && raw.subs[i].url == url
    case LoopRefresh(name, url, _, _) => exists i: nat :: IsFirstFrom(raw.subs, name, url, i)
    case _ => true
  }

  /** The document `c` is `raw` after the mutation. */
  ghost predicate Law(env: Env, job: Job, raw: Raw, c: Raw) {
    match job
    case Put(doc) => Rewritten(env, doc, raw, c)
    case ForcedPut(doc) => Rewritten(env, doc, raw, c)
    case Patch(patch, _) =>
      && (patch.None? ==> c.tun == raw.tun) && (patch.Some? ==> c.tun == Some(env.mergeTun(patch.value, raw.tun)))
      && c.maxConnections == raw.maxConnections && c.dns == raw.dns && c.proxies == raw.proxies && c.other == raw.other
      && c.subs == raw.subs
    case Edit(edit) =>
      SameRest(raw, c) && c.subs == raw.subs && env.edit(edit, raw.proxies, raw.other) == Some((c.proxies, c.other))
    case Add(name, url, interval, content, now) =>
      && SameRest(raw, c) && c.subs == raw.subs + [Sub(name, url, interval, Some(now), Some(Payload(url, content)))]
      && (c.proxies, c.other) == env.merge(raw.proxies, raw.other, None, content)
    case Delete(name) =>
      && SameRest(raw, c) && c.subs == Without(raw.subs, name)
      && forall i: nat :: IsFirst(raw.subs, name, i) ==>
           (c.proxies, c.other) == env.drop(raw.proxies, raw.other, raw.subs[i].applied)
    case Refresh(name, url, content, now) =>
      forall i: nat :: IsFirst(raw.subs, name, i) ==> Refreshed(env, raw, c, i, url, content, now)
    case LoopRefresh(name, url, content, now) =>
      forall i: nat :: IsFirstFrom(raw.subs, name, url, i) ==> Refreshed(env, raw, c, i, url, content, now)
    case Stamp(name, now) =>
      && SameRest(raw, c) && c.proxies == raw.proxies && c.other == raw.other && |c.subs| == |raw.subs|
      && forall i :: 0 <= i < |c.subs| ==>
           c.subs[i] == if IsFirst(raw.subs, name, i) then raw.subs[i].(lastUpdated := Some(now)) else raw.subs[i]
    case _ => c == raw
  }

  lemma {:induction false} RewriteLaw(env: Env, doc: Raw, raw: Raw)
    ensures Rewritten(env, doc, raw, doc.(subs := InheritAll(env, doc, raw.subs)))
  {
    forall j | 0 <= j < |doc.subs|
      ensures Inherited(env, doc, raw.subs, doc.subs[j], Inherit(env, doc, raw.subs, doc.subs[j]))
    {
      InheritLaw(env, doc, raw.subs, doc.subs[j]);
    }
  }

  lemma {:induction false} InheritLaw(env: Env, doc: Raw, live: seq<Sub>, sub: Sub)
    ensures Inherited(env, doc, live, sub, Inherit(env, doc, live, sub))
  {
    SourceFirst(live, sub.name, sub.url);
  }

  lemma {:induction false} NamedFirst(subs: seq<Sub>, name: Doc)
    ensures forall i: nat :: IsFirst(subs, name, i) <==> FindNamed(subs, name) == Some(i)
  {
  }

  lemma {:induction false} SourceFirst(subs: seq<Sub>, name: Doc, url: Doc)
    ensures forall i: nat :: IsFirstFrom(subs, name, url, i) <==> FindSource(subs, name, url) == Some(i)
  {
  }

  /** What the candidate of a mutation must be. */
  ghost predicate Lawful(env: Env, job: Job, raw: Raw) {
    && (Candidate(env, job, raw).Some? <==> Accepts(env, job, raw))
    && (forall c :: Candidate(env, job, raw) == Some(c) ==> Law(env, job, raw, c))
  }

  lemma {:induction false} DeleteLaw(env: Env, raw: Raw, name: Doc)
    ensures Lawful(env, Delete(name), raw)
  {
    OthersIsWithout(raw.subs, name);
    NamedFirst(raw.subs, name);
    assert Accepts(env, Delete(name), raw) <==> exists i: nat :: IsFirst(raw.subs, name, i);
  }

  lemma {:induction false} RefreshLaw(env: Env, raw: Raw, name: Doc, url: Doc, content: Doc, now: int)
    ensures Lawful(env, Refresh(name, url, content, now), raw)
  {
    NamedFirst(raw.subs, name);
  }

  lemma {:induction false} LoopRefreshLaw(env: Env, raw: Raw, name: Doc, url: Doc, content: Doc, now: int)
    ensures Lawful(env, LoopRefresh(name, url, content, now), raw)
  {
    SourceFirst(raw.subs, name, url);
  }

  lemma {:induction false} AddLaw(env: Env, job: Job, raw: Raw)
    requires job.Add?
    ensures Lawful(env, job, raw)
  {
  }

  lemma {:induction false} StampLaw(raw: Raw, name: Doc, now: int, i: nat)
    requires i < |raw.subs|
    ensures |Stamped(raw, name, now).subs| == |raw.subs|
    ensures Stamped(raw, name, now).subs[i]
         == if IsFirst(raw.subs, name, i) then raw.subs[i].(lastUpdated := Some(now)) else raw.subs[i]
  {
  }

  /** A mutation is turned away at once exactly if it has to be, and otherwise
      its candidate is the live document with exactly its own change. */
  lemma {:induction false} CandidateLaw(env: Env, job: Job, raw: Raw)
    ensures Lawful(env, job, raw)
  {
    match job {
      case Put(doc) => RewriteLaw(env, doc, raw);
      case ForcedPut(doc) => RewriteLaw(env, doc, raw);
      case Add(_, _, _, _, _) => AddLaw(env, job, raw);
      case Delete(name) => DeleteLaw(env, raw, name);
      case Refresh(name, url, content, now) => RefreshLaw(env, raw, name, url, content, now);
      case LoopRefresh(name, url, content, now) => LoopRefreshLaw(env, raw, name, url, content, now);
      case Stamp(name, now) => forall i | 0 <= i < |raw.subs| { StampLaw(raw, name, now, i); }
      case _ =>
    }
  }

  // ---- over whole runs ----

  /** The document `r` that `outcome` of the mutation leaves of `raw`, given
      that its candidate is `cand`. */
  predicate Leaves(env: Env, job: Job, raw: Raw, cand: Raw, outcome: Outcome, r: Raw) {
    match outcome
    case Committed =>
      if job.Patch? then r == cand.(other := env.general(job.general, cand.other)) else r == cand
    case RolledBack => Enabled(cand) && r == cand.(tun := Some(Tun(false, cand.tun.value.settings)))
    case Partial => r == cand
    case Cut(written) => r == if written then cand else raw
    case Rejected => r == if job.LoopRefresh? then Stamped(raw, job.name, job.now) else raw
  }

  /** A step from a tracked state that frees the lane. */
  ghost predicate LeavesBy(env: Env, s: State, job: Job, cand: Raw, r: Option<State>) {
    forall u :: r == Some(u) && u.lane == Free ==> LeftWith(env, s, job, cand, u)
  }

  ghost predicate LeftWith(env: Env, s: State, job: Job, cand: Raw, u: State) {
    && |u.log| == |s.log| + 1 && u.log[..|s.log|] == s.log && u.log[|s.log|].job == job
    && Leaves(env, job, s.raw, cand, u.log[|s.log|].outcome, u.raw)
  }

  lemma {:induction false} RebuiltLeaves(env: Env, s: State, job: Job, cand: Raw, u: State, ok: bool)
    requires Track(env, s, job, cand, u)
    ensures LeavesBy(env, s, job, cand, AfterRebuild(env, u, ok))
  {
  }

  lemma {:induction false} ParsedLeaves(env: Env, s: State, job: Job, cand: Raw, u: State, ok: bool, stripped: bool)
    requires Track(env, s, job, cand, u) && (job.GeoTick? ==> cand == s.raw)
    ensures LeavesBy(env, s, job, cand, AfterParse(env, u, ok, stripped))
  {
  }

  lemma {:induction false} PublishLeaves(env: Env, s: State, job: Job, cand: Raw, u: State, a: Action)
    requires Track(env, s, job, cand, u) && Publishes(a)
    ensures LeavesBy(env, s, job, cand, Step(env, u, a))
  {
  }

  lemma {:induction false} ReconcileLeaves(env: Env, s: State, job: Job, cand: Raw, u: State)
    requires Track(env, s, job, cand, u)
    ensures LeavesBy(env, s, job, cand, Reconciled(env, u))
  {
  }

  lemma {:induction false} SpawnLeaves(env: Env, s: State, job: Job, cand: Raw, u: State)
    requires Track(env, s, job, cand, u)
    ensures LeavesBy(env, s, job, cand, Spawned(env, u))
  {
  }

  lemma {:induction false} AwaitLeaves(env: Env, s: State, job: Job, cand: Raw, u: State)
    requires Track(env, s, job, cand, u)
    ensures LeavesBy(env, s, job, cand, ReadySeen(u)) && LeavesBy(env, s, job, cand, SpawnGivesUp(u))
  {
  }

  lemma {:induction false} CancelLeaves(env: Env, s: State, job: Job, cand: Raw, u: State)
    requires Track(env, s, job, cand, u)
    ensures LeavesBy(env, s, job, cand, Cancelled(u))
  {
  }

  lemma {:induction false} CloseLeaves(env: Env, s: State, job: Job, cand: Raw, u: State, a: Action)
    requires Track(env, s, job, cand, u) && (a.Begin? || Closes(a))
    ensures LeavesBy(env, s, job, cand, Step(env, u, a))
  {
    if a.Cancel? { CancelLeaves(env, s, job, cand, u); }
  }

  lemma {:induction false} StepLeaves(env: Env, s: State, job: Job, cand: Raw, u: State, a: Action)
    requires Track(env, s, job, cand, u) && (job.GeoTick? ==> cand == s.raw)
    ensures LeavesBy(env, s, job, cand, Step(env, u, a))
  {
    if a.Rebuilt? { RebuiltLeaves(env, s, job, cand, u, a.ok); }
    else if a.Parsed? { ParsedLeaves(env, s, job, cand, u, a.ok, a.stripped); }
    else if Publishes(a) { PublishLeaves(env, s, job, cand, u, a); }
    else if Quiet(a) { if Step(env, u, a).Some? { QuietFrame(env, u, a); } }
    else if a.Reconcile? { ReconcileLeaves(env, s, job, cand, u); }
    else if a.Spawn? { SpawnLeaves(env, s, job, cand, u); }
    else if Spawns(a) { AwaitLeaves(env, s, job, cand, u); }
    else { CloseLeaves(env, s, job, cand, u, a); }
  }

  lemma {:induction false} HeldLeaves(
      env: Env, s: State, job: Job, cand: Raw, u: State, actions: seq<Action>, after: State)
    requires Track(env, s, job, cand, u) && (job.GeoTick? ==> cand == s.raw)
    requires HeldUntil(env, u, actions, after) && after.lane == Free
    ensures LeftWith(env, s, job, cand, after)
    decreases |actions|
  {
    var u' := Step(env, u, actions[0]).value;
    assert Step(env, u, actions[0]) == Some(u');
    if |actions| == 1 {
      StepLeaves(env, s, job, cand, u, actions[0]);
    } else {
      StepTracks(env, s, job, cand, u, actions[0]);
      HeldLeaves(env, s, job, cand, u', actions[1..], after);
    }
  }

  /** The document after a mutation that was accepted, in terms of its law. */
  ghost predicate Lawfully(env: Env, job: Job, raw: Raw, outcome: Outcome, r: Raw) {
    match outcome
    case Committed =>
      if job.Patch? then Law(env, job, raw, r.(other := raw.other)) && r.other == env.general(job.general, raw.other)
      else Law(env, job, raw, r)
    case RolledBack =>
      r.tun.Some? && !r.tun.value.enable && Law(env, job, raw, r.(tun := Some(Tun(true, r.tun.value.settings))))
    case Partial => Law(env, job, raw, r)
    case Cut(written) => if written then Law(env, job, raw, r) else r == raw
    case Rejected => if job.LoopRefresh? then Law(env, Stamp(job.name, job.now), raw, r) else r == raw
  }

  lemma {:induction false} LeavesLawfully(env: Env, job: Job, raw: Raw, cand: Raw, outcome: Outcome, r: Raw)
    requires Candidate(env, job, raw) == Some(cand) && Leaves(env, job, raw, cand, outcome, r)
    ensures Lawfully(env, job, raw, outcome, r)
  {
    CandidateLaw(env, job, raw);
    match outcome {
      case RolledBack => assert r.(tun := Some(Tun(true, r.tun.value.settings))) == cand;
      case Committed => if job.Patch? { assert r.(other := raw.other) == cand; }
      case Rejected => if job.LoopRefresh? { CandidateLaw(env, Stamp(job.name, job.now), raw); }
      case _ =>
    }
  }

  lemma {:induction false} BegunLeaves(env: Env, s: State, job: Job, bound: Option<Doc>)
    requires Begun(env, s, job, bound).Some? && Begun(env, s, job, bound).value.lane == Free
    ensures var u := Begun(env, s, job, bound).value;
            && u.log == s.log + [Entry(job, if job.Stamp? then Committed else Rejected)]
            && match Candidate(env, job, s.raw)
               case Some(c) => job.Stamp? && u.raw == c
               case None => !job.Stamp? && u.raw == s.raw
  {
  }

  /** Every mutation, from any free lane, whatever others do meanwhile and
      however it ends. It logs one entry. If it had to be turned away at once,
      it was, and the document is untouched. Otherwise the document follows the
      law of the mutation: in full when it completed or was dropped after the
      write, but for the switch when its listener failed, not at all when it was
      rejected or dropped before; a rejected background refresh leaves a stamp.
      A completed patch has its general settings applied, too. */
  lemma {:induction false} DocumentFollowsLaw(
      env: Env, s: State, job: Job, bound: Option<Doc>, actions: seq<Action>, after: State)
    requires s.lane == Free && HeldUntil(env, s, [Begin(job, bound)] + actions, after) && after.lane == Free
    ensures |after.log| == |s.log| + 1 && after.log[..|s.log|] == s.log && after.log[|s.log|].job == job
    ensures if Accepts(env, job, s.raw) then Lawfully(env, job, s.raw, after.log[|s.log|].outcome, after.raw)
            else after.log[|s.log|].outcome.Rejected? && after.raw == s.raw
  {
    assert ([Begin(job, bound)] + actions)[1..] == actions;
    CandidateLaw(env, job, s.raw);
    if actions == [] {
      BegunLeaves(env, s, job, bound);
    } else {
      BegunTracks(env, s, job, bound);
      var cand := Candidate(env, job, s.raw).value;
      HeldLeaves(env, s, job, cand, Begun(env, s, job, bound).value, actions, after);
      LeavesLawfully(env, job, s.raw, cand, after.log[|s.log|].outcome, after.raw);
    }
  }
}
