/** `commit_proxy_providers`: the candidate's providers become the live
    registry. */
module ProviderCommit {
  import opened Wrappers

  type Name = nat

  /** A provider object, by identity. */
  type Provider = nat

  /** `name` already maps to the candidate's own object. */
  predicate Reused(live: map<Name, Provider>, candidate: map<Name, Provider>, name: Name)
    requires name in candidate
  {
    name in live && live[name] == candidate[name]
  }

  /** One object per name. */
  predicate Injective(m: map<Name, Provider>) { forall a, b :: a in m && b in m && m[a] == m[b] ==> a == b }

  /** What the commit owes `name`: one initial fetch if its object is new,
      one refresh if its reused object had the first fetch deferred. */
  function Fetches(live: map<Name, Provider>, candidate: map<Name, Provider>, name: Name): nat {
    if name in candidate && !Reused(live, candidate, name) then 1 else 0
  }

  function Refreshes(
      live: map<Name, Provider>, candidate: map<Name, Provider>, deferred: set<Provider>, name: Name): nat {
    if name in candidate && Reused(live, candidate, name) && candidate[name] in deferred then 1 else 0
  }

  /** Objects whose deferred flag the commit clears. */
  predicate Cleared(live: map<Name, Provider>, candidate: map<Name, Provider>, p: Provider) {
    exists n :: n in candidate && Reused(live, candidate, n) && candidate[n] == p
  }

  /** What the registry holds: the live map, the objects whose first fetch
      could not resolve its proxy, the strict flags, and the initial fetches
      and refreshes started, by name. */
  datatype Contents = Contents(
    live: map<Name, Provider>, deferred: set<Provider>, strict: map<Provider, bool>,
    fetches: multiset<Name>, refreshes: multiset<Name>)

  /** `set_strict`, `insert`, then a fetch or the deferred refresh. */
  function Inserted(c: Contents, name: Name, p: Provider, strict: bool): Contents {
    var reused := name in c.live && c.live[name] == p;
    Contents(c.live[name := p], if reused then c.deferred - {p} else c.deferred, c.strict[p := strict],
             if reused then c.fetches else c.fetches + multiset{name},
             if reused && p in c.deferred then c.refreshes + multiset{name} else c.refreshes)
  }

  // ---- where the loop stands when `todo` is left, started from `c0` ----

  ghost predicate LiveSoFar(c0: Contents, cand: map<Name, Provider>, todo: set<Name>, c: Contents) {
    && todo <= cand.Keys
    && (forall n :: n in c.live <==> n in c0.live || n in cand.Keys - todo)
    && (forall n :: n in c.live ==> c.live[n] == if n in cand.Keys - todo then cand[n] else c0.live[n])
  }

  ghost predicate StartedSoFar(c0: Contents, cand: map<Name, Provider>, todo: set<Name>, c: Contents) {
    && (forall n :: c.fetches[n] == c0.fetches[n] + if n in todo then 0 else Fetches(c0.live, cand, n))
    && (forall n :: c.refreshes[n]
          == c0.refreshes[n] + if n in todo then 0 else Refreshes(c0.live, cand, c0.deferred, n))
  }

  ghost predicate DeferredSoFar(c0: Contents, cand: map<Name, Provider>, todo: set<Name>, c: Contents) {
    && todo <= cand.Keys && c.deferred <= c0.deferred
    && (forall n :: n in cand.Keys - todo && Reused(c0.live, cand, n) ==> cand[n] !in c.deferred)
    && (forall p :: p in c0.deferred && !Cleared(c0.live, cand, p) ==> p in c.deferred)
    && (forall n :: n in todo && cand[n] in c0.deferred ==> cand[n] in c.deferred)
  }

  ghost predicate StrictSoFar(c0: Contents, cand: map<Name, Provider>, flag: bool, todo: set<Name>, c: Contents) {
    && (forall n :: n in cand.Keys - todo ==> cand[n] in c.strict && c.strict[cand[n]] == flag)
    && StrictElsewhere(c0, cand, c)
  }

  /** Objects outside the candidate keep their flag. */
  ghost predicate StrictElsewhere(c0: Contents, cand: map<Name, Provider>, c: Contents) {
    && (forall p :: p !in cand.Values ==> (p in c.strict <==> p in c0.strict))
    && (forall p :: p !in cand.Values && p in c.strict && p in c0.strict ==> c.strict[p] == c0.strict[p])
    && (forall p :: p in c0.strict ==> p in c.strict)
    && (forall p :: p in c.strict ==> p in c0.strict || p in cand.Values)
  }

  ghost predicate SoFar(c0: Contents, cand: map<Name, Provider>, flag: bool, todo: set<Name>, c: Contents) {
    && LiveSoFar(c0, cand, todo, c) && StartedSoFar(c0, cand, todo, c)
    && DeferredSoFar(c0, cand, todo, c) && StrictSoFar(c0, cand, flag, todo, c)
  }

  lemma {:induction false} StartedStep(
      c0: Contents, cand: map<Name, Provider>, flag: bool, todo: set<Name>, c: Contents, name: Name)
    requires LiveSoFar(c0, cand, todo, c) && StartedSoFar(c0, cand, todo, c) && DeferredSoFar(c0, cand, todo, c)
        && name in todo
    ensures StartedSoFar(c0, cand, todo - {name}, Inserted(c, name, cand[name], flag))
  {
    assert name in c.live ==> c.live[name] == c0.live[name];
  }

  lemma {:induction false} DeferredStep(
      c0: Contents, cand: map<Name, Provider>, flag: bool, todo: set<Name>, c: Contents, name: Name)
    requires Injective(cand) && LiveSoFar(c0, cand, todo, c) && DeferredSoFar(c0, cand, todo, c) && name in todo
    ensures DeferredSoFar(c0, cand, todo - {name}, Inserted(c, name, cand[name], flag))
  {
    assert name in c.live ==> c.live[name] == c0.live[name];
  }

  lemma {:induction false} LiveStep(
      c0: Contents, cand: map<Name, Provider>, flag: bool, todo: set<Name>, c: Contents, name: Name)
    requires LiveSoFar(c0, cand, todo, c) && name in todo
    ensures LiveSoFar(c0, cand, todo - {name}, Inserted(c, name, cand[name], flag))
  {
  }

  lemma {:induction false} StrictStep(
      c0: Contents, cand: map<Name, Provider>, flag: bool, todo: set<Name>, c: Contents, name: Name)
    requires StrictSoFar(c0, cand, flag, todo, c) && name in todo && name in cand
    ensures StrictSoFar(c0, cand, flag, todo - {name}, Inserted(c, name, cand[name], flag))
  {
    assert cand[name] in cand.Values;
  }

  lemma {:induction false} LoopStep(
      c0: Contents, cand: map<Name, Provider>, flag: bool, todo: set<Name>, c: Contents, name: Name)
    requires Injective(cand) && SoFar(c0, cand, flag, todo, c) && name in todo
    ensures SoFar(c0, cand, flag, todo - {name}, Inserted(c, name, cand[name], flag))
  {
    LiveStep(c0, cand, flag, todo, c, name);
    StartedStep(c0, cand, flag, todo, c, name);
    DeferredStep(c0, cand, flag, todo, c, name);
    StrictStep(c0, cand, flag, todo, c, name);
  }

  /** The whole outcome, in terms of the state before. */
  ghost predicate Committed(c0: Contents, cand: map<Name, Provider>, flag: bool, c: Contents) {
    && c.live == cand
    && (forall n :: c.fetches[n] == c0.fetches[n] + Fetches(c0.live, cand, n))
    && (forall n :: c.refreshes[n] == c0.refreshes[n] + Refreshes(c0.live, cand, c0.deferred, n))
    && (forall p :: p in c.deferred <==> p in c0.deferred && !Cleared(c0.live, cand, p))
    && (forall n :: n in cand ==> cand[n] in c.strict && c.strict[cand[n]] == flag)
    && StrictElsewhere(c0, cand, c)
  }

  /** `retain`. */
  function Retained(c: Contents, cand: map<Name, Provider>): Contents {
    c.(live := map n | n in c.live && n in cand :: c.live[n])
  }

  lemma {:induction false} LoopEnds(c0: Contents, cand: map<Name, Provider>, flag: bool, c: Contents)
    requires SoFar(c0, cand, flag, {}, c)
    ensures Committed(c0, cand, flag, Retained(c, cand))
  {
  }

  /** The outcome fixes what is live, fetched, refreshed and still deferred,
      so no iteration order can show. */
  lemma {:induction false} OrderIrrelevant(
      c0: Contents, cand: map<Name, Provider>, flag: bool, c: Contents, c': Contents)
    requires Committed(c0, cand, flag, c) && Committed(c0, cand, flag, c')
    ensures c == c'
  {
    assert c.strict.Keys == c'.strict.Keys && forall p :: p in c.strict ==> c.strict[p] == c'.strict[p] by {
      forall p | p in cand.Values ensures p in c.strict && p in c'.strict && c.strict[p] == c'.strict[p] {
        var n :| n in cand && cand[n] == p;
      }
    }
    assert forall n :: c.fetches[n] == c'.fetches[n] && c.refreshes[n] == c'.refreshes[n];
  }

  lemma {:induction false} LoopStarts(c0: Contents, cand: map<Name, Provider>, flag: bool)
    ensures SoFar(c0, cand, flag, cand.Keys, c0)
  {
  }

  /** Names old and new share are never missing. */
  ghost predicate SharedKept(c0: Contents, cand: map<Name, Provider>, seen: seq<set<Name>>) {
    forall k :: 0 <= k < |seen| ==> c0.live.Keys * cand.Keys <= seen[k]
  }

  lemma {:induction false} SharedStep(
      c0: Contents, cand: map<Name, Provider>, todo: set<Name>, c: Contents, seen: seq<set<Name>>)
    requires LiveSoFar(c0, cand, todo, c) && SharedKept(c0, cand, seen)
    ensures SharedKept(c0, cand, seen + [c.live.Keys]) && SharedKept(c0, cand, seen + [Retained(c, cand).live.Keys])
  {
  }

  class Registry {
    var live: map<Name, Provider>
    var deferred: set<Provider>
    var strict: map<Provider, bool>
    var fetches: multiset<Name>
    var refreshes: multiset<Name>

    ghost function View(): Contents
      reads this
    {
      Contents(live, deferred, strict, fetches, refreshes)
    }

    constructor ()
      ensures View() == Contents(map[], {}, map[], multiset{}, multiset{})
    {
      live, deferred, strict, fetches, refreshes := map[], {}, map[], multiset{}, multiset{};
    }

    method Insert(name: Name, provider: Provider, strictFlag: bool)
      modifies this
      ensures View() == Inserted(old(View()), name, provider, strictFlag)
    {
      strict := strict[provider := strictFlag];
      var reused := name in live && live[name] == provider;
      live := live[name := provider];
      if !reused {
        fetches := fetches + multiset{name};
      } else if provider in deferred {
        deferred := deferred - {provider};
        refreshes := refreshes + multiset{name};
      }
    }

    /** The loop takes the candidates in any order; the outcome does not depend
        on it. `seen` lists the names the registry held after every single
        update. */
    method Commit(candidate: map<Name, Provider>, strictFlag: bool) returns (ghost seen: seq<set<Name>>)
      requires Injective(candidate)
      modifies this
      ensures Committed(old(View()), candidate, strictFlag, View())
      ensures SharedKept(old(View()), candidate, seen)
    {
      seen := [];
      ghost var c0 := View();
      var todo := candidate.Keys;
      LoopStarts(c0, candidate, strictFlag);
      while todo != {}
        invariant SoFar(c0, candidate, strictFlag, todo, View()) && SharedKept(c0, candidate, seen)
        decreases |todo|
      {
        var name :| name in todo;
        seen := Turn(name, candidate, strictFlag, c0, todo, seen);
        todo := todo - {name};
      }
      LoopEnds(c0, candidate, strictFlag, View());
      SharedStep(c0, candidate, todo, View(), seen);
      live := map n | n in live && n in candidate :: live[n];
      seen := seen + [live.Keys];
    }

    method Turn(name: Name, candidate: map<Name, Provider>, strictFlag: bool, ghost c0: Contents,
        ghost todo: set<Name>, ghost seen: seq<set<Name>>)
      returns (ghost seen': seq<set<Name>>)
      requires Injective(candidate) && name in todo && name in candidate
      requires SoFar(c0, candidate, strictFlag, todo, View()) && SharedKept(c0, candidate, seen)
      modifies this
      ensures SoFar(c0, candidate, strictFlag, todo - {name}, View()) && SharedKept(c0, candidate, seen')
    {
      LoopStep(c0, candidate, strictFlag, todo, View(), name);
      Insert(name, candidate[name], strictFlag);
      SharedStep(c0, candidate, todo - {name}, View(), seen);
      seen' := seen + [live.Keys];
    }
  }
}
