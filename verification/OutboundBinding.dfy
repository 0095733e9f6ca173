/** Owners of the outbound-interface binding, and the mutation that installs
    one before its first dial. */
module OutboundBinding {
  import opened Sequences
  import opened Wrappers

  type Iface = nat

  datatype Owner = Owner(id: nat, iface: Iface, committed: bool)

  // ---- the registry as values ----

  /** The newest live owner decides. */
  function Effective(owners: seq<Owner>): Option<Iface> {
    if owners == [] then None else Some(owners[|owners| - 1].iface)
  }

  predicate Distinct(owners: seq<Owner>) { forall i, j :: 0 <= i < j < |owners| ==> owners[i].id != owners[j].id }

  function Ids(owners: seq<Owner>): set<nat> { set o | o in owners :: o.id }

  /** The owners without `id`, in order. */
  function Without(owners: seq<Owner>, id: nat): seq<Owner> { Filter(owners, (o: Owner) => o.id != id) }

  lemma {:induction false} WithoutDistinct(owners: seq<Owner>, id: nat)
    requires Distinct(owners)
    ensures Distinct(Without(owners, id))
  {
    if owners == [] {
    } else {
      var n := |owners| - 1;
      WithoutDistinct(owners[..n], id);
      FilterElements(owners[..n], (o: Owner) => o.id != id);
      forall i | 0 <= i < |Without(owners[..n], id)| ensures Without(owners[..n], id)[i].id != owners[n].id {
        assert Without(owners[..n], id)[i] in owners[..n];
      }
    }
  }

  lemma {:induction false} Unknown(owners: seq<Owner>, id: nat)
    requires forall j :: 0 <= j < |owners| ==> owners[j].id != id
    ensures Without(owners, id) == owners
  {
    FilterAll(owners, (o: Owner) => o.id != id);
  }

  lemma {:induction false} WithoutElements(owners: seq<Owner>, id: nat)
    ensures forall o :: o in Without(owners, id) <==> o in owners && o.id != id
  {
    FilterElements(owners, (o: Owner) => o.id != id);
  }

  lemma {:induction false} WithoutIds(owners: seq<Owner>, id: nat)
    ensures Ids(Without(owners, id)) == Ids(owners) - {id}
    ensures id !in Ids(owners) ==> Without(owners, id) == owners
    ensures Distinct(owners) ==> Distinct(Without(owners, id))
    ensures forall o :: o in Without(owners, id) ==> o in owners
  {
    WithoutElements(owners, id);
    if id !in Ids(owners) { Unknown(owners, id); }
    if Distinct(owners) { WithoutDistinct(owners, id); }
  }

  lemma {:induction false} WithoutLast(owners: seq<Owner>, o: Owner)
    requires o.id !in Ids(owners)
    ensures Without(owners + [o], o.id) == owners
  {
    WithoutIds(owners, o.id);
    assert (owners + [o])[..|owners|] == owners;
  }

  /** Dropping a superseded owner leaves the newest one in place. */
  lemma {:induction false} WithoutOlder(owners: seq<Owner>, id: nat)
    requires owners != [] && owners[|owners| - 1].id != id
    ensures Effective(Without(owners, id)) == Effective(owners)
  {
  }

  // ---- the registry in place ----

  class Registry {
    var owners: seq<Owner>
    var nextId: nat
    var recorded: Option<Iface>

    ghost predicate Valid()
      reads this
    {
      Distinct(owners) && forall o :: o in owners ==> o.id < nextId
    }

    constructor ()
      ensures Valid() && owners == [] && recorded == None
    {
      owners, nextId, recorded := [], 1, None;
    }

    /** `push_owner`: supersede the current owner without discarding it. */
    method Install(iface: Iface) returns (id: nat)
      requires Valid()
      modifies this
      ensures Valid() && id == old(nextId) && id !in Ids(old(owners)) && recorded == old(recorded)
      ensures owners == old(owners) + [Owner(id, iface, false)] && Effective(owners) == Some(iface)
    {
      id := nextId;
      nextId := nextId + 1;
      owners := owners + [Owner(id, iface, false)];
    }

    /** `position`, then `remove`. */
    method Release(id: nat)
      requires Valid()
      modifies this
      ensures Valid() && owners == Without(old(owners), id) && nextId == old(nextId)
      ensures recorded == if owners != [] && !owners[|owners| - 1].committed then old(recorded) else Effective(owners)
    {
      ghost var before := owners;
      WithoutIds(before, id);
      var i := 0;
      while i < |owners| && owners[i].id != id
        invariant 0 <= i <= |owners| && owners == before && nextId == old(nextId)
        invariant forall j :: 0 <= j < i ==> owners[j].id != id
      {
        i := i + 1;
      }
      if i < |owners| {
        Removed(owners, id, i);
        owners := owners[..i] + owners[i + 1..];
      } else {
        Unknown(owners, id);
      }
      assert owners == Without(before, id);
      Settle();
    }

    /** `commit`: this owner's configuration runs. */
    method Commit(id: nat)
      requires Valid()
      modifies this
      ensures Valid() && |owners| == |old(owners)| && nextId == old(nextId)
          && Effective(owners) == Effective(old(owners))
      ensures recorded == if owners != [] && !owners[|owners| - 1].committed then old(recorded) else Effective(owners)
      ensures owners != [] && owners[|owners| - 1].id == id ==> recorded == Effective(owners)
      ensures forall i :: 0 <= i < |owners| ==>
                owners[i] == if old(owners)[i].id == id then old(owners)[i].(committed := true) else old(owners)[i]
    {
      var i := 0;
      while i < |owners| && owners[i].id != id
        invariant 0 <= i <= |owners| && owners == old(owners) && nextId == old(nextId)
        invariant forall j :: 0 <= j < i ==> owners[j].id != id
      {
        i := i + 1;
      }
      if i < |owners| { owners := owners[i := owners[i].(committed := true)]; }
      Settle();
    }

    /** `settle`: the logbook follows the newest owner once it is committed. */
    method Settle()
      modifies this`recorded
      ensures recorded == if owners != [] && !owners[|owners| - 1].committed then old(recorded) else Effective(owners)
    {
      if owners == [] || owners[|owners| - 1].committed { recorded := Effective(owners); }
    }
  }

  lemma {:induction false} Removed(owners: seq<Owner>, id: nat, i: nat)
    requires Distinct(owners) && i < |owners| && owners[i].id == id
    ensures Without(owners, id) == owners[..i] + owners[i + 1..]
  {
    var n := |owners| - 1;
    if i < n {
      Removed(owners[..n], id, i);
      assert owners[..n][..i] + owners[..n][i + 1..] + [owners[n]] == owners[..i] + owners[i + 1..];
    } else {
      Unknown(owners[..n], id);
      assert owners[..i] + owners[i + 1..] == owners[..n];
    }
  }

  // ---- a mutation and its binding ----

  /** Who holds a guard: the mutation before it spawns, the listener it is
      spawning, the running listener, and other tasks such as the boot
      listener. */
  datatype Holders = Holders(
    owners: seq<Owner>, next: nat, pre: Option<nat>, spawning: Option<nat>, running: Option<nat>, others: set<nat>)

  datatype Action =
    | Preinstall(iface: Iface)
    | Discard
    | StopOld
    | Take
    | InstallLate(iface: Iface)
    | SpawnOk
    | SpawnFails
    | Exit
    | OtherExit(id: nat)
    | OtherInstall(iface: Iface)

  function Drop(h: Holders, guard: Option<nat>): Holders {
    if guard.Some? then h.(owners := Without(h.owners, guard.value)) else h
  }

  function Push(h: Holders, iface: Iface): Holders {
    h.(owners := h.owners + [Owner(h.next, iface, false)], next := h.next + 1)
  }

  /** `Discard` is every exit without a spawn: a rejection, or a commit that
      keeps the running listener. `Take` moves the binding into the listener
      being spawned, which installs its own if there is none. */
  function Step(h: Holders, a: Action): Option<Holders> {
    match a
    case Preinstall(iface) =>
      if h.pre.None? && h.spawning.None? then Some(Push(h, iface).(pre := Some(h.next))) else None
    case Discard => Some(Drop(h, h.pre).(pre := None))
    case StopOld => Some(Drop(h, h.running).(running := None))
    case Take =>
      if h.pre.Some? && h.spawning.None? && h.running.None? then Some(h.(pre := None, spawning := h.pre)) else None
    case InstallLate(iface) =>
      if h.pre.None? && h.spawning.None? && h.running.None? then Some(Push(h, iface).(spawning := Some(h.next)))
      else None
    case SpawnOk =>
      if h.spawning.Some? && h.running.None? then Some(h.(spawning := None, running := h.spawning)) else None
    case SpawnFails => Some(Drop(h, h.spawning).(spawning := None))
    case Exit => Some(Drop(h, h.running).(running := None))
    case OtherInstall(iface) => Some(Push(h, iface).(others := h.others + {h.next}))
    case OtherExit(id) => if id in h.others then Some(Drop(h, Some(id)).(others := h.others - {id})) else None
  }

  function Run(h: Holders, actions: seq<Action>): Option<Holders>
    decreases |actions|
  {
    if actions == [] then Some(h)
    else match Step(h, actions[0]) case Some(h') => Run(h', actions[1..]) case None => None
  }

  function Held(guard: Option<nat>): set<nat> { if guard.Some? then {guard.value} else {} }

  function Guards(h: Holders): set<nat> { Held(h.pre) + Held(h.spawning) + Held(h.running) + h.others }

  /** Every owner has exactly one holder, and every holder is an owner. */
  ghost predicate NoLeak(h: Holders) {
    && Distinct(h.owners) && Ids(h.owners) == Guards(h) && (forall id :: id in Guards(h) ==> id < h.next)
    && Held(h.pre) !! Held(h.spawning) !! Held(h.running) !! h.others
  }

  lemma {:induction false} PushKeeps(h: Holders, iface: Iface)
    requires NoLeak(h)
    ensures Distinct(Push(h, iface).owners) && Ids(Push(h, iface).owners) == Guards(h) + {h.next}
  {
    forall i | 0 <= i < |h.owners| ensures h.owners[i].id < h.next { assert h.owners[i].id in Ids(h.owners); }
  }

  /** Dropping one guard takes exactly its owner away. */
  lemma {:induction false} DropKeeps(h: Holders, guard: Option<nat>)
    requires NoLeak(h)
    ensures Distinct(Drop(h, guard).owners) && Ids(Drop(h, guard).owners) == Guards(h) - Held(guard)
  {
    if guard.Some? { WithoutIds(h.owners, guard.value); }
  }

  lemma {:induction false} StepKeeps(h: Holders, a: Action)
    requires NoLeak(h) && Step(h, a).Some?
    ensures NoLeak(Step(h, a).value)
  {
    match a {
      case Preinstall(iface) => PushKeeps(h, iface);
      case InstallLate(iface) => PushKeeps(h, iface);
      case OtherInstall(iface) => PushKeeps(h, iface);
      case Discard => DropKeeps(h, h.pre);
      case StopOld => DropKeeps(h, h.running);
      case Exit => DropKeeps(h, h.running);
      case SpawnFails => DropKeeps(h, h.spawning);
      case OtherExit(id) => DropKeeps(h, Some(id));
      case Take =>
      case SpawnOk =>
    }
  }

  /** Over every run, whatever its exits: no owner outlives its holder. */
  lemma {:induction false} OwnersConserved(h: Holders, actions: seq<Action>)
    requires NoLeak(h) && Run(h, actions).Some?
    ensures NoLeak(Run(h, actions).value)
    decreases |actions|
  {
    if actions == [] {
    } else {
      StepKeeps(h, actions[0]);
      OwnersConserved(Step(h, actions[0]).value, actions[1..]);
    }
  }

  predicate Leaves(actions: seq<Action>) {
    forall i :: 0 <= i < |actions| ==> actions[i].Exit? || actions[i].OtherExit?
  }

  /** `h` with a pre-installed binding on top. */
  predicate OnTop(h: Holders, t: Holders, o: Owner) {
    t == h.(owners := h.owners + [o], next := h.next + 1, pre := Some(o.id)) && o.id == h.next && h.pre.None?
  }

  lemma {:induction false} LeaveUnder(h: Holders, t: Holders, o: Owner, a: Action)
    requires NoLeak(h) && OnTop(h, t, o) && (a.Exit? || a.OtherExit?) && Step(t, a).Some?
    ensures Step(h, a).Some? && OnTop(Step(h, a).value, Step(t, a).value, o)
  {
    assert (h.owners + [o])[..|h.owners|] == h.owners;
  }

  /** A mutation that is turned away, or keeps the running listener, leaves
      the owners as if it had never installed its binding, even if listeners
      went away meanwhile. */
  lemma {:induction false} DiscardRestores(h: Holders, t: Holders, o: Owner, actions: seq<Action>)
    requires NoLeak(h) && OnTop(h, t, o) && Leaves(actions) && Run(t, actions).Some?
    ensures Run(h, actions).Some?
    ensures Step(Run(t, actions).value, Discard).value.owners == Run(h, actions).value.owners
    decreases |actions|
  {
    if actions == [] {
      WithoutLast(h.owners, o);
    } else {
      LeaveUnder(h, t, o, actions[0]);
      StepKeeps(h, actions[0]);
      DiscardRestores(Step(h, actions[0]).value, Step(t, actions[0]).value, o, actions[1..]);
    }
  }

  /** Nobody else went away: the prior interface is in effect again. */
  lemma {:induction false} RejectionRestores(h: Holders, iface: Iface)
    requires NoLeak(h) && h.pre.None? && h.spawning.None?
    ensures var t := Step(h, Preinstall(iface)).value;
            Effective(t.owners) == Some(iface) && Step(t, Discard).value == h.(next := h.next + 1)
  {
    WithoutLast(h.owners, Owner(h.next, iface, false));
  }

  /** The mutation's own binding is installed, held by it or by its
      listener. */
  ghost predicate Covered(h: Holders, o: Owner) {
    && NoLeak(h) && o in h.owners && (h.pre == Some(o.id) || (h.pre.None? && h.spawning == Some(o.id)))
  }

  /** The steps of a restart up to the end of its spawn, and those of others:
      they go away, or install a binding of their own. */
  predicate Restarts(a: Action) { a.StopOld? || a.Take? || a.Exit? || a.OtherExit? || a.OtherInstall? }

  predicate NoOtherInstall(actions: seq<Action>) { forall i :: 0 <= i < |actions| ==> !actions[i].OtherInstall? }

  /** In every state an interface is bound; with `only`, it is this one. */
  predicate AllCovered(h: Holders, only: Option<Iface>, actions: seq<Action>)
    decreases |actions|
  {
    Effective(h.owners).Some? && (only.Some? ==> Effective(h.owners) == only) &&
    (actions != [] && Step(h, actions[0]).Some? ==> AllCovered(Step(h, actions[0]).value, only, actions[1..]))
  }

  lemma {:induction false} WithoutKeeps(owners: seq<Owner>, id: nat, o: Owner)
    requires o in owners && o.id != id
    ensures o in Without(owners, id)
    ensures owners[|owners| - 1] == o ==>
              Without(owners, id) != [] && Without(owners, id)[|Without(owners, id)| - 1] == o
  {
    WithoutElements(owners, id);
  }

  lemma {:induction false} CoverStep(h: Holders, o: Owner, a: Action)
    requires Covered(h, o) && Restarts(a) && Step(h, a).Some?
    ensures Covered(Step(h, a).value, o)
    ensures h.owners[|h.owners| - 1] == o && !a.OtherInstall? ==>
              var owners := Step(h, a).value.owners; owners != [] && owners[|owners| - 1] == o
  {
    StepKeeps(h, a);
    match a {
      case StopOld => if h.running.Some? { WithoutKeeps(h.owners, h.running.value, o); }
      case Exit => if h.running.Some? { WithoutKeeps(h.owners, h.running.value, o); }
      case OtherExit(id) => WithoutKeeps(h.owners, id, o);
      case Take =>
      case OtherInstall(_) =>
    }
  }

  lemma {:induction false} CoveredOn(h: Holders, o: Owner, newest: bool, actions: seq<Action>)
    requires Covered(h, o) && forall i :: 0 <= i < |actions| ==> Restarts(actions[i])
    requires newest ==> h.owners[|h.owners| - 1] == o && NoOtherInstall(actions)
    ensures AllCovered(h, if newest then Some(o.iface) else None, actions)
    ensures Run(h, actions).Some? ==>
              && Covered(Run(h, actions).value, o)
              && (newest ==> var owners := Run(h, actions).value.owners; owners[|owners| - 1] == o)
    decreases |actions|
  {
    if actions == [] || Step(h, actions[0]).None? {
    } else {
      CoverStep(h, o, actions[0]);
      CoveredOn(Step(h, actions[0]).value, o, newest, actions[1..]);
    }
  }

  /** From the pre-install to the end of the spawn every state has an interface
      bound, in whichever order the old listener and others go away and
      whatever others install meanwhile; and it is the new one if they install
      nothing. */
  lemma {:induction false} NoGapInRestart(h: Holders, iface: Iface, actions: seq<Action>)
    requires NoLeak(h) && h.pre.None? && h.spawning.None?
    requires forall i :: 0 <= i < |actions| ==> Restarts(actions[i])
    ensures var t := Step(h, Preinstall(iface)).value;
            && AllCovered(t, None, actions)
            && (NoOtherInstall(actions) ==> AllCovered(t, Some(iface), actions))
            && (Run(t, actions).Some? && Step(Run(t, actions).value, SpawnOk).Some? ==>
                  var owners := Step(Run(t, actions).value, SpawnOk).value.owners;
                  Effective(owners).Some? && (NoOtherInstall(actions) ==> Effective(owners) == Some(iface)))
  {
    var t, o := Step(h, Preinstall(iface)).value, Owner(h.next, iface, false);
    StepKeeps(h, Preinstall(iface));
    CoveredOn(t, o, false, actions);
    if NoOtherInstall(actions) { CoveredOn(t, o, true, actions); }
  }
}
