/** Subscription contributions: what a subscription added to the document is
    tracked, replaced and removed without touching local content. */
module Contributions {
  import opened Sequences
  import opened Wrappers

  type Name = nat

  type Rule = nat

  /** A proxy, which may lack a name, or a proxy group. */
  datatype Node = Node(name: Option<Name>, body: nat)

  /** The two sections that merge by name. */
  datatype Section = Proxies | Groups

  datatype Both<T> = Both(proxies: T, groups: T)

  function At<T>(b: Both<T>, k: Section): T { if k.Proxies? then b.proxies else b.groups }

  /** `rules` and `names` are the `applied-*` claims of the entry. */
  datatype Sub = Sub(name: Name, rules: seq<Rule>, names: Both<set<Name>>)

  datatype Doc = Doc(nodes: Both<seq<Node>>, rules: seq<Rule>, subs: seq<Sub>)

  /** A parsed payload; entries without a name never get this far. */
  datatype Payload = Payload(nodes: Both<seq<Node>>, rules: seq<Rule>)

  predicate Named(f: Payload, k: Section) { forall i :: 0 <= i < |At(f.nodes, k)| ==> At(f.nodes, k)[i].name.Some? }

  function Names(nodes: seq<Node>): set<Name> { set i | 0 <= i < |nodes| && nodes[i].name.Some? :: nodes[i].name.value }

  function NamesOf(nodes: Both<seq<Node>>): Both<set<Name>> { Both(Names(nodes.proxies), Names(nodes.groups)) }

  // ---- specification ----

  predicate Dropped(n: Node, drop: set<Name>) { n.name.Some? && n.name.value in drop }

  /** The nodes whose name is not in `drop`, in order. */
  function Keep(nodes: seq<Node>, drop: set<Name>): seq<Node> { Filter(nodes, (n: Node) => !Dropped(n, drop)) }

  /** Multiset subtraction that removes the first copies. */
  function Subtract(rules: seq<Rule>, m: multiset<Rule>): seq<Rule> {
    if rules == [] then []
    else if rules[0] in m then Subtract(rules[1..], m - multiset{rules[0]})
    else [rules[0]] + Subtract(rules[1..], m)
  }

  /** The first entry called `name`. */
  function Find(subs: seq<Sub>, name: Name): (r: Option<nat>)
    ensures match r
            case Some(i) => i < |subs| && subs[i].name == name && forall j :: 0 <= j < i ==> subs[j].name != name
            case None => forall j :: 0 <= j < |subs| ==> subs[j].name != name
  {
    FirstIndex(subs, (sub: Sub) => sub.name == name)
  }

  /** An entry gives up the names in `taken`. */
  function Released(sub: Sub, taken: Both<set<Name>>): Sub {
    sub.(names := Both(sub.names.proxies - taken.proxies, sub.names.groups - taken.groups))
  }

  /** Every sibling of entry `i` does. */
  function Release(subs: seq<Sub>, i: nat, taken: Both<set<Name>>): (r: seq<Sub>)
    ensures |r| == |subs|
    ensures forall j :: 0 <= j < |subs| ==> r[j] == if j == i then subs[j] else Released(subs[j], taken)
  {
    seq(|subs|, j requires 0 <= j < |subs| => if j == i then subs[j] else Released(subs[j], taken))
  }

  /** One section after a payload: what it replaces goes, its nodes follow. */
  function Replaced(nodes: seq<Node>, prev: set<Name>, remote: seq<Node>): seq<Node> {
    Keep(nodes, prev + Names(remote)) + remote
  }

  function Applied(d: Doc, i: nat, f: Payload): Doc
    requires i < |d.subs|
  {
    var sub, names := d.subs[i], NamesOf(f.nodes);
    Doc(Both(Replaced(d.nodes.proxies, sub.names.proxies, f.nodes.proxies),
             Replaced(d.nodes.groups, sub.names.groups, f.nodes.groups)),
        f.rules + Subtract(d.rules, multiset(sub.rules)),
        Release(d.subs, i, names)[i := Sub(sub.name, f.rules, names)])
  }

  function Removed(d: Doc, i: nat): Doc
    requires i < |d.subs|
  {
    var sub := d.subs[i];
    Doc(Both(Keep(d.nodes.proxies, sub.names.proxies), Keep(d.nodes.groups, sub.names.groups)),
        Subtract(d.rules, multiset(sub.rules)), d.subs[i := Sub(sub.name, [], Both({}, {}))])
  }

  /** The claims on rules that still have a copy, and what is left over. */
  function Clamp(rules: seq<Rule>, avail: multiset<Rule>): seq<Rule> {
    if rules == [] then []
    else if rules[0] in avail then [rules[0]] + Clamp(rules[1..], avail - multiset{rules[0]})
    else Clamp(rules[1..], avail)
  }

  /** Names without a node are no longer claimed. */
  function Present(names: Both<set<Name>>, present: Both<set<Name>>): Both<set<Name>> {
    Both(names.proxies * present.proxies, names.groups * present.groups)
  }

  function ClampAll(subs: seq<Sub>, present: Both<set<Name>>, avail: multiset<Rule>): seq<Sub> {
    if subs == [] then []
    else
      var kept := Clamp(subs[0].rules, avail);
      [Sub(subs[0].name, kept, Present(subs[0].names, present))] + ClampAll(subs[1..], present, avail - multiset(kept))
  }

  function Reconciled(d: Doc): Doc { d.(subs := ClampAll(d.subs, NamesOf(d.nodes), multiset(d.rules))) }

  // ---- the document, updated in place ----

  /** `retain` by name. */
  method RetainNodes(nodes: seq<Node>, drop: set<Name>) returns (r: seq<Node>)
    ensures r == Keep(nodes, drop)
  {
    r := [];
    for i := 0 to |nodes|
      invariant r == Keep(nodes[..i], drop)
    {
      assert nodes[..i + 1] == nodes[..i] + [nodes[i]];
      FilterAppend(nodes[..i], nodes[i], (n: Node) => !Dropped(n, drop));
      if !Dropped(nodes[i], drop) { r := r + [nodes[i]]; }
    }
    assert nodes[..|nodes|] == nodes;
  }

  /** `subtract_rules`: count the claims, then let each copy use one up. */
  method SubtractRules(rules: seq<Rule>, applied: seq<Rule>) returns (r: seq<Rule>)
    ensures r == Subtract(rules, multiset(applied))
  {
    var pending := multiset(applied);
    r := [];
    assert rules[0..] == rules;
    for i := 0 to |rules|
      invariant r + Subtract(rules[i..], pending) == Subtract(rules, multiset(applied))
    {
      assert rules[i..][1..] == rules[i + 1..];
      if rules[i] in pending {
        pending := pending - multiset{rules[i]};
      } else {
        assert r + ([rules[i]] + Subtract(rules[i + 1..], pending))
            == r + [rules[i]] + Subtract(rules[i + 1..], pending);
        r := r + [rules[i]];
      }
    }
  }

  /** `retain` while copies are left. */
  method ClampRules(rules: seq<Rule>, avail: multiset<Rule>) returns (kept: seq<Rule>, left: multiset<Rule>)
    ensures kept == Clamp(rules, avail) && left == avail - multiset(kept)
  {
    kept, left := [], avail;
    assert rules[0..] == rules;
    for i := 0 to |rules|
      invariant kept + Clamp(rules[i..], left) == Clamp(rules, avail)
      invariant left == avail - multiset(kept) && multiset(kept) <= avail
    {
      assert rules[i..][1..] == rules[i + 1..];
      if rules[i] in left {
        assert kept + ([rules[i]] + Clamp(rules[i + 1..], left - multiset{rules[i]}))
            == kept + [rules[i]] + Clamp(rules[i + 1..], left - multiset{rules[i]});
        kept, left := kept + [rules[i]], left - multiset{rules[i]};
      }
    }
  }

  lemma {:induction false} ClampNext(
      done: seq<Sub>, subs: seq<Sub>, i: nat, present: Both<set<Name>>, avail: multiset<Rule>)
    requires i < |subs|
    ensures var kept := Clamp(subs[i].rules, avail);
            done + ClampAll(subs[i..], present, avail)
            == done + [Sub(subs[i].name, kept, Present(subs[i].names, present))]
               + ClampAll(subs[i + 1..], present, avail - multiset(kept))
  {
    assert subs[i..][1..] == subs[i + 1..];
  }

  /** What an apply reports. */
  datatype Counts = Counts(proxies: nat, groups: nat, rules: nat)

  class Document {
    var proxies: seq<Node>
    var groups: seq<Node>
    var rules: seq<Rule>
    var subs: seq<Sub>

    ghost function View(): Doc
      reads this
    {
      Doc(Both(proxies, groups), rules, subs)
    }

    constructor (d: Doc)
      ensures View() == d
    {
      proxies, groups, rules, subs := d.nodes.proxies, d.nodes.groups, d.rules, d.subs;
    }

    /** `apply_subscription`. */
    method Apply(name: Name, f: Payload) returns (counts: Option<Counts>)
      modifies this
      ensures counts.Some? <==> Find(old(subs), name).Some?
      ensures View() == if counts.Some? then Applied(old(View()), Find(old(subs), name).value, f) else old(View())
      ensures counts.Some? ==> counts.value == Counts(|proxies|, |groups|, |rules|)
    {
      var at := Find(subs, name);
      if at.None? { return None; }
      var i, names := at.value, NamesOf(f.nodes);
      var sub := subs[i];
      for j := 0 to |subs|
        modifies this`subs
        invariant |subs| == |old(subs)|
        invariant forall k :: 0 <= k < |subs| ==>
                    subs[k] == if k < j then Release(old(subs), i, names)[k] else old(subs)[k]
      {
        if j != i { subs := subs[j := Released(subs[j], names)]; }
      }
      assert subs == Release(old(subs), i, names);
      var keptProxies := RetainNodes(proxies, sub.names.proxies + names.proxies);
      proxies := keptProxies + f.nodes.proxies;
      var keptGroups := RetainNodes(groups, sub.names.groups + names.groups);
      groups := keptGroups + f.nodes.groups;
      var rest := SubtractRules(rules, sub.rules);
      rules := f.rules + rest;
      subs := subs[i := Sub(sub.name, f.rules, names)];
      counts := Some(Counts(|proxies|, |groups|, |rules|));
    }

    /** `remove_subscription_contribution`. */
    method RemoveContribution(name: Name)
      modifies this
      ensures View() == match Find(old(subs), name) case Some(i) => Removed(old(View()), i) case None => old(View())
    {
      var at := Find(subs, name);
      if at.None? { return; }
      var sub := subs[at.value];
      proxies := RetainNodes(proxies, sub.names.proxies);
      groups := RetainNodes(groups, sub.names.groups);
      rules := SubtractRules(rules, sub.rules);
      subs := subs[at.value := Sub(sub.name, [], Both({}, {}))];
    }

    /** `reconcile_contribution_claims`. */
    method ReconcileClaims()
      modifies this`subs
      ensures View() == Reconciled(old(View()))
    {
      var present, avail, done := NamesOf(Both(proxies, groups)), multiset(rules), [];
      assert subs[0..] == subs;
      for i := 0 to |subs|
        invariant subs == old(subs)
        invariant done + ClampAll(subs[i..], present, avail) == ClampAll(subs, present, multiset(rules))
      {
        ClampNext(done, subs, i, present, avail);
        var kept, left := ClampRules(subs[i].rules, avail);
        done, avail := done + [Sub(subs[i].name, kept, Present(subs[i].names, present))], left;
      }
      subs := done;
    }
  }

  // ---- rules are conserved ----

  /** All copies of rules that subscriptions claim. */
  function Claims(subs: seq<Sub>): multiset<Rule> {
    if subs == [] then multiset{} else multiset(subs[0].rules) + Claims(subs[1..])
  }

  /** Every claim is backed by a copy of its own. */
  ghost predicate Backed(d: Doc) { Claims(d.subs) <= multiset(d.rules) }

  /** The rules nobody claims. */
  function LocalRules(d: Doc): multiset<Rule> { multiset(d.rules) - Claims(d.subs) }

  lemma {:induction false} SubtractCounts(rules: seq<Rule>, m: multiset<Rule>)
    ensures multiset(Subtract(rules, m)) == multiset(rules) - m
  {
    if rules == [] {
    } else {
      assert rules == [rules[0]] + rules[1..];
      if rules[0] in m { SubtractCounts(rules[1..], m - multiset{rules[0]}); } else { SubtractCounts(rules[1..], m); }
    }
  }

  lemma {:induction false} ClaimsUpdate(subs: seq<Sub>, i: nat, s: Sub)
    requires i < |subs|
    ensures Claims(subs[i := s]) + multiset(subs[i].rules) == Claims(subs) + multiset(s.rules)
    ensures multiset(subs[i].rules) <= Claims(subs)
  {
    if i > 0 {
      ClaimsUpdate(subs[1..], i - 1, s);
      assert subs[i := s][1..] == subs[1..][i - 1 := s];
      Shift(multiset(subs[0].rules), Claims(subs[1..][i - 1 := s]), multiset(subs[i].rules), Claims(subs[1..]),
          multiset(s.rules));
    } else {
      assert subs[i := s][1..] == subs[1..];
    }
  }

  lemma {:induction false} Shift(
      a: multiset<Rule>, x: multiset<Rule>, own: multiset<Rule>, y: multiset<Rule>, s: multiset<Rule>)
    requires x + own == y + s && own <= y
    ensures a + x + own == a + y + s && own <= a + y
  {
    assert a + x + own == a + (x + own) && a + (y + s) == a + y + s;
  }

  lemma {:induction false} ClaimsSame(a: seq<Sub>, b: seq<Sub>)
    requires |a| == |b| && forall j :: 0 <= j < |a| ==> a[j].rules == b[j].rules
    ensures Claims(a) == Claims(b)
  {
    if a == [] {
    } else {
      ClaimsSame(a[1..], b[1..]);
    }
  }

  lemma {:induction false} Exchange(all: multiset<Rule>, claims: multiset<Rule>, own: multiset<Rule>,
      added: multiset<Rule>, claims': multiset<Rule>)
    requires own <= claims <= all && claims' + own == claims + added
    ensures claims' <= added + (all - own) && added + (all - own) - claims' == all - claims
  {
    var after := added + (all - own);
    forall r ensures claims'[r] <= after[r] && (after - claims')[r] == (all - claims)[r] {
      assert (claims' + own)[r] == (claims + added)[r];
    }
  }

  /** Applying a payload, first time or again, keeps every claim backed and
      leaves the unclaimed rules as they are, copy for copy. */
  lemma {:induction false} ApplyKeepsLocalRules(d: Doc, i: nat, f: Payload)
    requires i < |d.subs| && Backed(d)
    ensures Backed(Applied(d, i, f)) && LocalRules(Applied(d, i, f)) == LocalRules(d)
  {
    var names, sub := NamesOf(f.nodes), d.subs[i];
    var released := Release(d.subs, i, names);
    ClaimsSame(d.subs, released);
    ClaimsUpdate(released, i, Sub(sub.name, f.rules, names));
    SubtractCounts(d.rules, multiset(sub.rules));
    Exchange(multiset(d.rules), Claims(d.subs), multiset(sub.rules), multiset(f.rules), Claims(Applied(d, i, f).subs));
  }

  lemma {:induction false} RemoveKeepsLocalRules(d: Doc, i: nat)
    requires i < |d.subs| && Backed(d)
    ensures Backed(Removed(d, i)) && LocalRules(Removed(d, i)) == LocalRules(d)
  {
    var sub := d.subs[i];
    ClaimsUpdate(d.subs, i, Sub(sub.name, [], Both({}, {})));
    SubtractCounts(d.rules, multiset(sub.rules));
    Exchange(multiset(d.rules), Claims(d.subs), multiset(sub.rules), multiset{}, Claims(Removed(d, i).subs));
  }

  // ---- clamping claims after an edit of the sections ----

  lemma {:induction false} ClampCounts(rules: seq<Rule>, avail: multiset<Rule>)
    ensures multiset(Clamp(rules, avail)) == multiset(rules) * avail
  {
    if rules == [] {
    } else {
      assert rules == [rules[0]] + rules[1..];
      if rules[0] in avail { ClampCounts(rules[1..], avail - multiset{rules[0]}); }
      else { ClampCounts(rules[1..], avail); }
    }
  }

  lemma {:induction false} ClampWhole(rules: seq<Rule>, avail: multiset<Rule>)
    ensures Clamp(rules, avail) == rules <==> multiset(rules) <= avail
  {
    ClampCounts(rules, avail);
    if multiset(rules) <= avail {
      ClampLength(rules, avail);
    }
  }

  lemma {:induction false} ClampLength(rules: seq<Rule>, avail: multiset<Rule>)
    requires multiset(rules) <= avail
    ensures Clamp(rules, avail) == rules
  {
    if rules == [] {
    } else {
      assert rules == [rules[0]] + rules[1..];
      assert rules[0] in multiset(rules);
      assert multiset(rules[1..]) <= avail - multiset{rules[0]};
      ClampLength(rules[1..], avail - multiset{rules[0]});
    }
  }

  /** Every claimed name has a node. */
  predicate Standing(subs: seq<Sub>, present: Both<set<Name>>) {
    forall j, k :: 0 <= j < |subs| ==> At(subs[j].names, k) <= At(present, k)
  }

  lemma {:induction false} ClampedIsBacked(subs: seq<Sub>, present: Both<set<Name>>, avail: multiset<Rule>)
    ensures Claims(ClampAll(subs, present, avail)) <= avail
    ensures Standing(ClampAll(subs, present, avail), present)
  {
    if subs == [] {
    } else {
      var kept := Clamp(subs[0].rules, avail);
      var rest := ClampAll(subs[1..], present, avail - multiset(kept));
      ClampedIsBacked(subs[1..], present, avail - multiset(kept));
      ClampCounts(subs[0].rules, avail);
      assert ClampAll(subs, present, avail)[1..] == rest;
      HeadAndTail(multiset(kept), Claims(rest), avail);
    }
  }

  lemma {:induction false} PresentWhole(names: Both<set<Name>>, present: Both<set<Name>>)
    ensures (forall k :: At(names, k) <= At(present, k)) <==> Present(names, present) == names
  {
    if forall k :: At(names, k) <= At(present, k) {
      assert At(names, Proxies) <= At(present, Proxies) && At(names, Groups) <= At(present, Groups);
      assert names.proxies * present.proxies == names.proxies && names.groups * present.groups == names.groups;
    }
  }

  lemma {:induction false} StandingTail(subs: seq<Sub>, present: Both<set<Name>>)
    requires subs != [] && Standing(subs, present)
    ensures Standing(subs[1..], present) && Present(subs[0].names, present) == subs[0].names
  {
    forall j, k | 0 <= j < |subs[1..]| ensures At(subs[1..][j].names, k) <= At(present, k) {
      assert subs[1..][j] == subs[j + 1];
    }
    PresentWhole(subs[0].names, present);
  }

  lemma {:induction false} BackedIsKept(subs: seq<Sub>, present: Both<set<Name>>, avail: multiset<Rule>)
    requires Claims(subs) <= avail && Standing(subs, present)
    ensures ClampAll(subs, present, avail) == subs
  {
    if subs == [] {
    } else {
      var own, rest := multiset(subs[0].rules), subs[1..];
      StandingTail(subs, present);
      SplitBacked(own, Claims(rest), avail);
      ClampWhole(subs[0].rules, avail);
      BackedIsKept(rest, present, avail - own);
      assert ClampAll(subs, present, avail) == [subs[0]] + ClampAll(rest, present, avail - own);
    }
  }

  /** Each entry keeps of its names those with a node, and of its rules what
      the entries before it leave. */
  ghost predicate EntryClamped(sub: Sub, r: Sub, present: Both<set<Name>>, left: multiset<Rule>) {
    && r.name == sub.name && (forall k :: At(r.names, k) == At(sub.names, k) * At(present, k))
    && multiset(r.rules) == multiset(sub.rules) * left
  }

  lemma {:induction false} ClampedLength(subs: seq<Sub>, present: Both<set<Name>>, avail: multiset<Rule>)
    ensures |ClampAll(subs, present, avail)| == |subs|
  {
    if subs == [] {
    } else {
      ClampedLength(subs[1..], present, avail - multiset(Clamp(subs[0].rules, avail)));
    }
  }

  lemma {:induction false} ClampedEntry(subs: seq<Sub>, present: Both<set<Name>>, avail: multiset<Rule>, j: nat)
    requires j < |subs| && |ClampAll(subs, present, avail)| == |subs|
    ensures var r := ClampAll(subs, present, avail); EntryClamped(subs[j], r[j], present, avail - Claims(r[..j]))
  {
    var r := ClampAll(subs, present, avail);
    if j == 0 {
      ClampCounts(subs[0].rules, avail);
      assert r[..0] == [] && avail - multiset{} == avail;
    } else {
      var left := avail - multiset(r[0].rules);
      ClampedEntry(subs[1..], present, left, j - 1);
      assert r[1..] == ClampAll(subs[1..], present, left) && subs[1..][j - 1] == subs[j];
      ClampedLater(subs[j], r, present, avail, j);
    }
  }

  lemma {:induction false} ClampedLater(sub: Sub, r: seq<Sub>, present: Both<set<Name>>, avail: multiset<Rule>, j: nat)
    requires 0 < j < |r|
    requires EntryClamped(sub, r[1..][j - 1], present, avail - multiset(r[0].rules) - Claims(r[1..][..j - 1]))
    ensures EntryClamped(sub, r[j], present, avail - Claims(r[..j]))
  {
    assert r[..j] == [r[0]] + r[1..][..j - 1];
    ClaimsCons(r[0], r[1..][..j - 1]);
    LessBoth(avail, multiset(r[0].rules), Claims(r[1..][..j - 1]));
  }

  lemma {:induction false} ClaimsCons(sub: Sub, subs: seq<Sub>)
    ensures Claims([sub] + subs) == multiset(sub.rules) + Claims(subs)
  {
    assert ([sub] + subs)[1..] == subs;
  }

  lemma {:induction false} LessBoth(avail: multiset<Rule>, a: multiset<Rule>, b: multiset<Rule>)
    ensures avail - a - b == avail - (a + b)
  {
  }

  /** After any edit of the sections every claim is backed, by name and by
      copy. Each entry keeps exactly the names that have a node and the rules
      that earlier entries leave copies of. The claims stay untouched exactly if
      they were backed already. */
  lemma {:induction false} ReconcileExact(d: Doc)
    ensures Backed(Reconciled(d)) && Standing(Reconciled(d).subs, NamesOf(d.nodes))
    ensures Reconciled(d) == d <==> Backed(d) && Standing(d.subs, NamesOf(d.nodes))
    ensures |Reconciled(d).subs| == |d.subs|
    ensures forall j :: 0 <= j < |d.subs| ==>
              var r := Reconciled(d).subs;
              EntryClamped(d.subs[j], r[j], NamesOf(d.nodes), multiset(d.rules) - Claims(r[..j]))
  {
    ClampedIsBacked(d.subs, NamesOf(d.nodes), multiset(d.rules));
    if Backed(d) && Standing(d.subs, NamesOf(d.nodes)) {
      BackedIsKept(d.subs, NamesOf(d.nodes), multiset(d.rules));
    }
    ClampedLength(d.subs, NamesOf(d.nodes), multiset(d.rules));
    forall j | 0 <= j < |d.subs| { ClampedEntry(d.subs, NamesOf(d.nodes), multiset(d.rules), j); }
  }

  lemma {:induction false} HeadAndTail(a: multiset<Rule>, b: multiset<Rule>, avail: multiset<Rule>)
    requires a <= avail && b <= avail - a
    ensures a + b <= avail
  {
  }

  lemma {:induction false} SplitBacked(a: multiset<Rule>, b: multiset<Rule>, avail: multiset<Rule>)
    ensures a + b <= avail <==> a <= avail && b <= avail - a
  {
    if a + b <= avail {
      forall r ensures a[r] <= avail[r] && b[r] <= (avail - a)[r] { assert (a + b)[r] <= avail[r]; }
    }
  }

  // ---- nodes of either section ----

  /** All names subscriptions claim. */
  function ClaimedNames(subs: seq<Sub>, k: Section): set<Name> {
    set j, n | 0 <= j < |subs| && n in At(subs[j].names, k) :: n
  }

  /** The nodes nobody claims, in order. */
  function LocalNodes(d: Doc, k: Section): seq<Node> { Keep(At(d.nodes, k), ClaimedNames(d.subs, k)) }

  lemma {:induction false} KeepConcat(a: seq<Node>, b: seq<Node>, drop: set<Name>)
    ensures Keep(a + b, drop) == Keep(a, drop) + Keep(b, drop)
  {
    FilterConcat(a, b, (n: Node) => !Dropped(n, drop));
  }

  lemma {:induction false} KeepTwice(nodes: seq<Node>, a: set<Name>, b: set<Name>)
    ensures Keep(Keep(nodes, a), b) == Keep(nodes, a + b)
  {
    if nodes == [] {
    } else {
      var n := |nodes| - 1;
      KeepTwice(nodes[..n], a, b);
      if Dropped(nodes[n], a) {
        assert Keep(nodes, a) == Keep(nodes[..n], a);
      } else {
        FilterAppend(Keep(nodes[..n], a), nodes[n], (x: Node) => !Dropped(x, b));
        assert Keep(nodes, a) == Keep(nodes[..n], a) + [nodes[n]];
      }
    }
  }

  lemma {:induction false} KeepNone(nodes: seq<Node>, drop: set<Name>)
    requires forall i :: 0 <= i < |nodes| ==> !Dropped(nodes[i], drop)
    ensures Keep(nodes, drop) == nodes
  {
    FilterAll(nodes, (n: Node) => !Dropped(n, drop));
  }

  lemma {:induction false} KeepAll(nodes: seq<Node>, drop: set<Name>)
    requires forall i :: 0 <= i < |nodes| ==> Dropped(nodes[i], drop)
    ensures Keep(nodes, drop) == []
  {
    if nodes == [] {
    } else {
      KeepAll(nodes[..|nodes| - 1], drop);
    }
  }

  lemma {:induction false} KeepMember(nodes: seq<Node>, drop: set<Name>, n: Node)
    requires n in nodes && !Dropped(n, drop)
    ensures n in Keep(nodes, drop)
  {
    FilterElements(nodes, (x: Node) => !Dropped(x, drop));
  }

  lemma {:induction false} ClaimsAfterApply(d: Doc, i: nat, f: Payload, k: Section)
    requires i < |d.subs|
    ensures Names(At(f.nodes, k)) <= ClaimedNames(Applied(d, i, f).subs, k)
    ensures At(d.subs[i].names, k) + Names(At(f.nodes, k)) + ClaimedNames(Applied(d, i, f).subs, k)
         == ClaimedNames(d.subs, k) + Names(At(f.nodes, k))
  {
    var names, subs' := Names(At(f.nodes, k)), Applied(d, i, f).subs;
    assert At(subs'[i].names, k) == names;
    assert forall j :: 0 <= j < |subs'| && j != i ==> At(subs'[j].names, k) == At(d.subs[j].names, k) - names;
    forall n | n in ClaimedNames(d.subs, k) && n !in names && n !in At(d.subs[i].names, k)
      ensures n in ClaimedNames(subs', k)
    {
      var j :| 0 <= j < |d.subs| && n in At(d.subs[j].names, k);
      assert n in At(subs'[j].names, k);
    }
  }

  /** Applying a payload keeps every unclaimed node except those it shadows
      by name, in their order; unnamed nodes always stay. */
  lemma {:induction false} ApplyKeepsLocalNodes(d: Doc, i: nat, f: Payload, k: Section)
    requires i < |d.subs| && Named(f, k)
    ensures LocalNodes(Applied(d, i, f), k) == Keep(LocalNodes(d, k), Names(At(f.nodes, k)))
  {
    var nodes, remote, prev := At(d.nodes, k), At(f.nodes, k), At(d.subs[i].names, k);
    var claimed := ClaimedNames(Applied(d, i, f).subs, k);
    ClaimsAfterApply(d, i, f, k);
    assert At(Applied(d, i, f).nodes, k) == Replaced(nodes, prev, remote);
    KeepConcat(Keep(nodes, prev + Names(remote)), remote, claimed);
    KeepTwice(nodes, prev + Names(remote), claimed);
    KeepTwice(nodes, ClaimedNames(d.subs, k), Names(remote));
    AllNamed(remote, claimed);
  }

  lemma {:induction false} AllNamed(nodes: seq<Node>, drop: set<Name>)
    requires Names(nodes) <= drop && forall i :: 0 <= i < |nodes| ==> nodes[i].name.Some?
    ensures Keep(nodes, drop) == []
  {
    forall i | 0 <= i < |nodes| ensures Dropped(nodes[i], drop) { assert nodes[i].name.value in Names(nodes); }
    KeepAll(nodes, drop);
  }

  /** No two subscriptions claim the same name. */
  predicate Disjoint(subs: seq<Sub>, k: Section) {
    forall i, j :: 0 <= i < j < |subs| ==> At(subs[i].names, k) !! At(subs[j].names, k)
  }

  lemma {:induction false} ApplyKeepsDisjoint(d: Doc, i: nat, f: Payload, k: Section)
    requires i < |d.subs| && Disjoint(d.subs, k)
    ensures Disjoint(Applied(d, i, f).subs, k)
  {
    var names, subs' := Names(At(f.nodes, k)), Applied(d, i, f).subs;
    assert At(subs'[i].names, k) == names;
    assert forall j :: 0 <= j < |subs'| && j != i ==> At(subs'[j].names, k) == At(d.subs[j].names, k) - names;
  }

  /** Removing a contribution keeps every node it does not claim. */
  lemma {:induction false} RemoveKeepsLocalNodes(d: Doc, i: nat, k: Section)
    requires i < |d.subs|
    ensures LocalNodes(Removed(d, i), k) == LocalNodes(d, k)
  {
    var subs' := Removed(d, i).subs;
    KeepTwice(At(d.nodes, k), At(d.subs[i].names, k), ClaimedNames(subs', k));
    assert At(d.subs[i].names, k) + ClaimedNames(subs', k) == ClaimedNames(d.subs, k) by {
      forall n | n in ClaimedNames(d.subs, k) && n !in At(d.subs[i].names, k) ensures n in ClaimedNames(subs', k) {
        var j :| 0 <= j < |d.subs| && n in At(d.subs[j].names, k);
        assert n in At(subs'[j].names, k);
      }
    }
  }

  /** A sibling's node survives both, still claimed by the sibling, unless
      the payload takes its name over. */
  lemma {:induction false} SiblingSurvives(d: Doc, i: nat, f: Payload, k: Section, j: nat, n: Node)
    requires i < |d.subs| && j < |d.subs| && i != j && Disjoint(d.subs, k)
    requires n in At(d.nodes, k) && n.name.Some? && n.name.value in At(d.subs[j].names, k)
    requires n.name.value !in Names(At(f.nodes, k))
    ensures n in At(Applied(d, i, f).nodes, k) && n.name.value in At(Applied(d, i, f).subs[j].names, k)
    ensures n in At(Removed(d, i).nodes, k) && n.name.value in At(Removed(d, i).subs[j].names, k)
  {
    assert n.name.value !in At(d.subs[i].names, k);
    KeepMember(At(d.nodes, k), At(d.subs[i].names, k) + Names(At(f.nodes, k)), n);
    KeepMember(At(d.nodes, k), At(d.subs[i].names, k), n);
  }

  // ---- the payload arrives, and claims stay true ----

  /** A section ends with exactly the payload's nodes, in order, and no other
      node has one of their names or one claimed before. */
  ghost predicate Ships(nodes: seq<Node>, prev: set<Name>, remote: seq<Node>, r: seq<Node>) {
    var n := |r| - |remote|;
    && n >= 0 && r[n..] == remote
    && (forall j :: 0 <= j < n ==> r[j] in nodes && !Dropped(r[j], Names(remote)) && !Dropped(r[j], prev))
  }

  lemma {:induction false} ReplacedShips(nodes: seq<Node>, prev: set<Name>, remote: seq<Node>)
    ensures Ships(nodes, prev, remote, Replaced(nodes, prev, remote))
  {
    var drop := prev + Names(remote);
    var kept := Keep(nodes, drop);
    FilterElements(nodes, (n: Node) => !Dropped(n, drop));
    forall j | 0 <= j < |kept| ensures kept[j] in nodes && !Dropped(kept[j], drop) { assert kept[j] in kept; }
    assert (kept + remote)[|kept|..] == remote;
  }

  /** The entry claims exactly the payload; siblings keep their rules and lose
      only the names it took. */
  lemma {:induction false} ApplyClaims(d: Doc, i: nat, f: Payload, k: Section, j: nat)
    requires i < |d.subs| && j < |d.subs|
    ensures |Applied(d, i, f).subs| == |d.subs|
    ensures var (sub, sub') := (d.subs[j], Applied(d, i, f).subs[j]);
            && sub'.name == sub.name && sub'.rules == (if j == i then f.rules else sub.rules)
            && At(sub'.names, k) == if j == i then Names(At(f.nodes, k)) else At(sub.names, k) - Names(At(f.nodes, k))
  {
  }

  /** After an apply either section is as `Ships` says, the payload's rules come
      first, and the claims are as `ApplyClaims` says. */
  lemma {:induction false} ApplyShips(d: Doc, i: nat, f: Payload, k: Section)
    requires i < |d.subs|
    ensures Ships(At(d.nodes, k), At(d.subs[i].names, k), At(f.nodes, k), At(Applied(d, i, f).nodes, k))
    ensures f.rules <= Applied(d, i, f).rules && |Applied(d, i, f).subs| == |d.subs|
    ensures forall j :: 0 <= j < |d.subs| ==>
              var (sub, sub') := (d.subs[j], Applied(d, i, f).subs[j]);
              && sub'.name == sub.name && sub'.rules == (if j == i then f.rules else sub.rules)
              && At(sub'.names, k) == if j == i then Names(At(f.nodes, k)) else At(sub.names, k) - Names(At(f.nodes, k))
  {
    ReplacedShips(At(d.nodes, k), At(d.subs[i].names, k), At(f.nodes, k));
    forall j | 0 <= j < |d.subs| { ApplyClaims(d, i, f, k, j); }
  }

  /** Every name claimed in one section has a node there. */
  predicate StandingAt(subs: seq<Sub>, nodes: seq<Node>, k: Section) {
    forall j :: 0 <= j < |subs| ==> At(subs[j].names, k) <= Names(nodes)
  }

  lemma {:induction false} StandingSections(subs: seq<Sub>, nodes: Both<seq<Node>>)
    ensures Standing(subs, NamesOf(nodes)) <==> forall k :: StandingAt(subs, At(nodes, k), k)
  {
    if forall k :: StandingAt(subs, At(nodes, k), k) {
      forall j, k | 0 <= j < |subs| ensures At(subs[j].names, k) <= At(NamesOf(nodes), k) {
        assert StandingAt(subs, At(nodes, k), k);
      }
    }
    if Standing(subs, NamesOf(nodes)) {
      forall k ensures StandingAt(subs, At(nodes, k), k) {
        assert forall j :: 0 <= j < |subs| ==> At(subs[j].names, k) <= At(NamesOf(nodes), k);
      }
    }
  }

  /** A name outside `drop` is not lost. */
  lemma {:induction false} NameKept(nodes: seq<Node>, drop: set<Name>, n: Name)
    requires n in Names(nodes) && n !in drop
    ensures n in Names(Keep(nodes, drop))
  {
    var i :| 0 <= i < |nodes| && nodes[i].name == Some(n);
    KeepMember(nodes, drop, nodes[i]);
    var j :| 0 <= j < |Keep(nodes, drop)| && Keep(nodes, drop)[j] == nodes[i];
    assert Keep(nodes, drop)[j].name == Some(n);
  }

  lemma {:induction false} NamesConcat(a: seq<Node>, b: seq<Node>)
    ensures Names(a) <= Names(a + b) && Names(b) <= Names(a + b)
  {
    forall n | n in Names(a) ensures n in Names(a + b) {
      var i :| 0 <= i < |a| && a[i].name == Some(n);
      assert (a + b)[i].name == Some(n);
    }
    forall n | n in Names(b) ensures n in Names(a + b) {
      var i :| 0 <= i < |b| && b[i].name == Some(n);
      assert (a + b)[|a| + i].name == Some(n);
    }
  }

  lemma {:induction false} ApplyKeepsStanding(d: Doc, i: nat, f: Payload, k: Section)
    requires i < |d.subs| && Disjoint(d.subs, k) && StandingAt(d.subs, At(d.nodes, k), k)
    ensures StandingAt(Applied(d, i, f).subs, At(Applied(d, i, f).nodes, k), k)
  {
    var nodes, remote, prev := At(d.nodes, k), At(f.nodes, k), At(d.subs[i].names, k);
    var kept := Keep(nodes, prev + Names(remote));
    assert At(Applied(d, i, f).nodes, k) == kept + remote;
    NamesConcat(kept, remote);
    ApplyShips(d, i, f, k);
    forall j, n | 0 <= j < |d.subs| && j != i && n in At(d.subs[j].names, k) - Names(remote) ensures n in Names(kept) {
      assert n !in prev;
      NameKept(nodes, prev + Names(remote), n);
    }
  }

  lemma {:induction false} RemoveKeepsStanding(d: Doc, i: nat, k: Section)
    requires i < |d.subs| && Disjoint(d.subs, k) && StandingAt(d.subs, At(d.nodes, k), k)
    ensures StandingAt(Removed(d, i).subs, At(Removed(d, i).nodes, k), k) && Disjoint(Removed(d, i).subs, k)
  {
    var prev, subs' := At(d.subs[i].names, k), Removed(d, i).subs;
    assert At(subs'[i].names, k) == {} && forall j :: 0 <= j < |subs'| && j != i ==> subs'[j] == d.subs[j];
    assert At(Removed(d, i).nodes, k) == Keep(At(d.nodes, k), prev);
    forall j, n | 0 <= j < |d.subs| && j != i && n in At(d.subs[j].names, k)
      ensures n in Names(Keep(At(d.nodes, k), prev))
    {
      assert n !in prev;
      NameKept(At(d.nodes, k), prev, n);
    }
  }

  // ---- undoing ----

  lemma {:induction false} SubtractPrefix(a: seq<Rule>, b: seq<Rule>)
    ensures Subtract(a + b, multiset(a)) == b
  {
    if a == [] {
      assert a + b == b;
      SubtractNothing(b);
    } else {
      assert (a + b)[1..] == a[1..] + b && a == [a[0]] + a[1..];
      assert multiset(a) - multiset{a[0]} == multiset(a[1..]);
      SubtractPrefix(a[1..], b);
    }
  }

  lemma {:induction false} SubtractNothing(b: seq<Rule>)
    ensures Subtract(b, multiset{}) == b
  {
    if b == [] {
    } else {
      SubtractNothing(b[1..]);
    }
  }

  /** One section comes back if and only if the payload shadowed no node of
      it. */
  lemma {:induction false} SectionRestored(nodes: seq<Node>, remote: seq<Node>)
    requires forall i :: 0 <= i < |remote| ==> remote[i].name.Some?
    ensures Keep(Replaced(nodes, {}, remote), Names(remote)) == nodes <==> Names(nodes) !! Names(remote)
  {
    var names := Names(remote);
    assert {} + names == names;
    KeepConcat(Keep(nodes, names), remote, names);
    AllNamed(remote, names);
    KeepTwice(nodes, names, names);
    assert names + names == names;
    if Names(nodes) !! names {
      forall i | 0 <= i < |nodes| ensures !Dropped(nodes[i], names) {
        if nodes[i].name.Some? { assert nodes[i].name.value in Names(nodes); }
      }
      KeepNone(nodes, names);
    } else {
      var i :| 0 <= i < |nodes| && Dropped(nodes[i], names);
      FilterElements(nodes, (n: Node) => !Dropped(n, names));
      assert nodes[i] in nodes && nodes[i] !in Keep(nodes, names);
    }
  }

  /** Removing a subscription right after its first apply restores the rules
      exactly, and either section exactly, order included, if and only if the
      payload shadowed no node of it. */
  lemma {:induction false} RemoveUndoesApply(d: Doc, i: nat, f: Payload, k: Section)
    requires i < |d.subs| && d.subs[i].rules == [] && d.subs[i].names == Both({}, {}) && Named(f, k)
    ensures var d' := Removed(Applied(d, i, f), i);
            && d'.rules == d.rules
            && (At(d'.nodes, k) == At(d.nodes, k) <==> Names(At(d.nodes, k)) !! Names(At(f.nodes, k)))
  {
    SubtractNothing(d.rules);
    SubtractPrefix(f.rules, d.rules);
    SectionRestored(At(d.nodes, k), At(f.nodes, k));
  }

  // ---- any sequence of refreshes and removals ----

  datatype Op = Refresh(name: Name, payload: Payload) | Remove(name: Name)

  function Do(d: Doc, op: Op): Doc {
    match Find(d.subs, op.name)
    case None => d
    case Some(i) => if op.Refresh? then Applied(d, i, op.payload) else Removed(d, i)
  }

  function DoAll(d: Doc, ops: seq<Op>): Doc
    decreases |ops|
  {
    if ops == [] then d else DoAll(Do(d, ops[0]), ops[1..])
  }

  /** Names some payload of the sequence ships. */
  function Shipped(ops: seq<Op>, k: Section): set<Name> {
    if ops == [] then {}
    else (if ops[0].Refresh? then Names(At(ops[0].payload.nodes, k)) else {}) + Shipped(ops[1..], k)
  }

  /** Over any sequence of refreshes and removals, the rules nobody claims
      stay the same multiset. */
  lemma {:induction false} LocalRulesConserved(d: Doc, ops: seq<Op>)
    requires Backed(d)
    ensures Backed(DoAll(d, ops)) && LocalRules(DoAll(d, ops)) == LocalRules(d)
    decreases |ops|
  {
    if ops == [] {
    } else {
      match Find(d.subs, ops[0].name) {
        case None =>
        case Some(i) =>
          if ops[0].Refresh? { ApplyKeepsLocalRules(d, i, ops[0].payload); } else { RemoveKeepsLocalRules(d, i); }
      }
      LocalRulesConserved(Do(d, ops[0]), ops[1..]);
    }
  }

  /** And a local node survives unless a payload ships its name. */
  lemma {:induction false} LocalNodesSurvive(d: Doc, ops: seq<Op>, k: Section, n: Node)
    requires n in LocalNodes(d, k) && !Dropped(n, Shipped(ops, k))
    requires forall i :: 0 <= i < |ops| && ops[i].Refresh? ==> Named(ops[i].payload, k)
    ensures n in LocalNodes(DoAll(d, ops), k)
    decreases |ops|
  {
    if ops == [] {
    } else {
      match Find(d.subs, ops[0].name) {
        case None =>
        case Some(i) =>
          if ops[0].Refresh? {
            ApplyKeepsLocalNodes(d, i, ops[0].payload, k);
            KeepMember(LocalNodes(d, k), Names(At(ops[0].payload.nodes, k)), n);
          } else {
            RemoveKeepsLocalNodes(d, i, k);
          }
      }
      LocalNodesSurvive(Do(d, ops[0]), ops[1..], k, n);
    }
  }

  lemma {:induction false} OpKeepsStanding(d: Doc, op: Op, k: Section)
    requires Disjoint(d.subs, k) && StandingAt(d.subs, At(d.nodes, k), k)
    ensures Disjoint(Do(d, op).subs, k) && StandingAt(Do(d, op).subs, At(Do(d, op).nodes, k), k)
  {
    match Find(d.subs, op.name) {
      case None =>
      case Some(i) =>
        if op.Refresh? {
          ApplyKeepsStanding(d, i, op.payload, k);
          ApplyKeepsDisjoint(d, i, op.payload, k);
        } else {
          RemoveKeepsStanding(d, i, k);
        }
    }
  }

  /** Every claimed name has a node, and no name two claims. */
  ghost predicate ClaimsTrue(d: Doc) { Standing(d.subs, NamesOf(d.nodes)) && forall k :: Disjoint(d.subs, k) }

  /** Over any sequence of refreshes and removals both stay so, so that a
      removal always finds what it is to take out. */
  lemma {:induction false} ClaimsStayTrue(d: Doc, ops: seq<Op>)
    requires ClaimsTrue(d)
    ensures ClaimsTrue(DoAll(d, ops))
    decreases |ops|
  {
    if ops == [] {
    } else {
      var d' := Do(d, ops[0]);
      StandingSections(d.subs, d.nodes);
      forall k ensures Disjoint(d'.subs, k) && StandingAt(d'.subs, At(d'.nodes, k), k) {
        assert Disjoint(d.subs, k) && StandingAt(d.subs, At(d.nodes, k), k);
        OpKeepsStanding(d, ops[0], k);
      }
      StandingSections(d'.subs, d'.nodes);
      ClaimsStayTrue(d', ops[1..]);
    }
  }
}
