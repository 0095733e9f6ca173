/** The comparison that decides whether a commit may keep its resolver
    (`dns_inputs_equal`). */
module DnsInputs {
  import opened Wrappers
  import CommitState

  type Doc = CommitState.Doc

  /** An `IndexMap`: entries in document order, each key once. */
  type Entries = seq<(Doc, Doc)>

  predicate UniqueKeys(m: Entries) { forall i, j :: 0 <= i < j < |m| ==> m[i].0 != m[j].0 }

  /** The derived `==` of `IndexMap`, which ignores order. */
  predicate SameEntries(a: Entries, b: Entries) { |a| == |b| && forall i :: 0 <= i < |a| ==> a[i] in b }

  datatype DnsSection = DnsSection(policy: Option<Entries>, rest: Doc)

  datatype Document = Document(
    dns: Option<DnsSection>, hosts: Option<Entries>, ipv6: Doc, geodata: Doc, geoxUrl: Doc,
    proxies: Doc, groups: Doc, ruleProviders: Doc)

  function Policy(d: Document): Option<Entries> { if d.dns.Some? then d.dns.value.policy else None }

  /** The zip-and-compare pass. */
  predicate Pairwise(a: Entries, b: Entries) {
    |a| == |b| && (a == [] || (a[0].0 == b[0].0 && a[0].1 == b[0].1 && Pairwise(a[1..], b[1..])))
  }

  predicate OrderedEqual(a: Option<Entries>, b: Option<Entries>) {
    match (a, b)
    case (None, None) => true
    case (Some(x), Some(y)) => Pairwise(x, y)
    case _ => false
  }

  predicate SectionEqual(a: Option<DnsSection>, b: Option<DnsSection>) {
    match (a, b)
    case (None, None) => true
    case (Some(x), Some(y)) =>
      x.rest == y.rest && (match (x.policy, y.policy)
                           case (None, None) => true
                           case (Some(p), Some(q)) => SameEntries(p, q)
                           case _ => false)
    case _ => false
  }

  predicate InputsEqual(refs: Option<DnsSection> -> bool, a: Document, b: Document) {
    var base := OrderedEqual(a.hosts, b.hosts) && OrderedEqual(Policy(a), Policy(b)) && SectionEqual(a.dns, b.dns)
                && a.ipv6 == b.ipv6 && a.geodata == b.geodata && a.geoxUrl == b.geoxUrl;
    if !base || !(refs(a.dns) || refs(b.dns)) then base
    else a.proxies == b.proxies && a.groups == b.groups && a.ruleProviders == b.ruleProviders
  }

  /** The inputs a resolver is built from, in document order. */
  datatype Compared = Compared(dns: Option<DnsSection>, hosts: Option<Entries>, ipv6: Doc, geodata: Doc, geoxUrl: Doc,
                               sections: Option<(Doc, Doc, Doc)>)

  function ComparedOf(refs: Option<DnsSection> -> bool, d: Document): Compared {
    Compared(d.dns, d.hosts, d.ipv6, d.geodata, d.geoxUrl,
             if refs(d.dns) then Some((d.proxies, d.groups, d.ruleProviders)) else None)
  }

  lemma {:induction false} PairwiseIsEqual(a: Entries, b: Entries)
    ensures Pairwise(a, b) <==> a == b
  {
    if a == [] || |a| != |b| {
    } else {
      PairwiseIsEqual(a[1..], b[1..]);
      assert a == [a[0]] + a[1..] && b == [b[0]] + b[1..];
    }
  }

  /** The comparison is equality of everything the resolver is built from,
      document order included, for every pair of documents. */
  lemma {:induction false} InputsEqualExact(refs: Option<DnsSection> -> bool, a: Document, b: Document)
    ensures InputsEqual(refs, a, b) <==> ComparedOf(refs, a) == ComparedOf(refs, b)
  {
    if a.hosts.Some? && b.hosts.Some? { PairwiseIsEqual(a.hosts.value, b.hosts.value); }
    if Policy(a).Some? && Policy(b).Some? { PairwiseIsEqual(Policy(a).value, Policy(b).value); }
  }

  /** The order-insensitive `==` alone would miss every reordering. */
  lemma {:induction false} ReorderIsSeen(refs: Option<DnsSection> -> bool, d: Document, hosts: Entries, i: nat, j: nat)
    requires UniqueKeys(hosts) && i < j < |hosts| && d.hosts == Some(hosts)
    ensures var swapped := hosts[i := hosts[j]][j := hosts[i]];
            SameEntries(hosts, swapped) && !InputsEqual(refs, d, d.(hosts := Some(swapped)))
  {
    var swapped := hosts[i := hosts[j]][j := hosts[i]];
    forall k | 0 <= k < |hosts| ensures hosts[k] in swapped {
      assert swapped[if k == i then j else if k == j then i else k] == hosts[k];
    }
    assert swapped[i] == hosts[j];
    InputsEqualExact(refs, d, d.(hosts := Some(swapped)));
  }
}
