/** The label trie of the rule matcher: insertion and the walk of a search,
    node by node. */
module DomainTrie {
  import opened DomainLines
  import opened DomainPatterns
  import opened Ordering

  /** The text split at its dots. */
  function Labels(s: Bytes): (r: seq<Bytes>)
    ensures |r| >= 1
  {
    if s == [] then [[]]
    else
      var r := Labels(s[1..]);
      if s[0] == DOT then [[]] + r else [[s[0]] + r[0]] + r[1..]
  }

  lemma {:induction false} LabelsConcat(u: Bytes, v: Bytes)
    ensures Labels(u + Dot(v)) == Labels(u) + Labels(v)
  {
    var q := u + Dot(v);
    if u == [] {
      assert q == Dot(v) && q[1..] == v;
    } else {
      assert q[1..] == u[1..] + Dot(v);
      LabelsConcat(u[1..], v);
    }
  }

  lemma {:induction false} LabelsInjective(a: Bytes, b: Bytes)
    requires Labels(a) == Labels(b)
    ensures a == b
  {
    if a == [] || b == [] {
      if a != [] { FirstLabel(a); }
      if b != [] { FirstLabel(b); }
    } else {
      assert a[0] == b[0] by { FirstLabel(a); FirstLabel(b); }
      assert Labels(a[1..]) == Labels(b[1..]) by { Unlabel(a); Unlabel(b); }
      LabelsInjective(a[1..], b[1..]);
      assert a == [a[0]] + a[1..] && b == [b[0]] + b[1..];
    }
  }

  lemma {:induction false} FirstLabel(s: Bytes)
    requires s != []
    ensures s[0] == DOT <==> Labels(s)[0] == []
    ensures s[0] == DOT ==> |Labels(s)| > 1
    ensures s[0] != DOT ==> Labels(s)[0] != [] && Labels(s)[0][0] == s[0]
  {
  }

  lemma {:induction false} Unlabel(s: Bytes)
    requires s != []
    ensures Labels(s[1..]) == if s[0] == DOT then Labels(s)[1..] else [Labels(s)[0][1..]] + Labels(s)[1..]
  {
    var r := Labels(s[1..]);
    assert r == [r[0]] + r[1..];
  }

  /** The text in front of the labels from the `i`th on. */
  lemma {:induction false} SplitAt(q: Bytes, i: nat) returns (u: Bytes, v: Bytes)
    requires 1 <= i < |Labels(q)|
    ensures q == u + Dot(v) && |Labels(u)| == i && Labels(v) == Labels(q)[i..]
  {
    var r := Labels(q[1..]);
    if q[0] == DOT && i == 1 {
      u, v := [], q[1..];
      assert q == [q[0]] + q[1..];
    } else {
      var w;
      w, v := SplitAt(q[1..], if q[0] == DOT then i - 1 else i);
      u := [q[0]] + w;
      assert u[1..] == w;
      assert q == [q[0]] + q[1..];
    }
  }

  lemma {:induction false} OneLabel(u: Bytes)
    ensures |Labels(u)| == 1 <==> DOT !in u
  {
    if u == [] {
    } else {
      OneLabel(u[1..]);
      assert u == [u[0]] + u[1..];
    }
  }

  // ---- patterns by labels ----

  type Slot = (Kind, seq<Bytes>)

  function SlotOf(p: Pattern): Slot { (p.kind, Labels(p.base)) }

  function SlotsOf(ps: set<Pattern>): set<Slot> { set p | p in ps :: SlotOf(p) }

  /** What the walk looks for at the node of the labels from `i` on. */
  predicate FoundAt(slots: set<Slot>, labels: seq<Bytes>, i: nat)
    requires i < |labels|
  {
    if i == 0 then (Exact, labels[i..]) in slots
    else (i == 1 && (Star, labels[i..]) in slots) || (Below, labels[i..]) in slots
  }

  ghost predicate FoundFrom(slots: set<Slot>, labels: seq<Bytes>, i: nat) {
    exists k :: i <= k < |labels| && FoundAt(slots, labels, k)
  }

  lemma {:induction false} HitsFoundAt(p: Pattern, q: Bytes) returns (i: nat)
    requires Hits(p, q)
    ensures i < |Labels(q)| && FoundAt({SlotOf(p)}, Labels(q), i)
  {
    if p.kind == Exact {
      i := 0;
      assert Labels(q)[0..] == Labels(q);
    } else {
      var u := q[..|q| - |p.base| - 1];
      assert q == u + Dot(p.base);
      LabelsConcat(u, p.base);
      OneLabel(u);
      i := |Labels(u)|;
      assert Labels(q)[i..] == Labels(p.base);
    }
  }

  lemma {:induction false} FoundAtHits(p: Pattern, q: Bytes, i: nat)
    requires i < |Labels(q)| && FoundAt({SlotOf(p)}, Labels(q), i)
    ensures Hits(p, q)
  {
    if i == 0 {
      assert Labels(q)[0..] == Labels(q);
      LabelsInjective(q, p.base);
    } else {
      var u, v := SplitAt(q, i);
      LabelsInjective(v, p.base);
      OneLabel(u);
      assert q[..|u|] == u && q[|u|..] == Dot(v);
    }
  }

  /** For every pattern set and every name: some pattern hits the name if and
      only if the walk over its labels meets a slot. */
  lemma {:induction false} CatchesByLabels(ps: set<Pattern>, slots: set<Slot>, q: Bytes)
    requires slots == SlotsOf(ps)
    ensures Catches(ps, q) <==> FoundFrom(slots, Labels(q), 0)
  {
    if Catches(ps, q) {
      var p :| p in ps && Hits(p, q);
      var i := HitsFoundAt(p, q);
      assert FoundAt(slots, Labels(q), i);
    }
    if i :| 0 <= i < |Labels(q)| && FoundAt(slots, Labels(q), i) {
      var kind: Kind :| (kind, Labels(q)[i..]) in slots && FoundAt({(kind, Labels(q)[i..])}, Labels(q), i);
      var p :| p in ps && SlotOf(p) == (kind, Labels(q)[i..]);
      FoundAtHits(p, q, i);
    }
  }

  lemma {:induction false} SlotsGrow(entries: set<Bytes>, domain: Bytes)
    ensures SlotsOf(PatternsOf(entries + {domain})) == SlotsOf(PatternsOf(entries)) + SlotsOf(Patterns(domain))
  {
    assert PatternsOf(entries + {domain}) == PatternsOf(entries) + Patterns(domain);
  }

  lemma {:induction false} FoundStep(slots: set<Slot>, labels: seq<Bytes>, i: nat)
    requires i < |labels|
    ensures FoundFrom(slots, labels, i) <==> FoundAt(slots, labels, i) || FoundFrom(slots, labels, i + 1)
  {
    if FoundFrom(slots, labels, i) {
      var k :| i <= k < |labels| && FoundAt(slots, labels, k);
      assert k != i ==> i + 1 <= k;
    }
  }

  // ---- the trie ----

  class Trie {
    /** The nodes below the root, each by the labels on its path. */
    var nodes: set<seq<Bytes>>
    /** The filled slots. */
    var slots: set<Slot>
    /** The texts inserted so far. */
    ghost var entries: set<Bytes>

    ghost predicate Valid()
      reads this
    {
      && slots == SlotsOf(PatternsOf(entries))
      && (forall s, i :: s in slots && 0 <= i < |s.1| ==> s.1[i..] in nodes)
    }

    constructor ()
      ensures Valid() && entries == {}
    {
      nodes, slots, entries := {}, {}, {};
    }

    method InsertIntoTree(kind: Kind, base: Bytes)
      modifies this
      ensures slots == old(slots) + {SlotOf(Pattern(kind, base))} && entries == old(entries)
      ensures old(nodes) <= nodes && forall i :: 0 <= i < |Labels(base)| ==> Labels(base)[i..] in nodes
    {
      var labels := Labels(base);
      var i := |labels|;
      while i > 0
        invariant 0 <= i <= |labels| && slots == old(slots) && entries == old(entries)
        invariant old(nodes) <= nodes && forall k :: i <= k < |labels| ==> labels[k..] in nodes
      {
        i := i - 1;
        nodes := nodes + {labels[i..]};
      }
      slots := slots + {(kind, labels)};
    }

    method Insert(domain: Bytes) returns (ok: bool)
      requires Valid()
      modifies this
      ensures Valid() && entries == old(entries) + {domain}
      ensures ok <==> Patterns(domain) != {}
    {
      var n := Normal(domain);
      if IsPlus(n) {
        var base := TrimDots(n[2..]);
        ok := base != [];
        if ok {
          InsertIntoTree(Exact, base);
          InsertIntoTree(Below, base);
          assert Patterns(domain) == {Pattern(Exact, base), Pattern(Below, base)};
        }
      } else {
        var kind := if IsStar(n) then Star else if Dotted(n) then Below else Exact;
        var base := TrimDots(if IsStar(n) then n[2..] else if Dotted(n) then n[1..] else n);
        ok := base != [];
        if ok {
          InsertIntoTree(kind, base);
          assert Patterns(domain) == {Pattern(kind, base)};
        }
      }
      assert slots == old(slots) + SlotsOf(Patterns(domain));
      SlotsGrow(entries, domain);
      entries := entries + {domain};
    }

    /** The walk: from the last label up, stopping at the first missing
        node. */
    method Search(domain: Bytes) returns (found: bool)
      requires Valid()
      ensures found <==> Covers(entries, domain)
    {
      var query := Query(domain);
      if query == [] { return false; }
      CatchesByLabels(PatternsOf(entries), slots, query);
      found := Walk(Labels(query));
    }

    method Walk(labels: seq<Bytes>) returns (found: bool)
      requires Valid()
      ensures found <==> FoundFrom(slots, labels, 0)
    {
      found := false;
      var i := |labels|;
      while i > 0
        invariant 0 <= i <= |labels|
        invariant found <==> FoundFrom(slots, labels, i)
      {
        if labels[i - 1..] !in nodes {
          forall k | 0 <= k < i ensures !FoundAt(slots, labels, k) { NoSlotAbove(labels, k, i - 1); }
          return;
        }
        i := i - 1;
        FoundStep(slots, labels, i);
        if i == 0 {
          if (Exact, labels[i..]) in slots { return true; }
        } else if i == 1 && (Star, labels[i..]) in slots {
          found := true;
        } else if (Below, labels[i..]) in slots {
          found := true;
        }
      }
    }

    /** A slot further up would have made the missing node. */
    lemma {:induction false} NoSlotAbove(labels: seq<Bytes>, k: nat, i: nat)
      requires Valid() && k <= i < |labels| && labels[i..] !in nodes
      ensures !FoundAt(slots, labels, k)
    {
      assert labels[k..][i - k..] == labels[i..];
    }
  }
}
