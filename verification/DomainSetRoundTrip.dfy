/** From entries through the file body back to text lines. */
module DomainSetRoundTrip {
  import opened Wrappers
  import opened Ordering
  import opened Bitmaps
  import opened DomainSet
  import opened DomainSetWriter
  import opened DomainSetReader
  import opened DomainSetBody
  import opened DomainText
  import opened DomainLines
  import opened WireFormat

  const READER_CAPS := Caps(4 * 1024 * 1024, 256 * 1024 * 1024, 4096)

  /** The reader as a function of the bytes: the domains it hands over, and
      how many keys were not text or why it stopped. */
  ghost function Decoded(data: Bytes): (seq<Bytes>, Result<int, ParseError>) {
    match Parsed(BigEndian(), data)
    case Err(e) => ([], Err(e))
    case Ok(d) => DecodedWalk(d, READER_CAPS)
  }

  ghost function DecodedWalk(d: Stored, caps: Caps): (seq<Bytes>, Result<int, ParseError>) {
    Outcome(WalkAll(d, caps, Start(d)))
  }

  function Outcome(walk: (seq<Bytes>, Option<WalkError>)): (seq<Bytes>, Result<int, ParseError>) {
    (Domains(walk.0), if walk.1.Some? then Err(WalkStopped(walk.1.value)) else Ok(|walk.0| - |Domains(walk.0)|))
  }

  /** `walk_upstream_domain_set`, collecting what it hands to its callback. */
  method WalkUpstreamDomainSet(data: Bytes) returns (domains: seq<Bytes>, r: Result<int, ParseError>)
    ensures (domains, r) == Decoded(data)
  {
    var body := ParseBody(BigEndian(), data);
    if body.Err? { return [], Err(body.error); }
    domains, r := CollectDomains(body.value, READER_CAPS);
  }

  method CollectDomains(d: Stored, caps: Caps) returns (domains: seq<Bytes>, r: Result<int, ParseError>)
    ensures (domains, r) == DecodedWalk(d, caps)
  {
    var ranks := BuildRanks(d.bitmap);
    var keys, stop := TraverseBounded(d, ranks, caps);
    var skipped;
    domains, skipped := DecodeKeys(keys);
    r := if stop.Some? then Err(WalkStopped(stop.value)) else Ok(skipped);
  }

  /** The domain arm of `convert-ruleset`. */
  method ConvertDomainSet(data: Bytes) returns (r: Result<(seq<Bytes>, int), ParseError>)
    ensures r == match Decoded(data).1
                 case Err(e) => Err(e)
                 case Ok(skipped) => Ok((DumpLines(Decoded(data).0), skipped))
  {
    var domains, decoded := WalkUpstreamDomainSet(data);
    if decoded.Err? { return Err(decoded.error); }
    var lines := DumpDomainLines(domains);
    r := Ok((lines, decoded.value));
  }

  // ---- what the writer's vectors look like to the reader ----

  /** The last node in breadth-first order is a key. */
  lemma {:induction false} LastNodeIsLeaf(keys: seq<Bytes>, d: Stored, t: Trie)
    requires Encodes(keys, d.leaves, d.bitmap, d.labels, t)
    ensures GetBit(d.leaves, |t.nodes| - 1)
  {
    var i := |t.nodes| - 1;
    assert NodeOk(keys, t, d.labels, i);
    assert KidsOf(t, d.labels, i) == [];
  }

  lemma {:induction false} RankBlank(bits: seq<Word>, m: nat, n: nat)
    requires m <= n && forall p: nat :: m <= p ==> !GetBit(bits, p)
    ensures Rank(bits, n) == Rank(bits, m)
  {
    if m >= n {
    } else {
      RankBlank(bits, m, n - 1);
    }
  }

  /** One terminator per node. */
  lemma {:induction false} TerminatorsAreNodes(keys: seq<Bytes>, d: Stored, t: Trie)
    requires Encodes(keys, d.leaves, d.bitmap, d.labels, t)
    ensures Rank(d.bitmap, 64 * |d.bitmap|) == |t.nodes| && d.bitmap != []
  {
    var n := |t.nodes|;
    RankAtStart(keys, d.leaves, d.bitmap, d.labels, t, n);
    BitInRange(d.bitmap, t.blocks[n] - 1);
    RankBlank(d.bitmap, t.blocks[n], 64 * |d.bitmap|);
  }

  lemma {:induction false} NoLabels(keys: seq<Bytes>, d: Stored, t: Trie)
    requires Encodes(keys, d.leaves, d.bitmap, d.labels, t)
    ensures d.labels == [] <==> keys == [[]]
  {
    assert NodeOk(keys, t, d.labels, 0);
    if d.labels == [] {
      assert KidsOf(t, d.labels, 0) == [];
      assert keys[0] == [];
    }
    if keys == [[]] {
      LastNodeIsLeaf(keys, d, t);
      RootOnly(keys, d, t);
    }
  }

  lemma {:induction false} RootOnly(keys: seq<Bytes>, d: Stored, t: Trie)
    requires Encodes(keys, d.leaves, d.bitmap, d.labels, t) && keys == [[]]
    ensures d.labels == []
  {
    if |t.nodes| > 1 {
      var n := t.nodes[1];
      assert NodeOk(keys, t, d.labels, 0);
      assert KidsOf(t, d.labels, 0) == [];
      assert t.blocks[1] == 1;
      assert Placed(t, d.labels, 0);
      ShortBlocks(keys, d, t, |t.nodes|);
    }
  }

  lemma {:induction false} ShortBlocks(keys: seq<Bytes>, d: Stored, t: Trie, i: nat)
    requires Encodes(keys, d.leaves, d.bitmap, d.labels, t) && keys == [[]] && i <= |t.nodes|
    ensures t.blocks[i] <= i
  {
    if i == 0 {
    } else {
      ShortBlocks(keys, d, t, i - 1);
      assert NodeOk(keys, t, d.labels, i - 1);
      assert KidsOf(t, d.labels, i - 1) == [];
    }
  }

  /** The body written for `entries` passes the header checks unless the only
      entry is the empty string. */
  lemma {:induction false} BodyParses(c: Codec, entries: seq<Bytes>, d: Stored, t: Trie)
    requires Lawful(c) && Allocatable(d)
    requires Encodes(StoredKeys(entries), d.leaves, d.bitmap, d.labels, t)
    ensures Parsed(c, Serialized(c, d))
         == if StoredKeys(entries) == [[]] then Err(InvalidLength(LabelsLen, 0)) else Ok(d)
  {
    var keys := StoredKeys(entries);
    LastNodeIsLeaf(keys, d, t);
    TerminatorsAreNodes(keys, d, t);
    NoLabels(keys, d, t);
    ParseSerialized(c, d);
  }

  lemma {:induction false} OnlyEmptyEntry(entries: seq<Bytes>)
    ensures StoredKeys(entries) == [[]] <==> entries == [[]]
  {
    LexIsTotalOrder();
    var rev := seq(|entries|, i requires 0 <= i < |entries| => Reversed(entries[i]));
    if StoredKeys(entries) == [[]] {
      assert multiset(rev) == multiset{[]};
      assert rev[0] in multiset(rev);
      assert entries == [entries[0]];
    }
    if entries == [[]] {
      assert rev == [[]];
      assert StoredKeys(entries)[0] in multiset(rev);
    }
  }

  /** Reading back a written body, for every list of distinct UTF-8 entries
      whose body a process can hold. The list holding only the empty string is
      rejected. Any other is accepted exactly when it is within the reader's
      caps, and then yields every ASCII entry, less a leading `+`, and counts
      the rest as skipped; otherwise the domains of the first stored keys are
      handed over before the reader stops. */
  lemma {:induction false} BodyReadsBack(entries: seq<Bytes>, body: Bytes)
    requires entries != [] && Distinct(entries) && IsBody(entries, body) && |body| < TWO63
    requires forall i :: 0 <= i < |entries| ==> Utf8(entries[i])
    ensures entries == [[]] ==> Decoded(body) == ([], Err(InvalidLength(LabelsLen, 0)))
    ensures entries != [[]] ==> (Decoded(body).1.Ok? <==> Fits(StoredKeys(entries), READER_CAPS))
    ensures Decoded(body).1.Ok? ==> ReadsAs(Decoded(body).0, Decoded(body).1.value, entries)
    ensures HandedFirst(Decoded(body).0, StoredKeys(entries))
  {
    var keys := StoredKeys(entries);
    var d: Stored :| Encoded(keys, d.leaves, d.bitmap, d.labels) && body == Serialized(BigEndian(), d);
    var t :| Encodes(keys, d.leaves, d.bitmap, d.labels, t) && |t.nodes| <= TotalLength(keys) + 1;
    BigEndianLawful();
    PartLengths(BigEndian(), d);
    BodyDecodes(BigEndian(), entries, d, t, body);
    OnceParsed(entries, d, t, Decoded(body));
  }

  /** The domains of the first keys. */
  ghost predicate HandedFirst(domains: seq<Bytes>, keys: seq<Bytes>) {
    exists n :: 0 <= n <= |keys| && domains == Domains(keys[..n])
  }

  lemma {:induction false} NothingHanded(keys: seq<Bytes>)
    ensures HandedFirst([], keys)
  {
    assert Domains(keys[..0]) == [];
  }

  lemma {:induction false} HandedPrefix(first: seq<Bytes>, keys: seq<Bytes>)
    requires first <= keys
    ensures HandedFirst(Domains(first), keys)
  {
    assert first == keys[..|first|];
  }

  lemma {:induction false} OutcomeReads(entries: seq<Bytes>, walk: (seq<Bytes>, Option<WalkError>))
    requires forall i :: 0 <= i < |entries| ==> Utf8(entries[i])
    requires walk.0 <= StoredKeys(entries) && (walk.1.None? ==> walk.0 == StoredKeys(entries))
    ensures Outcome(walk).1.Ok? ==> ReadsAs(Outcome(walk).0, Outcome(walk).1.value, entries)
    ensures HandedFirst(Outcome(walk).0, StoredKeys(entries))
  {
    HandedPrefix(walk.0, StoredKeys(entries));
    KeysReadAs(entries);
  }

  lemma {:induction false} StartCapped(d: Stored, caps: Caps)
    ensures Capped(Start(d).out, caps)
  {
    assert TotalLength(Start(d).out) == 0;
  }

  lemma {:induction false} WalkDecodes(entries: seq<Bytes>, caps: Caps, d: Stored, t: Trie)
    requires Encodes(StoredKeys(entries), d.leaves, d.bitmap, d.labels, t)
    requires forall i :: 0 <= i < |entries| ==> Utf8(entries[i])
    ensures DecodedWalk(d, caps).1.Ok? <==> Fits(StoredKeys(entries), caps)
    ensures DecodedWalk(d, caps).1.Ok? ==> ReadsAs(DecodedWalk(d, caps).0, DecodedWalk(d, caps).1.value, entries)
    ensures HandedFirst(DecodedWalk(d, caps).0, StoredKeys(entries))
  {
    WalkStarts(StoredKeys(entries), d, t);
    StartCapped(d, caps);
    WalkYieldsKeys(StoredKeys(entries), d, t, caps, Start(d));
    OutcomeReads(entries, WalkAll(d, caps, Start(d)));
  }

  lemma {:induction false} OnceParsed(entries: seq<Bytes>, d: Stored, t: Trie, r: (seq<Bytes>, Result<int, ParseError>))
    requires Encodes(StoredKeys(entries), d.leaves, d.bitmap, d.labels, t)
    requires forall i :: 0 <= i < |entries| ==> Utf8(entries[i])
    requires r == if entries == [[]] then ([], Err(InvalidLength(LabelsLen, 0))) else DecodedWalk(d, READER_CAPS)
    ensures entries != [[]] ==> (r.1.Ok? <==> Fits(StoredKeys(entries), READER_CAPS))
    ensures r.1.Ok? ==> ReadsAs(r.0, r.1.value, entries)
    ensures HandedFirst(r.0, StoredKeys(entries))
  {
    if entries == [[]] { NothingHanded(StoredKeys(entries)); } else { WalkDecodes(entries, READER_CAPS, d, t); }
  }

  lemma {:induction false} BodyDecodes(c: Codec, entries: seq<Bytes>, d: Stored, t: Trie, body: Bytes)
    requires c == BigEndian() && Lawful(c) && Allocatable(d) && body == Serialized(c, d)
    requires Encodes(StoredKeys(entries), d.leaves, d.bitmap, d.labels, t)
    requires forall i :: 0 <= i < |entries| ==> Utf8(entries[i])
    ensures entries == [[]] ==> Decoded(body) == ([], Err(InvalidLength(LabelsLen, 0)))
    ensures entries != [[]] ==> Decoded(body) == DecodedWalk(d, READER_CAPS)
  {
    BodyParses(c, entries, d, t);
    OnlyEmptyEntry(entries);
  }

  ghost predicate ReadsAs(domains: seq<Bytes>, skipped: int, entries: seq<Bytes>) {
    && multiset(domains) == multiset(Readable(entries)) && skipped == |entries| - |Readable(entries)|
    && DumpLines(domains) == DumpLines(Readable(entries))
  }

  lemma {:induction false} KeysReadAs(entries: seq<Bytes>)
    requires forall i :: 0 <= i < |entries| ==> Utf8(entries[i])
    ensures ReadsAs(Domains(StoredKeys(entries)), |entries| - |Domains(StoredKeys(entries))|, entries)
  {
    StoredKeysDecode(entries);
    assert |multiset(Domains(StoredKeys(entries)))| == |multiset(Readable(entries))|;
    DumpDeterministic(Domains(StoredKeys(entries)), Readable(entries));
  }
}
