/** What a domain entry means to the rule matcher: the trie's insert and
    search, on patterns. */
module DomainPatterns {
  import opened DomainLines
  import opened Ordering

  const STAR: byte := 42

  // ---- normalisation ----

  /** The characters `str::trim` drops, the White_Space of Unicode, by the
      bytes of their UTF-8 form: U+0009 to U+000D and U+0020; U+0085 and
      U+00A0; U+1680, U+2000 to U+200A, U+2028, U+2029, U+202F, U+205F and
      U+3000. */
  predicate Blank1(a: byte) { a == 32 || 9 <= a <= 13 }

  predicate Blank2(a: byte, b: byte) { a == 0xC2 && (b == 0x85 || b == 0xA0) }

  predicate Blank3(a: byte, b: byte, c: byte) {
    || (a == 0xE1 && b == 0x9A && c == 0x80)
    || (a == 0xE2 && b == 0x80 && (0x80 <= c <= 0x8A || c == 0xA8 || c == 0xA9 || c == 0xAF))
    || (a == 0xE2 && b == 0x81 && c == 0x9F)
    || (a == 0xE3 && b == 0x80 && c == 0x80)
  }

  /** The length of the blank character at the front, or at the end. */
  function LeadLen(s: Bytes): (n: nat)
    ensures n <= |s|
  {
    if |s| >= 1 && Blank1(s[0]) then 1
    else if |s| >= 2 && Blank2(s[0], s[1]) then 2
    else if |s| >= 3 && Blank3(s[0], s[1], s[2]) then 3
    else 0
  }

  function TailLen(s: Bytes): (n: nat)
    ensures n <= |s|
  {
    if |s| >= 1 && Blank1(s[|s| - 1]) then 1
    else if |s| >= 2 && Blank2(s[|s| - 2], s[|s| - 1]) then 2
    else if |s| >= 3 && Blank3(s[|s| - 3], s[|s| - 2], s[|s| - 1]) then 3
    else 0
  }

  predicate LeadBlank(s: Bytes) { LeadLen(s) > 0 }

  function TrimStart(s: Bytes): Bytes {
    if LeadBlank(s) then TrimStart(s[LeadLen(s)..]) else s
  }

  function TrimEnd(s: Bytes): Bytes {
    if TailLen(s) > 0 then TrimEnd(s[..|s| - TailLen(s)]) else s
  }

  /** An ASCII character that is no blank. */
  predicate Solid(b: byte) { b < 0x80 && !Blank1(b) }

  function LowerByte(b: byte): byte { if 65 <= b <= 90 then b + 32 else b }

  function Lower(s: Bytes): Bytes {
    if s == [] then [] else [LowerByte(s[0])] + Lower(s[1..])
  }

  function TrimDots(s: Bytes): Bytes {
    if s != [] && s[|s| - 1] == DOT then TrimDots(s[..|s| - 1]) else s
  }

  /** The text an insertion parses. */
  function Normal(entry: Bytes): Bytes { Lower(TrimStart(TrimEnd(entry))) }

  /** The text a search walks. */
  function Query(d: Bytes): Bytes { TrimDots(Normal(d)) }

  // ---- patterns ----

  /** A slot kind: the name itself, one more label, one or more. */
  datatype Kind = Exact | Star | Below

  datatype Pattern = Pattern(kind: Kind, base: Bytes)

  predicate IsStar(s: Bytes) { |s| >= 2 && s[0] == STAR && s[1] == DOT }

  function Slots(kinds: set<Kind>, base: Bytes): set<Pattern> {
    if base == [] then {} else set k | k in kinds :: Pattern(k, base)
  }

  /** The slots an entry fills; none when the trie rejects it. */
  function Patterns(entry: Bytes): set<Pattern> {
    var n := Normal(entry);
    if IsPlus(n) then Slots({Exact, Below}, TrimDots(n[2..]))
    else if IsStar(n) then Slots({Star}, TrimDots(n[2..]))
    else if Dotted(n) then Slots({Below}, TrimDots(n[1..]))
    else Slots({Exact}, TrimDots(n))
  }

  /** `d` has at least one more label than `x`, and ends in it. */
  predicate Under(d: Bytes, x: Bytes) { |d| > |x| && d[|d| - |x| - 1..] == Dot(x) }

  predicate Hits(p: Pattern, q: Bytes) {
    match p.kind
    case Exact => q == p.base
    case Below => Under(q, p.base)
    case Star => Under(q, p.base) && DOT !in q[..|q| - |p.base| - 1]
  }

  ghost predicate Catches(ps: set<Pattern>, q: Bytes) { exists p :: p in ps && Hits(p, q) }

  function PatternsOf(entries: set<Bytes>): set<Pattern> {
    set e, p | e in entries && p in Patterns(e) :: p
  }

  /** A search finds something. */
  ghost predicate Covers(entries: set<Bytes>, d: Bytes) {
    Query(d) != [] && Catches(PatternsOf(entries), Query(d))
  }

  // ---- case ----

  lemma {:induction false} LowerFacts(s: Bytes)
    ensures |Lower(s)| == |s| && forall i :: 0 <= i < |s| ==> Lower(s)[i] == LowerByte(s[i])
  {
    if s == [] {
    } else {
      LowerFacts(s[1..]);
    }
  }

  lemma {:induction false} LowerFixed(s: Bytes)
    requires forall i :: 0 <= i < |s| ==> LowerByte(s[i]) == s[i]
    ensures Lower(s) == s
  {
    LowerFacts(s);
  }

  /** The same byte, or an ASCII letter and its other case. */
  predicate SameLetter(a: byte, b: byte) {
    a == b || (65 <= a <= 90 && b == a + 32) || (65 <= b <= 90 && a == b + 32)
  }

  predicate SameText(a: Bytes, b: Bytes) { |a| == |b| && forall i :: 0 <= i < |a| ==> SameLetter(a[i], b[i]) }

  /** Folding identifies the two cases of a letter and nothing else. */
  lemma {:induction false} FoldExact(a: Bytes, b: Bytes)
    ensures Lower(a) == Lower(b) <==> SameText(a, b)
  {
    LowerFacts(a);
    LowerFacts(b);
    if Lower(a) == Lower(b) {
      forall i | 0 <= i < |a| ensures SameLetter(a[i], b[i]) { assert Lower(a)[i] == Lower(b)[i]; }
    }
  }

  lemma {:induction false} SameStart(a: Bytes, b: Bytes)
    requires SameText(a, b)
    ensures SameText(TrimStart(a), TrimStart(b))
    decreases |a|
  {
    if !LeadBlank(a) {
      assert !LeadBlank(b);
    } else {
      assert LeadLen(a) == LeadLen(b);
      SameStart(a[LeadLen(a)..], b[LeadLen(b)..]);
    }
  }

  lemma {:induction false} SameEnd(a: Bytes, b: Bytes)
    requires SameText(a, b)
    ensures SameText(TrimEnd(a), TrimEnd(b))
    decreases |a|
  {
    if TailLen(a) == 0 {
      assert TailLen(b) == 0;
    } else {
      assert TailLen(a) == TailLen(b);
      SameEnd(a[..|a| - TailLen(a)], b[..|b| - TailLen(b)]);
    }
  }

  /** Entries and names are matched whatever their case. */
  lemma {:induction false} CaseIgnored(a: Bytes, b: Bytes)
    requires SameText(a, b)
    ensures Patterns(a) == Patterns(b)
    ensures forall entries: set<Bytes> :: Covers(entries, a) <==> Covers(entries, b)
  {
    SameEnd(a, b);
    SameStart(TrimEnd(a), TrimEnd(b));
    FoldExact(TrimStart(TrimEnd(a)), TrimStart(TrimEnd(b)));
    assert Query(a) == Query(b);
  }

  // ---- what trimming and folding keep ----

  lemma {:induction false} TrimDotsFacts(s: Bytes)
    ensures TrimDots(s) <= s && (TrimDots(s) != [] ==> TrimDots(s)[|TrimDots(s)| - 1] != DOT)
    ensures forall i :: |TrimDots(s)| <= i < |s| ==> s[i] == DOT
  {
    if s == [] || s[|s| - 1] != DOT {
    } else {
      TrimDotsFacts(s[..|s| - 1]);
    }
  }

  lemma {:induction false} TrimDotsCons(c: byte, s: Bytes)
    requires TrimDots(s) != [] || c != DOT
    ensures TrimDots([c] + s) == [c] + TrimDots(s)
  {
    var t := [c] + s;
    if s != [] && s[|s| - 1] == DOT {
      assert t[..|t| - 1] == [c] + s[..|s| - 1];
      TrimDotsCons(c, s[..|s| - 1]);
    } else if s == [] {
      assert t == [c];
    }
  }

  /** A text that starts with a blank keeps it however it goes on. */
  lemma {:induction false} LeadExtends(s: Bytes, t: Bytes)
    requires s <= t
    ensures LeadBlank(s) ==> LeadLen(t) == LeadLen(s)
  {
  }

  /** And however it ends: a blank cut off the end is not part of it. */
  lemma {:induction false} LeadSurvives(s: Bytes)
    requires LeadBlank(s) && TailLen(s) > 0
    ensures var t := s[..|s| - TailLen(s)]; t == [] || LeadBlank(t)
  {
    var t := s[..|s| - TailLen(s)];
    assert t == [] || |t| >= LeadLen(s);
  }

  lemma {:induction false} TrimEndFacts(s: Bytes)
    ensures TrimEnd(s) <= s && TailLen(TrimEnd(s)) == 0
    ensures LeadBlank(s) ==> TrimEnd(s) == [] || LeadBlank(TrimEnd(s))
    ensures s != [] && !LeadBlank(s) ==> TrimEnd(s) != [] && !LeadBlank(TrimEnd(s))
  {
    if TailLen(s) == 0 {
    } else {
      var t := s[..|s| - TailLen(s)];
      TrimEndFacts(t);
      LeadExtends(t, s);
      LeadExtends(TrimEnd(t), s);
      if LeadBlank(s) { LeadSurvives(s); }
      if t == [] { assert LeadLen(s) == TailLen(s); }
    }
  }

  lemma {:induction false} TrimEndCons(c: byte, s: Bytes)
    requires Solid(c)
    ensures TrimEnd([c] + s) == [c] + TrimEnd(s)
  {
    var t := [c] + s;
    assert TailLen(t) == TailLen(s);
    if TailLen(s) == 0 {
    } else {
      assert t[..|t| - TailLen(t)] == [c] + s[..|s| - TailLen(s)];
      TrimEndCons(c, s[..|s| - TailLen(s)]);
    }
  }

  lemma {:induction false} TrimStartFacts(s: Bytes)
    ensures |TrimStart(s)| <= |s| && !LeadBlank(TrimStart(s)) && TrimStart(s) == s[|s| - |TrimStart(s)|..]
    ensures LeadBlank(s) ==> |TrimStart(s)| < |s|
  {
    if !LeadBlank(s) {
    } else {
      TrimStartFacts(s[LeadLen(s)..]);
    }
  }

  lemma {:induction false} LowerLead(s: Bytes)
    ensures LeadLen(Lower(s)) == LeadLen(s)
  {
    LowerFacts(s);
  }

  /** A base a slot can have. */
  ghost predicate Based(b: Bytes) {
    b != [] && b[|b| - 1] != DOT && forall i :: 0 <= i < |b| ==> LowerByte(b[i]) == b[i]
  }

  lemma {:induction false} NormalFacts(s: Bytes)
    ensures !LeadBlank(Normal(s))
    ensures forall i :: 0 <= i < |Normal(s)| ==> LowerByte(Normal(s)[i]) == Normal(s)[i]
  {
    TrimStartFacts(TrimEnd(s));
    LowerFacts(TrimStart(TrimEnd(s)));
    LowerLead(TrimStart(TrimEnd(s)));
  }

  lemma {:induction false} TailBased(n: Bytes, k: nat)
    requires k <= |n| && forall i :: 0 <= i < |n| ==> LowerByte(n[i]) == n[i]
    ensures TrimDots(n[k..]) != [] ==> Based(TrimDots(n[k..]))
  {
    TrimDotsFacts(n[k..]);
  }

  lemma {:induction false} PatternBased(entry: Bytes, p: Pattern)
    requires p in Patterns(entry)
    ensures Based(p.base)
  {
    NormalFacts(entry);
    var n := Normal(entry);
    if IsPlus(n) || IsStar(n) {
      TailBased(n, 2);
      assert p.base == TrimDots(n[2..]);
    } else if Dotted(n) {
      TailBased(n, 1);
      assert p.base == TrimDots(n[1..]);
    } else {
      TailBased(n, 0);
      assert p.base == TrimDots(n) && n[0..] == n;
    }
  }

  /** The texts a search can walk: bases that do not start with a blank. */
  ghost predicate IsQuery(q: Bytes) { Based(q) && !LeadBlank(q) }

  lemma {:induction false} QueryShape(d: Bytes)
    ensures Query(d) != [] ==> IsQuery(Query(d))
  {
    NormalFacts(d);
    TrimDotsFacts(Normal(d));
    LeadExtends(Query(d), Normal(d));
  }

  /** Every such text is walked: by the name with a dot behind it. */
  lemma {:induction false} QueryReached(q: Bytes)
    requires IsQuery(q)
    ensures Query(q + [DOT]) == q
  {
    var d := q + [DOT];
    assert TrimEnd(d) == d && TrimStart(d) == d;
    LowerFixed(d);
    assert Normal(d) == d;
    assert d[|d| - 1] == DOT && d[..|d| - 1] == q;
    assert TrimDots(d) == TrimDots(q) == q;
  }

  // ---- one pattern set inside another ----

  predicate Within(y: Bytes, z: Bytes) { y == z || Under(y, z) }

  lemma {:induction false} UnderWithin(d: Bytes, y: Bytes, z: Bytes)
    requires Under(d, y) && Within(y, z)
    ensures Under(d, z)
  {
    if y != z {
      assert d[|d| - |z| - 1..] == d[|d| - |y| - 1..][|y| - |z|..];
      assert Dot(y)[|y| - |z|..] == y[|y| - |z| - 1..];
    }
  }

  /** Some pattern of `ps` hits whatever `p` hits, decided on the bases. */
  ghost predicate Subsumed(ps: set<Pattern>, p: Pattern) {
    match p.kind
    case Exact => LeadBlank(p.base) || Catches(ps, p.base)
    case Star => p in ps || exists o :: o in ps && o.kind == Below && Within(p.base, o.base)
    case Below => exists o :: o in ps && o.kind == Below && Within(p.base, o.base)
  }

  lemma {:induction false} SubsumedHits(ps: set<Pattern>, p: Pattern, q: Bytes)
    requires Subsumed(ps, p) && IsQuery(q) && Hits(p, q)
    ensures Catches(ps, q)
  {
    if p.kind != Exact && !(p.kind == Star && p in ps) {
      var o :| o in ps && o.kind == Below && Within(p.base, o.base);
      UnderWithin(q, p.base, o.base);
      assert Hits(o, q);
    }
  }

  /** A name one label below `b`; the label is `n` bytes long. */
  function Probe(n: nat, b: Bytes): Bytes { seq(n, _ => 97) + Dot(b) }

  lemma {:induction false} ProbeFacts(n: nat, b: Bytes)
    requires Based(b) && n > 0
    ensures IsQuery(Probe(n, b)) && |Probe(n, b)| == n + 1 + |b|
    ensures Hits(Pattern(Star, b), Probe(n, b)) && Hits(Pattern(Below, b), Probe(n, b))
  {
    var q := Probe(n, b);
    assert q[n..] == Dot(b);
    assert q[..n] == seq(n, _ => 97);
    assert forall i :: n < i < |q| ==> q[i] == b[i - n - 1];
  }

  /** Only a wildcard on `b`, or a suffix of it, can hit a name below `b`
      whose next label is longer than every base. */
  lemma {:induction false} ProbeShows(o: Pattern, n: nat, b: Bytes)
    requires Hits(o, Probe(n, b)) && |o.base| < n
    ensures (o.kind == Star && o.base == b) || (o.kind == Below && Within(b, o.base))
  {
    var q := Probe(n, b);
    var at := |q| - |o.base| - 1;
    assert forall i :: 0 <= i < n ==> q[i] == 97;
    assert q[at..] == Dot(o.base);
    assert q[at] == DOT;
    assert at >= n && q[n] == DOT;
    if at > n {
      assert q[..at][n] == DOT;
      assert q[at..] == b[at - n - 1..];
    } else {
      assert q[n..] == Dot(b) && Dot(b)[1..] == b && Dot(o.base)[1..] == o.base;
    }
  }

  lemma {:induction false} DeepProbeShows(o: Pattern, n: nat, b: Bytes)
    requires Hits(o, Probe(n, Probe(n, b))) && |o.base| < n
    ensures o.kind == Below && Within(b, o.base)
  {
    var c := Probe(n, b);
    assert |c| > n;
    ProbeShows(o, n, c);
    assert Hits(Pattern(Below, o.base), c);
    ProbeShows(Pattern(Below, o.base), n, b);
  }

  ghost function Longest(ps: set<Pattern>): (n: nat)
    ensures forall p :: p in ps ==> |p.base| <= n
  {
    if ps == {} then 0
    else
      var p :| p in ps;
      var n := Longest(ps - {p});
      if |p.base| > n then |p.base| else n
  }

  lemma {:induction false} MustBeSubsumed(ps: set<Pattern>, p: Pattern)
    requires Based(p.base)
    requires forall q :: IsQuery(q) && Hits(p, q) ==> Catches(ps, q)
    ensures Subsumed(ps, p)
  {
    var n := Longest(ps) + 1;
    ProbeFacts(n, p.base);
    match p.kind {
      case Exact =>
      case Star =>
        var o :| o in ps && Hits(o, Probe(n, p.base));
        ProbeShows(o, n, p.base);
        assert o.kind == Star ==> o == p;
      case Below =>
        ProbeFacts(n, Probe(n, p.base));
        UnderWithin(Probe(n, Probe(n, p.base)), Probe(n, p.base), p.base);
        assert Hits(p, Probe(n, Probe(n, p.base)));
        var o :| o in ps && Hits(o, Probe(n, Probe(n, p.base)));
        DeepProbeShows(o, n, p.base);
    }
  }

  /** For every pattern and every finite set of patterns: all names the
      pattern hits are caught if and only if a finite test on the bases
      succeeds. */
  lemma {:induction false} SubsumedExact(ps: set<Pattern>, p: Pattern)
    requires Based(p.base)
    ensures Subsumed(ps, p) <==> forall q :: IsQuery(q) && Hits(p, q) ==> Catches(ps, q)
  {
    if Subsumed(ps, p) {
      forall q | IsQuery(q) && Hits(p, q) ensures Catches(ps, q) { SubsumedHits(ps, p, q); }
    }
    if forall q :: IsQuery(q) && Hits(p, q) ==> Catches(ps, q) { MustBeSubsumed(ps, p); }
  }

  /** Every name the entries `a` match, the entries `b` match. */
  ghost predicate CoveredBy(a: set<Bytes>, b: set<Bytes>) {
    forall d :: Covers(a, d) ==> Covers(b, d)
  }

  /** For all finite entry lists: one matches no more than the other if and
      only if each of its patterns passes the finite test. */
  lemma {:induction false} CoveredExact(a: set<Bytes>, b: set<Bytes>)
    ensures CoveredBy(a, b) <==> forall e, p :: e in a && p in Patterns(e) ==> Subsumed(PatternsOf(b), p)
  {
    var ps := PatternsOf(b);
    if CoveredBy(a, b) {
      forall e, p | e in a && p in Patterns(e) ensures Subsumed(ps, p) {
        PatternBased(e, p);
        forall q | IsQuery(q) && Hits(p, q) ensures Catches(ps, q) {
          QueryReached(q);
          assert p in PatternsOf(a);
          assert Covers(a, q + [DOT]);
        }
        SubsumedExact(ps, p);
      }
    }
    if forall e, p :: e in a && p in Patterns(e) ==> Subsumed(ps, p) {
      forall d | Covers(a, d) ensures Covers(b, d) {
        var p :| p in PatternsOf(a) && Hits(p, Query(d));
        QueryShape(d);
        SubsumedHits(ps, p, Query(d));
      }
    }
  }
}
