/** Which names the merged lines match, against which names the entries
    match, and the trie walk behind both. */
module DomainCoverage {
  import opened DomainLines
  import opened DomainPatterns
  import opened Ordering

  // ---- the two halves of a merge ----

  /** The base the lines `.x` and `+.x` are stored under. */
  function Root(x: Bytes): Bytes { TrimDots(Lower(TrimEnd(x))) }

  lemma {:induction false} NormalAfter(c: byte, s: Bytes)
    requires Solid(c) && LowerByte(c) == c
    ensures Normal([c] + s) == [c] + Lower(TrimEnd(s))
  {
    TrimEndCons(c, s);
    var t := [c] + TrimEnd(s);
    assert TrimStart(t) == t && t[1..] == TrimEnd(s);
  }

  lemma {:induction false} DotPatterns(x: Bytes)
    ensures Patterns(Dot(x)) == Slots({Below}, Root(x))
  {
    NormalAfter(DOT, x);
    var n := Normal(Dot(x));
    assert n[1..] == Lower(TrimEnd(x));
  }

  lemma {:induction false} PlusPatterns(x: Bytes)
    ensures Patterns(Plus(x)) == Slots({Exact, Below}, Root(x))
  {
    assert Plus(x) == [PLUS] + Dot(x);
    NormalAfter(PLUS, Dot(x));
    TrimEndCons(DOT, x);
    var e := [DOT] + TrimEnd(x);
    assert e[1..] == TrimEnd(x);
    assert Lower(e) == [DOT] + Lower(TrimEnd(x));
    var n := Normal(Plus(x));
    assert n == [PLUS] + ([DOT] + Lower(TrimEnd(x)));
    assert n[2..] == Lower(TrimEnd(x));
  }

  /** A bare entry without a leading blank is read as it stands. */
  lemma {:induction false} BareNormal(x: Bytes)
    requires !LeadBlank(x)
    ensures Normal(x) == Lower(TrimEnd(x))
    ensures IsPlus(Normal(x)) == IsPlus(x) && IsStar(Normal(x)) == IsStar(x) && Dotted(Normal(x)) == Dotted(x)
  {
    var t := TrimEnd(x);
    TrimEndFacts(x);
    assert TrimStart(t) == t;
    LowerFacts(t);
    if x != [] {
      assert t[0] == x[0];
      if |x| >= 2 && x[1] == DOT { TrimEndKeeps(x, 1); }
    }
  }

  lemma {:induction false} TrimEndKeeps(s: Bytes, i: nat)
    requires i < |s| && Solid(s[i])
    ensures |TrimEnd(s)| > i
  {
    if TailLen(s) == 0 {
    } else {
      TrimEndKeeps(s[..|s| - TailLen(s)], i);
    }
  }

  lemma {:induction false} PlainPatterns(x: Bytes)
    requires !LeadBlank(x) && !IsPlus(x) && !IsStar(x) && !Dotted(x)
    ensures Patterns(x) == Slots({Exact}, Root(x))
  {
    BareNormal(x);
  }

  // ---- one pair ----

  /** The pair `x`, `.x` means what `+.x` means. */
  predicate MergeKeeps(x: Bytes) {
    if LeadBlank(x) then Patterns(x) == {} else !IsPlus(x) && !IsStar(x)
  }

  lemma {:induction false} SlotsOf(e: Bytes)
    ensures PatternsOf({e}) == Patterns(e)
  {
  }

  /** Cutting the front off a text cuts as much off its trimmed form. */
  lemma {:induction false} TrimDotsTail(s: Bytes, k: nat)
    requires k <= |s| && TrimDots(s[k..]) != []
    ensures |TrimDots(s)| == k + |TrimDots(s[k..])|
  {
    if k == 0 {
      assert s[0..] == s;
    } else {
      assert s[k - 1..] == [s[k - 1]] + s[k..];
      TrimDotsCons(s[k - 1], s[k..]);
      TrimDotsTail(s, k - 1);
    }
  }

  /** Nothing stored under a longer base matches all of a shorter one. */
  lemma {:induction false} ShorterEscapes(b: Bytes, p: Pattern)
    requires |p.base| < |b| && (p.kind == Exact ==> !LeadBlank(p.base))
    ensures !Subsumed(Slots({Exact, Below}, b), p)
  {
    assert forall o :: o in Slots({Exact, Below}, b) ==> o.base == b && o.kind != Star;
  }

  /** Every base of an entry with a leading blank, or with a wildcard prefix,
      is shorter than its root. */
  lemma {:induction false} BaseShorter(x: Bytes, p: Pattern)
    requires p in Patterns(x) && (LeadBlank(x) || IsPlus(x) || IsStar(x))
    ensures |p.base| < |Root(x)|
  {
    var e := Lower(TrimEnd(x));
    var n := Normal(x);
    NormalIsTail(x);
    assert n == e[|e| - |n|..];
    var k := Prefix(n);
    BaseIs(x, p);
    assert n[k..] == e[|e| - |n| + k..];
    TrimDotsTail(e, |e| - |n| + k);
    SomethingCut(x);
  }

  lemma {:induction false} SomethingCut(x: Bytes)
    requires LeadBlank(x) || IsPlus(x) || IsStar(x)
    requires Normal(x) != [] && |Normal(x)| <= |Lower(TrimEnd(x))|
    ensures |Lower(TrimEnd(x))| - |Normal(x)| + Prefix(Normal(x)) > 0
  {
    NormalIsTail(x);
    if !LeadBlank(x) { BareNormal(x); }
  }

  /** How much of the normal form is wildcard prefix. */
  function Prefix(n: Bytes): (k: nat)
    ensures k <= |n|
  {
    if IsPlus(n) || IsStar(n) then 2 else if Dotted(n) then 1 else 0
  }

  lemma {:induction false} BaseIs(x: Bytes, p: Pattern)
    requires p in Patterns(x)
    ensures p.base == TrimDots(Normal(x)[Prefix(Normal(x))..]) != []
  {
    var n := Normal(x);
    assert n[0..] == n;
  }

  lemma {:induction false} NormalIsTail(x: Bytes)
    ensures var e := Lower(TrimEnd(x));
            |Normal(x)| <= |e| && Normal(x) == e[|e| - |Normal(x)|..]
            && (LeadBlank(x) && Normal(x) != [] ==> |Normal(x)| < |e|)
  {
    var t := TrimEnd(x);
    TrimEndFacts(x);
    TrimStartFacts(t);
    LowerFacts(t);
    LowerFacts(TrimStart(t));
  }

  /** A merge loses something exactly when the trie accepts `x` with a
      leading blank or a wildcard prefix. */
  lemma {:induction false} PairLoss(x: Bytes)
    requires !Dotted(x)
    ensures (forall p :: p in Patterns(x) ==> Subsumed(Slots({Exact, Below}, Root(x)), p))
            <==> Patterns(x) == {} || MergeKeeps(x)
  {
    if Patterns(x) != {} {
      if MergeKeeps(x) {
        PlainPatterns(x);
        assert Hits(Pattern(Exact, Root(x)), Root(x));
      } else {
        var p := Telling(x);
        BaseShorter(x, p);
        ShorterEscapes(Root(x), p);
      }
    }
  }

  /** A pattern of `x` that the merged line cannot replace. */
  lemma {:induction false} Telling(x: Bytes) returns (p: Pattern)
    requires Patterns(x) != {}
    ensures p in Patterns(x) && (p.kind == Exact ==> !LeadBlank(p.base))
  {
    var n := Normal(x);
    NormalFacts(x);
    if IsPlus(n) {
      p := Pattern(Below, TrimDots(n[2..]));
    } else {
      p :| p in Patterns(x);
      TrimDotsFacts(n);
      LeadExtends(TrimDots(n), n);
    }
  }

  /** The root of `x` itself starts with a blank, or is empty, only if `x`
      does. */
  lemma {:induction false} RootLead(x: Bytes)
    ensures LeadBlank(x) ==> Root(x) == [] || LeadBlank(Root(x))
    ensures IsPlus(x) || IsStar(x) ==> Root(x) != [] && !LeadBlank(Root(x))
  {
    var t := TrimEnd(x);
    TrimEndFacts(x);
    LowerFacts(t);
    LowerLead(t);
    TrimDotsFacts(Lower(t));
    if LeadBlank(x) && t != [] { DotsKeepLead(Lower(t)); }
    if IsPlus(x) || IsStar(x) { assert t[0] == x[0]; }
  }

  lemma {:induction false} DotsKeepLead(s: Bytes)
    requires LeadBlank(s)
    ensures LeadBlank(TrimDots(s))
  {
    TrimDotsFacts(s);
    assert forall i :: 0 <= i < LeadLen(s) ==> s[i] != DOT;
    assert |TrimDots(s)| >= LeadLen(s);
  }

  /** An accepted wildcard entry hits its own text. */
  lemma {:induction false} WildHitsRoot(x: Bytes)
    requires !LeadBlank(x) && (IsPlus(x) || IsStar(x)) && Patterns(x) != {}
    ensures Catches(Patterns(x), Root(x))
  {
    BareNormal(x);
    var n := Normal(x);
    var b := TrimDots(n[2..]);
    assert n[1..] == [DOT] + n[2..] && n == [n[0]] + n[1..];
    TrimDotsCons(DOT, n[2..]);
    TrimDotsCons(n[0], n[1..]);
    assert Root(x) == [n[0]] + Dot(b);
    assert Root(x)[1..] == Dot(b) && Root(x)[..1] == [n[0]];
    var p := Pattern(if IsPlus(n) then Below else Star, b);
    assert p in Patterns(x) && Hits(p, Root(x));
  }

  /** A merge gains something exactly when the trie rejects `x` as a bare
      wildcard prefix. */
  lemma {:induction false} PairGain(x: Bytes)
    requires !Dotted(x)
    ensures (Root(x) != [] ==> Subsumed(Patterns(x) + Slots({Below}, Root(x)), Pattern(Exact, Root(x))))
            <==> Patterns(x) != {} || MergeKeeps(x)
  {
    var b, ps := Root(x), Patterns(x) + Slots({Below}, Root(x));
    RootLead(x);
    if !LeadBlank(x) {
      if !IsPlus(x) && !IsStar(x) {
        PlainPatterns(x);
        assert b != [] ==> Pattern(Exact, b) in ps && Hits(Pattern(Exact, b), b);
      } else if Patterns(x) != {} {
        WildHitsRoot(x);
        assert Catches(ps, b);
      } else {
        assert !Catches(ps, b);
      }
    }
  }

  /** Pair by pair, for every entry: `+.x` matches exactly what `x` and `.x`
      matched if and only if `x` does not itself start with `+.` or `*.`,
      and, should it start with a blank, the trie rejects it. */
  lemma {:induction false} MergeExact(x: Bytes)
    requires !Dotted(x)
    ensures (forall d :: Covers({x, Dot(x)}, d) <==> Covers({Plus(x)}, d)) <==> MergeKeeps(x)
  {
    var pair, merged, b := {x, Dot(x)}, {Plus(x)}, Root(x);
    DotPatterns(x);
    PlusPatterns(x);
    SlotsOf(Plus(x));
    assert PatternsOf(pair) == Patterns(x) + Slots({Below}, b);
    PairLoss(x);
    PairGain(x);
    PairLossIs(x);
    PairGainIs(x);
    assert (forall d :: Covers(pair, d) <==> Covers(merged, d)) <==> CoveredBy(pair, merged) && CoveredBy(merged, pair);
  }

  lemma {:induction false} PairLossIs(x: Bytes)
    ensures CoveredBy({x, Dot(x)}, {Plus(x)})
            <==> forall p :: p in Patterns(x) ==> Subsumed(Slots({Exact, Below}, Root(x)), p)
  {
    DotPatterns(x);
    PlusPatterns(x);
    SlotsOf(Plus(x));
    CoveredExact({x, Dot(x)}, {Plus(x)});
    forall p | p in Patterns(Dot(x)) ensures Subsumed(Slots({Exact, Below}, Root(x)), p) {
      SubsumedSelf(Slots({Exact, Below}, Root(x)), p);
    }
  }

  lemma {:induction false} SubsumedSelf(ps: set<Pattern>, p: Pattern)
    requires p in ps
    ensures Subsumed(ps, p)
  {
    assert p.kind == Exact ==> Hits(p, p.base);
  }

  lemma {:induction false} PairGainIs(x: Bytes)
    ensures CoveredBy({Plus(x)}, {x, Dot(x)})
            <==> (Root(x) != [] ==> Subsumed(Patterns(x) + Slots({Below}, Root(x)), Pattern(Exact, Root(x))))
  {
    var ps := Patterns(x) + Slots({Below}, Root(x));
    DotPatterns(x);
    PlusPatterns(x);
    assert PatternsOf({x, Dot(x)}) == ps;
    CoveredExact({Plus(x)}, {x, Dot(x)});
    assert Root(x) != [] ==> Pattern(Below, Root(x)) in ps && Pattern(Exact, Root(x)) in Patterns(Plus(x));
    if Root(x) != [] { SubsumedSelf(ps, Pattern(Below, Root(x))); }
  }

  // ---- whole lists ----

  function EntrySet(s: seq<Bytes>): set<Bytes> { set e | e in s }

  /** The distinct lines a list of entries dumps to, read off the counts of
      the entries alone. */
  ghost function LinesOf(m: multiset<Bytes>): set<Bytes> {
    (set k | k in m && m[k] + Delta(m, k) > 0) + (set k | k in m && Twin(m, k) :: Plus(k))
  }

  lemma {:induction false} LinesByCount(m: multiset<Bytes>, l: Bytes)
    ensures l in LinesOf(m) <==> m[l] + Delta(m, l) > 0
  {
    forall k | Twin(m, k) && l == Plus(k) ensures m[l] + Delta(m, l) > 0 { assert l[2..] == k; }
    if IsPlus(l) && Twin(m, l[2..]) { assert l == Plus(l[2..]); }
  }

  lemma {:induction false} LinesAre(keys: seq<Bytes>)
    ensures LinesOf(multiset(keys)) == EntrySet(DumpLines(keys))
  {
    var m, lines := multiset(keys), DumpLines(keys);
    forall l ensures l in LinesOf(m) <==> l in lines {
      DumpCounts(keys, l);
      LinesByCount(m, l);
      assert l in lines <==> l in multiset(lines);
    }
  }

  /** Each pattern of an entry that a merge consumes is matched in full by
      the lines that remain. */
  ghost predicate LossesSubsumed(m: multiset<Bytes>) {
    forall x, p :: Twin(m, x) && p in Patterns(x) ==> Subsumed(PatternsOf(LinesOf(m)), p)
  }

  /** Each root a merge adds was matched by the entries. */
  ghost predicate GainsSubsumed(m: multiset<Bytes>) {
    forall x :: Twin(m, x) && Root(x) != []
      ==> Subsumed(PatternsOf(set k | k in m), Pattern(Exact, Root(x)))
  }

  lemma {:induction false} KeptOrMerged(m: multiset<Bytes>, e: Bytes, p: Pattern)
    requires e in m && p in Patterns(e) && LossesSubsumed(m)
    ensures Subsumed(PatternsOf(LinesOf(m)), p)
  {
    var lines := LinesOf(m);
    if e in lines {
      SubsumedSelf(PatternsOf(lines), p);
    } else if !Twin(m, e) {
      assert Dotted(e) && Twin(m, e[1..]) && e == Dot(e[1..]);
      DotPatterns(e[1..]);
      PlusPatterns(e[1..]);
      assert Plus(e[1..]) in lines && p in Patterns(Plus(e[1..]));
      SubsumedSelf(PatternsOf(lines), p);
    }
  }

  /** No name is lost if and only if the finite test on the consumed entries
      succeeds. */
  lemma {:induction false} LossExact(keys: seq<Bytes>)
    ensures CoveredBy(EntrySet(keys), EntrySet(DumpLines(keys))) <==> LossesSubsumed(multiset(keys))
  {
    var m := multiset(keys);
    LinesAre(keys);
    CoveredExact(EntrySet(keys), LinesOf(m));
    if LossesSubsumed(m) {
      forall e, p | e in EntrySet(keys) && p in Patterns(e) ensures Subsumed(PatternsOf(LinesOf(m)), p) {
        KeptOrMerged(m, e, p);
      }
    }
    if forall e, p :: e in EntrySet(keys) && p in Patterns(e) ==> Subsumed(PatternsOf(LinesOf(m)), p) {
      forall x, p | Twin(m, x) && p in Patterns(x) ensures Subsumed(PatternsOf(LinesOf(m)), p) {
        assert x in EntrySet(keys);
      }
    }
  }

  lemma {:induction false} OldOrMerge(keys: seq<Bytes>, l: Bytes, p: Pattern)
    requires l in LinesOf(multiset(keys)) && p in Patterns(l) && GainsSubsumed(multiset(keys))
    ensures Subsumed(PatternsOf(EntrySet(keys)), p)
  {
    var m, ps := multiset(keys), PatternsOf(EntrySet(keys));
    if l in keys {
      assert l in EntrySet(keys);
      SubsumedSelf(ps, p);
    } else {
      var x :| x in m && Twin(m, x) && l == Plus(x);
      PlusPatterns(x);
      DotPatterns(x);
      assert Dot(x) in EntrySet(keys);
      if p.kind == Below {
        assert p in Patterns(Dot(x));
        SubsumedSelf(ps, p);
      } else {
        assert (set k | k in m) == EntrySet(keys);
      }
    }
  }

  /** No name is gained if and only if each root a merge adds was matched
      already. */
  lemma {:induction false} GainExact(keys: seq<Bytes>)
    ensures CoveredBy(EntrySet(DumpLines(keys)), EntrySet(keys)) <==> GainsSubsumed(multiset(keys))
  {
    var m, ps := multiset(keys), PatternsOf(EntrySet(keys));
    LinesAre(keys);
    CoveredExact(LinesOf(m), EntrySet(keys));
    assert (set k | k in m) == EntrySet(keys);
    if GainsSubsumed(m) {
      forall l, p | l in LinesOf(m) && p in Patterns(l) ensures Subsumed(ps, p) { OldOrMerge(keys, l, p); }
    }
    if forall l, p :: l in LinesOf(m) && p in Patterns(l) ==> Subsumed(ps, p) {
      forall x | Twin(m, x) && Root(x) != [] ensures Subsumed(ps, Pattern(Exact, Root(x))) {
        PlusPatterns(x);
        assert Plus(x) in LinesOf(m);
        assert Pattern(Exact, Root(x)) in Patterns(Plus(x));
      }
    }
  }

  /** For every entry list: the lines match exactly the names the entries
      match if and only if both tests on the counts of the entries succeed. */
  lemma {:induction false} CoverageExact(keys: seq<Bytes>)
    ensures (forall d :: Covers(EntrySet(DumpLines(keys)), d) <==> Covers(EntrySet(keys), d))
            <==> LossesSubsumed(multiset(keys)) && GainsSubsumed(multiset(keys))
  {
    LossExact(keys);
    GainExact(keys);
  }

  lemma {:induction false} SubsumedMore(ps: set<Pattern>, qs: set<Pattern>, p: Pattern)
    requires Subsumed(ps, p) && ps <= qs
    ensures Subsumed(qs, p)
  {
    if Catches(ps, p.base) {
      var o :| o in ps && Hits(o, p.base);
      assert o in qs;
    }
  }

  /** In particular whenever every twin pair merges without loss or gain. */
  lemma {:induction false} CoverageKept(keys: seq<Bytes>, d: Bytes)
    requires forall x :: Twin(multiset(keys), x) ==> MergeKeeps(x)
    ensures Covers(EntrySet(DumpLines(keys)), d) <==> Covers(EntrySet(keys), d)
  {
    var m := multiset(keys);
    forall x, p | Twin(m, x) && p in Patterns(x) ensures Subsumed(PatternsOf(LinesOf(m)), p) {
      PairLoss(x);
      PlusPatterns(x);
      assert Plus(x) in LinesOf(m);
      SubsumedMore(Patterns(Plus(x)), PatternsOf(LinesOf(m)), p);
    }
    forall x | Twin(m, x) && Root(x) != []
      ensures Subsumed(PatternsOf(set k | k in m), Pattern(Exact, Root(x)))
    {
      PairGain(x);
      DotPatterns(x);
      SubsumedMore(Patterns(x) + Slots({Below}, Root(x)), PatternsOf(set k | k in m), Pattern(Exact, Root(x)));
    }
    CoverageExact(keys);
  }

  // ---- the entries whose merge changes the meaning ----

  /** A name written out plainly. */
  ghost predicate Plain(s: Bytes) { IsQuery(s) && TailLen(s) == 0 }

  lemma {:induction false} AsIs(s: Bytes)
    requires Plain(s)
    ensures Normal(s) == s && Query(s) == s && Root(s) == s
  {
    LowerFixed(s);
  }

  /** What a single pair matches, and what it dumps to. */
  lemma {:induction false} PairCovers(x: Bytes, q: Bytes)
    requires !Dotted(x) && Plain(q)
    ensures DumpLines([x, Dot(x)]) == [Plus(x)]
    ensures Covers({x, Dot(x)}, q) <==> Catches(Patterns(x) + Slots({Below}, Root(x)), q)
    ensures Covers({Plus(x)}, q) <==> Catches(Slots({Exact, Below}, Root(x)), q)
  {
    TwoTwins(x);
    AsIs(q);
    PairPatterns(x);
  }

  lemma {:induction false} PairPatterns(x: Bytes)
    ensures PatternsOf({x, Dot(x)}) == Patterns(x) + Slots({Below}, Root(x))
    ensures PatternsOf({Plus(x)}) == Slots({Exact, Below}, Root(x))
  {
    DotPatterns(x);
    PlusPatterns(x);
    SlotsOf(Plus(x));
  }

  /** Merging the pair of `x` changes whether the name `d` is matched. */
  ghost predicate Loses(x: Bytes, d: Bytes) {
    DumpLines([x, Dot(x)]) == [Plus(x)] && Covers({x, Dot(x)}, d) && !Covers({Plus(x)}, d)
  }

  ghost predicate Gains(x: Bytes, d: Bytes) {
    DumpLines([x, Dot(x)]) == [Plus(x)] && !Covers({x, Dot(x)}, d) && Covers({Plus(x)}, d)
  }

  lemma {:induction false} LosesByPatterns(x: Bytes, d: Bytes, p: Pattern)
    requires !Dotted(x) && Plain(d) && p in Patterns(x) && Hits(p, d)
    requires Root(x) != d && !Under(d, Root(x))
    ensures Loses(x, d)
  {
    PairCovers(x, d);
    assert p in Patterns(x) + Slots({Below}, Root(x));
    assert !Catches(Slots({Exact, Below}, Root(x)), d);
  }

  /** `+.y` next to `.+.y` merges into `+.+.y`, which no longer matches
      `y`. */
  lemma {:induction false} PlusLost(y: Bytes)
    requires Plain(y)
    ensures Loses(Plus(y), y)
  {
    var x := Plus(y);
    AsIs(y);
    PlusPatterns(y);
    AsIs(x);
    LosesByPatterns(x, y, Pattern(Exact, y));
  }

  lemma {:induction false} StarPatterns(y: Bytes)
    requires Plain(y)
    ensures Root([STAR] + Dot(y)) == [STAR] + Dot(y) && Patterns([STAR] + Dot(y)) == Slots({Star}, y)
    ensures Pattern(Star, y) in Patterns([STAR] + Dot(y))
  {
    var x := [STAR] + Dot(y);
    AsIs(x);
    AsIs(y);
    assert x[2..] == y && TrimDots(y) == y;
  }

  // ---- what the four forms mean ----

  /** `d` is some text followed by `.y`. */
  ghost predicate SomethingUnder(d: Bytes, y: Bytes) { exists u: Bytes :: d == u + Dot(y) }

  /** The text is one label. */
  ghost predicate OneLabelUnder(d: Bytes, y: Bytes) { exists u: Bytes :: DOT !in u && d == u + Dot(y) }

  lemma {:induction false} UnderIs(d: Bytes, y: Bytes)
    ensures Under(d, y) <==> SomethingUnder(d, y)
    ensures Under(d, y) && DOT !in d[..|d| - |y| - 1] <==> OneLabelUnder(d, y)
  {
    if Under(d, y) { assert d == d[..|d| - |y| - 1] + Dot(y); }
    if SomethingUnder(d, y) {
      var u: Bytes :| d == u + Dot(y);
      assert d[|d| - |y| - 1..] == Dot(y) && d[..|d| - |y| - 1] == u;
    }
    if OneLabelUnder(d, y) {
      var u: Bytes :| DOT !in u && d == u + Dot(y);
      assert d[|d| - |y| - 1..] == Dot(y) && d[..|d| - |y| - 1] == u;
    }
  }

  lemma {:induction false} OneEntry(e: Bytes, kinds: set<Kind>, y: Bytes, d: Bytes)
    requires Patterns(e) == Slots(kinds, y) && y != []
    ensures Covers({e}, d) <==>
              || (Exact in kinds && Query(d) == y)
              || (Below in kinds && SomethingUnder(Query(d), y))
              || (Star in kinds && OneLabelUnder(Query(d), y))
  {
    SlotsOf(e);
    UnderIs(Query(d), y);
    forall k | k in kinds && Hits(Pattern(k, y), Query(d)) ensures Catches(PatternsOf({e}), Query(d)) {
      assert Pattern(k, y) in PatternsOf({e});
    }
    assert Query(d) == y ==> Hits(Pattern(Exact, y), Query(d));
    assert Under(Query(d), y) ==> Hits(Pattern(Below, y), Query(d));
    assert OneLabelUnder(Query(d), y) ==> Hits(Pattern(Star, y), Query(d));
  }

  /** A plain name matches itself. */
  lemma {:induction false} PlainMeaning(y: Bytes, d: Bytes)
    requires Plain(y) && !IsPlus(y) && !IsStar(y) && !Dotted(y)
    ensures Covers({y}, d) <==> Query(d) == y
  {
    AsIs(y);
    OneEntry(y, {Exact}, y, d);
  }

  /** `+.y` matches the name and everything below it. */
  lemma {:induction false} PlusMeaning(y: Bytes, d: Bytes)
    requires Plain(y)
    ensures Covers({Plus(y)}, d) <==> Query(d) == y || SomethingUnder(Query(d), y)
  {
    AsIs(y);
    PlusPatterns(y);
    OneEntry(Plus(y), {Exact, Below}, y, d);
  }

  /** `.y` matches only what is below it. */
  lemma {:induction false} DotMeaning(y: Bytes, d: Bytes)
    requires Plain(y)
    ensures Covers({Dot(y)}, d) <==> SomethingUnder(Query(d), y)
  {
    AsIs(y);
    DotPatterns(y);
    OneEntry(Dot(y), {Below}, y, d);
  }

  /** `*.y` matches only what is one label below it. */
  lemma {:induction false} StarMeaning(y: Bytes, d: Bytes)
    requires Plain(y)
    ensures Covers({[STAR] + Dot(y)}, d) <==> OneLabelUnder(Query(d), y)
  {
    StarPatterns(y);
    OneEntry([STAR] + Dot(y), {Star}, y, d);
  }

  /** `*.y` next to `.*.y` merges into `+.*.y`, which no longer matches
      `c.y`. */
  lemma {:induction false} StarLost(y: Bytes, c: byte)
    requires Plain(y) && Plain([c]) && c != STAR
    ensures Loses([STAR] + Dot(y), [c] + Dot(y))
  {
    var x, d := [STAR] + Dot(y), [c] + Dot(y);
    StarPatterns(y);
    assert d[1..] == Dot(y) && d[..1] == [c];
    assert x[0] != d[0] && |x| == |d|;
    LosesByPatterns(x, d, Pattern(Star, y));
  }

  lemma {:induction false} GainsByPatterns(x: Bytes, d: Bytes)
    requires !Dotted(x) && Plain(d) && Patterns(x) == {} && Root(x) == d
    ensures Gains(x, d)
  {
    PairCovers(x, d);
    assert Pattern(Exact, d) in Slots({Exact, Below}, d) && Hits(Pattern(Exact, d), d);
    assert !Catches(Patterns(x) + Slots({Below}, d), d);
  }

  /** A bare wildcard prefix is rejected, and stored under its first byte
      once it is merged. */
  lemma {:induction false} BarePrefix(c: byte, x: Bytes)
    requires (c == PLUS || c == STAR) && x == [c] + Dot([])
    ensures Patterns(x) == {} && Root(x) == [c] && !Dotted(x) && Plain([c])
  {
    assert x == [c, DOT];
    LowerFixed(x);
    assert TrimEnd(x) == x && TrimStart(x) == x;
    assert Normal(x) == x && x[2..] == [] && TrimDots([]) == [];
    assert x[..1] == [c] && TrimDots([c]) == [c];
  }

  /** `+.` and `*.`, which the trie rejects, next to `.+.` and `.*.` merge
      into lines that match `+` and `*`. */
  lemma {:induction false} BareGained(c: byte)
    requires c == PLUS || c == STAR
    ensures Gains([c] + Dot([]), [c])
  {
    var x := [c] + Dot([]);
    BarePrefix(c, x);
    GainsByPatterns(x, [c]);
  }

  /** A blank character, any of those `str::trim` drops. */
  predicate IsBlank(w: Bytes) { w != [] && LeadLen(w) == |w| }

  lemma {:induction false} BehindBlank(w: Bytes, y: Bytes)
    requires IsBlank(w) && Plain(y)
    ensures Normal(w + y) == y && LeadBlank(w + y)
  {
    var x := w + y;
    AsIs(y);
    LeadExtends(w, x);
    assert TailLen(x) == 0;
    assert TrimEnd(x) == x && x[|w|..] == y;
    assert TrimStart(x) == TrimStart(y) == y;
  }

  /** `y` behind a blank character next to its twin merges into a line that no
      longer matches `y`. */
  lemma {:induction false} BlankLost(w: Bytes, y: Bytes)
    requires IsBlank(w) && Plain(y) && !IsPlus(y) && !IsStar(y) && !Dotted(y)
    ensures Loses(w + y, y)
  {
    BehindBlank(w, y);
    AsIs(y);
    BaseShorter(w + y, Pattern(Exact, y));
    LosesByPatterns(w + y, y, Pattern(Exact, y));
  }

  /** For one, U+3000, the ideographic space. */
  lemma {:induction false} WideBlankLost(w: Bytes, y: Bytes)
    requires w == [0xE3, 0x80, 0x80] && y == [121]
    ensures Loses(w + y, y)
  {
    BlankLost(w, y);
  }
}
