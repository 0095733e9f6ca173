/** Text form of a decoded domain set (`dump_domain_lines`): an exact entry
    `x` and its suffix-only twin `.x` collapse into `+.x`. */
module DomainLines {
  import opened Ordering

  const DOT: byte := 46
  const PLUS: byte := 43

  predicate Dotted(s: Bytes) { s != [] && s[0] == DOT }

  function Trim(s: Bytes): Bytes { if Dotted(s) then s[1..] else s }

  function Dot(x: Bytes): Bytes { [DOT] + x }

  function Plus(x: Bytes): Bytes { [PLUS, DOT] + x }

  predicate IsPlus(s: Bytes) { |s| >= 2 && s[0] == PLUS && s[1] == DOT }

  /** The comparator: trimmed text first, then bare before dotted. */
  predicate LineLe(a: Bytes, b: Bytes) {
    if Trim(a) == Trim(b) then Dotted(a) ==> Dotted(b) else LexLe(Trim(a), Trim(b))
  }

  lemma {:induction false} SameLine(a: Bytes, b: Bytes)
    requires Trim(a) == Trim(b) && Dotted(a) == Dotted(b)
    ensures a == b
  {
    assert Dotted(a) ==> a == [a[0]] + a[1..];
    assert Dotted(b) ==> b == [b[0]] + b[1..];
  }

  lemma LineIsTotalOrder()
    ensures TotalOrder(LineLe)
  {
    forall a, b ensures LineLe(a, b) || LineLe(b, a) { LexTotal(Trim(a), Trim(b)); }
    forall a, b | LineLe(a, b) && LineLe(b, a) ensures a == b {
      LexTotal(Trim(a), Trim(b));
      SameLine(a, b);
    }
    forall a, b, c | LineLe(a, b) && LineLe(b, c) ensures LineLe(a, c) { LineTransitive(a, b, c); }
  }

  lemma {:induction false} LineTransitive(a: Bytes, b: Bytes, c: Bytes)
    requires LineLe(a, b) && LineLe(b, c)
    ensures LineLe(a, c)
  {
    if Trim(a) != Trim(b) && Trim(b) != Trim(c) {
      LexTransitive(Trim(a), Trim(b), Trim(c));
      if Trim(a) == Trim(c) { LexTotal(Trim(a), Trim(b)); }
    }
  }

  /** Merge adjacent twins of a sorted list. */
  function MergeTwins(s: seq<Bytes>): seq<Bytes> {
    if s == [] then []
    else if !Dotted(s[0]) && |s| > 1 && s[1] == Dot(s[0]) then [Plus(s[0])] + MergeTwins(s[2..])
    else [s[0]] + MergeTwins(s[1..])
  }

  function DumpLines(keys: seq<Bytes>): seq<Bytes> {
    LineIsTotalOrder();
    LexIsTotalOrder();
    Sort(LexLe, MergeTwins(Sort(LineLe, keys)))
  }

  method DumpDomainLines(keys: seq<Bytes>) returns (lines: seq<Bytes>)
    ensures lines == DumpLines(keys)
  {
    LineIsTotalOrder();
    LexIsTotalOrder();
    var merged := MergeLoop(Sort(LineLe, keys));
    lines := Sort(LexLe, merged);
  }

  /** The loop of `dump_domain_lines`, taking lines out of the sorted vector
      as it goes. */
  method MergeLoop(sorted: seq<Bytes>) returns (merged: seq<Bytes>)
    ensures merged == MergeTwins(sorted)
  {
    var keys := sorted;
    merged := [];
    var i := 0;
    assert sorted[0..] == sorted;
    while i < |keys|
      invariant 0 <= i <= |keys| == |sorted|
      invariant forall k :: i <= k < |keys| ==> keys[k] == sorted[k]
      invariant MergeTwins(sorted) == merged + MergeTwins(sorted[i..])
    {
      MergeAt(sorted, i);
      if !Dotted(keys[i]) && i + 1 < |keys| && Dotted(keys[i + 1]) && keys[i + 1][1..] == keys[i] {
        assert merged + ([Plus(keys[i])] + MergeTwins(sorted[i + 2..]))
            == merged + [Plus(keys[i])] + MergeTwins(sorted[i + 2..]);
        merged := merged + [Plus(keys[i])];
        i := i + 2;
      } else {
        assert merged + ([keys[i]] + MergeTwins(sorted[i + 1..])) == merged + [keys[i]] + MergeTwins(sorted[i + 1..]);
        merged := merged + [keys[i]];
        keys := keys[i := []];
        i := i + 1;
      }
    }
  }

  lemma {:induction false} MergeAt(s: seq<Bytes>, i: nat)
    requires i < |s|
    ensures MergeTwins(s[i..])
         == if !Dotted(s[i]) && i + 1 < |s| && Dotted(s[i + 1]) && s[i + 1][1..] == s[i]
            then [Plus(s[i])] + MergeTwins(s[i + 2..])
            else [s[i]] + MergeTwins(s[i + 1..])
  {
    var rest := s[i..];
    assert rest[1..] == s[i + 1..];
    if i + 1 < |s| {
      assert rest[2..] == s[i + 2..];
      assert s[i + 1] == Dot(s[i]) <==> Dotted(s[i + 1]) && s[i + 1][1..] == s[i];
    }
  }

  /** Equal multisets dump to the same lines: no sort's handling of equal
      elements can show. */
  lemma DumpDeterministic(a: seq<Bytes>, b: seq<Bytes>)
    requires multiset(a) == multiset(b)
    ensures DumpLines(a) == DumpLines(b)
  {
    LineIsTotalOrder();
    SortedUnique(LineLe, Sort(LineLe, a), Sort(LineLe, b));
  }

  // ---- exactly what is merged ----

  /** Both twins of the bare entry `x` occur. */
  ghost predicate Twin(m: multiset<Bytes>, x: Bytes) { !Dotted(x) && x in m && Dot(x) in m }

  /** How the number of lines `s` differs from the number of entries `s`. */
  ghost function Delta(m: multiset<Bytes>, s: Bytes): int {
    (if IsPlus(s) && Twin(m, s[2..]) then 1 else 0)
    - (if Twin(m, s) then 1 else 0)
    - (if Dotted(s) && Twin(m, s[1..]) then 1 else 0)
  }

  /** Nothing sorts strictly between `x` and `.x`. */
  lemma {:induction false} NothingBetween(x: Bytes, y: Bytes)
    requires !Dotted(x) && LineLe(x, y) && LineLe(y, Dot(x))
    ensures y == x || y == Dot(x)
  {
    assert Trim(Dot(x)) == x;
    LexTotal(x, Trim(y));
    if Dotted(y) { SameLine(y, Dot(x)); } else { SameLine(y, x); }
  }

  /** Dropping the first line of a sorted list that is not merged keeps
      every twin pair. */
  lemma {:induction false} TwinsAfterKeep(s: seq<Bytes>, x: Bytes)
    requires Sorted(LineLe, s) && s != []
    requires !(!Dotted(s[0]) && |s| > 1 && s[1] == Dot(s[0]))
    ensures Twin(multiset(s), x) == Twin(multiset(s[1..]), x)
  {
    assert s == [s[0]] + s[1..];
    if x in s && Dot(x) in s && !Dotted(x) {
      var i :| 0 <= i < |s| && s[i] == x;
      var j :| 0 <= j < |s| && s[j] == Dot(x);
      KeptPair(s, x, i, j);
    }
  }

  lemma {:induction false} KeptPair(s: seq<Bytes>, x: Bytes, i: nat, j: nat)
    requires Sorted(LineLe, s) && !Dotted(x) && i < |s| && j < |s| && s[i] == x && s[j] == Dot(x)
    requires !(!Dotted(s[0]) && |s| > 1 && s[1] == Dot(s[0]))
    ensures x in s[1..] && Dot(x) in s[1..]
  {
    assert !LineLe(Dot(x), x) && Dot(x) != x;
    assert i < j;
    assert s[1..][j - 1] == Dot(x);
    if i == 0 {
      assert j > 1 && LineLe(s[0], s[1]) && LineLe(s[1], s[j]);
      NothingBetween(x, s[1]);
      assert s[1..][0] == x;
    } else {
      assert s[1..][i - 1] == x;
    }
  }

  /** After a merge the pair is gone and every other pair is kept. */
  lemma {:induction false} TwinsAfterMerge(s: seq<Bytes>, x: Bytes)
    requires Sorted(LineLe, s) && |s| > 1 && !Dotted(s[0]) && s[1] == Dot(s[0])
    ensures Twin(multiset(s[2..]), x) == (x != s[0] && Twin(multiset(s), x))
  {
    assert s == [s[0], s[1]] + s[2..];
    assert !LineLe(Dot(s[0]), s[0]);
    assert forall j :: 2 <= j < |s| ==> LineLe(s[1], s[j]);
    assert s[0] !in s[2..];
    assert Dot(x) == s[1] ==> x == s[0] by { assert Dot(x)[1..] == x && Dot(s[0])[1..] == s[0]; }
  }

  /** Line by line: every count of the merged list. */
  lemma {:induction false} MergeCounts(s: seq<Bytes>, y: Bytes)
    requires Sorted(LineLe, s)
    ensures multiset(MergeTwins(s))[y] == multiset(s)[y] + Delta(multiset(s), y)
  {
    if s == [] {
    } else if !Dotted(s[0]) && |s| > 1 && s[1] == Dot(s[0]) {
      MergeCounts(s[2..], y);
      MergeDelta(s, y);
      ConsCount(Plus(s[0]), MergeTwins(s[2..]), y);
      UnconsCount(s, y);
      UnconsCount(s[1..], y);
      assert s[1..][1..] == s[2..];
    } else {
      MergeCounts(s[1..], y);
      KeepDelta(s, y);
      ConsCount(s[0], MergeTwins(s[1..]), y);
      UnconsCount(s, y);
    }
  }

  lemma {:induction false} UnconsCount(s: seq<Bytes>, y: Bytes)
    requires s != []
    ensures multiset(s)[y] == multiset(s[1..])[y] + if s[0] == y then 1 else 0
  {
    assert s == [s[0]] + s[1..];
  }

  lemma {:induction false} ConsCount(x: Bytes, t: seq<Bytes>, y: Bytes)
    ensures multiset([x] + t)[y] == multiset(t)[y] + if x == y then 1 else 0
  {
  }

  lemma {:induction false} KeepDelta(s: seq<Bytes>, y: Bytes)
    requires Sorted(LineLe, s) && s != []
    requires !(!Dotted(s[0]) && |s| > 1 && s[1] == Dot(s[0]))
    ensures Delta(multiset(s), y) == Delta(multiset(s[1..]), y)
  {
    TwinsAfterKeep(s, y);
    if IsPlus(y) { TwinsAfterKeep(s, y[2..]); }
    if Dotted(y) { TwinsAfterKeep(s, y[1..]); }
  }

  lemma {:induction false} MergeDelta(s: seq<Bytes>, y: Bytes)
    requires Sorted(LineLe, s) && |s| > 1 && !Dotted(s[0]) && s[1] == Dot(s[0])
    ensures Delta(multiset(s), y) == Delta(multiset(s[2..]), y)
            + (if y == Plus(s[0]) then 1 else 0) - (if y == s[0] then 1 else 0) - (if y == s[1] then 1 else 0)
  {
    assert s == [s[0], s[1]] + s[2..];
    forall z ensures Twin(multiset(s[2..]), z) == (z != s[0] && Twin(multiset(s), z)) { TwinsAfterMerge(s, z); }
    DeltaWithout(multiset(s), multiset(s[2..]), s[0], y);
  }

  lemma {:induction false} DeltaWithout(m: multiset<Bytes>, m': multiset<Bytes>, x: Bytes, y: Bytes)
    requires Twin(m, x) && forall z :: Twin(m', z) == (z != x && Twin(m, z))
    ensures Delta(m, y) == Delta(m', y)
            + (if y == Plus(x) then 1 else 0) - (if y == x then 1 else 0) - (if y == Dot(x) then 1 else 0)
  {
    assert IsPlus(y) ==> y == Plus(y[2..]);
    assert Dotted(y) ==> y == Dot(y[1..]);
    assert Plus(x)[2..] == x && Dot(x)[1..] == x;
  }

  /** For every entry list: the lines are ascending, and each line occurs as
      often as the entry, one less if it was merged away, one more if it is
      the merge of a twin pair. So `+.x` is added exactly once, exactly when
      both twins occur, and nothing else changes. */
  lemma DumpCounts(keys: seq<Bytes>, y: Bytes)
    ensures Sorted(LexLe, DumpLines(keys))
    ensures multiset(DumpLines(keys))[y] == multiset(keys)[y] + Delta(multiset(keys), y)
  {
    LineIsTotalOrder();
    LexIsTotalOrder();
    MergeCounts(Sort(LineLe, keys), y);
  }

  // ---- expanding back ----

  function Expand(line: Bytes): seq<Bytes> {
    if IsPlus(line) then [line[2..], Dot(line[2..])] else [line]
  }

  function ExpandAll(lines: seq<Bytes>): seq<Bytes> {
    if lines == [] then [] else Expand(lines[0]) + ExpandAll(lines[1..])
  }

  lemma {:induction false} ExpandCounts(lines: seq<Bytes>, y: Bytes)
    ensures multiset(ExpandAll(lines))[y]
         == (if IsPlus(y) then 0 else multiset(lines)[y])
            + multiset(lines)[Plus(y)] + (if Dotted(y) then multiset(lines)[Plus(y[1..])] else 0)
  {
    if lines == [] {
    } else {
      var l := lines[0];
      ExpandCounts(lines[1..], y);
      UnconsCount(lines, y);
      UnconsCount(lines, Plus(y));
      if Dotted(y) { UnconsCount(lines, Plus(y[1..])); }
      assert multiset(ExpandAll(lines)) == multiset(Expand(l)) + multiset(ExpandAll(lines[1..]));
      ExpandOne(l, y);
    }
  }

  lemma {:induction false} ExpandOne(l: Bytes, y: Bytes)
    ensures multiset(Expand(l))[y]
         == (if !IsPlus(y) && l == y then 1 else 0) + (if l == Plus(y) then 1 else 0)
             + (if Dotted(y) && l == Plus(y[1..]) then 1 else 0)
  {
    assert Plus(y)[2..] == y;
    if IsPlus(l) {
      assert l == Plus(l[2..]);
      assert Dot(l[2..])[1..] == l[2..];
      assert |Dot(l[2..])| != |l[2..]|;
      if Dotted(y) {
        assert y == Dot(y[1..]) && Plus(y[1..])[2..] == y[1..];
      }
    }
  }

  /** Entries of the form `+.x` that no merge consumes. */
  ghost function Leftover(m: multiset<Bytes>, y: Bytes): int { m[y] - if Twin(m, y) then 1 else 0 }

  /** Every entry already of the form `+.x` occurs once, next to its twin. */
  ghost predicate PlusConsumed(m: multiset<Bytes>) {
    forall y :: IsPlus(y) ==> Leftover(m, y) == 0
  }

  lemma {:induction false} CountOfPlus(keys: seq<Bytes>, y: Bytes)
    ensures multiset(DumpLines(keys))[Plus(y)]
         == Leftover(multiset(keys), Plus(y)) + if Twin(multiset(keys), y) then 1 else 0
  {
    DumpCounts(keys, Plus(y));
    assert Plus(y)[2..] == y;
  }

  /** Expanding every `+.x` line back to `x` and `.x` recovers exactly the
      entries, with multiplicity, if and only if each entry that already
      looks like a merge was itself merged. */
  lemma ExpandRecovers(keys: seq<Bytes>)
    ensures multiset(ExpandAll(DumpLines(keys))) == multiset(keys) <==> PlusConsumed(multiset(keys))
  {
    var m, out := multiset(keys), DumpLines(keys);
    if PlusConsumed(m) {
      forall y ensures multiset(ExpandAll(out))[y] == m[y] {
        ExpandCounts(out, y);
        DumpCounts(keys, y);
        CountOfPlus(keys, y);
        if Dotted(y) { CountOfPlus(keys, y[1..]); }
        assert IsPlus(Plus(y)) && IsPlus(Plus(y[if Dotted(y) then 1 else 0..]));
        assert IsPlus(y) ==> Leftover(m, y) == 0;
      }
    }
    if multiset(ExpandAll(out)) == m {
      forall y | IsPlus(y) ensures Leftover(m, y) == 0 {
        LeftoverVanishes(keys, y);
      }
    }
  }

  /** A surplus of `y` would force one of `+.y`, and so on without end. */
  lemma {:induction false} LeftoverVanishes(keys: seq<Bytes>, y: Bytes)
    requires multiset(ExpandAll(DumpLines(keys))) == multiset(keys) && IsPlus(y)
    ensures Leftover(multiset(keys), y) == 0
    decreases MaxLength(keys) + 1 - |y|
  {
    var m := multiset(keys);
    if |y| > MaxLength(keys) {
      if y in keys { LengthBound(keys, y); }
    } else {
      ExpandCounts(DumpLines(keys), y);
      CountOfPlus(keys, y);
      assert Leftover(m, y) == Leftover(m, Plus(y));
      LeftoverVanishes(keys, Plus(y));
    }
  }

  ghost function MaxLength(keys: seq<Bytes>): nat {
    if keys == [] then 0 else var r := MaxLength(keys[1..]); if |keys[0]| > r then |keys[0]| else r
  }

  lemma {:induction false} LengthBound(keys: seq<Bytes>, y: Bytes)
    requires y in keys
    ensures |y| <= MaxLength(keys)
  {
    if y == keys[0] {
    } else {
      LengthBound(keys[1..], y);
    }
  }

  // ---- a single twin pair ----

  lemma {:induction false} TwoTwins(x: Bytes)
    requires !Dotted(x)
    ensures DumpLines([x, Dot(x)]) == [Plus(x)]
  {
    var keys := [x, Dot(x)];
    assert Trim(Dot(x)) == x;
    assert Sorted(LineLe, keys);
    SortFixed(LineLe, keys) by { LineIsTotalOrder(); }
    MergeAt(keys, 0);
    assert keys[0..] == keys && keys[2..] == [];
    SortFixed(LexLe, [Plus(x)]) by { LexIsTotalOrder(); }
  }

  lemma {:induction false} SortFixed(le: (Bytes, Bytes) -> bool, s: seq<Bytes>)
    requires TotalOrder(le) && Sorted(le, s)
    ensures Sort(le, s) == s
  {
    SortedUnique(le, Sort(le, s), s);
  }
}
