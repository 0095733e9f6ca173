/** Bit vectors stored as 64-bit words, with the rank directory and the
    word-level `select` the domain-set reader navigates by.

    A `u64` is its 64 bits, least significant first, so `|=`, `&`, the
    borrow of `wrapping_sub(1)` and `count_ones` are all list operations. */
module Bitmaps {
  import opened Wrappers

  type Word = w: seq<bool> | |w| == 64 witness seq(64, _ => false)

  const ZERO: Word := seq(64, _ => false)

  predicate GetBit(bits: seq<Word>, idx: nat) {
    idx / 64 < |bits| && bits[idx / 64][idx % 64]
  }

  /** Zero-fill up to `idx`'s word, then set the bit. */
  method SetBit(bits: seq<Word>, idx: nat) returns (r: seq<Word>)
    ensures forall i: nat :: GetBit(r, i) == (GetBit(bits, i) || i == idx)
    ensures |r| == if |bits| <= idx / 64 then idx / 64 + 1 else |bits|
  {
    var word := idx / 64;
    r := bits;
    if |r| <= word {
      r := r + seq(word + 1 - |r|, _ => ZERO);
    }
    ghost var grown := r;
    assert forall i: nat :: GetBit(grown, i) == GetBit(bits, i);
    r := r[word := r[word][idx % 64 := true]];
    forall i: nat ensures GetBit(r, i) == (GetBit(grown, i) || i == idx) {
      assert i == i / 64 * 64 + i % 64 && idx == word * 64 + idx % 64;
    }
  }

  function CountOnes(s: seq<bool>): (n: nat)
    ensures n <= |s|
  {
    if s == [] then 0 else CountOnes(s[..|s| - 1]) + if s[|s| - 1] then 1 else 0
  }

  /** How many of the first `n` bits are set. */
  ghost function Rank(bits: seq<Word>, n: nat): (r: nat)
    ensures r <= n
  {
    if n == 0 then 0 else Rank(bits, n - 1) + if GetBit(bits, n - 1) then 1 else 0
  }

  lemma {:induction false} RankMonotone(bits: seq<Word>, m: nat, n: nat)
    requires m <= n
    ensures Rank(bits, m) <= Rank(bits, n) <= Rank(bits, m) + (n - m)
  {
    if m >= n {
    } else {
      RankMonotone(bits, m, n - 1);
    }
  }

  lemma {:induction false} RankInWord(bits: seq<Word>, word: nat, b: nat)
    requires word < |bits| && b <= 64
    ensures Rank(bits, 64 * word + b) == Rank(bits, 64 * word) + CountOnes(bits[word][..b])
  {
    if b == 0 {
    } else {
      RankInWord(bits, word, b - 1);
      var i := 64 * word + b - 1;
      assert i / 64 == word && i % 64 == b - 1;
      assert bits[word][..b][..b - 1] == bits[word][..b - 1];
    }
  }

  /** Position of the `nth` set bit, if there is one: it is unique. */
  ghost predicate IsSelect(bits: seq<Word>, nth: nat, p: nat) {
    GetBit(bits, p) && Rank(bits, p) == nth
  }

  lemma {:induction false} SelectUnique(bits: seq<Word>, nth: nat, p: nat, q: nat)
    requires IsSelect(bits, nth, p) && IsSelect(bits, nth, q)
    ensures p == q
  {
    if p < q {
      RankMonotone(bits, p + 1, q);
    } else if q < p {
      RankMonotone(bits, q + 1, p);
    }
  }

  lemma {:induction false} SelectExists(bits: seq<Word>, nth: nat, n: nat)
    requires nth < Rank(bits, n)
    ensures exists p: nat :: IsSelect(bits, nth, p)
  {
    if Rank(bits, n - 1) <= nth {
      assert IsSelect(bits, nth, n - 1);
    } else {
      SelectExists(bits, nth, n - 1);
    }
  }

  lemma {:induction false} CountWhole(w: Word)
    ensures CountOnes(w) == CountOnes(w[..64])
  {
    assert w[..64] == w;
  }

  /** `DomainSetIndex::new`: ones before each word, plus the total. */
  method BuildRanks(bits: seq<Word>) returns (ranks: seq<nat>)
    ensures |ranks| == |bits| + 1
    ensures forall w :: 0 <= w <= |bits| ==> ranks[w] == Rank(bits, 64 * w)
  {
    ranks := [];
    var seen := 0;
    for w := 0 to |bits|
      invariant |ranks| == w && seen == Rank(bits, 64 * w)
      invariant forall v :: 0 <= v < w ==> ranks[v] == Rank(bits, 64 * v)
    {
      ranks := ranks + [seen];
      RankInWord(bits, w, 64);
      CountWhole(bits[w]);
      seen := seen + CountOnes(bits[w]);
    }
    ranks := ranks + [seen];
  }

  ghost predicate IsRanks(bits: seq<Word>, ranks: seq<nat>) {
    |ranks| == |bits| + 1 && forall w :: 0 <= w <= |bits| ==> ranks[w] == Rank(bits, 64 * w)
  }

  function Min(a: nat, b: nat): nat { if a < b then a else b }

  /** `count_zeros`: clamped to the stored bits, from the directory plus one
      masked word. */
  method CountZeros(ranks: seq<nat>, bits: seq<Word>, upto: nat) returns (zeros: nat)
    requires IsRanks(bits, ranks)
    ensures zeros == Min(upto, 64 * |bits|) - Rank(bits, Min(upto, 64 * |bits|))
  {
    var total := |bits| * 64;
    var clamped := if upto < total then upto else total;
    var word := clamped / 64;
    var bit := clamped % 64;
    assert clamped == 64 * word + bit;
    var ones := ranks[word];
    if bit > 0 {
      RankInWord(bits, word, bit);
      ones := ones + CountOnes(bits[word][..bit]);
    }
    zeros := clamped - ones;
  }

  /** `slice::partition_point(|&ones| ones <= nth)`: the first index whose
      entry exceeds `nth` (for a non-decreasing directory every earlier
      entry is `<= nth` and no later one is). */
  function PartitionPoint(ranks: seq<nat>, nth: nat): (p: nat)
    ensures p <= |ranks|
    ensures forall i :: 0 <= i < p ==> ranks[i] <= nth
    ensures p < |ranks| ==> nth < ranks[p]
  {
    if ranks == [] || nth < ranks[0] then 0 else 1 + PartitionPoint(ranks[1..], nth)
  }

  /** Subtract one from a bit string, borrowing upwards and wrapping at 0. */
  function Decrement(s: seq<bool>): (r: seq<bool>)
    ensures |r| == |s|
  {
    if s == [] then [] else if s[0] then [false] + s[1..] else [true] + Decrement(s[1..])
  }

  function And(a: seq<bool>, b: seq<bool>): (r: seq<bool>)
    requires |a| == |b|
    ensures |r| == |a| && forall i :: 0 <= i < |a| ==> r[i] == (a[i] && b[i])
  {
    seq(|a|, i requires 0 <= i < |a| => a[i] && b[i])
  }

  function TrailingZeros(s: seq<bool>): (n: nat)
    ensures n <= |s|
    ensures forall i :: 0 <= i < n ==> !s[i]
    ensures n < |s| ==> s[n]
  {
    if s == [] || s[0] then 0 else 1 + TrailingZeros(s[1..])
  }

  /** `x &= x.wrapping_sub(1)` clears exactly the lowest set bit. */
  lemma {:induction false} ClearLowest(s: seq<bool>, i: nat)
    requires i < |s|
    ensures And(s, Decrement(s))[i] == (s[i] && i != TrailingZeros(s))
  {
    if s[0] || i == 0 {
    } else {
      ClearLowest(s[1..], i - 1);
    }
  }

  /** `select_one`: directory lookup, then a search inside the word. */
  method SelectOne(ranks: seq<nat>, bits: seq<Word>, nth: nat) returns (r: Option<nat>)
    requires IsRanks(bits, ranks)
    ensures r.None? <==> Rank(bits, 64 * |bits|) <= nth
    ensures r.Some? ==> IsSelect(bits, nth, r.value)
  {
    var p := PartitionPoint(ranks, nth);
    assert ranks[0] == 0;
    var word := p - 1;
    if word >= |bits| {
      return None;
    }
    assert ranks[word] <= nth < ranks[word + 1];
    WordTotal(bits, word);
    var t := SelectInWord(bits[word], nth - ranks[word]);
    SelectAt(bits, word, t);
    r := Some(word * 64 + t);
  }

  lemma {:induction false} WordTotal(bits: seq<Word>, word: nat)
    requires word < |bits|
    ensures Rank(bits, 64 * (word + 1)) == Rank(bits, 64 * word) + CountOnes(bits[word])
    ensures Rank(bits, 64 * (word + 1)) <= Rank(bits, 64 * |bits|)
  {
    RankMonotone(bits, 64 * (word + 1), 64 * |bits|);
    RankInWord(bits, word, 64);
    CountWhole(bits[word]);
  }

  lemma {:induction false} SelectAt(bits: seq<Word>, word: nat, t: nat)
    requires word < |bits| && t < 64 && bits[word][t]
    ensures IsSelect(bits, Rank(bits, 64 * word) + CountOnes(bits[word][..t]), word * 64 + t)
  {
    RankInWord(bits, word, t);
    assert (word * 64 + t) / 64 == word && (word * 64 + t) % 64 == t;
  }

  /** Clear the `k` lowest ones, then read off the next. */
  method SelectInWord(w: Word, k: nat) returns (t: nat)
    requires k < CountOnes(w)
    ensures t < 64 && w[t] && CountOnes(w[..t]) == k
  {
    var remaining := w;
    ghost var low := 0;
    for done := 0 to k
      invariant low <= 64 && CountOnes(w[..low]) == done
      invariant forall i :: 0 <= i < 64 ==> remaining[i] == (low <= i && w[i])
    {
      remaining, low := ClearStep(remaining, w, low, done);
    }
    NextOne(remaining, w, low, k);
    t := TrailingZeros(remaining);
  }

  /** The next set bit of `w` at or above `low` is the lowest of `remaining`. */
  lemma {:induction false} NextOne(remaining: Word, w: Word, low: nat, k: nat)
    requires low <= 64 && CountOnes(w[..low]) == k < CountOnes(w)
    requires forall i :: 0 <= i < 64 ==> remaining[i] == (low <= i && w[i])
    ensures var t := TrailingZeros(remaining);
            low <= t < 64 && w[t] && CountOnes(w[..t]) == k
  {
    var t := TrailingZeros(remaining);
    CountWhole(w);
    if t < low {
      assert false;
    }
    CountBlank(w, low, t);
  }

  lemma {:induction false} CountBlank(w: seq<bool>, m: nat, n: nat)
    requires m <= n <= |w|
    requires forall i :: m <= i < n ==> !w[i]
    ensures CountOnes(w[..n]) == CountOnes(w[..m])
  {
    if m >= n {
    } else {
      assert w[..n][..n - 1] == w[..n - 1];
      CountBlank(w, m, n - 1);
    }
  }

  method ClearStep(remaining: Word, ghost w: Word, ghost low: nat, ghost k: nat) returns (next: Word, ghost low': nat)
    requires low <= 64 && CountOnes(w[..low]) == k < CountOnes(w)
    requires forall i :: 0 <= i < 64 ==> remaining[i] == (low <= i && w[i])
    ensures low < low' <= 64 && CountOnes(w[..low']) == k + 1
    ensures forall i :: 0 <= i < 64 ==> next[i] == (low' <= i && w[i])
  {
    NextOne(remaining, w, low, k);
    forall i | 0 <= i < 64 { ClearLowest(remaining, i); }
    ghost var t := TrailingZeros(remaining);
    low' := t + 1;
    next := And(remaining, Decrement(remaining));
    assert w[..t + 1][..t] == w[..t];
  }
}
