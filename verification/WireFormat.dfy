/** Big-endian integers and words.

    The two conversions that need arithmetic are passed around as function
    values with laws, so that everything above them is list reasoning. */
module WireFormat {
  import opened Ordering
  import opened Bitmaps

  const TWO63: int := 0x8000_0000_0000_0000
  const TWO64: int := 0x1_0000_0000_0000_0000

  /** Bits in a byte and bytes in a word: eight, as a value the definitions
      below are not unrolled for. */
  function Width(): nat { var k: nat :| k == 8; k }

  // ---- a byte and its bits, least significant first ----

  function BitsVal(b: seq<bool>): nat { if b == [] then 0 else 2 * BitsVal(b[1..]) + if b[0] then 1 else 0 }

  function ValBits(n: nat, v: nat): (b: seq<bool>)
    ensures |b| == n
  {
    if n == 0 then [] else [v % 2 == 1] + ValBits(n - 1, v / 2)
  }

  ghost function Pow2(n: nat): nat { if n == 0 then 1 else 2 * Pow2(n - 1) }

  lemma {:induction false} BitsRoundTrip(b: seq<bool>)
    ensures ValBits(|b|, BitsVal(b)) == b && BitsVal(b) < Pow2(|b|)
  {
    if b == [] {
    } else {
      BitsRoundTrip(b[1..]);
    }
  }

  lemma {:induction false} ValRoundTrip(n: nat, v: nat)
    requires v < Pow2(n)
    ensures BitsVal(ValBits(n, v)) == v
  {
    if n == 0 {
    } else {
      ValRoundTrip(n - 1, v / 2);
    }
  }

  datatype Octet = Octet(bits: byte -> seq<bool>, value: seq<bool> -> byte)

  ghost predicate OctetLaws(o: Octet) {
    && (forall b :: |o.bits(b)| == 8 && o.value(o.bits(b)) == b)
    && (forall x :: |x| == 8 ==> o.bits(o.value(x)) == x)
  }

  function BinaryOctet(): Octet {
    Octet((b: byte) => ValBits(Width(), b), (x: seq<bool>) => BitsVal(x) % 256)
  }

  lemma {:induction false} ByteRange()
    ensures Width() == 8 && Pow2(Width()) == 256
  {
    assert Pow2(4) == 16 && Pow2(8) == 2 * (2 * (2 * (2 * Pow2(4))));
  }

  lemma {:induction false} ByteReadsBack(b: byte)
    ensures |ValBits(Width(), b)| == 8 && BitsVal(ValBits(Width(), b)) % 256 == b
  {
    ByteRange();
    ValRoundTrip(Width(), b);
  }

  lemma {:induction false} ByteIsUnique(x: seq<bool>)
    requires |x| == 8
    ensures ValBits(Width(), BitsVal(x) % 256) == x
  {
    ByteRange();
    BitsRoundTrip(x);
    assert BitsVal(x) % 256 == BitsVal(x);
  }

  lemma {:induction false} BinaryLaws()
    ensures OctetLaws(BinaryOctet())
  {
    forall b: byte ensures |ValBits(Width(), b)| == 8 && BitsVal(ValBits(Width(), b)) % 256 == b { ByteReadsBack(b); }
    forall x: seq<bool> | |x| == 8 ensures ValBits(Width(), BitsVal(x) % 256) == x { ByteIsUnique(x); }
  }

  // ---- words ----

  /** `u64::to_be_bytes`: byte `k` holds bits `56 - 8k .. 64 - 8k`. */
  function WordBytes(o: Octet, w: Word): (s: Bytes)
    ensures |s| == 8
  {
    seq(8, k requires 0 <= k < 8 => o.value(w[56 - 8 * k..64 - 8 * k]))
  }

  function BitAt(bits: seq<bool>, m: nat): bool { m < |bits| && bits[m] }

  /** Bit `m` of the `j`th byte from the end. */
  function BitOf(o: Octet, s: Bytes, j: nat, m: nat): bool { j < |s| && BitAt(o.bits(s[|s| - 1 - j]), m) }

  function WordBit(o: Octet, s: Bytes, i: nat): bool { BitOf(o, s, i / 8, i % 8) }

  /** `u64::from_be_bytes`. */
  function BytesWord(o: Octet, s: Bytes): (w: Word) { seq(64, i requires 0 <= i < 64 => WordBit(o, s, i)) }

  lemma {:induction false} BitReadsBack(o: Octet, w: Word, j: nat, m: nat)
    requires OctetLaws(o) && j < 8 && m < 8
    ensures BitOf(o, WordBytes(o, w), j, m) == w[8 * j + m]
  {
    var s, x := WordBytes(o, w), w[8 * j..8 * j + 8];
    assert s[7 - j] == o.value(x) && o.bits(s[7 - j]) == x;
  }

  lemma {:induction false} WordRoundTrip(o: Octet, w: Word)
    requires OctetLaws(o)
    ensures BytesWord(o, WordBytes(o, w)) == w
  {
    forall i | 0 <= i < 64 ensures WordBit(o, WordBytes(o, w), i) == w[i] {
      assert i == 8 * (i / 8) + i % 8;
      BitReadsBack(o, w, i / 8, i % 8);
    }
  }

  lemma {:induction false} WordBitAt(o: Octet, s: Bytes, j: nat, m: nat)
    requires j < 8 && m < 8
    ensures BytesWord(o, s)[8 * j + m] == BitOf(o, s, j, m)
  {
    assert (8 * j + m) / 8 == j && (8 * j + m) % 8 == m;
    assert BytesWord(o, s)[8 * j + m] == WordBit(o, s, 8 * j + m);
  }

  lemma {:induction false} ByteOfWord(o: Octet, s: Bytes, k: nat)
    requires OctetLaws(o) && |s| == 8 && k < 8
    ensures BytesWord(o, s)[56 - 8 * k..64 - 8 * k] == o.bits(s[k])
  {
    var x := BytesWord(o, s)[56 - 8 * k..64 - 8 * k];
    forall m | 0 <= m < 8 ensures x[m] == o.bits(s[k])[m] { WordBitAt(o, s, 7 - k, m); }
  }

  lemma {:induction false} WordBytesUnique(o: Octet, s: Bytes)
    requires OctetLaws(o) && |s| == 8
    ensures WordBytes(o, BytesWord(o, s)) == s
  {
    forall k | 0 <= k < 8 ensures WordBytes(o, BytesWord(o, s))[k] == s[k] { ByteOfWord(o, s, k); }
  }

  // ---- lengths ----

  /** The low `n` bytes of `v`, most significant first. */
  function ToBe(n: nat, v: nat): (s: Bytes)
    ensures |s| == n
  {
    if n == 0 then [] else ToBe(n - 1, v / 256) + [v % 256]
  }

  function FromBe(s: Bytes): nat {
    if s == [] then 0 else FromBe(s[..|s| - 1]) * 256 + s[|s| - 1]
  }

  ghost function Pow256(n: nat): nat { if n == 0 then 1 else 256 * Pow256(n - 1) }

  lemma {:induction false} BeRoundTrip(n: nat, v: nat)
    requires v < Pow256(n)
    ensures FromBe(ToBe(n, v)) == v
  {
    if n == 0 {
    } else {
      BeRoundTrip(n - 1, v / 256);
      assert ToBe(n, v)[..n - 1] == ToBe(n - 1, v / 256);
    }
  }

  lemma {:induction false} BeUnique(s: Bytes)
    ensures ToBe(|s|, FromBe(s)) == s && FromBe(s) < Pow256(|s|)
  {
    if s == [] {
    } else {
      BeUnique(s[..|s| - 1]);
      assert s == s[..|s| - 1] + [s[|s| - 1]];
    }
  }

  /** The first byte weighs most. */
  lemma {:induction false} FirstWeighsMost(b: byte, s: Bytes)
    ensures FromBe([b] + s) == b * Pow256(|s|) + FromBe(s)
  {
    if s == [] {
      assert ([b] + s)[..0] == [];
    } else {
      var n := |s| - 1;
      assert ([b] + s)[..n + 1] == [b] + s[..n];
      FirstWeighsMost(b, s[..n]);
      Times256(b, Pow256(n));
    }
  }

  lemma {:induction false} Times256(b: nat, p: nat)
    ensures (b * p) * 256 == b * (256 * p)
  {
  }

  lemma {:induction false} BitsAbove(a: seq<bool>, b: seq<bool>)
    ensures BitsVal(a + b) == BitsVal(a) + Pow2(|a|) * BitsVal(b)
  {
    if a == [] {
      assert a + b == b;
    } else {
      assert (a + b)[1..] == a[1..] + b;
      var p, v, low := Pow2(|a| - 1), BitsVal(b), BitsVal(a[1..]);
      BitsAbove(a[1..], b);
      assert BitsVal((a + b)[1..]) == low + p * v;
      Doubles(p, v);
    }
  }

  lemma {:induction false} Doubles(p: nat, v: nat)
    ensures 2 * (p * v) == 2 * p * v
  {
  }

  /** One more byte, below what is there. */
  lemma {:induction false} ByteBelow(s: Bytes, x: seq<bool>, high: seq<bool>)
    requires FromBe(s) == BitsVal(high) && |x| == 8
    ensures FromBe(s + [BitsVal(x) % 256]) == BitsVal(x + high)
  {
    ByteRange();
    BitsRoundTrip(x);
    BitsAbove(x, high);
    assert (s + [BitsVal(x) % 256])[..|s|] == s;
  }

  /** The bytes of `w` from the `k`th on, below the number of those before. */
  lemma {:induction false} WordIsNumberFrom(o: Octet, w: Word, s: Bytes, k: nat, low: nat)
    requires (forall x: seq<bool> :: |x| == 8 ==> o.value(x) == BitsVal(x) % 256) && |s| == 8
    requires forall j: nat :: j < 8 ==> s[j] == o.value(w[56 - 8 * j..64 - 8 * j])
    requires k <= 8 && low == 64 - 8 * k && FromBe(s[..k]) == BitsVal(w[low..])
    ensures FromBe(s) == BitsVal(w)
    decreases low
  {
    if low == 0 {
      assert s[..k] == s && w[low..] == w;
    } else {
      NextByte(o, w, s, k, low - 8);
      WordIsNumberFrom(o, w, s, k + 1, low - 8);
    }
  }

  lemma {:induction false} NextByte(o: Octet, w: Word, s: Bytes, k: nat, low: nat)
    requires (forall x: seq<bool> :: |x| == 8 ==> o.value(x) == BitsVal(x) % 256) && k < |s| && low + 8 <= |w|
    requires s[k] == o.value(w[low..low + 8]) && FromBe(s[..k]) == BitsVal(w[low + 8..])
    ensures FromBe(s[..k + 1]) == BitsVal(w[low..])
  {
    ByteBelow(s[..k], w[low..low + 8], w[low + 8..]);
    assert s[..k + 1] == s[..k] + [s[k]] && w[low..] == w[low..low + 8] + w[low + 8..];
  }

  /** The eight bytes of a word are the big-endian form of the number whose
      binary digit of weight two to the `i` is bit `i`. */
  lemma {:induction false} WordIsNumber(w: Word)
    ensures FromBe(WordBytes(BinaryOctet(), w)) == BitsVal(w)
  {
    var s := WordBytes(BinaryOctet(), w);
    assert s[..0] == [] && w[64..] == [];
    WordIsNumberFrom(BinaryOctet(), w, s, 0, 64);
  }

  lemma {:induction false} EightBytes()
    ensures Pow256(8) == TWO64
  {
    assert Pow256(4) == 0x1_0000_0000;
    assert Pow256(8) == 256 * (256 * (256 * (256 * Pow256(4))));
  }

  lemma {:induction false} WidthRange()
    ensures Width() == 8 && Pow256(Width()) == TWO64
  {
    EightBytes();
  }

  /** `i64::from_be_bytes` of the unsigned value. */
  function Signed(u: nat): int { if u < TWO63 then u else u - TWO64 }

  /** `len as i64` in big-endian bytes, and back. */
  function LenBytes(n: nat): Bytes { ToBe(Width(), n % TWO64) }

  function LenOf(s: Bytes): int { Signed(FromBe(s)) }

  lemma {:induction false} LengthReadsBack(n: nat)
    requires n < TWO63
    ensures LenOf(LenBytes(n)) == n
  {
    WidthRange();
    assert n % TWO64 == n;
    BeRoundTrip(Width(), n);
  }

  lemma {:induction false} LengthIsUnique(s: Bytes)
    requires |s| == 8 && LenOf(s) >= 0
    ensures LenOf(s) < TWO63 && LenBytes(LenOf(s)) == s
  {
    WidthRange();
    BeUnique(s);
    assert FromBe(s) % TWO64 == FromBe(s);
  }

  /** How lengths and words are written and read. */
  datatype Codec = Codec(lenBytes: nat -> Bytes, lenOf: Bytes -> int, wordBytes: Word -> Bytes, wordOf: Bytes -> Word)

  ghost predicate LengthLaws(c: Codec) {
    && (forall n :: |c.lenBytes(n)| == 8)
    && (forall n: nat :: n < TWO63 ==> c.lenOf(c.lenBytes(n)) == n)
    && (forall s :: |s| == 8 && c.lenOf(s) >= 0 ==> c.lenOf(s) < TWO63 && c.lenBytes(c.lenOf(s)) == s)
  }

  ghost predicate WordLaws(c: Codec) {
    && (forall w :: |c.wordBytes(w)| == 8 && c.wordOf(c.wordBytes(w)) == w)
    && (forall s :: |s| == 8 ==> c.wordBytes(c.wordOf(s)) == s)
  }

  /** Reading undoes writing and writing undoes reading. */
  ghost predicate Lawful(c: Codec) { LengthLaws(c) && WordLaws(c) }

  function BigEndian(): Codec {
    Codec(LenBytes, LenOf, (w: Word) => WordBytes(BinaryOctet(), w), (s: Bytes) => BytesWord(BinaryOctet(), s))
  }

  lemma {:induction false} BigEndianLengths()
    ensures LengthLaws(BigEndian())
  {
    WidthRange();
    forall n: nat | n < TWO63 ensures LenOf(LenBytes(n)) == n { LengthReadsBack(n); }
    forall s: Bytes | |s| == 8 && LenOf(s) >= 0 ensures LenOf(s) < TWO63 && LenBytes(LenOf(s)) == s {
      LengthIsUnique(s);
    }
  }

  lemma {:induction false} BigEndianWords()
    ensures WordLaws(BigEndian())
  {
    var o := BinaryOctet();
    BinaryLaws();
    forall w: Word ensures BytesWord(o, WordBytes(o, w)) == w { WordRoundTrip(o, w); }
    forall s: Bytes | |s| == 8 ensures WordBytes(o, BytesWord(o, s)) == s { WordBytesUnique(o, s); }
  }

  lemma {:induction false} BigEndianLawful()
    ensures Lawful(BigEndian())
  {
    BigEndianLengths();
    BigEndianWords();
  }
}
