/** Stored keys as text: a key is valid UTF-8 read rune by rune from the
    back, with one trailing `+` marker dropped. */
module DomainText {
  import opened Wrappers
  import opened Ordering
  import opened DomainSetWriter
  import opened DomainLines

  predicate Cont(b: byte) { 0x80 <= b < 0xC0 }

  /** Length of the UTF-8 character at the front; 0 if there is none. */
  function RuneLen(s: Bytes): (n: nat)
    ensures n <= |s|
    ensures n == 1 ==> s[0] < 0x80
    ensures n > 1 ==> Cont(s[n - 1])
  {
    if s == [] then 0
    else if s[0] < 0x80 then 1
    else if 0xC2 <= s[0] < 0xE0 then
      if |s| >= 2 && Cont(s[1]) then 2 else 0
    else if 0xE0 <= s[0] < 0xF0 then
      if |s| >= 3 && Cont(s[1]) && Cont(s[2]) && (s[0] == 0xE0 ==> 0xA0 <= s[1]) && (s[0] == 0xED ==> s[1] < 0xA0)
      then 3 else 0
    else if 0xF0 <= s[0] < 0xF5 then
      if |s| >= 4 && Cont(s[1]) && Cont(s[2]) && Cont(s[3]) && (s[0] == 0xF0 ==> 0x90 <= s[1])
          && (s[0] == 0xF4 ==> s[1] < 0x90)
      then 4 else 0
    else 0
  }

  /** The characters of `s` in reverse order, or `None` if `s` is not UTF-8. */
  function ReversedText(s: Bytes): Option<Bytes> {
    if s == [] then Some([])
    else if RuneLen(s) == 0 then None
    else match ReversedText(s[RuneLen(s)..])
      case None => None
      case Some(t) => Some(t + s[..RuneLen(s)])
  }

  predicate Utf8(s: Bytes) { ReversedText(s).Some? }

  predicate Ascii(s: Bytes) { forall i :: 0 <= i < |s| ==> s[i] < 0x80 }

  /** A key of the set as its domain. */
  function DecodeKey(key: Bytes): Option<Bytes> {
    if key != [] && key[|key| - 1] == PLUS then ReversedText(key[..|key| - 1]) else ReversedText(key)
  }

  function StripPlus(e: Bytes): Bytes { if e != [] && e[0] == PLUS then e[1..] else e }

  lemma {:induction false} AsciiReversed(s: Bytes)
    requires Ascii(s)
    ensures ReversedText(s) == Some(Reversed(s))
  {
    if s == [] {
    } else {
      AsciiReversed(s[1..]);
      assert Reversed(s) == Reversed(s[1..]) + s[..1];
    }
  }

  /** The last byte above ASCII in UTF-8 text ends a character. */
  lemma {:induction false} LastHigh(e: Bytes) returns (k: nat)
    requires Utf8(e) && !Ascii(e)
    ensures k < |e| && Cont(e[k]) && Ascii(e[k + 1..])
  {
    var n := RuneLen(e);
    var rest := e[n..];
    if Ascii(rest) {
      k := n - 1;
      assert e == e[..n] + rest;
      assert Ascii(e[..n]) ==> Ascii(e);
    } else {
      k := LastHigh(rest);
      k := k + n;
      assert e[k + 1..] == rest[k - n + 1..];
    }
  }

  lemma {:induction false} ContStops(r: Bytes, m: nat)
    requires m < |r| && Ascii(r[..m]) && Cont(r[m])
    ensures ReversedText(r).None?
  {
    if m == 0 {
    } else {
      assert r[0] == r[..m][0] && r[1..][..m - 1] == r[..m][1..];
      ContStops(r[1..], m - 1);
    }
  }

  /** Byte-wise reversal of UTF-8 text is UTF-8 again only for ASCII. */
  lemma {:induction false} ReversalKeepsAscii(e: Bytes)
    requires Utf8(e)
    ensures ReversedText(Reversed(e)) == if Ascii(e) then Some(e) else None
  {
    if Ascii(e) {
      AsciiReversed(Reversed(e));
      assert Reversed(Reversed(e)) == e;
    } else {
      var k := LastHigh(e);
      var m := |e| - 1 - k;
      forall i | 0 <= i < m ensures Reversed(e)[..m][i] < 0x80 {
        assert Reversed(e)[i] == e[k + 1..][|e| - 1 - i - (k + 1)];
      }
      ContStops(Reversed(e), m);
    }
  }

  /** What reading gives for a written entry: the entry, less a leading `+`,
      exactly when it is ASCII. */
  lemma {:induction false} EntryDecodes(e: Bytes)
    requires Utf8(e)
    ensures DecodeKey(Reversed(e)) == if Ascii(e) then Some(StripPlus(e)) else None
  {
    var key := Reversed(e);
    if e != [] && e[0] == PLUS {
      assert key[..|key| - 1] == Reversed(e[1..]);
      ReversalKeepsAscii(e[1..]);
      assert e == [e[0]] + e[1..];
    } else {
      ReversalKeepsAscii(e);
    }
  }

  // ---- whole sets ----

  function FlatMap<S, T>(f: S -> seq<T>, s: seq<S>): seq<T> {
    if s == [] then [] else FlatMap(f, s[..|s| - 1]) + f(s[|s| - 1])
  }

  lemma {:induction false} FlatMapConcat<S, T>(f: S -> seq<T>, a: seq<S>, b: seq<S>)
    ensures FlatMap(f, a + b) == FlatMap(f, a) + FlatMap(f, b)
  {
    if b == [] {
      assert a + b == a;
    } else {
      var n := |b| - 1;
      FlatMapConcat(f, a, b[..n]);
      assert (a + b)[..|a| + n] == a + b[..n];
    }
  }

  lemma {:induction false} FlatMapRemove<S, T>(f: S -> seq<T>, a: seq<S>, x: S, b: seq<S>)
    ensures multiset(FlatMap(f, a + [x] + b)) == multiset(FlatMap(f, a + b)) + multiset(f(x))
  {
    FlatMapConcat(f, a + [x], b);
    FlatMapConcat(f, a, b);
    assert (a + [x])[..|a|] == a;
  }

  lemma {:induction false} FlatMapPermute<S, T>(f: S -> seq<T>, a: seq<S>, b: seq<S>)
    requires multiset(a) == multiset(b)
    ensures multiset(FlatMap(f, a)) == multiset(FlatMap(f, b))
  {
    if a == [] {
      assert |multiset(b)| == |b|;
    } else {
      var l, r := Unshared(a, b);
      FlatMapPermute(f, a[..|a| - 1], l + r);
      FlatMapRemove(f, l, a[|a| - 1], r);
    }
  }

  /** `b` around one occurrence of the last element of `a`. */
  lemma {:induction false} Unshared<S>(a: seq<S>, b: seq<S>) returns (l: seq<S>, r: seq<S>)
    requires a != [] && multiset(a) == multiset(b)
    ensures b == l + [a[|a| - 1]] + r && multiset(a[..|a| - 1]) == multiset(l + r)
  {
    var n := |a| - 1;
    var x := a[n];
    assert x in multiset(a);
    var k :| 0 <= k < |b| && b[k] == x;
    l, r := b[..k], b[k + 1..];
    assert b == l + [x] + r;
    assert a == a[..n] + [x] + [] && a[..n] + [] == a[..n];
    AroundOne(l, x, r);
    AroundOne(a[..n], x, []);
  }

  lemma {:induction false} AroundOne<S>(l: seq<S>, x: S, r: seq<S>)
    ensures multiset(l + r) == multiset(l + [x] + r) - multiset{x}
  {
    assert multiset(l + [x] + r) == multiset(l) + multiset{x} + multiset(r);
  }

  /** The domain of a key, or nothing. */
  function Domain(key: Bytes): seq<Bytes> { match DecodeKey(key) case Some(d) => [d] case None => [] }

  function Domains(keys: seq<Bytes>): seq<Bytes> { FlatMap(Domain, keys) }

  method DecodeKeys(keys: seq<Bytes>) returns (domains: seq<Bytes>, skipped: nat)
    ensures domains == Domains(keys) && skipped == |keys| - |domains|
  {
    domains, skipped := [], 0;
    for i := 0 to |keys|
      invariant domains == Domains(keys[..i]) && skipped == i - |domains|
    {
      assert keys[..i + 1][..i] == keys[..i];
      match DecodeKey(keys[i]) {
        case Some(d) => domains := domains + [d];
        case None => skipped := skipped + 1;
      }
    }
    assert keys[..|keys|] == keys;
  }

  /** What an entry reads back as. */
  function AsRead(e: Bytes): seq<Bytes> { if Ascii(e) then [StripPlus(e)] else [] }

  function Readable(entries: seq<Bytes>): seq<Bytes> { FlatMap(AsRead, entries) }

  lemma {:induction false} ReversedEntries(entries: seq<Bytes>, rev: seq<Bytes>)
    requires |rev| == |entries| && forall i :: 0 <= i < |rev| ==> rev[i] == Reversed(entries[i])
    requires forall i :: 0 <= i < |entries| ==> Utf8(entries[i])
    ensures Domains(rev) == Readable(entries)
  {
    if rev == [] {
    } else {
      var n := |rev| - 1;
      ReversedEntries(entries[..n], rev[..n]);
      EntryDecodes(entries[n]);
    }
  }

  /** Decoding the stored keys gives back every ASCII entry, less a leading
      `+`, and nothing else. */
  lemma {:induction false} StoredKeysDecode(entries: seq<Bytes>)
    requires forall i :: 0 <= i < |entries| ==> Utf8(entries[i])
    ensures multiset(Domains(StoredKeys(entries))) == multiset(Readable(entries))
  {
    var rev := seq(|entries|, i requires 0 <= i < |entries| => Reversed(entries[i]));
    ReversedEntries(entries, rev);
    LexIsTotalOrder();
    FlatMapPermute(Domain, StoredKeys(entries), rev);
  }
}
