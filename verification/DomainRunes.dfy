/** UTF-8 text as the characters it stands for: reading a stored key backwards
    reverses characters, not bytes. */
module DomainRunes {
  import opened DomainLines
  import opened DomainText
  import opened Ordering
  import opened Sequences
  import opened Wrappers

  /** A Unicode scalar value. */
  type Scalar = c: int | 0 <= c < 0x11_0000 && !(0xD800 <= c < 0xE000)

  /** Six bits go into each byte after the first. */
  function EncodeRune(c: Scalar): Bytes {
    if c < 0x80 then [c]
    else if c < 0x800 then [0xC0 + c / 64, 0x80 + c % 64]
    else if c < 0x1_0000 then [0xE0 + c / 64 / 64, 0x80 + c / 64 % 64, 0x80 + c % 64]
    else [0xF0 + c / 64 / 64 / 64, 0x80 + c / 64 / 64 % 64, 0x80 + c / 64 % 64, 0x80 + c % 64]
  }

  function Encoded(text: seq<Scalar>): Bytes {
    if text == [] then [] else EncodeRune(text[0]) + Encoded(text[1..])
  }

  function Backwards(text: seq<Scalar>): seq<Scalar> {
    if text == [] then [] else Backwards(text[1..]) + [text[0]]
  }

  // ---- one character ----

  lemma {:induction false} EncodedIsRune(c: Scalar)
    ensures |EncodeRune(c)| > 0 && RuneLen(EncodeRune(c)) == |EncodeRune(c)|
  {
  }

  lemma {:induction false} SixBits(high: nat, low: nat)
    requires low < 64
    ensures (high * 64 + low) / 64 == high && (high * 64 + low) % 64 == low
  {
  }

  lemma {:induction false} TwoBytes(lead: nat, low: nat)
    requires 2 <= lead < 32 && low < 64
    ensures EncodeRune(lead * 64 + low) == [0xC0 + lead, 0x80 + low]
  {
    SixBits(lead, low);
  }

  lemma {:induction false} ThreeBytes(lead: nat, mid: nat, low: nat)
    requires lead < 16 && mid < 64 && low < 64 && (lead == 0 ==> 32 <= mid) && (lead == 13 ==> mid < 32)
    ensures var c := (lead * 64 + mid) * 64 + low;
            0 <= c < 0x1_0000 && !(0xD800 <= c < 0xE000) && EncodeRune(c) == [0xE0 + lead, 0x80 + mid, 0x80 + low]
  {
    SixBits(lead, mid);
    SixBits(lead * 64 + mid, low);
  }

  lemma {:induction false} FourBytes(lead: nat, high: nat, mid: nat, low: nat)
    requires lead < 5 && high < 64 && mid < 64 && low < 64 && (lead == 0 ==> 16 <= high) && (lead == 4 ==> high < 16)
    ensures var c := ((lead * 64 + high) * 64 + mid) * 64 + low;
            && 0x1_0000 <= c < 0x11_0000
            && EncodeRune(c) == [0xF0 + lead, 0x80 + high, 0x80 + mid, 0x80 + low]
  {
    SixBits(lead, high);
    SixBits(lead * 64 + high, mid);
    SixBits((lead * 64 + high) * 64 + mid, low);
  }

  lemma {:induction false} RuneIsEncoded(s: Bytes) returns (c: Scalar)
    requires RuneLen(s) > 0
    ensures s[..RuneLen(s)] == EncodeRune(c)
  {
    var n := RuneLen(s);
    if n == 1 {
      c := s[0];
    } else if n == 2 {
      var lead: nat, low: nat := s[0] - 0xC0, s[1] - 0x80;
      TwoBytes(lead, low);
      c := lead * 64 + low;
    } else if n == 3 {
      var lead: nat, mid: nat, low: nat := s[0] - 0xE0, s[1] - 0x80, s[2] - 0x80;
      ThreeBytes(lead, mid, low);
      c := (lead * 64 + mid) * 64 + low;
    } else {
      var lead: nat, high: nat, mid: nat, low: nat := s[0] - 0xF0, s[1] - 0x80, s[2] - 0x80, s[3] - 0x80;
      FourBytes(lead, high, mid, low);
      c := ((lead * 64 + high) * 64 + mid) * 64 + low;
    }
  }

  /** What follows a character does not matter. */
  lemma {:induction false} RuneThenMore(r: Bytes, more: Bytes)
    requires RuneLen(r) == |r| > 0
    ensures RuneLen(r + more) == |r|
  {
  }

  // ---- text ----

  lemma {:induction false} OneRune(r: Bytes)
    requires RuneLen(r) == |r| > 0
    ensures ReversedText(r) == Some(r)
  {
    assert r[|r|..] == [] && r[..|r|] == r && [] + r == r;
  }

  lemma {:induction false} RuneFirst(r: Bytes, more: Bytes)
    requires RuneLen(r) == |r| > 0
    ensures Utf8(r + more) <==> Utf8(more)
    ensures Utf8(more) ==> ReversedText(r + more) == Some(ReversedText(more).value + r)
  {
    RuneThenMore(r, more);
    assert (r + more)[|r|..] == more && (r + more)[..|r|] == r;
  }

  /** Text after text reads back as the second reversed before the first. */
  lemma {:induction false} ReversedConcat(a: Bytes, b: Bytes)
    requires Utf8(a) && Utf8(b)
    ensures ReversedText(a + b) == Some(ReversedText(b).value + ReversedText(a).value)
  {
    if a == [] {
      assert a + b == b && ReversedText(b).value + [] == ReversedText(b).value;
    } else {
      var n := RuneLen(a);
      var (r, rest) := (a[..n], a[n..]);
      var c := RuneIsEncoded(a);
      EncodedIsRune(c);
      assert a == r + rest && a + b == r + (rest + b);
      ReversedConcat(rest, b);
      RuneFirst(r, rest + b);
      RuneFirst(r, rest);
      Regroup(ReversedText(b).value, ReversedText(rest).value, r);
    }
  }

  /** Reading backwards twice gives the text back. */
  lemma {:induction false} ReversedTwice(s: Bytes)
    requires Utf8(s)
    ensures Utf8(ReversedText(s).value) && ReversedText(ReversedText(s).value) == Some(s)
  {
    if s == [] {
    } else {
      var n := RuneLen(s);
      var (r, rest) := (s[..n], s[n..]);
      var c := RuneIsEncoded(s);
      EncodedIsRune(c);
      assert s == r + rest;
      ReversedTwice(rest);
      OneRune(r);
      ReversedConcat(ReversedText(rest).value, r);
    }
  }

  lemma {:induction false} EncodedConcat(a: seq<Scalar>, b: seq<Scalar>)
    ensures Encoded(a + b) == Encoded(a) + Encoded(b)
  {
    if a == [] {
      assert a + b == b;
    } else {
      assert (a + b)[1..] == a[1..] + b;
      EncodedConcat(a[1..], b);
    }
  }

  lemma {:induction false} EncodedOne(c: Scalar)
    ensures Encoded([c]) == EncodeRune(c)
  {
    assert [c][1..] == [] && EncodeRune(c) + [] == EncodeRune(c);
  }

  /** Reversal is that of the characters. */
  lemma {:induction false} TextReversed(text: seq<Scalar>)
    ensures ReversedText(Encoded(text)) == Some(Encoded(Backwards(text)))
  {
    if text == [] {
    } else {
      EncodedIsRune(text[0]);
      TextReversed(text[1..]);
      RuneFirst(EncodeRune(text[0]), Encoded(text[1..]));
      EncodedConcat(Backwards(text[1..]), [text[0]]);
      EncodedOne(text[0]);
    }
  }

  /** The characters of `s`. */
  lemma {:induction false} Characters(s: Bytes) returns (text: seq<Scalar>)
    requires Utf8(s)
    ensures s == Encoded(text)
  {
    if s == [] {
      text := [];
    } else {
      var n := RuneLen(s);
      var c := RuneIsEncoded(s);
      var rest := Characters(s[n..]);
      text := [c] + rest;
      assert text[1..] == rest && s == s[..n] + s[n..];
    }
  }

  ghost predicate IsText(s: Bytes) { exists text: seq<Scalar> :: s == Encoded(text) }

  /** A key is skipped exactly if it is not the encoding of some text, and read
      as the reversed text otherwise. */
  lemma {:induction false} ReadsTextBackwards(s: Bytes)
    ensures Utf8(s) <==> IsText(s)
    ensures forall text: seq<Scalar> :: s == Encoded(text) ==> ReversedText(s) == Some(Encoded(Backwards(text)))
  {
    if Utf8(s) {
      var text := Characters(s);
    }
    if IsText(s) {
      var text: seq<Scalar> :| s == Encoded(text);
      TextReversed(text);
    }
    forall text: seq<Scalar> | s == Encoded(text) ensures ReversedText(s) == Some(Encoded(Backwards(text))) {
      TextReversed(text);
    }
  }

  /** A reversed text ends with its first character. */
  lemma {:induction false} BackwardsEnds(text: seq<Scalar>)
    requires text != []
    ensures Encoded(Backwards(text)) == Encoded(Backwards(text[1..])) + EncodeRune(text[0])
  {
    EncodedConcat(Backwards(text[1..]), [text[0]]);
    EncodedOne(text[0]);
  }

  lemma {:induction false} BackwardsRead(text: seq<Scalar>)
    ensures ReversedText(Encoded(Backwards(text))) == Some(Encoded(text))
  {
    TextReversed(text);
    ReversedTwice(Encoded(text));
  }

  /** The `+` byte ends no other character. */
  lemma {:induction false} PlusEnds(c: Scalar)
    ensures var r := EncodeRune(c); r != [] && (r[|r| - 1] == PLUS <==> c == PLUS) && (r[0] == PLUS <==> c == PLUS)
  {
  }

  /** A key stored by reversing characters, as other writers do, reads back as
      its entry less a leading `+`, whatever its characters. */
  lemma {:induction false} RuneKeyDecodes(text: seq<Scalar>)
    ensures DecodeKey(Encoded(Backwards(text))) == Some(StripPlus(Encoded(text)))
  {
    BackwardsRead(text);
    if text == [] {
    } else {
      var key, r, rest := Encoded(Backwards(text)), EncodeRune(text[0]), text[1..];
      BackwardsEnds(text);
      PlusEnds(text[0]);
      assert key[|key| - 1] == r[|r| - 1] && Encoded(text)[0] == r[0];
      if text[0] == PLUS {
        assert key[..|key| - 1] == Encoded(Backwards(rest)) && Encoded(text)[1..] == Encoded(rest);
        BackwardsRead(rest);
      }
    }
  }
}
