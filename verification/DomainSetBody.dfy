/** The byte form of the domain set: version, two length-prefixed vectors of
    words, then the length-prefixed labels, over any lawful codec. */
module DomainSetBody {
  import opened Wrappers
  import opened Ordering
  import opened Bitmaps
  import opened DomainSet
  import opened DomainSetWriter
  import opened DomainSetReader
  import opened WireFormat

  // ---- vectors of words ----

  function WordsBytes(c: Codec, ws: seq<Word>): Bytes {
    if ws == [] then [] else WordsBytes(c, ws[..|ws| - 1]) + c.wordBytes(ws[|ws| - 1])
  }

  function BytesWords(c: Codec, s: Bytes): seq<Word> {
    if |s| < 8 then [] else BytesWords(c, s[..|s| - 8]) + [c.wordOf(s[|s| - 8..])]
  }

  lemma {:induction false} WordsLength(c: Codec, ws: seq<Word>)
    requires Lawful(c)
    ensures |WordsBytes(c, ws)| == 8 * |ws|
  {
    if ws == [] {
    } else {
      WordsLength(c, ws[..|ws| - 1]);
    }
  }

  lemma {:induction false} BytesLength(c: Codec, s: Bytes, n: nat)
    requires |s| == 8 * n
    ensures |BytesWords(c, s)| == n
  {
    if n == 0 {
    } else {
      BytesLength(c, s[..|s| - 8], n - 1);
    }
  }

  lemma {:induction false} BytesWordsSnoc(c: Codec, data: Bytes, start: nat, i: nat)
    requires start + 8 * i + 8 <= |data|
    ensures BytesWords(c, data[start..start + 8 * (i + 1)])
         == BytesWords(c, data[start..start + 8 * i]) + [c.wordOf(data[start + 8 * i..start + 8 * i + 8])]
  {
    var s := data[start..start + 8 * (i + 1)];
    assert s[..|s| - 8] == data[start..start + 8 * i] && s[|s| - 8..] == data[start + 8 * i..start + 8 * i + 8];
  }

  lemma {:induction false} WordsRoundTrip(c: Codec, ws: seq<Word>)
    requires Lawful(c)
    ensures BytesWords(c, WordsBytes(c, ws)) == ws
  {
    if ws == [] {
    } else {
      var init, last := ws[..|ws| - 1], ws[|ws| - 1];
      var s := WordsBytes(c, ws);
      WordsRoundTrip(c, init);
      WordsLength(c, ws);
      WordsLength(c, init);
      assert s[..|s| - 8] == WordsBytes(c, init) && s[|s| - 8..] == c.wordBytes(last);
      assert ws == init + [last];
    }
  }

  lemma {:induction false} WordsBytesUnique(c: Codec, s: Bytes, n: nat)
    requires Lawful(c) && |s| == 8 * n
    ensures WordsBytes(c, BytesWords(c, s)) == s
  {
    if n == 0 {
    } else {
      var init, last := s[..|s| - 8], s[|s| - 8..];
      WordsBytesUnique(c, init, n - 1);
      var ws := BytesWords(c, s);
      assert ws[..|ws| - 1] == BytesWords(c, init) && s == init + last;
    }
  }

  // ---- writing ----

  function Vector(c: Codec, ws: seq<Word>): Bytes { c.lenBytes(|ws|) + WordsBytes(c, ws) }

  function Tail(c: Codec, labels: Bytes): Bytes { c.lenBytes(|labels|) + labels }

  function Serialized(c: Codec, d: Stored): Bytes {
    [1] + Vector(c, d.leaves) + Vector(c, d.bitmap) + Tail(c, d.labels)
  }

  method PutWords(c: Codec, out0: Bytes, ws: seq<Word>) returns (out: Bytes)
    ensures out == out0 + Vector(c, ws)
  {
    out := out0 + c.lenBytes(|ws|);
    ghost var head := out;
    for i := 0 to |ws|
      invariant out == head + WordsBytes(c, ws[..i])
    {
      assert ws[..i + 1][..i] == ws[..i];
      out := out + c.wordBytes(ws[i]);
    }
    assert ws[..|ws|] == ws;
  }

  /** `domain_set_body`. The vectors encode the trie of the reversed, sorted
      entries; the bytes are their serialisation. An empty or repeating entry
      list makes `domain_set_body` index out of bounds. */
  method DomainSetBody(entries: seq<Bytes>) returns (out: Bytes)
    requires entries != [] && Distinct(entries)
    ensures IsBody(entries, out)
  {
    var leaves, bitmap, labels := WriteDomainSet(entries);
    out := Serialize(BigEndian(), leaves, bitmap, labels);
    assert out == Serialized(BigEndian(), Stored(leaves, bitmap, labels));
  }

  /** `out` serialises vectors that encode the entries. */
  ghost predicate IsBody(entries: seq<Bytes>, out: Bytes) {
    exists d: Stored :: Encoded(StoredKeys(entries), d.leaves, d.bitmap, d.labels) && out == Serialized(BigEndian(), d)
  }

  method Serialize(c: Codec, leaves: seq<Word>, bitmap: seq<Word>, labels: Bytes) returns (out: Bytes)
    ensures out == Serialized(c, Stored(leaves, bitmap, labels))
  {
    out := [1];
    out := PutWords(c, out, leaves);
    out := PutWords(c, out, bitmap);
    out := out + (c.lenBytes(|labels|) + labels);
  }

  // ---- reading ----

  datatype Field = Version | Leaves | LabelBitmap | LabelsLen | Labels | Terminators

  datatype ParseError =
    | Truncated(what: Field, offset: nat, need: nat, have: nat)
    | InvalidLength(what: Field, len: int)
    | InvalidVersion(version: byte)
    | WalkStopped(stop: WalkError)

  /** The next `n` bytes, if they are there. */
  function Take(what: Field, data: Bytes, pos: nat, n: nat): (r: Result<Bytes, ParseError>)
    requires pos <= |data|
    ensures r.Ok? <==> pos + n <= |data|
  {
    if n > |data| - pos then Err(Truncated(what, pos, n, |data| - pos)) else Ok(data[pos..pos + n])
  }

  /** A declared word count whose bytes can be counted. */
  function ParseCount(c: Codec, what: Field, data: Bytes, pos: nat): (r: Result<nat, ParseError>)
    requires pos <= |data|
    ensures r.Ok? ==> pos + 8 <= |data|
  {
    match Take(what, data, pos, 8)
    case Err(e) => Err(e)
    case Ok(s) =>
      var declared := c.lenOf(s);
      if declared < 1 || declared * 8 >= TWO64 then Err(InvalidLength(what, declared)) else Ok(declared)
  }

  function ParseMany(c: Codec, what: Field, data: Bytes, pos: nat, n: nat): (r: Result<seq<Word>, ParseError>)
    requires pos <= |data|
    ensures r.Ok? ==> |r.value| == n && pos + 8 * n <= |data|
  {
    match Take(what, data, pos, 8 * n)
    case Err(e) => Err(e)
    case Ok(body) =>
      BytesLength(c, body, n);
      Ok(BytesWords(c, body))
  }

  function ParseWords(c: Codec, what: Field, data: Bytes, pos: nat): (r: Result<seq<Word>, ParseError>)
    requires pos <= |data|
    ensures r.Ok? ==> pos + 8 + 8 * |r.value| <= |data|
  {
    match ParseCount(c, what, data, pos)
    case Err(e) => Err(e)
    case Ok(n) => ParseMany(c, what, data, pos + 8, n)
  }

  function ParseLabels(c: Codec, data: Bytes, pos: nat): (r: Result<Bytes, ParseError>)
    requires pos <= |data|
  {
    match Take(LabelsLen, data, pos, 8)
    case Err(e) => Err(e)
    case Ok(s) =>
      var declared := c.lenOf(s);
      if declared < 1 then Err(InvalidLength(LabelsLen, declared))
      else Take(Labels, data, pos + 8, declared)
  }

  /** What the header checks admit; bytes after the labels are ignored. */
  ghost function Parsed(c: Codec, data: Bytes): Result<Stored, ParseError> {
    match Take(Version, data, 0, 1)
    case Err(e) => Err(e)
    case Ok(v) =>
      if v[0] != 1 then Err(InvalidVersion(v[0]))
      else match ParseWords(c, Leaves, data, 1)
        case Err(e) => Err(e)
        case Ok(leaves) => ParsedBitmap(c, data, leaves)
  }

  ghost function ParsedBitmap(c: Codec, data: Bytes, leaves: seq<Word>): Result<Stored, ParseError>
    requires |data| >= 9 + 8 * |leaves|
  {
    match ParseWords(c, LabelBitmap, data, 9 + 8 * |leaves|)
    case Err(e) => Err(e)
    case Ok(bitmap) => ParsedLabels(c, data, leaves, bitmap)
  }

  ghost function ParsedLabels(c: Codec, data: Bytes, leaves: seq<Word>, bitmap: seq<Word>): Result<Stored, ParseError>
    requires |data| >= 17 + 8 * |leaves| + 8 * |bitmap|
  {
    match ParseLabels(c, data, 17 + 8 * |leaves| + 8 * |bitmap|)
    case Err(e) => Err(e)
    case Ok(labels) => Checked(Stored(leaves, bitmap, labels))
  }

  /** One terminator per node, and one incoming label per node but the root. */
  ghost function Checked(d: Stored): Result<Stored, ParseError> {
    var ones := Rank(d.bitmap, 64 * |d.bitmap|);
    if ones > |d.labels| + 1 then Err(InvalidLength(Terminators, ones)) else Ok(d)
  }

  class ByteReader {
    const data: Bytes
    var pos: nat

    ghost predicate Valid()
      reads this
    {
      pos <= |data|
    }

    constructor (data: Bytes)
      ensures Valid() && this.data == data && pos == 0
    {
      this.data := data;
      pos := 0;
    }

    /** `need` and the copy that follows it: the cursor moves only past bytes
        that were there. */
    method Read(what: Field, n: nat) returns (r: Result<Bytes, ParseError>)
      requires Valid()
      modifies this
      ensures Valid() && r == Take(what, data, old(pos), n)
      ensures pos == old(pos) + if r.Ok? then n else 0
    {
      r := Take(what, data, pos, n);
      if r.Ok? { pos := pos + n; }
    }

    /** `read_u64_vec`: the words are read one by one only once all their
        bytes are known to be present. */
    method ReadWords(c: Codec, what: Field) returns (r: Result<seq<Word>, ParseError>)
      requires Valid()
      modifies this
      ensures Valid() && r == ParseWords(c, what, data, old(pos))
      ensures r.Ok? ==> pos == old(pos) + 8 + 8 * |r.value|
    {
      var n := ReadCount(c, what);
      if n.Err? { return Err(n.error); }
      r := ReadMany(c, what, n.value);
    }

    method ReadCount(c: Codec, what: Field) returns (r: Result<nat, ParseError>)
      requires Valid()
      modifies this
      ensures Valid() && r == ParseCount(c, what, data, old(pos))
      ensures r.Ok? ==> pos == old(pos) + 8
    {
      var head := Read(what, 8);
      if head.Err? { return Err(head.error); }
      var declared := c.lenOf(head.value);
      if declared < 1 || declared * 8 >= TWO64 { return Err(InvalidLength(what, declared)); }
      r := Ok(declared);
    }

    method ReadMany(c: Codec, what: Field, n: nat) returns (r: Result<seq<Word>, ParseError>)
      requires Valid()
      modifies this
      ensures Valid() && r == ParseMany(c, what, data, old(pos), n)
      ensures r.Ok? ==> pos == old(pos) + 8 * n
    {
      var all := Take(what, data, pos, 8 * n);
      if all.Err? { return Err(all.error); }
      var words := ReadBody(c, what, n);
      r := Ok(words);
    }

    method ReadBody(c: Codec, what: Field, len: nat) returns (words: seq<Word>)
      requires Valid() && pos + 8 * len <= |data|
      modifies this
      ensures Valid() && pos == old(pos) + 8 * len && |words| == len
      ensures words == BytesWords(c, data[old(pos)..pos])
    {
      words := [];
      ghost var start := pos;
      assert data[start..start] == [];
      for i := 0 to len
        invariant Valid() && pos == start + 8 * i && |words| == i
        invariant words == BytesWords(c, data[start..start + 8 * i])
      {
        BytesWordsSnoc(c, data, start, i);
        var w := Read(what, 8);
        words := words + [c.wordOf(w.value)];
      }
    }

    method ReadLabels(c: Codec) returns (r: Result<Bytes, ParseError>)
      requires Valid()
      modifies this
      ensures Valid() && r == ParseLabels(c, data, old(pos))
    {
      var len := Read(LabelsLen, 8);
      if len.Err? { return Err(len.error); }
      var declared := c.lenOf(len.value);
      if declared < 1 { return Err(InvalidLength(LabelsLen, declared)); }
      r := Read(Labels, declared);
    }
  }

  method CountTerminators(bitmap: seq<Word>) returns (ones: nat)
    ensures ones == Rank(bitmap, 64 * |bitmap|)
  {
    ones := 0;
    for w := 0 to |bitmap|
      invariant ones == Rank(bitmap, 64 * w)
    {
      WordTotal(bitmap, w);
      ones := ones + CountOnes(bitmap[w]);
    }
  }

  /** The header part of `walk_upstream_domain_set`. */
  method ParseBody(c: Codec, data: Bytes) returns (r: Result<Stored, ParseError>)
    ensures r == Parsed(c, data)
  {
    var reader := new ByteReader(data);
    var version := reader.Read(Version, 1);
    if version.Err? { return Err(version.error); }
    if version.value[0] != 1 { return Err(InvalidVersion(version.value[0])); }
    var leaves := reader.ReadWords(c, Leaves);
    if leaves.Err? { return Err(leaves.error); }
    var bitmap := reader.ReadWords(c, LabelBitmap);
    if bitmap.Err? { return Err(bitmap.error); }
    var labels := reader.ReadLabels(c);
    if labels.Err? { return Err(labels.error); }
    var ones := CountTerminators(bitmap.value);
    if ones > |labels.value| + 1 { return Err(InvalidLength(Terminators, ones)); }
    r := Ok(Stored(leaves.value, bitmap.value, labels.value));
  }

  // ---- round trip ----

  /** Vectors a process can hold: no allocation exceeds `isize::MAX` bytes. */
  predicate Allocatable(d: Stored) {
    8 * |d.leaves| < TWO63 && 8 * |d.bitmap| < TWO63 && |d.labels| < TWO63
  }

  lemma {:induction false} ParseVector(c: Codec, what: Field, a: Bytes, ws: seq<Word>, b: Bytes)
    requires Lawful(c) && 8 * |ws| < TWO63
    ensures ParseWords(c, what, a + Vector(c, ws) + b, |a|) == if ws == [] then Err(InvalidLength(what, 0)) else Ok(ws)
  {
    var data := a + Vector(c, ws) + b;
    WordsLength(c, ws);
    assert data[|a|..|a| + 8] == c.lenBytes(|ws|);
    if ws != [] {
      assert data[|a| + 8..|a| + 8 + 8 * |ws|] == WordsBytes(c, ws);
      WordsRoundTrip(c, ws);
    }
  }

  lemma {:induction false} ParseTail(c: Codec, a: Bytes, labels: Bytes)
    requires Lawful(c) && |labels| < TWO63
    ensures ParseLabels(c, a + Tail(c, labels), |a|)
         == if labels == [] then Err(InvalidLength(LabelsLen, 0)) else Ok(labels)
  {
    var data := a + Tail(c, labels);
    assert data[|a|..|a| + 8] == c.lenBytes(|labels|);
    assert data[|a| + 8..|a| + 8 + |labels|] == labels;
  }

  ghost function Reparsed(d: Stored): Result<Stored, ParseError> {
    if d.leaves == [] then Err(InvalidLength(Leaves, 0))
    else if d.bitmap == [] then Err(InvalidLength(LabelBitmap, 0))
    else if d.labels == [] then Err(InvalidLength(LabelsLen, 0))
    else Checked(d)
  }

  /** Reading a serialisation gives the vectors back, unless one of them is
      empty or the terminators outnumber the nodes. */
  lemma {:induction false} ParseSerialized(c: Codec, d: Stored)
    requires Lawful(c) && Allocatable(d)
    ensures Parsed(c, Serialized(c, d)) == Reparsed(d)
  {
    LeavesPart(c, d);
    if d.leaves != [] {
      BitmapPart(c, d);
      if d.bitmap != [] { LabelsPart(c, d); }
    }
  }

  lemma {:induction false} PartLengths(c: Codec, d: Stored)
    requires Lawful(c)
    ensures |Vector(c, d.leaves)| == 8 + 8 * |d.leaves| && |Vector(c, d.bitmap)| == 8 + 8 * |d.bitmap|
    ensures |Serialized(c, d)| == 25 + 8 * |d.leaves| + 8 * |d.bitmap| + |d.labels|
  {
    WordsLength(c, d.leaves);
    WordsLength(c, d.bitmap);
  }

  lemma {:induction false} LeavesPart(c: Codec, d: Stored)
    requires Lawful(c) && Allocatable(d)
    ensures |Serialized(c, d)| >= 9 + 8 * |d.leaves|
    ensures Parsed(c, Serialized(c, d))
         == if d.leaves == [] then Err(InvalidLength(Leaves, 0)) else ParsedBitmap(c, Serialized(c, d), d.leaves)
  {
    PartLengths(c, d);
    var rest := Vector(c, d.bitmap) + Tail(c, d.labels);
    assert Serialized(c, d) == [1] + Vector(c, d.leaves) + rest;
    assert Serialized(c, d)[0..1] == [1];
    ParseVector(c, Leaves, [1], d.leaves, rest);
  }

  lemma {:induction false} BitmapPart(c: Codec, d: Stored)
    requires Lawful(c) && Allocatable(d)
    ensures |Serialized(c, d)| >= 17 + 8 * |d.leaves| + 8 * |d.bitmap|
    ensures ParsedBitmap(c, Serialized(c, d), d.leaves)
         == if d.bitmap == [] then Err(InvalidLength(LabelBitmap, 0))
            else ParsedLabels(c, Serialized(c, d), d.leaves, d.bitmap)
  {
    PartLengths(c, d);
    ParseVector(c, LabelBitmap, [1] + Vector(c, d.leaves), d.bitmap, Tail(c, d.labels));
  }

  lemma {:induction false} LabelsPart(c: Codec, d: Stored)
    requires Lawful(c) && Allocatable(d)
    ensures |Serialized(c, d)| >= 17 + 8 * |d.leaves| + 8 * |d.bitmap|
    ensures ParsedLabels(c, Serialized(c, d), d.leaves, d.bitmap)
         == if d.labels == [] then Err(InvalidLength(LabelsLen, 0)) else Checked(d)
  {
    PartLengths(c, d);
    ParseTail(c, [1] + Vector(c, d.leaves) + Vector(c, d.bitmap), d.labels);
  }

  /** Conversely, accepted bytes are a serialisation followed by bytes that
      are never looked at: no two vector triples share an accepted prefix. */
  lemma {:induction false} ParsedIsSerialized(c: Codec, data: Bytes)
    requires Lawful(c) && Parsed(c, data).Ok?
    ensures Serialized(c, Parsed(c, data).value) <= data
  {
    PartsSerialized(c, data, Parsed(c, data).value);
  }

  /** The three accepted parts, one after the other. */
  ghost predicate Parts(c: Codec, data: Bytes, d: Stored) {
    var p, q := 9 + 8 * |d.leaves|, 17 + 8 * |d.leaves| + 8 * |d.bitmap|;
    && q + 8 + |d.labels| <= |data| && data[0..1] == [1]
    && ParseWords(c, Leaves, data, 1) == Ok(d.leaves)
    && ParseWords(c, LabelBitmap, data, p) == Ok(d.bitmap)
    && ParseLabels(c, data, q) == Ok(d.labels)
  }

  lemma {:induction false} PartsSerialized(c: Codec, data: Bytes, d: Stored)
    requires Lawful(c) && Parts(c, data, d)
    ensures Serialized(c, d) <= data
  {
    var p, q := 9 + 8 * |d.leaves|, 17 + 8 * |d.leaves| + 8 * |d.bitmap|;
    var r := q + 8 + |d.labels|;
    assert data[1..p] == Vector(c, d.leaves) by { VectorAt(c, Leaves, data, 1); }
    assert data[p..q] == Vector(c, d.bitmap) by { VectorAt(c, LabelBitmap, data, p); }
    assert data[q..r] == Tail(c, d.labels) by { LabelsAt(c, data, q); }
    Joined(c, data, d, p, q, r);
  }

  lemma {:induction false} Joined(c: Codec, data: Bytes, d: Stored, p: nat, q: nat, r: nat)
    requires 1 <= p <= q <= r <= |data| && data[0..1] == [1]
    requires data[1..p] == Vector(c, d.leaves) && data[p..q] == Vector(c, d.bitmap) && data[q..r] == Tail(c, d.labels)
    ensures Serialized(c, d) <= data
  {
    assert data[..r] == data[0..1] + data[1..p] + data[p..q] + data[q..r];
  }

  lemma {:induction false} LabelsAt(c: Codec, data: Bytes, pos: nat)
    requires Lawful(c) && pos <= |data| && ParseLabels(c, data, pos).Ok?
    ensures var labels := ParseLabels(c, data, pos).value;
            pos + 8 + |labels| <= |data| && data[pos..pos + 8 + |labels|] == Tail(c, labels)
  {
    var labels := ParseLabels(c, data, pos).value;
    assert data[pos..pos + 8 + |labels|] == data[pos..pos + 8] + labels;
  }

  lemma {:induction false} VectorAt(c: Codec, what: Field, data: Bytes, pos: nat)
    requires Lawful(c) && pos <= |data| && ParseWords(c, what, data, pos).Ok?
    ensures var ws := ParseWords(c, what, data, pos).value;
            data[pos..pos + 8 + 8 * |ws|] == Vector(c, ws)
  {
    var ws := ParseWords(c, what, data, pos).value;
    var n: nat := c.lenOf(data[pos..pos + 8]);
    var body := data[pos + 8..pos + 8 + 8 * n];
    BytesLength(c, body, n);
    WordsBytesUnique(c, body, n);
    assert data[pos..pos + 8 + 8 * n] == data[pos..pos + 8] + body;
  }
}
