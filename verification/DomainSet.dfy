/** The succinct domain set of an MRS file: a LOUDS trie over sorted byte
    keys. `Trie` is the tree both halves agree on, `Encodes` says what the
    three stored vectors must contain. */
module DomainSet {
  import opened Ordering
  import opened Bitmaps

  /** A queue entry of the writer: the keys `start..end`, which share their
      first `col` bytes. */
  datatype Node = Node(start: nat, end: nat, col: nat)

  /** Nodes in breadth-first order; `blocks[i]` is where node `i`'s run of
      label bits starts, and `blocks[|nodes|]` is the end of the last run. */
  datatype Trie = Trie(nodes: seq<Node>, blocks: seq<nat>)

  ghost predicate KeyLess(keys: seq<Bytes>, i: nat, j: nat)
    requires i < |keys| && j < |keys|
  {
    LexLe(keys[i], keys[j]) && keys[i] != keys[j]
  }

  /** Strictly ascending keys. */
  ghost predicate Keys(keys: seq<Bytes>) {
    forall i, j {:trigger KeyLess(keys, i, j)} :: 0 <= i < j < |keys| ==> KeyLess(keys, i, j)
  }

  ghost function Head(keys: seq<Bytes>, i: nat, col: nat): Bytes
    requires i < |keys| && col <= |keys[i]|
  {
    keys[i][..col]
  }

  ghost predicate Shares(keys: seq<Bytes>, n: Node) {
    && n.start < n.end <= |keys|
    && (forall i :: n.start <= i < n.end ==> n.col <= |keys[i]|)
    && (forall i {:trigger Head(keys, i, n.col)} :: n.start <= i < n.end ==>
          Head(keys, i, n.col) == Head(keys, n.start, n.col))
  }

  ghost predicate IsLeaf(keys: seq<Bytes>, n: Node)
    requires n.start < |keys|
  {
    n.col == |keys[n.start]|
  }

  /** Where the keys of a node's first child begin. */
  ghost function Inner(keys: seq<Bytes>, n: Node): nat
    requires n.start < |keys|
  {
    if IsLeaf(keys, n) then n.start + 1 else n.start
  }

  /** `kids` cuts `lo..hi` into consecutive runs, one per byte at `col`. */
  ghost predicate Runs(keys: seq<Bytes>, kids: seq<Node>, labels: Bytes, lo: nat, hi: nat, col: nat) {
    && |kids| == |labels|
    && (if kids == [] then lo == hi else kids[0].start == lo && kids[|kids| - 1].end == hi)
    && (forall j :: 0 <= j < |kids| ==>
          && Shares(keys, kids[j]) && kids[j].col == col + 1
          && col < |keys[kids[j].start]| && labels[j] == keys[kids[j].start][col])
    && (forall j :: 0 < j < |kids| ==> kids[j - 1].end == kids[j].start && labels[j - 1] < labels[j])
  }

  /** Node `i`'s run of label bits and its children lie inside the vectors;
      the children follow all earlier children. */
  ghost predicate Placed(t: Trie, labels: Bytes, i: nat) {
    && i + 1 < |t.blocks| && i < |t.nodes|
    && i <= t.blocks[i] < t.blocks[i + 1]
    && i <= t.blocks[i] - i
    && t.blocks[i + 1] - i <= |t.nodes| && t.blocks[i + 1] - i - 1 <= |labels|
  }

  ghost function KidsOf(t: Trie, labels: Bytes, i: nat): seq<Node>
    requires Placed(t, labels, i)
  {
    t.nodes[t.blocks[i] - i + 1..t.blocks[i + 1] - i]
  }

  ghost function LabelsOf(t: Trie, labels: Bytes, i: nat): Bytes
    requires Placed(t, labels, i)
  {
    labels[t.blocks[i] - i..t.blocks[i + 1] - i - 1]
  }

  /** Node `i` of the trie: its children are the runs of its keys. */
  ghost predicate NodeOk(keys: seq<Bytes>, t: Trie, labels: Bytes, i: nat) {
    && Placed(t, labels, i)
    && Shares(keys, t.nodes[i])
    && Runs(keys, KidsOf(t, labels, i), LabelsOf(t, labels, i),
            Inner(keys, t.nodes[i]), t.nodes[i].end, t.nodes[i].col)
  }

  /** Node `i`'s run: a zero per label, then one terminator. */
  ghost predicate RunBits(bitmap: seq<Word>, blocks: seq<nat>, i: nat) {
    && i + 1 < |blocks|
    && forall p :: blocks[i] <= p < blocks[i + 1] ==> GetBit(bitmap, p) == (p == blocks[i + 1] - 1)
  }

  /** The vectors describe the first `n` nodes of `t`. */
  ghost predicate EncodesTo(keys: seq<Bytes>, leaves: seq<Word>, bitmap: seq<Word>, labels: Bytes, t: Trie, n: nat) {
    && |t.blocks| == n + 1 && t.blocks[0] == 0
    && n <= |t.nodes| && 0 < |t.nodes| && t.nodes[0] == Node(0, |keys|, 0)
    && |labels| == |t.nodes| - 1 && t.blocks[n] == n + |labels|
    && (forall i :: 0 <= i < |t.nodes| ==> Shares(keys, t.nodes[i]))
    && (forall i :: 0 <= i < n ==> NodeOk(keys, t, labels, i))
    && (forall i: nat :: GetBit(leaves, i) == (i < n && IsLeaf(keys, t.nodes[i])))
    && (forall i :: 0 <= i < n ==> RunBits(bitmap, t.blocks, i))
    && (forall p: nat :: t.blocks[n] <= p ==> !GetBit(bitmap, p))
  }

  ghost predicate Encodes(keys: seq<Bytes>, leaves: seq<Word>, bitmap: seq<Word>, labels: Bytes, t: Trie) {
    Keys(keys) && EncodesTo(keys, leaves, bitmap, labels, t, |t.nodes|)
  }

  // ---- order facts ----

  lemma {:induction false} ProperPrefixIsLess(a: Bytes, n: nat)
    requires n < |a|
    ensures !LexLe(a, a[..n])
  {
    if n == 0 {
    } else {
      assert a[..n][1..] == a[1..][..n - 1];
      ProperPrefixIsLess(a[1..], n - 1);
    }
  }

  lemma {:induction false} OrderAtColumn(a: Bytes, b: Bytes, c: nat)
    requires LexLe(a, b) && c < |a| && c < |b| && a[..c] == b[..c]
    ensures a[c] <= b[c]
  {
    if c == 0 {
    } else {
      assert a[0] == a[..c][0] && b[0] == b[..c][0];
      assert a[1..][..c - 1] == a[..c][1..] && b[1..][..c - 1] == b[..c][1..];
      OrderAtColumn(a[1..], b[1..], c - 1);
    }
  }

  /** Past a node's own key, every key of the node is longer than `col`. */
  lemma {:induction false} InnerKeysLonger(keys: seq<Bytes>, n: Node, i: nat)
    requires Keys(keys) && Shares(keys, n) && Inner(keys, n) <= i < n.end
    ensures n.col < |keys[i]|
  {
    var p := Head(keys, n.start, n.col);
    assert |keys[i]| == n.col ==> keys[i] == p by { assert Head(keys, i, n.col) == p; }
    assert i > n.start ==> KeyLess(keys, n.start, i);
    if n.col < |keys[n.start]| {
      ProperPrefixIsLess(keys[n.start], n.col);
    } else {
      assert keys[n.start] == p;
    }
  }

  // ---- the size of a queue entry ----

  /** Bytes of `keys[lo..hi]` from column `col` on. */
  ghost function Tail(keys: seq<Bytes>, lo: nat, hi: nat, col: nat): int
    requires hi <= |keys|
    decreases hi
  {
    if hi <= lo then 0 else Tail(keys, lo, hi - 1, col) + |keys[hi - 1]| - col
  }

  ghost function Cost(keys: seq<Bytes>, n: Node): int
    requires n.end <= |keys|
  {
    1 + Tail(keys, n.start, n.end, n.col)
  }

  ghost function TotalCost(keys: seq<Bytes>, ns: seq<Node>): int
    requires forall i :: 0 <= i < |ns| ==> ns[i].end <= |keys|
  {
    if ns == [] then 0 else TotalCost(keys, ns[..|ns| - 1]) + Cost(keys, ns[|ns| - 1])
  }

  lemma {:induction false} TailSplit(keys: seq<Bytes>, lo: nat, mid: nat, hi: nat, col: nat)
    requires lo <= mid <= hi <= |keys|
    ensures Tail(keys, lo, hi, col) == Tail(keys, lo, mid, col) + Tail(keys, mid, hi, col)
    decreases hi
  {
    if mid >= hi {
    } else {
      TailSplit(keys, lo, mid, hi - 1, col);
    }
  }

  lemma {:induction false} TailNextColumn(keys: seq<Bytes>, lo: nat, hi: nat, col: nat)
    requires lo <= hi <= |keys|
    ensures Tail(keys, lo, hi, col + 1) == Tail(keys, lo, hi, col) - (hi - lo)
    decreases hi
  {
    if lo >= hi {
    } else {
      TailNextColumn(keys, lo, hi - 1, col);
    }
  }

  lemma {:induction false} TailNonNegative(keys: seq<Bytes>, lo: nat, hi: nat, col: nat)
    requires hi <= |keys| && forall i :: lo <= i < hi ==> col <= |keys[i]|
    ensures Tail(keys, lo, hi, col) >= 0
    decreases hi
  {
    if lo >= hi {
    } else {
      TailNonNegative(keys, lo, hi - 1, col);
    }
  }

  lemma {:induction false} TotalCostConcat(keys: seq<Bytes>, a: seq<Node>, b: seq<Node>)
    requires forall i :: 0 <= i < |a| ==> a[i].end <= |keys|
    requires forall i :: 0 <= i < |b| ==> b[i].end <= |keys|
    ensures TotalCost(keys, a + b) == TotalCost(keys, a) + TotalCost(keys, b)
  {
    if b == [] {
      assert a + b == a;
    } else {
      TotalCostConcat(keys, a, b[..|b| - 1]);
      assert (a + b)[..|a + b| - 1] == a + b[..|b| - 1];
    }
  }

  lemma {:induction false} TotalCostPositive(keys: seq<Bytes>, ns: seq<Node>)
    requires forall i :: 0 <= i < |ns| ==> ns[i].end <= |keys|
    requires forall i :: 0 <= i < |ns| ==> Shares(keys, ns[i])
    ensures TotalCost(keys, ns) >= |ns|
  {
    if ns == [] {
    } else {
      var n := ns[|ns| - 1];
      TotalCostPositive(keys, ns[..|ns| - 1]);
      TailNonNegative(keys, n.start, n.end, n.col);
    }
  }
}
