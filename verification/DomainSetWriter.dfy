/** The breadth-first writer of the domain set (`domain_set_body`). */
module DomainSetWriter {
  import opened Ordering
  import opened Bitmaps
  import opened DomainSet

  function Reversed(s: Bytes): (r: Bytes)
    ensures |r| == |s| && forall i :: 0 <= i < |s| ==> r[i] == s[|s| - 1 - i]
  {
    seq(|s|, i requires 0 <= i < |s| => s[|s| - 1 - i])
  }

  /** The stored keys: every entry reversed byte-wise, in ascending order. */
  function StoredKeys(entries: seq<Bytes>): (keys: seq<Bytes>)
    ensures |keys| == |entries|
  {
    LexIsTotalOrder();
    Sort(LexLe, seq(|entries|, i requires 0 <= i < |entries| => Reversed(entries[i])))
  }

  ghost predicate Distinct(s: seq<Bytes>) {
    forall i, j :: 0 <= i < j < |s| ==> s[i] != s[j]
  }

  lemma {:induction false} ReversedInjective(a: Bytes, b: Bytes)
    requires Reversed(a) == Reversed(b)
    ensures a == b
  {
    assert |a| == |b|;
    forall i | 0 <= i < |a| ensures a[i] == b[i] {
      assert a[i] == Reversed(a)[|a| - 1 - i] && b[i] == Reversed(b)[|a| - 1 - i];
    }
  }

  /** A duplicate-free sequence holds every element once. */
  lemma {:induction false} DistinctCounts(s: seq<Bytes>, x: Bytes)
    ensures Distinct(s) ==> multiset(s)[x] <= 1
  {
    if s == [] {
    } else {
      DistinctCounts(s[1..], x);
      assert s == [s[0]] + s[1..];
      assert forall j :: 0 <= j < |s[1..]| ==> s[1..][j] == s[j + 1];
      assert Distinct(s) ==> s[0] !in s[1..];
    }
  }

  lemma {:induction false} CountsDistinct(s: seq<Bytes>)
    requires forall x :: multiset(s)[x] <= 1
    ensures Distinct(s)
  {
    forall i, j | 0 <= i < j < |s| ensures s[i] != s[j] {
      var a, b := s[..j], s[j..];
      assert s == a + b;
      assert s[i] in a && s[j] in b;
      assert multiset(s) == multiset(a) + multiset(b);
      assert multiset(s)[s[j]] == multiset(a)[s[j]] + multiset(b)[s[j]];
    }
  }

  lemma StoredKeysOk(entries: seq<Bytes>)
    requires Distinct(entries)
    ensures Keys(StoredKeys(entries))
  {
    LexIsTotalOrder();
    var rev := seq(|entries|, i requires 0 <= i < |entries| => Reversed(entries[i]));
    forall i, j | 0 <= i < j < |rev| ensures rev[i] != rev[j] {
      if rev[i] == rev[j] { ReversedInjective(entries[i], entries[j]); }
    }
    forall x ensures multiset(StoredKeys(entries))[x] <= 1 { DistinctCounts(rev, x); }
    CountsDistinct(StoredKeys(entries));
    var keys := StoredKeys(entries);
    forall i, j | 0 <= i < j < |keys| ensures KeyLess(keys, i, j) { }
  }

  /** `keys[lo..hi]` all reach past column `col` and agree before it. */
  ghost predicate Common(keys: seq<Bytes>, lo: nat, hi: nat, col: nat) {
    && lo <= hi <= |keys|
    && (forall i :: lo <= i < hi ==> col < |keys[i]|)
    && (forall i {:trigger Head(keys, i, col)} :: lo <= i < hi ==> Head(keys, i, col) == Head(keys, lo, col))
  }

  /** `lo..j` is cut into runs, and the next key starts a new one. */
  ghost predicate Cut(keys: seq<Bytes>, kids: seq<Node>, labels: Bytes, lo: nat, j: nat, hi: nat, col: nat) {
    && Common(keys, lo, hi, col) && lo <= j <= hi
    && Runs(keys, kids, labels, lo, j, col)
    && (kids != [] && j < hi ==> labels[|kids| - 1] < keys[j][col])
    && (forall k :: 0 <= k < |kids| ==> kids[k].end <= |keys|)
    && TotalCost(keys, kids) <= Tail(keys, lo, j, col)
  }

  /** Cut `lo..hi` into maximal runs with equal byte at `col`. */
  method CutRuns(keys: seq<Bytes>, lo: nat, hi: nat, col: nat) returns (kids: seq<Node>, labels: Bytes)
    requires Keys(keys) && Common(keys, lo, hi, col)
    ensures Cut(keys, kids, labels, lo, hi, hi, col)
  {
    kids, labels := [], [];
    var j := lo;
    while j < hi
      invariant Cut(keys, kids, labels, lo, j, hi, col)
    {
      var from := j;
      j := EndOfRun(keys, from, hi, col);
      AddRun(keys, kids, labels, lo, hi, Node(from, j, col + 1));
      kids, labels := kids + [Node(from, j, col + 1)], labels + [keys[from][col]];
    }
  }

  method EndOfRun(keys: seq<Bytes>, from: nat, hi: nat, col: nat) returns (j: nat)
    requires from < hi <= |keys| && forall i :: from <= i < hi ==> col < |keys[i]|
    ensures from < j <= hi
    ensures forall i :: from <= i < j ==> keys[i][col] == keys[from][col]
    ensures j < hi ==> keys[j][col] != keys[from][col]
  {
    j := from;
    while j < hi && keys[j][col] == keys[from][col]
      invariant from <= j <= hi
      invariant forall i :: from <= i < j ==> keys[i][col] == keys[from][col]
    {
      j := j + 1;
    }
  }

  lemma {:induction false} AddRun(keys: seq<Bytes>, kids: seq<Node>, labels: Bytes, lo: nat, hi: nat, kid: Node)
    requires Keys(keys) && kid.col > 0 && kid.start < kid.end <= hi
    requires Cut(keys, kids, labels, lo, kid.start, hi, kid.col - 1)
    requires forall i :: kid.start <= i < kid.end ==> keys[i][kid.col - 1] == keys[kid.start][kid.col - 1]
    requires kid.end < hi ==> keys[kid.end][kid.col - 1] != keys[kid.start][kid.col - 1]
    ensures Cut(keys, kids + [kid], labels + [keys[kid.start][kid.col - 1]], lo, kid.end, hi, kid.col - 1)
  {
    RunShares(keys, kid, lo, hi);
    SnocRun(keys, kids, labels, lo, kid);
    RunCost(keys, kids, kid, lo);
    if kid.end < hi { RunOrder(keys, kid, lo, hi); }
  }

  lemma {:induction false} SnocRun(keys: seq<Bytes>, kids: seq<Node>, labels: Bytes, lo: nat, kid: Node)
    requires kid.col > 0 && Shares(keys, kid) && lo <= kid.start
    requires Runs(keys, kids, labels, lo, kid.start, kid.col - 1)
    requires kids != [] ==> labels[|kids| - 1] < keys[kid.start][kid.col - 1]
    ensures Runs(keys, kids + [kid], labels + [keys[kid.start][kid.col - 1]], lo, kid.end, kid.col - 1)
  {
  }

  lemma {:induction false} RunOrder(keys: seq<Bytes>, kid: Node, lo: nat, hi: nat)
    requires Keys(keys) && kid.col > 0 && Common(keys, lo, hi, kid.col - 1)
    requires lo <= kid.start < kid.end < hi && keys[kid.end][kid.col - 1] != keys[kid.start][kid.col - 1]
    ensures keys[kid.start][kid.col - 1] < keys[kid.end][kid.col - 1]
  {
    assert Head(keys, kid.start, kid.col - 1) == Head(keys, kid.end, kid.col - 1);
    assert KeyLess(keys, kid.start, kid.end);
    OrderAtColumn(keys[kid.start], keys[kid.end], kid.col - 1);
  }

  lemma {:induction false} RunShares(keys: seq<Bytes>, kid: Node, lo: nat, hi: nat)
    requires kid.col > 0 && Common(keys, lo, hi, kid.col - 1) && lo <= kid.start < kid.end <= hi
    requires forall i :: kid.start <= i < kid.end ==> keys[i][kid.col - 1] == keys[kid.start][kid.col - 1]
    ensures Shares(keys, kid)
  {
    var c := kid.col - 1;
    forall i | kid.start <= i < kid.end ensures Head(keys, i, kid.col) == Head(keys, kid.start, kid.col) {
      assert Head(keys, i, c) == Head(keys, kid.start, c);
      assert Head(keys, i, kid.col) == Head(keys, i, c) + [keys[i][c]];
      assert Head(keys, kid.start, kid.col) == Head(keys, kid.start, c) + [keys[kid.start][c]];
    }
  }

  lemma {:induction false} RunCost(keys: seq<Bytes>, kids: seq<Node>, kid: Node, lo: nat)
    requires lo <= kid.start < kid.end <= |keys| && kid.col > 0
    requires forall k :: 0 <= k < |kids| ==> kids[k].end <= |keys|
    ensures TotalCost(keys, kids + [kid]) - TotalCost(keys, kids)
         <= Tail(keys, lo, kid.end, kid.col - 1) - Tail(keys, lo, kid.start, kid.col - 1)
  {
    TailSplit(keys, lo, kid.start, kid.end, kid.col - 1);
    TailNextColumn(keys, kid.start, kid.end, kid.col - 1);
    assert (kids + [kid])[..|kids|] == kids;
  }

  /** The trie after `kids` became the children of the next node. */
  ghost function Grow(t: Trie, kids: seq<Node>): Trie
    requires t.blocks != []
  {
    Trie(t.nodes + kids, t.blocks + [t.blocks[|t.blocks| - 1] + |kids| + 1])
  }

  lemma {:induction false} NodeFrame(keys: seq<Bytes>, t: Trie, labels: Bytes, kids: seq<Node>, ls: Bytes, i: nat)
    requires t.blocks != [] && NodeOk(keys, t, labels, i)
    ensures NodeOk(keys, Grow(t, kids), labels + ls, i)
  {
    var t', labels' := Grow(t, kids), labels + ls;
    assert t'.blocks[i] == t.blocks[i] && t'.blocks[i + 1] == t.blocks[i + 1] && t'.nodes[i] == t.nodes[i];
    assert KidsOf(t', labels', i) == KidsOf(t, labels, i);
    assert LabelsOf(t', labels', i) == LabelsOf(t, labels, i);
  }

  lemma {:induction false} NodeNew(keys: seq<Bytes>, t: Trie, labels: Bytes, kids: seq<Node>, ls: Bytes, n: nat)
    requires |t.blocks| == n + 1 && n < |t.nodes| && |labels| == |t.nodes| - 1 && t.blocks[n] == n + |labels|
    requires Shares(keys, t.nodes[n])
    requires Runs(keys, kids, ls, Inner(keys, t.nodes[n]), t.nodes[n].end, t.nodes[n].col)
    ensures NodeOk(keys, Grow(t, kids), labels + ls, n)
  {
    var t', labels' := Grow(t, kids), labels + ls;
    assert t'.blocks[n] == n + |labels| && t'.blocks[n + 1] == n + |labels| + |kids| + 1 && t'.nodes[n] == t.nodes[n];
    assert KidsOf(t', labels', n) == kids;
    assert LabelsOf(t', labels', n) == ls;
  }

  lemma {:induction false} BitsGrow(bitmap: seq<Word>, bitmap': seq<Word>, t: Trie, kids: seq<Node>)
    requires t.blocks != [] && var last := t.blocks[|t.blocks| - 1];
             && (forall i :: 0 <= i < |t.blocks| ==> t.blocks[i] <= last)
             && (forall p: nat :: last <= p ==> !GetBit(bitmap, p))
             && (forall p: nat :: GetBit(bitmap', p) == (GetBit(bitmap, p) || p == last + |kids|))
    requires forall i :: 0 <= i < |t.blocks| - 1 ==> RunBits(bitmap, t.blocks, i)
    ensures var b := Grow(t, kids).blocks;
            && (forall i :: 0 <= i < |t.blocks| ==> RunBits(bitmap', b, i))
            && forall p: nat :: b[|t.blocks|] <= p ==> !GetBit(bitmap', p)
  {
    var b := Grow(t, kids).blocks;
    forall i | 0 <= i < |t.blocks| ensures RunBits(bitmap', b, i) {
      if i < |t.blocks| - 1 {
        assert RunBits(bitmap, t.blocks, i);
        assert b[i] == t.blocks[i] && b[i + 1] == t.blocks[i + 1];
      }
    }
  }

  lemma {:induction false} BlocksAscend(keys: seq<Bytes>, t: Trie, labels: Bytes, n: nat, i: nat)
    requires |t.blocks| == n + 1 && i <= n
    requires forall k :: 0 <= k < n ==> NodeOk(keys, t, labels, k)
    ensures t.blocks[i] <= t.blocks[n]
    decreases n - i
  {
    if i >= n {
    } else {
      assert NodeOk(keys, t, labels, i);
      BlocksAscend(keys, t, labels, n, i + 1);
    }
  }

  /** What one turn of the writer's outer loop adds keeps the encoding. */
  lemma {:induction false} EncodeNext(
      keys: seq<Bytes>, leaves: seq<Word>, leaves': seq<Word>, bitmap: seq<Word>, bitmap': seq<Word>,
                                      labels: Bytes, t: Trie, n: nat, kids: seq<Node>, ls: Bytes)
    requires EncodesTo(keys, leaves, bitmap, labels, t, n) && n < |t.nodes|
    requires Runs(keys, kids, ls, Inner(keys, t.nodes[n]), t.nodes[n].end, t.nodes[n].col)
    requires forall i: nat :: GetBit(leaves', i) == (GetBit(leaves, i) || (i == n && IsLeaf(keys, t.nodes[n])))
    requires forall p: nat :: GetBit(bitmap', p) == (GetBit(bitmap, p) || p == t.blocks[n] + |kids|)
    ensures EncodesTo(keys, leaves', bitmap', labels + ls, Grow(t, kids), n + 1)
  {
    var t' := Grow(t, kids);
    NodeNew(keys, t, labels, kids, ls, n);
    forall i | 0 <= i < n + 1 ensures NodeOk(keys, t', labels + ls, i) {
      if i < n { NodeFrame(keys, t, labels, kids, ls, i); }
    }
    forall i | 0 <= i < |t.blocks| ensures t.blocks[i] <= t.blocks[n] { BlocksAscend(keys, t, labels, n, i); }
    BitsGrow(bitmap, bitmap', t, kids);
    forall i | 0 <= i < |t'.nodes| ensures Shares(keys, t'.nodes[i]) {
      if i >= |t.nodes| { assert t'.nodes[i] == kids[i - |t.nodes|]; }
    }
  }

  ghost function TotalLength(keys: seq<Bytes>): nat {
    if keys == [] then 0 else TotalLength(keys[..|keys| - 1]) + |keys[|keys| - 1]|
  }

  lemma {:induction false} TailIsTotal(keys: seq<Bytes>, n: nat)
    requires n <= |keys|
    ensures Tail(keys, 0, n, 0) == TotalLength(keys[..n])
  {
    if n == 0 {
    } else {
      TailIsTotal(keys, n - 1);
      assert keys[..n][..n - 1] == keys[..n - 1];
    }
  }

  /** The queue entries still to come cost less than before this turn. */
  lemma {:induction false} QueueCost(keys: seq<Bytes>, queue: seq<Node>, idx: nat, kids: seq<Node>)
    requires idx < |queue| && queue[idx].start < queue[idx].end
    requires forall i :: 0 <= i < |queue| ==> Shares(keys, queue[i])
    requires forall i :: 0 <= i < |queue| ==> queue[i].end <= |keys|
    requires forall i :: 0 <= i < |kids| ==> kids[i].end <= |keys|
    requires TotalCost(keys, kids) <= Tail(keys, Inner(keys, queue[idx]), queue[idx].end, queue[idx].col)
    ensures TotalCost(keys, (queue + kids)[idx + 1..]) + 1 <= TotalCost(keys, queue[idx..])
    ensures TotalCost(keys, queue[idx..]) >= 0
  {
    TotalCostPositive(keys, queue[idx..]);
    var node, rest := queue[idx], queue[idx + 1..];
    assert queue[idx..] == [node] + rest;
    assert (queue + kids)[idx + 1..] == rest + kids;
    TotalCostConcat(keys, [node], rest);
    TotalCostConcat(keys, rest, kids);
    assert [node][..0] == [];
    TailSplit(keys, node.start, Inner(keys, node), node.end, node.col);
    TailNonNegative(keys, node.start, Inner(keys, node), node.col);
  }

  /** `domain_set_body` up to the byte framing. `domain_set_body` indexes
      `keys[0]` and, past a node's own key, byte `col` of every key: it
      needs at least one entry and no duplicates. */
  method WriteDomainSet(entries: seq<Bytes>) returns (leaves: seq<Word>, bitmap: seq<Word>, labels: Bytes)
    requires entries != [] && Distinct(entries)
    ensures Encoded(StoredKeys(entries), leaves, bitmap, labels)
  {
    var keys := StoredKeys(entries);
    StoredKeysOk(entries);
    leaves, bitmap, labels := [], [], [];
    var queue := [Node(0, |keys|, 0)];
    var labelIdx, idx := 0, 0;
    ghost var blocks: seq<nat> := [0];
    WriterStarts(keys);
    while idx < |queue|
      invariant EncodesTo(keys, leaves, bitmap, labels, Trie(queue, blocks), idx)
      invariant labelIdx == blocks[idx]
      invariant Fit(keys, queue)
      invariant idx + TotalCost(keys, queue[idx..]) <= 1 + TotalLength(keys)
      decreases TotalCost(keys, queue[idx..])
    {
      ghost var t := Trie(queue, blocks);
      leaves, bitmap, labels, queue, labelIdx, t := Turn(keys, leaves, bitmap, labels, queue, labelIdx, idx, t);
      blocks := t.blocks;
      idx := idx + 1;
    }
    assert |queue| <= TotalLength(keys) + 1;
    assert Encodes(keys, leaves, bitmap, labels, Trie(queue, blocks));
  }

  /** The vectors describe a trie of the keys that is no larger than the keys
      together and a root. */
  ghost predicate Encoded(keys: seq<Bytes>, leaves: seq<Word>, bitmap: seq<Word>, labels: Bytes) {
    exists t :: Encodes(keys, leaves, bitmap, labels, t) && |t.nodes| <= TotalLength(keys) + 1
  }

  ghost predicate Fit(keys: seq<Bytes>, queue: seq<Node>) {
    forall i :: 0 <= i < |queue| ==> queue[i].start < queue[i].end <= |keys|
  }

  lemma {:induction false} WriterStarts(keys: seq<Bytes>)
    requires keys != []
    ensures var root := Node(0, |keys|, 0);
            EncodesTo(keys, [], [], [], Trie([root], [0]), 0) && TotalCost(keys, [root][0..]) == 1 + TotalLength(keys)
  {
    var root := Node(0, |keys|, 0);
    assert [root][0..] == [root] && [root][..0] == [];
    TailIsTotal(keys, |keys|);
    assert keys[..|keys|] == keys;
  }

  method Turn(keys: seq<Bytes>, leaves0: seq<Word>, bitmap0: seq<Word>, labels0: Bytes, queue0: seq<Node>,
              labelIdx0: nat, idx: nat, ghost t0: Trie)
    returns (leaves: seq<Word>, bitmap: seq<Word>, labels: Bytes, queue: seq<Node>, labelIdx: nat, ghost t: Trie)
    requires Keys(keys) && idx < |queue0| && Fit(keys, queue0) && t0.nodes == queue0
    requires EncodesTo(keys, leaves0, bitmap0, labels0, t0, idx) && labelIdx0 == t0.blocks[idx]
    ensures Fit(keys, queue) && t.nodes == queue
    ensures EncodesTo(keys, leaves, bitmap, labels, t, idx + 1) && labelIdx == t.blocks[idx + 1]
    ensures 0 <= TotalCost(keys, queue0[idx..])
    ensures TotalCost(keys, queue[idx + 1..]) < TotalCost(keys, queue0[idx..])
  {
    ghost var kids, ls;
    leaves, bitmap, labels, queue, labelIdx, kids, ls :=
      WriteNode(keys, leaves0, bitmap0, labels0, queue0, labelIdx0, idx);
    EncodeNext(keys, leaves0, leaves, bitmap0, bitmap, labels0, t0, idx, kids, ls);
    QueueCost(keys, queue0, idx, kids);
    t := Grow(t0, kids);
  }

  /** One turn of the outer loop: leaf bit, labels and children, terminator. */
  method WriteNode(keys: seq<Bytes>, leaves0: seq<Word>, bitmap0: seq<Word>, labels0: Bytes, queue0: seq<Node>,
                   labelIdx0: nat, idx: nat)
    returns (leaves: seq<Word>, bitmap: seq<Word>, labels: Bytes, queue: seq<Node>, labelIdx: nat,
             ghost kids: seq<Node>, ghost ls: Bytes)
    requires Keys(keys) && idx < |queue0| && Shares(keys, queue0[idx])
    ensures Runs(keys, kids, ls, Inner(keys, queue0[idx]), queue0[idx].end, queue0[idx].col)
    ensures Fit(keys, kids)
        && TotalCost(keys, kids) <= Tail(keys, Inner(keys, queue0[idx]), queue0[idx].end, queue0[idx].col)
    ensures forall i: nat :: GetBit(leaves, i) == (GetBit(leaves0, i) || (i == idx && IsLeaf(keys, queue0[idx])))
    ensures forall p: nat :: GetBit(bitmap, p) == (GetBit(bitmap0, p) || p == labelIdx0 + |kids|)
    ensures queue == queue0 + kids && labels == labels0 + ls && labelIdx == labelIdx0 + |kids| + 1
  {
    var node := queue0[idx];
    var start := node.start;
    leaves := leaves0;
    if node.col == |keys[start]| {
      start := start + 1;
      leaves := SetBit(leaves0, idx);
    }
    InnerCommon(keys, node);
    var children, bytes := CutRuns(keys, start, node.end, node.col);
    queue, labels, labelIdx := queue0 + children, labels0 + bytes, labelIdx0 + |children|;
    bitmap := SetBit(bitmap0, labelIdx);
    labelIdx := labelIdx + 1;
    kids, ls := children, bytes;
  }

  lemma {:induction false} InnerCommon(keys: seq<Bytes>, n: Node)
    requires Keys(keys) && Shares(keys, n)
    ensures Common(keys, Inner(keys, n), n.end, n.col)
  {
    forall i | Inner(keys, n) <= i < n.end ensures n.col < |keys[i]| { InnerKeysLonger(keys, n, i); }
    forall i | Inner(keys, n) <= i < n.end
      ensures Head(keys, i, n.col) == Head(keys, Inner(keys, n), n.col)
    {
      assert Head(keys, i, n.col) == Head(keys, n.start, n.col) == Head(keys, Inner(keys, n), n.col);
    }
  }
}
