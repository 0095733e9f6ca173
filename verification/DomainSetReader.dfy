/** The depth-first reader of the domain set (`DomainSetTraversal`), which
    must cope with any remote bytes: it never trusts the vectors, and its
    output is bounded by three caps. */
module DomainSetReader {
  import opened Wrappers
  import opened Ordering
  import opened Bitmaps
  import opened DomainSet
  import opened DomainSetWriter

  // ---- navigation in a well-formed trie ----

  /** Inside node `i`'s run exactly `i` terminators lie behind. */
  lemma {:induction false} RankInBlock(
      keys: seq<Bytes>, leaves: seq<Word>, bitmap: seq<Word>, labels: Bytes, t: Trie, i: nat, p: nat)
    requires Encodes(keys, leaves, bitmap, labels, t) && i < |t.nodes|
    requires t.blocks[i] <= p < t.blocks[i + 1]
    ensures Rank(bitmap, p) == i
    decreases p, 0
  {
    assert NodeOk(keys, t, labels, i);
    if p > t.blocks[i] {
      RankInBlock(keys, leaves, bitmap, labels, t, i, p - 1);
      assert RunBits(bitmap, t.blocks, i);
    } else if i > 0 {
      RankAtStart(keys, leaves, bitmap, labels, t, i);
    }
  }

  lemma {:induction false} RankAtStart(
      keys: seq<Bytes>, leaves: seq<Word>, bitmap: seq<Word>, labels: Bytes, t: Trie, i: nat)
    requires Encodes(keys, leaves, bitmap, labels, t) && 0 < i <= |t.nodes|
    ensures t.blocks[i - 1] < t.blocks[i] && Rank(bitmap, t.blocks[i]) == i
    ensures IsSelect(bitmap, i - 1, t.blocks[i] - 1)
    decreases if t.blocks[i] == 0 then 0 else t.blocks[i] - 1, 1
  {
    assert NodeOk(keys, t, labels, i - 1);
    RankInBlock(keys, leaves, bitmap, labels, t, i - 1, t.blocks[i] - 1);
    assert RunBits(bitmap, t.blocks, i - 1);
  }

  datatype Frame = Frame(node: nat, idx: nat)

  datatype Edge = Edge(lab: byte, node: nat, idx: nat)

  ghost function ZerosTo(bitmap: seq<Word>, n: nat): nat {
    Min(n, 64 * |bitmap|) - Rank(bitmap, Min(n, 64 * |bitmap|))
  }

  function Minus(a: nat, b: nat): nat { if a < b then 0 else a - b }

  ghost predicate HasEdge(bitmap: seq<Word>, labels: Bytes, f: Frame) {
    && !GetBit(bitmap, f.idx) && Minus(f.idx, f.node) < |labels|
    && Minus(ZerosTo(bitmap, f.idx + 1), 1) < Rank(bitmap, 64 * |bitmap|)
  }

  /** The label and child behind the frame's position, or nothing: a
      terminator bit, a label out of range, or a missing child run. */
  ghost function EdgeAt(bitmap: seq<Word>, labels: Bytes, f: Frame): (e: Option<Edge>)
    ensures e.Some? <==> HasEdge(bitmap, labels, f)
    ensures e.Some? ==> 0 < e.value.idx && IsSelect(bitmap, Minus(e.value.node, 1), e.value.idx - 1)
  {
    if HasEdge(bitmap, labels, f) then
      var next := ZerosTo(bitmap, f.idx + 1);
      SelectExists(bitmap, Minus(next, 1), 64 * |bitmap|);
      var at: nat :| IsSelect(bitmap, Minus(next, 1), at);
      Some(Edge(labels[Minus(f.idx, f.node)], next, at + 1))
    else
      None
  }

  method NextEdge(bitmap: seq<Word>, ranks: seq<nat>, labels: Bytes, f: Frame) returns (e: Option<Edge>)
    requires IsRanks(bitmap, ranks)
    ensures e == EdgeAt(bitmap, labels, f)
  {
    if GetBit(bitmap, f.idx) {
      return None;
    }
    var labelIdx := Minus(f.idx, f.node);
    var next := CountZeros(ranks, bitmap, f.idx + 1);
    var at := SelectOne(ranks, bitmap, Minus(next, 1));
    if labelIdx < |labels| && at.Some? {
      e := Some(Edge(labels[labelIdx], next, at.value + 1));
      SelectUnique(bitmap, Minus(next, 1), at.value, EdgeAt(bitmap, labels, f).value.idx - 1);
    } else {
      e := None;
    }
  }

  /** In a well-formed trie the edge is the node's next child. */
  lemma {:induction false} EdgeOfTrie(
      keys: seq<Bytes>, leaves: seq<Word>, bitmap: seq<Word>, labels: Bytes, t: Trie, f: Frame)
    requires Encodes(keys, leaves, bitmap, labels, t) && FrameOk(t, f)
    ensures GetBit(bitmap, f.idx) <==> f.idx == t.blocks[f.node + 1] - 1
    ensures !GetBit(bitmap, f.idx) ==>
            && var kid := f.idx - f.node + 1;
            && f.node < kid < |t.nodes| && kid - 1 < |labels|
            && ZerosTo(bitmap, f.idx + 1) == kid
            && 0 < t.blocks[kid] && IsSelect(bitmap, kid - 1, t.blocks[kid] - 1)
            && kid - 1 < Rank(bitmap, 64 * |bitmap|)
  {
    assert NodeOk(keys, t, labels, f.node);
    assert RunBits(bitmap, t.blocks, f.node);
    if f.idx + 1 < t.blocks[f.node + 1] {
      EdgeZeros(keys, leaves, bitmap, labels, t, f);
      EdgeSelect(keys, leaves, bitmap, labels, t, f.idx - f.node + 1);
    }
  }

  lemma {:induction false} BitInRange(bitmap: seq<Word>, p: nat)
    requires GetBit(bitmap, p)
    ensures p + 1 <= 64 * |bitmap|
  {
  }

  lemma {:induction false} EdgeZeros(
      keys: seq<Bytes>, leaves: seq<Word>, bitmap: seq<Word>, labels: Bytes, t: Trie, f: Frame)
    requires Encodes(keys, leaves, bitmap, labels, t) && FrameOk(t, f) && f.idx + 1 < t.blocks[f.node + 1]
    ensures ZerosTo(bitmap, f.idx + 1) == f.idx + 1 - f.node
  {
    RankInBlock(keys, leaves, bitmap, labels, t, f.node, f.idx + 1);
    assert RunBits(bitmap, t.blocks, f.node);
    BitInRange(bitmap, t.blocks[f.node + 1] - 1);
  }

  lemma {:induction false} EdgeSelect(
      keys: seq<Bytes>, leaves: seq<Word>, bitmap: seq<Word>, labels: Bytes, t: Trie, kid: nat)
    requires Encodes(keys, leaves, bitmap, labels, t) && 0 < kid < |t.nodes|
    ensures 0 < t.blocks[kid] && IsSelect(bitmap, kid - 1, t.blocks[kid] - 1)
    ensures kid - 1 < Rank(bitmap, 64 * |bitmap|)
  {
    RankAtStart(keys, leaves, bitmap, labels, t, kid);
    BitInRange(bitmap, t.blocks[kid] - 1);
    RankMonotone(bitmap, t.blocks[kid], 64 * |bitmap|);
  }

  ghost predicate FrameOk(t: Trie, f: Frame) {
    && f.node + 1 < |t.blocks| && f.node < |t.nodes|
    && f.node <= t.blocks[f.node] <= f.idx < t.blocks[f.node + 1]
    && (f.idx + 1 < t.blocks[f.node + 1] ==> f.idx - f.node + 1 < |t.nodes|)
  }

  /** The first key not yet covered by the frame's visited children. */
  ghost function PosOf(t: Trie, f: Frame): nat
    requires f.node + 1 < |t.blocks| && f.node < |t.nodes|
    requires f.node <= f.idx + 1 && (f.idx + 1 < t.blocks[f.node + 1] ==> f.idx - f.node + 1 < |t.nodes|)
  {
    if f.idx + 1 < t.blocks[f.node + 1] then t.nodes[f.idx - f.node + 1].start else t.nodes[f.node].end
  }

  lemma {:induction false} RunsWithin(
      keys: seq<Bytes>, kids: seq<Node>, labels: Bytes, lo: nat, hi: nat, col: nat, j: nat)
    requires Runs(keys, kids, labels, lo, hi, col) && j < |kids|
    ensures lo <= kids[j].start < kids[j].end
    ensures kids[j].end <= hi
  {
    RunsAbove(keys, kids, labels, lo, hi, col, j);
    RunsBelow(keys, kids, labels, lo, hi, col, j);
  }

  lemma {:induction false} RunsAbove(
      keys: seq<Bytes>, kids: seq<Node>, labels: Bytes, lo: nat, hi: nat, col: nat, j: nat)
    requires Runs(keys, kids, labels, lo, hi, col) && j < |kids|
    ensures lo <= kids[j].start < kids[j].end
  {
    if j == 0 {
    } else {
      RunsAbove(keys, kids, labels, lo, hi, col, j - 1);
    }
  }

  lemma {:induction false} RunsBelow(
      keys: seq<Bytes>, kids: seq<Node>, labels: Bytes, lo: nat, hi: nat, col: nat, j: nat)
    requires Runs(keys, kids, labels, lo, hi, col) && j < |kids|
    ensures kids[j].end <= hi
    decreases |kids| - j
  {
    if j + 1 >= |kids| {
    } else {
      RunsBelow(keys, kids, labels, lo, hi, col, j + 1);
      assert Shares(keys, kids[j + 1]);
    }
  }

  /** What the trie stores at a frame's edge. */
  ghost predicate Child(keys: seq<Bytes>, t: Trie, labels: Bytes, f: Frame) {
    && f.node < |t.nodes| && f.node + 1 < |t.blocks| && f.node < f.idx - f.node + 1 < |t.nodes|
    && f.idx - f.node < |labels|
    && var kid := t.nodes[f.idx - f.node + 1];
    && var node := t.nodes[f.node];
    && Shares(keys, kid) && kid.col == node.col + 1
    && node.start <= kid.start && kid.end <= node.end
    && node.col < |keys[kid.start]| && labels[f.idx - f.node] == keys[kid.start][node.col]
    && (f.idx + 2 < t.blocks[f.node + 1] ==> f.idx - f.node + 2 < |t.nodes|)
    && PosOf(t, Frame(f.node, f.idx + 1)) == kid.end
  }

  lemma {:induction false} ChildOf(keys: seq<Bytes>, t: Trie, labels: Bytes, f: Frame)
    requires NodeOk(keys, t, labels, f.node) && t.blocks[f.node] <= f.idx < t.blocks[f.node + 1] - 1
    ensures Child(keys, t, labels, f)
  {
    var node := t.nodes[f.node];
    var kids, ls := KidsOf(t, labels, f.node), LabelsOf(t, labels, f.node);
    var j := f.idx - t.blocks[f.node];
    assert kids[j] == t.nodes[f.idx - f.node + 1] && ls[j] == labels[f.idx - f.node];
    RunsWithin(keys, kids, ls, Inner(keys, node), node.end, node.col, j);
    if j + 1 < |kids| {
      assert kids[j + 1] == t.nodes[f.idx - f.node + 2];
    }
  }

  lemma {:induction false} FirstChild(keys: seq<Bytes>, t: Trie, labels: Bytes, i: nat)
    requires NodeOk(keys, t, labels, i)
    ensures PosOf(t, Frame(i, t.blocks[i])) == Inner(keys, t.nodes[i])
  {
    var kids := KidsOf(t, labels, i);
    if kids != [] { assert kids[0] == t.nodes[t.blocks[i] - i + 1]; }
  }

  // ---- the walk ----

  datatype Walk = Walk(stack: seq<Frame>, current: Bytes, out: seq<Bytes>)

  /** `child` walks the child that `parent` stepped over last. */
  ghost predicate Nested(t: Trie, parent: Frame, child: Frame) {
    && FrameOk(t, parent) && FrameOk(t, child)
    && var a, b := t.nodes[parent.node], t.nodes[child.node];
    && b.end == PosOf(t, parent)
    && a.start <= b.start && b.end <= a.end && b.col == a.col + 1
  }

  /** The frames follow one path down from the root. */
  ghost predicate Path(t: Trie, stack: seq<Frame>) {
    && stack != []
    && var top := stack[|stack| - 1];
    && FrameOk(t, top) && t.nodes[top.node].col == |stack| - 1
    && if |stack| == 1 then top.node == 0
       else Path(t, stack[..|stack| - 1]) && Nested(t, stack[|stack| - 2], top)
  }

  /** `current` spells the top node, and exactly the keys before the top
      frame's position are out, in order. */
  ghost predicate Emitted(keys: seq<Bytes>, t: Trie, top: Frame, current: Bytes, out: seq<Bytes>) {
    && FrameOk(t, top)
    && var node := t.nodes[top.node];
    && node.start < |keys| && |current| == node.col <= |keys[node.start]| && current == keys[node.start][..node.col]
    && PosOf(t, top) <= |keys| && out == keys[..PosOf(t, top)]
  }

  ghost predicate Walking(keys: seq<Bytes>, t: Trie, w: Walk) {
    if w.stack == [] then w.out == keys
    else Path(t, w.stack) && Emitted(keys, t, w.stack[|w.stack| - 1], w.current, w.out)
  }

  function Popped(w: Walk): Walk
    requires w.stack != []
  {
    Walk(w.stack[..|w.stack| - 1], if w.current == [] then [] else w.current[..|w.current| - 1], w.out)
  }

  lemma {:induction false} PopKeeps(keys: seq<Bytes>, t: Trie, w: Walk)
    requires 0 < |t.nodes| && t.nodes[0].end == |keys|
    requires forall i :: 0 <= i < |t.nodes| ==> Shares(keys, t.nodes[i])
    requires w.stack != [] && Walking(keys, t, w)
    requires var top := w.stack[|w.stack| - 1]; top.idx == t.blocks[top.node + 1] - 1
    ensures Walking(keys, t, Popped(w))
  {
    var n := |w.stack|;
    if n == 1 {
      assert w.out == keys[..|keys|] == keys;
    } else {
      EmitPops(keys, t, w.stack[n - 2], w.stack[n - 1], w.current, w.out);
    }
  }

  lemma {:induction false} EmitPops(
      keys: seq<Bytes>, t: Trie, parent: Frame, top: Frame, current: Bytes, out: seq<Bytes>)
    requires Nested(t, parent, top) && Shares(keys, t.nodes[parent.node]) && Shares(keys, t.nodes[top.node])
    requires Emitted(keys, t, top, current, out) && top.idx == t.blocks[top.node + 1] - 1
    ensures Emitted(keys, t, parent, current[..|current| - 1], out)
  {
    var a, b := t.nodes[parent.node], t.nodes[top.node];
    assert Head(keys, b.start, a.col) == Head(keys, a.start, a.col);
    assert current[..a.col] == Head(keys, b.start, a.col);
  }

  function Descended(w: Walk, e: Edge, leaf: bool): Walk
    requires w.stack != []
  {
    var f := w.stack[|w.stack| - 1];
    var current := w.current + [e.lab];
    Walk(w.stack[..|w.stack| - 1] + [Frame(f.node, f.idx + 1), Frame(e.node, e.idx)], current,
         if leaf then w.out + [current] else w.out)
  }

  /** `e` is the edge below `f`, leading to the frame of a fresh child. */
  ghost predicate Below(keys: seq<Bytes>, t: Trie, labels: Bytes, f: Frame, e: Edge) {
    && FrameOk(t, f) && f.idx + 1 < t.blocks[f.node + 1] && Child(keys, t, labels, f)
    && e.node == f.idx - f.node + 1 && e.lab == labels[f.idx - f.node]
    && FrameOk(t, Frame(e.node, e.idx)) && PosOf(t, Frame(e.node, e.idx)) == Inner(keys, t.nodes[e.node])
    && Shares(keys, t.nodes[f.node])
  }

  lemma {:induction false} BelowOf(keys: seq<Bytes>, t: Trie, labels: Bytes, f: Frame, e: Edge)
    requires FrameOk(t, f) && f.idx + 1 < t.blocks[f.node + 1] && NodeOk(keys, t, labels, f.node)
    requires e.node == f.idx - f.node + 1 && e.node + 1 < |t.blocks| && NodeOk(keys, t, labels, e.node)
    requires e.idx == t.blocks[e.node] && f.idx - f.node < |labels| && e.lab == labels[f.idx - f.node]
    ensures Below(keys, t, labels, f, e)
  {
    ChildOf(keys, t, labels, f);
    FirstChild(keys, t, labels, e.node);
  }

  lemma {:induction false} DescendKeeps(keys: seq<Bytes>, t: Trie, labels: Bytes, w: Walk, e: Edge)
    requires w.stack != [] && Walking(keys, t, w) && Below(keys, t, labels, w.stack[|w.stack| - 1], e)
    ensures t.nodes[e.node].start < |keys| && |w.stack| <= |keys[t.nodes[e.node].start]|
    ensures Walking(keys, t, Descended(w, e, IsLeaf(keys, t.nodes[e.node])))
    ensures w.current + [e.lab] == keys[t.nodes[e.node].start][..|w.stack|]
    ensures w.out == keys[..t.nodes[e.node].start]
  {
    var f := w.stack[|w.stack| - 1];
    DescendPath(keys, t, labels, w, e);
    EmitDescends(keys, t, labels, f, e, w.current, w.out);
    var w' := Descended(w, e, IsLeaf(keys, t.nodes[e.node]));
    assert |w.current| == |w.stack| - 1;
  }

  lemma {:induction false} DescendPath(keys: seq<Bytes>, t: Trie, labels: Bytes, w: Walk, e: Edge)
    requires w.stack != [] && Path(t, w.stack) && Below(keys, t, labels, w.stack[|w.stack| - 1], e)
    ensures var stack := Descended(w, e, IsLeaf(keys, t.nodes[e.node])).stack;
            stack != [] && Path(t, stack) && stack[|stack| - 1] == Frame(e.node, e.idx)
  {
    var f := w.stack[|w.stack| - 1];
    BelowNested(keys, t, labels, f, e);
    PathDescends(t, w.stack, Frame(f.node, f.idx + 1), Frame(e.node, e.idx));
  }

  lemma {:induction false} BelowNested(keys: seq<Bytes>, t: Trie, labels: Bytes, f: Frame, e: Edge)
    requires Below(keys, t, labels, f, e)
    ensures Nested(t, Frame(f.node, f.idx + 1), Frame(e.node, e.idx))
  {
  }

  lemma {:induction false} PathDescends(t: Trie, stack: seq<Frame>, f: Frame, e: Frame)
    requires Path(t, stack) && f.node == stack[|stack| - 1].node && Nested(t, f, e)
    ensures Path(t, stack[..|stack| - 1] + [f, e])
  {
    var n := |stack|;
    var up, down := stack[..n - 1] + [f], stack[..n - 1] + [f, e];
    assert up[..n - 1] == stack[..n - 1] && down[..n] == up;
    assert Path(t, up);
  }

  lemma {:induction false} EmitDescends(
      keys: seq<Bytes>, t: Trie, labels: Bytes, f: Frame, e: Edge, current: Bytes, out: seq<Bytes>)
    requires Emitted(keys, t, f, current, out) && Below(keys, t, labels, f, e)
    ensures var kid := t.nodes[e.node];
            && kid.start < |keys| && |current| + 1 <= |keys[kid.start]|
            && current + [e.lab] == keys[kid.start][..|current| + 1] && out == keys[..kid.start]
            && Emitted(keys, t, Frame(e.node, e.idx), current + [e.lab],
                       if IsLeaf(keys, kid) then out + [current + [e.lab]] else out)
  {
    ExtendCurrent(keys, t, current, f, e);
    var kid := t.nodes[e.node];
    assert out == keys[..kid.start];
    if IsLeaf(keys, kid) {
      assert current + [e.lab] == keys[kid.start];
      assert keys[..kid.start + 1] == keys[..kid.start] + [keys[kid.start]];
    }
  }

  lemma {:induction false} ExtendCurrent(keys: seq<Bytes>, t: Trie, current: Bytes, f: Frame, e: Edge)
    requires f.node < |t.nodes| && e.node < |t.nodes|
    requires Shares(keys, t.nodes[f.node]) && Shares(keys, t.nodes[e.node])
    requires var node, kid := t.nodes[f.node], t.nodes[e.node];
             && node.start <= kid.start && kid.end <= node.end && kid.col == node.col + 1
             && |current| == node.col && current == keys[node.start][..node.col] && e.lab == keys[kid.start][node.col]
    ensures current + [e.lab] == keys[t.nodes[e.node].start][..|current| + 1]
  {
    var node, kid := t.nodes[f.node], t.nodes[e.node];
    assert Head(keys, kid.start, node.col) == Head(keys, node.start, node.col);
  }

  // ---- termination on arbitrary vectors ----

  ghost function Pow(b: nat, e: nat): (r: nat)
    requires b > 0
    ensures r > 0
  {
    if e == 0 then 1 else b * Pow(b, e - 1)
  }

  /** Frames as digits in base `u + 2`, the root most significant: stepping
      a frame outweighs any frame pushed below it. */
  ghost function Weight(stack: seq<Frame>, u: nat, d: nat): nat
    requires |stack| <= d + 1 && forall k :: 0 <= k < |stack| ==> stack[k].idx <= u
  {
    if stack == [] then 0
    else
      var n := |stack|;
      Weight(stack[..n - 1], u, d) + Times(u + 1 - stack[n - 1].idx, Pow(u + 2, d + 1 - n))
  }

  ghost function Times(a: nat, b: nat): nat { a * b }

  lemma {:induction false} PopLighter(stack: seq<Frame>, u: nat, d: nat)
    requires stack != [] && |stack| <= d + 1 && forall k :: 0 <= k < |stack| ==> stack[k].idx <= u
    ensures Weight(stack[..|stack| - 1], u, d) < Weight(stack, u, d)
  {
    var n := |stack|;
    Positive(u + 1 - stack[n - 1].idx, Pow(u + 2, d + 1 - n));
  }

  lemma {:induction false} Positive(a: nat, b: nat)
    requires a > 0 && b > 0
    ensures a * b > 0
  {
  }

  lemma {:induction false} PushLighter(stack: seq<Frame>, e: Frame, u: nat, d: nat)
    requires stack != [] && |stack| <= d && forall k :: 0 <= k < |stack| ==> stack[k].idx <= u
    requires stack[|stack| - 1].idx < u && e.idx <= u
    ensures var f := stack[|stack| - 1];
            Weight(stack[..|stack| - 1] + [Frame(f.node, f.idx + 1), e], u, d) < Weight(stack, u, d)
  {
    var n := |stack|;
    var f := stack[n - 1];
    var up := stack[..n - 1] + [Frame(f.node, f.idx + 1)];
    var down := stack[..n - 1] + [Frame(f.node, f.idx + 1), e];
    assert up[..n - 1] == stack[..n - 1] && down[..n] == up;
    var p := Pow(u + 2, d - n);
    assert Pow(u + 2, d + 1 - n) == (u + 2) * p;
    Carry(u + 1 - f.idx, u + 1 - e.idx, u, p);
  }

  lemma {:induction false} Carry(a: nat, b: nat, u: nat, p: nat)
    requires a > 0 && b <= u + 1 && p > 0
    ensures (a - 1) * ((u + 2) * p) + b * p < a * ((u + 2) * p)
  {
    var q := (u + 2) * p;
    assert a * q == (a - 1) * q + q;
    assert q == (u + 1) * p + p;
    assert b * p <= (u + 1) * p;
  }

  // ---- the bounded traversal ----

  datatype WalkError = OutputCap(count: nat) | DepthCap(depth: nat)

  /** What stopped a walk, and the keys it had handed over by then. */
  datatype Stop = Stop(error: WalkError, out: seq<Bytes>)

  datatype Caps = Caps(entries: nat, bytes: nat, depth: nat)

  /** What the caps guarantee of a finished walk, whatever the input: only a
      set holding just the empty key escapes them. */
  ghost predicate Capped(out: seq<Bytes>, caps: Caps) {
    && (|out| <= caps.entries || out == [[]])
    && TotalLength(out) <= caps.bytes
    && forall i :: 0 <= i < |out| ==> out[i] == [] || |out[i]| < caps.depth
  }

  /** The key sets the reader accepts. */
  ghost predicate Fits(keys: seq<Bytes>, caps: Caps) {
    || keys == [[]]
    || (&& |keys| <= caps.entries && TotalLength(keys) <= caps.bytes
        && forall i :: 0 <= i < |keys| ==> |keys[i]| < caps.depth)
  }

  lemma {:induction false} TotalLengthGrows(keys: seq<Bytes>, n: nat)
    requires n <= |keys|
    ensures TotalLength(keys[..n]) <= TotalLength(keys)
  {
    if n < |keys| {
      TotalLengthGrows(keys[..|keys| - 1], n);
      assert keys[..|keys| - 1][..n] == keys[..n];
    } else {
      assert keys[..n] == keys;
    }
  }

  lemma {:induction false} TotalLengthSnoc(out: seq<Bytes>, k: Bytes)
    ensures TotalLength(out + [k]) == TotalLength(out) + |k|
  {
    assert (out + [k])[..|out|] == out;
  }

  /** Emitting `keys[at]` after exactly the keys before it breaks a cap only
      if the whole set does. */
  lemma {:induction false} OverCap(keys: seq<Bytes>, caps: Caps, at: nat)
    requires at < |keys| && keys[at] != []
    requires at >= caps.entries || TotalLength(keys[..at]) + |keys[at]| > caps.bytes
    ensures !Fits(keys, caps)
  {
    assert keys[..at + 1] == keys[..at] + [keys[at]];
    TotalLengthSnoc(keys[..at], keys[at]);
    TotalLengthGrows(keys, at + 1);
  }

  lemma {:induction false} CappedFits(keys: seq<Bytes>, caps: Caps)
    requires Keys(keys) && Capped(keys, caps)
    ensures Fits(keys, caps)
  {
    if |keys| >= 2 {
      assert KeyLess(keys, 0, 1);
      assert keys[0] != [] || keys[1] != [];
    } else if |keys| == 1 {
      assert keys == [keys[0]];
    }
  }

  // ---- the walk as a function of the stored vectors ----

  datatype Stored = Stored(leaves: seq<Word>, bitmap: seq<Word>, labels: Bytes)

  ghost function IdxBound(d: Stored): nat { |d.labels| + 64 * |d.bitmap| }

  /** What every reachable walk state satisfies, whatever the vectors. */
  ghost predicate Sane(d: Stored, caps: Caps, w: Walk) {
    && |w.stack| <= caps.depth + 1
    && (w.stack != [] ==> |w.current| == |w.stack| - 1)
    && forall k :: 0 <= k < |w.stack| ==> w.stack[k].idx <= IdxBound(d) && w.stack[k].node <= 64 * |d.bitmap|
  }

  /** A key is handed over before the depth is checked. */
  ghost function Descent(d: Stored, caps: Caps, w: Walk, e: Edge): Result<Walk, Stop>
    requires w.stack != []
  {
    var leaf := GetBit(d.leaves, e.node);
    if leaf && (|w.out| >= caps.entries || TotalLength(w.out) + |w.current| + 1 > caps.bytes) then
      Err(Stop(OutputCap(|w.out|), w.out))
    else if |w.stack| >= caps.depth then
      Err(Stop(DepthCap(|w.stack|), Descended(w, e, leaf).out))
    else
      Ok(Descended(w, e, leaf))
  }

  ghost function WalkStep(d: Stored, caps: Caps, w: Walk): Result<Walk, Stop>
    requires w.stack != []
  {
    match EdgeAt(d.bitmap, d.labels, w.stack[|w.stack| - 1])
    case None => Ok(Popped(w))
    case Some(e) => Descent(d, caps, w, e)
  }

  lemma {:induction false} StepSane(d: Stored, caps: Caps, w: Walk)
    requires w.stack != [] && Sane(d, caps, w) && WalkStep(d, caps, w).Ok?
    ensures var w' := WalkStep(d, caps, w).value;
            Sane(d, caps, w') && Weight(w'.stack, IdxBound(d), caps.depth) < Weight(w.stack, IdxBound(d), caps.depth)
  {
    var f := w.stack[|w.stack| - 1];
    match EdgeAt(d.bitmap, d.labels, f) {
      case None =>
        PopLighter(w.stack, IdxBound(d), caps.depth);
      case Some(e) =>
        BitInRange(d.bitmap, e.idx - 1);
        DescentSane(d, caps, w, e);
    }
  }

  lemma {:induction false} DescentSane(d: Stored, caps: Caps, w: Walk, e: Edge)
    requires w.stack != [] && Sane(d, caps, w) && |w.stack| < caps.depth
    requires w.stack[|w.stack| - 1].idx < IdxBound(d) && e.idx <= 64 * |d.bitmap| && e.node <= 64 * |d.bitmap|
    ensures var w' := Descended(w, e, GetBit(d.leaves, e.node));
            Sane(d, caps, w') && Weight(w'.stack, IdxBound(d), caps.depth) < Weight(w.stack, IdxBound(d), caps.depth)
  {
    PushLighter(w.stack, Frame(e.node, e.idx), IdxBound(d), caps.depth);
  }

  /** Keys handed over, and the error that stopped the walk if one did. */
  ghost function WalkAll(d: Stored, caps: Caps, w: Walk): (seq<Bytes>, Option<WalkError>)
    requires Sane(d, caps, w)
    decreases Weight(w.stack, IdxBound(d), caps.depth)
  {
    if w.stack == [] then (w.out, None)
    else match WalkStep(d, caps, w)
      case Err(stop) => (stop.out, Some(stop.error))
      case Ok(w') =>
        StepSane(d, caps, w);
        WalkAll(d, caps, w')
  }

  ghost function Start(d: Stored): Walk {
    Walk([Frame(0, 0)], [], if GetBit(d.leaves, 0) then [[]] else [])
  }

  /** One step of the walk, as far as its end is concerned. */
  lemma {:induction false} WalkUnfolds(d: Stored, caps: Caps, w: Walk, r: Result<Walk, Stop>)
    requires w.stack != [] && Sane(d, caps, w) && WalkStep(d, caps, w) == r
    ensures r.Ok? ==> Sane(d, caps, r.value) && WalkAll(d, caps, w) == WalkAll(d, caps, r.value)
    ensures r.Ok? ==> Weight(r.value.stack, IdxBound(d), caps.depth) < Weight(w.stack, IdxBound(d), caps.depth)
    ensures r.Err? ==> WalkAll(d, caps, w) == (r.error.out, Some(r.error.error))
  {
    if r.Ok? { StepSane(d, caps, w); }
  }

  /** `traverse_bounded`: the explicit-stack loop computes the walk, for any
      vectors at all, and so always terminates. */
  method TraverseBounded(d: Stored, ranks: seq<nat>, caps: Caps) returns (out: seq<Bytes>, err: Option<WalkError>)
    requires IsRanks(d.bitmap, ranks)
    ensures (out, err) == WalkAll(d, caps, Start(d))
  {
    var outBytes := 0;
    var stack := [Frame(0, 0)];
    var current: Bytes := [];
    out := if GetBit(d.leaves, 0) then [[]] else [];
    assert TotalLength(out) == 0;
    ghost var all := WalkAll(d, caps, Start(d));
    while stack != []
      invariant Sane(d, caps, Walk(stack, current, out)) && outBytes == TotalLength(out)
      invariant WalkAll(d, caps, Walk(stack, current, out)) == all
      decreases Weight(stack, IdxBound(d), caps.depth)
    {
      ghost var w := Walk(stack, current, out);
      var e := NextEdge(d.bitmap, ranks, d.labels, stack[|stack| - 1]);
      if e.None? {
        stack := stack[..|stack| - 1];
        if stack != [] { current := current[..|current| - 1]; }
        assert Walk(stack, current, out) == Popped(w);
        WalkUnfolds(d, caps, w, Ok(Popped(w)));
      } else {
        stack, current, out, outBytes, err := Descend(d, caps, stack, current, out, outBytes, e.value);
        WalkUnfolds(d, caps, w, Descent(d, caps, w, e.value));
        if err.Some? { return; }
      }
    }
    err := None;
  }

  /** Step into a child: emit it if it is a key, then push its frame. */
  method Descend(d: Stored, caps: Caps, stack0: seq<Frame>, current0: Bytes, out0: seq<Bytes>, bytes0: nat, e: Edge)
    returns (stack: seq<Frame>, current: Bytes, out: seq<Bytes>, bytes: nat, err: Option<WalkError>)
    requires stack0 != [] && bytes0 == TotalLength(out0)
    ensures err.None? ==> bytes == TotalLength(out)
    ensures Descent(d, caps, Walk(stack0, current0, out0), e)
         == if err.None? then Ok(Walk(stack, current, out)) else Err(Stop(err.value, out))
  {
    var top := stack0[|stack0| - 1];
    stack, out, bytes := stack0, out0, bytes0;
    current := current0 + [e.lab];
    if GetBit(d.leaves, e.node) {
      if |out| >= caps.entries || bytes + |current| > caps.bytes {
        err := Some(OutputCap(|out|));
        return;
      }
      TotalLengthSnoc(out, current);
      out, bytes := out + [current], bytes + |current|;
    }
    if |stack| >= caps.depth {
      err := Some(DepthCap(|stack|));
      return;
    }
    stack := stack[..|stack| - 1] + [Frame(top.node, top.idx + 1), Frame(e.node, e.idx)];
    err := None;
  }

  /** Whatever the bytes, a walk that finishes stays within the caps. */
  lemma {:induction false} WalkCapped(d: Stored, caps: Caps, w: Walk)
    requires Sane(d, caps, w) && Capped(w.out, caps)
    ensures WalkAll(d, caps, w).1.None? ==> Capped(WalkAll(d, caps, w).0, caps)
    decreases Weight(w.stack, IdxBound(d), caps.depth)
  {
    if w.stack == [] || WalkStep(d, caps, w).Err? {
    } else {
      var w' := WalkStep(d, caps, w).value;
      StepSane(d, caps, w);
      StepCapped(d, caps, w);
      WalkCapped(d, caps, w');
    }
  }

  // ---- reading back what the writer wrote ----

  lemma {:induction false} WalkStarts(keys: seq<Bytes>, d: Stored, t: Trie)
    requires Encodes(keys, d.leaves, d.bitmap, d.labels, t)
    ensures Walking(keys, t, Start(d))
  {
    assert NodeOk(keys, t, d.labels, 0);
    FirstChild(keys, t, d.labels, 0);
    if GetBit(d.leaves, 0) {
      assert keys[0] == [] && keys[..1] == [keys[0]];
    }
  }

  lemma {:induction false} StepPops(keys: seq<Bytes>, d: Stored, t: Trie, w: Walk)
    requires Encodes(keys, d.leaves, d.bitmap, d.labels, t) && w.stack != [] && Walking(keys, t, w)
    requires EdgeAt(d.bitmap, d.labels, w.stack[|w.stack| - 1]).None?
    ensures Walking(keys, t, Popped(w))
  {
    EdgeOfTrie(keys, d.leaves, d.bitmap, d.labels, t, w.stack[|w.stack| - 1]);
    PopKeeps(keys, t, w);
  }

  /** The edge found at a frame of an encoded trie is its next child. */
  lemma {:induction false} EdgeFound(keys: seq<Bytes>, d: Stored, t: Trie, f: Frame)
    requires Encodes(keys, d.leaves, d.bitmap, d.labels, t) && FrameOk(t, f) && EdgeAt(d.bitmap, d.labels, f).Some?
    ensures var e := EdgeAt(d.bitmap, d.labels, f).value;
            && f.idx + 1 < t.blocks[f.node + 1] && e.node == f.idx - f.node + 1 < |t.nodes|
            && e.idx == t.blocks[e.node] && f.idx - f.node < |d.labels| && e.lab == d.labels[f.idx - f.node]
  {
    var e := EdgeAt(d.bitmap, d.labels, f).value;
    EdgeOfTrie(keys, d.leaves, d.bitmap, d.labels, t, f);
    SelectUnique(d.bitmap, e.node - 1, e.idx - 1, t.blocks[e.node] - 1);
  }

  lemma {:induction false} LeafBit(keys: seq<Bytes>, d: Stored, t: Trie, i: nat)
    requires Encodes(keys, d.leaves, d.bitmap, d.labels, t) && i < |t.nodes|
    ensures t.nodes[i].start < |keys| && GetBit(d.leaves, i) == IsLeaf(keys, t.nodes[i])
  {
    assert Shares(keys, t.nodes[i]);
  }

  lemma {:induction false} EdgeBelow(keys: seq<Bytes>, d: Stored, t: Trie, f: Frame, e: Edge)
    requires Encodes(keys, d.leaves, d.bitmap, d.labels, t) && FrameOk(t, f)
    requires EdgeAt(d.bitmap, d.labels, f) == Some(e)
    ensures Below(keys, t, d.labels, f, e)
  {
    EdgeFound(keys, d, t, f);
    assert NodeOk(keys, t, d.labels, f.node);
    assert NodeOk(keys, t, d.labels, e.node);
    BelowOf(keys, t, d.labels, f, e);
  }

  /** A step of the walk of an encoded trie goes on walking it, and is
      stopped only by a key set that breaks a cap. */
  ghost predicate GoodStep(keys: seq<Bytes>, t: Trie, caps: Caps, r: Result<Walk, Stop>) {
    && (forall w :: r == Ok(w) ==> Walking(keys, t, w))
    && (r.Err? ==> !Fits(keys, caps) && r.error.out <= keys)
  }

  lemma {:induction false} StepDescends(keys: seq<Bytes>, d: Stored, t: Trie, caps: Caps, w: Walk)
    requires Encodes(keys, d.leaves, d.bitmap, d.labels, t) && w.stack != [] && Walking(keys, t, w)
    requires EdgeAt(d.bitmap, d.labels, w.stack[|w.stack| - 1]).Some?
    ensures GoodStep(keys, t, caps, WalkStep(d, caps, w))
  {
    var f := w.stack[|w.stack| - 1];
    var e := EdgeAt(d.bitmap, d.labels, f).value;
    EdgeBelow(keys, d, t, f, e);
    LeafBit(keys, d, t, e.node);
    DescentOutcome(keys, d, t, caps, w, e);
  }

  lemma {:induction false} DescentOutcome(keys: seq<Bytes>, d: Stored, t: Trie, caps: Caps, w: Walk, e: Edge)
    requires w.stack != [] && Walking(keys, t, w) && Below(keys, t, d.labels, w.stack[|w.stack| - 1], e)
    requires t.nodes[e.node].start < |keys| && GetBit(d.leaves, e.node) == IsLeaf(keys, t.nodes[e.node])
    ensures GoodStep(keys, t, caps, Descent(d, caps, w, e))
  {
    DescendKeeps(keys, t, d.labels, w, e);
    var at := t.nodes[e.node].start;
    if Descent(d, caps, w, e).Err? {
      if |w.stack| < caps.depth { OverCap(keys, caps, at); }
      assert |keys[at]| >= |w.stack| > 0;
      assert Descended(w, e, GetBit(d.leaves, e.node)).out <= keys;
    }
  }

  /** From any walk state of an encoded trie the walk ends with all keys, and
      it is stopped exactly when the key set breaks a cap; then it has handed
      over the first keys in order. */
  lemma {:induction false} WalkYieldsKeys(keys: seq<Bytes>, d: Stored, t: Trie, caps: Caps, w: Walk)
    requires Encodes(keys, d.leaves, d.bitmap, d.labels, t)
    requires Sane(d, caps, w) && Walking(keys, t, w) && Capped(w.out, caps)
    ensures WalkAll(d, caps, w) == (keys, None) <==> Fits(keys, caps)
    ensures WalkAll(d, caps, w).1.None? <==> Fits(keys, caps)
    ensures WalkAll(d, caps, w).0 <= keys
    decreases Weight(w.stack, IdxBound(d), caps.depth)
  {
    if w.stack == [] {
      CappedFits(keys, caps);
    } else {
      if EdgeAt(d.bitmap, d.labels, w.stack[|w.stack| - 1]).None? {
        StepPops(keys, d, t, w);
      } else {
        StepDescends(keys, d, t, caps, w);
      }
      match WalkStep(d, caps, w) {
        case Err(_) =>
        case Ok(w') =>
          StepSane(d, caps, w);
          StepCapped(d, caps, w);
          WalkYieldsKeys(keys, d, t, caps, w');
      }
    }
  }

  lemma {:induction false} StepCapped(d: Stored, caps: Caps, w: Walk)
    requires w.stack != [] && Sane(d, caps, w) && Capped(w.out, caps) && WalkStep(d, caps, w).Ok?
    ensures Capped(WalkStep(d, caps, w).value.out, caps)
  {
    TotalLengthSnoc(w.out, WalkStep(d, caps, w).value.current);
  }
}
