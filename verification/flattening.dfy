/** The flattening walker of convert_util.hpp: `ProcessXML` walks the manifest's
    `<layer>` elements depth-first, writes each leaf's transposed weight and bias
    into one parameter buffer at a running offset, and queues the running
    statistics of every `BatchNorm2d` leaf; `ReadXML` sizes the buffer from the
    root's declared `trainable_param` and starts the walk. */
module Flattening {
  import opened Tensors
  import opened StatsQueues

  /** A `<layer>` element of the manifest, as the walker reads it. The flags
      are kept as the element texts, because the walker compares them with
      "0" and "1"; the tensors are what the loader returns for the element's
      `*_csv` paths. A container's tensors and a leaf's `layers` are never read. */
  datatype LayerNode = LayerNode(
    name: string,           // first attribute: the PyTorch class name
    isLeaf: string,         // text of <is_leaf>
    hasWeight: string,      // text of <has_weight>
    hasBias: string,        // text of <has_bias>
    weight: Matrix,         // loaded from <weight_csv>
    bias: Matrix,           // loaded from <bias_csv>
    runningMean: Matrix,    // loaded from <running_mean_csv>
    runningVar: Matrix,     // loaded from <running_var_csv>
    layers: seq<LayerNode>) // nested <layer> elements, in document order

  /** The root element: the declared parameter count and the top-level layers. */
  datatype Manifest = Manifest(trainableParam: nat, layers: seq<LayerNode>)

  /** The only layer name whose running statistics are queued. */
  const BatchNormName: string := "BatchNorm2d"

  /** Only the exact text "0" makes an element a container; any other text is a leaf. */
  predicate IsContainer(n: LayerNode) {
    n.isLeaf == "0"
  }

  function WeightRun(n: LayerNode): seq<Elem> {
    if n.hasWeight == "1" then Layout(n.weight) else []
  }

  function BiasRun(n: LayerNode): seq<Elem> {
    if n.hasBias == "1" then Layout(n.bias) else []
  }

  // ---------------------------------------------------------------------------
  // Specification: what the walk writes, counts and queues. The functions over
  // siblings take the number k of siblings already visited.

  /** The elements a node contributes to the buffer: a leaf's weight run
      immediately followed by its bias run; a container's children in order. */
  function NodeFlat(n: LayerNode): seq<Elem>
    decreases n, 0
  {
    if IsContainer(n) then Flat(n.layers, |n.layers|) else WeightRun(n) + BiasRun(n)
  }

  /** The elements the first k siblings contribute, in document order. */
  function Flat(s: seq<LayerNode>, k: nat): seq<Elem>
    requires k <= |s|
    decreases s, k
  {
    if k == 0 then [] else Flat(s, k - 1) + NodeFlat(s[k - 1])
  }

  /** The count the walk returns, added up as the source does: `n_elem` of the
      weight when has_weight is "1", plus `n_elem` of the bias when has_bias is "1". */
  function NodeCount(n: LayerNode): nat
    decreases n, 0
  {
    if IsContainer(n) then Count(n.layers, |n.layers|)
    else
      (if n.hasWeight == "1" then NElem(n.weight) else 0) +
      (if n.hasBias == "1" then NElem(n.bias) else 0)
  }

  function Count(s: seq<LayerNode>, k: nat): nat
    requires k <= |s|
    decreases s, k
  {
    if k == 0 then 0 else Count(s, k - 1) + NodeCount(s[k - 1])
  }

  /** What a node appends to the statistics queue: mean then variance for a
      leaf named exactly BatchNorm2d; a container's children's, in order. */
  function NodeStats(n: LayerNode): seq<Matrix>
    decreases n, 0
  {
    if IsContainer(n) then Stats(n.layers, |n.layers|)
    else if n.name == BatchNormName then [n.runningMean, n.runningVar]
    else []
  }

  function Stats(s: seq<LayerNode>, k: nat): seq<Matrix>
    requires k <= |s|
    decreases s, k
  {
    if k == 0 then [] else Stats(s, k - 1) + NodeStats(s[k - 1])
  }

  /** The BatchNorm2d leaves, depth-first in document order. */
  function NodeBatchNorms(n: LayerNode): seq<LayerNode>
    decreases n, 0
  {
    if IsContainer(n) then BatchNormLeaves(n.layers, |n.layers|)
    else if n.name == BatchNormName then [n]
    else []
  }

  function BatchNormLeaves(s: seq<LayerNode>, k: nat): seq<LayerNode>
    requires k <= |s|
    decreases s, k
  {
    if k == 0 then [] else BatchNormLeaves(s, k - 1) + NodeBatchNorms(s[k - 1])
  }

  /** The tensors copied into the buffer, in the order they are copied. */
  function NodeWritten(n: LayerNode): seq<Matrix>
    decreases n, 0
  {
    if IsContainer(n) then Written(n.layers, |n.layers|)
    else
      (if n.hasWeight == "1" then [n.weight] else []) +
      (if n.hasBias == "1" then [n.bias] else [])
  }

  function Written(s: seq<LayerNode>, k: nat): seq<Matrix>
    requires k <= |s|
    decreases s, k
  {
    if k == 0 then [] else Written(s, k - 1) + NodeWritten(s[k - 1])
  }

  // ---------------------------------------------------------------------------
  // Properties of the specification

  /** The returned count is exactly the number of elements laid out. */
  lemma {:induction false} FlatLength(s: seq<LayerNode>, k: nat)
    requires k <= |s|
    ensures |Flat(s, k)| == Count(s, k)
    decreases s, k
  {
    if k > 0 {
      FlatLength(s, k - 1);
      NodeFlatLength(s[k - 1]);
    }
  }

  lemma {:induction false} NodeFlatLength(n: LayerNode)
    ensures |NodeFlat(n)| == NodeCount(n)
    decreases n, 0
  {
    if IsContainer(n) {
      FlatLength(n.layers, |n.layers|);
    }
  }

  /** An empty container, and a leaf whose weight and bias flags are both not
      "1", contribute nothing to the buffer and nothing to the count. */
  lemma NoContribution(n: LayerNode)
    requires (IsContainer(n) && n.layers == []) ||
             (!IsContainer(n) && n.hasWeight != "1" && n.hasBias != "1")
    ensures NodeCount(n) == 0 && NodeFlat(n) == [] && NodeWritten(n) == []
  {
  }

  /** Visiting more siblings never lowers the count. */
  lemma {:induction false} CountGrows(s: seq<LayerNode>, k: nat)
    requires k <= |s|
    ensures Count(s, k) <= Count(s, |s|)
    decreases |s| - k
  {
    if k < |s| {
      CountGrows(s, k + 1);
    }
  }

  lemma {:induction false} FlatPrefix(a: seq<LayerNode>, b: seq<LayerNode>, k: nat)
    requires k <= |a|
    ensures Flat(a + b, k) == Flat(a, k)
  {
    if k > 0 {
      FlatPrefix(a, b, k - 1);
      assert (a + b)[k - 1] == a[k - 1];
    }
  }

  /** Siblings are laid out back to back: the runs of the siblings in `b` start
      exactly where those of the siblings in `a` end, with no gap and no overlap. */
  lemma {:induction false} FlatAppend(a: seq<LayerNode>, b: seq<LayerNode>, j: nat)
    requires j <= |b|
    ensures Flat(a + b, |a| + j) == Flat(a, |a|) + Flat(b, j)
  {
    if j == 0 {
      FlatPrefix(a, b, |a|);
    } else {
      FlatAppend(a, b, j - 1);
      assert (a + b)[|a| + j - 1] == b[j - 1];
    }
  }

  /** The queue receives two entries per BatchNorm2d leaf: entry 2i is the i-th
      such leaf's running mean and entry 2i+1 its running variance. */
  lemma {:induction false} StatsPairs(s: seq<LayerNode>, k: nat)
    requires k <= |s|
    ensures |Stats(s, k)| == 2 * |BatchNormLeaves(s, k)|
    ensures forall i :: 0 <= i < |BatchNormLeaves(s, k)| ==>
      Stats(s, k)[2 * i] == BatchNormLeaves(s, k)[i].runningMean &&
      Stats(s, k)[2 * i + 1] == BatchNormLeaves(s, k)[i].runningVar
    decreases s, k
  {
    if k > 0 {
      var last := s[k - 1];
      StatsPairs(s, k - 1);
      NodeStatsPairs(last);
      var p := |BatchNormLeaves(s, k - 1)|;
      forall i | p <= i < |BatchNormLeaves(s, k)|
        ensures Stats(s, k)[2 * i] == BatchNormLeaves(s, k)[i].runningMean
        ensures Stats(s, k)[2 * i + 1] == BatchNormLeaves(s, k)[i].runningVar
      {
        assert BatchNormLeaves(s, k)[i] == NodeBatchNorms(last)[i - p];
        assert Stats(s, k)[2 * i] == NodeStats(last)[2 * (i - p)];
        assert Stats(s, k)[2 * i + 1] == NodeStats(last)[2 * (i - p) + 1];
      }
    }
  }

  lemma {:induction false} NodeStatsPairs(n: LayerNode)
    ensures |NodeStats(n)| == 2 * |NodeBatchNorms(n)|
    ensures forall i :: 0 <= i < |NodeBatchNorms(n)| ==>
      NodeStats(n)[2 * i] == NodeBatchNorms(n)[i].runningMean &&
      NodeStats(n)[2 * i + 1] == NodeBatchNorms(n)[i].runningVar
    decreases n, 0
  {
    if IsContainer(n) {
      StatsPairs(n.layers, |n.layers|);
    }
  }

  /** The buffer is the layouts of the copied tensors, one after another. */
  lemma {:induction false} FlatIsLayouts(s: seq<LayerNode>, k: nat)
    requires k <= |s|
    ensures Flat(s, k) == LayoutAll(Written(s, k))
    decreases s, k
  {
    if k > 0 {
      FlatIsLayouts(s, k - 1);
      NodeFlatIsLayouts(s[k - 1]);
      LayoutAllAppend(Written(s, k - 1), NodeWritten(s[k - 1]));
      calc {
        Flat(s, k);
        Flat(s, k - 1) + NodeFlat(s[k - 1]);
        LayoutAll(Written(s, k - 1)) + LayoutAll(NodeWritten(s[k - 1]));
        LayoutAll(Written(s, k - 1) + NodeWritten(s[k - 1]));
        LayoutAll(Written(s, k));
      }
    }
  }

  lemma {:induction false} NodeFlatIsLayouts(n: LayerNode)
    ensures NodeFlat(n) == LayoutAll(NodeWritten(n))
    decreases n, 0
  {
    if IsContainer(n) {
      FlatIsLayouts(n.layers, |n.layers|);
    } else {
      var w := if n.hasWeight == "1" then [n.weight] else [];
      var b := if n.hasBias == "1" then [n.bias] else [];
      LayoutAllAppend(w, b);
      assert LayoutAll(w) == WeightRun(n);
      assert LayoutAll(b) == BiasRun(n);
    }
  }

  /** Round trip: cutting the flat buffer into runs by the shapes of the copied
      tensors, in traversal order, and undoing the transpose gives back every
      tensor the manifest flags. */
  lemma FlattenRoundTrip(s: seq<LayerNode>)
    ensures |Flat(s, |s|)| == ShapeTotal(Shapes(Written(s, |s|)))
    ensures Split(Flat(s, |s|), Shapes(Written(s, |s|))) == Written(s, |s|)
  {
    FlatIsLayouts(s, |s|);
    SplitLayoutAll(Written(s, |s|));
  }

  // ---------------------------------------------------------------------------
  // The walk itself

  /** The buffer after `run` is written into `buf` from offset `at` on, one
      element after another. */
  function Place(buf: seq<Elem>, at: nat, run: seq<Elem>): (r: seq<Elem>)
    requires at + |run| <= |buf|
    ensures |r| == |buf|
    decreases |run|
  {
    if run == [] then buf else Place(buf[at := run[0]], at + 1, run[1..])
  }

  /** A placed run occupies exactly its cells; every other cell is unchanged. */
  lemma {:induction false} PlaceAt(buf: seq<Elem>, at: nat, run: seq<Elem>, i: nat)
    requires at + |run| <= |buf| && i < |buf|
    ensures Place(buf, at, run)[i] == if at <= i < at + |run| then run[i - at] else buf[i]
    decreases |run|
  {
    if run != [] {
      PlaceAt(buf[at := run[0]], at + 1, run[1..], i);
    }
  }

  /** Placing a run equals keeping the cells before it, the run, and the cells
      after it. */
  lemma PlaceSlices(buf: seq<Elem>, at: nat, run: seq<Elem>)
    requires at + |run| <= |buf|
    ensures Place(buf, at, run) == buf[..at] + run + buf[at + |run|..]
  {
    forall i | 0 <= i < |buf| ensures Place(buf, at, run)[i] == (buf[..at] + run + buf[at + |run|..])[i] {
      PlaceAt(buf, at, run, i);
    }
  }

  /** Two runs placed back to back are one run: the second starts exactly
      where the first ends. */
  lemma {:induction false} PlaceAppend(buf: seq<Elem>, at: nat, r1: seq<Elem>, r2: seq<Elem>)
    requires at + |r1| + |r2| <= |buf|
    ensures Place(Place(buf, at, r1), at + |r1|, r2) == Place(buf, at, r1 + r2)
    decreases |r1|
  {
    if r1 == [] {
      assert r1 + r2 == r2;
    } else {
      assert (r1 + r2)[0] == r1[0] && (r1 + r2)[1..] == r1[1..] + r2;
      PlaceAppend(buf[at := r1[0]], at + 1, r1[1..], r2);
    }
  }

  /** The buffer offsets written, in the order they are written. */
  function Range(lo: nat, hi: nat): (r: seq<nat>)
    requires lo <= hi
    ensures |r| == hi - lo
    decreases hi - lo
  {
    if hi == lo then [] else Range(lo, hi - 1) + [hi - 1]
  }

  lemma {:induction false} RangeAppend(lo: nat, mid: nat, hi: nat)
    requires lo <= mid <= hi
    ensures Range(lo, mid) + Range(mid, hi) == Range(lo, hi)
    decreases hi - mid
  {
    if mid < hi {
      RangeAppend(lo, mid, hi - 1);
      assert Range(lo, mid) + Range(mid, hi) == (Range(lo, mid) + Range(mid, hi - 1)) + [hi - 1];
    }
  }

  /** The offsets written are consecutive: the k-th is lo + k. */
  lemma {:induction false} RangeAt(lo: nat, hi: nat, k: nat)
    requires lo <= hi && k < hi - lo
    ensures Range(lo, hi)[k] == lo + k
    decreases hi - lo
  {
    if k < hi - lo - 1 {
      RangeAt(lo, hi - 1, k);
    }
  }

  /** `MakeAlias(tmp, paramsPtr + at, n_elem, 1); tmp = m.t();`: the run is
      copied into the caller's buffer in place, element after element. */
  method WriteRun(buf: array<Elem>, at: nat, run: seq<Elem>) returns (ghost written: seq<nat>)
    requires at + |run| <= buf.Length
    modifies buf
    ensures buf[..] == Place(old(buf[..]), at, run)
    ensures written == Range(at, at + |run|)
  {
    written := [];
    for k := 0 to |run|
      invariant forall i :: 0 <= i < buf.Length ==>
        buf[i] == if at <= i < at + k then run[i - at] else old(buf[i])
      invariant written == Range(at, at + k)
    {
      buf[at + k] := run[k];
      written := written + [at + k];
    }
    forall i | 0 <= i < buf.Length ensures buf[i] == Place(old(buf[..]), at, run)[i] {
      PlaceAt(old(buf[..]), at, run, i);
    }
  }

  /** One flagged tensor of a leaf: its layout is written at `at` when the
      flag text is exactly "1", and nothing is written otherwise. */
  method WriteFlagged(flag: string, m: Matrix, buf: array<Elem>, at: nat) returns (n: nat, ghost written: seq<nat>)
    requires at + (if flag == "1" then NElem(m) else 0) <= buf.Length
    modifies buf
    ensures n == (if flag == "1" then NElem(m) else 0)
    ensures buf[..] == Place(old(buf[..]), at, if flag == "1" then Layout(m) else [])
    ensures written == Range(at, at + n)
  {
    if flag == "1" {
      written := WriteRun(buf, at, Layout(m));
      n := NElem(m);
    } else {
      n, written := 0, [];
    }
  }

  /** The leaf branch of `ProcessXML`: the weight run, then the bias run right
      after it, each only when its flag is exactly "1"; then, for a layer named
      BatchNorm2d, running mean and running variance onto the queue, which
      take no buffer space. */
  method ProcessLeaf(node: LayerNode, buf: array<Elem>, at: nat, q: StatsQueue)
    returns (n: nat, ghost written: seq<nat>)
    requires !IsContainer(node)
    requires at + NodeCount(node) <= buf.Length
    modifies buf, q
    ensures n == NodeCount(node) == |NodeFlat(node)|
    ensures buf[..] == Place(old(buf[..]), at, WeightRun(node) + BiasRun(node))
    ensures written == Range(at, at + n)
    ensures q.items == old(q.items) + NodeStats(node)
  {
    var nw, ww := WriteFlagged(node.hasWeight, node.weight, buf, at);
    var nb, wb := WriteFlagged(node.hasBias, node.bias, buf, at + nw);
    n, written := nw + nb, ww + wb;
    RangeAppend(at, at + nw, at + nw + nb);
    PlaceAppend(old(buf[..]), at, WeightRun(node), BiasRun(node));
    if node.name == BatchNormName {
      q.Push(node.runningMean);
      q.Push(node.runningVar);
    }
  }

  /** One `<layer>` element of the loop in `ProcessXML`: a container (is_leaf
      "0") is flattened recursively at the current offset `paramsPtr + start`,
      and the offset then advances by exactly what the child returns; any
      other element is handled as a leaf. */
  method ProcessNode(node: LayerNode, buf: array<Elem>, at: nat, q: StatsQueue)
    returns (n: nat, ghost written: seq<nat>)
    requires at + NodeCount(node) <= buf.Length
    modifies buf, q
    ensures n == NodeCount(node) == |NodeFlat(node)|
    ensures buf[..] == Place(old(buf[..]), at, NodeFlat(node))
    ensures written == Range(at, at + n)
    ensures q.items == old(q.items) + NodeStats(node)
    decreases node, 0
  {
    if IsContainer(node) {
      n, written := ProcessXML(node.layers, buf, at, q);
    } else {
      n, written := ProcessLeaf(node, buf, at, q);
    }
  }

  /** One iteration of the loop of `ProcessXML`: sibling i is flattened at
      `base + start`, right after the elements of the siblings before it, and
      `start` is to advance by what it returns. */
  method ProcessSibling(layers: seq<LayerNode>, i: nat, buf: array<Elem>, base: nat, start: nat, q: StatsQueue,
                        ghost orig: seq<Elem>, ghost queued: seq<Matrix>)
    returns (n: nat, ghost w: seq<nat>)
    requires i < |layers| && start == Count(layers, i) == |Flat(layers, i)|
    requires base + Count(layers, |layers|) <= buf.Length && |orig| == buf.Length
    requires base + start <= buf.Length && buf[..] == Place(orig, base, Flat(layers, i))
    requires q.items == queued + Stats(layers, i)
    modifies buf, q
    ensures start + n == Count(layers, i + 1) == |Flat(layers, i + 1)|
    ensures base + start + n <= buf.Length && buf[..] == Place(orig, base, Flat(layers, i + 1))
    ensures Range(base, base + start) + w == Range(base, base + start + n)
    ensures q.items == queued + Stats(layers, i + 1)
    decreases layers, 0
  {
    var node := layers[i];
    CountGrows(layers, i + 1);
    n, w := ProcessNode(node, buf, base + start, q);
    assert Flat(layers, i + 1) == Flat(layers, i) + NodeFlat(node);
    PlaceAppend(orig, base, Flat(layers, i), NodeFlat(node));
    RangeAppend(base, base + start, base + start + n);
  }

  /** `ProcessXML(rootNode, paramsPtr + base, runningParams)` for a root whose
      `<layer>` children are `layers`. Writes exactly the cells
      [base, base + count), each once and in increasing order, with the layouts
      of the flagged tensors in document order; appends the statistics of the
      BatchNorm2d leaves to the queue; returns the count. The source never
      checks that the writes fit the buffer: that is the precondition. */
  method ProcessXML(layers: seq<LayerNode>, buf: array<Elem>, base: nat, q: StatsQueue)
    returns (start: nat, ghost written: seq<nat>)
    requires base + Count(layers, |layers|) <= buf.Length
    modifies buf, q
    ensures start == Count(layers, |layers|) == |Flat(layers, |layers|)|
    ensures buf[..] == Place(old(buf[..]), base, Flat(layers, |layers|))
    ensures written == Range(base, base + start)
    ensures q.items == old(q.items) + Stats(layers, |layers|)
    decreases layers, 1
  {
    ghost var orig := buf[..];
    ghost var queued := q.items;
    start, written := 0, [];
    var i := 0;
    while i < |layers|
      invariant i <= |layers|
      invariant start == Count(layers, i) == |Flat(layers, i)|
      invariant base + start <= buf.Length
      invariant buf[..] == Place(orig, base, Flat(layers, i))
      invariant written == Range(base, base + start)
      invariant q.items == queued + Stats(layers, i)
    {
      var n, w := ProcessSibling(layers, i, buf, base, start, q, orig, queued);
      start, written := start + n, written + w;
      i := i + 1;
    }
  }

  /** `ReadXML`: allocates exactly `trainable_param` cells and flattens the
      manifest into them. The writes stay in bounds only when the walk's total
      fits the declared count, which the source does not check. */
  method ReadXML(doc: Manifest, q: StatsQueue) returns (params: array<Elem>)
    requires Count(doc.layers, |doc.layers|) <= doc.trainableParam
    modifies q
    ensures fresh(params) && params.Length == doc.trainableParam
    ensures params[..Count(doc.layers, |doc.layers|)] == Flat(doc.layers, |doc.layers|)
    ensures forall i :: Count(doc.layers, |doc.layers|) <= i < params.Length ==> params[i] == 0.0
    ensures Count(doc.layers, |doc.layers|) == doc.trainableParam ==> params[..] == Flat(doc.layers, |doc.layers|)
    ensures q.items == old(q.items) + Stats(doc.layers, |doc.layers|)
  {
    params := new Elem[doc.trainableParam](_ => 0.0);
    ghost var zeros := params[..];
    var n, w := ProcessXML(doc.layers, params, 0, q);
    PlaceSlices(zeros, 0, Flat(doc.layers, |doc.layers|));
    assert params[..] == Flat(doc.layers, |doc.layers|) + zeros[n..];
  }
}
