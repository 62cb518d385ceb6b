/** The running-statistics distributor of convert_util.hpp: `ProcessBatchNorm`
    walks the layers of a built network depth-first, descends into every
    `MultiLayer`, and gives each `BatchNorm` layer the next two queue entries,
    transposed, as its running mean and running variance. */
module Distributor {
  import opened Tensors
  import opened StatsQueues

  /** mlpack's BatchNorm layer, reduced to the two fields the distributor sets. */
  class BatchNorm {
    var trainingMean: Matrix
    var trainingVariance: Matrix

    constructor (mean: Matrix, variance: Matrix)
      ensures trainingMean == mean && trainingVariance == variance
    {
      trainingMean, trainingVariance := mean, variance;
    }
  }

  /** A layer of a built network, as far as the distributor tells them apart:
      the two `dynamic_cast`s become the first two cases. */
  datatype Layer =
    | BatchNormLayer(bn: BatchNorm)
    | MultiLayer(network: seq<Layer>)
    | OtherLayer(kind: string)

  /** The BatchNorm layers under a layer, depth-first. */
  function LayerBatchNorms(l: Layer): seq<BatchNorm>
    decreases l, 0
  {
    match l
    case BatchNormLayer(bn) => [bn]
    case MultiLayer(sub) => BatchNorms(sub, |sub|)
    case OtherLayer(_) => []
  }

  /** The BatchNorm layers under the first k layers of a network, depth-first. */
  function BatchNorms(net: seq<Layer>, k: nat): seq<BatchNorm>
    requires k <= |net|
    decreases net, k
  {
    if k == 0 then [] else BatchNorms(net, k - 1) + LayerBatchNorms(net[k - 1])
  }

  predicate Distinct<T(==)>(s: seq<T>) {
    forall i, j :: 0 <= i < j < |s| ==> s[i] != s[j]
  }

  // ---------------------------------------------------------------------------
  // Specification: what the distributor hands out, as a function of the queue

  /** One BatchNorm layer receiving its running mean and running variance. */
  datatype Assignment = Assignment(bn: BatchNorm, mean: Matrix, variance: Matrix)

  /** Either the walk would read `front()` of an empty queue (undefined in the
      source), or the assignments made, in order, and what is left queued. */
  datatype Outcome = Underflow | Done(served: seq<Assignment>, rest: seq<Matrix>)

  function Targets(served: seq<Assignment>): (bns: seq<BatchNorm>)
    ensures |bns| == |served|
    ensures forall j :: 0 <= j < |served| ==> bns[j] == served[j].bn
  {
    seq(|served|, j requires 0 <= j < |served| => served[j].bn)
  }

  /** `ProcessBatchNorm(network, runningParams)`: nothing at all when the queue
      is empty on entry (this check is repeated on entry to every MultiLayer);
      otherwise every layer in order. */
  function Distribute(net: seq<Layer>, q: seq<Matrix>): Outcome
    decreases net, |net| + 1
  {
    if q == [] then Done([], []) else Walk(net, |net|, q)
  }

  /** The loop of `ProcessBatchNorm` after its first k iterations. */
  function Walk(net: seq<Layer>, k: nat, q: seq<Matrix>): Outcome
    requires k <= |net|
    decreases net, k
  {
    if k == 0 then Done([], q)
    else
      match Walk(net, k - 1, q)
      case Underflow => Underflow
      case Done(a1, r1) =>
        match Visit(net[k - 1], r1)
        case Underflow => Underflow
        case Done(a2, r2) => Done(a1 + a2, r2)
  }

  /** One iteration: a BatchNorm takes the front as mean, pops, takes the new
      front as variance and pops again; a MultiLayer recurses into its
      network; any other layer is skipped without touching the queue. */
  function Visit(l: Layer, q: seq<Matrix>): Outcome
    decreases l, 0
  {
    match l
    case BatchNormLayer(bn) =>
      if |q| < 2 then Underflow
      else Done([Assignment(bn, Transpose(q[0]), Transpose(q[1]))], q[2..])
    case MultiLayer(sub) => Distribute(sub, q)
    case OtherLayer(_) => Done([], q)
  }

  /** The whole behaviour of a distribution that does not underflow: the
      layers served are a prefix of the depth-first BatchNorm order, the i-th
      of them gets entries 2i and 2i+1 (transposed), the rest of the queue is
      left over, and layers are left unserved only once the queue is empty. */
  ghost predicate Shaped(bns: seq<BatchNorm>, q: seq<Matrix>, d: Outcome) {
    d.Done? ==>
      var n := |d.served|;
      n <= |bns| && 2 * n <= |q| && d.rest == q[2 * n..] &&
      (n < |bns| ==> d.rest == []) &&
      forall j :: 0 <= j < n ==>
        d.served[j] == Assignment(bns[j], Transpose(q[2 * j]), Transpose(q[2 * j + 1]))
  }

  // ---------------------------------------------------------------------------
  // Properties of the specification

  lemma {:induction false} DistributeShaped(net: seq<Layer>, q: seq<Matrix>)
    ensures Shaped(BatchNorms(net, |net|), q, Distribute(net, q))
    decreases net, |net| + 1
  {
    if q != [] {
      WalkShaped(net, |net|, q);
    }
  }

  lemma {:induction false} WalkShaped(net: seq<Layer>, k: nat, q: seq<Matrix>)
    requires k <= |net|
    ensures Shaped(BatchNorms(net, k), q, Walk(net, k, q))
    decreases net, k
  {
    if k > 0 {
      WalkShaped(net, k - 1, q);
      var w := Walk(net, k - 1, q);
      if w.Done? {
        VisitShaped(net[k - 1], w.rest);
        var v := Visit(net[k - 1], w.rest);
        if v.Done? {
          ShapedAppend(BatchNorms(net, k - 1), LayerBatchNorms(net[k - 1]), q, w, v);
        }
      }
    }
  }

  /** Serving one group of layers after another serves their concatenation. */
  lemma ShapedAppend(b1: seq<BatchNorm>, b2: seq<BatchNorm>, q: seq<Matrix>, w: Outcome, v: Outcome)
    requires w.Done? && Shaped(b1, q, w)
    requires v.Done? && Shaped(b2, w.rest, v)
    ensures Shaped(b1 + b2, q, Done(w.served + v.served, v.rest))
  {
    var n1, n2 := |w.served|, |v.served|;
    var d := Done(w.served + v.served, v.rest);
    assert v.rest == q[2 * (n1 + n2)..];
    if n1 < |b1| {
      assert n2 == 0;
    }
    forall j | n1 <= j < n1 + n2
      ensures d.served[j] == Assignment((b1 + b2)[j], Transpose(q[2 * j]), Transpose(q[2 * j + 1]))
    {
      assert d.served[j] == v.served[j - n1];
      assert w.rest[2 * (j - n1)] == q[2 * j];
      assert w.rest[2 * (j - n1) + 1] == q[2 * j + 1];
    }
  }

  lemma {:induction false} VisitShaped(l: Layer, q: seq<Matrix>)
    ensures Shaped(LayerBatchNorms(l), q, Visit(l, q))
    decreases l, 0
  {
    match l
    case BatchNormLayer(bn) =>
    case MultiLayer(sub) => DistributeShaped(sub, q);
    case OtherLayer(_) =>
  }

  /** With at least two queue entries per BatchNorm layer there is no
      underflow and every BatchNorm layer is served. */
  lemma {:induction false} DistributeServesAll(net: seq<Layer>, q: seq<Matrix>)
    requires |q| >= 2 * |BatchNorms(net, |net|)|
    ensures Distribute(net, q).Done?
    ensures |Distribute(net, q).served| == |BatchNorms(net, |net|)|
    decreases net, |net| + 1
  {
    if q != [] {
      WalkServesAll(net, |net|, q);
    }
  }

  lemma {:induction false} WalkServesAll(net: seq<Layer>, k: nat, q: seq<Matrix>)
    requires k <= |net|
    requires |q| >= 2 * |BatchNorms(net, k)|
    ensures Walk(net, k, q).Done?
    ensures |Walk(net, k, q).served| == |BatchNorms(net, k)|
    decreases net, k
  {
    if k > 0 {
      WalkServesAll(net, k - 1, q);
      WalkShaped(net, k - 1, q);
      var w := Walk(net, k - 1, q);
      VisitServesAll(net[k - 1], w.rest);
    }
  }

  lemma {:induction false} VisitServesAll(l: Layer, q: seq<Matrix>)
    requires |q| >= 2 * |LayerBatchNorms(l)|
    ensures Visit(l, q).Done?
    ensures |Visit(l, q).served| == |LayerBatchNorms(l)|
    decreases l, 0
  {
    match l
    case BatchNormLayer(bn) =>
    case MultiLayer(sub) => DistributeServesAll(sub, q);
    case OtherLayer(_) =>
  }

  lemma {:induction false} WalkPrefixDone(net: seq<Layer>, k: nat, q: seq<Matrix>)
    requires k <= |net|
    requires Walk(net, |net|, q).Done?
    ensures Walk(net, k, q).Done?
    decreases |net| - k
  {
    if k < |net| {
      WalkPrefixDone(net, k + 1, q);
    }
  }

  lemma {:induction false} BatchNormsPrefix(net: seq<Layer>, k: nat)
    requires k <= |net|
    ensures |BatchNorms(net, k)| <= |BatchNorms(net, |net|)|
    ensures BatchNorms(net, k) == BatchNorms(net, |net|)[..|BatchNorms(net, k)|]
    decreases |net| - k
  {
    if k < |net| {
      BatchNormsPrefix(net, k + 1);
    }
  }

  lemma DistinctParts<T>(a: seq<T>, b: seq<T>)
    requires Distinct(a + b)
    ensures Distinct(a) && Distinct(b)
    ensures forall x :: x in a ==> x !in b
  {
    forall i, j | 0 <= i < |a| && 0 <= j < |b| ensures a[i] != b[j] {
      assert (a + b)[i] != (a + b)[|a| + j];
    }
    forall i, j | 0 <= i < j < |a| ensures a[i] != a[j] {
      assert (a + b)[i] != (a + b)[j];
    }
    forall i, j | 0 <= i < j < |b| ensures b[i] != b[j] {
      assert (a + b)[|a| + i] != (a + b)[|a| + j];
    }
  }

  lemma {:induction false} BatchNormsAllocated(net: seq<Layer>, k: nat)
    requires k <= |net| && allocated(net)
    ensures forall b :: b in BatchNorms(net, k) ==> allocated(b)
    decreases net, k
  {
    if k > 0 {
      BatchNormsAllocated(net, k - 1);
      LayerBatchNormsAllocated(net[k - 1]);
    }
  }

  lemma {:induction false} LayerBatchNormsAllocated(l: Layer)
    requires allocated(l)
    ensures forall b :: b in LayerBatchNorms(l) ==> allocated(b)
    decreases l, 0
  {
    match l
    case BatchNormLayer(bn) =>
    case MultiLayer(sub) => BatchNormsAllocated(sub, |sub|);
    case OtherLayer(_) =>
  }

  /** The walk over i + 1 layers is the walk over i layers followed by a
      visit of layer i. */
  lemma WalkUnfold(net: seq<Layer>, i: nat, q: seq<Matrix>)
    requires i < |net|
    requires Walk(net, i + 1, q).Done?
    ensures Walk(net, i, q).Done?
    ensures Visit(net[i], Walk(net, i, q).rest).Done?
    ensures Walk(net, i + 1, q).rest == Visit(net[i], Walk(net, i, q).rest).rest
    ensures Walk(net, i + 1, q).served == Walk(net, i, q).served + Visit(net[i], Walk(net, i, q).rest).served
  {
  }

  /** In a network without repeated layers, the BatchNorm layers under layer
      i are distinct and none of them lies under an earlier layer. */
  lemma LayerDisjoint(net: seq<Layer>, i: nat)
    requires i < |net|
    requires Distinct(BatchNorms(net, |net|))
    ensures Distinct(LayerBatchNorms(net[i]))
    ensures forall b :: b in LayerBatchNorms(net[i]) ==> b in BatchNorms(net, |net|)
    ensures forall b :: b in BatchNorms(net, i) ==> b in BatchNorms(net, |net|) && b !in LayerBatchNorms(net[i])
  {
    var all := BatchNorms(net, |net|);
    BatchNormsPrefix(net, i + 1);
    var done, here := BatchNorms(net, i), LayerBatchNorms(net[i]);
    assert BatchNorms(net, i + 1) == done + here;
    DistinctParts(done + here, all[|done + here|..]);
    assert all == (done + here) + all[|done + here|..];
    DistinctParts(done, here);
  }

  /** What one iteration of the distributor's loop adds: the layers served
      by layer i, none of which was served before. */
  lemma WalkStep(net: seq<Layer>, i: nat, q: seq<Matrix>)
    requires i < |net|
    requires Walk(net, i + 1, q).Done?
    requires Distinct(BatchNorms(net, |net|))
    ensures Walk(net, i, q).Done?
    ensures Visit(net[i], Walk(net, i, q).rest).Done?
    ensures Distinct(LayerBatchNorms(net[i]))
    ensures forall b :: b in LayerBatchNorms(net[i]) ==> b in BatchNorms(net, |net|)
    ensures Walk(net, i + 1, q).rest == Visit(net[i], Walk(net, i, q).rest).rest
    ensures Walk(net, i + 1, q).served == Walk(net, i, q).served + Visit(net[i], Walk(net, i, q).rest).served
    ensures forall a :: a in Walk(net, i, q).served ==> a.bn in BatchNorms(net, |net|) && a.bn !in LayerBatchNorms(net[i])
    ensures forall b :: b in BatchNorms(net, |net|) && b !in Targets(Walk(net, i + 1, q).served) ==>
      b !in Targets(Walk(net, i, q).served) &&
      (b in LayerBatchNorms(net[i]) ==> b !in Targets(Visit(net[i], Walk(net, i, q).rest).served))
  {
    WalkUnfold(net, i, q);
    LayerDisjoint(net, i);
    WalkShaped(net, i, q);
    var w := Walk(net, i, q);
    var v := Visit(net[i], w.rest);
    assert forall b :: b in Targets(w.served) ==> b in BatchNorms(net, i);
    assert Targets(w.served + v.served) == Targets(w.served) + Targets(v.served);
  }

  /** The emptiness check on entry to a MultiLayer: once the loop has drained
      the queue, a MultiLayer, whatever it holds, is skipped without error,
      while a BatchNorm layer reads the front of the empty queue. */
  lemma DryQueueStep(net: seq<Layer>, i: nat, q: seq<Matrix>)
    requires i < |net| && Walk(net, i, q).Done? && Walk(net, i, q).rest == []
    ensures net[i].MultiLayer? ==> Walk(net, i + 1, q) == Walk(net, i, q)
    ensures net[i].BatchNormLayer? ==> Walk(net, i + 1, q) == Underflow
  {
    var w := Walk(net, i, q);
    if net[i].MultiLayer? {
      assert Visit(net[i], []) == Done([], []);
      assert w.served + [] == w.served;
    }
  }

  /** An example of the above: a BatchNorm layer nested in a MultiLayer that
      the walk reaches with an empty queue is skipped without error, while
      the same layer at top level would read the front of the empty queue. */
  lemma DryMultiLayerSkipped(b1: BatchNorm, b2: BatchNorm, mean: Matrix, variance: Matrix)
    ensures Distribute([BatchNormLayer(b1), MultiLayer([BatchNormLayer(b2)])], [mean, variance]) ==
      Done([Assignment(b1, Transpose(mean), Transpose(variance))], [])
    ensures Distribute([BatchNormLayer(b1), BatchNormLayer(b2)], [mean, variance]) == Underflow
  {
    assert [mean, variance][2..] == [];
    var nested := [BatchNormLayer(b1), MultiLayer([BatchNormLayer(b2)])];
    assert Walk(nested, 1, [mean, variance]) == Done([Assignment(b1, Transpose(mean), Transpose(variance))], []);
    assert Visit(nested[1], []) == Done([], []);
    assert Walk(nested, 2, [mean, variance]) == Done([Assignment(b1, Transpose(mean), Transpose(variance))] + [], []);
    var flat := [BatchNormLayer(b1), BatchNormLayer(b2)];
    assert Walk(flat, 1, [mean, variance]) == Done([Assignment(b1, Transpose(mean), Transpose(variance))], []);
    assert Visit(flat[1], []) == Underflow;
  }

  // ---------------------------------------------------------------------------
  // The distributor itself

  /** One iteration of the loop of `ProcessBatchNorm` on layer `l`. */
  method ProcessLayer(l: Layer, q: StatsQueue)
    requires Visit(l, q.items).Done?
    requires Distinct(LayerBatchNorms(l))
    modifies q, set b | b in LayerBatchNorms(l)
    ensures q.items == Visit(l, old(q.items)).rest
    ensures forall a :: a in Visit(l, old(q.items)).served ==>
      a.bn.trainingMean == a.mean && a.bn.trainingVariance == a.variance
    ensures forall b :: b in LayerBatchNorms(l) && b !in Targets(Visit(l, old(q.items)).served) ==>
      b.trainingMean == old(b.trainingMean) && b.trainingVariance == old(b.trainingVariance)
    decreases l, 0
  {
    match l
    case BatchNormLayer(bn) =>
      assert LayerBatchNorms(l) == [bn];
      var mean := q.Front();
      bn.trainingMean := Transpose(mean);
      q.Pop();
      var variance := q.Front();
      bn.trainingVariance := Transpose(variance);
      q.Pop();
    case MultiLayer(sub) =>
      ProcessBatchNorm(sub, q);
    case OtherLayer(_) =>
  }

  /** `ProcessBatchNorm(network, runningParams)`. The source reads `front()`
      without checking, so the queue must not run dry at a BatchNorm layer
      (first precondition); each layer object occurs once in a network
      (second precondition). Leftover entries stay in the queue unreported. */
  method ProcessBatchNorm(network: seq<Layer>, q: StatsQueue)
    requires Distribute(network, q.items).Done?
    requires Distinct(BatchNorms(network, |network|))
    modifies q, set b | b in BatchNorms(network, |network|)
    ensures q.items == Distribute(network, old(q.items)).rest
    ensures forall a :: a in Distribute(network, old(q.items)).served ==>
      a.bn.trainingMean == a.mean && a.bn.trainingVariance == a.variance
    ensures forall b :: b in BatchNorms(network, |network|) && b !in Targets(Distribute(network, old(q.items)).served) ==>
      b.trainingMean == old(b.trainingMean) && b.trainingVariance == old(b.trainingVariance)
    ensures old(q.items) == [] ==>
      q.items == [] &&
      forall b :: b in BatchNorms(network, |network|) ==>
        b.trainingMean == old(b.trainingMean) && b.trainingVariance == old(b.trainingVariance)
    decreases network, |network| + 1
  {
    if q.Empty() {
      assert Distribute(network, q.items) == Done([], []);
      return;
    }
    BatchNormsAllocated(network, |network|);
    ghost var q0 := q.items;
    for i := 0 to |network|
      invariant Walk(network, i, q0).Done?
      invariant q.items == Walk(network, i, q0).rest
      invariant forall a :: a in Walk(network, i, q0).served ==>
        a.bn.trainingMean == a.mean && a.bn.trainingVariance == a.variance
      invariant forall b :: b in BatchNorms(network, |network|) ==> old(allocated(b)) && allocated(b)
      invariant forall b :: b in BatchNorms(network, |network|) && b !in Targets(Walk(network, i, q0).served) ==>
        b.trainingMean == old(b.trainingMean) && b.trainingVariance == old(b.trainingVariance)
    {
      WalkPrefixDone(network, i + 1, q0);
      WalkStep(network, i, q0);
      ProcessLayer(network[i], q);
    }
  }
}
