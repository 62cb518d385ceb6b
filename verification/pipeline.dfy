/** The hand-off between the two halves of the converter: `ReadXML` fills the
    statistics queue while flattening the manifest, then `ProcessBatchNorm`
    drains the same queue into the built network. Which BatchNorm layer ends
    up with which running statistics depends only on how the BatchNorm2d
    leaves of the manifest line up with the BatchNorm layers of the network. */
module Pipeline {
  import opened Tensors
  import opened Flattening
  import opened Distributor

  /** When the manifest has as many BatchNorm2d leaves as the network has
      BatchNorm layers, the k-th BatchNorm layer in depth-first order takes
      queue entries 2k and 2k+1: the running mean and running variance of the
      k-th BatchNorm2d leaf, transposed. Nothing is left in the queue. */
  lemma MatchedHandOff(layers: seq<LayerNode>, net: seq<Layer>)
    requires |BatchNormLeaves(layers, |layers|)| == |BatchNorms(net, |net|)|
    ensures Distribute(net, Stats(layers, |layers|)).Done?
    ensures Distribute(net, Stats(layers, |layers|)).rest == []
    ensures |Distribute(net, Stats(layers, |layers|)).served| == |BatchNorms(net, |net|)|
    ensures forall k :: 0 <= k < |BatchNorms(net, |net|)| ==>
      Distribute(net, Stats(layers, |layers|)).served[k] ==
        Assignment(BatchNorms(net, |net|)[k],
                   Transpose(BatchNormLeaves(layers, |layers|)[k].runningMean),
                   Transpose(BatchNormLeaves(layers, |layers|)[k].runningVar))
  {
    var q := Stats(layers, |layers|);
    StatsPairs(layers, |layers|);
    DistributeServesAll(net, q);
    DistributeShaped(net, q);
  }

  /** More BatchNorm2d leaves than BatchNorm layers: every layer is served
      in order and the surplus statistics stay queued, unreported. */
  lemma SurplusStatistics(layers: seq<LayerNode>, net: seq<Layer>)
    requires |BatchNormLeaves(layers, |layers|)| > |BatchNorms(net, |net|)|
    ensures Distribute(net, Stats(layers, |layers|)).Done?
    ensures |Distribute(net, Stats(layers, |layers|)).served| == |BatchNorms(net, |net|)|
    ensures |Distribute(net, Stats(layers, |layers|)).rest| ==
      2 * (|BatchNormLeaves(layers, |layers|)| - |BatchNorms(net, |net|)|)
  {
    var q := Stats(layers, |layers|);
    StatsPairs(layers, |layers|);
    DistributeServesAll(net, q);
    DistributeShaped(net, q);
  }

  /** Fewer BatchNorm2d leaves than BatchNorm layers: either a BatchNorm
      layer reads the front of an exhausted queue, or some BatchNorm layer is
      never served (the queue ran dry on entry to the walk or to a
      MultiLayer, whose emptiness check then skips everything inside it). */
  lemma MissingStatistics(layers: seq<LayerNode>, net: seq<Layer>)
    requires |BatchNormLeaves(layers, |layers|)| < |BatchNorms(net, |net|)|
    ensures Distribute(net, Stats(layers, |layers|)).Underflow? ||
      |Distribute(net, Stats(layers, |layers|)).served| < |BatchNorms(net, |net|)|
  {
    var q := Stats(layers, |layers|);
    StatsPairs(layers, |layers|);
    DistributeShaped(net, q);
  }
}
