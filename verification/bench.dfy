/** The bench wrappers' `forward` methods (effdet/bench.py): run
    `_post_process` on the network outputs, then loop over the batch to label
    each image's ground truth for the loss and to turn each image's candidates
    into detections, appending to lists that are stacked in batch order.

    The network, the anchor labeler, detection generation and the losses are
    outside this model: their results are parameters (the network outputs)
    or function parameters (`labeler`, `generate`, `lossFn`). The batch size
    `x.shape[0]` of the input images is the parameter `batchSize`. */
module Bench {
  import opened Outcome
  import opened Layout
  import opened PostProcess

  /** Entry i is generate_detections applied to image i's candidates and
      scale, for the first n images. */
  function DetectAll<D>(generate: (Candidates, real) -> D, preds: seq<Candidates>, scales: seq<real>, n: nat): (d: seq<D>)
    requires n <= |preds| && n <= |scales|
    ensures |d| == n
    ensures forall i :: 0 <= i < n ==> d[i] == generate(preds[i], scales[i])
  {
    seq(n, i requires 0 <= i < n => generate(preds[i], scales[i]))
  }

  /** Entry i of each list is the matching part of label_anchors applied to
      image i's ground-truth boxes and labels, for the first n images. */
  function LabelAll<GB, GL, CT, BT, P>(labeler: (GB, GL) -> (CT, BT, P), gtBoxes: seq<GB>, gtLabels: seq<GL>, n: nat)
    : (r: (seq<CT>, seq<BT>, seq<P>))
    requires n <= |gtBoxes| && n <= |gtLabels|
    ensures |r.0| == n && |r.1| == n && |r.2| == n
    ensures forall i :: 0 <= i < n ==> labeler(gtBoxes[i], gtLabels[i]) == (r.0[i], r.1[i], r.2[i])
  {
    (seq(n, i requires 0 <= i < n => labeler(gtBoxes[i], gtLabels[i]).0),
     seq(n, i requires 0 <= i < n => labeler(gtBoxes[i], gtLabels[i]).1),
     seq(n, i requires 0 <= i < n => labeler(gtBoxes[i], gtLabels[i]).2))
  }

  /** The scale every training forward passes to generate_detections. */
  function UnitScales(n: nat): (s: seq<real>)
    ensures |s| == n && forall i :: 0 <= i < n ==> s[i] == 1.0
  {
    seq(n, i => 1.0)
  }

  /** The detection loop: appends one detection per image, in batch order. */
  method AssembleDetections<D>(generate: (Candidates, real) -> D, preds: seq<Candidates>, scales: seq<real>, n: nat)
    returns (detections: seq<D>)
    requires n <= |preds| && n <= |scales|
    ensures detections == DetectAll(generate, preds, scales, n)
  {
    detections := [];
    for i := 0 to n
      invariant |detections| == i
      invariant forall j :: 0 <= j < i ==> detections[j] == generate(preds[j], scales[j])
    {
      detections := detections + [generate(preds[i], scales[i])];
    }
  }

  /** The target loop: appends each image's class targets, box targets and
      positive count to three lists, in batch order. */
  method AssembleTargets<GB, GL, CT, BT, P>(labeler: (GB, GL) -> (CT, BT, P), gtBoxes: seq<GB>, gtLabels: seq<GL>, n: nat)
    returns (clsTargets: seq<CT>, boxTargets: seq<BT>, numPositives: seq<P>)
    requires n <= |gtBoxes| && n <= |gtLabels|
    ensures (clsTargets, boxTargets, numPositives) == LabelAll(labeler, gtBoxes, gtLabels, n)
  {
    clsTargets, boxTargets, numPositives := [], [], [];
    for i := 0 to n
      invariant |clsTargets| == i && |boxTargets| == i && |numPositives| == i
      invariant forall j :: 0 <= j < i ==> labeler(gtBoxes[j], gtLabels[j]) == (clsTargets[j], boxTargets[j], numPositives[j])
    {
      var (gtClassOut, gtBoxOut, numPositive) := labeler(gtBoxes[i], gtLabels[i]);
      clsTargets := clsTargets + [gtClassOut];
      boxTargets := boxTargets + [gtBoxOut];
      numPositives := numPositives + [numPositive];
    }
    var t := LabelAll(labeler, gtBoxes, gtLabels, n);
    assert clsTargets == t.0 && boxTargets == t.1 && numPositives == t.2 by {
      forall j | 0 <= j < n
        ensures clsTargets[j] == t.0[j] && boxTargets[j] == t.1[j] && numPositives[j] == t.2[j]
      {
        assert labeler(gtBoxes[j], gtLabels[j]) == (t.0[j], t.1[j], t.2[j]);
      }
    }
  }

  /** The detection loop followed by torch.stack: indexing past the
      post-processed batch or the scales is an index error, and stacking an
      empty list a shape error. */
  method StackDetections<D>(generate: (Candidates, real) -> D, preds: seq<Candidates>, scales: seq<real>, batchSize: nat)
    returns (r: Result<seq<D>>)
    ensures batchSize > |preds| || batchSize > |scales| ==> r == Err(IndexOutOfRange)
    ensures batchSize == 0 ==> r == Err(ShapeMismatch)
    ensures 0 < batchSize <= |preds| && batchSize <= |scales| ==> r == Ok(DetectAll(generate, preds, scales, batchSize))
  {
    if batchSize > |preds| || batchSize > |scales| {
      return Err(IndexOutOfRange);
    }
    if batchSize == 0 {
      return Err(ShapeMismatch);
    }
    var detections := AssembleDetections(generate, preds, scales, batchSize);
    return Ok(detections);
  }

  /** What a training forward returns: the losses, preceded by the stacked
      detections when predictions are asked for. */
  datatype TrainOutput<D, L> = Losses(losses: L) | DetectionsAndLosses(detections: seq<D>, losses: L)

  /** DetBenchEval.forward: post-process, then one detection per image with
      that image's scale. */
  method EvalForward<D>(cfg: Config, k: nat, generate: (Candidates, real) -> D, batchSize: nat,
                        clsOut: seq<seq<Grid<int>>>, boxOut: seq<seq<Grid<int>>>, scales: seq<real>)
    returns (r: Result<seq<D>>)
    ensures var pp := PostProcess.PostProcess(cfg, k, clsOut, boxOut);
      && (pp.Err? ==> r == Err(pp.error))
      && (pp.Ok? && (batchSize > |pp.value| || batchSize > |scales|) ==> r == Err(IndexOutOfRange))
      && (pp.Ok? && batchSize == 0 ==> r == Err(ShapeMismatch))
      && (pp.Ok? && 0 < batchSize <= |pp.value| && batchSize <= |scales|
          ==> r == Ok(DetectAll(generate, pp.value, scales, batchSize)))
  {
    var pp := PostProcess.PostProcess(cfg, k, clsOut, boxOut);
    if pp.Err? {
      return Err(pp.error);
    }
    r := StackDetections(generate, pp.value, scales, batchSize);
  }

  /** DetClsBenchEval.forward: as DetBenchEval.forward, returning the
      network's image-level classification output beside the detections. */
  method ClsEvalForward<D, Q>(cfg: Config, k: nat, generate: (Candidates, real) -> D, batchSize: nat,
                              clsOut: seq<seq<Grid<int>>>, boxOut: seq<seq<Grid<int>>>, classification: Q, scales: seq<real>)
    returns (r: Result<(seq<D>, Q)>)
    ensures var pp := PostProcess.PostProcess(cfg, k, clsOut, boxOut);
      && (pp.Err? ==> r == Err(pp.error))
      && (pp.Ok? && (batchSize > |pp.value| || batchSize > |scales|) ==> r == Err(IndexOutOfRange))
      && (pp.Ok? && batchSize == 0 ==> r == Err(ShapeMismatch))
      && (pp.Ok? && 0 < batchSize <= |pp.value| && batchSize <= |scales|
          ==> r == Ok((DetectAll(generate, pp.value, scales, batchSize), classification)))
  {
    var pp := PostProcess.PostProcess(cfg, k, clsOut, boxOut);
    if pp.Err? {
      return Err(pp.error);
    }
    var detections := StackDetections(generate, pp.value, scales, batchSize);
    if detections.Err? {
      return Err(detections.error);
    }
    return Ok((detections.value, classification));
  }

  /** DetBenchTrain.forward: post-process, labeler every image, compute the
      losses on the raw outputs and the targets, and when asked also one
      detection per image at scale 1. */
  method TrainForward<GB, GL, CT, BT, P, L, D>(
    cfg: Config, k: nat, labeler: (GB, GL) -> (CT, BT, P),
    lossFn: (seq<seq<Grid<int>>>, seq<seq<Grid<int>>>, seq<CT>, seq<BT>, seq<P>) -> L,
    generate: (Candidates, real) -> D, batchSize: nat,
    clsOut: seq<seq<Grid<int>>>, boxOut: seq<seq<Grid<int>>>, gtBoxes: seq<GB>, gtLabels: seq<GL>, includePred: bool)
    returns (r: Result<TrainOutput<D, L>>)
    ensures var pp := PostProcess.PostProcess(cfg, k, clsOut, boxOut);
      && (pp.Err? ==> r == Err(pp.error))
      && (pp.Ok? && (batchSize > |gtBoxes| || batchSize > |gtLabels|) ==> r == Err(IndexOutOfRange))
      && (pp.Ok? && batchSize <= |gtBoxes| && batchSize <= |gtLabels| ==>
          var t := LabelAll(labeler, gtBoxes, gtLabels, batchSize);
          var losses := lossFn(clsOut, boxOut, t.0, t.1, t.2);
          && (!includePred ==> r == Ok(Losses(losses)))
          && (includePred && batchSize > |pp.value| ==> r == Err(IndexOutOfRange))
          && (includePred && batchSize == 0 ==> r == Err(ShapeMismatch))
          && (includePred && 0 < batchSize <= |pp.value| ==>
                r == Ok(DetectionsAndLosses(DetectAll(generate, pp.value, UnitScales(batchSize), batchSize), losses))))
  {
    var pp := PostProcess.PostProcess(cfg, k, clsOut, boxOut);
    if pp.Err? {
      return Err(pp.error);
    }
    if batchSize > |gtBoxes| || batchSize > |gtLabels| {
      return Err(IndexOutOfRange);
    }
    var clsTargets, boxTargets, numPositives := AssembleTargets(labeler, gtBoxes, gtLabels, batchSize);
    var losses := lossFn(clsOut, boxOut, clsTargets, boxTargets, numPositives);
    if !includePred {
      return Ok(Losses(losses));
    }
    var detections := StackDetections(generate, pp.value, UnitScales(batchSize), batchSize);
    if detections.Err? {
      return Err(detections.error);
    }
    return Ok(DetectionsAndLosses(detections.value, losses));
  }

  /** DetBenchTrain0Box.forward: DetBenchTrain.forward with the has_box mask
      passed on to the loss. */
  method Train0BoxForward<GB, GL, CT, BT, P, H, L, D>(
    cfg: Config, k: nat, labeler: (GB, GL) -> (CT, BT, P),
    lossFn: (seq<seq<Grid<int>>>, seq<seq<Grid<int>>>, seq<CT>, seq<BT>, seq<P>, H) -> L,
    generate: (Candidates, real) -> D, batchSize: nat,
    clsOut: seq<seq<Grid<int>>>, boxOut: seq<seq<Grid<int>>>, gtBoxes: seq<GB>, gtLabels: seq<GL>, hasBox: H,
    includePred: bool)
    returns (r: Result<TrainOutput<D, L>>)
    ensures var pp := PostProcess.PostProcess(cfg, k, clsOut, boxOut);
      && (pp.Err? ==> r == Err(pp.error))
      && (pp.Ok? && (batchSize > |gtBoxes| || batchSize > |gtLabels|) ==> r == Err(IndexOutOfRange))
      && (pp.Ok? && batchSize <= |gtBoxes| && batchSize <= |gtLabels| ==>
          var t := LabelAll(labeler, gtBoxes, gtLabels, batchSize);
          var losses := lossFn(clsOut, boxOut, t.0, t.1, t.2, hasBox);
          && (!includePred ==> r == Ok(Losses(losses)))
          && (includePred && batchSize > |pp.value| ==> r == Err(IndexOutOfRange))
          && (includePred && batchSize == 0 ==> r == Err(ShapeMismatch))
          && (includePred && 0 < batchSize <= |pp.value| ==>
                r == Ok(DetectionsAndLosses(DetectAll(generate, pp.value, UnitScales(batchSize), batchSize), losses))))
  {
    var pp := PostProcess.PostProcess(cfg, k, clsOut, boxOut);
    if pp.Err? {
      return Err(pp.error);
    }
    if batchSize > |gtBoxes| || batchSize > |gtLabels| {
      return Err(IndexOutOfRange);
    }
    var clsTargets, boxTargets, numPositives := AssembleTargets(labeler, gtBoxes, gtLabels, batchSize);
    var losses := lossFn(clsOut, boxOut, clsTargets, boxTargets, numPositives, hasBox);
    if !includePred {
      return Ok(Losses(losses));
    }
    var detections := StackDetections(generate, pp.value, UnitScales(batchSize), batchSize);
    if detections.Err? {
      return Err(detections.error);
    }
    return Ok(DetectionsAndLosses(detections.value, losses));
  }

  /** What DetBenchTrainClsAndDet.forward returns: the losses, preceded by
      the stacked detections and the classification output when predictions
      are asked for. */
  datatype ClsTrainOutput<D, Q, L> =
    | ClsLosses(losses: L)
    | DetectionsClassificationAndLosses(detections: seq<D>, classification: Q, losses: L)

  /** DetBenchTrainClsAndDet.forward: DetBenchTrain0Box.forward with the
      image-level classification output and its ground truth passed on to
      the loss, and returned beside the detections. */
  method TrainClsAndDetForward<GB, GL, GC, CT, BT, P, H, Q, L, D>(
    cfg: Config, k: nat, labeler: (GB, GL) -> (CT, BT, P),
    lossFn: (seq<seq<Grid<int>>>, seq<seq<Grid<int>>>, Q, seq<CT>, seq<BT>, GC, seq<P>, H) -> L,
    generate: (Candidates, real) -> D, batchSize: nat,
    clsOut: seq<seq<Grid<int>>>, boxOut: seq<seq<Grid<int>>>, classification: Q,
    gtBoxes: seq<GB>, gtLabels: seq<GL>, gtClassifications: GC, hasBox: H, includePred: bool)
    returns (r: Result<ClsTrainOutput<D, Q, L>>)
    ensures var pp := PostProcess.PostProcess(cfg, k, clsOut, boxOut);
      && (pp.Err? ==> r == Err(pp.error))
      && (pp.Ok? && (batchSize > |gtBoxes| || batchSize > |gtLabels|) ==> r == Err(IndexOutOfRange))
      && (pp.Ok? && batchSize <= |gtBoxes| && batchSize <= |gtLabels| ==>
          var t := LabelAll(labeler, gtBoxes, gtLabels, batchSize);
          var losses := lossFn(clsOut, boxOut, classification, t.0, t.1, gtClassifications, t.2, hasBox);
          && (!includePred ==> r == Ok(ClsLosses(losses)))
          && (includePred && batchSize > |pp.value| ==> r == Err(IndexOutOfRange))
          && (includePred && batchSize == 0 ==> r == Err(ShapeMismatch))
          && (includePred && 0 < batchSize <= |pp.value| ==>
                r == Ok(DetectionsClassificationAndLosses(
                  DetectAll(generate, pp.value, UnitScales(batchSize), batchSize), classification, losses))))
  {
    var pp := PostProcess.PostProcess(cfg, k, clsOut, boxOut);
    if pp.Err? {
      return Err(pp.error);
    }
    if batchSize > |gtBoxes| || batchSize > |gtLabels| {
      return Err(IndexOutOfRange);
    }
    var clsTargets, boxTargets, numPositives := AssembleTargets(labeler, gtBoxes, gtLabels, batchSize);
    var losses := lossFn(clsOut, boxOut, classification, clsTargets, boxTargets, gtClassifications, numPositives, hasBox);
    if !includePred {
      return Ok(ClsLosses(losses));
    }
    var detections := StackDetections(generate, pp.value, UnitScales(batchSize), batchSize);
    if detections.Err? {
      return Err(detections.error);
    }
    return Ok(DetectionsClassificationAndLosses(detections.value, classification, losses));
  }
}
