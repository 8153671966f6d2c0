/** `_post_process` (effdet/bench.py): for every image of the batch, flatten
    the per-level score and box outputs, keep the k best (anchor, class)
    scores, split each selected flat index into anchor and class, and gather
    the selected score and the anchor's box row. */
module PostProcess {
  import opened Outcome
  import opened Arith
  import opened Flatten
  import opened Layout
  import opened Selection

  /** The configuration fields `_post_process` reads. */
  datatype Config = Config(numClasses: nat, numLevels: nat)

  /** Splits a flat score index into anchor and class: flat / numClasses and
      flat % numClasses. */
  function DecodeIndex(flat: nat, numClasses: nat): (r: (nat, nat))
    requires numClasses > 0
    ensures r.1 < numClasses && Slot(r.0, numClasses, r.1) == flat
  {
    DivMod(flat, numClasses);
    (flat / numClasses, flat % numClasses)
  }

  /** Decoding undoes the score layout: class c of anchor a decodes to (a, c). */
  lemma DecodeSlot(anchor: nat, category: nat, numClasses: nat)
    requires category < numClasses
    ensures DecodeIndex(Slot(anchor, numClasses, category), numClasses) == (anchor, category)
  {
    DivModOf(anchor, category, numClasses);
  }

  /** A flat index within numAnchors rows of numClasses decodes to an anchor
      below numAnchors. */
  lemma DecodeBound(flat: nat, numClasses: nat, numAnchors: nat)
    requires numClasses > 0 && flat < Mul(numAnchors, numClasses)
    ensures DecodeIndex(flat, numClasses).0 < numAnchors
  {
    DivBound(flat, numClasses, numAnchors);
  }

  /** One selected entry after the gathers: its score, its anchor's box row,
      its anchor and its class. */
  datatype Pick = Pick(score: int, box: seq<int>, anchor: nat, category: nat)

  /** Gathers the entry at flat score index `flat`: the anchor's score row,
      then the class within it, and the anchor's box row. */
  function GatherOne(scores: seq<int>, boxes: seq<int>, numClasses: nat, numAnchors: nat, flat: nat): (p: Pick)
    requires numClasses > 0
    requires |scores| == Mul(numAnchors, numClasses) && |boxes| == Mul(numAnchors, 4)
    requires flat < |scores|
    ensures p.anchor < numAnchors && p.category < numClasses
    ensures Slot(p.anchor, numClasses, p.category) == flat
    ensures p.score == scores[flat]
    ensures Mul(p.anchor, 4) + 4 <= |boxes| && p.box == Row(boxes, 4, p.anchor)
  {
    var (anchor, category) := DecodeIndex(flat, numClasses);
    DecodeBound(flat, numClasses, numAnchors);
    RowFits(anchor, numAnchors, numClasses);
    RowFits(anchor, numAnchors, 4);
    Pick(Row(scores, numClasses, anchor)[category], Row(boxes, 4, anchor), anchor, category)
  }

  /** One image's share of the four outputs: the gathered scores and box
      rows, the anchor indices and the class indices, one entry per selected
      flat index. */
  datatype Candidates = Candidates(scores: seq<int>, boxes: seq<seq<int>>, anchors: seq<nat>, classes: seq<nat>)

  /** c is what gathering at the flat score indices `top` yields: entry j
      holds the anchor and class top[j] splits into, the score at top[j] and
      the box row of that anchor. */
  predicate Gathered(c: Candidates, scores: seq<int>, boxes: seq<int>, numClasses: nat, numAnchors: nat, top: seq<nat>)
  {
    && |scores| == Mul(numAnchors, numClasses) && |boxes| == Mul(numAnchors, 4)
    && |c.scores| == |top| && |c.boxes| == |top| && |c.anchors| == |top| && |c.classes| == |top|
    && forall j :: 0 <= j < |top| ==>
         && c.anchors[j] < numAnchors && c.classes[j] < numClasses
         && Slot(c.anchors[j], numClasses, c.classes[j]) == top[j]
         && top[j] < |scores| && c.scores[j] == scores[top[j]]
         && Mul(c.anchors[j], 4) + 4 <= |boxes| && c.boxes[j] == Row(boxes, 4, c.anchors[j])
  }

  function Gather(scores: seq<int>, boxes: seq<int>, numClasses: nat, numAnchors: nat, top: seq<nat>): (c: Candidates)
    requires numClasses > 0
    requires |scores| == Mul(numAnchors, numClasses) && |boxes| == Mul(numAnchors, 4)
    requires forall j :: 0 <= j < |top| ==> top[j] < |scores|
    ensures Gathered(c, scores, boxes, numClasses, numAnchors, top)
  {
    var picks := seq(|top|, j requires 0 <= j < |top| => GatherOne(scores, boxes, numClasses, numAnchors, top[j]));
    Candidates(
      seq(|top|, j requires 0 <= j < |top| => picks[j].score),
      seq(|top|, j requires 0 <= j < |top| => picks[j].box),
      seq(|top|, j requires 0 <= j < |top| => picks[j].anchor),
      seq(|top|, j requires 0 <= j < |top| => picks[j].category))
  }

  /** `_post_process` for one image: top-k over the flattened scores, then
      the gathers. Fails as torch.topk does when k exceeds the number of
      scores. */
  function ImageCandidates(numClasses: nat, clsLevels: seq<Grid<int>>, boxLevels: seq<Grid<int>>, k: nat): (r: Result<Candidates>)
    requires ImageAligned(numClasses, clsLevels, boxLevels)
    ensures r.Err? <==> k > |FlattenLevels(clsLevels)|
    ensures r.Err? ==> r.error == TopKOutOfRange
    ensures r.Ok? ==> Gathered(r.value, FlattenLevels(clsLevels), FlattenLevels(boxLevels), numClasses,
      NumAnchors(numClasses, clsLevels), TopK(FlattenLevels(clsLevels), k).value)
  {
    FlatLengths(numClasses, clsLevels, boxLevels);
    match TopK(FlattenLevels(clsLevels), k)
    case Err(e) => Err(e)
    case Ok(top) =>
      Ok(Gather(FlattenLevels(clsLevels), FlattenLevels(boxLevels), numClasses,
        NumAnchors(numClasses, clsLevels), top))
  }

  /** Whether candidate list c holds the pair (anchor, class). */
  predicate Chosen(c: Candidates, anchor: nat, category: nat)
  {
    exists i :: 0 <= i < |c.anchors| && i < |c.classes| && c.anchors[i] == anchor && c.classes[i] == category
  }

  /** A gather at a top-k selection holds k candidates and no (anchor,
      class) pair twice. */
  lemma GatheredDistinct(c: Candidates, scores: seq<int>, boxes: seq<int>, numClasses: nat, numAnchors: nat, k: nat, top: seq<nat>)
    requires Gathered(c, scores, boxes, numClasses, numAnchors, top) && Selects(scores, k, top)
    ensures |c.scores| == k && |c.boxes| == k && |c.anchors| == k && |c.classes| == k
    ensures forall i, j :: 0 <= i < j < k ==> c.anchors[i] != c.anchors[j] || c.classes[i] != c.classes[j]
  {
  }

  /** A gather at a top-k selection lists its scores in descending order. */
  lemma GatheredSorted(c: Candidates, scores: seq<int>, boxes: seq<int>, numClasses: nat, numAnchors: nat, k: nat, top: seq<nat>)
    requires Gathered(c, scores, boxes, numClasses, numAnchors, top) && Selects(scores, k, top)
    ensures forall i, j :: 0 <= i < j < k ==> c.scores[i] >= c.scores[j]
  {
  }

  /** The selection property of a gather at a top-k selection: the score of
      every (anchor, class) pair left out is at most every candidate's score. */
  lemma GatheredDominate(c: Candidates, scores: seq<int>, boxes: seq<int>, numClasses: nat, numAnchors: nat, k: nat, top: seq<nat>)
    requires Gathered(c, scores, boxes, numClasses, numAnchors, top) && Selects(scores, k, top)
    ensures forall anchor: nat, category: nat ::
      anchor < numAnchors && category < numClasses ==> Slot(anchor, numClasses, category) < |scores|
    ensures forall j, anchor: nat, category: nat ::
      0 <= j < k && anchor < numAnchors && category < numClasses && !Chosen(c, anchor, category)
      ==> scores[Slot(anchor, numClasses, category)] <= c.scores[j]
  {
    forall anchor: nat, category: nat | anchor < numAnchors && category < numClasses
      ensures Slot(anchor, numClasses, category) < |scores|
    {
      MulAddBound(anchor, category, numClasses, numAnchors);
    }
    forall j, anchor: nat, category: nat |
      0 <= j < k && anchor < numAnchors && category < numClasses && !Chosen(c, anchor, category)
      ensures scores[Slot(anchor, numClasses, category)] <= c.scores[j]
    {
      NotSelected(c, numClasses, top, anchor, category);
    }
  }

  /** A pair that is not among the candidates was not selected by top-k. */
  lemma NotSelected(c: Candidates, numClasses: nat, top: seq<nat>, anchor: nat, category: nat)
    requires |c.anchors| == |top| && |c.classes| == |top| && category < numClasses
    requires forall j :: 0 <= j < |top| ==> c.classes[j] < numClasses && Slot(c.anchors[j], numClasses, c.classes[j]) == top[j]
    requires !Chosen(c, anchor, category)
    ensures Slot(anchor, numClasses, category) !in top
  {
    forall i | 0 <= i < |top|
      ensures top[i] != Slot(anchor, numClasses, category)
    {
      DecodeSlot(anchor, category, numClasses);
      DecodeSlot(c.anchors[i], c.classes[i], numClasses);
    }
  }

  /** What `_post_process` promises each image: k candidates, scores in
      descending order, no (anchor, class) pair twice, and no pair left out
      scoring above any candidate. */
  lemma ImageTopK(numClasses: nat, clsLevels: seq<Grid<int>>, boxLevels: seq<Grid<int>>, k: nat)
    requires ImageAligned(numClasses, clsLevels, boxLevels) && k <= |FlattenLevels(clsLevels)|
    ensures var c := ImageCandidates(numClasses, clsLevels, boxLevels, k).value;
      var scores := FlattenLevels(clsLevels);
      var numAnchors := NumAnchors(numClasses, clsLevels);
      && |c.scores| == k && |c.boxes| == k && |c.anchors| == k && |c.classes| == k
      && (forall i, j :: 0 <= i < j < k ==> c.scores[i] >= c.scores[j])
      && (forall i, j :: 0 <= i < j < k ==> c.anchors[i] != c.anchors[j] || c.classes[i] != c.classes[j])
      && (forall anchor: nat, category: nat ::
            anchor < numAnchors && category < numClasses ==> Slot(anchor, numClasses, category) < |scores|)
      && (forall j, anchor: nat, category: nat ::
            0 <= j < k && anchor < numAnchors && category < numClasses && !Chosen(c, anchor, category)
            ==> scores[Slot(anchor, numClasses, category)] <= c.scores[j])
  {
    var c := ImageCandidates(numClasses, clsLevels, boxLevels, k).value;
    var scores := FlattenLevels(clsLevels);
    var boxes := FlattenLevels(boxLevels);
    var numAnchors := NumAnchors(numClasses, clsLevels);
    var top := TopK(scores, k).value;
    GatheredDistinct(c, scores, boxes, numClasses, numAnchors, k, top);
    GatheredSorted(c, scores, boxes, numClasses, numAnchors, k, top);
    GatheredDominate(c, scores, boxes, numClasses, numAnchors, k, top);
  }

  /** Where candidate j comes from: its anchor is a cell of the layout (a
      level, a pixel and an anchor variant), its box is that variant's four
      box channels at that pixel, and its score is that variant's channel for
      the candidate's class at that pixel. */
  lemma CandidateOrigin(numClasses: nat, clsLevels: seq<Grid<int>>, boxLevels: seq<Grid<int>>, k: nat, j: nat)
    requires ImageAligned(numClasses, clsLevels, boxLevels) && k <= |FlattenLevels(clsLevels)| && j < k
    ensures var c := ImageCandidates(numClasses, clsLevels, boxLevels, k).value;
      && j < |c.anchors| && c.anchors[j] < NumAnchors(numClasses, clsLevels)
      && var cell := AnchorCell(numClasses, clsLevels, c.anchors[j]);
      && cell.level < |boxLevels|
      && j < |c.boxes| && j < |c.classes| && j < |c.scores|
      && Mul(cell.variant, 4) + 4 <= boxLevels[cell.level].channels
      && c.boxes[j] == Row(Pixel(boxLevels[cell.level], cell.row, cell.col), 4, cell.variant)
      && Slot(cell.variant, numClasses, c.classes[j]) < clsLevels[cell.level].channels
      && c.scores[j] == Pixel(clsLevels[cell.level], cell.row, cell.col)[Slot(cell.variant, numClasses, c.classes[j])]
  {
    var c := ImageCandidates(numClasses, clsLevels, boxLevels, k).value;
    var cell := AnchorCell(numClasses, clsLevels, c.anchors[j]);
    ScoresAt(numClasses, clsLevels, boxLevels, cell);
    BoxesAt(numClasses, clsLevels, boxLevels, cell);
    OriginScore(numClasses, clsLevels, c.anchors[j], c.classes[j], cell);
  }

  /** The score for class `category` of anchor n sits at the cell's pixel, in
      the cell's variant's channel for that class. */
  lemma OriginScore(numClasses: nat, clsLevels: seq<Grid<int>>, n: nat, category: nat, cell: Cell)
    requires numClasses > 0 && AllValid(clsLevels) && category < numClasses
    requires InLayout(numClasses, clsLevels, cell)
    requires Mul(n, numClasses) + numClasses <= |FlattenLevels(clsLevels)|
    requires Mul(cell.variant, numClasses) + numClasses <= clsLevels[cell.level].channels
    requires Row(FlattenLevels(clsLevels), numClasses, n)
          == Row(Pixel(clsLevels[cell.level], cell.row, cell.col), numClasses, cell.variant)
    ensures Slot(n, numClasses, category) < |FlattenLevels(clsLevels)|
    ensures Slot(cell.variant, numClasses, category) < clsLevels[cell.level].channels
    ensures FlattenLevels(clsLevels)[Slot(n, numClasses, category)]
         == Pixel(clsLevels[cell.level], cell.row, cell.col)[Slot(cell.variant, numClasses, category)]
  {
    assert Row(FlattenLevels(clsLevels), numClasses, n)[category]
        == Row(Pixel(clsLevels[cell.level], cell.row, cell.col), numClasses, cell.variant)[category];
  }

  /** One image's outputs of every level: image i of each level's tensor. */
  function ImageLevels(outs: seq<seq<Grid<int>>>, numLevels: nat, i: nat): (levels: seq<Grid<int>>)
    requires numLevels <= |outs|
    requires forall l :: 0 <= l < numLevels ==> i < |outs[l]|
    ensures |levels| == numLevels
    ensures forall l :: 0 <= l < numLevels ==> levels[l] == outs[l][i]
  {
    seq(numLevels, l requires 0 <= l < numLevels => outs[l][i])
  }

  /** Every level `_post_process` reads is there, and level 0 gives the
      batch size. */
  predicate LevelsPresent(cfg: Config, clsOut: seq<seq<Grid<int>>>, boxOut: seq<seq<Grid<int>>>)
  {
    0 < |clsOut| && cfg.numLevels <= |clsOut| && cfg.numLevels <= |boxOut|
  }

  /** The shapes the flattening reshapes accept, per image: a non-empty
      batch, at least one level, every level holding the whole batch, and
      each image's levels aligned. */
  predicate BatchShaped(cfg: Config, clsOut: seq<seq<Grid<int>>>, boxOut: seq<seq<Grid<int>>>)
    requires LevelsPresent(cfg, clsOut, boxOut)
  {
    && 0 < |clsOut[0]| && 0 < cfg.numLevels && 0 < cfg.numClasses
    && (forall l :: 0 <= l < cfg.numLevels ==> |clsOut[l]| == |clsOut[0]| && |boxOut[l]| == |clsOut[0]|)
    && (forall i :: 0 <= i < |clsOut[0]| ==>
          ImageAligned(cfg.numClasses, ImageLevels(clsOut, cfg.numLevels, i), ImageLevels(boxOut, cfg.numLevels, i)))
  }

  /** Every image has at least k scores, so torch.topk accepts k. */
  predicate TopKFits(cfg: Config, k: nat, clsOut: seq<seq<Grid<int>>>, boxOut: seq<seq<Grid<int>>>)
    requires LevelsPresent(cfg, clsOut, boxOut) && BatchShaped(cfg, clsOut, boxOut)
  {
    forall i :: 0 <= i < |clsOut[0]| ==> k <= |FlattenLevels(ImageLevels(clsOut, cfg.numLevels, i))|
  }

  /** `_post_process` over the batch: one candidate list per image, in batch
      order. A missing level is an index error, a shape the reshapes reject a
      shape error, and an image with fewer than k scores a top-k error. */
  function PostProcess(cfg: Config, k: nat, clsOut: seq<seq<Grid<int>>>, boxOut: seq<seq<Grid<int>>>): (r: Result<seq<Candidates>>)
    ensures r == Err(IndexOutOfRange) <==> !LevelsPresent(cfg, clsOut, boxOut)
    ensures r == Err(ShapeMismatch) <==> LevelsPresent(cfg, clsOut, boxOut) && !BatchShaped(cfg, clsOut, boxOut)
    ensures r == Err(TopKOutOfRange) <==>
      && LevelsPresent(cfg, clsOut, boxOut) && BatchShaped(cfg, clsOut, boxOut)
      && !TopKFits(cfg, k, clsOut, boxOut)
    ensures r.Ok? ==>
      && LevelsPresent(cfg, clsOut, boxOut) && BatchShaped(cfg, clsOut, boxOut)
      && |r.value| == |clsOut[0]|
      && forall i :: 0 <= i < |r.value| ==>
           ImageCandidates(cfg.numClasses, ImageLevels(clsOut, cfg.numLevels, i),
             ImageLevels(boxOut, cfg.numLevels, i), k) == Ok(r.value[i])
  {
    if !LevelsPresent(cfg, clsOut, boxOut) then Err(IndexOutOfRange)
    else if !BatchShaped(cfg, clsOut, boxOut) then Err(ShapeMismatch)
    else if !TopKFits(cfg, k, clsOut, boxOut) then Err(TopKOutOfRange)
    else
      Ok(seq(|clsOut[0]|, i requires 0 <= i < |clsOut[0]| =>
        ImageCandidates(cfg.numClasses, ImageLevels(clsOut, cfg.numLevels, i), ImageLevels(boxOut, cfg.numLevels, i), k).value))
  }
}
