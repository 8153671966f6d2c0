# EfficientDet bench: top-k candidate reduction and batch assembly

This project is a Dafny model of the prediction side of the EfficientDet
"bench" wrappers in `effdet/bench.py`.

`_post_process` takes the network's per-level classification and
box-regression outputs and produces, for each image, a fixed number k of
candidates. It works in four steps:

1. Flatten every level channels-last and lay the levels end to end.
2. Keep the k highest (anchor, class) scores.
3. Split each selected flat index into anchor (`/ num_classes`) and class
   (`% num_classes`).
4. Gather the selected score and that anchor's four box values.

The five `forward` methods run `_post_process` and then loop over the batch:
- they label each image's ground truth for the loss;
- they turn each image's candidates into detections;
- they append the results to lists that are stacked in batch order.

Modules:

- `Outcome`: `Option`, `Result` and the three error kinds.
  - `IndexOutOfRange`: a Python or torch indexing error.
  - `ShapeMismatch`: a reshape, cat or stack that torch rejects.
  - `TopKOutOfRange`: `torch.topk` asked for more entries than exist.
- `Arith`: `Mul` (recursive product) and `Slot(n, w, e) = n * w + e`, the
  index of entry e of row n in rows of width w, with div/mod lemmas.
- `Flatten`: laying blocks end to end (`torch.cat`) and viewing a flat
  vector as rows (`reshape([-1, w])`).
  - `Offset` says where each block starts.
  - `Locate` is the inverse of `Offset`.
- `Layout`: one image's per-level grids (channels first) and the
  channels-last flattening.
  - An anchor is a `Cell` (level, row, col, variant).
  - `AnchorIndex` and `AnchorCell` are the two directions of the anchor
    numbering.
  - `ScoresAt` and `BoxesAt` show that anchor n owns row n of both the
    flattened scores and the flattened boxes.
  - The docstring of `_post_process` (effdet/bench.py:20-24) describes the
    level tensors as `[batch_size, height, width, num_anchors]`. The
    `permute(0, 2, 3, 1)` at lines 28 and 32 moves the channels last only
    if the tensors are `[batch, channels, height, width]`. The model
    follows the permute, so grids are channels first.
- `Selection`: `torch.topk` as repeated choice of the best free position.
- `PostProcess`: decode, gather, the per-image pipeline and the batch
  function with its error cases.
- `Bench`: the per-image loops of the `forward` methods as imperative
  methods, and the five `forward` methods.
  - The network outputs are parameters.
  - `label_anchors`, `generate_detections` and the loss objects are
    function parameters.

## Model

| member | source | states |
|---|---|---|
| Flatten.Row | effdet/bench.py:28-32 | row n of a flat vector viewed as rows of `width` has `width` entries, and entry e is the flat entry at Slot(n, width, e) |
| Flatten.Concat | effdet/bench.py:27-33 | `torch.cat` along the candidate dimension: its length is the sum of the block lengths. ConcatAt places every entry, and LocateOffset shows the placement is a bijection |
| Layout.ChannelsLast | effdet/bench.py:28-32 | `permute(0, 2, 3, 1)` plus the reshape of one level of one image: H * W * channels entries. ChannelsLastAt gives the position of every channel of every pixel |
| Layout.FlattenLevels | effdet/bench.py:27-33 | one image's row of `cls_outputs_all` or `box_outputs_all`: its length is the sum of the flattened level sizes. LevelAt places every level's entries in increasing level order, and FlatLengths gives the totals per anchor |
| Flatten.ConcatAt | effdet/bench.py:27-29 | entry j of block l of a concatenation sits at the block's offset plus j, inside the concatenation |
| Flatten.LocateOffset | effdet/bench.py:27-29 | locating the index offset(l) + j gives back (l, j), so block/position to flat index is a bijection onto the concatenation |
| Flatten.ConcatUniformAt | effdet/bench.py:27-29 | when all blocks have length w, entry j of block l is at Slot(l, w, j) |
| Layout.ChannelsLastAt | effdet/bench.py:28 | after permute(0, 2, 3, 1) and the flattening reshape, channel ch of pixel (row, col) sits at (row * width + col) * channels + ch |
| Layout.SplitInLevelIndex | effdet/bench.py:28 | splitting the in-level anchor index (row * W + col) * A + a gives back (row, col, a) |
| Layout.EntryAt | effdet/bench.py:28-32 | when every anchor variant owns `group` consecutive channels, entry e of variant a at pixel (row, col) is the flattened level's entry at Slot(in-level anchor index, group, e) |
| Layout.LevelAt | effdet/bench.py:27-29 | entry p of level l's flattened grid is entry LevelOffset(l) + p of all levels concatenated in increasing order |
| Layout.GroupEntryAt | effdet/bench.py:27-33 | the entry for (level, row, col, a, e) sits at offset(level) + ((row * W + col) * A + a) * group + e of the concatenated levels |
| Layout.GroupRowAt | effdet/bench.py:27-33 | the same as a row: row base + in-level index of the concatenation equals variant a's `group` channels at pixel (row, col) |
| Layout.LevelSizes | effdet/bench.py:27-33 | a level's flattened scores hold num_classes entries per anchor and its flattened boxes 4 |
| Layout.LevelOffsets | effdet/bench.py:27-33 | level l starts at num_classes times its anchor offset in the flattened scores and at 4 times it in the flattened boxes |
| Layout.FlatLengths | effdet/bench.py:27-33 | the flattened scores have NumAnchors * num_classes entries and the flattened boxes NumAnchors * 4, where NumAnchors is the sum over levels of H * W * A |
| Layout.AnchorIndex | effdet/bench.py:27-33 | every cell of the layout numbers to an anchor below NumAnchors |
| Layout.AnchorCell | effdet/bench.py:27-33 | every anchor index below NumAnchors is the number of a cell in the layout (AnchorIndex(AnchorCell(n)) == n) |
| Layout.AnchorCellIndex | effdet/bench.py:27-33 | AnchorCell(AnchorIndex(cell)) == cell, the other direction of the bijection |
| Layout.ScoresAt | effdet/bench.py:27-29 | anchor AnchorIndex(cell) owns row n of the flattened scores viewed as rows of num_classes, and that row is the cell's variant slice of its pixel's score channels |
| Layout.BoxesAt | effdet/bench.py:31-33 | the same anchor owns row n of the flattened boxes viewed as rows of 4, and that row is the same variant's four box channels at the same pixel |
| Selection.Best | effdet/bench.py:35 | None exactly when every position is taken; otherwise a free position whose score is at least every free score and strictly above every earlier free score |
| Selection.TopKFrom | effdet/bench.py:35 | k positions, each inside the scores, none already taken, pairwise distinct |
| Selection.TopKFromDominates | effdet/bench.py:35 | every free position left out scores at most every picked position |
| Selection.DominatesStep | effdet/bench.py:35 | picking the best free position first keeps every left-out free score at or below every picked one |
| Selection.TopKFromSorted | effdet/bench.py:35 | picked positions come in non-increasing score order |
| Selection.TopKFromSelects | effdet/bench.py:35 | picking k from nothing taken is a top-k selection: distinct, in range, dominating, sorted |
| Selection.TopKFromPrefix | effdet/bench.py:35 | the best k are the first k of the best k + 1 |
| Selection.TopK | effdet/bench.py:35 | an error exactly when k exceeds the number of scores, and otherwise a top-k selection of exactly k positions |
| PostProcess.DecodeIndex | effdet/bench.py:36-37 | the class is below num_classes and anchor * num_classes + class equals the flat index |
| PostProcess.DecodeSlot | effdet/bench.py:36-37 | decoding the index of class c of anchor a gives (a, c), so the decode inverts the score layout |
| PostProcess.DecodeBound | effdet/bench.py:36-37 | a flat index inside num_anchors rows decodes to an anchor below num_anchors |
| PostProcess.GatherOne | effdet/bench.py:38-44 | one selected index yields its anchor and class (both in range, recomposing to the index), the score at that index and the anchor's 4-value box row |
| PostProcess.Gather | effdet/bench.py:38-44 | the four gathered outputs have one entry per selected index, each as GatherOne describes |
| PostProcess.ImageCandidates | effdet/bench.py:11-46 | one image's pipeline fails exactly when k exceeds its score count, with the top-k error, and otherwise is the gather at TopK of the flattened scores |
| PostProcess.GatheredDistinct | effdet/bench.py:35-44 | a gather at a top-k selection has k entries in each output and no (anchor, class) pair twice |
| PostProcess.GatheredSorted | effdet/bench.py:35-44 | a gather at a top-k selection lists its scores in non-increasing order |
| PostProcess.GatheredDominate | effdet/bench.py:35-37 | every (anchor, class) pair that is not a candidate scores at most every candidate |
| PostProcess.NotSelected | effdet/bench.py:35-37 | a pair absent from the decoded candidates has a flat index absent from the top-k indices |
| PostProcess.ImageTopK | effdet/bench.py:35-46 | each image yields exactly k candidates, sorted by score, distinct, and with no left-out pair scoring above a candidate |
| PostProcess.CandidateOrigin | effdet/bench.py:27-44 | candidate j's anchor is a cell of the layout; its box is that variant's four box channels at that pixel; its score is that variant's channel for its class at that pixel |
| PostProcess.OriginScore | effdet/bench.py:41-44 | the flattened score of (anchor n, class) is the cell's variant channel for that class at the cell's pixel |
| PostProcess.ImageLevels | effdet/bench.py:26-33 | image i's levels are image i of each of the first num_levels level tensors, in level order |
| PostProcess.PostProcess | effdet/bench.py:26-46 | three error conditions, each one stated as an if-and-only-if: missing level, bad shape, k above an image's score count; otherwise one candidate list per image of `cls_outputs[0]`, and entry i is the single-image pipeline on image i's levels alone |
| Bench.AssembleDetections | effdet/bench.py:63-68 | the appended list has one entry per image, and entry i is generate_detections of image i's candidates and scale |
| Bench.AssembleTargets | effdet/bench.py:88-96 | the three appended lists have one entry per image, and entry i of each is the matching part of label_anchors on image i's boxes and labels |
| Bench.StackDetections | effdet/bench.py:65-69 | indexing past the candidates or scales fails, stacking an empty list fails, and otherwise the stacked list is the per-image detections in batch order |
| Bench.EvalForward | effdet/bench.py:59-69 | post-process errors pass through; then the index and stack errors; otherwise the detections of every image with its own scale |
| Bench.ClsEvalForward | effdet/bench.py:193-203 | as EvalForward, with the classification output returned beside the detections |
| Bench.TrainForward | effdet/bench.py:84-107 | post-process errors pass through; missing ground truth is an index error; the losses are the loss function on the raw outputs and the per-image targets; with include_pred the detections at scale 1 precede them |
| Bench.Train0BoxForward | effdet/bench.py:121-144 | as TrainForward, with has_box passed on to the loss |
| Bench.TrainClsAndDetForward | effdet/bench.py:158-181 | as Train0BoxForward, with the classification output and its ground truth passed to the loss, and the classification output returned after the detections |

## Left out

- The network `self.model(x)`, the `nn.Module` and `__init__` plumbing and the
  `Anchors` object are not modelled. The network's outputs are parameters.
  `x` appears only as its batch size `x.shape[0]`.
- `effdet/anchors.py` and `effdet/loss.py` are not part of this model.
  - `label_anchors`, `generate_detections` and the loss objects are function
    parameters with no properties assumed.
  - `MAX_DETECTION_POINTS` is the parameter k.
- Float scores are modelled as integers, which keeps the total order the
  selection needs. Box values are also integers. NaN scores are not modelled.
- `/` on the top-k indices followed by `.to(torch.int64)` is modelled as
  exact integer division. Under current torch, `/` on the int64 top-k
  indices is true division in float32. That is exact only while the flat
  indices stay below 2^24 (16,777,216), or under the integer `/` of older
  torch. Rounding of larger indices is not modelled. The common 90-class
  setup at 1024 px, with 196,416 anchors, has about 17.7 million flat
  indices, which is above that bound.
- `torch.stack` on detections of differing shapes, and device placement,
  are not modelled. Only stacking an empty list is modelled as an error.
- The trailing singleton dimension of the gathered scores
  (`gather(..., 2, ...)`) is dropped: each candidate has one score.
- PostProcess: the shape check is stricter than torch's. torch reshapes
  whenever element counts divide. This model reports `ShapeMismatch` unless
  every level holds the whole batch, the grids of a level agree in height
  and width, the score channels are a multiple of num_classes, and the box
  channels are 4 per anchor variant. An empty batch, zero levels or zero
  classes is also `ShapeMismatch`. Images are checked one by one and need
  not share a shape.
- PostProcess: when several errors apply at once, the model reports the
  first of: missing level, bad shape, k too large. torch may raise a
  different one first.
- TopK: `torch.topk` raises when k exceeds the number of scores, and the
  model returns `TopKOutOfRange`. Padding is not modelled.
- TopK: ties are broken by the lowest flat index (lowest anchor, then
  lowest class). `torch.topk` promises no order among equal scores, so this
  is one of the outputs it may return.
- The `effdet/__init__.py` re-exports carry no logic and are not modelled.
