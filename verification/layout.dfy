/** One image's per-level network outputs and how `_post_process` flattens
    them: permute(0, 2, 3, 1) moves the channels innermost, the reshape lays
    the pixels out row by row, and torch.cat appends the levels in increasing
    order. A score channel is `variant * numClasses + class` and a box channel
    `variant * 4 + coordinate`, so the flattened scores and boxes list the same
    anchors in the same order. */
module Layout {
  import opened Arith
  import opened Flatten

  /** One image's slice of one level's output tensor, channels first as the
      network produces it: planes[ch][row][col]. */
  datatype Grid<T> = Grid(channels: nat, height: nat, width: nat, planes: seq<seq<seq<T>>>)
  {
    predicate Valid()
    {
      && |planes| == channels
      && forall ch :: 0 <= ch < channels ==>
           && |planes[ch]| == height
           && forall row :: 0 <= row < height ==> |planes[ch][row]| == width
    }
  }

  /** The channel vector of one pixel. */
  function Pixel<T>(g: Grid<T>, row: nat, col: nat): (v: seq<T>)
    requires g.Valid() && row < g.height && col < g.width
    ensures |v| == g.channels
    ensures forall ch :: 0 <= ch < g.channels ==> v[ch] == g.planes[ch][row][col]
  {
    seq(g.channels, ch requires 0 <= ch < g.channels => g.planes[ch][row][col])
  }

  function Pixels<T>(g: Grid<T>, row: nat): (ps: seq<seq<T>>)
    requires g.Valid() && row < g.height
    ensures |ps| == g.width
    ensures forall col :: 0 <= col < g.width ==> ps[col] == Pixel(g, row, col)
  {
    seq(g.width, col requires 0 <= col < g.width => Pixel(g, row, col))
  }

  /** One row of pixels, channels innermost. */
  function PixelRow<T>(g: Grid<T>, row: nat): (r: seq<T>)
    requires g.Valid() && row < g.height
    ensures |r| == Mul(g.width, g.channels)
  {
    OffsetUniform(Lengths(Pixels(g, row)), g.channels, g.width);
    Concat(Pixels(g, row))
  }

  function PixelRows<T>(g: Grid<T>): (rs: seq<seq<T>>)
    requires g.Valid()
    ensures |rs| == g.height
    ensures forall row :: 0 <= row < g.height ==> rs[row] == PixelRow(g, row)
  {
    seq(g.height, row requires 0 <= row < g.height => PixelRow(g, row))
  }

  /** The grid with channels innermost and pixels in row-major order: what
      permute(0, 2, 3, 1) followed by a flattening reshape yields. */
  function ChannelsLast<T>(g: Grid<T>): (r: seq<T>)
    requires g.Valid()
    ensures |r| == Mul(g.height, Mul(g.width, g.channels))
  {
    OffsetUniform(Lengths(PixelRows(g)), Mul(g.width, g.channels), g.height);
    Concat(PixelRows(g))
  }

  /** Within a row, channel ch of column col lands at Slot(col, channels, ch). */
  lemma PixelRowAt<T>(g: Grid<T>, row: nat, col: nat, ch: nat)
    requires g.Valid() && row < g.height && col < g.width && ch < g.channels
    ensures Slot(col, g.channels, ch) < |PixelRow(g, row)|
    ensures PixelRow(g, row)[Slot(col, g.channels, ch)] == Pixel(g, row, col)[ch]
  {
    ConcatUniformAt(Pixels(g, row), g.channels, col, ch);
  }

  /** Position of channel ch of pixel (row, col) once the channels are
      innermost: pixels are numbered row by row, and each holds `channels`
      consecutive entries. */
  function PixelIndex(width: nat, channels: nat, row: nat, col: nat, ch: nat): nat
  {
    Slot(Slot(row, width, col), channels, ch)
  }

  /** Channel ch of pixel (row, col) lands at PixelIndex. */
  lemma ChannelsLastAt<T>(g: Grid<T>, row: nat, col: nat, ch: nat)
    requires g.Valid() && row < g.height && col < g.width && ch < g.channels
    ensures PixelIndex(g.width, g.channels, row, col, ch) < |ChannelsLast(g)|
    ensures ChannelsLast(g)[PixelIndex(g.width, g.channels, row, col, ch)] == Pixel(g, row, col)[ch]
  {
    Regroup(row, g.width, col, g.channels, ch);
    PixelRowAt(g, row, col, ch);
    ConcatUniformAt(PixelRows(g), Mul(g.width, g.channels), row, Slot(col, g.channels, ch));
  }

  /** Index, within one level, of anchor variant a at pixel (row, col). */
  function InLevelIndex(width: nat, variants: nat, row: nat, col: nat, a: nat): nat
  {
    Slot(Slot(row, width, col), variants, a)
  }

  lemma InLevelBound(height: nat, width: nat, variants: nat, row: nat, col: nat, a: nat)
    requires row < height && col < width && a < variants
    ensures InLevelIndex(width, variants, row, col, a) < Mul(Mul(height, width), variants)
  {
    MulAddBound(row, col, width, height);
    MulAddBound(Slot(row, width, col), a, variants, Mul(height, width));
  }

  /** Splits an index within a level back into pixel and variant. */
  function SplitInLevel(height: nat, width: nat, variants: nat, q: nat): (r: (nat, nat, nat))
    requires q < Mul(Mul(height, width), variants)
    ensures r.0 < height && r.1 < width && r.2 < variants
    ensures InLevelIndex(width, variants, r.0, r.1, r.2) == q
  {
    DivBound(q, variants, Mul(height, width));
    DivBound(q / variants, width, height);
    DivMod(q, variants);
    DivMod(q / variants, width);
    ((q / variants) / width, (q / variants) % width, q % variants)
  }

  lemma SplitInLevelIndex(height: nat, width: nat, variants: nat, row: nat, col: nat, a: nat)
    requires row < height && col < width && a < variants
    ensures InLevelIndex(width, variants, row, col, a) < Mul(Mul(height, width), variants)
    ensures SplitInLevel(height, width, variants, InLevelIndex(width, variants, row, col, a)) == (row, col, a)
  {
    InLevelBound(height, width, variants, row, col, a);
    DivModOf(Slot(row, width, col), a, variants);
    DivModOf(row, col, width);
  }

  /** Entry e of the group of variant a at pixel (row, col) sits where
      channel Slot(a, group, e) of that pixel does, when there are
      Mul(variants, group) channels. */
  lemma EntryPixel(width: nat, channels: nat, variants: nat, group: nat, row: nat, col: nat, a: nat, e: nat)
    requires channels == Mul(variants, group)
    ensures PixelIndex(width, channels, row, col, Slot(a, group, e))
         == Slot(InLevelIndex(width, variants, row, col, a), group, e)
  {
    Regroup(Slot(row, width, col), variants, a, group, e);
  }

  /** When each anchor variant owns `group` consecutive channels
      (Mul(variants, group) channels in all), entry e of variant a at pixel
      (row, col) is channel Slot(a, group, e) and lands at
      Slot(InLevelIndex(...), group, e) of the flattened grid. */
  lemma EntryAt<T>(g: Grid<T>, variants: nat, group: nat, row: nat, col: nat, a: nat, e: nat)
    requires g.Valid() && g.channels == Mul(variants, group)
    requires row < g.height && col < g.width && a < variants && e < group
    ensures Slot(a, group, e) < g.channels
    ensures Slot(InLevelIndex(g.width, variants, row, col, a), group, e) < |ChannelsLast(g)|
    ensures ChannelsLast(g)[Slot(InLevelIndex(g.width, variants, row, col, a), group, e)]
         == Pixel(g, row, col)[Slot(a, group, e)]
  {
    MulAddBound(a, e, group, variants);
    EntryPixel(g.width, g.channels, variants, group, row, col, a, e);
    ChannelsLastAt(g, row, col, Slot(a, group, e));
  }

  predicate AllValid<T>(levels: seq<Grid<T>>)
  {
    forall l :: 0 <= l < |levels| ==> levels[l].Valid()
  }

  function LevelBlocks<T>(levels: seq<Grid<T>>): (blocks: seq<seq<T>>)
    requires AllValid(levels)
    ensures |blocks| == |levels|
    ensures forall l :: 0 <= l < |levels| ==> blocks[l] == ChannelsLast(levels[l])
  {
    seq(|levels|, l requires 0 <= l < |levels| => ChannelsLast(levels[l]))
  }

  /** Every level flattened, levels concatenated in increasing order: one
      image's row of `cls_outputs_all` or `box_outputs_all` as a flat vector. */
  function FlattenLevels<T>(levels: seq<Grid<T>>): (r: seq<T>)
    requires AllValid(levels)
    ensures |r| == Total(Lengths(LevelBlocks(levels)))
  {
    Concat(LevelBlocks(levels))
  }

  /** Where level l starts in the flattened vector. */
  function LevelOffset<T>(levels: seq<Grid<T>>, l: nat): nat
    requires AllValid(levels) && l <= |levels|
  {
    Offset(Lengths(LevelBlocks(levels)), l)
  }

  /** Entry p of level l's flattened grid is entry k == LevelOffset(l) + p of
      all levels flattened. */
  lemma LevelAt<T>(levels: seq<Grid<T>>, l: nat, p: nat, k: nat)
    requires AllValid(levels) && l < |levels|
    requires p < |ChannelsLast(levels[l])|
    requires k == LevelOffset(levels, l) + p
    ensures k < |FlattenLevels(levels)|
    ensures FlattenLevels(levels)[k] == ChannelsLast(levels[l])[p]
  {
    ConcatAt(LevelBlocks(levels), l, p, k);
  }

  /** When level l starts at Mul(base, group) in the flattened vector and each
      anchor variant owns `group` consecutive channels, the group of variant a
      at pixel (row, col) is row n == base + InLevelIndex(...) of the
      flattened vector viewed as rows of `group` entries. */
  lemma GroupRowAt<T>(levels: seq<Grid<T>>, variants: nat, group: nat, base: nat, l: nat, row: nat, col: nat, a: nat, n: nat)
    requires AllValid(levels) && l < |levels| && group > 0
    requires levels[l].channels == Mul(variants, group)
    requires LevelOffset(levels, l) == Mul(base, group)
    requires row < levels[l].height && col < levels[l].width && a < variants
    requires n == base + InLevelIndex(levels[l].width, variants, row, col, a)
    ensures Mul(n, group) + group <= |FlattenLevels(levels)|
    ensures Mul(a, group) + group <= levels[l].channels
    ensures Row(FlattenLevels(levels), group, n) == Row(Pixel(levels[l], row, col), group, a)
  {
    GroupEntryAt(levels, variants, group, base, l, row, col, a, n, group - 1);
    forall e | 0 <= e < group
      ensures Row(FlattenLevels(levels), group, n)[e] == Row(Pixel(levels[l], row, col), group, a)[e]
    {
      GroupEntryAt(levels, variants, group, base, l, row, col, a, n, e);
    }
  }

  /** One entry of GroupRowAt. */
  lemma GroupEntryAt<T>(levels: seq<Grid<T>>, variants: nat, group: nat, base: nat, l: nat, row: nat, col: nat, a: nat, n: nat, e: nat)
    requires AllValid(levels) && l < |levels|
    requires levels[l].channels == Mul(variants, group)
    requires LevelOffset(levels, l) == Mul(base, group)
    requires row < levels[l].height && col < levels[l].width && a < variants && e < group
    requires n == base + InLevelIndex(levels[l].width, variants, row, col, a)
    ensures Slot(a, group, e) < levels[l].channels
    ensures Slot(n, group, e) < |FlattenLevels(levels)|
    ensures FlattenLevels(levels)[Slot(n, group, e)] == Pixel(levels[l], row, col)[Slot(a, group, e)]
  {
    EntryAt(levels[l], variants, group, row, col, a, e);
    ShiftBlock(n, base, InLevelIndex(levels[l].width, variants, row, col, a), group, e);
    LevelAt(levels, l, Slot(InLevelIndex(levels[l].width, variants, row, col, a), group, e), Slot(n, group, e));
  }

  /** A level's classification and box-regression grids describe the same
      anchors: same spatial size, `variants * numClasses` score channels and
      `variants * 4` box channels. */
  predicate LevelAligned(numClasses: nat, cls: Grid<int>, box: Grid<int>)
  {
    && numClasses > 0
    && cls.Valid() && box.Valid()
    && cls.height == box.height && cls.width == box.width
    && cls.channels % numClasses == 0
    && box.channels == 4 * (cls.channels / numClasses)
  }

  predicate ImageAligned(numClasses: nat, clsLevels: seq<Grid<int>>, boxLevels: seq<Grid<int>>)
  {
    && numClasses > 0
    && |clsLevels| == |boxLevels|
    && forall l :: 0 <= l < |clsLevels| ==> LevelAligned(numClasses, clsLevels[l], boxLevels[l])
  }

  /** Anchor variants per cell of a level. */
  function Variants(numClasses: nat, cls: Grid<int>): nat
    requires numClasses > 0
  {
    cls.channels / numClasses
  }

  /** Anchors per level: height * width * variants. */
  function AnchorCounts(numClasses: nat, clsLevels: seq<Grid<int>>): (counts: seq<nat>)
    requires numClasses > 0
    ensures |counts| == |clsLevels|
    ensures forall l :: 0 <= l < |clsLevels| ==>
      counts[l] == Mul(Mul(clsLevels[l].height, clsLevels[l].width), Variants(numClasses, clsLevels[l]))
  {
    seq(|clsLevels|, l requires 0 <= l < |clsLevels| =>
      Mul(Mul(clsLevels[l].height, clsLevels[l].width), Variants(numClasses, clsLevels[l])))
  }

  /** The anchor index at which level l's anchors start. */
  function AnchorOffset(numClasses: nat, clsLevels: seq<Grid<int>>, l: nat): nat
    requires numClasses > 0 && l <= |clsLevels|
  {
    Offset(AnchorCounts(numClasses, clsLevels), l)
  }

  function NumAnchors(numClasses: nat, clsLevels: seq<Grid<int>>): nat
    requires numClasses > 0
  {
    Total(AnchorCounts(numClasses, clsLevels))
  }

  /** A level's flattened scores hold numClasses entries per anchor and its
      flattened boxes 4. */
  lemma LevelSizes(numClasses: nat, cls: Grid<int>, box: Grid<int>)
    requires LevelAligned(numClasses, cls, box)
    ensures var count := Mul(Mul(cls.height, cls.width), Variants(numClasses, cls));
      && |ChannelsLast(cls)| == Mul(count, numClasses)
      && |ChannelsLast(box)| == Mul(count, 4)
  {
    var v := Variants(numClasses, cls);
    DivExact(cls.channels, numClasses);
    assert cls.channels == Mul(v, numClasses);
    VolumeScale(cls.height, cls.width, v, numClasses);
    MulIsProduct(v, 4);
    assert box.channels == Mul(v, 4);
    VolumeScale(cls.height, cls.width, v, 4);
  }

  /** Level l starts at numClasses times its anchor offset in the flattened
      scores and at 4 times it in the flattened boxes. */
  lemma LevelOffsets(numClasses: nat, clsLevels: seq<Grid<int>>, boxLevels: seq<Grid<int>>, l: nat)
    requires ImageAligned(numClasses, clsLevels, boxLevels) && l <= |clsLevels|
    ensures LevelOffset(clsLevels, l) == Mul(AnchorOffset(numClasses, clsLevels, l), numClasses)
    ensures LevelOffset(boxLevels, l) == Mul(AnchorOffset(numClasses, clsLevels, l), 4)
  {
    var counts := AnchorCounts(numClasses, clsLevels);
    var clsLens := Lengths(LevelBlocks(clsLevels));
    var boxLens := Lengths(LevelBlocks(boxLevels));
    forall i | 0 <= i < |clsLevels|
      ensures clsLens[i] == Mul(counts[i], numClasses) && boxLens[i] == Mul(counts[i], 4)
    {
      LevelSizes(numClasses, clsLevels[i], boxLevels[i]);
    }
    OffsetScaled(counts, clsLens, numClasses, l);
    OffsetScaled(counts, boxLens, 4, l);
  }

  /** There are numClasses scores and 4 box values per anchor. */
  lemma FlatLengths(numClasses: nat, clsLevels: seq<Grid<int>>, boxLevels: seq<Grid<int>>)
    requires ImageAligned(numClasses, clsLevels, boxLevels)
    ensures |FlattenLevels(clsLevels)| == Mul(NumAnchors(numClasses, clsLevels), numClasses)
    ensures |FlattenLevels(boxLevels)| == Mul(NumAnchors(numClasses, clsLevels), 4)
  {
    LevelOffsets(numClasses, clsLevels, boxLevels, |clsLevels|);
  }

  /** An anchor's place in the layout: its level, its pixel and its variant. */
  datatype Cell = Cell(level: nat, row: nat, col: nat, variant: nat)

  predicate InLayout(numClasses: nat, clsLevels: seq<Grid<int>>, cell: Cell)
    requires numClasses > 0
  {
    && cell.level < |clsLevels|
    && cell.row < clsLevels[cell.level].height
    && cell.col < clsLevels[cell.level].width
    && cell.variant < Variants(numClasses, clsLevels[cell.level])
  }

  /** The flat anchor index of a cell: levels first, then rows, columns and
      variants. */
  function AnchorIndex(numClasses: nat, clsLevels: seq<Grid<int>>, cell: Cell): (n: nat)
    requires numClasses > 0 && InLayout(numClasses, clsLevels, cell)
    ensures n < NumAnchors(numClasses, clsLevels)
  {
    var g := clsLevels[cell.level];
    var v := Variants(numClasses, g);
    InLevelBound(g.height, g.width, v, cell.row, cell.col, cell.variant);
    OffsetMonotone(AnchorCounts(numClasses, clsLevels), cell.level, |clsLevels|);
    AnchorOffset(numClasses, clsLevels, cell.level) + InLevelIndex(g.width, v, cell.row, cell.col, cell.variant)
  }

  /** The cell of a flat anchor index. */
  function AnchorCell(numClasses: nat, clsLevels: seq<Grid<int>>, n: nat): (cell: Cell)
    requires numClasses > 0 && n < NumAnchors(numClasses, clsLevels)
    ensures InLayout(numClasses, clsLevels, cell)
    ensures AnchorIndex(numClasses, clsLevels, cell) == n
  {
    var (l, q) := Locate(AnchorCounts(numClasses, clsLevels), n);
    var g := clsLevels[l];
    var (row, col, a) := SplitInLevel(g.height, g.width, Variants(numClasses, g), q);
    Cell(l, row, col, a)
  }

  /** AnchorCell undoes AnchorIndex: the anchor numbering is a bijection
      between the cells of the layout and 0 .. NumAnchors - 1. */
  lemma AnchorCellIndex(numClasses: nat, clsLevels: seq<Grid<int>>, cell: Cell)
    requires numClasses > 0 && InLayout(numClasses, clsLevels, cell)
    ensures AnchorCell(numClasses, clsLevels, AnchorIndex(numClasses, clsLevels, cell)) == cell
  {
    var g := clsLevels[cell.level];
    var v := Variants(numClasses, g);
    var q := InLevelIndex(g.width, v, cell.row, cell.col, cell.variant);
    SplitInLevelIndex(g.height, g.width, v, cell.row, cell.col, cell.variant);
    LocateOffset(AnchorCounts(numClasses, clsLevels), cell.level, q);
    assert Locate(AnchorCounts(numClasses, clsLevels), AnchorIndex(numClasses, clsLevels, cell)) == (cell.level, q);
  }

  /** The anchor numbered AnchorIndex(cell) owns row n of the flattened
      scores viewed as rows of numClasses, and that row is the cell's variant
      slice of its pixel's score channels. */
  lemma ScoresAt(numClasses: nat, clsLevels: seq<Grid<int>>, boxLevels: seq<Grid<int>>, cell: Cell)
    requires ImageAligned(numClasses, clsLevels, boxLevels)
    requires InLayout(numClasses, clsLevels, cell)
    ensures var n := AnchorIndex(numClasses, clsLevels, cell);
      && Mul(n, numClasses) + numClasses <= |FlattenLevels(clsLevels)|
      && Mul(cell.variant, numClasses) + numClasses <= clsLevels[cell.level].channels
      && Row(FlattenLevels(clsLevels), numClasses, n)
         == Row(Pixel(clsLevels[cell.level], cell.row, cell.col), numClasses, cell.variant)
  {
    var l := cell.level;
    var v := Variants(numClasses, clsLevels[l]);
    LevelOffsets(numClasses, clsLevels, boxLevels, l);
    DivExact(clsLevels[l].channels, numClasses);
    GroupRowAt(clsLevels, v, numClasses, AnchorOffset(numClasses, clsLevels, l), l,
      cell.row, cell.col, cell.variant, AnchorIndex(numClasses, clsLevels, cell));
  }

  /** The same anchor owns row n of the flattened boxes viewed as rows of 4,
      and that row is the same variant's slice of the same pixel's box
      channels. With ScoresAt this is the ordering invariant that lets one
      anchor index address both tensors. */
  lemma BoxesAt(numClasses: nat, clsLevels: seq<Grid<int>>, boxLevels: seq<Grid<int>>, cell: Cell)
    requires ImageAligned(numClasses, clsLevels, boxLevels)
    requires InLayout(numClasses, clsLevels, cell)
    ensures cell.level < |boxLevels|
    ensures var n := AnchorIndex(numClasses, clsLevels, cell);
      && Mul(n, 4) + 4 <= |FlattenLevels(boxLevels)|
      && Mul(cell.variant, 4) + 4 <= boxLevels[cell.level].channels
      && Row(FlattenLevels(boxLevels), 4, n)
         == Row(Pixel(boxLevels[cell.level], cell.row, cell.col), 4, cell.variant)
  {
    var l := cell.level;
    var v := Variants(numClasses, clsLevels[l]);
    LevelOffsets(numClasses, clsLevels, boxLevels, l);
    MulIsProduct(v, 4);
    GroupRowAt(boxLevels, v, 4, AnchorOffset(numClasses, clsLevels, l), l,
      cell.row, cell.col, cell.variant, AnchorIndex(numClasses, clsLevels, cell));
  }
}
