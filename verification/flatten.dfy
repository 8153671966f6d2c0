/** Laying blocks end to end, as torch.cat does along one dimension, and the
    index arithmetic that goes with it: where each block starts, where an
    entry of a block lands, and which block an index of the whole falls in. */
module Flatten {
  import opened Arith


  /** Where block `l` starts when blocks of lengths `lens` are laid end to
      end: the sum of the lengths before it. */
  function Offset(lens: seq<nat>, l: nat): nat
    requires l <= |lens|
  {
    if l == 0 then 0 else Offset(lens, l - 1) + lens[l - 1]
  }

  /** The length of all the blocks together. */
  function Total(lens: seq<nat>): nat
  {
    Offset(lens, |lens|)
  }

  function Lengths<T>(blocks: seq<seq<T>>): (lens: seq<nat>)
    ensures |lens| == |blocks|
    ensures forall l :: 0 <= l < |blocks| ==> lens[l] == |blocks[l]|
  {
    seq(|blocks|, l requires 0 <= l < |blocks| => |blocks[l]|)
  }

  /** The first n blocks laid end to end; its length is where block n starts. */
  function ConcatFirst<T>(blocks: seq<seq<T>>, n: nat): (r: seq<T>)
    requires n <= |blocks|
    ensures |r| == Offset(Lengths(blocks), n)
  {
    if n == 0 then [] else ConcatFirst(blocks, n - 1) + blocks[n - 1]
  }

  /** All blocks laid end to end, in order. */
  function Concat<T>(blocks: seq<seq<T>>): (r: seq<T>)
    ensures |r| == Total(Lengths(blocks))
  {
    ConcatFirst(blocks, |blocks|)
  }

  /** A block ends no later than any later block starts. */
  lemma {:induction false} OffsetMonotone(lens: seq<nat>, l: nat, m: nat)
    requires l < m <= |lens|
    ensures Offset(lens, l) + lens[l] <= Offset(lens, m)
  {
    if l + 1 < m {
      OffsetMonotone(lens, l, m - 1);
    }
  }

  lemma {:induction false} ConcatFirstAt<T>(blocks: seq<seq<T>>, n: nat, l: nat, j: nat)
    requires l < n <= |blocks| && j < |blocks[l]|
    ensures Offset(Lengths(blocks), l) + j < |ConcatFirst(blocks, n)|
    ensures ConcatFirst(blocks, n)[Offset(Lengths(blocks), l) + j] == blocks[l][j]
  {
    if l < n - 1 {
      ConcatFirstAt(blocks, n - 1, l, j);
    }
  }

  /** Entry j of block l sits at k, the block's offset plus j. */
  lemma {:induction false} ConcatAt<T>(blocks: seq<seq<T>>, l: nat, j: nat, k: nat)
    requires l < |blocks| && j < |blocks[l]|
    requires k == Offset(Lengths(blocks), l) + j
    ensures k < |Concat(blocks)|
    ensures Concat(blocks)[k] == blocks[l][j]
  {
    ConcatFirstAt(blocks, |blocks|, l, j);
  }

  function LocateIn(lens: seq<nat>, n: nat, k: nat): (r: (nat, nat))
    requires n <= |lens| && k < Offset(lens, n)
    ensures r.0 < n && r.1 < lens[r.0] && Offset(lens, r.0) + r.1 == k
  {
    if Offset(lens, n - 1) <= k then (n - 1, k - Offset(lens, n - 1))
    else LocateIn(lens, n - 1, k)
  }

  /** The block an index of the concatenation falls in, and the position
      inside that block. */
  function Locate(lens: seq<nat>, k: nat): (r: (nat, nat))
    requires k < Total(lens)
    ensures r.0 < |lens| && r.1 < lens[r.0] && Offset(lens, r.0) + r.1 == k
  {
    LocateIn(lens, |lens|, k)
  }

  /** Locate undoes the offset: (block, position) -> index -> (block, position)
      is the identity, so the layout is a bijection. */
  lemma LocateOffset(lens: seq<nat>, l: nat, j: nat)
    requires l < |lens| && j < lens[l]
    ensures Offset(lens, l) + j < Total(lens)
    ensures Locate(lens, Offset(lens, l) + j) == (l, j)
  {
    OffsetMonotone(lens, l, |lens|);
    var k := Offset(lens, l) + j;
    var r := Locate(lens, k);
    assert r.0 >= l by {
      if r.0 < l {
        OffsetMonotone(lens, r.0, l);
      }
    }
    assert r.0 <= l by {
      if l < r.0 {
        OffsetMonotone(lens, l, r.0);
      }
    }
  }

  /** Blocks of one common length w start at multiples of w. */
  lemma {:induction false} OffsetUniform(lens: seq<nat>, w: nat, l: nat)
    requires l <= |lens|
    requires forall i :: 0 <= i < |lens| ==> lens[i] == w
    ensures Offset(lens, l) == Mul(l, w)
  {
    if l > 0 {
      OffsetUniform(lens, w, l - 1);
    }
  }

  /** Scaling every block length by c scales every offset by c. */
  lemma {:induction false} OffsetScaled(lens: seq<nat>, scaled: seq<nat>, c: nat, l: nat)
    requires |scaled| == |lens| && l <= |lens|
    requires forall i :: 0 <= i < |lens| ==> scaled[i] == Mul(lens[i], c)
    ensures Offset(scaled, l) == Mul(Offset(lens, l), c)
  {
    if l > 0 {
      OffsetScaled(lens, scaled, c, l - 1);
      ShiftBlock(Offset(lens, l), Offset(lens, l - 1), lens[l - 1], c, 0);
    }
  }

  /** Row n of a flat vector viewed as rows of `width` entries: what
      reshape([-1, width]) followed by indexing row n gives. */
  function Row<T>(flat: seq<T>, width: nat, n: nat): (r: seq<T>)
    requires Mul(n, width) + width <= |flat|
    ensures |r| == width
    ensures forall e :: 0 <= e < width ==> r[e] == flat[Slot(n, width, e)]
  {
    flat[Mul(n, width) .. Mul(n, width) + width]
  }

  /** When every block has length w, entry j of block l sits at Slot(l, w, j). */
  lemma ConcatUniformAt<T>(blocks: seq<seq<T>>, w: nat, l: nat, j: nat)
    requires forall i :: 0 <= i < |blocks| ==> |blocks[i]| == w
    requires l < |blocks| && j < w
    ensures Slot(l, w, j) < |Concat(blocks)|
    ensures Concat(blocks)[Slot(l, w, j)] == blocks[l][j]
  {
    OffsetUniform(Lengths(blocks), w, l);
    ConcatAt(blocks, l, j, Slot(l, w, j));
  }
}
