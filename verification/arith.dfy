/** Multiplication and division facts for the index arithmetic.

    Index arithmetic is written with Mul, multiplication of naturals by
    repeated addition. The solver unfolds a recursive definition only a
    bounded number of times, so formulas over Mul stay linear for it; the
    algebra they need is proved once here, and MulIsProduct says that Mul is
    the ordinary product. */
module Arith {

  function Mul(a: nat, b: nat): nat
  {
    if a == 0 then 0 else Mul(a - 1, b) + b
  }

  /** Position of entry e of row n when rows of `width` entries are laid end
      to end. Naming it keeps every index term in one syntactic form. */
  function Slot(n: nat, width: nat, e: nat): nat
  {
    Mul(n, width) + e
  }

  lemma {:induction false} MulIsProduct(a: nat, b: nat)
    ensures Mul(a, b) == a * b
  {
    if a > 0 {
      MulIsProduct(a - 1, b);
      assert (a - 1) * b + b == a * b;
    }
  }

  lemma {:induction false} MulZero(a: nat)
    ensures Mul(a, 0) == 0
  {
    if a > 0 {
      MulZero(a - 1);
    }
  }

  /** Mul distributes over a sum on the left. */
  lemma {:induction false} MulAddLeft(a: nat, b: nat, c: nat)
    ensures Mul(a + b, c) == Mul(a, c) + Mul(b, c)
  {
    if a > 0 {
      MulAddLeft(a - 1, b, c);
    }
  }

  lemma {:induction false} MulAssoc(a: nat, b: nat, c: nat)
    ensures Mul(Mul(a, b), c) == Mul(a, Mul(b, c))
  {
    if a > 0 {
      MulAssoc(a - 1, b, c);
      MulAddLeft(Mul(a - 1, b), b, c);
    }
  }

  lemma {:induction false} MulMono(a: nat, b: nat, d: nat)
    requires a <= b
    ensures Mul(a, d) <= Mul(b, d)
  {
    MulAddLeft(a, b - a, d);
  }

  /** Mul(q, d) + r stays below Mul(n, d) when q < n and r < d. */
  lemma {:induction false} MulAddBound(q: nat, r: nat, d: nat, n: nat)
    requires q < n && r < d
    ensures Mul(q, d) + r < Mul(n, d)
  {
    MulMono(q + 1, n, d);
  }

  /** Row n of width w ends within N rows when n < N. */
  lemma {:induction false} RowFits(n: nat, N: nat, w: nat)
    requires n < N
    ensures Mul(n, w) + w <= Mul(N, w)
  {
    MulMono(n + 1, N, w);
  }

  /** Euclidean division: x == Mul(x / d, d) + x % d with 0 <= x % d < d. */
  lemma DivMod(x: nat, d: nat)
    requires d > 0
    ensures Mul(x / d, d) + x % d == x && x % d < d
  {
    MulIsProduct(x / d, d);
  }

  /** Division by d undoes Mul(q, d) + r when r < d. */
  lemma DivModOf(q: nat, r: nat, d: nat)
    requires r < d
    ensures (Mul(q, d) + r) / d == q && (Mul(q, d) + r) % d == r
  {
    var x := Mul(q, d) + r;
    DivMod(x, d);
    var q', r' := x / d, x % d;
    if q' < q {
      MulAddBound(q', r', d, q);
    }
    if q < q' {
      MulAddBound(q, r, d, q');
    }
  }

  /** An exact division multiplies back. */
  lemma DivExact(x: nat, d: nat)
    requires d > 0 && x % d == 0
    ensures x == Mul(x / d, d)
  {
    DivMod(x, d);
  }

  /** x < Mul(n, d) gives d > 0 and x / d < n. */
  lemma DivBound(x: nat, d: nat, n: nat)
    requires x < Mul(n, d)
    ensures d > 0 && x / d < n
  {
    if d == 0 {
      MulZero(n);
    } else if x / d >= n {
      MulMono(n, x / d, d);
      DivMod(x, d);
    }
  }

  /** Row-major regrouping: entry e of group a of row p, with v groups of
      g entries per row, is entry Slot(a, g, e) of row p of Mul(v, g) entries. */
  lemma Regroup(p: nat, v: nat, a: nat, g: nat, e: nat)
    ensures Slot(Slot(p, v, a), g, e) == Slot(p, Mul(v, g), Slot(a, g, e))
  {
    MulAddLeft(Mul(p, v), a, g);
    MulAssoc(p, v, g);
  }

  /** Row n == base + i of width g starts i rows after row base. */
  lemma ShiftBlock(n: nat, base: nat, i: nat, g: nat, e: nat)
    requires n == base + i
    ensures Slot(n, g, e) == Mul(base, g) + Slot(i, g, e)
  {
    MulAddLeft(base, i, g);
  }

  /** Mul(h, Mul(w, Mul(v, g))) == Mul(Mul(Mul(h, w), v), g). */
  lemma VolumeScale(h: nat, w: nat, v: nat, g: nat)
    ensures Mul(h, Mul(w, Mul(v, g))) == Mul(Mul(Mul(h, w), v), g)
  {
    MulAssoc(Mul(h, w), v, g);
    MulAssoc(h, w, Mul(v, g));
  }
}
