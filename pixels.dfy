/** Integer pixel arithmetic shared by the floor and wall casters: the texture
    size as a power of two, the `& (TEXTURE_SIZE - 1)` mask and row-major
    buffer indexing. */
module Pixels {

  function Pow2(k: nat): (r: nat)
    ensures r >= 1
  {
    if k == 0 then 1 else 2 * Pow2(k - 1)
  }

  /** `v & (2^k - 1)` on a two's-complement integer: the low k bits of v,
      taken one bit at a time (v % 2 is the lowest bit, v / 2 drops it). */
  function Mask(v: int, k: nat): (r: int)
    ensures 0 <= r < Pow2(k)
    decreases k
  {
    if k == 0 then 0 else 2 * Mask(v / 2, k - 1) + v % 2
  }

  /** The mask keeps exactly the remainder modulo 2^k: it is the identity on
      [0, 2^k) and wraps every other value, negative ones included, into it. */
  lemma {:induction false} MaskIsMod(v: int, k: nat)
    ensures Mask(v, k) == v % Pow2(k)
    decreases k
  {
    if k > 0 {
      MaskIsMod(v / 2, k - 1);
      HalveMod(v, Pow2(k - 1));
    }
  }

  /** Dropping the lowest bit commutes with taking remainders. */
  lemma HalveMod(v: int, d: int)
    requires d > 0
    ensures v % (2 * d) == 2 * ((v / 2) % d) + v % 2
  {
    var q, b := v / 2, v % 2;
    var t, r := q / d, q % d;
    assert q == d * t + r;
    assert v == 2 * d * t + (2 * r + b);
    DivModUnique(v, 2 * d, t, 2 * r + b);
  }

  /** The remainder is the one r in [0, d) with v = d*t + r. */
  lemma DivModUnique(v: int, d: int, t: int, r: int)
    requires d > 0 && 0 <= r < d && v == d * t + r
    ensures v % d == r && v / d == t
  {
    var t', r' := v / d, v % d;
    var e := t - t';
    assert d * e == r' - r;
    if e > 0 {
      AtLeastOnce(d, e);
    } else if e < 0 {
      AtLeastOnce(d, -e);
    }
  }

  lemma AtLeastOnce(d: int, e: int)
    requires d > 0 && e >= 1
    ensures d * e >= d
  {
    assert d * e == d * (e - 1) + d;
  }

  /** A value already in [0, 2^k) passes the mask unchanged. */
  lemma MaskKeepsInRange(v: int, k: nat)
    requires 0 <= v < Pow2(k)
    ensures Mask(v, k) == v
  {
    MaskIsMod(v, k);
  }

  /** A fraction in [0, 1) scaled by a texture size and floored is a column
      or row of that texture. */
  lemma ScaledFraction(size: real, frac: real)
    requires size >= 1.0 && 0.0 <= frac < 1.0
    ensures 0 <= (size * frac).Floor && (size * frac).Floor as real < size
  {
    assert size * frac < size * 1.0;
  }

  /** The texel index `size * ty + tx` of a size-by-size texture. */
  lemma TexelInRange(size: nat, tx: int, ty: int)
    requires 0 <= tx < size && 0 <= ty < size
    ensures 0 <= size * ty + tx < size * size
  {
    MulMonotone(size, ty, size - 1);
    assert size * (size - 1) + size == size * size;
  }

  lemma MulMonotone(a: int, b: int, c: int)
    requires a >= 0 && 0 <= b <= c
    ensures 0 <= a * b <= a * c
  {
    assert a * c - a * b == a * (c - b);
  }

  /** Row-major index `y * w + x` of a w-wide buffer of `rows` rows: in range,
      and x and y are recovered from it. */
  lemma RowMajor(w: nat, rows: nat, y: int, x: int)
    requires 0 <= y < rows && 0 <= x < w
    ensures 0 <= y * w + x < rows * w
    ensures (y * w + x) / w == y && (y * w + x) % w == x
  {
    MulMonotone(w, y, rows - 1);
    assert w * (rows - 1) + w == rows * w;
    DivModUnique(y * w + x, w, y, x);
  }

  /** Distinct cells have distinct row-major indexes. */
  lemma RowMajorInjective(w: nat, y: int, x: int, y': int, x': int)
    requires 0 <= x < w && 0 <= x' < w
    requires y * w + x == y' * w + x'
    ensures y == y' && x == x'
  {
    DivModUnique(y * w + x, w, y, x);
    DivModUnique(y' * w + x', w, y', x');
  }
}
