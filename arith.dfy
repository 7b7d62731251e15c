/**
 * Facts about Euclidean division that the grid index conversions of days 4
 * and 6 rely on (`usize::div_euclid`/`rem_euclid` and Dafny's `/` and `%`
 * agree on non-negative operands).
 */
module Arith {

  lemma MulAtLeast(d: int, x: int)
    requires d > 0 && x >= 1
    ensures d * x >= d
  {
    if x > 1 {
      MulAtLeast(d, x - 1);
      assert d * x == d * (x - 1) + d;
    }
  }

  /** Quotient and remainder are unique: `q * d + r` splits back into `q` and `r`. */
  lemma DivModOf(q: int, r: int, d: int)
    requires d > 0 && 0 <= r < d
    ensures (q * d + r) / d == q
    ensures (q * d + r) % d == r
  {
    var a := q * d + r;
    var x := q - a / d;
    assert d * x == a % d - r by {
      assert a == d * (a / d) + a % d;
      assert d * x == d * q - d * (a / d);
    }
    if x >= 1 {
      MulAtLeast(d, x);
    } else if x <= -1 {
      MulAtLeast(d, -x);
    }
  }

  /** An index below `w * h` has a quotient below `h`. */
  lemma DivBelow(i: int, w: int, h: int)
    requires w > 0 && 0 <= i < w * h
    ensures 0 <= i / w < h
  {
    var q := i / w;
    assert i == w * q + i % w;
    if q >= h {
      MulAtLeast(w, q - h + 1);
    }
  }

  /** A row-major index `y * w + x` of a cell of a `w`-by-`h` grid is below `w * h`. */
  lemma IndexBelow(x: int, y: int, w: int, h: int)
    requires 0 <= x < w && 0 <= y < h
    ensures 0 <= y * w + x < w * h
  {
    if h - y - 1 >= 1 {
      MulAtLeast(w, h - y - 1);
    }
    assert w * h == y * w + w + w * (h - y - 1);
  }

  /** Multiplying by a non-negative factor keeps the order. */
  lemma {:induction false} MulLe(a: nat, b: nat, c: nat)
    requires a <= b
    ensures a * c <= b * c
  {
    if a < b {
      MulLe(a, b - 1, c);
      assert b * c == (b - 1) * c + c;
    }
  }
}
