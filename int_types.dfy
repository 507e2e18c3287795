/** Fixed-width integer types of the C++ source, as subsets of the
    unbounded integers. Wrap-around and truncating casts are written out
    explicitly where the source relies on them. */
module IntTypes {
  const TwoTo8: int := 0x100
  const TwoTo16: int := 0x1_0000
  const TwoTo31: int := 0x8000_0000
  const TwoTo32: int := 0x1_0000_0000

  type u8 = x: int | 0 <= x < 0x100
  type u16 = x: int | 0 <= x < 0x1_0000
  type u32 = x: int | 0 <= x < 0x1_0000_0000
  type i16 = x: int | -0x8000 <= x < 0x8000
  type i32 = x: int | -0x8000_0000 <= x < 0x8000_0000

  /** The C cast `(uint8_t)v` of a non-negative value: keep the low 8 bits. */
  function ToU8(v: nat): (r: u8)
    ensures v < TwoTo8 ==> r == v
    ensures (r - v) % TwoTo8 == 0
  {
    v % TwoTo8
  }
}

/** Option and Result, for absent values and the source's exceptions. */
module Wrappers {
  datatype Option<T> = None | Some(value: T)

  datatype Result<T, E> = Ok(value: T) | Err(error: E)
}

/** Facts about multiplication and division of naturals that the solver
    does not find unaided. */
module NatArith {
  lemma MulMonotone(a: nat, b: nat, c: nat)
    requires b <= c
    ensures a * b <= a * c
  {
  }

  lemma MulCancelLess(x: nat, y: nat, d: nat)
    requires x * d < y * d
    ensures x < y
  {
    if y <= x { MulMonotone(d, y, x); }
  }

  lemma DivMonotone(a: nat, b: nat, d: nat)
    requires a <= b && d > 0
    ensures a / d <= b / d
  {
    var qa, qb := a / d, b / d;
    assert qa * d <= a;
    assert b < (qb + 1) * d;
    MulCancelLess(qa, qb + 1, d);
  }

  /** Quotient and remainder are determined by a == q * d + r with r < d. */
  lemma DivModUnique(a: nat, d: nat, q: nat, r: nat)
    requires d > 0 && a == q * d + r && r < d
    ensures a / d == q && a % d == r
  {
    var q', r' := a / d, a % d;
    assert a == q' * d + r';
    assert q' * d < (q + 1) * d;
    MulCancelLess(q', q + 1, d);
    assert q * d < (q' + 1) * d;
    MulCancelLess(q, q' + 1, d);
  }

  /** One more row of b * c: (a + 1) * b * c is a * b * c plus b * c. */
  lemma MulSucc(a: nat, b: nat, c: nat)
    ensures (a + 1) * b * c == a * b * c + b * c
  {
  }

  /** i * w + j stays inside an h x w grid. */
  lemma GridIndex(i: nat, j: nat, w: nat, h: nat)
    requires i < h && j < w
    ensures i * w + j < h * w
  {
    assert i * w + j < (i + 1) * w;
    MulMonotone(w, i + 1, h);
  }
}
