/** The shifts and masks the source computes with, as recursive functions on unbounded naturals. */
module Bits {
  import opened Arith

  /** k << b, before any truncation. */
  function Shl(k: nat, b: nat): (r: nat)
    ensures k <= r
  {
    if b == 0 then k else 2 * Shl(k, b - 1)
  }

  /** v >> b. */
  function Shr(v: nat, b: nat): (r: nat)
    ensures r <= v
  {
    if b == 0 then v else Shr(v / 2, b - 1)
  }

  /** v & ((1 << b) - 1): what the shift right drops. */
  function Low(v: nat, b: nat): (r: nat)
    ensures v == Shl(Shr(v, b), b) + r
    ensures r < Shl(1, b)
  {
    ShrBounds(v, b);
    v - Shl(Shr(v, b), b)
  }

  /** (len + (1 << b) - 1) >> b: how many blocks of 2^b cover len. */
  function CeilShr(len: nat, b: nat): nat {
    Shr(len + Shl(1, b) - 1, b)
  }

  lemma {:induction false} ShlAdd(x: nat, y: nat, b: nat)
    ensures Shl(x + y, b) == Shl(x, b) + Shl(y, b)
  {
    if b != 0 {
      ShlAdd(x, y, b - 1);
    }
  }

  lemma {:induction false} ShlMono(x: nat, y: nat, b: nat)
    requires x <= y
    ensures Shl(x, b) <= Shl(y, b)
  {
    ShlAdd(x, y - x, b);
  }

  lemma {:induction false} ShlShl(k: nat, a: nat, b: nat)
    ensures Shl(Shl(k, a), b) == Shl(k, a + b)
  {
    if b != 0 {
      ShlShl(k, a, b - 1);
    }
  }

  lemma {:induction false} ShlWider(k: nat, a: nat, b: nat)
    requires a <= b
    ensures Shl(k, a) <= Shl(k, b)
  {
    if a < b {
      ShlWider(k, a, b - 1);
    }
  }

  lemma {:induction false} ShrBounds(v: nat, b: nat)
    ensures Shl(Shr(v, b), b) <= v < Shl(Shr(v, b), b) + Shl(1, b)
  {
    if b != 0 {
      ShrBounds(v / 2, b - 1);
    }
  }

  /** The shift right is the only q whose block holds v. */
  lemma ShrUnique(v: nat, b: nat, q: nat)
    requires Shl(q, b) <= v < Shl(q, b) + Shl(1, b)
    ensures Shr(v, b) == q
  {
    ShrBounds(v, b);
    ShlAdd(q, 1, b);
    ShlAdd(Shr(v, b), 1, b);
    if q < Shr(v, b) {
      ShlMono(q + 1, Shr(v, b), b);
    } else if Shr(v, b) < q {
      ShlMono(Shr(v, b) + 1, q, b);
    }
  }

  /** CeilShr(len, b) blocks cover len, and one fewer do not. */
  lemma CeilShrBounds(len: nat, b: nat)
    ensures len <= Shl(CeilShr(len, b), b) < len + Shl(1, b)
    ensures 0 < len ==> 0 < CeilShr(len, b)
    ensures 0 < CeilShr(len, b) ==> Shl(CeilShr(len, b) - 1, b) < len
  {
    ShrBounds(len + Shl(1, b) - 1, b);
    ShlZero(b);
    if 0 < CeilShr(len, b) {
      ShlAdd(CeilShr(len, b) - 1, 1, b);
    }
  }

  lemma CeilShrUnique(len: nat, b: nat, k: nat)
    requires len <= Shl(k, b) < len + Shl(1, b)
    ensures k == CeilShr(len, b)
  {
    ShrUnique(len + Shl(1, b) - 1, b, k);
  }

  lemma {:induction false} ShlZero(b: nat)
    ensures Shl(0, b) == 0
  {
    if b != 0 {
      ShlZero(b - 1);
    }
  }

  /** Shifting left multiplies by the power of two. */
  lemma {:induction false} ShlIsMul(k: nat, b: nat)
    ensures Shl(k, b) == k * Shl(1, b)
  {
    if b != 0 {
      ShlIsMul(k, b - 1);
      MulAssoc(k, Shl(1, b - 1), 2);
    }
  }

  lemma ShlValues()
    ensures Shl(1, 24) == 0x100_0000
    ensures Shl(1, 25) == 0x200_0000
  {
    assert Shl(1, 12) == 0x1000;
    assert Shl(0x1000, 12) == 0x100_0000;
    ShlShl(1, 12, 12);
  }
}
