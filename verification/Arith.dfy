/** Integer facts used by several components: division bounds and machine widths. */
module Arith {

  // The width of vertex_id_t and walker_id_t (include/type.hpp).
  const TWO32: nat := 0x1_0000_0000

  function Min(a: int, b: int): int {
    if a <= b then a else b
  }

  function Max(a: int, b: int): int {
    if a <= b then b else a
  }

  /** Division rounded up, written the way the source writes it. */
  function CeilDiv(a: nat, b: nat): nat
    requires 0 < b
  {
    (a + b - 1) / b
  }

  lemma MulAssoc(x: int, y: int, z: int)
    ensures x * y * z == x * (y * z)
  {
  }

  lemma MulMono(a: int, b: int, c: int)
    requires a <= b && 0 <= c
    ensures a * c <= b * c && c * a <= c * b
  {
  }

  /** The quotient is the unique q with q*b <= a < (q+1)*b. */
  lemma DivUnique(a: int, b: int, q: int)
    requires 0 < b
    requires q * b <= a < (q + 1) * b
    ensures a / b == q
  {
    var d := a / b;
    assert d * b <= a < (d + 1) * b by {
      assert a == d * b + a % b;
    }
    if d < q {
      MulMono(d + 1, q, b);
    } else if q < d {
      MulMono(q + 1, d, b);
    }
  }

  lemma DivBounds(a: int, b: int)
    requires 0 < b
    ensures (a / b) * b <= a < (a / b + 1) * b
    ensures a == (a / b) * b + a % b
    ensures 0 <= a % b < b
  {
    assert a == (a / b) * b + a % b;
  }

  lemma DivMono(a: int, c: int, b: int)
    requires 0 < b && a <= c
    ensures a / b <= c / b
  {
    DivBounds(a, b);
    DivBounds(c, b);
    if c / b < a / b {
      MulMono(c / b + 1, a / b, b);
    }
  }

  /** CeilDiv(a, b) is the least c with a <= c*b. */
  lemma CeilDivBounds(a: nat, b: nat)
    requires 0 < b
    ensures a <= CeilDiv(a, b) * b
    ensures CeilDiv(a, b) * b < a + b
    ensures 0 < a ==> 0 < CeilDiv(a, b)
  {
    DivBounds(a + b - 1, b);
    assert (CeilDiv(a, b) + 1) * b == CeilDiv(a, b) * b + b;
  }

  lemma CeilDivLeast(a: nat, b: nat, c: nat)
    requires 0 < b
    requires a <= c * b
    ensures CeilDiv(a, b) <= c
  {
    CeilDivBounds(a, b);
    assert (c + 1) * b == c * b + b;
    if c < CeilDiv(a, b) {
      MulMono(c + 1, CeilDiv(a, b), b);
    }
  }

  // ----- Sums -----

  ghost function Total(s: seq<nat>): nat {
    if s == [] then 0 else Total(s[..|s| - 1]) + s[|s| - 1]
  }

  lemma TotalGrows(s: seq<nat>, n: nat)
    ensures Total(s + [n]) == Total(s) + n
  {
    assert (s + [n])[..|s|] == s;
  }

  lemma {:induction false} TotalSet(s: seq<nat>, i: nat, x: nat)
    requires i < |s|
    ensures Total(s[i := x]) == Total(s) - s[i] + x
  {
    var m := |s| - 1;
    if i < m {
      TotalSet(s[..m], i, x);
      assert s[i := x][..m] == s[..m][i := x];
    } else {
      assert s[i := x][..m] == s[..m];
    }
  }

  /** If no summand is greater, neither is the sum; it is less where one is. */
  lemma {:induction false} TotalMono(s: seq<nat>, t: seq<nat>)
    requires |s| == |t| && forall i :: 0 <= i < |s| ==> s[i] <= t[i]
    ensures Total(s) <= Total(t)
    ensures (exists i :: 0 <= i < |s| && s[i] < t[i]) ==> Total(s) < Total(t)
  {
    if s != [] {
      var m := |s| - 1;
      TotalMono(s[..m], t[..m]);
      if i :| 0 <= i < |s| && s[i] < t[i] {
        assert i < m ==> s[..m][i] < t[..m][i];
      }
    }
  }

  /** Equal summands. */
  lemma {:induction false} TotalSame(s: seq<nat>, x: nat)
    requires forall i :: 0 <= i < |s| ==> s[i] == x
    ensures Total(s) == |s| * x
  {
    if s != [] {
      TotalSame(s[..|s| - 1], x);
      assert |s| * x == (|s| - 1) * x + x;
    }
  }
}
