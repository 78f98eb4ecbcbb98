/** Small shared vocabulary: options, bytes, shifts. */
module Base {

  datatype Option<+T> = None | Some(value: T)

  /** An unsigned octet of memory or of the wire. */
  type byte = x: int | 0 <= x < 256

  function Min(a: int, b: int): int {
    if a <= b then a else b
  }

  /** x << k, without an upper limit. */
  function Shl(x: nat, k: nat): (r: nat)
    ensures x <= r
  {
    if k == 0 then x else 2 * Shl(x, k - 1)
  }

  /** x >> k. */
  function Shr(x: nat, k: nat): nat {
    if k == 0 then x else Shr(x, k - 1) / 2
  }

  lemma {:induction k} ShlAdd(x: nat, y: nat, k: nat)
    ensures Shl(x + y, k) == Shl(x, k) + Shl(y, k)
  {
  }

  lemma {:induction k} ShlMonotone(x: nat, y: nat, k: nat)
    requires x < y
    ensures Shl(x, k) + Shl(1, k) <= Shl(y, k)
  {
  }

  /** A number lies in the block of size 2^k that its upper bits name. */
  lemma {:induction false} ShiftBracket(x: nat, k: nat)
    ensures Shl(Shr(x, k), k) <= x < Shl(Shr(x, k), k) + Shl(1, k)
  {
    if k > 0 {
      ShiftBracket(x, k - 1);
      var q := Shr(x, k - 1);
      ShlAdd(q / 2, q / 2, k - 1);
      ShlAdd(q / 2 + q / 2, q % 2, k - 1);
      ShlAdd(0, 0, k - 1);
      assert q == q / 2 + q / 2 + q % 2;
    }
  }

  /** ... and in no other block. */
  lemma ShiftUnique(x: nat, b: nat, k: nat)
    requires Shl(b, k) <= x < Shl(b, k) + Shl(1, k)
    ensures Shr(x, k) == b
  {
    ShiftBracket(x, k);
    if Shr(x, k) < b {
      ShlMonotone(Shr(x, k), b, k);
    } else if b < Shr(x, k) {
      ShlMonotone(b, Shr(x, k), k);
    }
  }

  lemma {:induction false} ShrCompose(x: nat, y: nat, j: nat, k: nat)
    requires j <= k && Shr(x, j) == Shr(y, j)
    ensures Shr(x, k) == Shr(y, k)
  {
    if j < k {
      ShrCompose(x, y, j, k - 1);
    }
  }

  // ---------------------------------------------------------------- shifts as arithmetic

  function Power(b: nat, e: nat): (r: nat)
    ensures b > 0 ==> r > 0
  {
    if e == 0 then 1 else b * Power(b, e - 1)
  }

  lemma MulAtLeast(k: int, m: nat)
    requires 1 <= k
    ensures m <= k * m
  {
  }

  /** Quotient and remainder are unique. */
  lemma QuotientUnique(p: int, y: nat, q: int, z: nat, m: nat)
    requires y < m && z < m && p * m + y == q * m + z
    ensures p == q && y == z
  {
    if p < q {
      MulAtLeast(q - p, m);
    } else if q < p {
      MulAtLeast(p - q, m);
    }
  }

  lemma MulAssociates(a: nat, b: nat, c: nat)
    ensures a * (b * c) == (a * b) * c
  {
  }

  lemma {:induction false} ShlIsMul(x: nat, k: nat)
    ensures Shl(x, k) == x * Power(2, k)
  {
    if k > 0 {
      ShlIsMul(x, k - 1);
      var y := Power(2, k - 1);
      assert Power(2, k) == y + y && x * (y + y) == x * y + x * y;
    }
  }

  /** x >> k is the quotient by 2^k. */
  lemma ShrIsDiv(x: nat, k: nat)
    ensures Shr(x, k) == x / Power(2, k)
  {
    hide Shl, Shr, Power;
    ShiftBracket(x, k);
    ShlIsMul(Shr(x, k), k);
    ShlIsMul(1, k);
    var m := Power(2, k);
    QuotientUnique(x / m, x % m, Shr(x, k), x - Shr(x, k) * m, m);
  }

  lemma {:induction false} ShrAfter(x: nat, j: nat, k: nat)
    ensures Shr(Shr(x, j), k) == Shr(x, j + k)
  {
    if k > 0 {
      ShrAfter(x, j, k - 1);
    }
  }

  lemma ShrFour(x: nat)
    ensures Shr(x, 4) == x / 16
  {
    assert Shr(x, 1) == x / 2;
    assert Shr(x, 2) == x / 4;
    assert Shr(x, 3) == x / 8;
  }
}
