/** The time-based token: which port, out of a path's range, is in use at a given moment. */
module Totp {
  import opened Base
  import opened Codec

  const TOTP_STEP := 500  // milliseconds

  // ---------------------------------------------------------------- the text of a step

  function HexDigit(d: nat): byte
    requires d < 16
  {
    if d < 10 then 48 + d else 87 + d
  }

  /** The last k hexadecimal digits of t, most significant first: `%016llx` for k = 16. */
  function HexText(t: nat, k: nat): (s: seq<byte>)
    ensures |s| == k
  {
    if k == 0 then [] else HexText(t / 16, k - 1) + [HexDigit(t % 16)]
  }

  function FromHexDigit(b: byte): nat {
    if b < 58 then (if b < 48 then 0 else b - 48) else if b < 87 then 0 else b - 87
  }

  function FromHexText(s: seq<byte>): nat {
    if s == [] then 0 else FromHexText(s[..|s| - 1]) * 16 + FromHexDigit(s[|s| - 1])
  }

  lemma {:induction false} HexTextInvertible(t: nat, k: nat)
    requires t < Shl(1, 4 * k)
    ensures FromHexText(HexText(t, k)) == t
  {
    if k > 0 {
      assert Shl(1, 4 * k) == 2 * Shl(1, 4 * k - 1) == 4 * Shl(1, 4 * k - 2) == 8 * Shl(1, 4 * k - 3);
      HexTextInvertible(t / 16, k - 1);
      assert HexText(t, k)[..k - 1] == HexText(t / 16, k - 1);
    }
  }

  /** The number of the 500 ms step at a wall-clock time, `offset` steps away, as a 64-bit unsigned value. */
  function Step(wall: nat, offset: int): nat {
    (wall / TOTP_STEP + offset) % 0x1_0000_0000_0000_0000
  }

  lemma SixtyFourBits()
    ensures Shl(1, 64) == 0x1_0000_0000_0000_0000
  {
    assert Shl(1, 8) == 0x100;
    assert Shl(1, 16) == 0x1_0000;
    assert Shl(1, 24) == 0x100_0000;
    assert Shl(1, 32) == 0x1_0000_0000;
    assert Shl(1, 40) == 0x100_0000_0000;
    assert Shl(1, 48) == 0x1_0000_0000_0000;
    assert Shl(1, 56) == 0x100_0000_0000_0000;
  }

  /** Different steps are hashed from different texts. */
  lemma StepTextsDiffer(t: nat, u: nat)
    requires t < 0x1_0000_0000_0000_0000 && u < 0x1_0000_0000_0000_0000 && t != u
    ensures HexText(t, 16) != HexText(u, 16)
  {
    hide HexText, FromHexText;
    SixtyFourBits();
    HexTextInvertible(t, 16);
    HexTextInvertible(u, 16);
  }

  // ---------------------------------------------------------------- the token

  /** The digest as one big-endian number. */
  function BigEndian(d: seq<byte>): nat {
    if d == [] then 0 else BigEndian(d[..|d| - 1]) * 256 + d[|d| - 1]
  }

  /** The token of a path with range + 1 ports at a wall-clock time, `offset` steps away. */
  function Token(lib: Library, range: nat, wall: nat, offset: int): nat {
    if range == 0 then 0 else BigEndian(lib.mac(HexText(Step(wall, offset), 16))) % (range + 1)
  }

  /** One Horner step may be taken on the remainder. */
  lemma HornerMod(a: nat, b: nat, m: nat)
    requires 0 < m
    ensures (a % m * 256 + b) % m == (a * 256 + b) % m
  {
    var q, c := a / m, a % m * 256 + b;
    assert a == q * m + a % m;
    assert a * 256 + b == (q * 256) * m + c;
    var z := c % m;
    assert c == c / m * m + z;
    assert a * 256 + b == (q * 256 + c / m) * m + z;
    QuotientUnique((a * 256 + b) / m, (a * 256 + b) % m, q * 256 + c / m, z, m);
  }

  /** `totp`: the loop folds the digest into a C int, which stays in range when the port range is below 2^23. */
  method ComputeToken(lib: Library, range: nat, wall: nat, offset: int) returns (token: nat)
    requires range <= 0x7F_FFFF
    ensures token == Token(lib, range, wall, offset)
  {
    hide HexText, HexDigit;
    if range == 0 {
      return 0;
    }
    var d := lib.mac(HexText(Step(wall, offset), 16));
    token := 0;
    for i := 0 to 16
      invariant token == BigEndian(d[..i]) % (range + 1) <= range
    {
      assert d[..i + 1][..i] == d[..i];
      HornerMod(BigEndian(d[..i]), d[i], range + 1);
      assert token * 256 + d[i] <= 0x7FFF_FFFF;
      token := (token * 256 + d[i]) % (range + 1);
    }
    assert d[..16] == d;
  }

  /** That bound is exact: the loop stays within a 32-bit int for every digest just when range < 2^23. */
  lemma HornerFits(range: nat)
    ensures range <= 0x7F_FFFF <==>
            forall d: digest, i :: 0 <= i < 16 ==> BigEndian(d[..i]) % (range + 1) * 256 + d[i] <= 0x7FFF_FFFF
  {
    if range > 0x7F_FFFF {
      var d: digest := seq<byte>(16, i => if i == 0 then 0x80 else 0);
      assert d[..3][..2] == d[..2] && d[..2][..1] == d[..1] && d[..1][..0] == [];
      assert BigEndian(d[..1]) == 0x80;
      assert BigEndian(d[..2]) == 0x8000;
      assert BigEndian(d[..3]) == 0x80_0000;
      assert BigEndian(d[..3]) % (range + 1) * 256 + d[3] > 0x7FFF_FFFF;
    }
  }

  lemma TokenInRange(lib: Library, range: nat, wall: nat, offset: int)
    ensures 0 <= Token(lib, range, wall, offset) <= range
  {
  }

  /** Two hosts agree on the token of a step however each of them reaches it. */
  lemma TokenShift(lib: Library, range: nat, wall: nat, offset: int)
    requires 0 <= wall + TOTP_STEP * offset
    ensures Token(lib, range, wall, offset) == Token(lib, range, wall + TOTP_STEP * offset, 0)
  {
    assert (wall + TOTP_STEP * offset) / TOTP_STEP == wall / TOTP_STEP + offset;
  }

  // ---------------------------------------------------------------- the token written out

  lemma {:induction false} SixteenIsFourTwos(m: nat)
    ensures Power(16, m) == Power(2, 4 * m)
  {
    if m > 0 {
      SixteenIsFourTwos(m - 1);
      assert Power(2, 4 * m) == 2 * Power(2, 4 * m - 1) == 4 * Power(2, 4 * m - 2) == 8 * Power(2, 4 * m - 3);
    }
  }

  lemma {:induction false} HexTextShifts(t: nat, k: nat, i: nat)
    requires i < k
    ensures HexText(t, k)[i] == "0123456789abcdef"[Shr(t, 4 * (k - 1 - i)) % 16] as int
  {
    if i < k - 1 {
      HexTextShifts(t / 16, k - 1, i);
      ShrFour(t);
      ShrAfter(t, 4, 4 * (k - 2 - i));
    }
  }

  /** Character i of the k hexadecimal digits of t. */
  lemma HexTextAt(t: nat, k: nat, i: nat)
    requires i < k
    ensures HexText(t, k)[i] == "0123456789abcdef"[t / Power(16, k - 1 - i) % 16] as int
  {
    hide HexText, Shr, Power;
    HexTextShifts(t, k, i);
    SixteenIsFourTwos(k - 1 - i);
    ShrIsDiv(t, 4 * (k - 1 - i));
  }

  /** Leading zeros are written, and letters are small. */
  lemma FirstSteps()
    ensures HexText(1, 4) == [48, 48, 48, 49] && HexText(0xa9f, 4) == [48, 97, 57, 102]
  {
  }

  /** The bytes from position i on, each with its place value. */
  function Weighted(d: seq<byte>, i: nat): nat
    requires i <= |d|
    decreases |d| - i
  {
    if i == |d| then 0 else d[i] * Power(256, |d| - 1 - i) + Weighted(d, i + 1)
  }

  lemma {:induction false} WeightedDropLast(d: seq<byte>, i: nat)
    requires i < |d|
    ensures Weighted(d, i) == Weighted(d[..|d| - 1], i) * 256 + d[|d| - 1]
    decreases |d| - i
  {
    var c := d[..|d| - 1];
    if i == |d| - 1 {
      assert Power(256, 0) == 1;
    } else {
      WeightedDropLast(d, i + 1);
      MulAssociates(256, d[i], Power(256, |c| - 1 - i));
      MulAssociates(d[i], 256, Power(256, |c| - 1 - i));
    }
  }

  lemma {:induction false} BigEndianIsWeighted(d: seq<byte>)
    ensures BigEndian(d) == Weighted(d, 0)
  {
    if d != [] {
      BigEndianIsWeighted(d[..|d| - 1]);
      WeightedDropLast(d, 0);
    }
  }

  /** The token in full: from the text of the 64-bit step, 16 hexadecimal digits with leading zeros, the sum of
      the bytes of its digest, byte i times 256^(15 - i), modulo the number of ports. */
  lemma TokenWrittenOut(lib: Library, range: nat, wall: nat, offset: int, text: seq<byte>)
    requires |text| == 16
    requires var t := (wall / 500 + offset) % 0x1_0000_0000_0000_0000;
             forall i :: 0 <= i < 16 ==> text[i] == "0123456789abcdef"[t / Power(16, 15 - i) % 16] as int
    ensures Token(lib, range, wall, offset) ==
            if range == 0 then 0 else Weighted(lib.mac(text), 0) % (range + 1)
  {
    hide Power;
    var t := (wall / 500 + offset) % 0x1_0000_0000_0000_0000;
    forall i | 0 <= i < 16 ensures HexText(t, 16)[i] == text[i] {
      HexTextAt(t, 16, i);
    }
    assert HexText(t, 16) == text;
    BigEndianIsWeighted(lib.mac(text));
  }
}
