/** The datagram byte by byte, without the functions of Codec.dfy: what goes out, and what is refused. */
module Format {
  import opened Base
  import opened Codec

  // ---------------------------------------------------------------- XOR

  lemma {:induction false} ShrHead(x: nat, k: nat)
    requires 0 < k
    ensures Shr(x, k) == Shr(x / 2, k - 1)
  {
    if k > 1 {
      ShrHead(x, k - 1);
    }
  }

  lemma {:induction false} XorBitsAt(a: nat, b: nat, m: nat, k: nat)
    requires k < m
    ensures Shr(XorBits(a, b, m), k) % 2 == (Shr(a, k) + Shr(b, k)) % 2
  {
    if k > 0 {
      var x := XorBits(a, b, m);
      assert x / 2 == XorBits(a / 2, b / 2, m - 1);
      ShrHead(x, k);
      ShrHead(a, k);
      ShrHead(b, k);
      XorBitsAt(a / 2, b / 2, m - 1, k - 1);
    }
  }

  /** Every bit of the result is the sum of the two bits, without carry. */
  lemma XorIsBitwise(a: byte, b: byte, k: nat)
    requires k < 8
    ensures Xor(a, b) / Power(2, k) % 2 == (a / Power(2, k) + b / Power(2, k)) % 2
  {
    hide Power;
    XorBitsAt(a, b, 8, k);
    ShrIsDiv(Xor(a, b), k);
    ShrIsDiv(a, k);
    ShrIsDiv(b, k);
  }

  lemma XorInjective(a: byte, b: byte, s: byte)
    requires Xor(a, s) == Xor(b, s)
    ensures a == b
  {
    XorTwice(a, s);
    XorTwice(b, s);
  }

  // ---------------------------------------------------------------- sending

  /** w is a datagram for the payload. When the library makes the payload shorter, and the result is not empty,
      that is the body, bit 0 of the flag is set, and there is no padding; otherwise the payload is the body, and
      with bit 0 of the flag clear the padding depends on the bytes left up to the MTU. Behind the nonce come,
      XORed with the keystream from its start: four bytes of the body's hash, the ack field, flag and length with
      the high byte first, the body, and the padding. */
  ghost predicate IsDatagram(lib: Library, token: int, mtu: int, payload: seq<byte>, flag: nat, salt: Salt, w: seq<byte>)
    requires ValidSalt(salt) && flag < 0x1_0000 && |payload| <= 2048
  {
    var out := lib.squeeze(payload);
    var small := 0 < |out| < |payload|;
    var body := if small then out else payload;
    var f := if small && flag % 2 == 0 then flag + 1 else flag;
    var free := mtu - |body|;
    var pad :=
      if f % 2 == 1 || free <= 0 then 0
      else if free > 897 then salt.roll % 554
      else if free > 554 then salt.roll % 342
      else if free > 342 then salt.roll % 211
      else if salt.roll % 130 > free then free
      else salt.roll % 130;
    && |w| == 20 + |body| + pad <= 20 + 2048
    && w[..8] == salt.nonce
    && forall i :: 8 <= i < |w| ==>
         w[i] == Xor(if i < 12 then lib.mac(body)[i - 8]
                     else if i < 16 then salt.ack[i - 12]
                     else if i == 16 then f / 256
                     else if i == 17 then f % 256
                     else if i == 18 then |body| / 256
                     else if i == 19 then |body| % 256
                     else if i < 20 + |body| then body[i - 20]
                     else salt.fill[i - 20 - |body|],
                     lib.stream([token % 256, token / 256 % 256], salt.nonce, i - 8))
  }

  lemma WireIsDatagram(lib: Library, token: int, mtu: int, payload: seq<byte>, flag: nat, salt: Salt)
    requires ValidSalt(salt) && flag < 0x1_0000 && Fits(lib, mtu, payload, flag, salt)
    ensures IsDatagram(lib, token, mtu, payload, flag, salt, Wire(lib, token, mtu, payload, flag, salt))
  {
    hide Xor, Plain, StreamXor;
    var w := Wire(lib, token, mtu, payload, flag, salt);
    var (body, f) := Squeezed(lib, payload, flag);
    var pad := Padding(lib, mtu, payload, flag, salt);
    assert w[..8] == salt.nonce;
    forall i | 8 <= i < |w|
      ensures w[i] == Xor(PlainByte(lib, body, f, salt, i - 8),
                          lib.stream([token % 256, token / 256 % 256], salt.nonce, i - 8))
    {
      assert w[i] == StreamXor(lib, token, salt.nonce, Plain(lib, body, f, salt, pad))[i - 8];
      SealedAt(lib, token, body, f, salt, pad, i - 8);
    }
  }

  /** Byte j of what is encrypted. */
  function PlainByte(lib: Library, body: seq<byte>, f: nat, salt: Salt, j: nat): byte
    requires ValidSalt(salt) && f < 0x1_0000 && |body| <= 2048 && j < 12 + |body| + 2048
  {
    if j < 4 then lib.mac(body)[j]
    else if j < 8 then salt.ack[j - 4]
    else if j == 8 then f / 256
    else if j == 9 then f % 256
    else if j == 10 then |body| / 256
    else if j == 11 then |body| % 256
    else if j < 12 + |body| then body[j - 12]
    else salt.fill[j - 12 - |body|]
  }

  lemma SealedAt(lib: Library, token: int, body: seq<byte>, f: nat, salt: Salt, pad: nat, j: nat)
    requires ValidSalt(salt) && f < 0x1_0000 && |body| <= CAPACITY && pad <= CAPACITY && j < 12 + |body| + pad
    ensures StreamXor(lib, token, salt.nonce, Plain(lib, body, f, salt, pad))[j] ==
            Xor(PlainByte(lib, body, f, salt, j), lib.stream([token % 256, token / 256 % 256], salt.nonce, j))
  {
    hide Xor;
    assert Factor(token) == [token % 256, token / 256 % 256];
  }

  // ---------------------------------------------------------------- receiving

  /** A byte of the buffer after decryption of a datagram of n bytes at its start. */
  function Unsealed(lib: Library, token: int, buf: seq<byte>, n: nat, i: nat): byte
    requires |buf| == 2068 && n <= 2068 && i < 2068
  {
    if 8 <= i < n then Xor(buf[i], lib.stream([token % 256, token / 256 % 256], buf[..8], i - 8)) else buf[i]
  }

  /** The decrypted length field. */
  function UnsealedLength(lib: Library, token: int, buf: seq<byte>, n: nat): nat
    requires |buf| == 2068 && n <= 2068
  {
    Unsealed(lib, token, buf, n, 18) * 256 + Unsealed(lib, token, buf, n, 19)
  }

  /** The decrypted body. */
  function UnsealedBody(lib: Library, token: int, buf: seq<byte>, n: nat): (body: seq<byte>)
    requires |buf| == 2068 && n <= 2068 && UnsealedLength(lib, token, buf, n) <= 2048
    ensures |body| == UnsealedLength(lib, token, buf, n)
  {
    seq<byte>(UnsealedLength(lib, token, buf, n), j requires 0 <= j < UnsealedLength(lib, token, buf, n) =>
      Unsealed(lib, token, buf, n, 20 + j))
  }

  /** A datagram is refused when its length field exceeds the payload array or some byte of its checksum is not
      that of the body's hash. */
  predicate Refused(lib: Library, token: int, buf: seq<byte>, n: nat)
    requires |buf| == 2068 && n <= 2068
  {
    UnsealedLength(lib, token, buf, n) > 2048
    || exists i :: 0 <= i < 4 && Unsealed(lib, token, buf, n, 8 + i) != lib.mac(UnsealedBody(lib, token, buf, n))[i]
  }

  /** What a datagram that is not refused is taken for: an empty body is a heartbeat; bit 0 of the flag asks for
      decompression, which must yield something, and bit 1 marks what is ignored. */
  function Taken(lib: Library, token: int, buf: seq<byte>, n: nat): Verdict
    requires |buf| == 2068 && n <= 2068 && !Refused(lib, token, buf, n)
  {
    var body, low := UnsealedBody(lib, token, buf, n), Unsealed(lib, token, buf, n, 17);
    if body == [] then Heartbeat
    else if low % 2 == 1 && (lib.unsqueeze(body).None? || lib.unsqueeze(body).value == []) then Aborted
    else if low / 2 % 2 == 1 then Heartbeat
    else if low % 2 == 1 then Data(lib.unsqueeze(body).value)
    else Data(body)
  }

  lemma ClearedAt(lib: Library, token: int, buf: seq<byte>, n: nat, i: nat)
    requires |buf| == BUFFER && HEADER <= n <= BUFFER && i < BUFFER
    ensures Cleared(lib, token, buf, n)[i] == Unsealed(lib, token, buf, n, i)
  {
    hide Xor;
    assert Factor(token) == [token % 256, token / 256 % 256];
  }

  lemma ClearedFields(lib: Library, token: int, buf: seq<byte>, n: nat)
    requires |buf| == BUFFER && HEADER <= n <= BUFFER
    ensures var m := Cleared(lib, token, buf, n);
            && FromNet16(m[18], m[19]) == UnsealedLength(lib, token, buf, n)
            && FromNet16(m[16], m[17]) == Unsealed(lib, token, buf, n, 16) * 256 + Unsealed(lib, token, buf, n, 17)
            && (UnsealedLength(lib, token, buf, n) <= CAPACITY ==>
                  m[HEADER..HEADER + UnsealedLength(lib, token, buf, n)] == UnsealedBody(lib, token, buf, n))
  {
    hide Cleared, Unsealed;
    var m := Cleared(lib, token, buf, n);
    ClearedAt(lib, token, buf, n, 16);
    ClearedAt(lib, token, buf, n, 17);
    ClearedAt(lib, token, buf, n, 18);
    ClearedAt(lib, token, buf, n, 19);
    var len := UnsealedLength(lib, token, buf, n);
    if len <= CAPACITY {
      forall j | 0 <= j < len ensures m[HEADER + j] == UnsealedBody(lib, token, buf, n)[j] {
        ClearedAt(lib, token, buf, n, HEADER + j);
      }
    }
  }

  /** `decapsulate` refuses exactly these. */
  lemma RejectedIsRefused(lib: Library, token: int, buf: seq<byte>, n: nat)
    requires |buf| == BUFFER && HEADER <= n <= BUFFER
    ensures Decap(lib, token, buf, n) == Rejected <==> Refused(lib, token, buf, n)
  {
    hide Cleared, Unsealed, UnsealedLength, UnsealedBody, FromNet16;
    var m := Cleared(lib, token, buf, n);
    ClearedFields(lib, token, buf, n);
    if UnsealedLength(lib, token, buf, n) <= CAPACITY {
      var mac := lib.mac(UnsealedBody(lib, token, buf, n));
      forall i | 0 <= i < 4 ensures m[8..12][i] == Unsealed(lib, token, buf, n, 8 + i) {
        ClearedAt(lib, token, buf, n, 8 + i);
      }
      assert mac[..4] == m[8..12] <==> forall i :: 0 <= i < 4 ==> mac[..4][i] == m[8..12][i];
    }
  }

  /** ... and takes all others as stated. */
  lemma VerdictIsTaken(lib: Library, token: int, buf: seq<byte>, n: nat)
    requires |buf| == BUFFER && HEADER <= n <= BUFFER && !Refused(lib, token, buf, n)
    ensures Decap(lib, token, buf, n) == Taken(lib, token, buf, n)
  {
    RejectedIsRefused(lib, token, buf, n);
    hide Cleared, Unsealed, UnsealedLength, UnsealedBody, FromNet16, Refused;
    ClearedFields(lib, token, buf, n);
    LowFlag(Unsealed(lib, token, buf, n, 16), Unsealed(lib, token, buf, n, 17));
  }

  lemma LowFlag(hi: byte, lo: byte)
    ensures (hi * 256 + lo) % 2 == lo % 2 && (hi * 256 + lo) / 2 % 2 == lo / 2 % 2
  {
    assert (hi * 256 + lo) / 2 == hi * 128 + lo / 2;
  }

  /** A datagram of which one byte of the checksum is altered on the way is refused. */
  lemma AlteredChecksum(lib: Library, token: int, mtu: int, payload: seq<byte>, flag: nat, salt: Salt,
                        buf: seq<byte>, n: nat, i: nat)
    requires ValidSalt(salt) && flag < 0x1_0000 && Fits(lib, mtu, payload, flag, salt) && |buf| == BUFFER && 8 <= i < 12
    requires var w := Wire(lib, token, mtu, payload, flag, salt);
             && HEADER + |Squeezed(lib, payload, flag).0| <= n <= |w| && n <= BUFFER
             && buf[i] != w[i] && forall j :: 0 <= j < n && j != i ==> buf[j] == w[j]
    ensures Decap(lib, token, buf, n) == Rejected
  {
    hide Xor, Wire, Decap, Fits, Padding, Refused, UnsealedBody;
    var w := Wire(lib, token, mtu, payload, flag, salt);
    WireIsDatagram(lib, token, mtu, payload, flag, salt);
    var body := Squeezed(lib, payload, flag).0;
    assert buf[..8] == w[..8] == salt.nonce;
    XorTwice(|body| / 256, KeyAt(lib, token, salt, 10));
    XorTwice(|body| % 256, KeyAt(lib, token, salt, 11));
    assert UnsealedLength(lib, token, buf, n) == |body|;
    forall j | 0 <= j < |body| ensures Unsealed(lib, token, buf, n, 20 + j) == body[j] {
      XorTwice(body[j], KeyAt(lib, token, salt, 12 + j));
    }
    SameBody(lib, token, buf, n, body);
    if Unsealed(lib, token, buf, n, i) == lib.mac(body)[i - 8] {
      XorTwice(buf[i], KeyAt(lib, token, salt, i - 8));
      assert false;
    }
    RefusedAt(lib, token, buf, n, i - 8);
    RejectedIsRefused(lib, token, buf, n);
  }

  function KeyAt(lib: Library, token: int, salt: Salt, i: nat): byte {
    lib.stream([token % 256, token / 256 % 256], salt.nonce, i)
  }

  lemma SameBody(lib: Library, token: int, buf: seq<byte>, n: nat, body: seq<byte>)
    requires |buf| == 2068 && n <= 2068 && UnsealedLength(lib, token, buf, n) == |body| <= 2048
    requires forall j :: 0 <= j < |body| ==> Unsealed(lib, token, buf, n, 20 + j) == body[j]
    ensures UnsealedBody(lib, token, buf, n) == body
  {
    hide Unsealed, UnsealedLength;
  }

  lemma RefusedAt(lib: Library, token: int, buf: seq<byte>, n: nat, i: nat)
    requires |buf| == 2068 && n <= 2068 && UnsealedLength(lib, token, buf, n) <= 2048 && i < 4
    requires Unsealed(lib, token, buf, n, 8 + i) != lib.mac(UnsealedBody(lib, token, buf, n))[i]
    ensures Refused(lib, token, buf, n)
  {
    hide Unsealed, UnsealedLength, UnsealedBody;
  }
}
