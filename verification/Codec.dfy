/** The datagram format on values: what `encapsulate` puts on the wire, what `decapsulate` makes of a
    buffer, and that the second undoes the first. The in-place code is in Pbuf.dfy. */
module Codec {
  import opened Base

  const HEADER := 20      // nonce 8, chksum 4, ack 4, flag 2, len 2
  const NONCE := 8
  const CAPACITY := 2048  // bytes in a packet buffer's payload
  const BUFFER := HEADER + CAPACITY

  type digest = s: seq<byte> | |s| == 16 witness seq(16, i => 0)

  /** The library code, as unknown functions closed over the shared key: LZ4 (an empty result stands for
      failure), keyed BLAKE2b with 16-byte output, and the ChaCha20 keystream by factor, nonce and position. */
  datatype Library = Library(
    squeeze: seq<byte> -> seq<byte>,
    unsqueeze: seq<byte> -> Option<seq<byte>>,
    mac: seq<byte> -> digest,
    stream: (seq<byte>, seq<byte>, nat) -> byte)

  /** The only law needed of them: decompression undoes compression. */
  ghost predicate Lawful(lib: Library) {
    && (forall x :: 0 < |x| <= CAPACITY && lib.squeeze(x) != [] ==> lib.unsqueeze(lib.squeeze(x)) == Some(x))
    && (forall x :: lib.unsqueeze(x).Some? ==> |lib.unsqueeze(x).value| <= CAPACITY)
  }

  /** The random choices behind one datagram and the bytes its unused ack field happens to hold.
      `randombytes_uniform(b)` is `roll % b`: every value below b, and no other, arises from some roll. */
  datatype Salt = Salt(nonce: seq<byte>, ack: seq<byte>, roll: nat, fill: seq<byte>)

  predicate ValidSalt(salt: Salt) {
    |salt.nonce| == NONCE && |salt.ack| == 4 && |salt.fill| == CAPACITY
  }

  // ---------------------------------------------------------------- bytes

  function XorBits(a: nat, b: nat, k: nat): (r: nat)
    ensures r < Shl(1, k)
  {
    if k == 0 then 0 else (if a % 2 == b % 2 then 0 else 1) + 2 * XorBits(a / 2, b / 2, k - 1)
  }

  function Xor(a: byte, b: byte): byte {
    XorBits(a, b, 8)
  }

  lemma {:induction false} XorBitsTwice(a: nat, b: nat, k: nat)
    requires a < Shl(1, k)
    ensures XorBits(XorBits(a, b, k), b, k) == a
  {
    if k > 0 {
      XorBitsTwice(a / 2, b / 2, k - 1);
      assert XorBits(a, b, k) / 2 == XorBits(a / 2, b / 2, k - 1);
    }
  }

  lemma XorTwice(a: byte, b: byte)
    ensures Xor(Xor(a, b), b) == a
  {
    XorBitsTwice(a, b, 8);
  }

  /** The two bytes of the token that go into the one-time key. */
  function Factor(token: int): seq<byte> {
    [token % 256, token / 256 % 256]
  }

  /** XOR with the keystream of a token and nonce, from its beginning. */
  function StreamXor(lib: Library, token: int, nonce: seq<byte>, s: seq<byte>): (r: seq<byte>)
    ensures |r| == |s|
  {
    seq<byte>(|s|, i requires 0 <= i < |s| => Xor(s[i], lib.stream(Factor(token), nonce, i)))
  }

  lemma StreamXorTwice(lib: Library, token: int, nonce: seq<byte>, s: seq<byte>, k: nat)
    requires k <= |s|
    ensures StreamXor(lib, token, nonce, StreamXor(lib, token, nonce, s)[..k]) == s[..k]
  {
    hide Xor;
    forall i | 0 <= i < k
      ensures StreamXor(lib, token, nonce, StreamXor(lib, token, nonce, s)[..k])[i] == s[i]
    {
      XorTwice(s[i], lib.stream(Factor(token), nonce, i));
    }
  }

  /** Network byte order of a 16-bit field. */
  function Net16(v: nat): (r: seq<byte>)
    requires v < 0x1_0000
    ensures |r| == 2
  {
    [v / 256, v % 256]
  }

  function FromNet16(hi: byte, lo: byte): (v: nat)
    ensures v < 0x1_0000
  {
    hi * 256 + lo
  }

  // ---------------------------------------------------------------- sending

  /** What `compress` leaves in the buffer: the body and the flag. */
  function Squeezed(lib: Library, payload: seq<byte>, flag: nat): (r: (seq<byte>, nat))
    requires flag < 0x1_0000
    ensures |r.0| <= |payload| && r.1 < 0x1_0000
  {
    var out := lib.squeeze(payload);
    if 0 < |out| < |payload| then (out, if flag % 2 == 1 then flag else flag + 1) else (payload, flag)
  }

  /** The bound passed to the random source when `max` bytes are free. */
  function PaddingTier(max: nat): nat {
    if max > 897 then 554 else if max > 554 then 342 else if max > 342 then 211 else 130
  }

  /** How much random padding `obfuscate` appends to a body of `len` bytes. */
  function PaddingLength(len: nat, mtu: int, roll: nat): nat {
    if len >= mtu then 0
    else
      var max := mtu - len;
      if max > 342 then roll % PaddingTier(max) else Min(roll % PaddingTier(max), max)
  }

  function Padding(lib: Library, mtu: int, payload: seq<byte>, flag: nat, salt: Salt): nat
    requires flag < 0x1_0000
  {
    var (body, f) := Squeezed(lib, payload, flag);
    if f % 2 == 1 then 0 else PaddingLength(|body|, mtu, salt.roll)
  }

  /** The encrypted part before encryption. */
  function Plain(lib: Library, body: seq<byte>, flag: nat, salt: Salt, pad: nat): (r: seq<byte>)
    requires ValidSalt(salt) && flag < 0x1_0000 && |body| <= CAPACITY && pad <= CAPACITY
    ensures |r| == 12 + |body| + pad
  {
    lib.mac(body)[..4] + salt.ack + Net16(flag) + Net16(|body|) + body + salt.fill[..pad]
  }

  /** Payload, body and padding stay inside the payload array. */
  predicate Fits(lib: Library, mtu: int, payload: seq<byte>, flag: nat, salt: Salt)
    requires flag < 0x1_0000
  {
    |payload| <= CAPACITY && |Squeezed(lib, payload, flag).0| + Padding(lib, mtu, payload, flag, salt) <= CAPACITY
  }

  /** The datagram that `encapsulate` leaves in the buffer. */
  function Wire(lib: Library, token: int, mtu: int, payload: seq<byte>, flag: nat, salt: Salt): seq<byte>
    requires ValidSalt(salt) && flag < 0x1_0000 && Fits(lib, mtu, payload, flag, salt)
  {
    var (body, f) := Squeezed(lib, payload, flag);
    salt.nonce + StreamXor(lib, token, salt.nonce, Plain(lib, body, f, salt, Padding(lib, mtu, payload, flag, salt)))
  }

  // ---------------------------------------------------------------- receiving

  datatype Verdict =
    | Rejected                     // decapsulate returns -1
    | Aborted                      // the assertion on the decompressed length fails
    | Heartbeat                    // it returns 0
    | Data(payload: seq<byte>)     // it returns the length of the payload

  /** The buffer after the datagram of n bytes at its start is decrypted. */
  function Cleared(lib: Library, token: int, buf: seq<byte>, n: nat): (r: seq<byte>)
    requires |buf| == BUFFER && HEADER <= n <= BUFFER
    ensures |r| == BUFFER
  {
    buf[..NONCE] + StreamXor(lib, token, buf[..NONCE], buf[NONCE..n]) + buf[n..]
  }

  /** What is made of a body and its flag. */
  function Opened(lib: Library, body: seq<byte>, flag: nat): Verdict {
    if body == [] then Heartbeat
    else
      var out := if flag % 2 == 1 then lib.unsqueeze(body) else Some(body);
      if out.None? || out.value == [] then Aborted
      else if flag / 2 % 2 == 1 then Heartbeat
      else Data(out.value)
  }

  /** `decapsulate` on a datagram of n bytes at the start of a buffer. The length field is not compared
      with n, so bytes behind the datagram can take part in the checksum. */
  function Decap(lib: Library, token: int, buf: seq<byte>, n: nat): Verdict
    requires |buf| == BUFFER && HEADER <= n <= BUFFER
  {
    var m := Cleared(lib, token, buf, n);
    var flag, len := FromNet16(m[16], m[17]), FromNet16(m[18], m[19]);
    if len > CAPACITY then Rejected
    else if lib.mac(m[HEADER..HEADER + len])[..4] != m[8..12] then Rejected
    else Opened(lib, m[HEADER..HEADER + len], flag)
  }

  // ---------------------------------------------------------------- properties

  /** The padding lengths that occur with `free` bytes left are exactly those up to the tier's limit:
      553, 341, 210, or the smaller of 129 and `free`. */
  lemma PaddingRange(len: nat, mtu: int, pad: nat)
    ensures (exists roll :: PaddingLength(len, mtu, roll) == pad) <==>
            if len >= mtu then pad == 0
            else pad <= (if mtu - len > 897 then 553 else if mtu - len > 554 then 341
                         else if mtu - len > 342 then 210 else Min(129, mtu - len))
  {
    assert pad <= (if mtu - len > 342 then PaddingTier(mtu - len) - 1 else Min(129, mtu - len)) ==>
           len >= mtu || PaddingLength(len, mtu, pad) == pad;
    assert len >= mtu ==> PaddingLength(len, mtu, 0) == 0;
  }

  /** A payload that fits the MTU fits it with its padding, in every tier. */
  lemma PaddingFits(lib: Library, mtu: int, payload: seq<byte>, flag: nat, salt: Salt)
    requires flag < 0x1_0000 && |payload| <= mtu
    ensures |Squeezed(lib, payload, flag).0| + Padding(lib, mtu, payload, flag, salt) <= mtu
  {
  }

  /** All payloads up to the MTU fit when the MTU does, and the empty one of a heartbeat always fits. */
  lemma SmallFits(lib: Library, mtu: int, payload: seq<byte>, flag: nat, salt: Salt)
    requires flag < 0x1_0000 && (payload == [] || |payload| <= mtu <= CAPACITY)
    ensures Fits(lib, mtu, payload, flag, salt)
  {
    if payload != [] {
      PaddingFits(lib, mtu, payload, flag, salt);
    }
  }

  /** Padding never leaves the payload array exactly for the MTUs up to its size; the configuration
      file accepts MTUs up to 2052. */
  lemma PaddingInBounds(mtu: nat)
    ensures mtu <= CAPACITY <==>
            forall len: nat, roll :: len <= mtu ==> len + PaddingLength(len, mtu, roll) <= CAPACITY
  {
    if mtu > CAPACITY {
      assert mtu + PaddingLength(mtu, mtu, 0) > CAPACITY;
    }
  }

  lemma WireLength(lib: Library, token: int, mtu: int, payload: seq<byte>, flag: nat, salt: Salt)
    requires ValidSalt(salt) && flag < 0x1_0000 && Fits(lib, mtu, payload, flag, salt)
    ensures var w := Wire(lib, token, mtu, payload, flag, salt);
            && HEADER + |Squeezed(lib, payload, flag).0| <= |w|
            && (|payload| <= mtu ==> |w| <= HEADER + mtu)
            && |w| == HEADER + |Squeezed(lib, payload, flag).0| + Padding(lib, mtu, payload, flag, salt)
  {
    if |payload| <= mtu {
      PaddingFits(lib, mtu, payload, flag, salt);
    }
  }

  /** Where the fields of the plain text are. */
  lemma PlainLayout(lib: Library, body: seq<byte>, flag: nat, salt: Salt, pad: nat)
    requires ValidSalt(salt) && flag < 0x1_0000 && |body| <= CAPACITY && pad <= CAPACITY
    ensures var p := Plain(lib, body, flag, salt, pad);
            && p[..4] == lib.mac(body)[..4] && p[4..8] == salt.ack
            && FromNet16(p[8], p[9]) == flag && FromNet16(p[10], p[11]) == |body|
            && p[12..12 + |body|] == body
  {
  }

  /** A receiver under the same token recovers body and flag from any buffer that starts with the datagram,
      whatever lies behind it, and even when the datagram was cut short inside its padding. */
  lemma Recovered(lib: Library, token: int, mtu: int, payload: seq<byte>, flag: nat, salt: Salt, buf: seq<byte>, n: nat)
    requires ValidSalt(salt) && flag < 0x1_0000 && Fits(lib, mtu, payload, flag, salt) && |buf| == BUFFER
    requires var w := Wire(lib, token, mtu, payload, flag, salt);
             HEADER + |Squeezed(lib, payload, flag).0| <= n <= |w| && n <= BUFFER && buf[..n] == w[..n]
    ensures var (body, f) := Squeezed(lib, payload, flag);
            Decap(lib, token, buf, n) == Opened(lib, body, f)
  {
    hide StreamXor, Opened, Plain, Squeezed, Padding, FromNet16, Net16;
    var (body, f) := Squeezed(lib, payload, flag);
    var p := Plain(lib, body, f, salt, Padding(lib, mtu, payload, flag, salt));
    var w := Wire(lib, token, mtu, payload, flag, salt);
    PlainLayout(lib, body, f, salt, Padding(lib, mtu, payload, flag, salt));
    var sealed := StreamXor(lib, token, salt.nonce, p);
    assert w[..n][..NONCE] == salt.nonce && buf[..NONCE] == buf[..n][..NONCE];
    assert buf[NONCE..n] == buf[..n][NONCE..] == sealed[..n - NONCE];
    StreamXorTwice(lib, token, salt.nonce, p, n - NONCE);
    var m := Cleared(lib, token, buf, n);
    assert m == salt.nonce + p[..n - NONCE] + buf[n..];
    Shifted(salt.nonce, p, n - NONCE, buf[n..], 0, 4);
    Shifted(salt.nonce, p, n - NONCE, buf[n..], 12, 12 + |body|);
  }

  /** Behind the nonce the plain text begins. */
  lemma Shifted(nonce: seq<byte>, p: seq<byte>, t: nat, rest: seq<byte>, a: nat, b: nat)
    requires |nonce| == NONCE && a <= b <= t <= |p| && 12 <= t
    ensures var m := nonce + p[..t] + rest;
            && m[NONCE + a..NONCE + b] == p[a..b]
            && m[16] == p[8] && m[17] == p[9] && m[18] == p[10] && m[19] == p[11]
  {
    var m := nonce + p[..t] + rest;
    assert forall i :: 0 <= i < t ==> m[NONCE + i] == p[i];
  }

  /** The round trip, compressed or not: `decapsulate` returns the original payload. The flag on entry may
      hold anything but the compression and ack bits; the senders set it to 0. */
  lemma RoundTrip(lib: Library, token: int, mtu: int, payload: seq<byte>, flag: nat, salt: Salt, buf: seq<byte>, n: nat)
    requires Lawful(lib)
    requires ValidSalt(salt) && flag < 0x1_0000 && flag % 4 == 0 && Fits(lib, mtu, payload, flag, salt) && |buf| == BUFFER
    requires var w := Wire(lib, token, mtu, payload, flag, salt);
             HEADER + |Squeezed(lib, payload, flag).0| <= n <= |w| && n <= BUFFER && buf[..n] == w[..n]
    ensures Decap(lib, token, buf, n) == if payload == [] then Heartbeat else Data(payload)
  {
    hide Wire, Decap, Padding, Squeezed, Opened, Lawful;
    Recovered(lib, token, mtu, payload, flag, salt, buf, n);
    OpenedSqueezed(lib, payload, flag);
  }

  /** What is squeezed is opened again. */
  lemma OpenedSqueezed(lib: Library, payload: seq<byte>, flag: nat)
    requires Lawful(lib) && flag < 0x1_0000 && flag % 4 == 0 && |payload| <= CAPACITY
    ensures Opened(lib, Squeezed(lib, payload, flag).0, Squeezed(lib, payload, flag).1) ==
            if payload == [] then Heartbeat else Data(payload)
  {
    FlagBits(flag);
    var out := lib.squeeze(payload);
    if 0 < |out| < |payload| {
      assert lib.unsqueeze(out) == Some(payload);
    }
  }

  lemma FlagBits(flag: nat)
    requires flag % 4 == 0
    ensures flag % 2 == 0 && (flag + 1) % 2 == 1 && flag / 2 % 2 == 0 && (flag + 1) / 2 % 2 == 0
  {
    var q := flag / 4;
    assert flag == 4 * q;
    assert flag / 2 == 2 * q && (flag + 1) / 2 == 2 * q;
  }
}
