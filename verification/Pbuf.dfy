/** The packet buffer and the code that encapsulates and decapsulates in place. */
module PacketBuffer {
  import opened Base
  import opened Codec
  import opened Format

  /** `pbuf_t`: the bytes that can go on the wire, as one stretch of memory, and the padding length behind
      them. The two 16-bit fields are kept in the byte order of the host. */
  class Pbuf {
    const mem: array<byte>
    const little: bool
    var padding: int

    ghost predicate Valid()
    {
      mem.Length == BUFFER
    }

    constructor (littleEndian: bool)
      ensures Valid() && fresh(mem) && little == littleEndian
    {
      mem := new byte[BUFFER](i => 0);
      little := littleEndian;
      padding := 0;
    }

    // ---------------------------------------------------------------- fields

    function Host16(a: byte, b: byte): (v: nat)
      ensures v < 0x1_0000
    {
      if little then b * 256 + a else a * 256 + b
    }

    /** `htons`; it is its own inverse `ntohs`. */
    function Swapped(v: nat): (r: nat)
      requires v < 0x1_0000
      ensures r < 0x1_0000
    {
      if little then v % 256 * 256 + v / 256 else v
    }

    function Flag(): (v: nat)
      requires Valid()
      reads mem
      ensures v < 0x1_0000
    {
      Host16(mem[16], mem[17])
    }

    function Len(): (v: nat)
      requires Valid()
      reads mem
      ensures v < 0x1_0000
    {
      Host16(mem[18], mem[19])
    }

    ghost function Body(): seq<byte>
      requires Valid() && Len() <= CAPACITY
      reads mem
    {
      mem[HEADER..HEADER + Len()]
    }

    /** memcpy into the buffer. */
    method Store(at: nat, bytes: seq<byte>)
      requires Valid() && at + |bytes| <= BUFFER
      modifies mem
      ensures mem[..] == old(mem[..at]) + bytes + old(mem[at + |bytes|..])
    {
      var i := 0;
      while i < |bytes|
        invariant 0 <= i <= |bytes|
        invariant mem[..] == old(mem[..at]) + bytes[..i] + old(mem[at + i..])
      {
        mem[at + i] := bytes[i];
        i := i + 1;
      }
    }

    method Store16(at: nat, v: nat)
      requires Valid() && at + 2 <= BUFFER && v < 0x1_0000
      modifies mem
      ensures Host16(mem[at], mem[at + 1]) == v
      ensures mem[..at] == old(mem[..at]) && mem[at + 2..] == old(mem[at + 2..])
    {
      if little {
        mem[at], mem[at + 1] := v % 256, v / 256;
      } else {
        mem[at], mem[at + 1] := v / 256, v % 256;
      }
    }

    /** A field stored through `htons` is in network order. */
    lemma SwappedIsNetOrder(v: nat, a: byte, b: byte)
      requires v < 0x1_0000
      ensures Host16(a, b) == Swapped(v) <==> [a, b] == Net16(v)
      ensures Swapped(Host16(a, b)) == FromNet16(a, b)
    {
      var hi, lo := v / 256, v % 256;
      assert v == hi * 256 + lo && hi < 256;
      if little {
        assert Swapped(v) == lo * 256 + hi;
        Digits(b, a, lo, hi);
        Digits(b, a, Host16(a, b) / 256, Host16(a, b) % 256);
      } else {
        Digits(a, b, hi, lo);
      }
    }

    static lemma Digits(a: int, b: int, c: int, d: int)
      requires 0 <= b < 256 && 0 <= d < 256
      ensures a * 256 + b == c * 256 + d <==> a == c && b == d
    {
    }

    /** `crypto_stream_chacha20_xor` on the bytes from the checksum up to `to`. */
    method XorFromChecksum(lib: Library, token: int, to: nat)
      requires Valid() && NONCE <= to <= BUFFER
      modifies mem
      ensures mem[..] == old(mem[..NONCE]) + StreamXor(lib, token, old(mem[..NONCE]), old(mem[NONCE..to])) + old(mem[to..])
    {
      hide Xor;
      ghost var nonce, sealed := mem[..NONCE], StreamXor(lib, token, mem[..NONCE], mem[NONCE..to]);
      var factor, n := Factor(token), mem[..NONCE];
      var i := NONCE;
      while i < to
        invariant NONCE <= i <= to
        invariant mem[..] == nonce + sealed[..i - NONCE] + old(mem[i..])
      {
        assert mem[i] == old(mem[i]);
        mem[i] := Xor(mem[i], lib.stream(factor, n, i - NONCE));
        assert mem[i] == sealed[i - NONCE];
        i := i + 1;
      }
    }

    // ---------------------------------------------------------------- compress.c

    method Compress(lib: Library)
      requires Valid() && Len() <= CAPACITY
      modifies mem
      ensures Len() <= CAPACITY && (Body(), Flag()) == Squeezed(lib, old(Body()), old(Flag()))
      ensures mem[..16] == old(mem[..16])
    {
      var out := lib.squeeze(mem[HEADER..HEADER + Len()]);
      if 0 < |out| < Len() {
        var flag := Flag();
        ghost var front := mem[..18];
        Store(HEADER, out);
        assert mem[HEADER..][..|out|] == out && mem[..18] == front;
        SetLen(|out|);
        assert mem[..18] == front && mem[..16] == front[..16];
        SetFlag(if flag % 2 == 1 then flag else flag + 1);
        assert mem[HEADER..] == mem[18..][2..];
        assert Body() == mem[HEADER..][..|out|];
      }
    }

    method SetFlag(v: nat)
      requires Valid() && v < 0x1_0000
      modifies mem
      ensures Flag() == v && Len() == old(Len()) && mem[..16] == old(mem[..16]) && mem[18..] == old(mem[18..])
    {
      ghost var before := mem[18..];
      Store16(16, v);
      assert mem[18] == mem[18..][0] == before[0] && mem[19] == mem[18..][1] == before[1];
    }

    method SetLen(v: nat)
      requires Valid() && v < 0x1_0000
      modifies mem
      ensures Len() == v && Flag() == old(Flag()) && mem[..18] == old(mem[..18]) && mem[HEADER..] == old(mem[HEADER..])
    {
      ghost var before := mem[..18];
      Store16(18, v);
      assert mem[16] == mem[..18][16] == before[16] && mem[17] == mem[..18][17] == before[17];
    }

    /** `decompress`; `aborted` says that its assertion fails. */
    method Decompress(lib: Library) returns (aborted: bool)
      requires Valid() && Len() <= CAPACITY && Lawful(lib)
      modifies mem
      ensures var out := if old(Flag()) % 2 == 1 then lib.unsqueeze(old(Body())) else Some(old(Body()));
              if old(Flag()) % 2 == 1 && (out.None? || out.value == []) then aborted && mem[..] == old(mem[..])
              else !aborted && Len() <= CAPACITY && Body() == out.value && Flag() == old(Flag())
    {
      aborted := false;
      if Flag() % 2 == 1 {
        var out := lib.unsqueeze(mem[HEADER..HEADER + Len()]);
        if out.None? || out.value == [] {
          aborted := true;
          return;
        }
        Store(HEADER, out.value);
        assert mem[HEADER..HEADER + |out.value|] == out.value;
        SetLen(|out.value|);
      }
    }

    // ---------------------------------------------------------------- encapsulate.c, obfuscate

    /** The padding has to stay inside the payload array. */
    method Obfuscate(mtu: int, salt: Salt)
      requires Valid() && ValidSalt(salt) && Len() + PaddingLength(Len(), mtu, salt.roll) <= CAPACITY
      modifies mem, this`padding
      ensures padding == PaddingLength(Len(), mtu, salt.roll) && Len() == old(Len())
      ensures Len() <= mtu ==> Len() + padding <= mtu
      ensures mem[..HEADER + Len()] == old(mem[..])[..HEADER + Len()]
      ensures mem[HEADER + Len()..HEADER + Len() + padding] == salt.fill[..padding]
    {
      padding := 0;
      if Len() < mtu {
        var max := mtu - Len();
        if max > 897 {
          padding := salt.roll % 554;
        } else if max > 554 {
          padding := salt.roll % 342;
        } else if max > 342 {
          padding := salt.roll % 211;
        } else {
          padding := salt.roll % 130;
          if padding > max {
            padding := max;
          }
        }
        ghost var len, before := Len(), mem[..];
        Store(HEADER + Len(), salt.fill[..padding]);
        assert mem[..HEADER + len] == before[..HEADER + len];
        assert mem[18] == mem[..HEADER + len][18] && mem[19] == mem[..HEADER + len][19];
      }
    }

    // ---------------------------------------------------------------- crypto.c

    /** `crypto_hmac` */
    method Checksum(lib: Library)
      requires Valid() && Len() <= CAPACITY
      modifies mem
      ensures mem[..8] == old(mem[..8]) && mem[8..12] == lib.mac(old(Body()))[..4] && mem[12..] == old(mem[12..])
    {
      Store(8, lib.mac(mem[HEADER..HEADER + Len()])[..4]);
    }

    /** The bytes that Encrypt seals, read off a prepared buffer. */
    lemma PlainInPlace(lib: Library, body: seq<byte>, flag: nat, salt: Salt)
      requires Valid() && ValidSalt(salt) && flag < 0x1_0000 && 0 <= padding && |body| + padding <= CAPACITY
      requires mem[8..12] == lib.mac(body)[..4] && mem[12..16] == salt.ack
      requires [mem[16], mem[17]] == Net16(flag) && [mem[18], mem[19]] == Net16(|body|)
      requires mem[HEADER..HEADER + |body| + padding] == body + salt.fill[..padding]
      ensures mem[NONCE..HEADER + |body| + padding] == Plain(lib, body, flag, salt, padding)
    {
      hide Net16;
      var end := HEADER + |body| + padding;
      assert mem[NONCE..end] == mem[8..12] + mem[12..16] + [mem[16], mem[17]] + [mem[18], mem[19]] + mem[HEADER..end];
    }

    /** `crypto_encrypt` on a body with its padding in place. */
    method Encrypt(lib: Library, token: int, salt: Salt)
      requires Valid() && ValidSalt(salt) && Len() <= CAPACITY
      requires 0 <= padding && Len() + padding <= CAPACITY
      requires mem[HEADER + Len()..HEADER + Len() + padding] == salt.fill[..padding]
      requires mem[12..16] == salt.ack
      modifies mem
      ensures var body, flag := old(Body()), old(Flag());
              mem[..HEADER + |body| + padding] ==
              salt.nonce + StreamXor(lib, token, salt.nonce, Plain(lib, body, flag, salt, padding))
    {
      hide StreamXor, Plain, Net16, Host16, Swapped;
      ghost var body, flag, tail := Body(), Flag(), mem[HEADER..];
      var end := HEADER + Len() + padding;
      Prepare(lib, salt);
      assert mem[HEADER..end] == tail[..|body| + padding] == body + salt.fill[..padding];
      PlainInPlace(lib, body, flag, salt);
      ghost var nonce, plain := mem[..NONCE], mem[NONCE..end];
      XorFromChecksum(lib, token, end);
      assert mem[..end] == nonce + StreamXor(lib, token, nonce, plain);
    }

    /** Nonce, checksum and byte order: everything before the cipher. */
    method Prepare(lib: Library, salt: Salt)
      requires Valid() && ValidSalt(salt) && Len() <= CAPACITY
      modifies mem
      ensures mem[..NONCE] == salt.nonce && mem[8..12] == lib.mac(old(Body()))[..4]
      ensures [mem[16], mem[17]] == Net16(old(Flag())) && [mem[18], mem[19]] == Net16(old(Len()))
      ensures mem[12..16] == old(mem[12..16]) && mem[HEADER..] == old(mem[HEADER..])
    {
      hide Net16, Host16, Swapped;
      ghost var start, flag, len, body := mem[..], Flag(), Len(), Body();
      Store(0, salt.nonce);
      FieldsKept(start, mem[..], NONCE);
      SameTail(mem[..], start, len);
      Checksum(lib);
      ghost var summed := mem[..];
      FieldsKept(start, summed, 12);
      SwapFields();
      SwappedIsNetOrder(flag, mem[16], mem[17]);
      SwappedIsNetOrder(len, mem[18], mem[19]);
      FrontKept(summed, mem[..]);
    }

    /** `htons` or `ntohs` on the two fields. */
    method SwapFields()
      requires Valid()
      modifies mem
      ensures Flag() == Swapped(old(Flag())) && Len() == Swapped(old(Len()))
      ensures mem[..16] == old(mem[..16]) && mem[HEADER..] == old(mem[HEADER..])
    {
      hide Host16, Swapped;
      ghost var back := mem[HEADER..];
      SetFlag(Swapped(Flag()));
      assert mem[HEADER..] == mem[18..][2..] == back;
      SetLen(Swapped(Len()));
      assert mem[..16] == mem[..18][..16];
    }

    static lemma FrontKept(a: seq<byte>, b: seq<byte>)
      requires |a| == |b| == BUFFER && a[..16] == b[..16]
      ensures a[..8] == b[..8] && a[8..12] == b[8..12] && a[12..16] == b[12..16]
    {
      assert forall i :: 0 <= i < 16 ==> a[i] == a[..16][i] == b[i];
    }

    static lemma FieldsKept(a: seq<byte>, b: seq<byte>, from: nat)
      requires |a| == |b| == BUFFER && from <= 16 && a[from..] == b[from..]
      ensures a[16] == b[16] && a[17] == b[17] && a[18] == b[18] && a[19] == b[19]
      ensures a[HEADER..] == b[HEADER..] && (from <= 12 ==> a[12..16] == b[12..16])
    {
      assert forall i :: from <= i < BUFFER ==> a[i] == a[from..][i - from] == b[i];
    }

    /** `encapsulate`: the datagram for the body in the buffer, and its length. */
    method Encapsulate(lib: Library, token: int, mtu: int, salt: Salt) returns (n: nat)
      requires Valid() && ValidSalt(salt) && mem[12..16] == salt.ack
      requires Len() <= CAPACITY && Fits(lib, mtu, Body(), Flag(), salt)
      modifies mem, this`padding
      ensures n <= BUFFER && mem[..n] == Wire(lib, token, mtu, old(Body()), old(Flag()), salt)
      ensures IsDatagram(lib, token, mtu, old(Body()), old(Flag()), salt, mem[..n])
    {
      hide StreamXor, Plain, Net16, Host16, PaddingLength, IsDatagram;
      ghost var payload, flag, front := Body(), Flag(), mem[..16];
      Compress(lib);
      ghost var body, f := Body(), Flag();
      assert mem[12..16] == mem[..16][12..16] == front[12..16];
      padding := 0;
      if Flag() % 2 == 0 {
        ghost var before := mem[..];
        Obfuscate(mtu, salt);
        PrefixKept(before, mem[..], HEADER + |body|);
        assert Body() == before[HEADER..HEADER + |body|];
      }
      n := HEADER + Len() + padding;
      Encrypt(lib, token, salt);
      WireIsDatagram(lib, token, mtu, payload, flag, salt);
    }

    static lemma SameTail(a: seq<byte>, b: seq<byte>, n: nat)
      requires |a| == |b| == BUFFER && a[HEADER..] == b[HEADER..] && n <= CAPACITY
      ensures a[HEADER..HEADER + n] == b[HEADER..HEADER + n]
    {
      assert a[HEADER..HEADER + n] == a[HEADER..][..n] && b[HEADER..HEADER + n] == b[HEADER..][..n];
    }

    static lemma PrefixKept(a: seq<byte>, b: seq<byte>, k: nat)
      requires |a| == |b| == BUFFER && HEADER <= k <= BUFFER && a[..k] == b[..k]
      ensures a[16] == b[16] && a[17] == b[17] && a[18] == b[18] && a[19] == b[19]
      ensures a[12..16] == b[12..16] && a[HEADER..k] == b[HEADER..k]
    {
      assert forall i :: 0 <= i < k ==> a[i] == a[..k][i] == b[i];
    }

    /** `crypto_decrypt` */
    method Decrypt(lib: Library, token: int, n: nat) returns (r: int)
      requires Valid() && HEADER <= n <= BUFFER
      modifies mem
      ensures var m := Cleared(lib, token, old(mem[..]), n);
              var len := FromNet16(m[18], m[19]);
              && Flag() == FromNet16(m[16], m[17]) && Len() == len
              && mem[HEADER..] == m[HEADER..]
              && (r == 0 || r == -1)
              && (r == 0 <==> len <= CAPACITY && lib.mac(m[HEADER..HEADER + len])[..4] == m[8..12])
    {
      hide Net16, Host16, Swapped, StreamXor, FromNet16;
      ghost var m := Cleared(lib, token, mem[..], n);
      XorFromChecksum(lib, token, n);
      assert mem[..] == m;
      SwappedIsNetOrder(0, mem[16], mem[17]);
      SwappedIsNetOrder(0, mem[18], mem[19]);
      SwapFields();
      FrontKept(m, mem[..]);
      if Len() > CAPACITY {
        return -1;
      }
      var chksum := mem[8..12];
      ghost var swapped := mem[..];
      SameTail(mem[..], m, Len());
      Checksum(lib);
      FieldsKept(swapped, mem[..], 12);
      r := if chksum == mem[8..12] then 0 else -1;
    }

    /** `decapsulate`; `aborted` says that the assertion in `decompress` fails. The second length test of the
        source repeats the first, which has already rejected the datagram. */
    method Decapsulate(lib: Library, token: int, n: nat) returns (r: int, aborted: bool)
      requires Valid() && HEADER <= n <= BUFFER && Lawful(lib)
      modifies mem
      ensures match Decap(lib, token, old(mem[..]), n)
              case Rejected => r == -1 && !aborted
              case Aborted => aborted
              case Heartbeat => r == 0 && !aborted
              case Data(payload) => !aborted && 0 < r == |payload| == Len() && Len() <= CAPACITY && Body() == payload
      ensures Refused(lib, token, old(mem[..]), n) <==> r == -1 && !aborted
      ensures !Refused(lib, token, old(mem[..]), n) ==> Decap(lib, token, old(mem[..]), n) == Taken(lib, token, old(mem[..]), n)
    {
      hide Host16, StreamXor, FromNet16, Cleared, Refused, Taken;
      aborted := false;
      RejectedIsRefused(lib, token, mem[..], n);
      if !Refused(lib, token, mem[..], n) {
        VerdictIsTaken(lib, token, mem[..], n);
      }
      ghost var m := Cleared(lib, token, mem[..], n);
      var invalid := Decrypt(lib, token, n);
      if invalid != 0 {
        return -1, false;
      }
      SameTail(mem[..], m, Len());
      if Len() == 0 {
        return 0, false;
      }
      aborted := Decompress(lib);
      if aborted {
        return -1, true;
      }
      if Flag() / 2 % 2 == 1 {
        return 0, false;
      }
      r := Len();
    }
  }
}
